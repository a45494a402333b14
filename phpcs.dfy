/**
 * The parts of PHP_CodeSniffer's File object that a sniff writes to: the
 * error report, the metric log and the fixer's changeset. Each is an
 * append-only log here; how PHPCS formats reports or applies edits to the
 * file's text is outside the model.
 */
module Phpcs {
  import opened Tokens

  /** The error codes the brace sniff reports. */
  datatype ErrorCode = BraceOnSameLine | BraceSpacing | ContentAfterBrace | BraceIndent

  /**
   * One reported error. `severity` 0 stands for PHPCS's default severity,
   * which is what a call that does not pass one records.
   */
  datatype Diagnostic = Diagnostic(code: ErrorCode, pos: int, data: seq<int>, fixable: bool, severity: nat)

  /** The values the sniff records for its "opening brace placement" metric. */
  datatype Placement = SameLine | NewLine

  /** A metric entry: the keyword position, the keyword's token code and the value. */
  datatype Metric = Metric(pos: nat, keyword: Code, value: Placement)

  /** The fixer calls, in the order a sniff makes them. */
  datatype Edit =
    | Begin                           // beginChangeset()
    | End                             // endChangeset()
    | AddBefore(pos: int, text: string)  // addContentBefore(pos, text)
    | Replace(pos: int, text: string)    // replaceToken(pos, text)
    | NewlineBefore(pos: int)            // addNewlineBefore(pos)
    | Newline(pos: int)                  // addNewline(pos)

  /** The fixer: what the sniff has asked it to do, in order. */
  class Fixer {
    var changes: seq<Edit>

    constructor ()
      ensures changes == []
    {
      changes := [];
    }

    method BeginChangeset()
      modifies this
      ensures changes == old(changes) + [Begin]
    {
      changes := changes + [Begin];
    }

    method EndChangeset()
      modifies this
      ensures changes == old(changes) + [End]
    {
      changes := changes + [End];
    }

    method AddContentBefore(pos: int, text: string)
      modifies this
      ensures changes == old(changes) + [AddBefore(pos, text)]
    {
      changes := changes + [AddBefore(pos, text)];
    }

    method ReplaceToken(pos: int, text: string)
      modifies this
      ensures changes == old(changes) + [Replace(pos, text)]
    {
      changes := changes + [Replace(pos, text)];
    }

    method AddNewlineBefore(pos: int)
      modifies this
      ensures changes == old(changes) + [NewlineBefore(pos)]
    {
      changes := changes + [NewlineBefore(pos)];
    }

    method AddNewline(pos: int)
      modifies this
      ensures changes == old(changes) + [Newline(pos)]
    {
      changes := changes + [Newline(pos)];
    }
  }

  /**
   * A file being checked. `fixing` is what addFixableError answers: true
   * while PHPCS runs its fixer over the file, false while it only reports.
   */
  class File {
    const tokens: seq<Token>
    const fixing: bool
    const fixer: Fixer
    var errors: seq<Diagnostic>
    var metrics: seq<Metric>

    constructor (tokens: seq<Token>, fixing: bool)
      ensures this.tokens == tokens && this.fixing == fixing && fresh(fixer)
      ensures errors == [] && metrics == [] && fixer.changes == []
    {
      this.tokens := tokens;
      this.fixing := fixing;
      fixer := new Fixer();
      errors := [];
      metrics := [];
    }

    /** addError(message, pos, code, data, severity, fixable). */
    method AddError(pos: int, code: ErrorCode, data: seq<int>, severity: nat, fixable: bool)
      modifies this
      ensures errors == old(errors) + [Diagnostic(code, pos, data, fixable, severity)]
      ensures metrics == old(metrics)
    {
      errors := errors + [Diagnostic(code, pos, data, fixable, severity)];
    }

    /** addFixableError(message, pos, code, data): reports, and tells the caller whether to fix. */
    method AddFixableError(pos: int, code: ErrorCode, data: seq<int>) returns (fix: bool)
      modifies this
      ensures errors == old(errors) + [Diagnostic(code, pos, data, true, 0)]
      ensures metrics == old(metrics)
      ensures fix == fixing
    {
      errors := errors + [Diagnostic(code, pos, data, true, 0)];
      fix := fixing;
    }

    method RecordMetric(pos: nat, keyword: Code, value: Placement)
      modifies this
      ensures metrics == old(metrics) + [Metric(pos, keyword, value)]
      ensures errors == old(errors)
    {
      metrics := metrics + [Metric(pos, keyword, value)];
    }
  }

  /** What one call of a sniff adds to the three logs. */
  datatype Effects = Effects(diagnostics: seq<Diagnostic>, metrics: seq<Metric>, edits: seq<Edit>)
  {
    function Then(next: Effects): Effects {
      Effects(diagnostics + next.diagnostics, metrics + next.metrics, edits + next.edits)
    }
  }

  const NoEffects := Effects([], [], [])
}
