/**
 * The current brace sniff (class EnforceAllmanStyle): for every construct
 * keyword with a scope, find where its declaration ends, measure how many
 * lines lie between that token and the opening brace, and either report a
 * brace on the declaration's line (fix_same_line) or report blank lines
 * before the brace (fix_blank_lines), handing the fixer a changeset when
 * PHPCS is fixing.
 *
 * Each step is given twice: a function that says what the step adds to the
 * file's error, metric and changeset logs, and a method over the File and
 * Fixer objects, proved to append exactly that.
 */
module AllmanStyle {
  import opened Tokens
  import opened Phpcs
  import opened SniffConfig

  /** The lower stop of the backward searches: the parenthesis closer, or 0 when there is none. */
  function StopAt(closer: Option<nat>): nat {
    match closer
    case Some(c) => c
    case None => 0
  }

  /** str_repeat(' ', n). */
  function Spaces(n: nat): (r: string)
    ensures |r| == n
    ensures forall i :: 0 <= i < |r| ==> r[i] == ' '
  {
    if n == 0 then "" else Spaces(n - 1) + " "
  }

  // ---------------------------------------------------------------------
  // Declaration end and line gap (process)
  // ---------------------------------------------------------------------

  /**
   * `$prev`: the nearest token before the brace that is neither whitespace
   * nor a comment, searched back from `open - 1` and no further than the
   * parenthesis closer (to the start of the stream when there is none).
   */
  function DeclarationEnd(toks: seq<Token>, open: nat, closer: Option<nat>): (r: Option<nat>)
    requires 0 < open < |toks|
    ensures r.Some? ==>
      StopAt(closer) <= r.value < open && toks[r.value].code !in EmptyTokens &&
      forall j :: r.value < j < open ==> toks[j].code in EmptyTokens
    ensures r.None? ==> forall j :: StopAt(closer) <= j < open ==> toks[j].code in EmptyTokens
  {
    FindPrevious(toks, EmptyTokens, open - 1, StopAt(closer), true)
  }

  // ---------------------------------------------------------------------
  // fix_same_line
  // ---------------------------------------------------------------------

  /**
   * `$nextLine` after the forward scan: the first token after the brace that
   * is on another line, or the token count when the brace's line runs to the
   * end of the stream.
   */
  function LineEnd(toks: seq<Token>, open: nat): (r: nat)
    requires open < |toks|
    ensures open < r <= |toks|
    ensures forall j :: open < j < r ==> toks[j].line == toks[open].line
    ensures r == |toks| || toks[r].line != toks[open].line
  {
    LineEndFrom(toks, open, open + 1)
  }

  function LineEndFrom(toks: seq<Token>, open: nat, k: nat): (r: nat)
    requires open < k <= |toks|
    requires forall j :: open < j < k ==> toks[j].line == toks[open].line
    ensures k <= r <= |toks|
    ensures forall j :: open < j < r ==> toks[j].line == toks[open].line
    ensures r == |toks| || toks[r].line != toks[open].line
    decreases |toks| - k
  {
    if k == |toks| || toks[k].line != toks[open].line then k
    else LineEndFrom(toks, open, k + 1)
  }

  /** `$hasTrailingAnnotation`: a phpcs annotation lies strictly between the brace and `stop`. */
  predicate HasTrailingAnnotation(toks: seq<Token>, open: nat, stop: nat)
    requires stop <= |toks|
  {
    exists j :: open < j < stop && toks[j].code in PhpcsCommentTokens
  }

  /** The changeset fix_same_line hands the fixer. */
  function SameLineChangeset(toks: seq<Token>, open: nat): seq<Edit>
    requires 0 < open < |toks|
  {
    var nextLine := LineEnd(toks, open);
    var indent := FindFirstOnLine(toks, {}, open, false);
    var body :=
      if !HasTrailingAnnotation(toks, open, nextLine) then
        (if IsWhitespaceAt(toks, indent) then [AddBefore(open, ContentAt(toks, indent))] else []) +
        (if toks[open - 1].code == TWhitespace then [Replace(open - 1, "")] else []) +
        [NewlineBefore(nextLine)]
      else
        [Replace(open, ""), NewlineBefore(nextLine), AddBefore(nextLine, "{")] +
        (if IsWhitespaceAt(toks, indent) then [AddBefore(nextLine, ContentAt(toks, indent))] else []);
    [Begin] + body + [End]
  }

  /** fix_same_line: one fixable BraceOnSameLine error at the brace, and the changeset when fixing. */
  function SameLineEffects(toks: seq<Token>, open: nat, fixing: bool): Effects
    requires 0 < open < |toks|
  {
    Effects([Diagnostic(BraceOnSameLine, open, [], true, 0)], [],
            if fixing then SameLineChangeset(toks, open) else [])
  }

  /**
   * The forward scan of fix_same_line: `$nextLine` stops at the first token
   * on another line than the brace, and `$hasTrailingAnnotation` records
   * whether a phpcs annotation was passed on the way.
   */
  method ScanLine(tokens: seq<Token>, open: nat) returns (nextLine: nat, hasTrailingAnnotation: bool)
    requires open < |tokens|
    ensures nextLine == LineEnd(tokens, open)
    ensures hasTrailingAnnotation == HasTrailingAnnotation(tokens, open, nextLine)
  {
    hasTrailingAnnotation := false;
    nextLine := open + 1;
    while nextLine < |tokens|
      invariant open < nextLine <= |tokens|
      invariant forall j :: open < j < nextLine ==> tokens[j].line == tokens[open].line
      invariant hasTrailingAnnotation == HasTrailingAnnotation(tokens, open, nextLine)
      decreases |tokens| - nextLine
    {
      if tokens[open].line != tokens[nextLine].line {
        break;
      }
      if tokens[nextLine].code in PhpcsCommentTokens {
        hasTrailingAnnotation := true;
      }
      nextLine := nextLine + 1;
    }
  }


  /** The changeset of fix_same_line, once the scan has found `nextLine` and any annotation. */
  method WriteSameLineChangeset(file: File, open: nat, nextLine: nat, hasTrailingAnnotation: bool)
    requires 0 < open < |file.tokens|
    requires nextLine == LineEnd(file.tokens, open)
    requires hasTrailingAnnotation == HasTrailingAnnotation(file.tokens, open, nextLine)
    modifies file.fixer
    ensures file.fixer.changes == old(file.fixer.changes) + SameLineChangeset(file.tokens, open)
  {
    var tokens := file.tokens;
    ghost var before := file.fixer.changes;
    file.fixer.BeginChangeset();
    var indent := FindFirstOnLine(tokens, {}, open, false);
    EmptyTypeListFindsNothing(tokens, open);

    // `$nextLine` is an index, so the source's `$nextLine === false` never holds.
    ghost var body: seq<Edit>;
    if !hasTrailingAnnotation {
      if IsWhitespaceAt(tokens, indent) {
        // addContentBefore($open, ...) is never reached: the lookup above
        // matches nothing (EmptyTypeListFindsNothing).
        assert false;
      }
      if tokens[open - 1].code == TWhitespace {
        file.fixer.ReplaceToken(open - 1, "");
        body := [Replace(open - 1, "")];
      } else {
        body := [];
      }
      file.fixer.AddNewlineBefore(nextLine);
      body := body + [NewlineBefore(nextLine)];
    } else {
      file.fixer.ReplaceToken(open, "");
      file.fixer.AddNewlineBefore(nextLine);
      file.fixer.AddContentBefore(nextLine, "{");
      if IsWhitespaceAt(tokens, indent) {
        // Never reached either, for the same reason.
        assert false;
      }
      body := [Replace(open, ""), NewlineBefore(nextLine), AddBefore(nextLine, "{")];
    }
    assert file.fixer.changes == before + [Begin] + body;
    file.fixer.EndChangeset();
    SameLineChangesetContents(tokens, open);
    assert SameLineChangeset(tokens, open) == [Begin] + body + [End];
  }

  method FixSameLine(file: File, open: nat)
    requires 0 < open < |file.tokens|
    modifies file, file.fixer
    ensures file.errors == old(file.errors) + SameLineEffects(file.tokens, open, file.fixing).diagnostics
    ensures file.metrics == old(file.metrics) + SameLineEffects(file.tokens, open, file.fixing).metrics
    ensures file.fixer.changes == old(file.fixer.changes) + SameLineEffects(file.tokens, open, file.fixing).edits
  {
    var tokens := file.tokens;
    var fix := file.AddFixableError(open, BraceOnSameLine, []);
    if fix {
      var nextLine, hasTrailingAnnotation := ScanLine(tokens, open);
      WriteSameLineChangeset(file, open, nextLine, hasTrailingAnnotation);
    }
  }

  // ---------------------------------------------------------------------
  // fix_blank_lines
  // ---------------------------------------------------------------------

  /**
   * What one turn of the backward fix loop emits for token `i`. The inner
   * test repeats the outer one, so the `replaceToken` after it is never
   * reached; a token on another line closes a changeset.
   */
  function GapStep(toks: seq<Token>, open: nat, i: nat): seq<Edit>
    requires i < |toks| && open < |toks|
  {
    if toks[i].line == toks[open].line then
      if toks[i].line == toks[open].line then
        (if toks[i].column == 1 then [NewlineBefore(i)] else [])
      else
        [Replace(i, ""), End]
    else
      [End]
  }

  /**
   * What the fix loop has emitted once its counter has come down from `open`
   * to `i`: at most one call per token it has visited.
   */
  function GapEdits(toks: seq<Token>, open: nat, i: nat): (r: seq<Edit>)
    requires i <= open < |toks|
    ensures |r| <= open - i
    decreases open - i
  {
    if i == open then [] else GapEdits(toks, open, i + 1) + GapStep(toks, open, i + 1)
  }

  /** The blank-line part: the BraceSpacing error and, when fixable and fixing, its changeset. */
  function SpacingEffects(toks: seq<Token>, open: nat, closer: Option<nat>, lineDiff: int, prev: nat, fixing: bool): Effects
    requires prev < open < |toks|
  {
    var data := [lineDiff - 1];
    var prevNonWs := FindPrevious(toks, {TWhitespace}, open - 1, StopAt(closer), true);
    if prevNonWs != Some(prev) then
      Effects([Diagnostic(BraceSpacing, open, data, false, 0)], [], [])
    else
      Effects([Diagnostic(BraceSpacing, open, data, true, 0)], [],
              if fixing then [Begin] + GapEdits(toks, open, prev) else [])
  }

  /** `$ignore`: the phpcs annotations and whitespace. */
  const TrailingIgnored: set<Code> := PhpcsCommentTokens + {TWhitespace}

  /** `$next`: the first token after the brace that is neither whitespace nor a phpcs annotation. */
  function ContentAfter(toks: seq<Token>, open: nat): Option<nat> {
    FindNext(toks, TrailingIgnored, open + 1, true)
  }

  /** Whether `$next` exists and sits on the brace's line. */
  predicate ContentOnBraceLine(toks: seq<Token>, open: nat)
    requires open < |toks|
  {
    var next := ContentAfter(toks, open);
    next.Some? && toks[next.value].line == toks[open].line
  }

  /** `$next` is the construct's own closer, on the brace's line: an empty body, and fix_blank_lines returns. */
  predicate ClosesOnBraceLine(toks: seq<Token>, stackPtr: nat, open: nat)
    requires stackPtr < |toks| && open < |toks|
  {
    ContentOnBraceLine(toks, open) && Some(ContentAfter(toks, open).value) == toks[stackPtr].scopeCloser
  }

  /** The trailing-content part: other content after the brace on its line, reported and broken off. */
  function TrailingContentEffects(toks: seq<Token>, stackPtr: nat, open: nat, fixing: bool): Effects
    requires stackPtr < |toks| && open < |toks|
  {
    if ContentOnBraceLine(toks, open) && !ClosesOnBraceLine(toks, stackPtr, open) then
      Effects([Diagnostic(ContentAfterBrace, open, [], true, 0)], [], if fixing then [Newline(open)] else [])
    else NoEffects
  }

  /**
   * The indentation part: the brace against the first non-whitespace token
   * of the keyword's line, reached only when `lineDiff` is 1.
   */
  function IndentEffects(toks: seq<Token>, stackPtr: nat, open: nat, lineDiff: int, fixing: bool): Effects
    requires stackPtr < open < |toks| && toks[stackPtr].code != TWhitespace
  {
    if lineDiff != 1 then NoEffects
    else
      var lineStart := FindFirstOnLine(toks, {TWhitespace}, stackPtr, true).value;
      var startColumn := toks[lineStart].column;
      var braceIndent := toks[open].column;
      if braceIndent == startColumn then NoEffects
      else
        var expected := startColumn - 1;
        var found := braceIndent - 1;
        Effects([Diagnostic(BraceIndent, open, [expected, found], true, 0)], [],
                if !fixing then []
                else if found == 0 then [Replace(open, Spaces(expected))]
                else [Replace(open - 1, Spaces(expected))])
  }

  /** fix_blank_lines, from the spacing report to the indentation check. */
  function BlankLinesEffects(toks: seq<Token>, stackPtr: nat, open: nat, closer: Option<nat>,
                             lineDiff: int, prev: nat, fixing: bool): Effects
    requires stackPtr < open < |toks| && prev < open && toks[stackPtr].code != TWhitespace
  {
    var spacing := SpacingEffects(toks, open, closer, lineDiff, prev, fixing);
    if ClosesOnBraceLine(toks, stackPtr, open) then spacing
    else
      spacing
        .Then(TrailingContentEffects(toks, stackPtr, open, fixing))
        .Then(IndentEffects(toks, stackPtr, open, lineDiff, fixing))
  }

  /**
   * The fix loop of fix_blank_lines, from `open` down to just above `prev`,
   * appending to the changeset its Begin opened.
   */
  method CollapseGap(file: File, open: nat, prev: nat)
    requires prev < open < |file.tokens|
    modifies file.fixer
    ensures file.fixer.changes == old(file.fixer.changes) + GapEdits(file.tokens, open, prev)
  {
    var tokens := file.tokens;
    var i := open;
    while i > prev
      invariant prev <= i <= open
      invariant file.fixer.changes == old(file.fixer.changes) + GapEdits(tokens, open, i)
      decreases i
    {
      if tokens[i].line == tokens[open].line {
        if tokens[i].line == tokens[open].line {
          if tokens[i].column == 1 {
            file.fixer.AddNewlineBefore(i);
          }
        } else {
          // replaceToken($i, '') sits here and is never reached.
          assert false;
        }
      } else {
        file.fixer.EndChangeset();
      }
      i := i - 1;
    }
  }

  /** The spacing report and its fix (fix_blank_lines up to the trailing-content check). */
  method ReportSpacing(file: File, open: nat, closer: Option<nat>, lineDiff: int, prev: nat)
    requires prev < open < |file.tokens|
    modifies file, file.fixer
    ensures file.errors == old(file.errors) + SpacingEffects(file.tokens, open, closer, lineDiff, prev, file.fixing).diagnostics
    ensures file.metrics == old(file.metrics) + SpacingEffects(file.tokens, open, closer, lineDiff, prev, file.fixing).metrics
    ensures file.fixer.changes == old(file.fixer.changes) + SpacingEffects(file.tokens, open, closer, lineDiff, prev, file.fixing).edits
  {
    var tokens := file.tokens;
    ghost var effects := SpacingEffects(tokens, open, closer, lineDiff, prev, file.fixing);
    var data := [lineDiff - 1];
    var prevNonWs := FindPrevious(tokens, {TWhitespace}, open - 1, StopAt(closer), true);
    if prevNonWs != Some(prev) {
      assert effects == Effects([Diagnostic(BraceSpacing, open, data, false, 0)], [], []);
      file.AddError(open, BraceSpacing, data, 0, false);
    } else {
      ghost var edits := if file.fixing then [Begin] + GapEdits(tokens, open, prev) else [];
      assert effects == Effects([Diagnostic(BraceSpacing, open, data, true, 0)], [], edits);
      var fix := file.AddFixableError(open, BraceSpacing, data);
      if fix {
        ghost var before := file.fixer.changes;
        file.fixer.BeginChangeset();
        CollapseGap(file, open, prev);
        assert file.fixer.changes == before + ([Begin] + GapEdits(tokens, open, prev));
      }
    }
  }

  /** The indentation check at the end of fix_blank_lines. */
  method CheckIndent(file: File, stackPtr: nat, open: nat, lineDiff: int)
    requires stackPtr < open < |file.tokens| && file.tokens[stackPtr].code != TWhitespace
    modifies file, file.fixer
    ensures file.errors == old(file.errors) + IndentEffects(file.tokens, stackPtr, open, lineDiff, file.fixing).diagnostics
    ensures file.metrics == old(file.metrics) + IndentEffects(file.tokens, stackPtr, open, lineDiff, file.fixing).metrics
    ensures file.fixer.changes == old(file.fixer.changes) + IndentEffects(file.tokens, stackPtr, open, lineDiff, file.fixing).edits
  {
    var tokens := file.tokens;
    if lineDiff != 1 {
      return;
    }
    var lineStart := FindFirstOnLine(tokens, {TWhitespace}, stackPtr, true).value;
    var startColumn: int := tokens[lineStart].column;
    var braceIndent: int := tokens[open].column;
    if braceIndent != startColumn {
      var expected := startColumn - 1;
      var found := braceIndent - 1;
      var fix := file.AddFixableError(open, BraceIndent, [expected, found]);
      if fix {
        var indent := Spaces(expected);
        if found == 0 {
          file.fixer.ReplaceToken(open, indent);
        } else {
          file.fixer.ReplaceToken(open - 1, indent);
        }
      }
    }
  }

  /**
   * The trailing-content check of fix_blank_lines; `stop` is its early
   * return, taken when the content after the brace is the construct's closer.
   */
  method ReportTrailingContent(file: File, stackPtr: nat, open: nat) returns (stop: bool)
    requires stackPtr < |file.tokens| && open < |file.tokens|
    modifies file, file.fixer
    ensures stop == ClosesOnBraceLine(file.tokens, stackPtr, open)
    ensures file.errors == old(file.errors) + TrailingContentEffects(file.tokens, stackPtr, open, file.fixing).diagnostics
    ensures file.metrics == old(file.metrics) + TrailingContentEffects(file.tokens, stackPtr, open, file.fixing).metrics
    ensures file.fixer.changes == old(file.fixer.changes) + TrailingContentEffects(file.tokens, stackPtr, open, file.fixing).edits
  {
    var tokens := file.tokens;
    stop := false;
    var next := FindNext(tokens, TrailingIgnored, open + 1, true);
    if next.Some? && tokens[next.value].line == tokens[open].line {
      if Some(next.value) == tokens[stackPtr].scopeCloser {
        stop := true;
        return;
      }
      var fix := file.AddFixableError(open, ContentAfterBrace, []);
      if fix {
        file.fixer.AddNewline(open);
      }
    }
  }

  method FixBlankLines(file: File, stackPtr: nat, open: nat, closer: Option<nat>, lineDiff: int, prev: nat)
    requires stackPtr < open < |file.tokens| && prev < open && file.tokens[stackPtr].code != TWhitespace
    modifies file, file.fixer
    ensures file.errors == old(file.errors) + BlankLinesEffects(file.tokens, stackPtr, open, closer, lineDiff, prev, file.fixing).diagnostics
    ensures file.metrics == old(file.metrics) + BlankLinesEffects(file.tokens, stackPtr, open, closer, lineDiff, prev, file.fixing).metrics
    ensures file.fixer.changes == old(file.fixer.changes) + BlankLinesEffects(file.tokens, stackPtr, open, closer, lineDiff, prev, file.fixing).edits
  {
    ghost var spacing := SpacingEffects(file.tokens, open, closer, lineDiff, prev, file.fixing);
    ghost var trailing := TrailingContentEffects(file.tokens, stackPtr, open, file.fixing);
    ghost var indent := IndentEffects(file.tokens, stackPtr, open, lineDiff, file.fixing);
    ReportSpacing(file, open, closer, lineDiff, prev);
    var stop := ReportTrailingContent(file, stackPtr, open);
    if stop {
      return;
    }
    CheckIndent(file, stackPtr, open, lineDiff);
    assert file.errors == old(file.errors) + (spacing.diagnostics + trailing.diagnostics + indent.diagnostics);
    assert file.fixer.changes == old(file.fixer.changes) + (spacing.edits + trailing.edits + indent.edits);
  }

  // ---------------------------------------------------------------------
  // process
  // ---------------------------------------------------------------------

  /** Everything `process` adds to the file's logs for the keyword at `stackPtr`. */
  function ProcessEffects(cfg: Config, toks: seq<Token>, stackPtr: nat, fixing: bool): Effects
    requires LinksInRange(toks, stackPtr) && Registered(toks[stackPtr].code)
  {
    var keyword := toks[stackPtr];
    if keyword.scopeOpener.None? || Skips(cfg, keyword.code) then NoEffects
    else
      var open := keyword.scopeOpener.value;
      match DeclarationEnd(toks, open, keyword.parenthesisCloser)
      case None => NoEffects
      case Some(prev) => DispatchEffects(toks, stackPtr, open, prev, fixing)
  }

  /** The dispatch of `process` on the line gap between `$prev` and the brace, with the metric each branch records. */
  function DispatchEffects(toks: seq<Token>, stackPtr: nat, open: nat, prev: nat, fixing: bool): Effects
    requires stackPtr < open < |toks| && prev < open && Registered(toks[stackPtr].code)
  {
    var keyword := toks[stackPtr];
    var lineDiff := toks[open].line - toks[prev].line;
    if lineDiff == 0 then
      SameLineEffects(toks, open, fixing)
        .Then(Effects([], [Metric(stackPtr, keyword.code, SameLine)], []))
    else if lineDiff > 1 then
      BlankLinesEffects(toks, stackPtr, open, keyword.parenthesisCloser, lineDiff, prev, fixing)
        .Then(Effects([], [Metric(stackPtr, keyword.code, NewLine)], []))
    else NoEffects
  }

  method Process(cfg: Config, file: File, stackPtr: nat)
    requires LinksInRange(file.tokens, stackPtr) && Registered(file.tokens[stackPtr].code)
    modifies file, file.fixer
    ensures file.errors == old(file.errors) + ProcessEffects(cfg, file.tokens, stackPtr, file.fixing).diagnostics
    ensures file.metrics == old(file.metrics) + ProcessEffects(cfg, file.tokens, stackPtr, file.fixing).metrics
    ensures file.fixer.changes == old(file.fixer.changes) + ProcessEffects(cfg, file.tokens, stackPtr, file.fixing).edits
  {
    var tokens := file.tokens;
    if tokens[stackPtr].scopeOpener.None? {
      return;
    }
    var token := tokens[stackPtr].code;
    if Skips(cfg, token) {
      return;
    }
    var open := tokens[stackPtr].scopeOpener.value;
    var closer := tokens[stackPtr].parenthesisCloser;
    var prev := DeclarationEnd(tokens, open, closer);
    if prev.None? {
      return;
    }
    var lineDiff := tokens[open].line - tokens[prev.value].line;
    if lineDiff == 0 {
      FixSameLine(file, open);
      file.RecordMetric(stackPtr, token, SameLine);
    } else if lineDiff > 1 {
      FixBlankLines(file, stackPtr, open, closer, lineDiff, prev.value);
      file.RecordMetric(stackPtr, token, NewLine);
    }
  }

  // ---------------------------------------------------------------------
  // Properties
  // ---------------------------------------------------------------------

  /** A construct without a scope, or whose group is switched off, leaves every log untouched. */
  lemma ProcessSkips(cfg: Config, toks: seq<Token>, stackPtr: nat, fixing: bool)
    requires LinksInRange(toks, stackPtr) && Registered(toks[stackPtr].code)
    requires toks[stackPtr].scopeOpener.None? || Skips(cfg, toks[stackPtr].code)
    ensures ProcessEffects(cfg, toks, stackPtr, fixing) == NoEffects
  {
  }

  /** A brace on the declaration's line: one BraceOnSameLine error at the brace and the 'same line' metric. */
  lemma DispatchSameLine(cfg: Config, toks: seq<Token>, stackPtr: nat, fixing: bool, prev: nat)
    requires LinksInRange(toks, stackPtr) && Registered(toks[stackPtr].code)
    requires toks[stackPtr].scopeOpener.Some? && !Skips(cfg, toks[stackPtr].code)
    requires DeclarationEnd(toks, toks[stackPtr].scopeOpener.value, toks[stackPtr].parenthesisCloser) == Some(prev)
    requires toks[toks[stackPtr].scopeOpener.value].line == toks[prev].line
    ensures var r := ProcessEffects(cfg, toks, stackPtr, fixing);
            && r.diagnostics == [Diagnostic(BraceOnSameLine, toks[stackPtr].scopeOpener.value, [], true, 0)]
            && r.metrics == [Metric(stackPtr, toks[stackPtr].code, SameLine)]
            && r.edits == (if fixing then SameLineChangeset(toks, toks[stackPtr].scopeOpener.value) else [])
            && (r.edits != [] <==> fixing)
  {
  }

  /**
   * Blank lines before the brace: the BraceSpacing error at the brace comes
   * first, counting the blank lines, and the 'new line' metric is recorded.
   */
  lemma DispatchBlankLines(cfg: Config, toks: seq<Token>, stackPtr: nat, fixing: bool, prev: nat)
    requires LinksInRange(toks, stackPtr) && Registered(toks[stackPtr].code)
    requires toks[stackPtr].scopeOpener.Some? && !Skips(cfg, toks[stackPtr].code)
    requires DeclarationEnd(toks, toks[stackPtr].scopeOpener.value, toks[stackPtr].parenthesisCloser) == Some(prev)
    requires toks[toks[stackPtr].scopeOpener.value].line - toks[prev].line > 1
    ensures var open := toks[stackPtr].scopeOpener.value;
            var r := ProcessEffects(cfg, toks, stackPtr, fixing);
            && r.metrics == [Metric(stackPtr, toks[stackPtr].code, NewLine)]
            && |r.diagnostics| >= 1
            && r.diagnostics[0].code == BraceSpacing
            && r.diagnostics[0].pos == open
            && r.diagnostics[0].data == [toks[open].line - toks[prev].line - 1]
  {
    var keyword := toks[stackPtr];
    var open := keyword.scopeOpener.value;
    var lineDiff := toks[open].line - toks[prev].line;
    var b := BlankLinesEffects(toks, stackPtr, open, keyword.parenthesisCloser, lineDiff, prev, fixing);
    ProcessTakesBlankLines(cfg, toks, stackPtr, fixing, prev);
    BlankLinesLeadsWithSpacing(toks, stackPtr, open, keyword.parenthesisCloser, lineDiff, prev, fixing);
    ThenMetricOnly(b, Effects([], [Metric(stackPtr, keyword.code, NewLine)], []));
  }

  /** Following effects with a metric alone leaves the errors and edits as they were. */
  lemma ThenMetricOnly(e: Effects, metric: Effects)
    requires metric.diagnostics == [] && metric.edits == []
    ensures e.Then(metric).diagnostics == e.diagnostics
    ensures e.Then(metric).metrics == e.metrics + metric.metrics
    ensures e.Then(metric).edits == e.edits
  {
    assert e.diagnostics + [] == e.diagnostics;
    assert e.edits + [] == e.edits;
  }

  /** The first error `fix_blank_lines` reports is the BraceSpacing one, at the brace, counting the blank lines. */
  lemma BlankLinesLeadsWithSpacing(toks: seq<Token>, stackPtr: nat, open: nat, closer: Option<nat>,
                                   lineDiff: int, prev: nat, fixing: bool)
    requires stackPtr < open < |toks| && prev < open && toks[stackPtr].code != TWhitespace
    requires DeclarationEnd(toks, open, closer) == Some(prev)
    ensures var b := BlankLinesEffects(toks, stackPtr, open, closer, lineDiff, prev, fixing);
            && |b.diagnostics| >= 1
            && b.diagnostics[0].code == BraceSpacing
            && b.diagnostics[0].pos == open
            && b.diagnostics[0].data == [lineDiff - 1]
            && b.metrics == []
  {
    var b := BlankLinesEffects(toks, stackPtr, open, closer, lineDiff, prev, fixing);
    var spacing := SpacingEffects(toks, open, closer, lineDiff, prev, fixing);
    SpacingFixableIff(toks, open, closer, lineDiff, prev, fixing);
    BlankLinesOpensWithSpacing(toks, stackPtr, open, closer, lineDiff, prev, fixing);
    assert b.diagnostics[0] == spacing.diagnostics[0];
  }

  /** With more than one line between the declaration end and the brace, process runs fix_blank_lines. */
  lemma ProcessTakesBlankLines(cfg: Config, toks: seq<Token>, stackPtr: nat, fixing: bool, prev: nat)
    requires LinksInRange(toks, stackPtr) && Registered(toks[stackPtr].code)
    requires toks[stackPtr].scopeOpener.Some? && !Skips(cfg, toks[stackPtr].code)
    requires DeclarationEnd(toks, toks[stackPtr].scopeOpener.value, toks[stackPtr].parenthesisCloser) == Some(prev)
    requires toks[toks[stackPtr].scopeOpener.value].line - toks[prev].line > 1
    ensures var keyword := toks[stackPtr];
            var open := keyword.scopeOpener.value;
            ProcessEffects(cfg, toks, stackPtr, fixing) ==
              BlankLinesEffects(toks, stackPtr, open, keyword.parenthesisCloser, toks[open].line - toks[prev].line, prev, fixing)
                .Then(Effects([], [Metric(stackPtr, keyword.code, NewLine)], []))
  {
    var open := toks[stackPtr].scopeOpener.value;
    assert ProcessEffects(cfg, toks, stackPtr, fixing) == DispatchEffects(toks, stackPtr, open, prev, fixing);
  }

  /** A brace on the line right after the declaration end, or before it, produces nothing. */
  lemma DispatchNothing(cfg: Config, toks: seq<Token>, stackPtr: nat, fixing: bool, prev: nat)
    requires LinksInRange(toks, stackPtr) && Registered(toks[stackPtr].code)
    requires toks[stackPtr].scopeOpener.Some? && !Skips(cfg, toks[stackPtr].code)
    requires DeclarationEnd(toks, toks[stackPtr].scopeOpener.value, toks[stackPtr].parenthesisCloser) == Some(prev)
    requires toks[toks[stackPtr].scopeOpener.value].line - toks[prev].line == 1 ||
             toks[toks[stackPtr].scopeOpener.value].line < toks[prev].line
    ensures ProcessEffects(cfg, toks, stackPtr, fixing) == NoEffects
  {
  }

  /**
   * `process` records its metric exactly when it reports something: a
   * construct it checks gets one metric and at least one error, any other
   * gets nothing at all.
   */
  lemma ProcessMetricIffReport(cfg: Config, toks: seq<Token>, stackPtr: nat, fixing: bool)
    requires LinksInRange(toks, stackPtr) && Registered(toks[stackPtr].code)
    ensures var r := ProcessEffects(cfg, toks, stackPtr, fixing);
            && |r.metrics| <= 1
            && (r.metrics == [] <==> r == NoEffects)
            && (r.metrics == [] <==> r.diagnostics == [])
  {
    var keyword := toks[stackPtr];
    if keyword.scopeOpener.Some? && !Skips(cfg, keyword.code) {
      var open := keyword.scopeOpener.value;
      match DeclarationEnd(toks, open, keyword.parenthesisCloser)
      case None =>
      case Some(prev) =>
        var lineDiff := toks[open].line - toks[prev].line;
        if lineDiff == 0 {
          DispatchSameLine(cfg, toks, stackPtr, fixing, prev);
        } else if lineDiff > 1 {
          DispatchBlankLines(cfg, toks, stackPtr, fixing, prev);
        } else {
          DispatchNothing(cfg, toks, stackPtr, fixing, prev);
        }
    }
  }

  /** fix_same_line's changeset without the indentation lookup, which never succeeds. */
  lemma SameLineChangesetContents(toks: seq<Token>, open: nat)
    requires 0 < open < |toks|
    ensures var nextLine := LineEnd(toks, open);
            SameLineChangeset(toks, open) ==
              [Begin] +
              (if !HasTrailingAnnotation(toks, open, nextLine) then
                 (if toks[open - 1].code == TWhitespace then [Replace(open - 1, "")] else []) +
                 [NewlineBefore(nextLine)]
               else
                 [Replace(open, ""), NewlineBefore(nextLine), AddBefore(nextLine, "{")]) +
              [End]
  {
    EmptyTypeListFindsNothing(toks, open);
  }

  /**
   * The changeset opens with the one Begin and closes with the one End;
   * whichever path it takes, its only line break goes before the first
   * token of the line after the brace, never before the brace itself.
   */
  lemma SameLineChangesetBracketed(toks: seq<Token>, open: nat)
    requires 0 < open < |toks|
    ensures var c := SameLineChangeset(toks, open);
            && |c| >= 3 && c[0] == Begin && c[|c| - 1] == End
            && (forall k :: 0 < k < |c| - 1 ==> c[k] != Begin && c[k] != End)
            && (forall k :: 0 <= k < |c| && c[k].NewlineBefore? ==>
                  var n := c[k].pos;
                  open < n <= |toks| && (n == |toks| || toks[n].line != toks[open].line) &&
                  forall j :: open < j < n ==> toks[j].line == toks[open].line)
            && (forall k :: 0 <= k < |c| ==> !c[k].Newline?)
  {
    SameLineChangesetContents(toks, open);
  }

  /**
   * Only with a phpcs annotation on the brace's line does the changeset
   * touch the brace: it blanks it and writes `{` at the start of the next
   * line. Without one it leaves the brace where it is.
   */
  lemma SameLineMovesBraceOnlyWithAnnotation(toks: seq<Token>, open: nat)
    requires 0 < open < |toks|
    ensures var c := SameLineChangeset(toks, open);
            var nextLine := LineEnd(toks, open);
            && (HasTrailingAnnotation(toks, open, nextLine) ==>
                  Replace(open, "") in c && AddBefore(nextLine, "{") in c)
            && (!HasTrailingAnnotation(toks, open, nextLine) ==>
                  forall e :: e in c ==> !e.AddBefore? && !(e.Replace? && e.pos == open))
  {
    SameLineChangesetContents(toks, open);
  }

  /**
   * What the blank-line fix loop emits: Ends, and line breaks before
   * brace-line tokens that start at column 1; no token is ever blanked.
   */
  lemma {:induction false} GapEditsOnly(toks: seq<Token>, open: nat, i: nat)
    requires i <= open < |toks|
    ensures forall e :: e in GapEdits(toks, open, i) ==>
              e == End ||
              (e.NewlineBefore? && i < e.pos <= open &&
               toks[e.pos].line == toks[open].line && toks[e.pos].column == 1)
    decreases open - i
  {
    if i < open {
      GapEditsOnly(toks, open, i + 1);
    }
  }

  /** Every brace-line token of the gap that starts at column 1 gets a line break before it. */
  lemma {:induction false} GapEditsBreakColumnOne(toks: seq<Token>, open: nat, i: nat)
    requires i <= open < |toks|
    ensures forall j :: i < j <= open && toks[j].line == toks[open].line && toks[j].column == 1 ==>
              NewlineBefore(j) in GapEdits(toks, open, i)
    decreases open - i
  {
    if i < open {
      GapEditsBreakColumnOne(toks, open, i + 1);
      assert GapEdits(toks, open, i) == GapEdits(toks, open, i + 1) + GapStep(toks, open, i + 1);
    }
  }

  /** The loop closes a changeset exactly when some token of the gap is on another line than the brace. */
  lemma {:induction false} GapEditsEnds(toks: seq<Token>, open: nat, i: nat)
    requires i <= open < |toks|
    ensures End in GapEdits(toks, open, i) <==> exists j :: i < j <= open && toks[j].line != toks[open].line
    decreases open - i
  {
    if i < open {
      GapEditsEnds(toks, open, i + 1);
      assert GapEdits(toks, open, i) == GapEdits(toks, open, i + 1) + GapStep(toks, open, i + 1);
      if toks[i + 1].line != toks[open].line {
        assert End in GapStep(toks, open, i + 1);
      } else {
        assert End !in GapStep(toks, open, i + 1);
      }
    }
  }

  /** The gap tokens, strictly above `i` and up to the brace, that lie on another line than the brace. */
  function OtherLineTokens(toks: seq<Token>, open: nat, i: nat): set<nat>
    requires open < |toks|
  {
    set j: nat | i < j <= open && toks[j].line != toks[open].line
  }

  /**
   * endChangeset sits inside the fix loop: it is called once for every gap
   * token on another line than the brace, so the loop closes as many
   * changesets as there are such tokens.
   */
  lemma {:induction false} GapEditsEndCount(toks: seq<Token>, open: nat, i: nat)
    requires i <= open < |toks|
    ensures multiset(GapEdits(toks, open, i))[End] == |OtherLineTokens(toks, open, i)|
    decreases open - i
  {
    if i == open {
      NoGapNoEnds(toks, open, i);
    } else {
      GapEditsEndCount(toks, open, i + 1);
      EndCountStep(toks, open, i);
    }
  }

  /** One more turn of the loop keeps the End count equal to the other-line count. */
  lemma EndCountStep(toks: seq<Token>, open: nat, i: nat)
    requires i < open < |toks|
    requires multiset(GapEdits(toks, open, i + 1))[End] == |OtherLineTokens(toks, open, i + 1)|
    ensures multiset(GapEdits(toks, open, i))[End] == |OtherLineTokens(toks, open, i)|
  {
    GapEditsStepEnds(toks, open, i);
    OtherLineTokensStep(toks, open, i);
  }

  /** Before the first turn nothing has been emitted and no token has been visited. */
  lemma NoGapNoEnds(toks: seq<Token>, open: nat, i: nat)
    requires i == open < |toks|
    ensures multiset(GapEdits(toks, open, i))[End] == |OtherLineTokens(toks, open, i)|
  {
    assert OtherLineTokens(toks, open, i) == {};
  }

  /** The turn for token `i + 1` adds one End exactly when that token is on another line. */
  lemma GapEditsStepEnds(toks: seq<Token>, open: nat, i: nat)
    requires i < open < |toks|
    ensures multiset(GapEdits(toks, open, i))[End]
         == multiset(GapEdits(toks, open, i + 1))[End] + (if toks[i + 1].line != toks[open].line then 1 else 0)
  {
    var rest := GapEdits(toks, open, i + 1);
    var step := GapStep(toks, open, i + 1);
    assert GapEdits(toks, open, i) == rest + step;
    EndsOfAppend(rest, step);
    GapStepEnds(toks, open, i + 1);
  }

  /** The End count of a concatenation is the sum of the parts' counts. */
  lemma EndsOfAppend(a: seq<Edit>, b: seq<Edit>)
    ensures multiset(a + b)[End] == multiset(a)[End] + multiset(b)[End]
  {
    assert multiset(a + b) == multiset(a) + multiset(b);
  }

  /** One turn emits one End for a token on another line, none for a token on the brace's line. */
  lemma GapStepEnds(toks: seq<Token>, open: nat, k: nat)
    requires k < |toks| && open < |toks|
    ensures multiset(GapStep(toks, open, k))[End] == if toks[k].line != toks[open].line then 1 else 0
  {
    if toks[k].line == toks[open].line {
      assert End !in GapStep(toks, open, k);
    }
  }

  /** Lowering `i` by one adds token `i + 1` to the other-line tokens exactly when it is on another line. */
  lemma OtherLineTokensStep(toks: seq<Token>, open: nat, i: nat)
    requires i < open < |toks|
    ensures |OtherLineTokens(toks, open, i)| ==
            |OtherLineTokens(toks, open, i + 1)| + (if toks[i + 1].line != toks[open].line then 1 else 0)
  {
    var above := OtherLineTokens(toks, open, i + 1);
    if toks[i + 1].line != toks[open].line {
      assert OtherLineTokens(toks, open, i) == above + {i + 1};
      assert i + 1 !in above;
    } else {
      assert OtherLineTokens(toks, open, i) == above;
    }
  }

  /**
   * fix_blank_lines starts with the spacing report: its error and changeset
   * come first in what it hands PHPCS, and it records no metric.
   */
  lemma BlankLinesOpensWithSpacing(toks: seq<Token>, stackPtr: nat, open: nat, closer: Option<nat>,
                                   lineDiff: int, prev: nat, fixing: bool)
    requires stackPtr < open < |toks| && prev < open && toks[stackPtr].code != TWhitespace
    ensures var r := BlankLinesEffects(toks, stackPtr, open, closer, lineDiff, prev, fixing);
            var s := SpacingEffects(toks, open, closer, lineDiff, prev, fixing);
            && s.diagnostics <= r.diagnostics
            && s.edits <= r.edits
            && r.metrics == []
  {
    var r := BlankLinesEffects(toks, stackPtr, open, closer, lineDiff, prev, fixing);
    var spacing := SpacingEffects(toks, open, closer, lineDiff, prev, fixing);
    var indent := IndentEffects(toks, stackPtr, open, lineDiff, fixing);
    var trailing := TrailingContentEffects(toks, stackPtr, open, fixing);
    if ClosesOnBraceLine(toks, stackPtr, open) {
      assert r == spacing;
    } else {
      assert r == spacing.Then(trailing).Then(indent);
      assert r.diagnostics == spacing.diagnostics + (trailing.diagnostics + indent.diagnostics);
      assert r.edits == spacing.edits + (trailing.edits + indent.edits);
    }
  }

  /** With a gap other than one line, nothing fix_blank_lines hands the fixer deletes or rewrites a token. */
  lemma BlankLinesNeverReplaces(toks: seq<Token>, stackPtr: nat, open: nat, closer: Option<nat>,
                                lineDiff: int, prev: nat, fixing: bool)
    requires stackPtr < open < |toks| && prev < open && toks[stackPtr].code != TWhitespace
    requires lineDiff != 1
    ensures forall e :: e in BlankLinesEffects(toks, stackPtr, open, closer, lineDiff, prev, fixing).edits ==>
              !e.Replace? && !e.AddBefore?
  {
    GapEditsOnly(toks, open, prev);
  }

  /**
   * The BraceSpacing report is fixable exactly when everything between the
   * declaration end and the brace is whitespace: a comment in the gap makes
   * the whitespace-only search stop earlier than `$prev`.
   */
  lemma SpacingFixableIff(toks: seq<Token>, open: nat, closer: Option<nat>, lineDiff: int, prev: nat, fixing: bool)
    requires 0 < open < |toks|
    requires DeclarationEnd(toks, open, closer) == Some(prev)
    ensures var r := SpacingEffects(toks, open, closer, lineDiff, prev, fixing);
            && |r.diagnostics| == 1
            && r.diagnostics[0].code == BraceSpacing && r.diagnostics[0].pos == open
            && r.diagnostics[0].data == [lineDiff - 1]
            && (r.diagnostics[0].fixable <==> forall j :: prev < j < open ==> toks[j].code == TWhitespace)
            && (r.edits != [] <==> r.diagnostics[0].fixable && fixing)
            && r.metrics == []
  {
    var prevNonWs := FindPrevious(toks, {TWhitespace}, open - 1, StopAt(closer), true);
    if forall j :: prev < j < open ==> toks[j].code == TWhitespace {
      assert Matches(toks[prev].code, {TWhitespace}, true);
      assert prevNonWs == Some(prev);
    } else {
      var j :| prev < j < open && toks[j].code != TWhitespace;
      assert Matches(toks[j].code, {TWhitespace}, true);
      assert prevNonWs.Some? && prevNonWs.value >= j;
    }
  }

  /** The spacing and indentation parts report only their own codes and never break a line after a token. */
  lemma SpacingAndIndentKeepToThemselves(toks: seq<Token>, stackPtr: nat, open: nat, closer: Option<nat>,
                                         lineDiff: int, prev: nat, fixing: bool)
    requires stackPtr < open < |toks| && prev < open && toks[stackPtr].code != TWhitespace
    ensures var spacing := SpacingEffects(toks, open, closer, lineDiff, prev, fixing);
            var indent := IndentEffects(toks, stackPtr, open, lineDiff, fixing);
            && (forall d :: d in spacing.diagnostics ==> d.code == BraceSpacing)
            && (forall d :: d in indent.diagnostics ==> d.code == BraceIndent)
            && (forall e :: e in spacing.edits ==> !e.Newline?)
            && (forall e :: e in indent.edits ==> !e.Newline?)
  {
    GapEditsOnly(toks, open, prev);
  }

  /**
   * ContentAfterBrace is reported exactly when the first token after the
   * brace that is neither whitespace nor a phpcs annotation is on the
   * brace's line and is not the construct's own closing brace; its fix is
   * the one line break after the brace.
   */
  lemma ContentAfterBraceIff(toks: seq<Token>, stackPtr: nat, open: nat, closer: Option<nat>,
                             lineDiff: int, prev: nat, fixing: bool)
    requires stackPtr < open < |toks| && prev < open && toks[stackPtr].code != TWhitespace
    ensures var r := BlankLinesEffects(toks, stackPtr, open, closer, lineDiff, prev, fixing);
            var next := ContentAfter(toks, open);
            var reported := next.Some? && toks[next.value].line == toks[open].line &&
                            Some(next.value) != toks[stackPtr].scopeCloser;
            && ((exists d :: d in r.diagnostics && d.code == ContentAfterBrace) <==> reported)
            && (Newline(open) in r.edits <==> reported && fixing)
            && (forall e :: e in r.edits && e.Newline? ==> e == Newline(open))
  {
    var r := BlankLinesEffects(toks, stackPtr, open, closer, lineDiff, prev, fixing);
    var spacing := SpacingEffects(toks, open, closer, lineDiff, prev, fixing);
    var indent := IndentEffects(toks, stackPtr, open, lineDiff, fixing);
    SpacingAndIndentKeepToThemselves(toks, stackPtr, open, closer, lineDiff, prev, fixing);
    var trailing := TrailingContentEffects(toks, stackPtr, open, fixing);
    if ClosesOnBraceLine(toks, stackPtr, open) {
      assert r == spacing;
    } else {
      assert r == spacing.Then(trailing).Then(indent);
      if ContentOnBraceLine(toks, open) {
        assert Diagnostic(ContentAfterBrace, open, [], true, 0) in r.diagnostics;
        assert fixing ==> Newline(open) in r.edits;
      }
    }
  }

  /**
   * When the first content after the brace is the construct's own closer
   * (an empty body on one line), fix_blank_lines stops after the spacing
   * report and never reaches the indentation check.
   */
  lemma EmptyBodyStopsEarly(toks: seq<Token>, stackPtr: nat, open: nat, closer: Option<nat>,
                            lineDiff: int, prev: nat, fixing: bool)
    requires stackPtr < open < |toks| && prev < open && toks[stackPtr].code != TWhitespace
    requires ClosesOnBraceLine(toks, stackPtr, open)
    ensures BlankLinesEffects(toks, stackPtr, open, closer, lineDiff, prev, fixing) ==
            SpacingEffects(toks, open, closer, lineDiff, prev, fixing)
  {
  }

  /**
   * `$lineStart`: on the keyword's line, the first token that is not
   * whitespace; it always exists, the keyword itself being a candidate.
   */
  lemma KeywordLineStart(toks: seq<Token>, stackPtr: nat)
    requires stackPtr < |toks| && toks[stackPtr].code != TWhitespace
    ensures var lineStart := FindFirstOnLine(toks, {TWhitespace}, stackPtr, true);
            var b := LineRunStart(toks, toks[stackPtr].line, stackPtr);
            && lineStart.Some?
            && b <= lineStart.value <= stackPtr
            && toks[lineStart.value].code != TWhitespace
            && forall j :: b <= j < lineStart.value ==> toks[j].code == TWhitespace
  {
    var lineStart := FindFirstOnLine(toks, {TWhitespace}, stackPtr, true);
    assert Matches(toks[stackPtr].code, {TWhitespace}, true);
    forall j | LineRunStart(toks, toks[stackPtr].line, stackPtr) <= j < lineStart.value
      ensures toks[j].code == TWhitespace
    {
      assert !Matches(toks[j].code, {TWhitespace}, true);
    }
  }

  /**
   * The indentation check on its own: with a gap of exactly one line it
   * compares the brace's column with that of the first non-whitespace token
   * on the keyword's line and, when they differ, reports the expected and
   * found indentation and rewrites the whitespace before the brace, or the
   * brace itself when it sits at column 1, to that many spaces. With any
   * other gap it does nothing.
   */
  lemma IndentCheck(toks: seq<Token>, stackPtr: nat, open: nat, lineDiff: int, fixing: bool)
    requires stackPtr < open < |toks| && toks[stackPtr].code != TWhitespace
    ensures var r := IndentEffects(toks, stackPtr, open, lineDiff, fixing);
            var lineStart := FindFirstOnLine(toks, {TWhitespace}, stackPtr, true);
            var startColumn := if lineStart.Some? then toks[lineStart.value].column as int else 0;
            var braceColumn := toks[open].column as int;
            && (lineDiff != 1 || startColumn == braceColumn ==> r == NoEffects)
            && (lineDiff == 1 && startColumn != braceColumn ==>
                  && r.diagnostics == [Diagnostic(BraceIndent, open, [startColumn - 1, braceColumn - 1], true, 0)]
                  && r.metrics == []
                  && r.edits == if !fixing then []
                                else [Replace(if braceColumn == 1 then open else open - 1, Spaces(startColumn - 1))])
  {
    KeywordLineStart(toks, stackPtr);
  }

  /** Called with a gap other than 1, fix_blank_lines returns before its indentation check. */
  lemma BlankLinesNoIndent(toks: seq<Token>, stackPtr: nat, open: nat, closer: Option<nat>,
                           lineDiff: int, prev: nat, fixing: bool)
    requires stackPtr < open < |toks| && prev < open && toks[stackPtr].code != TWhitespace
    requires lineDiff != 1
    ensures forall d :: d in BlankLinesEffects(toks, stackPtr, open, closer, lineDiff, prev, fixing).diagnostics ==>
              d.code != BraceIndent
  {
    var spacing := SpacingEffects(toks, open, closer, lineDiff, prev, fixing);
    var trailing := TrailingContentEffects(toks, stackPtr, open, fixing);
    assert IndentEffects(toks, stackPtr, open, lineDiff, fixing) == NoEffects;
    assert forall d :: d in spacing.diagnostics ==> d.code == BraceSpacing;
    assert forall d :: d in trailing.diagnostics ==> d.code == ContentAfterBrace;
  }

  /** BraceIndent can never come out of `process`: fix_blank_lines is only called with a gap above 1. */
  lemma ProcessNeverReportsIndent(cfg: Config, toks: seq<Token>, stackPtr: nat, fixing: bool)
    requires LinksInRange(toks, stackPtr) && Registered(toks[stackPtr].code)
    ensures var r := ProcessEffects(cfg, toks, stackPtr, fixing);
            forall k :: 0 <= k < |r.diagnostics| ==> r.diagnostics[k].code != BraceIndent
  {
    var keyword := toks[stackPtr];
    if keyword.scopeOpener.Some? && !Skips(cfg, keyword.code) {
      var open := keyword.scopeOpener.value;
      match DeclarationEnd(toks, open, keyword.parenthesisCloser)
      case None =>
      case Some(prev) =>
        var lineDiff := toks[open].line - toks[prev].line;
        if lineDiff == 0 {
          DispatchSameLine(cfg, toks, stackPtr, fixing, prev);
        } else if lineDiff > 1 {
          ProcessTakesBlankLines(cfg, toks, stackPtr, fixing, prev);
          BlankLinesNoIndent(toks, stackPtr, open, keyword.parenthesisCloser, lineDiff, prev, fixing);
        } else {
          DispatchNothing(cfg, toks, stackPtr, fixing, prev);
        }
    }
  }
}
