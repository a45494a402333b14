/**
 * The older brace sniff (class EnforceAllmanStyleSniff): the same
 * registration and filter as the current one, but a single same-line check
 * whose declaration end is always the brace itself, because the test
 * `$token = T_CATCH` assigns instead of comparing.
 */
module AllmanStyleSniff {
  import opened Tokens
  import opened Phpcs
  import opened SniffConfig

  /**
   * `$stmtClose`. The third disjunct of the test is the value of the
   * assignment `$token = T_CATCH`, which is T_CATCH and so truthy: the
   * scope opener is chosen for every keyword, and the parenthesis closer
   * never.
   */
  function StatementEnd(keyword: Token): (r: Option<nat>)
    ensures r == keyword.scopeOpener
  {
    if keyword.code == TClass || keyword.code == TTry || true then keyword.scopeOpener
    else keyword.parenthesisCloser
  }

  /** The changeset of the fix: indentation before the brace, the space before it blanked, a line break before it. */
  function Changeset(toks: seq<Token>, scopeBegin: nat): seq<Edit>
    requires 0 < scopeBegin < |toks|
  {
    var indent := FindFirstOnLine(toks, {}, scopeBegin, false);
    [Begin] +
    (if IsWhitespaceAt(toks, indent)
     then [AddBefore(scopeBegin, ContentAt(toks, indent))] else []) +
    (if toks[scopeBegin - 1].code == TWhitespace then [Replace(scopeBegin - 1, "")] else []) +
    [NewlineBefore(scopeBegin), End]
  }

  /** Everything `process` adds to the file's logs for the keyword at `stackPtr`. */
  function ProcessEffects(cfg: Config, toks: seq<Token>, stackPtr: nat, fixing: bool): Effects
    requires LinksInRange(toks, stackPtr) && Registered(toks[stackPtr].code)
  {
    var keyword := toks[stackPtr];
    if keyword.scopeOpener.None? || Skips(cfg, keyword.code) then NoEffects
    else
      var stmtClose := StatementEnd(keyword).value;
      var scopeBegin := keyword.scopeOpener.value;
      var lineDiff := toks[scopeBegin].line - toks[stmtClose].line;
      var metric := Effects([], [Metric(stackPtr, keyword.code, SameLine)], []);
      if lineDiff == 0 then
        metric.Then(Effects([Diagnostic(BraceOnSameLine, stackPtr, [], true, 2),
                             Diagnostic(BraceOnSameLine, stackPtr, [], true, 0)], [],
                            if fixing then Changeset(toks, scopeBegin) else []))
      else metric
  }

  /** The fix of the legacy sniff, handed to the fixer as one changeset. */
  method FixBrace(file: File, scopeBegin: nat)
    requires 0 < scopeBegin < |file.tokens|
    modifies file.fixer
    ensures file.fixer.changes == old(file.fixer.changes) + Changeset(file.tokens, scopeBegin)
  {
    var tokens := file.tokens;
    file.fixer.BeginChangeset();
    var indent := FindFirstOnLine(tokens, {}, scopeBegin, false);
    if IsWhitespaceAt(tokens, indent) {
      // addContentBefore($scopeBegin, ...) is never reached: the lookup
      // above matches nothing (EmptyTypeListFindsNothing).
      assert false;
    }
    if tokens[scopeBegin - 1].code == TWhitespace {
      file.fixer.ReplaceToken(scopeBegin - 1, "");
    }
    file.fixer.AddNewlineBefore(scopeBegin);
    file.fixer.EndChangeset();
  }

  method Process(cfg: Config, file: File, stackPtr: nat)
    requires LinksInRange(file.tokens, stackPtr) && Registered(file.tokens[stackPtr].code)
    modifies file, file.fixer
    ensures file.errors == old(file.errors) + ProcessEffects(cfg, file.tokens, stackPtr, file.fixing).diagnostics
    ensures file.metrics == old(file.metrics) + ProcessEffects(cfg, file.tokens, stackPtr, file.fixing).metrics
    ensures file.fixer.changes == old(file.fixer.changes) + ProcessEffects(cfg, file.tokens, stackPtr, file.fixing).edits
  {
    var tokens := file.tokens;
    if tokens[stackPtr].scopeOpener.None? {
      return;
    }
    var token := tokens[stackPtr].code;
    if Skips(cfg, token) {
      return;
    }
    var stmtClose := StatementEnd(tokens[stackPtr]).value;
    var scopeBegin := tokens[stackPtr].scopeOpener.value;
    var lineDiff := tokens[scopeBegin].line - tokens[stmtClose].line;
    file.RecordMetric(stackPtr, tokens[stackPtr].code, SameLine);

    if lineDiff == 0 {
      file.AddError(stackPtr, BraceOnSameLine, [], 2, true);
      var fix := file.AddFixableError(stackPtr, BraceOnSameLine, []);
      if fix {
        FixBrace(file, scopeBegin);
      }
    }
  }

  // ---------------------------------------------------------------------
  // Properties
  // ---------------------------------------------------------------------

  /** A construct without a scope, or whose group is switched off, leaves every log untouched. */
  lemma ProcessSkips(cfg: Config, toks: seq<Token>, stackPtr: nat, fixing: bool)
    requires LinksInRange(toks, stackPtr) && Registered(toks[stackPtr].code)
    requires toks[stackPtr].scopeOpener.None? || Skips(cfg, toks[stackPtr].code)
    ensures ProcessEffects(cfg, toks, stackPtr, fixing) == NoEffects
  {
  }

  /**
   * Every construct that passes the filter gets the 'same line' metric and
   * two BraceOnSameLine errors at the keyword, the first with severity 2,
   * wherever its brace is; with the fixer running, the one changeset
   * `Changeset` follows.
   */
  lemma ProcessReportsEveryConstruct(cfg: Config, toks: seq<Token>, stackPtr: nat, fixing: bool)
    requires LinksInRange(toks, stackPtr) && Registered(toks[stackPtr].code)
    requires toks[stackPtr].scopeOpener.Some? && !Skips(cfg, toks[stackPtr].code)
    ensures var r := ProcessEffects(cfg, toks, stackPtr, fixing);
            && r.metrics == [Metric(stackPtr, toks[stackPtr].code, SameLine)]
            && r.diagnostics == [Diagnostic(BraceOnSameLine, stackPtr, [], true, 2),
                                 Diagnostic(BraceOnSameLine, stackPtr, [], true, 0)]
            && r.edits == (if fixing then Changeset(toks, toks[stackPtr].scopeOpener.value) else [])
            && (r.edits != [] <==> fixing)
  {
  }

  /**
   * The changeset without the indentation lookup, which never succeeds: an
   * optional blanking of the whitespace before the brace, then a line break
   * before the brace, inside one Begin/End.
   */
  lemma ChangesetContents(toks: seq<Token>, scopeBegin: nat)
    requires 0 < scopeBegin < |toks|
    ensures Changeset(toks, scopeBegin) ==
              [Begin] +
              (if toks[scopeBegin - 1].code == TWhitespace then [Replace(scopeBegin - 1, "")] else []) +
              [NewlineBefore(scopeBegin), End]
  {
    EmptyTypeListFindsNothing(toks, scopeBegin);
  }
}
