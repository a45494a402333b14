/**
 * Two small token streams worked through the model of the current sniff,
 * to show what its changesets do to a brace on the declaration's line.
 */
module Scenarios {
  import opened Tokens
  import opened Phpcs
  import opened SniffConfig
  import AllmanStyle

  function Tok(code: Code, line: int, column: Column, content: string): Token {
    Token(code, line, column, content, None, None, None)
  }

  /**
   * `<?php` / `function f() {` / `}`: tokens 1 (`function`), 5 (`)`),
   * 6 (the space), 7 (`{`), 8 (the line break) and 9 (`}`).
   */
  function SameLineFunction(): seq<Token> {
    [ Tok(TOther("T_OPEN_TAG"), 1, 1, "<?php\n"),
      Token(TFunction, 2, 1, "function", Some(7), Some(9), Some(5)),
      Tok(TWhitespace, 2, 9, " "),
      Tok(TOther("T_STRING"), 2, 10, "f"),
      Tok(TOther("T_OPEN_PARENTHESIS"), 2, 11, "("),
      Tok(TOther("T_CLOSE_PARENTHESIS"), 2, 12, ")"),
      Tok(TWhitespace, 2, 13, " "),
      Tok(TOther("T_OPEN_CURLY_BRACKET"), 2, 14, "{"),
      Tok(TWhitespace, 2, 15, "\n"),
      Tok(TOther("T_CLOSE_CURLY_BRACKET"), 3, 1, "}") ]
  }

  /**
   * With no annotation after the brace, the fix blanks the space before
   * `{` and puts a line break before `}`, the first token of the next
   * line; the brace stays on the declaration's line.
   */
  lemma SameLineFunctionFix()
    ensures AllmanStyle.ProcessEffects(Default, SameLineFunction(), 1, true) ==
            Effects([Diagnostic(BraceOnSameLine, 7, [], true, 0)],
                    [Metric(1, TFunction, SameLine)],
                    [Begin, Replace(6, ""), NewlineBefore(9), End])
  {
    var toks := SameLineFunction();
    SameLineFunctionShape();
    AllmanStyle.DispatchSameLine(Default, toks, 1, true, 5);
    AllmanStyle.SameLineChangesetContents(toks, 7);
    var c := AllmanStyle.SameLineChangeset(toks, 7);
    assert c == [Begin] + [Replace(6, "")] + [NewlineBefore(9)] + [End];
    assert c == [Begin, Replace(6, ""), NewlineBefore(9), End];
  }

  /** Where the searches land in SameLineFunction. */
  lemma SameLineFunctionShape()
    ensures var toks := SameLineFunction();
            && LinksInRange(toks, 1) && toks[1].code == TFunction
            && toks[1].scopeOpener == Some(7) && toks[1].parenthesisCloser == Some(5)
            && toks[7].line == toks[5].line && toks[6].code == TWhitespace
            && AllmanStyle.DeclarationEnd(toks, 7, Some(5)) == Some(5)
            && AllmanStyle.LineEnd(toks, 7) == 9
            && !AllmanStyle.HasTrailingAnnotation(toks, 7, 9)
  {
    var toks := SameLineFunction();
    assert toks[5].code !in EmptyTokens && toks[6].code in EmptyTokens;
  }

  /**
   * `<?php` / `try { // phpcs:set ...` / `}`: `try` (token 1) has no
   * parenthesis, the brace is token 3, the annotation, which holds the line
   * break, is token 5 and `}` is token 6.
   */
  function AnnotatedTry(): seq<Token> {
    [ Tok(TOther("T_OPEN_TAG"), 1, 1, "<?php\n"),
      Token(TTry, 2, 1, "try", Some(3), Some(6), None),
      Tok(TWhitespace, 2, 4, " "),
      Tok(TOther("T_OPEN_CURLY_BRACKET"), 2, 5, "{"),
      Tok(TWhitespace, 2, 6, " "),
      Tok(TPhpcsComment, 2, 7, "// phpcs:set Generic.Sniff limit 4\n"),
      Tok(TOther("T_CLOSE_CURLY_BRACKET"), 3, 1, "}") ]
  }

  /**
   * With an annotation after the brace, the fix blanks the brace and writes
   * a line break and `{` before `}`, leaving the annotation on the `try` line.
   */
  lemma AnnotatedTryFix()
    ensures AllmanStyle.ProcessEffects(Default, AnnotatedTry(), 1, true) ==
            Effects([Diagnostic(BraceOnSameLine, 3, [], true, 0)],
                    [Metric(1, TTry, SameLine)],
                    [Begin, Replace(3, ""), NewlineBefore(6), AddBefore(6, "{"), End])
  {
    var toks := AnnotatedTry();
    AnnotatedTryShape();
    AllmanStyle.DispatchSameLine(Default, toks, 1, true, 1);
    AllmanStyle.SameLineChangesetContents(toks, 3);
    var c := AllmanStyle.SameLineChangeset(toks, 3);
    assert c == [Begin] + [Replace(3, ""), NewlineBefore(6), AddBefore(6, "{")] + [End];
    assert c == [Begin, Replace(3, ""), NewlineBefore(6), AddBefore(6, "{"), End];
  }

  /** Where the searches land in AnnotatedTry: with no parenthesis, the declaration ends at `try` itself. */
  lemma AnnotatedTryShape()
    ensures var toks := AnnotatedTry();
            && LinksInRange(toks, 1) && toks[1].code == TTry
            && toks[1].scopeOpener == Some(3) && toks[1].parenthesisCloser == None
            && toks[3].line == toks[1].line
            && AllmanStyle.DeclarationEnd(toks, 3, None) == Some(1)
            && AllmanStyle.LineEnd(toks, 3) == 6
            && AllmanStyle.HasTrailingAnnotation(toks, 3, 6)
  {
    var toks := AnnotatedTry();
    assert toks[1].code !in EmptyTokens && toks[2].code in EmptyTokens;
    assert toks[5].code in PhpcsCommentTokens;
  }
}
