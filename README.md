# Allman brace sniff for PHP_CodeSniffer, modelled in Dafny

This project models the brace-placement check of the `EnforceAllmanStyle`
PHP_CodeSniffer sniff. The sniff exists in two versions, and the model covers both:

- **The current sniff** (`src/EnforceAllmanStyle.php`). PHPCS hands `process` a construct keyword (`function`, a loop, a conditional, `try`/`catch` or `class`). `process` skips keywords without a scope and keywords whose group is switched off. It then finds the end of the declaration, the nearest non-empty token before the opening brace. Next it measures the line gap from that token to the brace. A gap of 0 goes to `fix_same_line`, and a gap above 1 goes to `fix_blank_lines`. Both report errors and, while PHPCS is fixing, hand the fixer a changeset of text edits.
- **The older sniff** (`EnforceAllmanStyle/Sniffs/EnforceAllmanStyleSniff.php`). It has the same registration and filter, and a single same-line check.

The token stream is a `seq<Token>`. PHPCS's `findPrevious`, `findNext` and `findFirstOnLine` are scan functions over it. They follow PHPCS's type-list/exclude semantics and each has a full characterisation as its contract.

PHPCS's `File` and `Fixer` objects are classes holding append-only logs: errors, metrics and fixer calls. Each step of the sniff is written twice:

- a function that says what the step appends, as an `Effects` value;
- a method over the objects, proved to append exactly that.

The lemmas state what the source does with those effects, including its dead and quirky paths.

Files:

- `tokens.dfy`: tokens, the empty and annotation token classes, the token lookups both versions use, and the three PHPCS searches.
- `phpcs.dfy`: errors, metrics, fixer edits, and the `File` and `Fixer` classes.
- `config.dfy`: the registered keywords, the four configuration flags and the filter. Both versions share these word for word.
- `allman_style.dfy`: the current sniff.
- `allman_style_sniff.dfy`: the older sniff.
- `scenarios.dfy`: two concrete token streams worked through the model of the current sniff.

What the code does, where a reader might expect otherwise:

- A gap of exactly 1 line produces nothing at all. `process` never calls `fix_blank_lines` for it. The trailing-content and indentation checks therefore run only when the brace is two or more lines below the declaration end. Comment lines in between count toward that gap, because comments are empty tokens that the declaration-end search skips, and BraceSpacing's `[lineDiff-1]` counts them as blank lines.
- BraceIndent can never be reported through `process`. `fix_blank_lines` returns before the indentation check unless the gap is 1, and it is only called with a gap above 1.
- The blank-line fix deletes nothing. The `replaceToken` after the duplicated test can never be reached. The loop only adds line breaks before brace-line tokens at column 1, and it calls `endChangeset` once for every gap token on another line.
- `findFirstOnLine([], $open)` has an empty type list and no exclusion, so it matches nothing. Neither version's fix ever adds the indentation it looks up.
- Without a trailing annotation, the current same-line fix blanks the space before the brace. It then adds a line break before the first token of the next line. The brace itself stays where it is (`Scenarios.SameLineFunctionFix`).
- Only `phpcs:` annotations count as a trailing annotation. An ordinary `//` comment after the brace takes the path without an annotation.
- In the older sniff, `$token = T_CATCH` assigns rather than compares, so the declaration end is always the brace itself. Every construct that passes the filter therefore gets the 'same line' metric and two BraceOnSameLine errors at the keyword. The first is `addError(..., 2, true)`: severity 2, and, through its sixth argument, flagged fixable.

## Model

| member | source | states |
|---|---|---|
| Tokens.FindPrevious | src/EnforceAllmanStyle.php:217 | The result is the last token in `[end, start]` that matches, or `None` when no token in that range matches. |
| Tokens.FindNext | src/EnforceAllmanStyle.php:142 | The result is the first token from `start` to the end of the stream that matches, or `None` when none does. |
| Tokens.FindFirstOnLine | src/EnforceAllmanStyle.php:163 | The result is the lowest matching token on the backward run of tokens on `start`'s line, or `None` when none on that run matches. |
| Tokens.EmptyTypeListFindsNothing | src/EnforceAllmanStyle.php:73 | `findFirstOnLine([], x)` with no exclusion always fails. |
| SniffConfig.Register | src/EnforceAllmanStyle.php:36-51 | Exactly 11 distinct keyword codes are registered: every keyword the filter knows except `T_SWITCH`. |
| SniffConfig.Skips | src/EnforceAllmanStyle.php:203-211 | Only a filtered keyword other than `class` can be skipped. |
| SniffConfig.SkipsAtExtremes | src/EnforceAllmanStyle.php:203-211 | With all four flags off, exactly the keywords other than `class` are skipped. The default configuration skips nothing. |
| AllmanStyle.Spaces | src/EnforceAllmanStyle.php:180 | `str_repeat(' ', n)` has length n and holds only spaces. |
| AllmanStyle.DeclarationEnd | src/EnforceAllmanStyle.php:213-217 | `$prev` is the nearest non-empty token before the brace, searched no further back than the parenthesis closer (or token 0 when there is none). Every token between it and the brace is empty. |
| AllmanStyle.LineEnd | src/EnforceAllmanStyle.php:61-66 | `$nextLine` is the first token after the brace on another line, or the token count. Every token between the brace and it is on the brace's line. |
| AllmanStyle.SameLineChangeset | src/EnforceAllmanStyle.php:72-101 | Defines the changeset `fix_same_line` hands the fixer, branch for branch. Its shape is proved by `SameLineChangesetContents`, `SameLineChangesetBracketed` and `SameLineMovesBraceOnlyWithAnnotation`. |
| AllmanStyle.SameLineEffects | src/EnforceAllmanStyle.php:53-103 | Defines what `fix_same_line` adds: one fixable BraceOnSameLine error at the brace and, when fixing, the changeset. `FixSameLine` is proved to append exactly this. |
| AllmanStyle.ScanLine | src/EnforceAllmanStyle.php:60-71 | The forward scan stops at `LineEnd`, and its annotation flag is true iff a phpcs annotation lies strictly between the brace and that stop. |
| AllmanStyle.WriteSameLineChangeset | src/EnforceAllmanStyle.php:72-101 | Appends exactly `SameLineChangeset` to the fixer's log. The two indentation edits are dead code, because the lookup finds nothing. |
| AllmanStyle.FixSameLine | src/EnforceAllmanStyle.php:53-103 | Appends one fixable BraceOnSameLine error at the brace and, when fixing, the changeset. |
| AllmanStyle.GapStep | src/EnforceAllmanStyle.php:123-136 | Defines what one turn of the fix loop emits for one token, including the unreachable `replaceToken` branch. Its End count is proved by `GapStepEnds`. |
| AllmanStyle.GapEdits | src/EnforceAllmanStyle.php:121-137 | The loop makes at most one fixer call per token it visits. |
| AllmanStyle.SpacingEffects | src/EnforceAllmanStyle.php:107-139 | Defines the BraceSpacing report and its changeset. Its properties are proved by `SpacingFixableIff`. |
| AllmanStyle.TrailingContentEffects | src/EnforceAllmanStyle.php:140-156 | Defines the ContentAfterBrace report and its `addNewline`. Its properties are proved by `ContentAfterBraceIff`. |
| AllmanStyle.IndentEffects | src/EnforceAllmanStyle.php:158-190 | Defines the BraceIndent report and its `replaceToken`. Its properties are proved by `IndentCheck`. |
| AllmanStyle.BlankLinesEffects | src/EnforceAllmanStyle.php:105-191 | Defines what `fix_blank_lines` adds, with the early return on the construct's own closer. Its properties are proved by `BlankLinesOpensWithSpacing`, `BlankLinesNeverReplaces` and `EmptyBodyStopsEarly`. |
| AllmanStyle.CollapseGap | src/EnforceAllmanStyle.php:120-137 | The backward fix loop appends, for each token from the brace down to just above `$prev`, the edits that token calls for. |
| AllmanStyle.ReportSpacing | src/EnforceAllmanStyle.php:107-139 | Appends the BraceSpacing error with data `[lineDiff-1]`. It is fixable iff the previous non-whitespace token is `$prev`, and a fixable report in fix mode adds Begin plus the loop's edits. |
| AllmanStyle.ReportTrailingContent | src/EnforceAllmanStyle.php:140-156 | Returns "stop" iff the first token after the brace that is not whitespace or an annotation is on the brace's line and is the construct's own closer. Otherwise, when such a token is on the brace's line, it appends a fixable ContentAfterBrace error and, when fixing, `Newline(open)`. |
| AllmanStyle.CheckIndent | src/EnforceAllmanStyle.php:158-190 | Appends what the indentation check reports and edits, which is nothing unless the gap is 1. |
| AllmanStyle.FixBlankLines | src/EnforceAllmanStyle.php:105-191 | Appends the spacing report, then the trailing-content check (returning early on the construct's own closer), then the indentation check. |
| AllmanStyle.BlankLinesOpensWithSpacing | src/EnforceAllmanStyle.php:105-139 | The spacing report's error and changeset are a prefix of what `fix_blank_lines` reports and edits, and it records no metric. |
| AllmanStyle.BlankLinesLeadsWithSpacing | src/EnforceAllmanStyle.php:105-117 | The first error `fix_blank_lines` reports is BraceSpacing at the brace, with data `[lineDiff-1]`, and it records no metric. |
| AllmanStyle.ProcessEffects | src/EnforceAllmanStyle.php:193-236 | Defines what `process` adds for one keyword: the filter, the declaration end and the dispatch on the line gap. `Process` is proved to append exactly this. |
| AllmanStyle.DispatchEffects | src/EnforceAllmanStyle.php:219-235 | Defines the dispatch on the line gap, with the metric each branch records. Its three branches are proved by `DispatchSameLine`, `ProcessTakesBlankLines` and `DispatchNothing`. |
| AllmanStyle.Process | src/EnforceAllmanStyle.php:193-236 | Appends exactly what the filter, the declaration end and the dispatch on the line gap call for. |
| AllmanStyle.ProcessSkips | src/EnforceAllmanStyle.php:197-211 | A keyword without a scope opener, or whose group is switched off, produces no errors, metrics or edits. |
| AllmanStyle.DispatchSameLine | src/EnforceAllmanStyle.php:219-229 | A gap of 0 gives one BraceOnSameLine error at the brace, a 'same line' metric and, iff fixing, the same-line changeset. |
| AllmanStyle.DispatchBlankLines | src/EnforceAllmanStyle.php:219-235 | A gap above 1 gives a BraceSpacing error first, at the brace, with data `[gap-1]`, and a 'new line' metric. |
| AllmanStyle.DispatchNothing | src/EnforceAllmanStyle.php:219-235 | A gap of 1 or a negative gap gives no errors, metrics or edits. |
| AllmanStyle.ProcessTakesBlankLines | src/EnforceAllmanStyle.php:231-235 | A gap above 1 adds exactly what `fix_blank_lines` adds, followed by the 'new line' metric. |
| AllmanStyle.ProcessMetricIffReport | src/EnforceAllmanStyle.php:226-235 | `process` records at most one metric. It records one exactly when it reports an error, and a construct with no metric gets no errors and no edits. |
| AllmanStyle.SameLineChangesetContents | src/EnforceAllmanStyle.php:72-101 | The changeset is Begin, then either an optional `Replace(open-1, "")` and `NewlineBefore(nextLine)`, or `Replace(open, "")`, `NewlineBefore(nextLine)`, `AddBefore(nextLine, "{")`, then End. It never holds an indentation edit. |
| AllmanStyle.SameLineChangesetBracketed | src/EnforceAllmanStyle.php:72-101 | The changeset holds exactly one Begin, first, and exactly one End, last. Its only line break goes before the first token of the next line. |
| AllmanStyle.SameLineMovesBraceOnlyWithAnnotation | src/EnforceAllmanStyle.php:75-99 | With an annotation, the brace is blanked and `{` is written on the next line. Without one, no edit touches the brace. |
| AllmanStyle.GapEditsOnly | src/EnforceAllmanStyle.php:121-137 | The fix loop emits only End and `NewlineBefore(i)`, for brace-line tokens at column 1 within the gap. It never emits Replace. |
| AllmanStyle.GapEditsBreakColumnOne | src/EnforceAllmanStyle.php:123-130 | Every brace-line token at column 1 in the gap gets a line break before it. |
| AllmanStyle.GapEditsEnds | src/EnforceAllmanStyle.php:121-137 | The loop emits End iff some gap token is on a line other than the brace's. |
| AllmanStyle.GapEditsEndCount | src/EnforceAllmanStyle.php:121-137 | The number of End entries the loop emits equals the number of gap tokens `j`, with `i < j <= open`, on another line than the brace. `endChangeset` runs once for each such token. |
| AllmanStyle.BlankLinesNeverReplaces | src/EnforceAllmanStyle.php:105-191 | For any gap other than 1, `fix_blank_lines` never calls `replaceToken` or `addContentBefore`. |
| AllmanStyle.SpacingFixableIff | src/EnforceAllmanStyle.php:107-118 | BraceSpacing is reported once, at the brace, with data `[lineDiff-1]`. It is fixable iff every token between `$prev` and the brace is whitespace, and it carries edits iff it is fixable and fixing. |
| AllmanStyle.ContentAfterBraceIff | src/EnforceAllmanStyle.php:140-156 | ContentAfterBrace is reported iff the first token after the brace that is not whitespace or an annotation is on the brace's line and is not the construct's `scope_closer`. `Newline(open)` is the only `addNewline` edit, present iff reported and fixing. The gap loop's `NewlineBefore` edits are separate. |
| AllmanStyle.EmptyBodyStopsEarly | src/EnforceAllmanStyle.php:143-148 | When that token is the construct's own closer, nothing follows the spacing report. |
| AllmanStyle.KeywordLineStart | src/EnforceAllmanStyle.php:163-164 | `$lineStart` always exists and is the first non-whitespace token on the keyword's line. |
| AllmanStyle.IndentCheck | src/EnforceAllmanStyle.php:158-190 | On its own, with a gap of 1 and columns that differ, it reports BraceIndent with data `[startColumn-1, braceColumn-1]`. In fix mode it replaces `open` (brace at column 1) or `open-1` with that many spaces. Otherwise it does nothing. |
| AllmanStyle.BlankLinesNoIndent | src/EnforceAllmanStyle.php:158-161 | With a gap other than 1, nothing `fix_blank_lines` reports is a BraceIndent error. |
| AllmanStyle.ProcessNeverReportsIndent | src/EnforceAllmanStyle.php:226-235 | `process` never reports BraceIndent. |
| AllmanStyleSniff.StatementEnd | EnforceAllmanStyle/Sniffs/EnforceAllmanStyleSniff.php:82-87 | Because of the assignment in the test, `$stmtClose` is always the scope opener. |
| AllmanStyleSniff.Changeset | EnforceAllmanStyle/Sniffs/EnforceAllmanStyleSniff.php:104-120 | Defines the older sniff's changeset, branch for branch. Its contents are proved by `ChangesetContents`. |
| AllmanStyleSniff.ProcessEffects | EnforceAllmanStyle/Sniffs/EnforceAllmanStyleSniff.php:63-122 | Defines what the older `process` adds for one keyword. Its properties are proved by `ProcessSkips` and `ProcessReportsEveryConstruct`. |
| AllmanStyleSniff.FixBrace | EnforceAllmanStyle/Sniffs/EnforceAllmanStyleSniff.php:104-120 | Appends exactly the older sniff's changeset to the fixer's log. |
| AllmanStyleSniff.Process | EnforceAllmanStyle/Sniffs/EnforceAllmanStyleSniff.php:63-122 | Appends exactly what the older `process` calls for: the metric, both errors and the changeset. |
| AllmanStyleSniff.ProcessSkips | EnforceAllmanStyle/Sniffs/EnforceAllmanStyleSniff.php:67-80 | A keyword without a scope opener, or whose group is switched off, produces nothing. |
| AllmanStyleSniff.ProcessReportsEveryConstruct | EnforceAllmanStyle/Sniffs/EnforceAllmanStyleSniff.php:82-120 | Every construct that passes the filter gets the 'same line' metric and two BraceOnSameLine errors at the keyword (severity 2 and fixable, then default and fixable). Its edits are exactly `Changeset` when fixing and nothing otherwise. |
| AllmanStyleSniff.ChangesetContents | EnforceAllmanStyle/Sniffs/EnforceAllmanStyleSniff.php:104-120 | The changeset is Begin, an optional `Replace(scopeBegin-1, "")`, `NewlineBefore(scopeBegin)`, End. It never holds an indentation edit. |
| Scenarios.SameLineFunctionFix | src/EnforceAllmanStyle.php:53-103 | For `function f() {`, the fix blanks the space and breaks the line before `}` while the brace stays. |
| Scenarios.AnnotatedTryFix | src/EnforceAllmanStyle.php:89-99 | For `try { // phpcs:set ...`, the fix blanks the brace and writes a line break and `{` before the next line's `}`. The comment token holds the line's break, as PHP's tokenizer makes it. |

## Left out

- The autoloader (`enforce_allman_style-autoload.php`) is not part of this model. It is file-system plumbing.
- The `echo` calls of the older sniff are console output and are not modelled.
- The PHP tokenizer is not modelled: the token stream, with its lines, columns and scope and parenthesis links, is an input.
- How the fixer applies edits to the file's text is not modelled. Only the sequence of fixer calls is, so "after fixing, the brace is on the next line" is not stated.
- Whether `addFixableError` returns true is decided inside PHPCS. It is the `fixing` flag of the `File` object, the same for every call.
- `token_name` and the metric label strings are not modelled. A metric is the keyword position, the keyword's token code and the value. The two versions' labels differ ("opening brace placement" and "stmtCloseing brace placement"), which the model does not record.
- The error log records every report call the sniff makes, including reports PHPCS itself would then suppress (a `phpcs:ignore` on the brace's line, a `phpcs:disable` region). Suppression is decided inside PHPCS and is not modelled. The same holds for the severity threshold: the older sniff's `addError(..., 2, true)` has severity 2, below PHPCS's default error-severity threshold, so a default run would not record it, while the model does.
- The relative order of the error log and the metric log is not modelled; each log keeps its own order. The older sniff records its metric before its errors.
- Token classes are simplified. `TDocComment` stands for every docblock token, and every code the sniff does not test is `TOther`.
- `AllmanStyle.ProcessEffects`: a failed declaration-end search skips the construct. PHP would read `$tokens[false]`, which is token 0. That search fails only when no closer is given and everything back to token 0 is empty.
- `AllmanStyle.ProcessEffects`: `src/EnforceAllmanStyle.php:214` reads `parenthesis_closer` for every keyword, including those that have none (`class`, `try`, `else`, `do`). PHP then raises an undefined-array-key warning (a notice before PHP 8) and goes on with `null`. The model goes on as plain PHP does: the closer is `None`, and the declaration-end search runs down to token 0. The warning itself is not modelled, and neither is a PHPCS run that turns such warnings into errors.
- `AllmanStyle.BlankLinesEffects`: a failed `findNext` after the brace means no ContentAfterBrace. PHP would compare token 0's line with the brace's line.
- `AllmanStyle.SameLineChangeset`: the failed indentation lookup reads as "not whitespace". PHP would test token 0, which the PHP tokenizer always makes an open tag or inline HTML, so the outcome is the same.
- `AllmanStyleSniff.Changeset`: the same failed lookup (`EnforceAllmanStyle/Sniffs/EnforceAllmanStyleSniff.php:108-110`) reads as "not whitespace" in the same way, with the same outcome.
- When the brace's line runs to the end of the stream, `$nextLine` is the token count. The edits are logged with that index; what the fixer does with it is not modelled.
- `Process` (both versions) requires the keyword's code to be one of the registered codes, as PHPCS only calls `process` for those. The `T_SWITCH` test in the filter is therefore never reached.
