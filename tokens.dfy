/**
 * The token stream a PHP_CodeSniffer sniff reads, and the three search
 * helpers of PHPCS's File object that the brace sniff calls:
 * findPrevious, findNext and findFirstOnLine.
 *
 * Tokens are addressed by their index in the stream. A token's structural
 * links (scope opener and closer, parenthesis closer) are indices the
 * tokenizer computed; a missing link is `None`.
 */
module Tokens {

  datatype Option<T> = None | Some(value: T)

  /** The token codes the sniff distinguishes; every other code is `TOther`. */
  datatype Code =
    | TFunction | TFor | TForeach | TWhile | TDo
    | TIf | TElseIf | TElse | TSwitch
    | TTry | TCatch | TClass
    | TWhitespace
    | TComment          // an ordinary `//`, `#` or `/* */` comment
    | TDocComment       // stands for every token of a `/** */` docblock
    | TPhpcsComment     // a `phpcs:ignore`, `phpcs:disable`, ... annotation
    | TOther(name: string)

  /** Columns are 1-based in PHPCS. */
  type Column = c: int | 1 <= c witness 1

  datatype Token = Token(
    code: Code,
    line: int,
    column: Column,
    content: string,
    scopeOpener: Option<nat>,
    scopeCloser: Option<nat>,
    parenthesisCloser: Option<nat>)

  /** What PHPCS guarantees of the keyword token it hands to `process`. */
  predicate LinksInRange(toks: seq<Token>, p: nat) {
    p < |toks| && (toks[p].scopeOpener.Some? ==> p < toks[p].scopeOpener.value < |toks|)
  }

  /** `$tokens[$indent]['code'] === T_WHITESPACE`, with a failed lookup reading as "no". */
  predicate IsWhitespaceAt(toks: seq<Token>, k: Option<nat>) {
    k.Some? && k.value < |toks| && toks[k.value].code == TWhitespace
  }

  /** `$tokens[$indent]['content']`, with a failed lookup reading as empty. */
  function ContentAt(toks: seq<Token>, k: Option<nat>): string {
    if k.Some? && k.value < |toks| then toks[k.value].content else ""
  }

  /** PHPCS's `Tokens::$emptyTokens`: whitespace and every kind of comment. */
  const EmptyTokens: set<Code> := {TWhitespace, TComment, TDocComment, TPhpcsComment}

  /** PHPCS's `Tokens::$phpcsCommentTokens`: the `phpcs:` annotations only. */
  const PhpcsCommentTokens: set<Code> := {TPhpcsComment}

  /**
   * Whether a token with code `c` is what a search with type list `types`
   * is looking for: a member of the list, or, when `exclude` is set, a
   * non-member.
   */
  predicate Matches(c: Code, types: set<Code>, exclude: bool) {
    (c in types) != exclude
  }

  /**
   * findPrevious(types, start, end, exclude): walk backward from `start`
   * down to `end` inclusive and return the first matching token. PHPCS
   * uses 0 when no end is given, which callers express by passing 0.
   */
  function FindPrevious(toks: seq<Token>, types: set<Code>, start: int, end: nat, exclude: bool): (r: Option<nat>)
    requires start < |toks|
    ensures r.Some? ==>
      end <= r.value <= start && Matches(toks[r.value].code, types, exclude) &&
      forall j :: r.value < j <= start ==> !Matches(toks[j].code, types, exclude)
    ensures r.None? ==> forall j :: end <= j <= start ==> !Matches(toks[j].code, types, exclude)
    decreases start + 1
  {
    if start < end then None
    else if Matches(toks[start].code, types, exclude) then Some(start)
    else FindPrevious(toks, types, start - 1, end, exclude)
  }

  /**
   * findNext(types, start, null, exclude): walk forward from `start` to the
   * end of the stream and return the first matching token.
   */
  function FindNext(toks: seq<Token>, types: set<Code>, start: nat, exclude: bool): (r: Option<nat>)
    ensures r.Some? ==>
      start <= r.value < |toks| && Matches(toks[r.value].code, types, exclude) &&
      forall j :: start <= j < r.value ==> !Matches(toks[j].code, types, exclude)
    ensures r.None? ==> forall j :: start <= j < |toks| ==> !Matches(toks[j].code, types, exclude)
    decreases |toks| - start
  {
    if start >= |toks| then None
    else if Matches(toks[start].code, types, exclude) then Some(start)
    else FindNext(toks, types, start + 1, exclude)
  }

  /**
   * The first index of the run of tokens, ending at `i`, that the backward
   * walk of findFirstOnLine visits: it stops at the first token whose line
   * is before `line`, or at the start of the stream.
   */
  function LineRunStart(toks: seq<Token>, line: int, i: int): (b: nat)
    requires -1 <= i < |toks|
    ensures b <= i + 1
    ensures forall j :: b <= j <= i ==> toks[j].line >= line
    ensures b == 0 || toks[b - 1].line < line
    decreases i + 1
  {
    if i < 0 || toks[i].line < line then i + 1
    else LineRunStart(toks, line, i - 1)
  }

  /**
   * The candidate findFirstOnLine keeps when its backward walk has reached
   * index `i`: the lowest matching index of the run that ends at `i`.
   */
  function FirstMatchOnRun(toks: seq<Token>, types: set<Code>, line: int, i: int, exclude: bool): (r: Option<nat>)
    requires -1 <= i < |toks|
    ensures r.Some? ==>
      LineRunStart(toks, line, i) <= r.value <= i && Matches(toks[r.value].code, types, exclude) &&
      forall j :: LineRunStart(toks, line, i) <= j < r.value ==> !Matches(toks[j].code, types, exclude)
    ensures r.None? ==>
      forall j :: LineRunStart(toks, line, i) <= j <= i ==> !Matches(toks[j].code, types, exclude)
    decreases i + 1
  {
    if i < 0 || toks[i].line < line then None
    else
      match FirstMatchOnRun(toks, types, line, i - 1, exclude)
      case Some(k) => Some(k)
      case None => if Matches(toks[i].code, types, exclude) then Some(i) else None
  }

  /**
   * findFirstOnLine(types, start, exclude): the first token on the line of
   * `start`, at or before `start`, that matches. The PHPCS loop walks
   * backward and overwrites its candidate at every match, so the lowest
   * matching index of the line wins.
   */
  function FindFirstOnLine(toks: seq<Token>, types: set<Code>, start: nat, exclude: bool): (r: Option<nat>)
    requires start < |toks|
    ensures r.Some? ==>
      LineRunStart(toks, toks[start].line, start) <= r.value <= start &&
      Matches(toks[r.value].code, types, exclude) &&
      forall j :: LineRunStart(toks, toks[start].line, start) <= j < r.value ==> !Matches(toks[j].code, types, exclude)
    ensures r.None? ==>
      forall j :: LineRunStart(toks, toks[start].line, start) <= j <= start ==> !Matches(toks[j].code, types, exclude)
  {
    FirstMatchOnRun(toks, types, toks[start].line, start, exclude)
  }

  /** A search whose type list is empty and that does not exclude finds nothing. */
  lemma EmptyTypeListFindsNothing(toks: seq<Token>, start: nat)
    requires start < |toks|
    ensures FindFirstOnLine(toks, {}, start, false) == None
  {
  }
}
