/**
 * What both versions of the brace sniff share word for word: the keyword
 * codes they register for, their four configuration flags and the filter
 * that skips a construct whose kind is switched off.
 */
module SniffConfig {
  import opened Tokens

  /** The sniff's public properties; PHPCS sets them from the ruleset, all true by default. */
  datatype Config = Config(checkFunctions: bool, checkConditional: bool, checkLoops: bool, checkTryCatch: bool)

  const Default := Config(true, true, true, true)

  /** The keyword codes whose tokens PHPCS hands to `process`. */
  function Register(): (r: seq<Code>)
    ensures |r| == 11
    ensures forall i, j :: 0 <= i < j < |r| ==> r[i] != r[j]
    ensures forall c :: c in r <==> Registered(c)
  {
    [TFunction, TFor, TForeach, TWhile, TDo, TIf, TElseIf, TElse, TTry, TCatch, TClass]
  }

  /** The codes PHPCS hands to `process`: every keyword the filter knows except `switch`. */
  predicate Registered(c: Code) {
    IsKeyword(c) && c != TSwitch
  }

  /** The construct keywords the filter knows about. */
  predicate IsKeyword(c: Code) {
    c in {TFunction, TFor, TForeach, TWhile, TDo, TIf, TElseIf, TElse, TSwitch, TTry, TCatch, TClass}
  }

  predicate IsLoop(c: Code) { c == TForeach || c == TFor || c == TWhile || c == TDo }

  predicate IsConditional(c: Code) { c == TIf || c == TElseIf || c == TElse || c == TSwitch }

  predicate IsTryCatch(c: Code) { c == TTry || c == TCatch }

  /** The filter: a keyword whose group is switched off is skipped. */
  predicate Skips(cfg: Config, c: Code)
    ensures Skips(cfg, c) ==> IsKeyword(c) && c != TClass
  {
    || (c == TFunction && !cfg.checkFunctions)
    || (IsLoop(c) && !cfg.checkLoops)
    || (IsConditional(c) && !cfg.checkConditional)
    || (IsTryCatch(c) && !cfg.checkTryCatch)
  }

  /**
   * With every flag off, every keyword but `class` is skipped; with the
   * default configuration nothing is.
   */
  lemma SkipsAtExtremes(c: Code)
    ensures Skips(Config(false, false, false, false), c) <==> IsKeyword(c) && c != TClass
    ensures !Skips(Default, c)
  {
  }
}
