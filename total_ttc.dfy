/**
 * `TotalTTCRule` (`core/parsing/rules/total_ttc.py`): the first amount after
 * the first TTC label (`TTC`, `T.T.C.`, optionally preceded by `TOTAL`).
 */
module TotalTtc {
  import opened Wrappers
  import opened Chars
  import opened Strings
  import opened BaseRule
  import opened Patterns

  /**
   * One attempt of `\b(?:total\s*)?t\.?\s*t\.?\s*c\.?\b.*?(amount)` at `i`:
   * first with the optional `total` taken, then without it.
   */
  function MatchAt(s: string, i: nat): (k: Option<nat>)
    requires i <= |s|
    ensures k.Some? ==> NumberStart(s, k.value) && WordBoundary(s, i)
  {
    if !WordBoundary(s, i) then None
    else
      var withTotal :=
        if MatchCI(s, i, "total") then
          match TtcWord(s, SkipSpaces(s, i + 5))
          case None => None
          case Some(e) => LazyNumber(s, e)
        else None;
      if withTotal.Some? then withTotal
      else
        match TtcWord(s, i)
        case None => None
        case Some(e) => LazyNumber(s, e)
  }

  /** The attempt of the pattern at every position, `None` past the end of the text. */
  function Attempts(s: string): nat -> Option<nat> {
    (j: nat) => if j <= |s| then MatchAt(s, j) else None
  }

  /** `_ttc.search`: the leftmost position at which the pattern matches. */
  function Search(s: string, i: nat): (k: Option<nat>)
    requires i <= |s|
    ensures k.Some? ==> NumberStart(s, k.value)
  {
    FirstMatchFound(Attempts(s), i, |s|);
    FirstMatch(Attempts(s), i, |s|)
  }

  /** What `re.search` returns is the leftmost match: the match at `p` when nothing matches from `i` up to `p`. */
  lemma SearchLeftmost(s: string, i: nat, p: nat)
    requires i <= p <= |s| && MatchAt(s, p).Some?
    requires forall j :: i <= j < p ==> MatchAt(s, j).None?
    ensures Search(s, i) == MatchAt(s, p)
  {
    FirstMatchLeftmost(Attempts(s), i, |s|, p);
  }

  /** `TotalTTCRule.apply` */
  function Apply(text: string): (r: Result<Option<ParseResult>>)
    ensures Search(text, 0).None? <==> r == Success(None)
    ensures Search(text, 0).Some? ==>
      var amount := ToDec(Captured(text, Search(text, 0).value));
      (r.Failure? <==> amount.Failure?)
      && (r.Success? ==> r.value == Some(ParseResult(None, Some(amount.value), None, [], 0.55, {"total_ttc"})))
  {
    match Search(text, 0)
    case None => Success(None)
    case Some(k) =>
      match ToDec(Captured(text, k))
      case Failure(e) => Failure(e)
      case Success(ttc) => Success(Some(ParseResult(None, Some(ttc), None, [], 0.55, {"total_ttc"})))
  }

  /** `T.T.C.` with dots is a TTC label too. */
  lemma DottedLabel()
    ensures MatchAt("T.T.C. 9,90", 0) == Some(7)
  {
    var s := "T.T.C. 9,90";
    assert Lower(s[1]) != "total"[1];
    assert WordBoundary(s, 0) && !MatchCI(s, 0, "total");
    DottedWord();
    DottedLazy();
  }

  lemma DottedWord()
    ensures TtcWord("T.T.C. 9,90", 0) == Some(5)
  {
    var s := "T.T.C. 9,90";
    assert OptDot(s, 1) == 2 && SkipSpaces(s, 2) == 2 && MatchCI(s, 2, "t");
    assert OptDot(s, 3) == 4 && SkipSpaces(s, 4) == 4 && MatchCI(s, 4, "c");
    assert !WordBoundary(s, 6) && WordBoundary(s, 5);
    assert DotBoundary(s, 5) == Some(5);
  }

  lemma DottedLazy()
    ensures LazyNumber("T.T.C. 9,90", 5) == Some(7)
  {
  }
}
