/**
 * `PaymentTotalRule` (`core/parsing/rules/payment_total.py`): the amount after
 * a payment keyword, read as the amount paid (TTC).
 */
module PaymentTotal {
  import opened Wrappers
  import opened Chars
  import opened Strings
  import opened BaseRule
  import opened Patterns

  /** The number of keyword alternatives; `esp(?:èces)?` counts as `espèces` then `esp`. */
  const KeywordCount: nat := 8

  /**
   * Where alternative `a` of `(?:cb|carte\s*bleue|esp(?:èces)?|cash|amex|visa|mastercard)`
   * ends when it starts at `i` (case-insensitive).
   */
  function KeywordEnd(s: string, i: nat, a: nat): (e: Option<nat>)
    requires i <= |s| && a < KeywordCount
    ensures e.Some? ==> i + 2 <= e.value <= |s|
  {
    if a == 1 then
      if MatchCI(s, i, "carte") && MatchCI(s, SkipSpaces(s, i + 5), "bleue") then Some(SkipSpaces(s, i + 5) + 5) else None
    else
      var lit := match a
        case 0 => "cb"
        case 2 => "esp\U{E8}ces"
        case 3 => "esp"
        case 4 => "cash"
        case 5 => "amex"
        case 6 => "visa"
        case _ => "mastercard";
      if MatchCI(s, i, lit) then Some(i + |lit|) else None
  }

  /**
   * The alternatives from `a` on, each followed by `\b\s*[:\-]?\s*` and an
   * amount: where the amount starts for the first alternative that succeeds.
   */
  function KeywordsFrom(s: string, i: nat, a: nat): (k: Option<nat>)
    requires i <= |s| && a <= KeywordCount
    ensures k.Some? ==> i < k.value && NumberStart(s, k.value)
    decreases KeywordCount - a
  {
    if a == KeywordCount then None
    else
      match KeywordEnd(s, i, a)
      case Some(e) =>
        if WordBoundary(s, e) && NumberStart(s, SeparatorEnd(s, e)) then Some(SeparatorEnd(s, e))
        else KeywordsFrom(s, i, a + 1)
      case None => KeywordsFrom(s, i, a + 1)
  }

  /** One attempt of the payment pattern at `i`: where its amount starts. */
  function MatchAt(s: string, i: nat): (k: Option<nat>)
    requires i <= |s|
    ensures k.Some? ==> i < k.value && NumberStart(s, k.value) && WordBoundary(s, i)
  {
    if WordBoundary(s, i) then KeywordsFrom(s, i, 0) else None
  }

  /** The attempt of the pattern at every position, `None` past the end of the text. */
  function Attempts(s: string): nat -> Option<nat> {
    (j: nat) => if j <= |s| then MatchAt(s, j) else None
  }

  /** `_re.search`: the leftmost position at which the pattern matches. */
  function Search(s: string, i: nat): (k: Option<nat>)
    requires i <= |s|
    ensures k.Some? ==> NumberStart(s, k.value)
  {
    FirstMatchFound(Attempts(s), i, |s|);
    FirstMatch(Attempts(s), i, |s|)
  }

  /** What `re.search` returns is the leftmost match: the match at `p` when nothing matches from `i` up to `p`. */
  lemma SearchLeftmost(s: string, i: nat, p: nat)
    requires i <= p <= |s| && MatchAt(s, p).Some?
    requires forall j :: i <= j < p ==> MatchAt(s, j).None?
    ensures Search(s, i) == MatchAt(s, p)
  {
    FirstMatchLeftmost(Attempts(s), i, |s|, p);
  }

  /** `PaymentTotalRule.apply` */
  function Apply(text: string): (r: Result<Option<ParseResult>>)
    ensures Search(text, 0).None? <==> r == Success(None)
    ensures Search(text, 0).Some? ==>
      var amount := ToDec(Captured(text, Search(text, 0).value));
      (r.Failure? <==> amount.Failure?)
      && (r.Success? ==> r.value == Some(ParseResult(None, Some(amount.value), None, [], 0.5, {"payment_total"})))
  {
    match Search(text, 0)
    case None => Success(None)
    case Some(k) =>
      match ToDec(Captured(text, k))
      case Failure(e) => Failure(e)
      case Success(ttc) => Success(Some(ParseResult(None, Some(ttc), None, [], 0.5, {"payment_total"})))
  }

  /** A `:` between the keyword and the amount is skipped. */
  lemma ColonSeparator()
    ensures MatchAt("CB: 26,80", 0) == Some(4)
  {
    var s := "CB: 26,80";
    assert WordBoundary(s, 0);
    assert KeywordEnd(s, 0, 0) == Some(2);
    assert WordBoundary(s, 2);
    ColonSeparatorEnd();
  }

  lemma ColonSeparatorEnd()
    ensures SeparatorEnd("CB: 26,80", 2) == 4
  {
    var s := "CB: 26,80";
    assert SkipSpaces(s, 2) == 2;
    assert SkipSpaces(s, 3) == 4;
  }

  /** A `-` right after the keyword is taken as the separator, not as a sign. */
  lemma DashIsSeparator()
    ensures MatchAt("CB -5,00", 0) == Some(4)
  {
    var s := "CB -5,00";
    assert WordBoundary(s, 0);
    assert KeywordEnd(s, 0, 0) == Some(2);
    assert WordBoundary(s, 2);
    DashSeparatorEnd();
  }

  lemma DashSeparatorEnd()
    ensures SeparatorEnd("CB -5,00", 2) == 4
  {
    var s := "CB -5,00";
    assert SkipSpaces(s, 2) == 3;
    assert SkipSpaces(s, 4) == 4;
  }
}
