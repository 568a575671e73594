/**
 * The building blocks of the `re` patterns the rules use, written as
 * deterministic scanners over a string. Each scanner returns the position a
 * pattern element ends at, and is shaped after the way Python's backtracking
 * engine settles that element in the patterns of the rules (greedy runs
 * that cannot give characters back, lazy skips that stop at the earliest
 * success, alternatives tried in order).
 */
module Patterns {
  import opened Wrappers
  import opened Chars
  import opened Strings
  import opened BaseRule

  /** `\b` at position `i`. */
  predicate WordBoundary(s: string, i: nat)
    requires i <= |s|
  {
    (i > 0 && IsWordChar(s[i - 1])) != (i < |s| && IsWordChar(s[i]))
  }

  /** The end of the (possibly empty) run of whitespace starting at `p`: `\s*`. */
  function SkipSpaces(s: string, p: nat): (q: nat)
    requires p <= |s|
    ensures p <= q <= |s|
    ensures forall j :: p <= j < q ==> IsSpace(s[j])
    ensures q == |s| || !IsSpace(s[q])
    decreases |s| - p
  {
    if p < |s| && IsSpace(s[p]) then SkipSpaces(s, p + 1) else p
  }

  /** `_to3`/`[\d\s.,]`: the characters an amount may continue with. */
  predicate NumChar(c: char) {
    IsDigit(c) || IsSpace(c) || c == '.' || c == ','
  }

  /** The end of the run of `[\d\s.,]` starting at `p`. */
  function NumRunEnd(s: string, p: nat): (q: nat)
    requires p <= |s|
    ensures p <= q <= |s|
    ensures forall j :: p <= j < q ==> NumChar(s[j])
    ensures q == |s| || !NumChar(s[q])
    decreases |s| - p
  {
    if p < |s| && NumChar(s[p]) then NumRunEnd(s, p + 1) else p
  }

  /** `[\-]?\d` matches at `k`: an amount starts there. */
  predicate NumberStart(s: string, k: nat) {
    k < |s| && (IsDigit(s[k]) || (s[k] == '-' && k + 1 < |s| && IsDigit(s[k + 1])))
  }

  /** The length of the mandatory head `[\-]?\d` of an amount. */
  function HeadLen(s: string, k: nat): (n: nat)
    requires NumberStart(s, k)
    ensures k + n <= |s| && 1 <= n <= 2
    ensures IsDigit(s[k + n - 1])
  {
    if s[k] == '-' then 2 else 1
  }

  /**
   * The end of the greedy amount `[\-]?\d[\d\s.,]*` starting at `k`. The run
   * never gives characters back in the rules' patterns: what follows it is
   * either the end of the pattern or something no `[\d\s.,]` can be.
   */
  function NumberEnd(s: string, k: nat): (e: nat)
    requires NumberStart(s, k)
    ensures k + HeadLen(s, k) <= e <= |s|
    ensures forall j :: k + HeadLen(s, k) <= j < e ==> NumChar(s[j])
    ensures e == |s| || !NumChar(s[e])
  {
    NumRunEnd(s, k + HeadLen(s, k))
  }

  /** `s[p..q]` holds no `\n`, so `.*` can cross it. */
  predicate NoNewline(s: string, p: nat, q: nat)
    requires p <= q <= |s|
  {
    forall j :: p <= j < q ==> s[j] != '\n'
  }

  /**
   * `.*?([\-]?\d[\d\s.,]*)` from `p`: the lazy skip stops at the earliest
   * amount start on the same line. `None` when a `\n` or the end of the
   * text comes first.
   */
  function LazyNumber(s: string, p: nat): (k: Option<nat>)
    requires p <= |s|
    ensures k.Some? ==> p <= k.value < |s| && NumberStart(s, k.value) && NoNewline(s, p, k.value)
    ensures forall j :: p <= j < |s| && (k.None? || j < k.value) && NoNewline(s, p, j) ==> !NumberStart(s, j)
    decreases |s| - p
  {
    if p == |s| then None
    else if NumberStart(s, p) then Some(p)
    else if s[p] == '\n' then None
    else LazyNumber(s, p + 1)
  }

  // ----------------------------------------------------------------- rates

  predicate RateChar(c: char) {
    IsDigit(c) || c == '.' || c == ','
  }

  /** The end of the run of `[0-9.,]` starting at `p`. */
  function RateRunEnd(s: string, p: nat): (q: nat)
    requires p <= |s|
    ensures p <= q <= |s|
    ensures forall j :: p <= j < q ==> RateChar(s[j])
    ensures q == |s| || !RateChar(s[q])
    decreases |s| - p
  {
    if p < |s| && RateChar(s[p]) then RateRunEnd(s, p + 1) else p
  }

  /** The end of the run of digits starting at `p`. */
  function DigitRunEnd(s: string, p: nat): (q: nat)
    requires p <= |s|
    ensures p <= q <= |s|
    ensures forall j :: p <= j < q ==> IsDigit(s[j])
    ensures q == |s| || !IsDigit(s[q])
    decreases |s| - p
  {
    if p < |s| && IsDigit(s[p]) then DigitRunEnd(s, p + 1) else p
  }

  /** A rate as written: whole digits and fraction digits (the separator dropped). */
  datatype Rate = Rate(whole: string, frac: string)

  predicate RateShape(r: Rate) {
    AllDigits(r.whole) && AllDigits(r.frac) && 1 <= |r.whole| <= 2 && |r.frac| <= 2
  }

  /** `float(token.replace(",", "."))` */
  function RateValue(r: Rate): (v: real)
    requires RateShape(r)
    ensures 0.0 <= v < 100.0
  {
    TwoDigitsBelow100(r.whole);
    FixedPoint(r.whole, r.frac)
  }

  lemma TwoDigitsBelow100(s: string)
    requires AllDigits(s) && |s| <= 2
    ensures DigitsValue(s) < 100
  {
    if |s| == 2 {
      var h := s[..1];
      assert h[..0] == [] && AllDigits(h);
      assert DigitsValue(h) == DigitValue(h[0]) && h[0] == s[0];
      assert DigitsValue(s) == 10 * DigitsValue(h) + DigitValue(s[1]);
    } else if |s| == 1 {
      assert s[..0] == [];
    }
  }

  /**
   * `[0-9]{1,2}(?:[.,][0-9]{1,2})?` as a whole-string match of `t`, split
   * into its two digit groups.
   */
  function RateParts(t: string): (r: Option<Rate>)
    ensures r.Some? ==> RateShape(r.value)
    ensures r.Some? && r.value.frac == [] ==> t == r.value.whole
    ensures r.Some? && r.value.frac != [] ==>
      |t| == |r.value.whole| + 1 + |r.value.frac|
      && t[..|r.value.whole|] == r.value.whole
      && (t[|r.value.whole|] == '.' || t[|r.value.whole|] == ',')
      && t[|r.value.whole| + 1..] == r.value.frac
  {
    var k := DigitRunEnd(t, 0);
    if k < 1 || k > 2 then None
    else if k == |t| then Some(Rate(t, []))
    else if (t[k] == '.' || t[k] == ',') && 1 <= |t| - (k + 1) <= 2 && AllDigits(t[k + 1..]) then
      Some(Rate(t[..k], t[k + 1..]))
    else None
  }

  /**
   * A rate token followed by something that is not `[0-9.,]` (`%`, or
   * whitespace): since the token itself is made of `[0-9.,]`, it is the whole
   * run starting at `p`, and the run has to fit the token's shape.
   */
  function RateAt(s: string, p: nat): (r: Option<(nat, Rate)>)
    requires p <= |s|
    ensures r.Some? ==> p < r.value.0 <= |s| && r.value.0 == RateRunEnd(s, p) && RateShape(r.value.1)
    ensures r.Some? ==> RateParts(s[p..r.value.0]) == Some(r.value.1)
  {
    var e := RateRunEnd(s, p);
    match RateParts(s[p..e])
    case None => None
    case Some(rt) => Some((e, rt))
  }

  /**
   * `([0-9]{1,2}(?:[.,][0-9]{1,2})?)` with nothing required after it, from a
   * digit at `p`: greedy, so two digits when there are two, then the
   * fraction when a separator and a digit follow.
   */
  function GreedyRate(s: string, p: nat): (r: (nat, Rate))
    requires p < |s| && IsDigit(s[p])
    ensures p < r.0 <= |s| && RateShape(r.1)
    ensures RateParts(s[p..r.0]) == Some(r.1)
  {
    var w := if p + 1 < |s| && IsDigit(s[p + 1]) then 2 else 1;
    var q := p + w;
    assert AllDigits(s[p..q]);
    if q + 1 < |s| && (s[q] == '.' || s[q] == ',') && IsDigit(s[q + 1]) then
      var f := if q + 2 < |s| && IsDigit(s[q + 2]) then 2 else 1;
      var t := s[p..q + 1 + f];
      assert t[..w] == s[p..q];
      assert t[w + 1..] == s[q + 1..q + 1 + f];
      RatePartsFrac(t, w);
      (q + 1 + f, Rate(s[p..q], s[q + 1..q + 1 + f]))
    else
      var t := s[p..q];
      RatePartsWhole(t);
      (q, Rate(t, []))
  }

  /** One or two digits alone are a rate without fraction. */
  lemma RatePartsWhole(t: string)
    requires 1 <= |t| <= 2 && AllDigits(t)
    ensures RateParts(t) == Some(Rate(t, []))
  {
    DigitRunPrefix(t, |t|);
  }

  /** One or two digits, a separator and one or two digits are a rate with a fraction. */
  lemma RatePartsFrac(t: string, w: nat)
    requires 1 <= w <= 2 && w + 2 <= |t| <= w + 3 && AllDigits(t[..w])
    requires (t[w] == '.' || t[w] == ',') && AllDigits(t[w + 1..])
    ensures RateParts(t) == Some(Rate(t[..w], t[w + 1..]))
  {
    DigitRunPrefix(t, w);
  }

  lemma DigitRunPrefix(t: string, w: nat)
    requires w <= |t| && AllDigits(t[..w]) && (w == |t| || !IsDigit(t[w]))
    ensures DigitRunEnd(t, 0) == w
  {
    DigitRunFrom(t, 0, w);
  }

  lemma {:induction false} DigitRunFrom(t: string, p: nat, w: nat)
    requires p <= w <= |t| && (forall j :: p <= j < w ==> IsDigit(t[j])) && (w == |t| || !IsDigit(t[w]))
    ensures DigitRunEnd(t, p) == w
    decreases w - p
  {
    if p < w {
      DigitRunFrom(t, p + 1, w);
    }
  }

  // -------------------------------------------------------------- literals

  /** `lit` (lower case) matches case-insensitively at `p` and is followed by `\b`. */
  predicate WordCI(s: string, p: nat, lit: string) {
    MatchCI(s, p, lit) && WordBoundary(s, p + |lit|)
  }

  /** `lit` matches at `j`, with the word boundaries asked for. */
  predicate HitCI(s: string, j: nat, lit: string, before: bool, after: bool) {
    MatchCI(s, j, lit) && (before ==> WordBoundary(s, j)) && (after ==> WordBoundary(s, j + |lit|))
  }

  /**
   * The earliest `q >= p` at which `lit` matches case-insensitively, with `\b`
   * before it when `before` and after it when `after`.
   */
  function FirstCI(s: string, p: nat, lit: string, before: bool, after: bool): (q: Option<nat>)
    requires p <= |s|
    ensures q.Some? ==> p <= q.value && HitCI(s, q.value, lit, before, after)
    ensures forall j :: p <= j <= |s| && (q.None? || j < q.value) ==> !HitCI(s, j, lit, before, after)
    decreases |s| - p
  {
    if HitCI(s, p, lit, before, after) then Some(p)
    else if p == |s| then None
    else FirstCI(s, p + 1, lit, before, after)
  }

  /** The currency alternatives `(?:€|eur|euros?)?` in the order they are tried. */
  function Currency(i: nat): string
    requires i < 5
  {
    match i
    case 0 => "\U{20AC}"
    case 1 => "eur"
    case 2 => "euros"
    case 3 => "euro"
    case _ => ""
  }

  /**
   * `\s*(?:€|eur|euros?)?\s*LIT` from `p` (case-insensitive): the position at
   * which `lit` starts, for the first currency alternative that lets `lit`
   * follow. The rules' literals begin with a character no alternative can
   * be followed by (`(`, `h`, `t`), so at most one alternative succeeds.
   */
  function CurrencyThen(s: string, p: nat, lit: string): (q: Option<nat>)
    requires p <= |s|
    ensures q.Some? ==> p <= q.value && MatchCI(s, q.value, lit)
  {
    CurrencyFrom(s, SkipSpaces(s, p), lit, 0)
  }

  function CurrencyFrom(s: string, p: nat, lit: string, i: nat): (q: Option<nat>)
    requires p <= |s| && i <= 5
    ensures q.Some? ==> p <= q.value && MatchCI(s, q.value, lit)
    decreases 5 - i
  {
    if i == 5 then None
    else
      var c := Currency(i);
      if MatchCI(s, p, c) && MatchCI(s, SkipSpaces(s, p + |c|), lit) then Some(SkipSpaces(s, p + |c|))
      else CurrencyFrom(s, p, lit, i + 1)
  }

  /** `\s*[:\-]?\s*` from `p`: the optional separator between a label and its amount. */
  function SeparatorEnd(s: string, p: nat): (q: nat)
    requires p <= |s|
    ensures p <= q <= |s|
    ensures q == |s| || !IsSpace(s[q])
  {
    var p1 := SkipSpaces(s, p);
    var p2 := if p1 < |s| && (s[p1] == ':' || s[p1] == '-') then p1 + 1 else p1;
    SkipSpaces(s, p2)
  }

  /** `$`: the end of the string, or just before a final `\n`. */
  predicate AtEnd(s: string, p: nat) {
    p == |s| || (p + 1 == |s| && s[p] == '\n')
  }

  // ------------------------------------------------------------ TTC labels

  /** `\.?` at `p`. */
  function OptDot(s: string, p: nat): (q: nat)
    requires p <= |s|
    ensures p <= q <= |s| && q <= p + 1
  {
    if p < |s| && s[p] == '.' then p + 1 else p
  }

  /**
   * `\.?\b` at `p`: the dot is taken when a word boundary follows it,
   * otherwise the boundary must hold right at `p`.
   */
  function DotBoundary(s: string, p: nat): (q: Option<nat>)
    requires p <= |s|
    ensures q.Some? ==> p <= q.value <= p + 1 && q.value <= |s| && WordBoundary(s, q.value)
  {
    if p < |s| && s[p] == '.' && WordBoundary(s, p + 1) then Some(p + 1)
    else if WordBoundary(s, p) then Some(p)
    else None
  }

  /** `t\.?\s*t\.?\s*c\.?\b` at `p`, case-insensitive: TTC, T.T.C., T T C. */
  function TtcWord(s: string, p: nat): (q: Option<nat>)
    requires p <= |s|
    ensures q.Some? ==> p + 3 <= q.value <= |s| && WordBoundary(s, q.value) && MatchCI(s, p, "t")
  {
    if !MatchCI(s, p, "t") then None
    else
      var p1 := SkipSpaces(s, OptDot(s, p + 1));
      if !MatchCI(s, p1, "t") then None
      else
        var p2 := SkipSpaces(s, OptDot(s, p1 + 1));
        if !MatchCI(s, p2, "c") then None
        else DotBoundary(s, p2 + 1)
  }

  /** The amount captured from a start found by one of the scanners above. */
  function Captured(s: string, k: nat): (t: string)
    requires NumberStart(s, k)
    ensures |t| >= 1 && (IsDigit(t[0]) || t[0] == '-')
  {
    s[k..NumberEnd(s, k)]
  }

  /**
   * `re.search` as the engine runs it: the attempts at `i`, `i + 1`, …, `n`
   * are tried in turn and the first one that matches is the result.
   */
  function FirstMatch<T>(attempt: nat -> Option<T>, i: nat, n: nat): Option<T>
    requires i <= n
    decreases n - i
  {
    match attempt(i)
    case Some(g) => Some(g)
    case None => if i == n then None else FirstMatch(attempt, i + 1, n)
  }

  /** The search finds the attempt at some position from `i` on, and finds nothing exactly when every attempt fails. */
  lemma {:induction false} FirstMatchFound<T>(attempt: nat -> Option<T>, i: nat, n: nat)
    requires i <= n
    ensures FirstMatch(attempt, i, n).Some? ==> exists p :: i <= p <= n && attempt(p) == FirstMatch(attempt, i, n)
    ensures FirstMatch(attempt, i, n).None? <==> forall j :: i <= j <= n ==> attempt(j).None?
    decreases n - i
  {
    if attempt(i).None? && i < n {
      FirstMatchFound(attempt, i + 1, n);
    }
  }

  /** When `p` is the leftmost position from `i` at which the attempt matches, the search returns that attempt. */
  lemma {:induction false} FirstMatchLeftmost<T>(attempt: nat -> Option<T>, i: nat, n: nat, p: nat)
    requires i <= p <= n && attempt(p).Some?
    requires forall j :: i <= j < p ==> attempt(j).None?
    ensures FirstMatch(attempt, i, n) == attempt(p)
    decreases p - i
  {
    if i < p {
      FirstMatchLeftmost(attempt, i + 1, n, p);
    }
  }
}
