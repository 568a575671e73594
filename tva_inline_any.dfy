/**
 * `TvaInlineAnyRule` (`core/parsing/rules/tva_inline_any.py`): on the first
 * line that carries the word TVA and at least two amounts, drop the outliers
 * by a median-absolute-deviation test, choose the (HT, TVA, TTC) triple of
 * lowest score among consecutive windows and pair reconstructions, and
 * either reconcile with a TOTAL line below or report that triple.
 *
 * The rule never raises: every `to_dec` it calls receives a token whose shape
 * `Decimal` accepts (`AmountTokenReads`, `RateTokenReads`), so the model
 * returns an `Option` and no `Result`.
 */
module TvaInlineAny {
  import opened Wrappers
  import opened Chars
  import opened Strings
  import opened BaseRule
  import opened Patterns
  import opened Sorting

  // ------------------------------------------------------------ amounts

  /**
   * `_NUM` tried at `p`: `(?<!\d)(\d{1,9}[.,]\d{2})(?!\d)`, the end of the
   * match. The separator has to follow the digits, so `\d{1,9}` takes the
   * whole digit run starting at `p`, which therefore has 1 to 9 digits.
   */
  function AmountAt(s: string, p: nat): (e: Option<nat>)
    requires p <= |s|
    ensures e.Some? ==>
      && p + 4 <= e.value <= |s| && e.value - 3 - p <= 9
      && AllDigits(s[p..e.value - 3]) && (s[e.value - 3] == '.' || s[e.value - 3] == ',')
      && AllDigits(s[e.value - 2..e.value])
      && (p == 0 || !IsDigit(s[p - 1])) && (e.value == |s| || !IsDigit(s[e.value]))
  {
    if p > 0 && IsDigit(s[p - 1]) then None
    else
      var k := DigitRunEnd(s, p);
      if 1 <= k - p <= 9 && k + 3 <= |s| && (s[k] == '.' || s[k] == ',')
        && IsDigit(s[k + 1]) && IsDigit(s[k + 2]) && (k + 3 == |s| || !IsDigit(s[k + 3]))
      then
        assert AllDigits(s[k + 1..k + 3]) by {
          assert s[k + 1..k + 3][0] == s[k + 1] && s[k + 1..k + 3][1] == s[k + 2];
        }
        Some(k + 3)
      else None
  }

  /** `_NUM.finditer(s)` from `p`: the spans of the successive non-overlapping matches. */
  function Matches(s: string, p: nat): (ms: seq<(nat, nat)>)
    requires p <= |s|
    ensures forall k :: 0 <= k < |ms| ==> p <= ms[k].0 <= |s| && AmountAt(s, ms[k].0) == Some(ms[k].1)
    ensures forall k :: 0 < k < |ms| ==> ms[k - 1].1 <= ms[k].0
    decreases |s| - p
  {
    if p == |s| then []
    else
      match AmountAt(s, p)
      case Some(e) => [(p, e)] + Matches(s, e)
      case None => Matches(s, p + 1)
  }

  /** The amount a `_NUM` token stands for: its whole digits and its two decimals, in cents. */
  function TokenValue(s: string, a: nat, b: nat): Money
    requires a <= |s| && AmountAt(s, a) == Some(b)
  {
    100 * DigitsValue(s[a..b - 3]) + DigitsValue(s[b - 2..b])
  }

  /** `to_dec` reads every `_NUM` token, and reads it as its digits say. */
  lemma AmountTokenReads(s: string, a: nat, b: nat)
    requires a <= |s| && AmountAt(s, a) == Some(b)
    ensures ToDec(s[a..b]) == Success(TokenValue(s, a, b))
  {
    MatchShape(s, a, b);
    var m := CentsOfToken(s[a..b]);
  }

  /** Digits, a point or a comma, and two digits. */
  predicate TokenShape(t: string) {
    |t| >= 4 && AllDigits(t[..|t| - 3]) && (t[|t| - 3] == '.' || t[|t| - 3] == ',') && AllDigits(t[|t| - 2..])
  }

  /** The amount a token of that shape stands for, in cents. */
  function TokenCents(t: string): Money
    requires TokenShape(t)
  {
    100 * DigitsValue(t[..|t| - 3]) + DigitsValue(t[|t| - 2..])
  }

  /** A `_NUM` match has the token shape and stands for its `TokenValue`. */
  lemma MatchShape(s: string, a: nat, b: nat)
    requires a <= |s| && AmountAt(s, a) == Some(b)
    ensures TokenShape(s[a..b]) && TokenCents(s[a..b]) == TokenValue(s, a, b)
  {
    var t := s[a..b];
    assert t[..|t| - 3] == s[a..b - 3] && t[|t| - 2..] == s[b - 2..b] && t[|t| - 3] == s[b - 3];
  }

  /** `to_dec` reads a token of that shape as that many cents. */
  lemma CentsOfToken(t: string) returns (m: Money)
    requires TokenShape(t)
    ensures ToDec(t) == Success(m) && m == TokenCents(t)
  {
    var ip, c, fp := t[..|t| - 3], t[|t| - 3], t[|t| - 2..];
    assert t == ip + [c] + fp;
    DecimalOfDigitsPointDigits(ip, c, fp);
    FixedPointCents(ip, fp);
    FracValueCents(fp);
    m := Q2(FixedPoint(ip, fp));
  }

  /** The values of the given matches. */
  function TokenValues(s: string, ms: seq<(nat, nat)>): (vs: seq<Money>)
    requires forall k :: 0 <= k < |ms| ==> ms[k].0 <= |s| && AmountAt(s, ms[k].0) == Some(ms[k].1)
    ensures |vs| == |ms|
    ensures forall k :: 0 <= k < |ms| ==> vs[k] == TokenValue(s, ms[k].0, ms[k].1)
  {
    seq(|ms|, k requires 0 <= k < |ms| => TokenValue(s, ms[k].0, ms[k].1))
  }

  /** What `_grab_amounts` returns: the value of every `_NUM` match, in order. */
  function Grab(s: string): seq<Money>
  {
    TokenValues(s, Matches(s, 0))
  }

  /** `_grab_amounts` */
  method GrabAmounts(line: string) returns (vals: seq<Money>)
    ensures vals == Grab(line)
  {
    var ms := Matches(line, 0);
    vals := [];
    for k := 0 to |ms|
      invariant |vals| == k
      invariant forall t :: 0 <= t < k ==> vals[t] == TokenValue(line, ms[t].0, ms[t].1)
    {
      var v := ReadToken(line, ms[k].0, ms[k].1);
      SnocKeeps(vals, v);
      vals := vals + [v];
    }
  }

  lemma SnocKeeps(vals: seq<Money>, v: Money)
    ensures forall t :: 0 <= t < |vals| ==> (vals + [v])[t] == vals[t]
  {
  }

  /** `_q2(to_dec(n))` for one match `n`. */
  method ReadToken(line: string, a: nat, b: nat) returns (v: Money)
    requires a <= |line| && AmountAt(line, a) == Some(b)
    ensures v == TokenValue(line, a, b)
  {
    var d := ToDec(line[a..b]);
    AmountTokenReads(line, a, b);
    // `v is not None` always holds: `to_dec` returns a value (it never
    // returns None), and `_q2` leaves a quantised amount unchanged
    Q2OfMoney(d.value);
    v := Q2(Real(d.value));
  }

  /** Every amount grabbed is non-negative: `_NUM` has no sign. */
  lemma GrabNonNegative(s: string)
    ensures forall k :: 0 <= k < |Grab(s)| ==> Grab(s)[k] >= 0
  {
  }

  // -------------------------------------------------------------- rate

  /** `_RATE` tried at `i`: `\b(\d{1,2}(?:[.,]\d{1,2})?)\s*%`, the end of the token and its digits. */
  function RateHit(s: string, i: nat): (r: Option<(nat, Rate)>)
    requires i <= |s|
    ensures r.Some? ==> i < r.value.0 <= |s| && RateParts(s[i..r.value.0]) == Some(r.value.1)
    ensures r.Some? ==> SkipSpaces(s, r.value.0) < |s| && s[SkipSpaces(s, r.value.0)] == '%'
  {
    // what follows the token is a space or `%`, never `[0-9.,]`, so the
    // token is the whole run of `[0-9.,]` starting at `i` (see `RateAt`)
    if !WordBoundary(s, i) then None
    else
      match RateAt(s, i)
      case None => None
      case Some((e, rt)) =>
        var q := SkipSpaces(s, e);
        if q < |s| && s[q] == '%' then Some((e, rt)) else None
  }

  /** `_RATE.search(s)` from `i`: the leftmost hit, as (start, end, digits). */
  function RateSearch(s: string, i: nat): (r: Option<(nat, nat, Rate)>)
    requires i <= |s|
    ensures r.Some? ==> i <= r.value.0 <= |s| && RateHit(s, r.value.0) == Some((r.value.1, r.value.2))
    ensures forall j :: i <= j <= |s| && (r.None? || j < r.value.0) ==> RateHit(s, j).None?
    decreases |s| - i
  {
    var h := RateHit(s, i);
    if h.Some? then Some((i, h.value.0, h.value.1))
    else if i == |s| then None
    else RateSearch(s, i + 1)
  }

  /** `to_dec` reads every `_RATE` token, and reads it exactly. */
  lemma RateTokenReads(t: string, rt: Rate)
    requires RateParts(t) == Some(rt)
    ensures ToDec(t) == Success(Q2(RateValue(rt)))
    ensures Real(Q2(RateValue(rt))) == RateValue(rt)
  {
    FixedPointCents(rt.whole, rt.frac);
    if rt.frac == [] {
      DecimalOfDigits(t);
    } else {
      assert t == rt.whole + [t[|rt.whole|]] + rt.frac;
      DecimalOfDigitsPointDigits(rt.whole, t[|rt.whole|], rt.frac);
    }
  }

  /** `rate = to_dec(m_rate.group(1)) if m_rate else None`: the printed rate, in hundredths of a point. */
  function PrintedRate(s: string): (r: Option<Money>)
    ensures r.None? <==> RateSearch(s, 0).None?
    ensures r.Some? ==> Real(r.value) == RateValue(RateSearch(s, 0).value.2)
  {
    match RateSearch(s, 0)
    case None => None
    case Some((p, e, rt)) =>
      RateTokenReads(s[p..e], rt);
      Some(ToDec(s[p..e]).value)
  }

  // ------------------------------------------------------- MAD filter

  /** The keys of `sorted` on plain values: ascending is descending on the negated value. */
  function Neg(x: real): real { -x }

  function NegMoney(m: Money): real { -(m as real) }

  /** `statistics.median`: the middle value, or the mean of the two middle values. */
  function Median(xs: seq<real>): real
    requires |xs| >= 1
  {
    var s := SortDesc(Neg, xs);
    var n := |s|;
    if n % 2 == 1 then s[n / 2] else (s[n / 2 - 1] + s[n / 2]) / 2.0
  }

  /** The median lies between two of the values it is the median of. */
  lemma MedianBetween(xs: seq<real>)
    requires |xs| >= 1
    ensures exists i :: 0 <= i < |xs| && xs[i] <= Median(xs)
    ensures exists j :: 0 <= j < |xs| && Median(xs) <= xs[j]
  {
    var s := SortDesc(Neg, xs);
    SortDescProperties(Neg, xs);
    var n := |s|;
    var lo := if n % 2 == 1 then n / 2 else n / 2 - 1;
    assert s[lo] <= Median(xs) <= s[n / 2] by {
      assert Neg(s[lo]) >= Neg(s[n / 2]);
    }
    assert s[lo] in multiset(xs) && s[n / 2] in multiset(xs) by {
      assert s[lo] in multiset(s) && s[n / 2] in multiset(s);
    }
    var i :| 0 <= i < |xs| && xs[i] == s[lo];
    var j :| 0 <= j < |xs| && xs[j] == s[n / 2];
  }

  function Reals(values: seq<Money>): (r: seq<real>)
    ensures |r| == |values| && forall k :: 0 <= k < |values| ==> r[k] == Real(values[k])
  {
    seq(|values|, k requires 0 <= k < |values| => Real(values[k]))
  }

  /** `[(v - m).copy_abs() for v in values]` */
  function AbsDev(values: seq<Money>, m: real): (r: seq<real>)
    ensures |r| == |values| && forall k :: 0 <= k < |values| ==> r[k] == Abs(Real(values[k]) - m)
  {
    seq(|values|, k requires 0 <= k < |values| => Abs(Real(values[k]) - m))
  }

  /** The median of a line's amounts. */
  function Center(values: seq<Money>): real
    requires |values| >= 1
  {
    Median(Reals(values))
  }

  /** Their median absolute deviation. */
  function Mad(values: seq<Money>): real
    requires |values| >= 1
  {
    Median(AbsDev(values, Center(values)))
  }

  /** `|v - m| / mad <= 12` */
  predicate Near(v: Money, m: real, mad: real)
    requires mad != 0.0
  {
    Abs(Real(v) - m) / mad <= 12.0
  }

  /** `[v for v in values if ((v - m).copy_abs() / mad) <= k]` */
  function KeepNear(values: seq<Money>, m: real, mad: real): seq<Money>
    requires mad != 0.0
  {
    if values == [] then []
    else (if Near(values[0], m, mad) then [values[0]] else []) + KeepNear(values[1..], m, mad)
  }

  /** `_mad_filter` */
  function MadFilter(values: seq<Money>): seq<Money>
  {
    if |values| < 3 then values
    else
      var m := Center(values);
      var mad := Mad(values);
      if mad == 0.0 then values else KeepNear(values, m, mad)
  }

  /** `r` is `s` with some elements left out, the others in their order. */
  predicate Subsequence(r: seq<Money>, s: seq<Money>)
    decreases |s|
  {
    if r == [] then true
    else if s == [] then false
    else (r[0] == s[0] && Subsequence(r[1..], s[1..])) || Subsequence(r, s[1..])
  }

  /** The comprehension keeps exactly the values near the centre, in their order. */
  lemma {:induction false} KeepNearIsFilter(values: seq<Money>, m: real, mad: real)
    requires mad != 0.0
    ensures Subsequence(KeepNear(values, m, mad), values)
    ensures forall v :: v in KeepNear(values, m, mad) <==> v in values && Near(v, m, mad)
  {
    if values != [] {
      KeepNearIsFilter(values[1..], m, mad);
      var rest := KeepNear(values[1..], m, mad);
      if Near(values[0], m, mad) {
        assert ([values[0]] + rest)[1..] == rest;
      } else {
        assert [] + rest == rest;
      }
      assert values == [values[0]] + values[1..];
    }
  }

  /**
   * `_mad_filter` copies lines of fewer than three amounts, and lines whose
   * MAD is 0; otherwise it keeps, in order, exactly the amounts within twelve
   * MADs of the median, and that is never none of them.
   */
  lemma MadFilterProperties(values: seq<Money>)
    ensures |values| < 3 ==> MadFilter(values) == values
    ensures |values| >= 3 && Mad(values) == 0.0 ==> MadFilter(values) == values
    ensures |values| >= 3 && Mad(values) != 0.0 ==>
      && Subsequence(MadFilter(values), values)
      && forall v :: v in MadFilter(values) <==> v in values && Near(v, Center(values), Mad(values))
    ensures |values| >= 3 ==> MadFilter(values) != []
  {
    if |values| >= 3 && Mad(values) != 0.0 {
      KeepNearIsFilter(values, Center(values), Mad(values));
      MadKeepsOne(values);
    }
  }

  /** With a MAD other than 0, some amount lies within one MAD of the median. */
  lemma MadKeepsOne(values: seq<Money>)
    requires |values| >= 3 && Mad(values) != 0.0
    ensures exists i :: 0 <= i < |values| && Near(values[i], Center(values), Mad(values))
  {
    var m, mad := Center(values), Mad(values);
    var dev := AbsDev(values, m);
    assert mad == Median(dev);
    MedianBetween(dev);
    var i :| 0 <= i < |dev| && dev[i] <= mad;
    assert dev[i] == Abs(Real(values[i]) - m);
    assert mad > 0.0 by {
      assert dev[i] >= 0.0;
    }
    MulDivBound(dev[i], mad);
    assert Near(values[i], m, mad);
  }

  lemma MulDivBound(x: real, d: real)
    requires 0.0 <= x <= d && d > 0.0
    ensures x / d <= 1.0
  {
  }

  // ------------------------------------------------------------ scores

  /** HT, TVA and TTC in cents. */
  datatype Triple = Triple(ht: Money, tva: Money, ttc: Money)

  function Residual(t: Triple): nat {
    AbsInt(t.ht + t.tva - t.ttc)
  }

  /** `tva * 100 / ht`: the rate the amounts imply. */
  function ImpliedRate(ht: Money, tva: Money): real
    requires ht != 0
  {
    Real(tva) * 100.0 / Real(ht)
  }

  /** `_rate_penalty_if_implicit` */
  function RatePenalty(ht: Money, tva: Money): (p: real)
    ensures p >= 0.0
    ensures p == 0.0 <==> ht > 0 && 1.0 <= ImpliedRate(ht, tva) <= 25.0
    ensures p != 0.0 ==> p >= 5.0
  {
    if ht <= 0 then 5.0
    else
      var r := ImpliedRate(ht, tva);
      if r < 1.0 || r > 25.0 then 5.0 + Abs(r - 13.0) / 10.0 else 0.0
  }

  /** The penalty grows with the distance of an implausible implied rate from 13%. */
  lemma PenaltyGrows(ht: Money, tva1: Money, tva2: Money)
    requires ht > 0
    requires ImpliedRate(ht, tva1) > 25.0 && ImpliedRate(ht, tva2) > ImpliedRate(ht, tva1)
    ensures RatePenalty(ht, tva2) > RatePenalty(ht, tva1)
  {
  }

  /** `_q2(ht * rate / HUNDRED)`: the TVA a printed rate predicts. */
  function PredictedTva(ht: Money, rate: Money): Money {
    Q2(Real(ht) * Real(rate) / 100.0)
  }

  /** `_score_triplet` */
  function Score(t: Triple, rate: Option<Money>): (s: real)
    ensures s >= Real(Residual(t))
  {
    var s := Abs(Real(t.ht + t.tva - t.ttc));
    var withRate := if rate.Some? && t.ht > 0 then s + Abs(Real(t.tva) - Real(PredictedTva(t.ht, rate.value))) else s;
    if rate.None? then withRate + RatePenalty(t.ht, t.tva) else withRate
  }

  /**
   * A triple scores 0 exactly when it balances to the cent and its TVA is
   * the one the printed rate predicts, or, with no rate printed, when its HT
   * is positive and its implied rate lies in [1%, 25%].
   */
  lemma ScoreZero(t: Triple, rate: Option<Money>)
    ensures Score(t, rate) == 0.0 <==>
      && t.ht + t.tva == t.ttc
      && (rate.Some? && t.ht > 0 ==> t.tva == PredictedTva(t.ht, rate.value))
      && (rate.None? ==> t.ht > 0 && 1.0 <= ImpliedRate(t.ht, t.tva) <= 25.0)
  {
  }

  // ------------------------------------------------------- candidates

  function WindowCount(values: seq<Money>): nat {
    if |values| >= 3 then |values| - 2 else 0
  }

  /** The first `i` consecutive windows `(values[k], values[k+1], values[k+2])`. */
  function Windows(values: seq<Money>, i: nat): seq<Triple>
    requires i <= WindowCount(values)
  {
    if i == 0 then []
    else Windows(values, i - 1) + [Triple(values[i - 1], values[i], values[i + 1])]
  }

  /**
   * The reconstructions from the ordered pair (a, b), in the order they are
   * tried: TVA from (HT, TTC), HT from (TVA, TTC), TTC from (HT, TVA). The
   * `_q2` around each sum and difference leaves it unchanged (`Q2OfMoney`).
   */
  function PairCandidates(a: Money, b: Money): (cs: seq<Triple>)
    ensures cs != []
  {
    (if b > a then [Triple(a, b - a, b)] else [])
    + (if b > a then [Triple(b - a, a, b)] else [])
    + [Triple(a, b, a + b)]
  }

  /** The candidates of the pairs (i, 0) .. (i, j-1). */
  function PairRow(values: seq<Money>, i: nat, j: nat): (cs: seq<Triple>)
    requires i < |values| && j <= |values|
    ensures (j >= 2 || (j == 1 && i != 0)) ==> cs != []
  {
    if j == 0 then [] else PairRow(values, i, j - 1) + Cell(values, i, j - 1)
  }

  /** The candidates of the pair (i, j): none when `i == j`. */
  function Cell(values: seq<Money>, i: nat, j: nat): seq<Triple>
    requires i < |values| && j < |values|
  {
    if i == j then [] else PairCandidates(values[i], values[j])
  }

  /** The candidates of the pairs of first index below `i`. */
  function PairRows(values: seq<Money>, i: nat): seq<Triple>
    requires i <= |values|
  {
    if i == 0 then [] else PairRows(values, i - 1) + PairRow(values, i - 1, |values|)
  }

  /** Every candidate in the order `_best_triplet` scores them. */
  function Candidates(values: seq<Money>): seq<Triple> {
    Windows(values, WindowCount(values)) + PairRows(values, |values|)
  }

  /** One comparison of the search: the new candidate wins only with a strictly lower score. */
  function Step(best: Option<(Triple, real)>, c: Triple, rate: Option<Money>): Option<(Triple, real)> {
    var score := Score(c, rate);
    if best.None? || score < best.value.1 then Some((c, score)) else best
  }

  /** The `(best, best_score)` pair after scoring `cs` in order, starting from `st`. */
  function Fold(st: Option<(Triple, real)>, cs: seq<Triple>, rate: Option<Money>): Option<(Triple, real)> {
    if cs == [] then st else Step(Fold(st, cs[..|cs| - 1], rate), cs[|cs| - 1], rate)
  }

  /** The `(best, best_score)` pair after scoring `cs` in order. */
  function BestOf(cs: seq<Triple>, rate: Option<Money>): Option<(Triple, real)> {
    Fold(None, cs, rate)
  }

  lemma FoldSnoc(st: Option<(Triple, real)>, cs: seq<Triple>, c: Triple, rate: Option<Money>)
    ensures Fold(st, cs + [c], rate) == Step(Fold(st, cs, rate), c, rate)
  {
    assert (cs + [c])[..|cs|] == cs;
  }

  lemma {:induction false} FoldAppend(st: Option<(Triple, real)>, xs: seq<Triple>, ys: seq<Triple>, rate: Option<Money>)
    ensures Fold(st, xs + ys, rate) == Fold(Fold(st, xs, rate), ys, rate)
    decreases |ys|
  {
    if ys == [] {
      assert xs + ys == xs;
    } else {
      var init := ys[..|ys| - 1];
      assert xs + ys == (xs + init) + [ys[|ys| - 1]];
      FoldSnoc(st, xs + init, ys[|ys| - 1], rate);
      FoldAppend(st, xs, init, rate);
    }
  }

  /** `cs[k]` scores no more than any candidate, and strictly less than every earlier one. */
  predicate FirstMinimumAt(cs: seq<Triple>, rate: Option<Money>, k: nat)
    requires k < |cs|
  {
    && (forall m :: 0 <= m < |cs| ==> Score(cs[k], rate) <= Score(cs[m], rate))
    && (forall m :: 0 <= m < k ==> Score(cs[k], rate) < Score(cs[m], rate))
  }

  /** The search ends on the first candidate of minimum score, with that score. */
  lemma {:induction false} BestOfIsFirstMinimum(cs: seq<Triple>, rate: Option<Money>)
    ensures BestOf(cs, rate).None? <==> cs == []
    ensures cs != [] ==>
      exists k :: (0 <= k < |cs| && FirstMinimumAt(cs, rate, k)
        && BestOf(cs, rate) == Some((cs[k], Score(cs[k], rate))))
  {
    if cs != [] {
      var init, c := cs[..|cs| - 1], cs[|cs| - 1];
      assert forall m :: 0 <= m < |cs| - 1 ==> cs[m] == init[m];
      BestOfIsFirstMinimum(init, rate);
      if init == [] {
        assert FirstMinimumAt(cs, rate, 0);
      } else {
        var k :| 0 <= k < |init| && FirstMinimumAt(init, rate, k)
          && BestOf(init, rate) == Some((init[k], Score(init[k], rate)));
        if Score(c, rate) < Score(init[k], rate) {
          assert FirstMinimumAt(cs, rate, |cs| - 1);
        } else {
          assert FirstMinimumAt(cs, rate, k);
        }
      }
    }
  }

  /** With two amounts or more there is at least one candidate, so the `if not best` exit is never taken. */
  lemma CandidatesNonEmpty(values: seq<Money>)
    requires |values| >= 2
    ensures Candidates(values) != []
  {
    var n := |values|;
    assert |PairRows(values, n)| >= |PairRow(values, n - 1, n)|;
  }

  /** `fix_ttc(ht, tva, ttc)` on a triple. */
  function FixTriple(t: Triple): (r: Triple)
    ensures r.ht == t.ht && r.tva == t.tva && Residual(r) <= 2
    ensures Residual(t) <= 2 ==> r == t
  {
    var f := FixTtc(Amounts(Some(t.ht), Some(t.tva), Some(t.ttc)));
    Triple(f.ht.value, f.tva.value, f.ttc.value)
  }

  /** The end of `_best_triplet` for the chosen candidate: the 1.00 tolerance, then `fix_ttc`. */
  function Accept(t: Triple): Option<Triple> {
    if Residual(t) > 100 then None else Some(FixTriple(t))
  }

  /** What `_best_triplet` returns. */
  function BestTripletOf(values: seq<Money>, rate: Option<Money>): Option<Triple> {
    if |values| < 2 then None
    else
      match BestOf(Candidates(values), rate)
      case None => None
      case Some((t, _)) => Accept(t)
  }

  /** One candidate scored against the best so far: `if best is None or score < best_score`. */
  method Consider(best: Option<(Triple, real)>, t: Triple, rate: Option<Money>) returns (r: Option<(Triple, real)>)
    ensures r == Step(best, t, rate)
  {
    var score := Score(t, rate);
    if best.None? || score < best.value.1 {
      r := Some((t, score));
    } else {
      r := best;
    }
  }

  /** The body of the inner loop of `_best_triplet` for the pair (a, b). */
  method TryPair(a: Money, b: Money, rate: Option<Money>, best: Option<(Triple, real)>)
    returns (r: Option<(Triple, real)>)
    ensures r == Fold(best, PairCandidates(a, b), rate)
  {
    r := best;
    ghost var seen: seq<Triple> := [];
    assert r == Fold(best, seen, rate);
    // (ht, ttc) -> tva
    if b > a {
      var t := Triple(a, b - a, b);
      FoldSnoc(best, seen, t, rate);
      r := Consider(r, t, rate);
      seen := seen + [t];
    }
    // (tva, ttc) -> ht
    if b > a {
      var t := Triple(b - a, a, b);
      FoldSnoc(best, seen, t, rate);
      r := Consider(r, t, rate);
      seen := seen + [t];
    }
    // (ht, tva) -> ttc
    var t := Triple(a, b, a + b);
    FoldSnoc(best, seen, t, rate);
    r := Consider(r, t, rate);
    seen := seen + [t];
    assert seen == PairCandidates(a, b);
  }

  /** The window loop of `_best_triplet`. */
  method ScoreWindows(values: seq<Money>, rate: Option<Money>) returns (best: Option<(Triple, real)>)
    requires |values| >= 3
    ensures best == BestOf(Windows(values, WindowCount(values)), rate)
  {
    best := None;
    for i := 0 to |values| - 2
      invariant best == BestOf(Windows(values, i), rate)
    {
      var t := Triple(values[i], values[i + 1], values[i + 2]);
      FoldSnoc(None, Windows(values, i), t, rate);
      best := Consider(best, t, rate);
    }
  }

  /** The inner pair loop of `_best_triplet` for the first index `i`, continuing from `best0`. */
  method ScoreRow(values: seq<Money>, i: nat, rate: Option<Money>, best0: Option<(Triple, real)>)
    returns (best: Option<(Triple, real)>)
    requires i < |values|
    ensures best == Fold(best0, PairRow(values, i, |values|), rate)
  {
    best := best0;
    for j := 0 to |values|
      invariant best == Fold(best0, PairRow(values, i, j), rate)
    {
      FoldAppend(best0, PairRow(values, i, j), Cell(values, i, j), rate);
      if i == j {
        assert Cell(values, i, j) == [];
        assert PairRow(values, i, j + 1) == PairRow(values, i, j) + [];
        continue;
      }
      best := TryPair(values[i], values[j], rate, best);
    }
  }

  /** The pair loops of `_best_triplet`, continuing from `best0`. */
  method ScorePairs(values: seq<Money>, rate: Option<Money>, best0: Option<(Triple, real)>)
    returns (best: Option<(Triple, real)>)
    ensures best == Fold(best0, PairRows(values, |values|), rate)
  {
    best := best0;
    for i := 0 to |values|
      invariant best == Fold(best0, PairRows(values, i), rate)
    {
      FoldAppend(best0, PairRows(values, i), PairRow(values, i, |values|), rate);
      best := ScoreRow(values, i, rate, best);
    }
  }

  /** `_best_triplet` */
  method BestTriplet(values: seq<Money>, rate: Option<Money>) returns (r: Option<Triple>)
    ensures r == BestTripletOf(values, rate)
  {
    var n := |values|;
    if n < 2 {
      return None;
    }
    // `best` and `best_score`, which are always set together
    var best: Option<(Triple, real)> := None;
    if n >= 3 {
      best := ScoreWindows(values, rate);
    }
    assert best == BestOf(Windows(values, WindowCount(values)), rate);
    best := ScorePairs(values, rate, best);
    FoldAppend(None, Windows(values, WindowCount(values)), PairRows(values, n), rate);
    if best.None? {
      return None;
    }
    var t := best.value.0;
    if Residual(t) > 100 {
      return None;
    }
    return Some(FixTriple(t));
  }

  /**
   * `_best_triplet` returns nothing for fewer than two amounts. Otherwise it
   * takes the first candidate of minimum score, rejects it when its residual
   * exceeds 1.00, and returns it through `fix_ttc`, balanced to 0.02.
   */
  lemma BestTripletProperties(values: seq<Money>, rate: Option<Money>)
    ensures |values| < 2 ==> BestTripletOf(values, rate).None?
    ensures |values| >= 2 ==>
      exists k :: 0 <= k < |Candidates(values)| && FirstMinimumAt(Candidates(values), rate, k)
        && BestTripletOf(values, rate) == Accept(Candidates(values)[k])
    ensures BestTripletOf(values, rate).Some? ==> Residual(BestTripletOf(values, rate).value) <= 2
  {
    if |values| >= 2 {
      CandidatesNonEmpty(values);
      BestOfIsFirstMinimum(Candidates(values), rate);
    }
  }

  // ------------------------------------------------------------ lines

  /** `_HAS_TVA.search(s)`: the word TVA, in any case. */
  predicate HasTva(s: string) {
    FirstCI(s, 0, "tva", true, true).Some?
  }

  /** `\s*t\.?t\.?c\.?` then `\b`, from `p` (the optional TTC after TOTAL). */
  predicate TtcSuffix(s: string, p: nat)
    requires p <= |s|
  {
    var p1 := SkipSpaces(s, p);
    MatchCI(s, p1, "t")
    && var q1 := OptDot(s, p1 + 1);
    MatchCI(s, q1, "t")
    && var q2 := OptDot(s, q1 + 1);
    MatchCI(s, q2, "c") && DotBoundary(s, q2 + 1).Some?
  }

  /** `_IS_TOTAL` matches at `i`: `\b(total(?:\s*t\.?t\.?c\.?)?|cb|montant\s+total)\b`. */
  predicate TotalAt(s: string, i: nat)
    requires i <= |s|
  {
    WordBoundary(s, i)
    && ( (MatchCI(s, i, "total") && (TtcSuffix(s, i + 5) || WordBoundary(s, i + 5)))
      || WordCI(s, i, "cb")
      || (MatchCI(s, i, "montant") && var p := SkipSpaces(s, i + 7); p > i + 7 && WordCI(s, p, "total")))
  }

  /** `_IS_TOTAL.search(s)` */
  predicate IsTotal(s: string) {
    exists i :: 0 <= i <= |s| && TotalAt(s, i)
  }

  /** `r`, or `_q2(tva * 100 / ht)` when no rate is printed and HT is positive. */
  function RowRate(rate: Option<Money>, ht: Money, tva: Money): (r: Option<Money>)
    ensures rate.Some? ==> r == rate
    ensures rate.None? ==> (r.Some? <==> ht > 0)
    ensures rate.None? && ht > 0 ==> Abs(Real(r.value) - ImpliedRate(ht, tva)) <= 0.005
  {
    if rate.None? && ht > 0 then Some(Q2(ImpliedRate(ht, tva))) else rate
  }

  /** `float(r) if r is not None else None` */
  function AsFloat(r: Option<Money>): Option<real> {
    if r.None? then None else Some(Real(r.value))
  }

  /** A result of the rule: one row, equal to the totals. */
  function Report(t: Triple, r: Option<Money>, confidence: real, notes: set<string>): ParseResult {
    ParseResult(Some(t.ht), Some(t.ttc), Some(t.tva),
                [TaxRow(AsFloat(r), Some(t.ht), Some(t.tva), Some(t.ttc))], confidence, notes)
  }

  /** The result reconciled with a TOTAL line whose last amount is `ttc`. */
  function Reconciled(ht: Money, tva: Money, ttc: Money, rate: Option<Money>): ParseResult {
    Report(FixTriple(Triple(ht, tva, ttc)), RowRate(rate, ht, tva), 0.93, {"tva_inline_any", "reconciled_total"})
  }

  /** The last amount of a line. */
  function LastAmount(s: string): Money
    requires Grab(s) != []
  {
    Grab(s)[|Grab(s)| - 1]
  }

  /** What a line offers the reconciliation: its last amount, when it is a TOTAL line with amounts. */
  function TotalOf(line: string): Option<Money> {
    if IsTotal(line) && Grab(line) != [] then Some(LastAmount(line)) else None
  }

  /** What the (at most eight) lines below line `idx` offer, nearest first. */
  function Below(lines: seq<string>, idx: nat): (below: seq<Option<Money>>)
    requires idx < |lines|
    ensures |below| == if |lines| - idx - 1 < 8 then |lines| - idx - 1 else 8
    ensures forall k :: 0 <= k < |below| ==> below[k] == TotalOf(lines[idx + 1 + k])
  {
    var n := if |lines| - idx - 1 < 8 then |lines| - idx - 1 else 8;
    seq(n, k requires 0 <= k < n => TotalOf(lines[idx + 1 + k]))
  }

  /** A total within 1.00 of `ht + tva`. */
  predicate Matching(total: Option<Money>, ht: Money, tva: Money) {
    total.Some? && AbsInt(ht + tva - total.value) <= 100
  }

  /** The search for a matching TOTAL line from the `k`-th line below on. */
  function Reconcile(below: seq<Option<Money>>, k: nat, rate: Option<Money>, ht: Money, tva: Money): Option<ParseResult>
    requires k <= |below|
    decreases |below| - k
  {
    if k == |below| then None
    else if Matching(below[k], ht, tva) then Some(Reconciled(ht, tva, below[k].value, rate))
    else Reconcile(below, k + 1, rate, ht, tva)
  }

  /** The two candidates of the reconciliation: `sorted(values)[:2]`. */
  function Smallest(values: seq<Money>): seq<Money> {
    var s := SortDesc(NegMoney, values);
    if |s| >= 2 then s[..2] else s
  }

  /** The result straight from the best triple. */
  function Direct(t: Triple, rate: Option<Money>): ParseResult {
    Report(t, RowRate(rate, t.ht, t.tva), 0.90, {"tva_inline_any"})
  }

  /**
   * What a line with the word TVA and at least two filtered amounts yields,
   * given its printed rate, those amounts, its best triple and what the
   * lines below it offer.
   */
  function Decide(rate: Option<Money>, values: seq<Money>, triplet: Option<Triple>, below: seq<Option<Money>>): Option<ParseResult>
  {
    var reconciled :=
      if triplet.None? || Residual(triplet.value) > 20 then
        var small := Smallest(values);
        if |small| == 2 && small[1] >= small[0] then Reconcile(below, 0, rate, small[1], small[0])
        else None
      else None;
    if reconciled.Some? then reconciled
    else if triplet.Some? then Some(Direct(triplet.value, rate))
    else None
  }

  /** What line `idx` yields, if anything. */
  function LineResult(lines: seq<string>, idx: nat): Option<ParseResult>
    requires idx < |lines|
  {
    var line := lines[idx];
    if !HasTva(line) then None
    else
      var rate := PrintedRate(line);
      var values := MadFilter(Grab(line));
      if |values| < 2 then None
      else Decide(rate, values, BestTripletOf(values, rate), Below(lines, idx))
  }

  /** What every line yields. */
  function LineResults(lines: seq<string>): (rs: seq<Option<ParseResult>>)
    ensures |rs| == |lines| && forall k :: 0 <= k < |lines| ==> rs[k] == LineResult(lines, k)
  {
    seq(|lines|, k requires 0 <= k < |lines| => LineResult(lines, k))
  }

  /** The first result from `idx` on. */
  function FirstSome(rs: seq<Option<ParseResult>>, idx: nat): (r: Option<ParseResult>)
    requires idx <= |rs|
    decreases |rs| - idx
  {
    if idx == |rs| then None
    else if rs[idx].Some? then rs[idx] else FirstSome(rs, idx + 1)
  }

  /** What `apply` returns: the result of the first line that yields one. */
  function Parsed(text: string): Option<ParseResult> {
    FirstSome(LineResults(StrippedLines(text)), 0)
  }

  // --------------------------------------------------------- methods

  /** `_IS_TOTAL.search(nxt)`, then `tot = _grab_amounts(nxt)` and `tot[-1]` when `tot` is not empty. */
  method OfferedTotal(nxt: string) returns (total: Option<Money>)
    ensures total == TotalOf(nxt)
  {
    if IsTotal(nxt) {
      var tot := GrabAmounts(nxt);
      if tot != [] {
        return Some(tot[|tot| - 1]);
      }
    }
    return None;
  }

  /** The `j`-th line below line `idx` offers what `Below` says. */
  lemma BelowAt(lines: seq<string>, idx: nat, j: nat)
    requires idx < |lines| && 1 <= j && idx + j < |lines| && j - 1 < |Below(lines, idx)|
    ensures Below(lines, idx)[j - 1] == TotalOf(lines[idx + j])
  {
  }

  /** The `for j in range(1, 9)` loop of the reconciliation. */
  method ReconcileBelow(lines: seq<string>, idx: nat, rate: Option<Money>, htCand: Money, tvaCand: Money)
    returns (r: Option<ParseResult>)
    requires idx < |lines|
    ensures r == Reconcile(Below(lines, idx), 0, rate, htCand, tvaCand)
  {
    ghost var below := Below(lines, idx);
    for j := 1 to 9
      invariant j - 1 <= |below|
      invariant Reconcile(below, j - 1, rate, htCand, tvaCand) == Reconcile(below, 0, rate, htCand, tvaCand)
    {
      if idx + j >= |lines| {
        break;
      }
      var nxt := lines[idx + j];
      var total := OfferedTotal(nxt);
      BelowAt(lines, idx, j);
      if total.Some? && AbsInt(htCand + tvaCand - total.value) <= 100 {
        var r := RowRate(rate, htCand, tvaCand);
        var t := FixTriple(Triple(htCand, tvaCand, total.value));
        return Some(Report(t, r, 0.93, {"tva_inline_any", "reconciled_total"}));
      }
    }
    return None;
  }

  /** The body of the loop of `apply` for line `idx`: what that line yields. */
  method ScanLine(lines: seq<string>, idx: nat) returns (r: Option<ParseResult>)
    requires idx < |lines|
    ensures r == LineResult(lines, idx)
  {
    var rawLine := lines[idx];
    if !HasTva(rawLine) {
      return None;
    }
    var rate := PrintedRate(rawLine);
    var grabbed := GrabAmounts(rawLine);
    var values := MadFilter(grabbed);
    if |values| < 2 {
      return None;
    }
    var triplet := BestTriplet(values, rate);
    if triplet.None? || Residual(triplet.value) > 20 {
      var small := Smallest(values);
      if |small| == 2 && small[1] >= small[0] {
        var rec := ReconcileBelow(lines, idx, rate, small[1], small[0]);
        if rec.Some? {
          return rec;
        }
      }
    }
    if triplet.Some? {
      var t := triplet.value;
      var rr := RowRate(rate, t.ht, t.tva);
      return Some(Report(t, rr, 0.90, {"tva_inline_any"}));
    }
    return None;
  }

  /** `TvaInlineAnyRule.apply` */
  method Apply(text: string) returns (r: Option<ParseResult>)
    ensures r == Parsed(text)
  {
    r := ScanLines(StrippedLines(text));
  }

  /** The loop of `apply` over the stripped lines. */
  method ScanLines(lines: seq<string>) returns (r: Option<ParseResult>)
    ensures r == FirstSome(LineResults(lines), 0)
  {
    ghost var rs := LineResults(lines);
    for idx := 0 to |lines|
      invariant FirstSome(rs, idx) == FirstSome(rs, 0)
    {
      // a line that yields nothing is passed over (the `continue`s)
      var here := ScanLine(lines, idx);
      assert here == rs[idx];
      if here.Some? {
        FirstSomeHere(rs, idx);
        return here;
      }
      FirstSomeNext(rs, idx);
    }
    return None;
  }

  lemma FirstSomeHere(rs: seq<Option<ParseResult>>, idx: nat)
    requires idx < |rs| && rs[idx].Some?
    ensures FirstSome(rs, idx) == rs[idx]
  {
  }

  lemma FirstSomeNext(rs: seq<Option<ParseResult>>, idx: nat)
    requires idx < |rs| && rs[idx].None?
    ensures FirstSome(rs, idx + 1) == FirstSome(rs, idx)
  {
  }

  // ---------------------------------------------------------- lemmas

  /** `apply` reports the first line that yields a result, and nothing when none does. */
  lemma {:induction false} FirstSomeIsFirst(rs: seq<Option<ParseResult>>, idx: nat)
    requires idx <= |rs|
    ensures FirstSome(rs, idx).None? <==> forall k :: idx <= k < |rs| ==> rs[k].None?
    ensures FirstSome(rs, idx).Some? ==>
      exists k :: idx <= k < |rs| && FirstSome(rs, idx) == rs[k]
        && forall m :: idx <= m < k ==> rs[m].None?
    decreases |rs| - idx
  {
    if idx < |rs| && rs[idx].None? {
      FirstSomeIsFirst(rs, idx + 1);
    }
  }

  /** Only lines with the word TVA and at least two amounts left by the filter yield a result. */
  lemma LineResultNeedsTva(lines: seq<string>, idx: nat)
    requires idx < |lines| && LineResult(lines, idx).Some?
    ensures HasTva(lines[idx]) && |MadFilter(Grab(lines[idx]))| >= 2
  {
  }

  /**
   * The `> 0.20` residual test never fires, since a triple has been through
   * `fix_ttc`: the reconciliation is tried exactly when there is no triple.
   */
  lemma ReconcileOnlyWithoutTriple(values: seq<Money>, rate: Option<Money>)
    ensures (BestTripletOf(values, rate).None? || Residual(BestTripletOf(values, rate).value) > 20)
      <==> BestTripletOf(values, rate).None?
  {
    BestTripletProperties(values, rate);
  }

  /**
   * The guard on `small` always holds: with two amounts or more, `small`
   * has two elements, the smaller first, and no amount is below either
   * of them but the other.
   */
  lemma SmallestProperties(values: seq<Money>)
    requires |values| >= 2
    ensures |Smallest(values)| == 2 && Smallest(values)[1] >= Smallest(values)[0]
    ensures multiset(Smallest(values)) <= multiset(values)
    ensures forall v :: v in values ==> Smallest(values)[0] <= v
  {
    var s := SortDesc(NegMoney, values);
    SortDescProperties(NegMoney, values);
    assert NegMoney(s[0]) >= NegMoney(s[1]);
    assert s == s[..2] + s[2..];
    assert multiset(s[..2]) <= multiset(s);
    forall v | v in values
      ensures s[0] <= v
    {
      assert v in multiset(s);
      var k :| 0 <= k < |s| && s[k] == v;
      if k > 0 {
        assert NegMoney(s[0]) >= NegMoney(s[k]);
      }
    }
  }

  /**
   * A reconciled result takes its TTC from the last amount of a TOTAL line
   * one to eight lines below, within 1.00 of HT + TVA, and passes it through
   * `fix_ttc`.
   */
  lemma {:induction false} ReconcileFindsTotal(below: seq<Option<Money>>, j: nat, rate: Option<Money>, ht: Money, tva: Money)
    requires j <= |below|
    ensures Reconcile(below, j, rate, ht, tva).Some? ==>
      exists k :: j <= k < |below| && Matching(below[k], ht, tva)
        && Reconcile(below, j, rate, ht, tva) == Some(Reconciled(ht, tva, below[k].value, rate))
        && forall m :: j <= m < k ==> !Matching(below[m], ht, tva)
    ensures Reconcile(below, j, rate, ht, tva).None? <==>
      forall k :: j <= k < |below| ==> !Matching(below[k], ht, tva)
    decreases |below| - j
  {
    if j < |below| && !Matching(below[j], ht, tva) {
      ReconcileFindsTotal(below, j + 1, rate, ht, tva);
    }
  }

  /**
   * Every result has one row equal to its totals, balanced to 0.02. It is
   * either reconciled (confidence 0.93, both notes) or direct (confidence
   * 0.90); a direct result's row rate is the printed rate, or, with none,
   * the rate its amounts imply rounded to 0.01 and not snapped.
   */
  lemma DecideShape(rate: Option<Money>, values: seq<Money>, triplet: Option<Triple>, below: seq<Option<Money>>)
    requires triplet.Some? ==> Residual(triplet.value) <= 2
    requires Decide(rate, values, triplet, below).Some?
    ensures var p := Decide(rate, values, triplet, below).value;
      && p.totalHt.Some? && p.tvaAmount.Some? && p.totalTtc.Some?
      && AbsInt(p.totalHt.value + p.tvaAmount.value - p.totalTtc.value) <= 2
      && |p.tvaDetails| == 1
      && p.tvaDetails == [TaxRow(p.tvaDetails[0].rate, p.totalHt, p.tvaAmount, p.totalTtc)]
      && ((p.confidence == 0.93 && p.notes == {"tva_inline_any", "reconciled_total"})
          || (p.confidence == 0.90 && p.notes == {"tva_inline_any"}
              && p.tvaDetails[0].rate == AsFloat(RowRate(rate, p.totalHt.value, p.tvaAmount.value))))
  {
    if triplet.None? {
      var small := Smallest(values);
      if |small| == 2 && small[1] >= small[0] {
        ReconcileFindsTotal(below, 0, rate, small[1], small[0]);
      }
    }
  }

  /** The same for a whole line. */
  lemma LineResultShape(lines: seq<string>, idx: nat)
    requires idx < |lines| && LineResult(lines, idx).Some?
    ensures var p := LineResult(lines, idx).value;
      && p.totalHt.Some? && p.tvaAmount.Some? && p.totalTtc.Some?
      && AbsInt(p.totalHt.value + p.tvaAmount.value - p.totalTtc.value) <= 2
      && (p.confidence == 0.93 || p.confidence == 0.90)
  {
    var line := lines[idx];
    var rate := PrintedRate(line);
    var values := MadFilter(Grab(line));
    BestTripletProperties(values, rate);
    DecideShape(rate, values, BestTripletOf(values, rate), Below(lines, idx));
  }
}
