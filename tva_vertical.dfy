/**
 * `TvaVerticalRule` (`core/parsing/rules/tva_vertical.py`): amounts printed
 * one per line under or around labels such as "Mt. TVA", "Base HT",
 * "Base TTC". Around every anchor line a sliding window of three amount
 * lines is matched to (HT, TVA, TTC), using the order in which the labels
 * appear when it can and the arithmetic relation between the amounts
 * otherwise.
 */
module TvaVertical {
  import opened Wrappers
  import opened Chars
  import opened Strings
  import opened BaseRule
  import opened Patterns

  // ------------------------------------------------------------- patterns

  /**
   * `_ANCHOR` at `i`: `\b(ht|tva|ttc|base\s*ht|base\s*ttc|mt\.?\s*tva|montant\s*tva)\b`,
   * case-insensitive. Each alternative is deterministic, so the group matches
   * at `i` exactly when one of them does.
   */
  predicate AnchorAt(s: string, i: nat)
    requires i <= |s|
  {
    WordBoundary(s, i) &&
    (|| WordCI(s, i, "ht") || WordCI(s, i, "tva") || WordCI(s, i, "ttc")
     || (MatchCI(s, i, "base") && (WordCI(s, SkipSpaces(s, i + 4), "ht") || WordCI(s, SkipSpaces(s, i + 4), "ttc")))
     || (MatchCI(s, i, "mt") && WordCI(s, SkipSpaces(s, OptDot(s, i + 2)), "tva"))
     || (MatchCI(s, i, "montant") && WordCI(s, SkipSpaces(s, i + 7), "tva")))
  }

  /** `_ANCHOR.search(ln)` */
  predicate IsAnchor(s: string) {
    exists i :: 0 <= i <= |s| && AnchorAt(s, i)
  }

  /** `[^%\n\r]` */
  predicate HintChar(c: char) {
    c != '%' && c != '\n' && c != '\r'
  }

  /**
   * The lazy `[^%\n\r]*?` followed by a digit: the earliest digit at or after
   * `p` reached through characters other than `%` and line breaks.
   */
  function HintDigit(s: string, p: nat): (k: Option<nat>)
    requires p <= |s|
    ensures k.Some? ==> p <= k.value < |s| && IsDigit(s[k.value])
    ensures k.Some? ==> forall j :: p <= j < k.value ==> HintChar(s[j]) && !IsDigit(s[j])
    decreases |s| - p
  {
    if p == |s| then None
    else if IsDigit(s[p]) then Some(p)
    else if !HintChar(s[p]) then None
    else HintDigit(s, p + 1)
  }

  /** `_RATE_HINT` at `i`: `\btva\b`, then the first digit that follows on the line. */
  function RateHintAt(s: string, i: nat): (k: Option<nat>)
    requires i <= |s|
    ensures k.Some? ==> k.value < |s| && IsDigit(s[k.value])
  {
    if WordBoundary(s, i) && WordCI(s, i, "tva") then HintDigit(s, i + 3) else None
  }

  /** The attempt of the rate hint at every position, `None` past the end of the line. */
  function RateHintAttempts(s: string): nat -> Option<nat> {
    (j: nat) => if j <= |s| then RateHintAt(s, j) else None
  }

  /** `_RATE_HINT.search(ln)`: the start of the rate at the leftmost place the pattern matches. */
  function RateHintSearch(s: string, i: nat): (k: Option<nat>)
    requires i <= |s|
    ensures k.Some? ==> k.value < |s| && IsDigit(s[k.value])
  {
    FirstMatchFound(RateHintAttempts(s), i, |s|);
    FirstMatch(RateHintAttempts(s), i, |s|)
  }

  /** What `search` returns is the leftmost match: the match at `p` when nothing matches from `i` up to `p`. */
  lemma RateHintLeftmost(s: string, i: nat, p: nat)
    requires i <= p <= |s| && RateHintAt(s, p).Some?
    requires forall j :: i <= j < p ==> RateHintAt(s, j).None?
    ensures RateHintSearch(s, i) == RateHintAt(s, p)
  {
    FirstMatchLeftmost(RateHintAttempts(s), i, |s|, p);
  }

  /**
   * `float(mr.group(1).replace(",", "."))`: the group `[0-9]{1,2}(?:[.,][0-9]{1,2})?`
   * is followed only by optional parts, so it is as long as it can be; its
   * shape always converts, so the `except` branch is never taken.
   */
  function RateHint(s: string): (r: Option<real>)
    ensures r.Some? ==> 0.0 <= r.value < 100.0
  {
    match RateHintSearch(s, 0)
    case None => None
    case Some(k) => Some(RateValue(GreedyRate(s, k).1))
  }

  /**
   * `_NUM_LINE.match(ln)`: `^\s*([\-]?\d[\d\s.,]*)\s*(?:€|eur|euros?)?\s*$`,
   * case-insensitive. The amount takes the whole run of amount characters
   * (giving characters back cannot help the rest to match), after which only
   * a currency and whitespace may remain.
   */
  function NumLine(s: string): (g: Option<string>)
    ensures g.Some? ==> |g.value| >= 1 && (IsDigit(g.value[0]) || g.value[0] == '-')
  {
    var p := SkipSpaces(s, 0);
    if !NumberStart(s, p) then None
    else
      var e := NumberEnd(s, p);
      if CurrencyTail(s, e, 0) then Some(s[p..e]) else None
  }

  /** `(?:€|eur|euros?)?\s*$` from `p`, trying the alternatives from the `i`-th on. */
  predicate CurrencyTail(s: string, p: nat, i: nat)
    requires p <= |s| && i <= 5
    decreases 5 - i
  {
    i < 5 && ((MatchCI(s, p, Currency(i)) && SkipSpaces(s, p + |Currency(i)|) == |s|) || CurrencyTail(s, p, i + 1))
  }

  // ---------------------------------------------------------- _almost_eq etc.

  /** `_almost_eq`: within 0.02. */
  predicate AlmostEq(a: Money, b: Money) {
    AbsInt(a - b) <= 2
  }

  /** `_ratio_ok`: TVA is between 0.5 % and 30 % of HT. */
  predicate RatioOk(tva: Money, ht: Money) {
    ht != 0 && 0.005 <= tva as real / ht as real <= 0.30
  }

  lemma MulNonNeg(x: real, y: real)
    requires x >= 0.0 && y >= 0.0
    ensures x * y >= 0.0
  {
  }

  /** A ratio between `lo` and `hi` bounds the numerator by multiples of the denominator. */
  lemma RatioBetween(t: real, h: real, lo: real, hi: real)
    requires h != 0.0 && lo <= t / h <= hi
    ensures h > 0.0 ==> lo * h <= t <= hi * h
    ensures h < 0.0 ==> hi * h <= t <= lo * h
  {
    var q := t / h;
    assert t == q * h;
    if h > 0.0 {
      MulNonNeg(hi - q, h);
      MulNonNeg(q - lo, h);
    } else {
      MulNonNeg(hi - q, -h);
      MulNonNeg(q - lo, -h);
    }
  }

  /** A plausible ratio needs TVA and HT of the same sign, TVA non-zero and at most 30 % of HT in size. */
  lemma RatioOkBounds(tva: Money, ht: Money)
    requires RatioOk(tva, ht)
    ensures tva != 0 && (tva > 0 <==> ht > 0)
    ensures 10 * AbsInt(tva) <= 3 * AbsInt(ht)
    ensures 1000 * AbsInt(tva) >= 5 * AbsInt(ht)
  {
    RatioBetween(tva as real, ht as real, 0.005, 0.30);
  }

  /** `_to3`: the three values read as (HT, TVA, TTC). */
  function To3(vals: seq<Money>): (r: Option<(Money, Money, Money)>)
    ensures |vals| != 3 ==> r.None?
    ensures |vals| == 3 ==> (r.Some? <==> AlmostEq(vals[0] + vals[1], vals[2]))
    // TTC is the third value, and HT and TVA are the first two in some order
    ensures r.Some? ==>
      && r.value.2 == vals[2]
      && ((r.value.0 == vals[0] && r.value.1 == vals[1]) || (r.value.0 == vals[1] && r.value.1 == vals[0]))
      && AlmostEq(r.value.0 + r.value.1, r.value.2)
    // the larger of the two is taken for HT when that makes a plausible ratio
    ensures r.Some? && RatioOk(Min(vals[0], vals[1]), Max(vals[0], vals[1])) ==>
      r.value == (Max(vals[0], vals[1]), Min(vals[0], vals[1]), vals[2])
    // then (b, a), then (a, b) as they came
    ensures r.Some? && !RatioOk(Min(vals[0], vals[1]), Max(vals[0], vals[1])) ==>
      r.value == if RatioOk(vals[0], vals[1]) then (vals[1], vals[0], vals[2]) else (vals[0], vals[1], vals[2])
  {
    if |vals| != 3 then None
    else
      var a, b, c := vals[0], vals[1], vals[2];
      if !AlmostEq(a + b, c) then None
      else
        var h1, t1 := if a >= b then a else b, if a >= b then b else a;
        if RatioOk(t1, h1) then Some((h1, t1, c))
        else
          var h2, t2 := b, a;
          if RatioOk(t2, h2) then Some((h2, t2, c))
          else Some((a, b, c))
  }

  function Min(a: int, b: int): int { if a <= b then a else b }

  function Max(a: int, b: int): int { if a >= b then a else b }

  // -------------------------------------------------------- _header_order

  datatype Canon = Ht | Tva | Ttc

  /** The `(label, canon)` pairs `_header_order` looks for, in its order, labels lower-cased. */
  function HeaderLabel(k: nat): (string, Canon)
    requires k < 7
  {
    match k
    case 0 => ("mt. tva", Tva)
    case 1 => ("montant tva", Tva)
    case 2 => ("tva", Tva)
    case 3 => ("base ht", Ht)
    case 4 => ("ht", Ht)
    case 5 => ("base ttc", Ttc)
    case _ => ("ttc", Ttc)
  }

  /** `lines[max(0, i-2):min(len(lines), i+3)]`, joined with spaces. */
  function WindowText(lines: seq<string>, i: nat): string {
    var lo := if i >= 2 then i - 2 else 0;
    var hi := if i + 3 <= |lines| then i + 3 else |lines|;
    if lo <= hi then JoinSpace(lines[lo..hi]) else []
  }

  /** The `order` list after the first `n` labels: where each label found first occurs. */
  function Entries(lt: string, n: nat): (es: seq<(nat, Canon)>)
    requires n <= 7
  {
    if n == 0 then []
    else
      var es := Entries(lt, n - 1);
      match Find(lt, HeaderLabel(n - 1).0)
      case None => es
      case Some(p) => es + [(p, HeaderLabel(n - 1).1)]
  }

  /** An entry is a label's canon with the position at which the label first occurs. */
  lemma {:induction false} EntriesMembers(lt: string, n: nat)
    requires n <= 7
    ensures forall e :: e in Entries(lt, n) <==>
      exists k :: 0 <= k < n && Find(lt, HeaderLabel(k).0) == Some(e.0) && HeaderLabel(k).1 == e.1
  {
    if n > 0 {
      EntriesMembers(lt, n - 1);
    }
  }

  predicate SortedByPos(xs: seq<(nat, Canon)>) {
    forall a, b :: 0 <= a < b < |xs| ==> xs[a].0 <= xs[b].0
  }

  /** Inserts `e` after the entries whose position is not larger, keeping equal positions in order. */
  function InsertByPos(e: (nat, Canon), xs: seq<(nat, Canon)>): (r: seq<(nat, Canon)>)
    ensures multiset(r) == multiset(xs) + multiset{e}
    decreases |xs|
  {
    if xs == [] then [e]
    else if e.0 < xs[0].0 then [e] + xs
    else
      assert xs == [xs[0]] + xs[1..];
      [xs[0]] + InsertByPos(e, xs[1..])
  }

  /** Inserting into entries sorted by position keeps them sorted; nothing lands below both `e` and the head. */
  lemma {:induction false} InsertByPosSorted(e: (nat, Canon), xs: seq<(nat, Canon)>)
    requires SortedByPos(xs)
    ensures SortedByPos(InsertByPos(e, xs))
    ensures forall k :: 0 <= k < |InsertByPos(e, xs)| ==> e.0 <= InsertByPos(e, xs)[k].0 || (xs != [] && xs[0].0 <= InsertByPos(e, xs)[k].0)
    decreases |xs|
  {
    var r := InsertByPos(e, xs);
    if xs == [] {
      assert r == [e];
    } else if e.0 < xs[0].0 {
      assert r == [e] + xs;
      forall a, b | 0 <= a < b < |r|
        ensures r[a].0 <= r[b].0
      {
        assert r[b] == xs[b - 1];
        if a > 0 {
          assert r[a] == xs[a - 1];
        }
      }
    } else {
      var rest := InsertByPos(e, xs[1..]);
      InsertByPosSorted(e, xs[1..]);
      assert r == [xs[0]] + rest;
      forall a, b | 0 <= a < b < |r|
        ensures r[a].0 <= r[b].0
      {
        assert r[b] == rest[b - 1];
        if a > 0 {
          assert r[a] == rest[a - 1];
        } else if e.0 > rest[b - 1].0 {
          assert xs[1..][0] == xs[1];
        }
      }
    }
  }

  /** `order.sort(key=lambda x: x[0])`: a stable sort on the position. */
  function SortByPos(xs: seq<(nat, Canon)>): (r: seq<(nat, Canon)>)
    ensures multiset(r) == multiset(xs)
  {
    if xs == [] then []
    else
      assert xs == xs[..|xs| - 1] + [xs[|xs| - 1]];
      InsertByPos(xs[|xs| - 1], SortByPos(xs[..|xs| - 1]))
  }

  /** The sort leaves the entries in position order. */
  lemma {:induction false} SortByPosSorted(xs: seq<(nat, Canon)>)
    ensures SortedByPos(SortByPos(xs))
  {
    if xs != [] {
      SortByPosSorted(xs[..|xs| - 1]);
      InsertByPosSorted(xs[|xs| - 1], SortByPos(xs[..|xs| - 1]));
    }
  }

  /** The `dedup` list after the entries of `xs`: each canon at its first entry. */
  function Dedup(xs: seq<(nat, Canon)>): (r: seq<Canon>)
  {
    if xs == [] then []
    else
      var d := Dedup(xs[..|xs| - 1]);
      if xs[|xs| - 1].1 in d then d else d + [xs[|xs| - 1].1]
  }

  predicate Distinct<T(==)>(xs: seq<T>) {
    forall a, b :: 0 <= a < b < |xs| ==> xs[a] != xs[b]
  }

  /** Every entry of `xs` labelled `d` has an entry labelled `c` at or before its position. */
  predicate PosBefore(xs: seq<(nat, Canon)>, c: Canon, d: Canon) {
    forall e :: e in xs && e.1 == d ==> exists e' :: e' in xs && e'.1 == c && e'.0 <= e.0
  }

  predicate HasCanon(xs: seq<(nat, Canon)>, c: Canon) {
    exists e :: e in xs && e.1 == c
  }

  /** The index of the first entry labelled `c`. */
  function FirstIndex(xs: seq<(nat, Canon)>, c: Canon): (k: nat)
    requires HasCanon(xs, c)
    ensures k < |xs| && xs[k].1 == c && forall j :: 0 <= j < k ==> xs[j].1 != c
  {
    if xs[0].1 == c then 0
    else
      assert xs == [xs[0]] + xs[1..];
      var e :| e in xs && e.1 == c;
      assert e in xs[1..];
      1 + FirstIndex(xs[1..], c)
  }

  lemma FirstIndexAppend(init: seq<(nat, Canon)>, x: (nat, Canon), c: Canon)
    requires HasCanon(init, c)
    ensures HasCanon(init + [x], c) && FirstIndex(init + [x], c) == FirstIndex(init, c)
  {
    var e :| e in init && e.1 == c;
    assert e in init + [x];
    var k0, k1 := FirstIndex(init, c), FirstIndex(init + [x], c);
    forall j | 0 <= j <= k0
      ensures (init + [x])[j] == init[j]
    {
    }
    FirstIndexUnique(init + [x], c, k0);
  }

  /** The first index is the only index that carries `c` with no `c` before it. */
  lemma FirstIndexUnique(xs: seq<(nat, Canon)>, c: Canon, k: nat)
    requires k < |xs| && xs[k].1 == c && forall j :: 0 <= j < k ==> xs[j].1 != c
    ensures HasCanon(xs, c) && FirstIndex(xs, c) == k
  {
    assert xs[k] in xs;
  }

  lemma FirstIndexNew(init: seq<(nat, Canon)>, x: (nat, Canon))
    requires !HasCanon(init, x.1)
    ensures HasCanon(init + [x], x.1) && FirstIndex(init + [x], x.1) == |init|
  {
    assert (init + [x])[|init|] == x;
  }

  /** `Dedup` lists the canons in the order of their first entries. */
  lemma {:induction false} DedupFirstIndex(xs: seq<(nat, Canon)>)
    ensures forall c :: c in Dedup(xs) ==> HasCanon(xs, c)
    ensures forall a, b :: 0 <= a < b < |Dedup(xs)| ==> FirstIndex(xs, Dedup(xs)[a]) < FirstIndex(xs, Dedup(xs)[b])
  {
    DedupMembers(xs);
    if xs != [] {
      var init, x := xs[..|xs| - 1], xs[|xs| - 1];
      assert xs == init + [x];
      DedupFirstIndex(init);
      DedupMembers(init);
      var d := Dedup(init);
      forall c | c in d
        ensures HasCanon(xs, c) && FirstIndex(xs, c) == FirstIndex(init, c) && FirstIndex(init, c) < |init|
      {
        FirstIndexAppend(init, x, c);
      }
      var r := Dedup(xs);
      if x.1 !in d {
        FirstIndexNew(init, x);
        assert r == d + [x.1];
        forall a, b | 0 <= a < b < |r|
          ensures FirstIndex(xs, r[a]) < FirstIndex(xs, r[b])
        {
          assert r[a] == d[a] && r[a] in d;
          if b < |d| {
            assert r[b] == d[b] && r[b] in d;
          }
        }
      } else {
        assert r == d;
        forall a, b | 0 <= a < b < |r|
          ensures FirstIndex(xs, r[a]) < FirstIndex(xs, r[b])
        {
          assert r[a] in d && r[b] in d;
        }
      }
    }
  }

  /** `Dedup` lists each canon of `xs` once. */
  lemma {:induction false} DedupMembers(xs: seq<(nat, Canon)>)
    ensures Distinct(Dedup(xs))
    ensures forall c :: c in Dedup(xs) <==> HasCanon(xs, c)
  {
    if xs != [] {
      var init := xs[..|xs| - 1];
      DedupMembers(init);
      assert xs == init + [xs[|xs| - 1]];
    }
  }

  /** On entries sorted by position, `Dedup` lists the canons in the order of their first position. */
  lemma DedupOrdered(xs: seq<(nat, Canon)>)
    requires SortedByPos(xs)
    ensures forall a, b :: 0 <= a < b < |Dedup(xs)| ==> PosBefore(xs, Dedup(xs)[a], Dedup(xs)[b])
  {
    var r := Dedup(xs);
    DedupFirstIndex(xs);
    forall a, b | 0 <= a < b < |r|
      ensures PosBefore(xs, r[a], r[b])
    {
      assert r[a] in r && r[b] in r;
      var ka, kb := FirstIndex(xs, r[a]), FirstIndex(xs, r[b]);
      forall e | e in xs && e.1 == r[b]
        ensures exists e' :: e' in xs && e'.1 == r[a] && e'.0 <= e.0
      {
        var k :| 0 <= k < |xs| && xs[k] == e;
        assert kb <= k;
        assert xs[ka] in xs && xs[ka].0 <= e.0;
      }
    }
  }

  lemma PosBeforePermutation(xs: seq<(nat, Canon)>, ys: seq<(nat, Canon)>, c: Canon, d: Canon)
    requires multiset(xs) == multiset(ys)
    ensures PosBefore(xs, c, d) == PosBefore(ys, c, d)
  {
    assert forall e :: e in xs <==> e in ys by {
      forall e ensures e in xs <==> e in ys {
        assert e in xs <==> e in multiset(xs);
        assert e in ys <==> e in multiset(ys);
      }
    }
  }

  /** What `_header_order` returns for a window whose lower-cased text is `lt`. */
  function OrderOf(lt: string): seq<Canon>
  {
    Dedup(SortByPos(Entries(lt, 7)))
  }

  /** What `_header_order(lines, i)` returns. */
  function HeaderOrderOf(lines: seq<string>, i: nat): seq<Canon>
  {
    OrderOf(LowerStr(WindowText(lines, i)))
  }

  lemma SortedSameEntries(xs: seq<(nat, Canon)>)
    ensures forall e :: e in SortByPos(xs) <==> e in xs
  {
    var sorted := SortByPos(xs);
    forall e ensures e in sorted <==> e in xs {
      assert e in sorted <==> e in multiset(sorted);
      assert e in xs <==> e in multiset(xs);
    }
  }

  /** The labels `_header_order` returns are distinct, so there are at most three. */
  lemma OrderDistinct(lt: string)
    ensures Distinct(OrderOf(lt)) && |OrderOf(lt)| <= 3
  {
    DedupMembers(SortByPos(Entries(lt, 7)));
    DistinctCanonsAtMostThree(OrderOf(lt));
  }

  /** A canon is returned exactly when one of its labels occurs in the window. */
  lemma OrderMembers(lt: string)
    ensures forall c :: c in OrderOf(lt) <==>
      exists k :: 0 <= k < 7 && HeaderLabel(k).1 == c && Find(lt, HeaderLabel(k).0).Some?
  {
    var es := Entries(lt, 7);
    EntriesMembers(lt, 7);
    SortedSameEntries(es);
    DedupMembers(SortByPos(es));
    forall c ensures c in OrderOf(lt) <==>
      exists k :: 0 <= k < 7 && HeaderLabel(k).1 == c && Find(lt, HeaderLabel(k).0).Some?
    {
      if c in OrderOf(lt) {
        var e :| e in SortByPos(es) && e.1 == c;
        assert e in es;
      }
      if exists k :: 0 <= k < 7 && HeaderLabel(k).1 == c && Find(lt, HeaderLabel(k).0).Some? {
        var k :| 0 <= k < 7 && HeaderLabel(k).1 == c && Find(lt, HeaderLabel(k).0).Some?;
        var e := (Find(lt, HeaderLabel(k).0).value, c);
        assert e in es;
        assert e in SortByPos(es);
      }
    }
  }

  /** The canons come in the order of the first occurrence of their labels. */
  lemma OrderByPosition(lt: string)
    ensures forall a, b :: 0 <= a < b < |OrderOf(lt)| ==> PosBefore(Entries(lt, 7), OrderOf(lt)[a], OrderOf(lt)[b])
  {
    var es := Entries(lt, 7);
    var sorted := SortByPos(es);
    var r := Dedup(sorted);
    SortByPosSorted(es);
    DedupOrdered(sorted);
    forall a, b | 0 <= a < b < |r|
      ensures PosBefore(es, r[a], r[b])
    {
      PosBeforePermutation(sorted, es, r[a], r[b]);
    }
  }

  /** Among four canons two are equal. */
  lemma FourCanonsRepeat(r: seq<Canon>)
    requires |r| >= 4
    ensures exists a, b :: 0 <= a < b < 4 && r[a] == r[b]
  {
    if r[0] == r[1] {
      assert r[0] == r[1];
    } else if r[0] == r[2] {
      assert r[0] == r[2];
    } else if r[0] == r[3] {
      assert r[0] == r[3];
    } else if r[1] == r[2] {
      assert r[1] == r[2];
    } else if r[1] == r[3] {
      assert r[1] == r[3];
    } else {
      // r[2] and r[3] both differ from r[0] and r[1], which differ from each other
      assert r[2] == r[3];
    }
  }

  lemma DistinctCanonsAtMostThree(r: seq<Canon>)
    requires Distinct(r)
    ensures |r| <= 3
  {
    if |r| > 3 {
      FourCanonsRepeat(r);
      assert false;
    }
  }

  /** `_header_order`: the labels found, sorted by position and de-duplicated. */
  method HeaderOrder(lines: seq<string>, i: nat) returns (dedup: seq<Canon>)
    ensures dedup == HeaderOrderOf(lines, i)
  {
    var lt := LowerStr(WindowText(lines, i));
    var order := FindLabels(lt);
    order := SortByPos(order);
    dedup := DedupCanons(order);
  }

  /** The first loop of `_header_order`: each label found in `lt`, with its position, in the order of the labels. */
  method FindLabels(lt: string) returns (order: seq<(nat, Canon)>)
    ensures order == Entries(lt, 7)
  {
    order := [];
    var k := 0;
    while k < 7
      invariant 0 <= k <= 7
      invariant order == Entries(lt, k)
    {
      var entry := HeaderLabel(k);
      var pos := Find(lt, entry.0);
      if pos.Some? {
        order := order + [(pos.value, entry.1)];
      }
      k := k + 1;
    }
  }

  /** The second loop of `_header_order`: each canon the first time it occurs. */
  method DedupCanons(order: seq<(nat, Canon)>) returns (dedup: seq<Canon>)
    ensures dedup == Dedup(order)
  {
    dedup := [];
    var n := 0;
    while n < |order|
      invariant 0 <= n <= |order|
      invariant dedup == Dedup(order[..n])
    {
      assert order[..n + 1][..n] == order[..n];
      if order[n].1 !in dedup {
        dedup := dedup + [order[n].1];
      }
      n := n + 1;
    }
    assert order[..|order|] == order;
  }

  // ------------------------------------------------- documented example

  /** The window text of the example in the docstring, lower-cased, character by character. */
  predicate IsOrderWindow(lt: string) {
    |lt| == 24
    && lt[0] == 'm' && lt[1] == 't' && lt[2] == '.' && lt[3] == ' ' && lt[4] == 't' && lt[5] == 'v'
    && lt[6] == 'a' && lt[7] == ' ' && lt[8] == 'b' && lt[9] == 'a' && lt[10] == 's' && lt[11] == 'e'
    && lt[12] == ' ' && lt[13] == 'h' && lt[14] == 't' && lt[15] == ' ' && lt[16] == 'b' && lt[17] == 'a'
    && lt[18] == 's' && lt[19] == 'e' && lt[20] == ' ' && lt[21] == 't' && lt[22] == 't' && lt[23] == 'c'
  }

  /** `find` returns `q` when the pattern occurs there and nowhere before. */
  lemma FindAt(txt: string, pat: string, q: nat)
    requires OccursAt(txt, pat, q) && forall j: nat :: j < q ==> !OccursAt(txt, pat, j)
    ensures Find(txt, pat) == Some(q)
  {
  }

  /** A pattern with a mismatched character at `k` does not occur at `j`. */
  lemma NotAt(txt: string, pat: string, j: nat, k: nat)
    requires k < |pat| && j + k < |txt| && txt[j + k] != pat[k]
    ensures !OccursAt(txt, pat, j)
  {
  }

  lemma {:induction false} WindowMontant(lt: string)
    requires IsOrderWindow(lt)
    ensures Find(lt, "montant tva") == None
  {
    var pat := "montant tva";
    forall j: nat
      ensures !OccursAt(lt, pat, j)
    {
      if j == 0 {
        NotAt(lt, pat, 0, 1);
      } else if j + |pat| <= |lt| {
        assert lt[j] != 'm';
        NotAt(lt, pat, j, 0);
      }
    }
  }

  lemma WindowTva(lt: string)
    requires IsOrderWindow(lt)
    ensures Find(lt, "mt. tva") == Some(0) && Find(lt, "tva") == Some(4)
  {
    assert lt[0..7] == "mt. tva";
    FindAt(lt, "mt. tva", 0);
    assert lt[4..7] == "tva";
    forall j: nat | j < 4
      ensures !OccursAt(lt, "tva", j)
    {
      if j == 1 {
        NotAt(lt, "tva", 1, 1);
      } else {
        NotAt(lt, "tva", j, 0);
      }
    }
    FindAt(lt, "tva", 4);
  }

  lemma WindowHt(lt: string)
    requires IsOrderWindow(lt)
    ensures Find(lt, "base ht") == Some(8) && Find(lt, "ht") == Some(13)
  {
    assert lt[8..15] == "base ht";
    forall j: nat | j < 8
      ensures !OccursAt(lt, "base ht", j)
    {
      NotAt(lt, "base ht", j, 0);
    }
    FindAt(lt, "base ht", 8);
    assert lt[13..15] == "ht";
    forall j: nat | j < 13
      ensures !OccursAt(lt, "ht", j)
    {
      NotAt(lt, "ht", j, 0);
    }
    FindAt(lt, "ht", 13);
  }

  lemma WindowTtc(lt: string)
    requires IsOrderWindow(lt)
    ensures Find(lt, "base ttc") == Some(16) && Find(lt, "ttc") == Some(21)
  {
    assert lt[16..24] == "base ttc";
    forall j: nat | j < 16
      ensures !OccursAt(lt, "base ttc", j)
    {
      if j == 8 {
        NotAt(lt, "base ttc", 8, 5);
      } else {
        NotAt(lt, "base ttc", j, 0);
      }
    }
    FindAt(lt, "base ttc", 16);
    assert lt[21..24] == "ttc";
    forall j: nat | j < 21
      ensures !OccursAt(lt, "ttc", j)
    {
      if j == 1 || j == 4 || j == 14 {
        NotAt(lt, "ttc", j, 1);
      } else {
        NotAt(lt, "ttc", j, 0);
      }
    }
    FindAt(lt, "ttc", 21);
  }

  /** The labels found in the example window, where each first occurs. */
  lemma WindowEntries(lt: string)
    requires IsOrderWindow(lt)
    ensures Entries(lt, 7) == [(0, Tva), (4, Tva), (8, Ht), (13, Ht), (16, Ttc), (21, Ttc)]
  {
    WindowTva(lt);
    WindowMontant(lt);
    WindowHt(lt);
    WindowTtc(lt);
    assert Entries(lt, 1) == [(0, Tva)];
    assert Entries(lt, 2) == [(0, Tva)];
    assert Entries(lt, 3) == [(0, Tva), (4, Tva)];
    assert Entries(lt, 4) == [(0, Tva), (4, Tva), (8, Ht)];
    assert Entries(lt, 5) == [(0, Tva), (4, Tva), (8, Ht), (13, Ht)];
    assert Entries(lt, 6) == [(0, Tva), (4, Tva), (8, Ht), (13, Ht), (16, Ttc)];
  }

  /** An entry at a position no smaller than all the others goes last. */
  lemma {:induction false} InsertAtEnd(e: (nat, Canon), xs: seq<(nat, Canon)>)
    requires forall k :: 0 <= k < |xs| ==> xs[k].0 <= e.0
    ensures InsertByPos(e, xs) == xs + [e]
    decreases |xs|
  {
    if xs != [] {
      InsertAtEnd(e, xs[1..]);
      assert [xs[0]] + (xs[1..] + [e]) == xs + [e];
    }
  }

  /** Entries already in position order are left as they are by the sort. */
  lemma {:induction false} SortSorted(xs: seq<(nat, Canon)>)
    requires SortedByPos(xs)
    ensures SortByPos(xs) == xs
    decreases |xs|
  {
    if xs != [] {
      var init := xs[..|xs| - 1];
      assert SortedByPos(init);
      SortSorted(init);
      InsertAtEnd(xs[|xs| - 1], init);
      assert init + [xs[|xs| - 1]] == xs;
    }
  }

  /** Two entries for each canon, TVA first, then HT, then TTC, leave one of each. */
  lemma DedupPairs(xs: seq<(nat, Canon)>)
    requires |xs| == 6 && xs[0].1 == Tva && xs[1].1 == Tva && xs[2].1 == Ht
    requires xs[3].1 == Ht && xs[4].1 == Ttc && xs[5].1 == Ttc
    ensures Dedup(xs) == [Tva, Ht, Ttc]
  {
    assert xs[..1][..0] == [];
    assert xs[..2][..1] == xs[..1];
    assert xs[..3][..2] == xs[..2];
    assert xs[..4][..3] == xs[..3];
    assert xs[..5][..4] == xs[..4];
    assert xs[..6][..5] == xs[..5] && xs[..6] == xs;
    assert Dedup(xs[..1]) == [Tva];
    assert Dedup(xs[..2]) == [Tva];
    assert Dedup(xs[..3]) == [Tva, Ht];
    assert Dedup(xs[..4]) == [Tva, Ht];
    assert Dedup(xs[..5]) == [Tva, Ht, Ttc];
  }

  /** The docstring's window gives TVA, then HT, then TTC. */
  lemma WindowOrder(lt: string)
    requires IsOrderWindow(lt)
    ensures OrderOf(lt) == [Tva, Ht, Ttc]
  {
    WindowEntries(lt);
    WindowEntriesOrder(Entries(lt, 7));
  }

  /** The six entries of the window are already in position order; without repeats they give TVA, HT, TTC. */
  lemma WindowEntriesOrder(es: seq<(nat, Canon)>)
    requires |es| == 6 && es[0] == (0, Tva) && es[1] == (4, Tva) && es[2] == (8, Ht)
    requires es[3] == (13, Ht) && es[4] == (16, Ttc) && es[5] == (21, Ttc)
    ensures Dedup(SortByPos(es)) == [Tva, Ht, Ttc]
  {
    assert SortedByPos(es);
    SortSorted(es);
    DedupPairs(es);
  }

  /** The window around line 0 of `["Mt. TVA", "Base HT Base TTC"]` is both lines. */
  lemma ExampleWindowText()
    ensures WindowText(["Mt. TVA", "Base HT Base TTC"], 0) == "Mt. TVA" + " " + "Base HT Base TTC"
  {
    var lines := ["Mt. TVA", "Base HT Base TTC"];
    assert lines[0..2] == lines && lines[1..] == ["Base HT Base TTC"];
  }

  /** The characters of `Mt. TVA Base HT Base TTC`, lower-cased, are those of the window. */
  lemma LowerWindow(w: string)
    requires |w| == 24
    requires w[0] == 'M' && w[1] == 't' && w[2] == '.' && w[3] == ' ' && w[4] == 'T' && w[5] == 'V'
    requires w[6] == 'A' && w[7] == ' ' && w[8] == 'B' && w[9] == 'a' && w[10] == 's' && w[11] == 'e'
    requires w[12] == ' ' && w[13] == 'H' && w[14] == 'T' && w[15] == ' ' && w[16] == 'B' && w[17] == 'a'
    requires w[18] == 's' && w[19] == 'e' && w[20] == ' ' && w[21] == 'T' && w[22] == 'T' && w[23] == 'C'
    ensures IsOrderWindow(LowerStr(w))
  {
    assert Lower('M') == 'm' && Lower('T') == 't' && Lower('V') == 'v' && Lower('A') == 'a';
    assert Lower('B') == 'b' && Lower('H') == 'h' && Lower('C') == 'c';
  }

  lemma ExampleWindowChars()
    ensures var w := "Mt. TVA" + " " + "Base HT Base TTC";
      |w| == 24
      && w[0] == 'M' && w[1] == 't' && w[2] == '.' && w[3] == ' ' && w[4] == 'T' && w[5] == 'V' && w[6] == 'A' && w[7] == ' ' && w[8] == 'B' && w[9] == 'a' && w[10] == 's' && w[11] == 'e'
      && w[12] == ' ' && w[13] == 'H' && w[14] == 'T' && w[15] == ' ' && w[16] == 'B' && w[17] == 'a' && w[18] == 's' && w[19] == 'e' && w[20] == ' ' && w[21] == 'T' && w[22] == 'T' && w[23] == 'C'
  {
  }

  /** `["Mt. TVA", "Base HT Base TTC"]` joined and lower-cased. */
  lemma ExampleWindow()
    ensures IsOrderWindow(LowerStr(WindowText(["Mt. TVA", "Base HT Base TTC"], 0)))
  {
    ExampleWindowText();
    ExampleWindowChars();
    LowerWindow("Mt. TVA" + " " + "Base HT Base TTC");
  }

  /** The docstring of `_header_order`: `["Mt. TVA", "Base HT Base TTC"] -> ["TVA", "HT", "TTC"]`. */
  lemma DocumentedHeaderOrder()
    ensures HeaderOrderOf(["Mt. TVA", "Base HT Base TTC"], 0) == [Tva, Ht, Ttc]
  {
    ExampleWindow();
    WindowOrder(LowerStr(WindowText(["Mt. TVA", "Base HT Base TTC"], 0)));
  }

  // ------------------------------------------------------------ the scan

  /** The anchor lines, in order: `[i for i, ln in enumerate(lines) if _ANCHOR.search(ln)]`. */
  function AnchorsFrom(lines: seq<string>, i: nat): (r: seq<nat>)
    requires i <= |lines|
    ensures forall k :: 0 <= k < |r| ==> i <= r[k] < |lines|
    ensures forall k :: i <= k < |lines| ==> (k in r <==> IsAnchor(lines[k]))
    decreases |lines| - i
  {
    if i == |lines| then []
    else (if IsAnchor(lines[i]) then [i] else []) + AnchorsFrom(lines, i + 1)
  }

  /** A triple found: the last rate hint seen, HT, TVA and TTC. */
  datatype Triple = Triple(rate: Option<real>, ht: Money, tva: Money, ttc: Money)

  /** `seen_idx`, `seen_vals` and `triples`, shared by the scans of all anchors. */
  datatype Scan = Scan(seenIdx: set<(nat, nat, nat)>, seenVals: set<(Money, Money, Money)>, triples: seq<Triple>)

  /** `last_rate` and `buf_vals` of the scan around one anchor. */
  datatype Block = Block(lastRate: Option<real>, buf: seq<(nat, Money)>)

  /** `mapping[c]` after `mapping[order[0]] = v1`, `mapping[order[1]] = v2`, `mapping[order[2]] = v3`. */
  function Mapped(order: seq<Canon>, c: Canon, v1: Money, v2: Money, v3: Money): Option<Money>
    requires |order| >= 3
  {
    if order[2] == c then Some(v3) else if order[1] == c then Some(v2) else if order[0] == c then Some(v1) else None
  }

  /**
   * `trip` for the window `v1, v2, v3`: the values placed by the header order
   * when that gives a balanced, plausible triple, otherwise `_to3`.
   */
  function Trip(order: seq<Canon>, v1: Money, v2: Money, v3: Money): (r: Option<(Money, Money, Money)>)
    ensures r.Some? ==> AlmostEq(r.value.0 + r.value.1, r.value.2)
    ensures AlmostEq(v1 + v2, v3) ==> r.Some?
    ensures order == [Tva, Ht, Ttc] && AlmostEq(v2 + v1, v3) && RatioOk(v1, v2) ==> r == Some((v2, v1, v3))
  {
    var mapped :=
      if |order| >= 3 then
        var ht, tva, ttc := Mapped(order, Ht, v1, v2, v3), Mapped(order, Tva, v1, v2, v3), Mapped(order, Ttc, v1, v2, v3);
        if ht.Some? && tva.Some? && ttc.Some? && AlmostEq(ht.value + tva.value, ttc.value) && RatioOk(tva.value, ht.value)
        then Some((ht.value, tva.value, ttc.value))
        else None
      else None;
    if mapped.Some? then mapped else To3([v1, v2, v3])
  }

  /** `t` holds `v1`, `v2`, `v3` in some order. */
  predicate Rearranged(t: (Money, Money, Money), v1: Money, v2: Money, v3: Money) {
    || t == (v1, v2, v3) || t == (v1, v3, v2) || t == (v2, v1, v3)
    || t == (v2, v3, v1) || t == (v3, v1, v2) || t == (v3, v2, v1)
  }

  /** The three canons reached by `order[0..3]` are all there, so the values are only rearranged. */
  lemma MappedPermutation(order: seq<Canon>, v1: Money, v2: Money, v3: Money)
    requires |order| >= 3
    requires Mapped(order, Ht, v1, v2, v3).Some? && Mapped(order, Tva, v1, v2, v3).Some? && Mapped(order, Ttc, v1, v2, v3).Some?
    ensures Rearranged((Mapped(order, Ht, v1, v2, v3).value, Mapped(order, Tva, v1, v2, v3).value, Mapped(order, Ttc, v1, v2, v3).value), v1, v2, v3)
  {
    // each canon is among the first three labels, so they are a permutation of the canons
    assert Ht in order[..3] && Tva in order[..3] && Ttc in order[..3];
    assert order[0] != order[1] && order[0] != order[2] && order[1] != order[2];
  }

  /** `trip` only rearranges the window: HT, TVA and TTC are its three values in some order. */
  lemma TripPermutation(order: seq<Canon>, v1: Money, v2: Money, v3: Money)
    ensures Trip(order, v1, v2, v3).Some? ==> Rearranged(Trip(order, v1, v2, v3).value, v1, v2, v3)
  {
    if |order| >= 3 && Mapped(order, Ht, v1, v2, v3).Some? && Mapped(order, Tva, v1, v2, v3).Some? && Mapped(order, Ttc, v1, v2, v3).Some? {
      MappedPermutation(order, v1, v2, v3);
    }
  }

  /** The amounts of a triple. `quant2` leaves an amount read by `to_dec` unchanged (`Q2OfMoney`). */
  function Key(t: Triple): (Money, Money, Money) {
    (t.ht, t.tva, t.ttc)
  }

  function KeysOf(ts: seq<Triple>): set<(Money, Money, Money)> {
    if ts == [] then {} else KeysOf(ts[..|ts| - 1]) + {Key(ts[|ts| - 1])}
  }

  lemma {:induction false} KeysOfMembers(ts: seq<Triple>)
    ensures forall v :: v in KeysOf(ts) <==> exists k :: 0 <= k < |ts| && Key(ts[k]) == v
  {
    if ts != [] {
      var init := ts[..|ts| - 1];
      KeysOfMembers(init);
      assert forall k :: 0 <= k < |init| ==> ts[k] == init[k];
    }
  }

  predicate DistinctKeys(ts: seq<Triple>) {
    forall a, b :: 0 <= a < b < |ts| ==> Key(ts[a]) != Key(ts[b])
  }

  /**
   * What holds of the triples at every point of the scan: each is balanced,
   * no two carry the same amounts, and `seen_vals` holds exactly their amounts.
   */
  predicate ScanInv(sc: Scan) {
    && sc.seenVals == KeysOf(sc.triples)
    && DistinctKeys(sc.triples)
    && forall k :: 0 <= k < |sc.triples| ==> AlmostEq(sc.triples[k].ht + sc.triples[k].tva, sc.triples[k].ttc)
  }

  /**
   * The inner `while len(buf_vals) >= 3` loop. Every path through its body
   * ends in `break`, so it looks at the last three values once.
   */
  function Slide(order: seq<Canon>, rate: Option<real>, buf: seq<(nat, Money)>, sc: Scan): (r: Scan)
  {
    if |buf| < 3 then sc
    else
      var w1, w2, w3 := buf[|buf| - 3], buf[|buf| - 2], buf[|buf| - 1];
      if (w1.0, w2.0, w3.0) in sc.seenIdx then sc
      else
        match Trip(order, w1.1, w2.1, w3.1)
        case None => sc
        case Some(key) =>
          if key in sc.seenVals then sc
          else Scan(sc.seenIdx + {(w1.0, w2.0, w3.0)}, sc.seenVals + {key}, sc.triples + [Triple(rate, key.0, key.1, key.2)])
  }

  /** A window adds a triple only when its amounts are balanced and not yet seen. */
  lemma SlideKeepsInv(order: seq<Canon>, rate: Option<real>, buf: seq<(nat, Money)>, sc: Scan)
    requires ScanInv(sc)
    ensures ScanInv(Slide(order, rate, buf, sc))
  {
    var r := Slide(order, rate, buf, sc);
    if r != sc {
      KeysOfMembers(sc.triples);
      var t := r.triples[|r.triples| - 1];
      assert r.triples == sc.triples + [t];
      assert (sc.triples + [t])[..|sc.triples|] == sc.triples;
    }
  }

  /**
   * What one line gives the line loop: the rate hint, the amount of an
   * amount line (or the error `to_dec` raises on it), and whether it is blank.
   */
  datatype Reading = Reading(hint: Option<real>, amount: Option<Result<Money>>, blank: bool)

  function ReadingOf(ln: string): Reading {
    Reading(RateHint(ln), match NumLine(ln) case None => None case Some(g) => Some(ToDec(g)), ln == [])
  }

  function Readings(lines: seq<string>): (rds: seq<Reading>)
    ensures |rds| == |lines|
    decreases |lines|
  {
    if lines == [] then [] else Readings(lines[..|lines| - 1]) + [ReadingOf(lines[|lines| - 1])]
  }

  /** Line `k` reads as `ReadingOf(lines[k])`. */
  lemma {:induction false} ReadingsAt(lines: seq<string>, k: nat)
    requires k < |lines|
    ensures Readings(lines)[k] == ReadingOf(lines[k])
    decreases |lines|
  {
    if k < |lines| - 1 {
      assert lines[..|lines| - 1][k] == lines[k];
      ReadingsAt(lines[..|lines| - 1], k);
    }
  }

  /** One pass of the line loop over line `j`, given what the line reads. */
  function StepLine(rd: Reading, order: seq<Canon>, j: nat, blk: Block, sc: Scan): (r: (Block, Scan))
  {
    var rate := if rd.hint.Some? then rd.hint else blk.lastRate;
    match rd.amount
    case Some(Failure(_)) => (Block(rate, blk.buf), sc)
    case Some(Success(v)) =>
      var buf := blk.buf + [(j, v)];
      (Block(rate, buf), Slide(order, rate, buf, sc))
    case None => (Block(rate, if rd.blank && blk.buf != [] then [] else blk.buf), sc)
  }

  /** The line loop of one anchor from line `j` up to `j1`. */
  function ScanBlock(rds: seq<Reading>, order: seq<Canon>, j: nat, j1: nat, blk: Block, sc: Scan): (r: Scan)
    requires j <= j1 <= |rds|
    decreases j1 - j
  {
    if j == j1 then sc
    else
      var next := StepLine(rds[j], order, j, blk, sc);
      ScanBlock(rds, order, j + 1, j1, next.0, next.1)
  }

  /** `max(0, idx - 2)` */
  function FirstLine(idx: nat): nat {
    if idx >= 2 then idx - 2 else 0
  }

  /** `min(len(lines), idx + 40)` */
  function EndLine(lines: seq<string>, idx: nat): nat {
    if idx + 40 <= |lines| then idx + 40 else |lines|
  }

  /** The scan around anchor `idx`: lines `max(0, idx-2)` up to `idx+39`, with an empty buffer. */
  function ScanAnchor(lines: seq<string>, idx: nat, sc: Scan): (r: Scan)
    requires idx < |lines|
  {
    ScanBlock(Readings(lines), HeaderOrderOf(lines, idx), FirstLine(idx), EndLine(lines, idx), Block(None, []), sc)
  }

  function ScanAnchors(lines: seq<string>, anchors: seq<nat>, sc: Scan): (r: Scan)
    requires forall k :: 0 <= k < |anchors| ==> anchors[k] < |lines|
  {
    if anchors == [] then sc
    else ScanAnchors(lines, anchors[1..], ScanAnchor(lines, anchors[0], sc))
  }

  lemma {:induction false} BlockKeepsInv(rds: seq<Reading>, order: seq<Canon>, j: nat, j1: nat, blk: Block, sc: Scan)
    requires j <= j1 <= |rds| && ScanInv(sc)
    ensures ScanInv(ScanBlock(rds, order, j, j1, blk, sc))
    decreases j1 - j
  {
    if j < j1 {
      var next := StepLine(rds[j], order, j, blk, sc);
      if rds[j].amount.Some? && rds[j].amount.value.Success? {
        SlideKeepsInv(order, next.0.lastRate, next.0.buf, sc);
      }
      BlockKeepsInv(rds, order, j + 1, j1, next.0, next.1);
    }
  }

  /** The scan invariant holds after the scans of all anchors. */
  lemma {:induction false} AnchorsKeepInv(lines: seq<string>, anchors: seq<nat>, sc: Scan)
    requires forall k :: 0 <= k < |anchors| ==> anchors[k] < |lines|
    requires ScanInv(sc)
    ensures ScanInv(ScanAnchors(lines, anchors, sc))
  {
    if anchors != [] {
      var idx := anchors[0];
      BlockKeepsInv(Readings(lines), HeaderOrderOf(lines, idx), FirstLine(idx), EndLine(lines, idx), Block(None, []), sc);
      AnchorsKeepInv(lines, anchors[1..], ScanAnchor(lines, idx, sc));
    }
  }

  /** A line step reads only its own line. */
  lemma {:induction false} BlockReadsWindow(rds: seq<Reading>, rds': seq<Reading>, order: seq<Canon>, j: nat, j1: nat, blk: Block, sc: Scan)
    requires j <= j1 <= |rds| && j1 <= |rds'|
    requires forall k :: j <= k < j1 ==> rds[k] == rds'[k]
    ensures ScanBlock(rds, order, j, j1, blk, sc) == ScanBlock(rds', order, j, j1, blk, sc)
    decreases j1 - j
  {
    if j < j1 {
      var next := StepLine(rds[j], order, j, blk, sc);
      BlockReadsWindow(rds, rds', order, j + 1, j1, next.0, next.1);
    }
  }

  /**
   * The scan around an anchor reads only lines `max(0, idx-2)` up to `idx+39`:
   * changing any other line leaves what it finds unchanged.
   */
  lemma AnchorReadsWindow(lines: seq<string>, lines': seq<string>, idx: nat, sc: Scan)
    requires |lines| == |lines'| && idx < |lines|
    requires forall k :: FirstLine(idx) <= k < EndLine(lines, idx) ==> lines[k] == lines'[k]
    ensures ScanAnchor(lines, idx, sc) == ScanAnchor(lines', idx, sc)
  {
    var lo := FirstLine(idx);
    var hi := if idx + 3 <= |lines| then idx + 3 else |lines|;
    assert lines[lo..hi] == lines'[lo..hi];
    assert WindowText(lines, idx) == WindowText(lines', idx);
    forall k | lo <= k < EndLine(lines, idx)
      ensures Readings(lines)[k] == Readings(lines')[k]
    {
      ReadingsAt(lines, k);
      ReadingsAt(lines', k);
    }
    BlockReadsWindow(Readings(lines), Readings(lines'), HeaderOrderOf(lines, idx), lo, EndLine(lines, idx), Block(None, []), sc);
  }

  // ------------------------------------------------------------ synthesis

  /** `float((tva / ht * 100).quantize(Decimal("0.01")))`, rounding half to even. */
  function DerivedRate(tva: Money, ht: Money): real
    requires ht != 0
  {
    RoundHalfEven(tva as real / ht as real * 100.0 * 100.0) as real / 100.0
  }

  /** `(base_ht, tva, ttc)` of a row. */
  function RowKey(d: TaxRow): (Option<Money>, Option<Money>, Option<Money>) {
    (d.baseHt, d.tva, d.ttc)
  }

  /**
   * The row a triple gives, if it passes the safety bounds. A missing or zero
   * rate is derived from the amounts before `normalize_rate`.
   */
  function RowOf(t: Triple): (r: Option<TaxRow>)
    ensures r.Some? <==> RatioOk(t.tva, t.ht) && AlmostEq(t.ht + t.tva, t.ttc)
    ensures r.Some? ==> RowKey(r.value) == (Some(t.ht), Some(t.tva), Some(t.ttc))
  {
    var rate := if (t.rate.None? || t.rate.value == 0.0) && t.ht != 0 then Some(DerivedRate(t.tva, t.ht)) else t.rate;
    if !RatioOk(t.tva, t.ht) || !AlmostEq(t.ht + t.tva, t.ttc) then None
    else Some(TaxRow(NormalizeRate(rate, Some(t.ht), Some(t.tva)), Some(t.ht), Some(t.tva), Some(t.ttc)))
  }

  /** `details` after the synthesis loop over `ts`. */
  function Synth(ts: seq<Triple>): (ds: seq<TaxRow>)
    ensures |ds| <= |ts|
    ensures forall k :: 0 <= k < |ds| ==> exists m :: 0 <= m < |ts| && RowOf(ts[m]) == Some(ds[k])
  {
    if ts == [] then []
    else
      var init := Synth(ts[..|ts| - 1]);
      var last := ts[|ts| - 1];
      assert forall k :: 0 <= k < |ts| - 1 ==> ts[..|ts| - 1][k] == ts[k];
      match RowOf(last)
      case None => init
      case Some(row) => init + [row]
  }

  /** A row the vertical rule keeps: its amounts add up and the ratio is plausible. */
  predicate SafeRow(d: TaxRow) {
    d.baseHt.Some? && d.tva.Some? && d.ttc.Some?
    && AlmostEq(d.baseHt.value + d.tva.value, d.ttc.value) && RatioOk(d.tva.value, d.baseHt.value)
  }

  predicate DistinctRowKeys(ds: seq<TaxRow>) {
    forall a, b :: 0 <= a < b < |ds| ==> RowKey(ds[a]) != RowKey(ds[b])
  }

  /** A row carries the amounts of its triple and passes the safety bounds. */
  lemma RowOfKey(t: Triple)
    ensures RowOf(t).Some? ==> RowKey(RowOf(t).value) == (Some(t.ht), Some(t.tva), Some(t.ttc)) && SafeRow(RowOf(t).value)
  {
  }

  /** Every row passes the safety bounds. */
  lemma {:induction false} SynthSafe(ts: seq<Triple>)
    ensures forall k :: 0 <= k < |Synth(ts)| ==> SafeRow(Synth(ts)[k])
  {
    var ds := Synth(ts);
    forall k | 0 <= k < |ds|
      ensures SafeRow(ds[k])
    {
      var m :| 0 <= m < |ts| && RowOf(ts[m]) == Some(ds[k]);
      RowOfKey(ts[m]);
    }
  }

  /** Triples with distinct amounts give rows with distinct amounts. */
  lemma {:induction false} SynthDistinct(ts: seq<Triple>)
    requires DistinctKeys(ts)
    ensures DistinctRowKeys(Synth(ts))
  {
    if ts != [] {
      var init, last := ts[..|ts| - 1], ts[|ts| - 1];
      assert DistinctKeys(init) by {
        forall a, b | 0 <= a < b < |init| ensures Key(init[a]) != Key(init[b]) {
          assert init[a] == ts[a] && init[b] == ts[b];
        }
      }
      SynthDistinct(init);
      var di := Synth(init);
      RowOfKey(last);
      if RowOf(last).Some? {
        var row := RowOf(last).value;
        assert Synth(ts) == di + [row];
        forall k | 0 <= k < |di|
          ensures RowKey(di[k]) != RowKey(row)
        {
          var m :| 0 <= m < |init| && RowOf(init[m]) == Some(di[k]);
          RowOfKey(init[m]);
          assert init[m] == ts[m] && Key(ts[m]) != Key(last);
        }
        forall a, b | 0 <= a < b < |di| + 1
          ensures RowKey((di + [row])[a]) != RowKey((di + [row])[b])
        {
          assert (di + [row])[a] == di[a];
        }
      } else {
        assert Synth(ts) == di;
      }
    }
  }

  function RowKeys(ds: seq<TaxRow>): set<(Option<Money>, Option<Money>, Option<Money>)> {
    if ds == [] then {} else RowKeys(ds[..|ds| - 1]) + {RowKey(ds[|ds| - 1])}
  }

  lemma {:induction false} RowKeysMembers(ds: seq<TaxRow>)
    ensures forall v :: v in RowKeys(ds) <==> exists k :: 0 <= k < |ds| && RowKey(ds[k]) == v
  {
    if ds != [] {
      var init := ds[..|ds| - 1];
      RowKeysMembers(init);
      assert forall k :: 0 <= k < |init| ==> ds[k] == init[k];
    }
  }

  /** `uniq` after the final loop over `ds`: the first row for each `(base_ht, tva, ttc)`. */
  function Uniq(ds: seq<TaxRow>): (u: seq<TaxRow>)
    ensures ds != [] ==> u != []
    ensures |u| <= |ds|
  {
    if ds == [] then []
    else
      var u := Uniq(ds[..|ds| - 1]);
      if RowKey(ds[|ds| - 1]) in RowKeys(u) then u else u + [ds[|ds| - 1]]
  }

  /**
   * The final de-duplication never removes anything: the scan has already
   * refused a triple whose amounts were seen.
   */
  lemma {:induction false} UniqIdentity(ds: seq<TaxRow>)
    requires DistinctRowKeys(ds)
    ensures Uniq(ds) == ds
  {
    if ds != [] {
      var init := ds[..|ds| - 1];
      assert DistinctRowKeys(init) by {
        forall a, b | 0 <= a < b < |init| ensures RowKey(init[a]) != RowKey(init[b]) {
          assert init[a] == ds[a] && init[b] == ds[b];
        }
      }
      UniqIdentity(init);
      RowKeysMembers(init);
      assert RowKey(ds[|ds| - 1]) !in RowKeys(init) by {
        forall k | 0 <= k < |init| ensures RowKey(init[k]) != RowKey(ds[|ds| - 1]) {
          assert init[k] == ds[k];
        }
      }
      assert ds == init + [ds[|ds| - 1]];
    }
  }

  /** The result built from the unique rows. */
  function Summary(rows: seq<TaxRow>): (r: ParseResult)
    requires rows != []
    ensures r.tvaDetails == rows
    ensures r.totalHt == Some(SumHt(rows)) && r.tvaAmount == Some(SumTva(rows)) && r.totalTtc == Some(SumTtc(rows))
    ensures r.confidence == (if |rows| > 1 then 0.85 else 0.80) && r.notes == {"tva_vertical"}
  {
    Q2OfMoney(SumHt(rows));
    Q2OfMoney(SumTtc(rows));
    Q2OfMoney(SumTva(rows));
    ParseResult(
      Some(Q2(Real(SumHt(rows)))), Some(Q2(Real(SumTtc(rows)))), Some(Q2(Real(SumTva(rows)))),
      rows, if |rows| > 1 then 0.85 else 0.80, {"tva_vertical"})
  }

  /** What `TvaVerticalRule.apply` returns. */
  function Parsed(text: string): (r: Option<ParseResult>)
    ensures AnchorsFrom(StrippedLines(text), 0) == [] ==> r.None?
  {
    ParsedLines(StrippedLines(text))
  }

  /** `apply` on the stripped lines. */
  function ParsedLines(lines: seq<string>): Option<ParseResult>
  {
    var anchors := AnchorsFrom(lines, 0);
    if anchors == [] then None
    else
      var sc := ScanAnchors(lines, anchors, Scan({}, {}, []));
      if sc.triples == [] then None
      else
        var details := Synth(sc.triples);
        if details == [] then None
        else Some(Summary(Uniq(details)))
  }

  /**
   * Every row returned passes the safety bounds, the rows are the triples'
   * rows in order with no two sharing their amounts, and the totals are their sums.
   */
  lemma ResultRows(text: string)
    ensures Parsed(text).Some? ==>
      var p := Parsed(text).value;
      && p.tvaDetails != []
      && (forall k :: 0 <= k < |p.tvaDetails| ==> SafeRow(p.tvaDetails[k]))
      && DistinctRowKeys(p.tvaDetails)
      && p.totalHt == Some(SumHt(p.tvaDetails)) && p.tvaAmount == Some(SumTva(p.tvaDetails))
      && p.totalTtc == Some(SumTtc(p.tvaDetails))
      && p.confidence == (if |p.tvaDetails| > 1 then 0.85 else 0.80)
  {
    var lines := StrippedLines(text);
    var anchors := AnchorsFrom(lines, 0);
    if anchors != [] {
      var sc0 := Scan({}, {}, []);
      assert ScanInv(sc0);
      var sc := ScanAnchors(lines, anchors, sc0);
      AnchorsKeepInv(lines, anchors, sc0);
      SynthSafe(sc.triples);
      SynthDistinct(sc.triples);
      if Synth(sc.triples) != [] {
        UniqIdentity(Synth(sc.triples));
      }
    }
  }

  // ------------------------------------------------------------ the method

  /**
   * The `while len(buf_vals) >= 3` loop. Every path through its body ends in
   * `break`, so the body runs at most once: it is written here as an `if`.
   */
  method SlideWindow(order: seq<Canon>, lastRate: Option<real>, buf: seq<(nat, Money)>,
                     seenIdx0: set<(nat, nat, nat)>, seenVals0: set<(Money, Money, Money)>, triples0: seq<Triple>)
    returns (seenIdx: set<(nat, nat, nat)>, seenVals: set<(Money, Money, Money)>, triples: seq<Triple>)
    ensures Scan(seenIdx, seenVals, triples) == Slide(order, lastRate, buf, Scan(seenIdx0, seenVals0, triples0))
  {
    seenIdx, seenVals, triples := seenIdx0, seenVals0, triples0;
    if |buf| >= 3 {
      var w1, w2, w3 := buf[|buf| - 3], buf[|buf| - 2], buf[|buf| - 1];
      if (w1.0, w2.0, w3.0) in seenIdx {
        return;
      }
      var trip := Trip(order, w1.1, w2.1, w3.1);
      if trip.Some? {
        var key := trip.value;
        if key !in seenVals {
          seenIdx := seenIdx + {(w1.0, w2.0, w3.0)};
          seenVals := seenVals + {key};
          triples := triples + [Triple(lastRate, key.0, key.1, key.2)];
        }
      }
    }
  }

  /** What the line loop reads off line `ln`: its rate hint, then its amount, with the error `to_dec` raises. */
  method ReadOne(ln: string) returns (rd: Reading)
    ensures rd == ReadingOf(ln)
  {
    var hint := RateHint(ln);
    var m := NumLine(ln);
    var amount: Option<Result<Money>> := None;
    if m.Some? {
      var val := ToDec(m.value);
      amount := Some(val);
    }
    rd := Reading(hint, amount, ln == []);
  }

  /** The readings of every line, in order. */
  method ReadAll(lines: seq<string>) returns (rds: seq<Reading>)
    ensures rds == Readings(lines)
  {
    rds := [];
    for i := 0 to |lines|
      invariant rds == Readings(lines[..i])
    {
      var rd := ReadOne(lines[i]);
      assert lines[..i + 1][..i] == lines[..i];
      rds := rds + [rd];
    }
    assert lines[..|lines|] == lines;
  }

  /** One pass of the line loop: the rate hint, then the amount line or the blank line. */
  method Step(rd: Reading, j: nat, order: seq<Canon>, blk0: Block, sc0: Scan) returns (blk: Block, sc: Scan)
    ensures (blk, sc) == StepLine(rd, order, j, blk0, sc0)
  {
    var lastRate, buf := blk0.lastRate, blk0.buf;
    var seenIdx, seenVals, triples := sc0.seenIdx, sc0.seenVals, sc0.triples;
    if rd.hint.Some? {
      lastRate := rd.hint;
    }
    if rd.amount.Some? {
      if rd.amount.value.Failure? {
        // the `except` branch: `j += 1; continue`
        return Block(lastRate, buf), sc0;
      }
      buf := buf + [(j, rd.amount.value.value)];
      seenIdx, seenVals, triples := SlideWindow(order, lastRate, buf, seenIdx, seenVals, triples);
    } else {
      if rd.blank && buf != [] {
        buf := [];
      }
    }
    return Block(lastRate, buf), Scan(seenIdx, seenVals, triples);
  }

  /** The body of `for idx in anchors`: the line loop around anchor `idx`. */
  method ScanAround(lines: seq<string>, rds: seq<Reading>, idx: nat, seenIdx0: set<(nat, nat, nat)>, seenVals0: set<(Money, Money, Money)>, triples0: seq<Triple>)
    returns (seenIdx: set<(nat, nat, nat)>, seenVals: set<(Money, Money, Money)>, triples: seq<Triple>)
    requires idx < |lines| && rds == Readings(lines)
    ensures Scan(seenIdx, seenVals, triples) == ScanAnchor(lines, idx, Scan(seenIdx0, seenVals0, triples0))
  {
    var order := HeaderOrder(lines, idx);
    var j0 := if idx >= 2 then idx - 2 else 0;
    var j1 := if idx + 40 <= |lines| then idx + 40 else |lines|;
    var sc := RunBlock(rds, order, j0, j1, Block(None, []), Scan(seenIdx0, seenVals0, triples0));
    seenIdx, seenVals, triples := sc.seenIdx, sc.seenVals, sc.triples;
  }

  /** The line loop from line `j0` up to `j1`. */
  method RunBlock(rds: seq<Reading>, order: seq<Canon>, j0: nat, j1: nat, blk0: Block, sc0: Scan) returns (sc: Scan)
    requires j0 <= j1 <= |rds|
    ensures sc == ScanBlock(rds, order, j0, j1, blk0, sc0)
  {
    var blk := blk0;
    sc := sc0;
    var j := j0;
    while j < j1
      invariant j0 <= j <= j1
      invariant ScanBlock(rds, order, j, j1, blk, sc) == ScanBlock(rds, order, j0, j1, blk0, sc0)
    {
      blk, sc := Step(rds[j], j, order, blk, sc);
      j := j + 1;
    }
  }

  /** The synthesis loop: one row per triple that passes the safety bounds. */
  method Synthesize(triples: seq<Triple>) returns (details: seq<TaxRow>)
    ensures details == Synth(triples)
  {
    details := [];
    var k := 0;
    while k < |triples|
      invariant 0 <= k <= |triples|
      invariant details == Synth(triples[..k])
    {
      assert triples[..k + 1][..k] == triples[..k];
      var t := triples[k];
      var rate := t.rate;
      if (rate.None? || rate.value == 0.0) && t.ht != 0 {
        rate := Some(DerivedRate(t.tva, t.ht));
      }
      if !RatioOk(t.tva, t.ht) || !AlmostEq(t.ht + t.tva, t.ttc) {
        k := k + 1;
        continue;
      }
      rate := NormalizeRate(rate, Some(t.ht), Some(t.tva));
      details := details + [TaxRow(rate, Some(t.ht), Some(t.tva), Some(t.ttc))];
      k := k + 1;
    }
    assert triples[..|triples|] == triples;
  }

  lemma UniqStep(ds: seq<TaxRow>, n: nat)
    requires n < |ds|
    ensures Uniq(ds[..n + 1]) == if RowKey(ds[n]) in RowKeys(Uniq(ds[..n])) then Uniq(ds[..n]) else Uniq(ds[..n]) + [ds[n]]
  {
    assert ds[..n + 1][..n] == ds[..n];
  }

  lemma RowKeysSnoc(u: seq<TaxRow>, d: TaxRow)
    ensures RowKeys(u + [d]) == RowKeys(u) + {RowKey(d)}
  {
    assert (u + [d])[..|u|] == u;
  }

  /** The final de-duplication by `(base_ht, tva, ttc)`. */
  method DedupFinal(details: seq<TaxRow>) returns (uniq: seq<TaxRow>)
    ensures uniq == Uniq(details)
  {
    uniq := [];
    var seenFinal: set<(Option<Money>, Option<Money>, Option<Money>)> := {};
    var n := 0;
    while n < |details|
      invariant 0 <= n <= |details|
      invariant uniq == Uniq(details[..n]) && seenFinal == RowKeys(uniq)
    {
      var d := details[n];
      UniqStep(details, n);
      var key := RowKey(d);
      if key !in seenFinal {
        RowKeysSnoc(uniq, d);
        seenFinal := seenFinal + {key};
        uniq := uniq + [d];
      }
      n := n + 1;
    }
    assert details[..|details|] == details;
  }

  /** `TvaVerticalRule.apply` */
  method Apply(text: string) returns (r: Option<ParseResult>)
    ensures r == Parsed(text)
  {
    r := ApplyLines(StrippedLines(text));
  }

  /** The body of `apply` once the text is cut into stripped lines. */
  method ApplyLines(lines: seq<string>) returns (r: Option<ParseResult>)
    ensures r == ParsedLines(lines)
  {
    var anchors := AnchorsFrom(lines, 0);
    if anchors == [] {
      return None;
    }
    var rds := ReadAll(lines);
    var triples := ScanAll(lines, rds, anchors);
    if triples == [] {
      return None;
    }
    var details := Synthesize(triples);
    if details == [] {
      return None;
    }
    var uniq := DedupFinal(details);
    return Some(Summary(uniq));
  }

  /** The loop over the anchors: the `(j, k, m)` triples kept. */
  method ScanAll(lines: seq<string>, rds: seq<Reading>, anchors: seq<nat>) returns (triples: seq<Triple>)
    requires rds == Readings(lines) && forall a :: 0 <= a < |anchors| ==> anchors[a] < |lines|
    ensures triples == ScanAnchors(lines, anchors, Scan({}, {}, [])).triples
  {
    var seenIdx: set<(nat, nat, nat)> := {};
    var seenVals: set<(Money, Money, Money)> := {};
    triples := [];
    var a := 0;
    while a < |anchors|
      invariant 0 <= a <= |anchors|
      invariant ScanAnchors(lines, anchors[a..], Scan(seenIdx, seenVals, triples)) == ScanAnchors(lines, anchors, Scan({}, {}, []))
    {
      assert anchors[a..][1..] == anchors[a + 1..];
      seenIdx, seenVals, triples := ScanAround(lines, rds, anchors[a], seenIdx, seenVals, triples);
      a := a + 1;
    }
  }
}
