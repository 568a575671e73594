/**
 * `Merger.merge` and `_dedup_rows` (`core/parsing/merger.py`): the
 * candidates of all rules become one result. The base is the first
 * candidate with the largest `(has TTC, confidence)`; its missing totals
 * are filled from the candidates in descending confidence order (a
 * stable sort); the rows of all candidates are concatenated and
 * de-duplicated on their amounts; a missing total is derived from the
 * other two; the confidence is the largest one, capped at 1.0; the notes
 * are the union of all notes.
 */
module Merger {
  import opened Wrappers
  import opened BaseRule
  import opened Sorting

  // ------------------------------------------------------------- row keys

  /** `quant2` on an amount: an amount already has two decimals, so it is its own quantisation. */
  function QuantAmount(m: Option<Money>): (r: Option<Money>)
    ensures r == m
  {
    if m.None? then None
    else
      Q2OfMoney(m.value);
      Some(Q2(Real(m.value)))
  }

  /** The de-duplication key `(quant2(base_ht), quant2(tva), quant2(ttc))`: the rate is not part of it. */
  type Key = (Option<Money>, Option<Money>, Option<Money>)

  function RowKey(r: TaxRow): Key {
    (QuantAmount(r.baseHt), QuantAmount(r.tva), QuantAmount(r.ttc))
  }

  /** The keys of `rows`. */
  function KeysOf(rows: seq<TaxRow>): set<Key> {
    set i | 0 <= i < |rows| :: RowKey(rows[i])
  }

  lemma KeysOfSnoc(rows: seq<TaxRow>, r: TaxRow)
    ensures KeysOf(rows + [r]) == KeysOf(rows) + {RowKey(r)}
  {
    var s := rows + [r];
    assert RowKey(s[|rows|]) in KeysOf(s);
    forall k | k in KeysOf(s)
      ensures k in KeysOf(rows) + {RowKey(r)}
    {
      var i :| 0 <= i < |s| && RowKey(s[i]) == k;
      if i < |rows| {
        assert s[i] == rows[i];
      }
    }
    forall k | k in KeysOf(rows)
      ensures k in KeysOf(s)
    {
      var i :| 0 <= i < |rows| && RowKey(rows[i]) == k;
      assert s[i] == rows[i];
    }
  }

  /** `_dedup_rows`: the first row of each key, in order, with its amounts quantised. */
  function Deduped(rows: seq<TaxRow>): seq<TaxRow>
    decreases |rows|
  {
    if rows == [] then []
    else
      var d := Deduped(rows[..|rows| - 1]);
      var r := rows[|rows| - 1];
      if RowKey(r) in KeysOf(d) then d
      else d + [TaxRow(r.rate, QuantAmount(r.baseHt), QuantAmount(r.tva), QuantAmount(r.ttc))]
  }

  /** `_dedup_rows`, with its `seen` set and `out` list. */
  method DedupRows(rows: seq<TaxRow>) returns (out: seq<TaxRow>)
    ensures out == Deduped(rows)
  {
    var seen: set<Key> := {};
    out := [];
    for i := 0 to |rows|
      invariant out == Deduped(rows[..i])
      invariant seen == KeysOf(out)
    {
      assert rows[..i + 1][..i] == rows[..i];
      var r := rows[i];
      var key := (QuantAmount(r.baseHt), QuantAmount(r.tva), QuantAmount(r.ttc));
      if key !in seen {
        seen := seen + {key};
        var q := TaxRow(r.rate, QuantAmount(r.baseHt), QuantAmount(r.tva), QuantAmount(r.ttc));
        KeysOfSnoc(out, q);
        out := out + [q];
      }
    }
    assert rows[..|rows|] == rows;
  }

  /** The first row of `rows` whose key is `k`. */
  function FirstWithKey(rows: seq<TaxRow>, k: Key): (f: Option<TaxRow>)
    decreases |rows|
  {
    if rows == [] then None
    else
      var f := FirstWithKey(rows[..|rows| - 1], k);
      if f.Some? then f
      else if RowKey(rows[|rows| - 1]) == k then Some(rows[|rows| - 1])
      else None
  }

  lemma {:induction false} FirstWithKeyFound(rows: seq<TaxRow>, k: Key)
    ensures FirstWithKey(rows, k).Some? <==> k in KeysOf(rows)
    ensures FirstWithKey(rows, k).Some? ==> RowKey(FirstWithKey(rows, k).value) == k
    decreases |rows|
  {
    if rows != [] {
      var init, r := rows[..|rows| - 1], rows[|rows| - 1];
      assert rows == init + [r];
      FirstWithKeyFound(init, k);
      KeysOfSnoc(init, r);
    }
  }

  /**
   * `_dedup_rows` returns rows with pairwise distinct keys, one for every
   * key of the input, and each is the first input row of its key (so of
   * rows differing only in their rate, the first is kept).
   */
  lemma {:induction false} DedupedProperties(rows: seq<TaxRow>)
    ensures forall i, j :: 0 <= i < j < |Deduped(rows)| ==> RowKey(Deduped(rows)[i]) != RowKey(Deduped(rows)[j])
    ensures KeysOf(Deduped(rows)) == KeysOf(rows)
    ensures forall i :: 0 <= i < |Deduped(rows)| ==> FirstWithKey(rows, RowKey(Deduped(rows)[i])) == Some(Deduped(rows)[i])
    decreases |rows|
  {
    if rows != [] {
      var init, r := rows[..|rows| - 1], rows[|rows| - 1];
      assert rows == init + [r];
      DedupedProperties(init);
      KeysOfSnoc(init, r);
      var d := Deduped(init);
      forall i | 0 <= i < |d|
        ensures FirstWithKey(rows, RowKey(d[i])) == Some(d[i])
      {
      }
      if RowKey(r) !in KeysOf(d) {
        KeysOfSnoc(d, r);
        FirstWithKeyFound(init, RowKey(r));
        var d' := d + [r];
        assert Deduped(rows) == d';
        forall i, j | 0 <= i < j < |d'|
          ensures RowKey(d'[i]) != RowKey(d'[j])
        {
          if j == |d| {
            assert RowKey(d[i]) in KeysOf(d);
          }
        }
      }
    }
  }

  /** The rows de-duplicated from a prefix come first: the base candidate's rows lead. */
  lemma {:induction false} DedupedPrefix(a: seq<TaxRow>, b: seq<TaxRow>)
    ensures |Deduped(a)| <= |Deduped(a + b)| && Deduped(a + b)[..|Deduped(a)|] == Deduped(a)
    decreases |b|
  {
    if b == [] {
      assert a + b == a;
    } else {
      var b', r := b[..|b| - 1], b[|b| - 1];
      assert a + b == (a + b') + [r];
      assert (a + b)[..|a + b| - 1] == a + b';
      DedupedPrefix(a, b');
      var d := Deduped(a + b');
      if RowKey(r) !in KeysOf(d) {
        assert (d + [r])[..|Deduped(a)|] == d[..|Deduped(a)|];
      }
    }
  }

  /** Two rows with the same amounts and different rates collapse to the first. */
  lemma RateIgnored(x: TaxRow, y: TaxRow)
    requires x.baseHt == y.baseHt && x.tva == y.tva && x.ttc == y.ttc && x.rate != y.rate
    ensures Deduped([x, y]) == [x]
  {
    assert [x, y][..1] == [x];
    assert [x][..0] == [];
    assert Deduped([x]) == [x];
    assert RowKey([x][0]) in KeysOf([x]);
  }

  // ------------------------------------------------------------- the base

  /** `(a.total_ttc is not None, a.confidence) > (b.total_ttc is not None, b.confidence)` */
  predicate Outranks(a: ParseResult, b: ParseResult) {
    (a.totalTtc.Some? && b.totalTtc.None?)
    || (a.totalTtc.Some? == b.totalTtc.Some? && a.confidence > b.confidence)
  }

  /** `max(results, key=...)`: a later candidate replaces the current one only when it outranks it. */
  function Best(results: seq<ParseResult>): ParseResult
    requires results != []
    decreases |results|
  {
    if |results| == 1 then results[0]
    else
      var b := Best(results[..|results| - 1]);
      var r := results[|results| - 1];
      if Outranks(r, b) then r else b
  }

  /** Candidate `k` is outranked by none, and outranks every candidate before it. */
  predicate FirstMaximumAt(results: seq<ParseResult>, k: nat) {
    k < |results|
    && (forall m :: 0 <= m < |results| ==> !Outranks(results[m], results[k]))
    && (forall m :: 0 <= m < k ==> Outranks(results[k], results[m]))
  }

  /** The base is the first candidate of maximal `(has TTC, confidence)`. */
  lemma {:induction false} BestIsFirstMaximum(results: seq<ParseResult>)
    requires results != []
    ensures exists k: nat :: FirstMaximumAt(results, k) && Best(results) == results[k]
    decreases |results|
  {
    if |results| == 1 {
      assert FirstMaximumAt(results, 0);
    } else {
      var init, r := results[..|results| - 1], results[|results| - 1];
      BestIsFirstMaximum(init);
      var k: nat :| FirstMaximumAt(init, k) && Best(init) == init[k];
      assert forall m :: 0 <= m < |init| ==> results[m] == init[m];
      if Outranks(r, Best(init)) {
        assert FirstMaximumAt(results, |results| - 1);
      } else {
        assert FirstMaximumAt(results, k);
      }
    }
  }

  /** A base without TTC means no candidate has one. */
  lemma BaseWithoutTtc(results: seq<ParseResult>)
    requires results != [] && Best(results).totalTtc.None?
    ensures forall i :: 0 <= i < |results| ==> results[i].totalTtc.None?
  {
    BestIsFirstMaximum(results);
  }

  // ------------------------------------------------ the confidence order

  /** The sort key of the backfill order. */
  function Conf(r: ParseResult): real { r.confidence }

  /** `sorted(results, key=lambda x: x.confidence, reverse=True)` */
  function ByConfidence(results: seq<ParseResult>): seq<ParseResult>
  {
    SortDesc(Conf, results)
  }

  /** The backfill order: by decreasing confidence, a permutation, stable among equal confidences. */
  lemma ByConfidenceProperties(results: seq<ParseResult>)
    ensures Descending(Conf, ByConfidence(results))
    ensures multiset(ByConfidence(results)) == multiset(results)
    ensures forall c :: WithKey(Conf, ByConfidence(results), c) == WithKey(Conf, results, c)
  {
    SortDescProperties(Conf, results);
  }

  // ------------------------------------------------------------ backfill

  datatype Field = HtField | TvaField | TtcField

  function Get(r: ParseResult, f: Field): Option<Money> {
    match f
    case HtField => r.totalHt
    case TvaField => r.tvaAmount
    case TtcField => r.totalTtc
  }

  /** The amount `f` of the first candidate of `cs` that has one. */
  function FirstAmount(cs: seq<ParseResult>, f: Field): Option<Money>
    decreases |cs|
  {
    if cs == [] then None
    else if Get(cs[0], f).Some? then Get(cs[0], f)
    else FirstAmount(cs[1..], f)
  }

  /** `FirstAmount` is the amount of the first candidate that has one, and none when no candidate has it. */
  lemma {:induction false} FirstAmountIsFirst(cs: seq<ParseResult>, f: Field)
    ensures FirstAmount(cs, f).None? <==> forall i :: 0 <= i < |cs| ==> Get(cs[i], f).None?
    ensures FirstAmount(cs, f).Some? ==>
      exists k :: 0 <= k < |cs| && Get(cs[k], f) == FirstAmount(cs, f)
        && forall m :: 0 <= m < k ==> Get(cs[m], f).None?
    decreases |cs|
  {
    if cs != [] && Get(cs[0], f).None? {
      FirstAmountIsFirst(cs[1..], f);
      assert forall i :: 1 <= i < |cs| ==> cs[i] == cs[1..][i - 1];
      if FirstAmount(cs, f).Some? {
        var k :| 0 <= k < |cs[1..]| && Get(cs[1..][k], f) == FirstAmount(cs, f)
          && forall m :: 0 <= m < k ==> Get(cs[1..][m], f).None?;
        assert Get(cs[k + 1], f) == FirstAmount(cs, f);
      }
    }
  }

  lemma {:induction false} FirstAmountSnoc(cs: seq<ParseResult>, c: ParseResult, f: Field)
    ensures FirstAmount(cs + [c], f) == if FirstAmount(cs, f).Some? then FirstAmount(cs, f) else Get(c, f)
    decreases |cs|
  {
    if cs == [] {
      assert [] + [c] == [c];
    } else {
      assert (cs + [c])[1..] == cs[1..] + [c];
      FirstAmountSnoc(cs[1..], c, f);
    }
  }

  /** The rows of `cs`, concatenated in order. */
  function AllDetails(cs: seq<ParseResult>): seq<TaxRow>
    decreases |cs|
  {
    if cs == [] then [] else AllDetails(cs[..|cs| - 1]) + cs[|cs| - 1].tvaDetails
  }

  // ---------------------------------------------------------- completion

  /**
   * The three derivations, in the order written: HT from TTC and TVA, then
   * TTC from HT and TVA, then TVA from TTC and HT.
   */
  function Complete(a: Amounts): (r: Amounts)
    // a known amount is never changed
    ensures a.ht.Some? ==> r.ht == a.ht
    ensures a.tva.Some? ==> r.tva == a.tva
    ensures a.ttc.Some? ==> r.ttc == a.ttc
    // a missing amount is derived exactly when the other two are known
    ensures a.ht.None? ==> r.ht == (if a.tva.Some? && a.ttc.Some? then Some(a.ttc.value - a.tva.value) else None)
    ensures a.ttc.None? ==> r.ttc == (if a.ht.Some? && a.tva.Some? then Some(a.ht.value + a.tva.value) else None)
    ensures a.tva.None? ==> r.tva == (if a.ht.Some? && a.ttc.Some? then Some(a.ttc.value - a.ht.value) else None)
    // nothing is derived from a single amount; from two, the third balances them
    ensures Known(a) < 2 ==> r == a
    ensures Known(a) == 2 ==> Known(r) == 3 && r.ht.value + r.tva.value == r.ttc.value
  {
    var a1 := if a.ht.None? && a.ttc.Some? && a.tva.Some? then a.(ht := Some(a.ttc.value - a.tva.value)) else a;
    var a2 := if a1.ttc.None? && a1.ht.Some? && a1.tva.Some? then a1.(ttc := Some(a1.ht.value + a1.tva.value)) else a1;
    if a2.tva.None? && a2.ht.Some? && a2.ttc.Some? then a2.(tva := Some(a2.ttc.value - a2.ht.value)) else a2
  }

  // ------------------------------------------------- confidence and notes

  /** `max(r.confidence for r in results)` */
  function MaxConfidence(results: seq<ParseResult>): (c: real)
    requires results != []
    ensures forall i :: 0 <= i < |results| ==> results[i].confidence <= c
    ensures exists i :: 0 <= i < |results| && results[i].confidence == c
    decreases |results|
  {
    if |results| == 1 then results[0].confidence
    else
      var rest := MaxConfidence(results[1..]);
      assert forall i :: 1 <= i < |results| ==> results[i] == results[1..][i - 1];
      if results[0].confidence >= rest then results[0].confidence else rest
  }

  function MinReal(a: real, b: real): real {
    if a <= b then a else b
  }

  /** `{n for r in results for n in (r.notes or [])}` */
  function AllNotes(results: seq<ParseResult>): (notes: set<string>)
    ensures forall n :: n in notes <==> exists i :: 0 <= i < |results| && n in results[i].notes
    decreases |results|
  {
    if results == [] then {}
    else
      var rest := AllNotes(results[1..]);
      assert forall i :: 1 <= i < |results| ==> results[i] == results[1..][i - 1];
      results[0].notes + rest
  }

  // --------------------------------------------------------------- merge

  /** The totals of the base, each missing one filled from the first candidate in `order` that has it. */
  function Filled(best: ParseResult, order: seq<ParseResult>): Amounts {
    Amounts(FirstAmount([best] + order, HtField), FirstAmount([best] + order, TvaField), FirstAmount([best] + order, TtcField))
  }

  function Of(a: Amounts, f: Field): Option<Money> {
    match f
    case HtField => a.ht
    case TvaField => a.tva
    case TtcField => a.ttc
  }

  /** What `merge` returns. */
  function Merged(results: seq<ParseResult>): Option<ParseResult> {
    if results == [] then None
    else
      var best := Best(results);
      var order := ByConfidence(results);
      var a := Complete(Filled(best, order));
      Some(ParseResult(a.ht, a.ttc, a.tva, Deduped(best.tvaDetails + AllDetails(order)),
                       MinReal(1.0, MaxConfidence(results)), AllNotes(results)))
  }

  /** The backfill loop over the sorted candidates. */
  method Backfill(best: ParseResult, order: seq<ParseResult>)
    returns (totalHt: Option<Money>, totalTtc: Option<Money>, tvaAmount: Option<Money>, details: seq<TaxRow>)
    ensures Amounts(totalHt, tvaAmount, totalTtc) == Filled(best, order)
    ensures details == best.tvaDetails + AllDetails(order)
  {
    totalHt, totalTtc, tvaAmount := best.totalHt, best.totalTtc, best.tvaAmount;
    details := best.tvaDetails;
    assert [best][1..] == [];
    assert order[..0] == [];
    for i := 0 to |order|
      invariant totalHt == FirstAmount([best] + order[..i], HtField)
      invariant tvaAmount == FirstAmount([best] + order[..i], TvaField)
      invariant totalTtc == FirstAmount([best] + order[..i], TtcField)
      invariant details == best.tvaDetails + AllDetails(order[..i])
    {
      var r := order[i];
      FillStep(best, order, i, HtField);
      FillStep(best, order, i, TvaField);
      FillStep(best, order, i, TtcField);
      DetailsStep(order, i);
      if totalTtc.None? && r.totalTtc.Some? {
        totalTtc := r.totalTtc;
      }
      if totalHt.None? && r.totalHt.Some? {
        totalHt := r.totalHt;
      }
      if tvaAmount.None? && r.tvaAmount.Some? {
        tvaAmount := r.tvaAmount;
      }
      if r.tvaDetails != [] {
        details := details + r.tvaDetails;
      } else {
        assert details + r.tvaDetails == details;
      }
    }
    assert order[..|order|] == order;
  }

  /** One more candidate fills `f` only when no earlier one had it. */
  lemma FillStep(best: ParseResult, order: seq<ParseResult>, i: nat, f: Field)
    requires i < |order|
    ensures FirstAmount([best] + order[..i + 1], f) ==
      if FirstAmount([best] + order[..i], f).Some? then FirstAmount([best] + order[..i], f) else Get(order[i], f)
  {
    assert [best] + order[..i + 1] == ([best] + order[..i]) + [order[i]];
    FirstAmountSnoc([best] + order[..i], order[i], f);
  }

  lemma DetailsStep(order: seq<ParseResult>, i: nat)
    requires i < |order|
    ensures AllDetails(order[..i + 1]) == AllDetails(order[..i]) + order[i].tvaDetails
  {
    assert order[..i + 1][..i] == order[..i];
  }

  /** `Merger.merge` */
  method Merge(results: seq<ParseResult>) returns (r: Option<ParseResult>)
    ensures r == Merged(results)
  {
    if results == [] {
      return None;
    }
    var best := Best(results);
    var order := ByConfidence(results);
    var totalHt, totalTtc, tvaAmount, details := Backfill(best, order);
    details := DedupRows(details);
    if totalHt.None? && totalTtc.Some? && tvaAmount.Some? {
      totalHt := QuantAmount(Some(totalTtc.value - tvaAmount.value));
    }
    if totalTtc.None? && totalHt.Some? && tvaAmount.Some? {
      totalTtc := QuantAmount(Some(totalHt.value + tvaAmount.value));
    }
    if tvaAmount.None? && totalHt.Some? && totalTtc.Some? {
      tvaAmount := QuantAmount(Some(totalTtc.value - totalHt.value));
    }
    var conf := MinReal(1.0, MaxConfidence(results));
    return Some(ParseResult(totalHt, totalTtc, tvaAmount, details, conf, AllNotes(results)));
  }

  // -------------------------------------------------------------- lemmas

  /**
   * The totals of the merge: a total the base has is kept; a missing one is
   * the first in confidence order among the candidates that have it; a total
   * still missing is derived when the other two are known.
   */
  lemma MergedTotals(results: seq<ParseResult>, f: Field)
    requires results != []
    ensures Get(Best(results), f).Some? ==>
      Of(Filled(Best(results), ByConfidence(results)), f) == Get(Best(results), f)
      && Get(Merged(results).value, f) == Get(Best(results), f)
    ensures Get(Best(results), f).None? ==>
      Of(Filled(Best(results), ByConfidence(results)), f) == FirstAmount(ByConfidence(results), f)
  {
    var best, order := Best(results), ByConfidence(results);
    assert ([best] + order)[1..] == order;
  }

  /** No candidates, no merge; otherwise one. */
  lemma MergedNone(results: seq<ParseResult>)
    ensures Merged(results).None? <==> results == []
  {
  }

  /**
   * The rows of the merge have pairwise distinct amounts, cover every
   * amount key of the candidates' rows, and start with the base's own rows.
   */
  lemma MergedRows(results: seq<ParseResult>)
    requires results != []
    ensures var rows := Merged(results).value.tvaDetails;
      && (forall i, j :: 0 <= i < j < |rows| ==> RowKey(rows[i]) != RowKey(rows[j]))
      && KeysOf(rows) == KeysOf(Best(results).tvaDetails + AllDetails(ByConfidence(results)))
      && |Deduped(Best(results).tvaDetails)| <= |rows|
      && rows[..|Deduped(Best(results).tvaDetails)|] == Deduped(Best(results).tvaDetails)
  {
    var all := Best(results).tvaDetails + AllDetails(ByConfidence(results));
    DedupedProperties(all);
    DedupedPrefix(Best(results).tvaDetails, AllDetails(ByConfidence(results)));
  }

  /** The confidence of the merge is the largest one, capped at 1.0. */
  lemma MergedConfidence(results: seq<ParseResult>)
    requires results != []
    ensures var c := Merged(results).value.confidence;
      && c <= 1.0
      && (forall i :: 0 <= i < |results| ==> MinReal(1.0, results[i].confidence) <= c)
      && (c == 1.0 || exists i :: 0 <= i < |results| && results[i].confidence == c)
  {
  }

  /** The notes of the merge are those of all candidates. */
  lemma MergedNotes(results: seq<ParseResult>, n: string)
    requires results != []
    ensures n in Merged(results).value.notes <==> exists i :: 0 <= i < |results| && n in results[i].notes
  {
  }
}
