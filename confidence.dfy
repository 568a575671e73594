/**
 * `coherent` and `confidence_proxy` (`core/models/confidence.py`). Both
 * read a document by duck typing; `Doc` holds the attributes they read.
 * Floats are taken as exact reals.
 */
module Confidence {
  import opened Wrappers

  /** A row as `coherent` reads it: any amount may be missing. */
  datatype Line = Line(baseHt: Option<real>, tva: Option<real>, ttc: Option<real>)

  datatype Doc = Doc(
    vendor: Option<string>,
    date: Option<string>,
    totalTtc: Option<real>,
    totalHt: Option<real>,
    tvaAmount: Option<real>,
    tvaDetails: seq<Line>)

  function Abs(x: real): real { if x < 0.0 then -x else x }

  /** `float(x or 0)` */
  function OrZero(x: Option<real>): real { if x.Some? then x.value else 0.0 }

  /** What a row adds to the sum: its TTC, or else its HT plus its TVA. */
  function LineTotal(l: Line): real {
    if l.ttc.Some? then l.ttc.value else OrZero(l.baseHt) + OrZero(l.tva)
  }

  function RowsTotal(rows: seq<Line>): real
    decreases |rows|
  {
    if rows == [] then 0.0 else RowsTotal(rows[..|rows| - 1]) + LineTotal(rows[|rows| - 1])
  }

  /** The default tolerance of `coherent`. */
  const DefaultEps: real := 0.1

  /**
   * The document is coherent when it has a TTC and either HT + TVA, or the
   * sum over its rows, is within `eps` of it.
   */
  predicate IsCoherent(doc: Doc, eps: real) {
    doc.totalTtc.Some?
    && ((doc.totalHt.Some? && doc.tvaAmount.Some?
         && Abs(doc.totalHt.value + doc.tvaAmount.value - doc.totalTtc.value) <= eps)
        || (doc.tvaDetails != [] && Abs(RowsTotal(doc.tvaDetails) - doc.totalTtc.value) <= eps))
  }

  /** `coherent` */
  method Coherent(doc: Doc, eps: real) returns (b: bool)
    ensures b == IsCoherent(doc, eps)
  {
    if doc.totalTtc.None? {
      return false;
    }
    if doc.totalHt.Some? && doc.tvaAmount.Some? {
      if Abs(doc.totalHt.value + doc.tvaAmount.value - doc.totalTtc.value) <= eps {
        return true;
      }
    }
    if doc.tvaDetails != [] {
      var s := 0.0;
      for i := 0 to |doc.tvaDetails|
        invariant s == RowsTotal(doc.tvaDetails[..i])
      {
        var line := doc.tvaDetails[i];
        assert doc.tvaDetails[..i + 1][..i] == doc.tvaDetails[..i];
        if line.ttc.Some? {
          s := s + line.ttc.value;
        } else {
          s := s + OrZero(line.baseHt) + OrZero(line.tva);
        }
      }
      assert doc.tvaDetails[..|doc.tvaDetails|] == doc.tvaDetails;
      if Abs(s - doc.totalTtc.value) <= eps {
        return true;
      }
    }
    return false;
  }

  /** The rows add up part by part. */
  lemma {:induction false} RowsTotalAppend(a: seq<Line>, b: seq<Line>)
    ensures RowsTotal(a + b) == RowsTotal(a) + RowsTotal(b)
    decreases |b|
  {
    if b == [] {
      assert a + b == a;
    } else {
      assert (a + b)[..|a + b| - 1] == a + b[..|b| - 1];
      RowsTotalAppend(a, b[..|b| - 1]);
    }
  }

  /** With every TTC present, the rows add up to the sum of their TTCs, whatever their HT and TVA. */
  lemma {:induction false} RowsTotalOfTtcs(rows: seq<Line>, ttcs: seq<real>)
    requires |rows| == |ttcs| && forall i :: 0 <= i < |rows| ==> rows[i].ttc == Some(ttcs[i])
    ensures RowsTotal(rows) == Sum(ttcs)
    decreases |rows|
  {
    if rows != [] {
      RowsTotalOfTtcs(rows[..|rows| - 1], ttcs[..|ttcs| - 1]);
    }
  }

  function Sum(xs: seq<real>): real
    decreases |xs|
  {
    if xs == [] then 0.0 else Sum(xs[..|xs| - 1]) + xs[|xs| - 1]
  }

  /** Without a TTC a document is never coherent; with balanced totals it always is. */
  lemma CoherentCases(doc: Doc, eps: real)
    ensures doc.totalTtc.None? ==> !IsCoherent(doc, eps)
    ensures (doc.totalTtc.Some? && doc.totalHt.Some? && doc.tvaAmount.Some?
             && Abs(doc.totalHt.value + doc.tvaAmount.value - doc.totalTtc.value) <= eps) ==> IsCoherent(doc, eps)
    ensures doc.totalTtc.Some? && !(doc.totalHt.Some? && doc.tvaAmount.Some?) ==>
      (IsCoherent(doc, eps) <==> doc.tvaDetails != [] && Abs(RowsTotal(doc.tvaDetails) - doc.totalTtc.value) <= eps)
  {
  }

  // ------------------------------------------------------ confidence_proxy

  /** `if doc.vendor:` / `if doc.date:` — present and not empty. */
  predicate Truthy(s: Option<string>) { s.Some? && s.value != [] }

  /** The field weights, in the order of the dictionary. */
  const VendorWeight: real := 0.15
  const DateWeight: real := 0.15
  const TtcWeight: real := 0.25
  const HtWeight: real := 0.15
  const TvaWeight: real := 0.15
  const DetailsWeight: real := 0.15
  const CoherenceBonus: real := 0.10

  /** The weights of the fields present, plus the bonus when coherent, before the cap. */
  function RawScore(doc: Doc): real {
    (if Truthy(doc.vendor) then VendorWeight else 0.0)
    + (if Truthy(doc.date) then DateWeight else 0.0)
    + (if doc.totalTtc.Some? then TtcWeight else 0.0)
    + (if doc.totalHt.Some? then HtWeight else 0.0)
    + (if doc.tvaAmount.Some? then TvaWeight else 0.0)
    + (if doc.tvaDetails != [] then DetailsWeight else 0.0)
    + (if IsCoherent(doc, DefaultEps) then CoherenceBonus else 0.0)
  }

  /** `confidence_proxy` */
  function Proxy(doc: Doc): (c: real)
    ensures 0.0 <= c <= 1.0
    ensures c == 1.0 <==> RawScore(doc) >= 1.0
  {
    WeightsSumToOne();
    if RawScore(doc) < 1.0 then RawScore(doc) else 1.0
  }

  /** The six field weights add up to exactly 1.0. */
  lemma WeightsSumToOne()
    ensures VendorWeight + DateWeight + TtcWeight + HtWeight + TvaWeight + DetailsWeight == 1.0
  {
  }

  /** `confidence_proxy`, with its successive `+=`. */
  method ConfidenceProxy(doc: Doc) returns (score: real)
    ensures score == Proxy(doc)
  {
    score := 0.0;
    if Truthy(doc.vendor) { score := score + VendorWeight; }
    if Truthy(doc.date) { score := score + DateWeight; }
    if doc.totalTtc.Some? { score := score + TtcWeight; }
    if doc.totalHt.Some? { score := score + HtWeight; }
    if doc.tvaAmount.Some? { score := score + TvaWeight; }
    if doc.tvaDetails != [] {
      if |doc.tvaDetails| > 0 { score := score + DetailsWeight; }
    }
    var c := Coherent(doc, DefaultEps);
    if c { score := score + CoherenceBonus; }
    if score > 1.0 { score := 1.0; }
  }

  /**
   * A document with every field present reaches the cap, coherent or not; a
   * document with nothing present scores 0; without a TTC the score is at
   * most 0.75 (the TTC weight and the coherence bonus are both lost).
   */
  lemma ProxyExtremes(doc: Doc)
    ensures (Truthy(doc.vendor) && Truthy(doc.date) && doc.totalTtc.Some? && doc.totalHt.Some?
             && doc.tvaAmount.Some? && doc.tvaDetails != []) ==> Proxy(doc) == 1.0
    ensures (!Truthy(doc.vendor) && !Truthy(doc.date) && doc.totalTtc.None? && doc.totalHt.None?
             && doc.tvaAmount.None? && doc.tvaDetails == []) ==> Proxy(doc) == 0.0
    ensures doc.totalTtc.None? ==> Proxy(doc) <= 0.75
  {
    CoherentCases(doc, DefaultEps);
  }
}
