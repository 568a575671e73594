/**
 * `extract_vendor` (`core/parsing/vendor_extractor.py`): among the first
 * twelve non-empty stripped lines, the candidates are those that mention no
 * administrative or address word and have more letters than digits; the
 * first upper-case candidate of reasonable length wins, else the first
 * candidate.
 */
module VendorExtractor {
  import opened Wrappers
  import opened Chars
  import opened Strings
  import opened Patterns

  // -------------------------------------------------------------------- BAD

  /** The plain alternatives of `BAD` (lower case; `BAD` is case-insensitive). */
  const BadWords: seq<string> := [
    "siret", "naf", "tva", "rcs", "france", "www.", "http", "tel", "t\U{E9}l", "telephone",
    "instagram", "facebook", "@", "cours", "avenue", "rue", "boulevard", "place"]

  /** `centre\s+commercial` at `p`. */
  predicate CentreCommercialAt(s: string, p: nat)
    requires p <= |s|
  {
    MatchCI(s, p, "centre")
    && var q := SkipSpaces(s, p + 6);
    q > p + 6 && MatchCI(s, q, "commercial")
  }

  /** `\b\d{5}\b` at `p`: a number of exactly five digits. */
  predicate FiveDigitsAt(s: string, p: nat)
    requires p <= |s|
  {
    p + 5 <= |s| && WordBoundary(s, p) && (forall j :: p <= j < p + 5 ==> IsDigit(s[j])) && WordBoundary(s, p + 5)
  }

  /** Some alternative of `BAD` matches at `p`. */
  predicate BadAt(s: string, p: nat)
    requires p <= |s|
  {
    || (exists k :: 0 <= k < |BadWords| && MatchCI(s, p, BadWords[k]))
    || CentreCommercialAt(s, p)
    || FiveDigitsAt(s, p)
  }

  /** `BAD.search(s[p:])` finds something (scanning from `p`). */
  function BadFrom(s: string, p: nat): (b: bool)
    requires p <= |s|
    ensures b <==> exists q :: p <= q <= |s| && BadAt(s, q)
    decreases |s| - p
  {
    if BadAt(s, p) then true
    else if p == |s| then false
    else BadFrom(s, p + 1)
  }

  /** `BAD.search(ln)` */
  predicate Bad(ln: string) {
    BadFrom(ln, 0)
  }

  // ------------------------------------------------------------- the lines

  /** The elements of `xs` that satisfy `f`, in order: `[x for x in xs if f(x)]`. */
  function Filter<T>(f: T -> bool, xs: seq<T>): (r: seq<T>)
    ensures |r| <= |xs|
    ensures forall i :: 0 <= i < |r| ==> r[i] in xs && f(r[i])
  {
    if xs == [] then [] else Filter(f, xs[..|xs| - 1]) + (if f(xs[|xs| - 1]) then [xs[|xs| - 1]] else [])
  }

  /** The first element satisfying `f` heads the filtered list; nothing is kept when none does. */
  lemma {:induction false} FilterFirst<T>(f: T -> bool, xs: seq<T>)
    ensures Filter(f, xs) == [] <==> forall k :: 0 <= k < |xs| ==> !f(xs[k])
    ensures Filter(f, xs) != [] ==>
      exists k :: 0 <= k < |xs| && Filter(f, xs)[0] == xs[k] && f(xs[k]) && forall j :: 0 <= j < k ==> !f(xs[j])
  {
    if xs != [] {
      var init := xs[..|xs| - 1];
      FilterFirst(f, init);
      if Filter(f, init) != [] {
        var k :| 0 <= k < |init| && Filter(f, init)[0] == init[k] && f(init[k]) && forall j :: 0 <= j < k ==> !f(init[j]);
        assert xs[k] == init[k];
        assert forall j :: 0 <= j < k ==> xs[j] == init[j];
      } else if f(xs[|xs| - 1]) {
        assert forall j :: 0 <= j < |xs| - 1 ==> xs[j] == init[j];
      }
    }
  }

  /** Filtering by `g` what was filtered by `f` is filtering by both. */
  lemma {:induction false} FilterFilter<T>(f: T -> bool, g: T -> bool, both: T -> bool, xs: seq<T>)
    requires forall x :: both(x) == (f(x) && g(x))
    ensures Filter(g, Filter(f, xs)) == Filter(both, xs)
  {
    if xs != [] {
      var init := xs[..|xs| - 1];
      FilterFilter(f, g, both, init);
      var x := xs[|xs| - 1];
      if f(x) {
        assert (Filter(f, init) + [x])[..|Filter(f, init)|] == Filter(f, init);
      } else {
        assert Filter(f, init) + [] == Filter(f, init);
      }
    }
  }

  /** One more element: it is kept when it satisfies `f`. */
  lemma FilterSnoc<T>(f: T -> bool, xs: seq<T>, i: nat)
    requires i < |xs|
    ensures Filter(f, xs[..i + 1]) == Filter(f, xs[..i]) + if f(xs[i]) then [xs[i]] else []
  {
    assert xs[..i + 1][..i] == xs[..i];
  }

  predicate NonEmpty(ln: string) { ln != [] }

  /** `[ln.strip() for ln in text.splitlines() if ln.strip()]` */
  function Lines(text: string): (lines: seq<string>)
    ensures forall i :: 0 <= i < |lines| ==> lines[i] != [] && lines[i] in StrippedLines(text)
  {
    Filter(NonEmpty, StrippedLines(text))
  }

  /** `lines[:12]` */
  function Head(lines: seq<string>): (h: seq<string>)
    ensures |h| <= |lines| && |h| <= 12 && h == lines[..|h|]
    ensures |h| == 12 || h == lines
  {
    if |lines| > 12 then lines[..12] else lines
  }

  /** A line the loop keeps: no `BAD` match, more letters than digits, three characters at least. */
  predicate Candidate(ln: string) {
    !Bad(ln) && !(CountAlpha(ln) <= CountDigits(ln) || |ln| < 3)
  }

  /** `c.upper() == c and 2 <= len(c) <= 40` */
  predicate UpperLine(c: string) {
    (forall i :: 0 <= i < |c| ==> !IsLowerCased(c[i])) && 2 <= |c| <= 40
  }

  /** A candidate that is an upper-case line. */
  predicate Preferred(c: string) {
    Candidate(c) && UpperLine(c)
  }

  /** What `extract_vendor` returns, given the candidates the loop kept. */
  function Choose(cand: seq<string>): (r: Option<string>)
    ensures r.None? <==> cand == []
    ensures r.Some? ==> r.value in cand
  {
    if cand == [] then None
    else
      var upper := Filter(UpperLine, cand);
      if upper != [] then Some(upper[0]) else Some(cand[0])
  }

  /** `extract_vendor` as a value. */
  function Vendor(text: string): Option<string>
  {
    Choose(Filter(Candidate, Head(Lines(text))))
  }

  /** `extract_vendor` */
  method ExtractVendor(text: string) returns (r: Option<string>)
    ensures r == Vendor(text)
  {
    var lines := Lines(text);
    var head := Head(lines);
    var cand: seq<string> := [];
    for i := 0 to |head|
      invariant cand == Filter(Candidate, head[..i])
    {
      var ln := head[i];
      FilterSnoc(Candidate, head, i);
      if Bad(ln) {
        continue;
      }
      var letters := CountAlpha(ln);
      var digits := CountDigits(ln);
      if letters <= digits || |ln| < 3 {
        continue;
      }
      cand := cand + [ln];
    }
    assert head[..|head|] == head;
    if cand == [] {
      return None;
    }
    var upper := Filter(UpperLine, cand);
    if upper != [] {
      return Some(upper[0]);
    }
    return Some(cand[0]);
  }

  /** The vendor is `None` exactly when none of the first twelve lines is a candidate. */
  lemma VendorNone(text: string)
    ensures var head := Head(Lines(text));
      Vendor(text).None? <==> forall k :: 0 <= k < |head| ==> !Candidate(head[k])
  {
    FilterFirst(Candidate, Head(Lines(text)));
  }

  /** With an upper-case candidate among the first twelve lines, the vendor is the first one. */
  lemma VendorPreferred(text: string)
    ensures var head := Head(Lines(text));
      (exists k :: 0 <= k < |head| && Preferred(head[k])) ==>
        exists k :: 0 <= k < |head| && Vendor(text) == Some(head[k]) && Preferred(head[k])
          && forall j :: 0 <= j < k ==> !Preferred(head[j])
  {
    var head := Head(Lines(text));
    FilterFilter(Candidate, UpperLine, Preferred, head);
    FilterFirst(Preferred, head);
  }

  /** Without one, the vendor is the first candidate. */
  lemma VendorFirstCandidate(text: string)
    ensures var head := Head(Lines(text));
      (forall k :: 0 <= k < |head| ==> !Preferred(head[k])) ==>
        forall v :: Vendor(text) == Some(v) ==>
          exists k :: 0 <= k < |head| && v == head[k] && Candidate(head[k])
            && forall j :: 0 <= j < k ==> !Candidate(head[j])
  {
    var head := Head(Lines(text));
    FilterFilter(Candidate, UpperLine, Preferred, head);
    FilterFirst(Preferred, head);
    FilterFirst(Candidate, head);
  }

  /** The vendor is a candidate and one of the text's lines, stripped and not empty. */
  lemma VendorIsLine(text: string)
    ensures Vendor(text).Some? ==>
      Candidate(Vendor(text).value) && Vendor(text).value != []
      && exists k :: 0 <= k < |SplitLines(text)| && Vendor(text).value == Strip(SplitLines(text)[k])
  {
    var lines := Lines(text);
    var head := Head(lines);
    var cand := Filter(Candidate, head);
    if cand != [] {
      var v := Vendor(text).value;
      assert v in cand;
      assert v in lines;
      var stripped := StrippedLines(text);
      assert v in stripped;
      var i :| 0 <= i < |stripped| && stripped[i] == v;
      assert v == Strip(SplitLines(text)[i]);
    }
  }
}
