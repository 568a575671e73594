/** The `str` operations the modelled code relies on, with Python's semantics. */
module Strings {
  import opened Wrappers
  import opened Chars

  /** The first position at or after `i` that is not whitespace (or `|s|`). */
  function LeadEnd(s: string, i: nat): (k: nat)
    requires i <= |s|
    ensures i <= k <= |s|
    ensures forall j :: i <= j < k ==> IsSpace(s[j])
    ensures k < |s| ==> !IsSpace(s[k])
    decreases |s| - i
  {
    if i < |s| && IsSpace(s[i]) then LeadEnd(s, i + 1) else i
  }

  /** The position after the last character before `j` that is not whitespace (or 0). */
  function TrailStart(s: string, j: nat): (k: nat)
    requires j <= |s|
    ensures k <= j
    ensures forall t :: k <= t < j ==> IsSpace(s[t])
    ensures k > 0 ==> !IsSpace(s[k - 1])
    decreases j
  {
    if j > 0 && IsSpace(s[j - 1]) then TrailStart(s, j - 1) else j
  }

  /** `c` does not occur in `s`. */
  predicate Free(s: string, c: char) {
    forall i :: 0 <= i < |s| ==> s[i] != c
  }

  /** `str.strip()`: the slice of `s` left after removing leading and trailing whitespace. */
  function Strip(s: string): (r: string)
    ensures r == [] || (!IsSpace(r[0]) && !IsSpace(r[|r| - 1]))
    ensures LeadEnd(s, 0) + |r| <= |s| && r == s[LeadEnd(s, 0)..LeadEnd(s, 0) + |r|]
    ensures forall k :: LeadEnd(s, 0) + |r| <= k < |s| ==> IsSpace(s[k])
    ensures r == [] <==> LeadEnd(s, 0) == |s|
  {
    var a := LeadEnd(s, 0);
    var b := TrailStart(s, |s|);
    if a == |s| then []
    else
      assert a < b by {
        if b <= a {
          assert false;
        }
      }
      s[a..b]
  }

  /** A string with no line boundary in it. */
  predicate NoBreaks(l: string) {
    forall j :: 0 <= j < |l| ==> !IsLineBreak(l[j])
  }

  /** The first line boundary at or after `i` (or `|s|`). */
  function LineEnd(s: string, i: nat): (k: nat)
    requires i <= |s|
    ensures i <= k <= |s|
    ensures forall j :: i <= j < k ==> !IsLineBreak(s[j])
    ensures k < |s| ==> IsLineBreak(s[k])
    decreases |s| - i
  {
    if i == |s| || IsLineBreak(s[i]) then i else LineEnd(s, i + 1)
  }

  /** `\r\n` is one boundary; every other boundary is one character. */
  function BreakWidth(s: string, k: nat): (w: nat)
    requires k < |s|
    ensures 1 <= w <= 2 && k + w <= |s|
  {
    if s[k] == '\r' && k + 1 < |s| && s[k + 1] == '\n' then 2 else 1
  }

  /** `str.splitlines()`: a final boundary does not open an empty last line. */
  function SplitLines(s: string): (lines: seq<string>)
    ensures forall i :: 0 <= i < |lines| ==> NoBreaks(lines[i])
    ensures s == [] <==> lines == []
    decreases |s|
  {
    if s == [] then []
    else
      var k := LineEnd(s, 0);
      if k == |s| then [s]
      else [s[..k]] + SplitLines(s[k + BreakWidth(s, k)..])
  }

  /** `"\n".join(lines)` */
  function JoinLines(lines: seq<string>): string
  {
    if lines == [] then []
    else if |lines| == 1 then lines[0]
    else lines[0] + "\n" + JoinLines(lines[1..])
  }

  /** `str.strip()` adds no character. */
  lemma StripFree(s: string, c: char)
    requires Free(s, c)
    ensures Free(Strip(s), c)
  {
    var off := LeadEnd(s, 0);
    forall i | 0 <= i < |Strip(s)|
      ensures Strip(s)[i] != c
    {
      assert Strip(s)[i] == s[off + i];
    }
  }

  /** `[ln.strip() for ln in lines]` */
  function StripAll(lines: seq<string>): (r: seq<string>)
    ensures |r| == |lines|
    ensures forall i :: 0 <= i < |r| ==> r[i] == Strip(lines[i])
  {
    MapStrings(Strip, lines)
  }

  /** `f` applied to every element. */
  function MapStrings(f: string -> string, xs: seq<string>): (r: seq<string>)
    ensures |r| == |xs|
    ensures forall i :: 0 <= i < |r| ==> r[i] == f(xs[i])
  {
    if xs == [] then [] else [f(xs[0])] + MapStrings(f, xs[1..])
  }

  /** `[ln.strip() for ln in text.splitlines()]`, the line list every rule scans. */
  function StrippedLines(text: string): seq<string>
  {
    StripAll(SplitLines(text))
  }

  /** `str.lower()` */
  function LowerStr(s: string): (r: string)
    ensures |r| == |s|
    ensures forall i :: 0 <= i < |s| ==> r[i] == Lower(s[i])
  {
    seq(|s|, i requires 0 <= i < |s| => Lower(s[i]))
  }

  /** `lit` (given in lower case) occurs at `p`, compared case-insensitively. */
  predicate MatchCI(s: string, p: nat, lit: string) {
    p + |lit| <= |s| && forall k :: 0 <= k < |lit| ==> Lower(s[p + k]) == lit[k]
  }

  predicate OccursAt(txt: string, pat: string, p: nat) {
    p + |pat| <= |txt| && txt[p..p + |pat|] == pat
  }

  function FindFrom(txt: string, pat: string, p: nat): (r: Option<nat>)
    requires p <= |txt|
    ensures r.Some? ==> p <= r.value && OccursAt(txt, pat, r.value)
    ensures forall q: nat :: p <= q && (r.None? || q < r.value) ==> !OccursAt(txt, pat, q)
    decreases |txt| - p
  {
    if OccursAt(txt, pat, p) then Some(p)
    else if p == |txt| then None
    else FindFrom(txt, pat, p + 1)
  }

  /** `txt.find(pat)`, with `None` for Python's -1. */
  function Find(txt: string, pat: string): (r: Option<nat>)
    ensures r.Some? ==> OccursAt(txt, pat, r.value)
    ensures forall q: nat :: (r.None? || q < r.value) ==> !OccursAt(txt, pat, q)
  {
    FindFrom(txt, pat, 0)
  }

  /** `pat in txt` */
  predicate Contains(txt: string, pat: string) {
    Find(txt, pat).Some?
  }

  /** `s.replace(a, b)` for single characters. */
  function ReplaceChar(s: string, a: char, b: char): (r: string)
    ensures |r| == |s|
    ensures forall i :: 0 <= i < |s| ==> r[i] == if s[i] == a then b else s[i]
  {
    seq(|s|, i requires 0 <= i < |s| => if s[i] == a then b else s[i])
  }

  /** `" ".join(parts)` */
  function JoinSpace(parts: seq<string>): string
  {
    if parts == [] then []
    else if |parts| == 1 then parts[0]
    else parts[0] + " " + JoinSpace(parts[1..])
  }

  /** `sum(c.isalpha() for c in s)` */
  function CountAlpha(s: string): (n: nat)
    ensures n <= |s|
  {
    if s == [] then 0 else CountAlpha(s[..|s| - 1]) + (if IsAlpha(s[|s| - 1]) then 1 else 0)
  }

  /** `sum(c.isdigit() for c in s)` */
  function CountDigits(s: string): (n: nat)
    ensures n <= |s|
  {
    if s == [] then 0 else CountDigits(s[..|s| - 1]) + (if IsPyDigit(s[|s| - 1]) then 1 else 0)
  }
}
