/**
 * `normalize` and `_fix_glued_amounts` (`core/text/normalizer.py`): NBSP
 * becomes a space, `€` is padded with spaces, glued amounts are split,
 * and every line is stripped.
 */
module Normalizer {
  import opened Wrappers
  import opened Chars
  import opened Strings
  import opened Patterns

  const Euro: char := '\U{20AC}'

  // ------------------------------------------------------------ `€` padding

  /** `s.replace("€", " € ")` */
  function PadEuro(s: string): (r: string)
    decreases |s|
  {
    if s == [] then [] else (if s[0] == Euro then [' ', Euro, ' '] else [s[0]]) + PadEuro(s[1..])
  }

  /** Every `€` of the padded text has a space on either side. */
  lemma {:induction false} PadEuroPadded(s: string)
    ensures forall i :: 0 <= i < |PadEuro(s)| && PadEuro(s)[i] == Euro ==>
      0 < i < |PadEuro(s)| - 1 && PadEuro(s)[i - 1] == ' ' && PadEuro(s)[i + 1] == ' '
    decreases |s|
  {
    if s != [] {
      PadEuroPadded(s[1..]);
      var head := if s[0] == Euro then [' ', Euro, ' '] else [s[0]];
      var r := PadEuro(s);
      assert r == head + PadEuro(s[1..]);
      forall i | 0 <= i < |r| && r[i] == Euro
        ensures 0 < i < |r| - 1 && r[i - 1] == ' ' && r[i + 1] == ' '
      {
        if i >= |head| {
          assert r[i] == PadEuro(s[1..])[i - |head|];
        }
      }
    }
  }

  /** Padding adds only spaces and `€`. */
  lemma {:induction false} PadEuroFree(s: string, c: char)
    requires Free(s, c) && c != ' '
    ensures Free(PadEuro(s), c)
    decreases |s|
  {
    if s != [] {
      PadEuroFree(s[1..], c);
      assert s[0] != c;
    }
  }

  // ------------------------------------------------------ glued amounts

  predicate IsSep(c: char) { c == '.' || c == ',' }

  /** `[.,]\d{2}(?=\d)` matches at `i`. */
  predicate GluedAt(s: string, i: nat) {
    i + 3 < |s| && IsSep(s[i]) && IsDigit(s[i + 1]) && IsDigit(s[i + 2]) && IsDigit(s[i + 3])
  }

  /** No two-decimal fraction is immediately followed by a digit. */
  predicate NoGlued(s: string) {
    forall i :: 0 <= i < |s| ==> !GluedAt(s, i)
  }

  /** `_RE_GLUED_AMOUNTS.sub(r"\1 ", s)`: a space after every glued fraction. */
  function Unglue(s: string): (r: string)
    ensures s == [] <==> r == []
    ensures s != [] ==> r[0] == s[0]
    decreases |s|
  {
    if s == [] then []
    else if GluedAt(s, 0) then s[..3] + " " + Unglue(s[3..])
    else [s[0]] + Unglue(s[1..])
  }

  /** After the first substitution no fraction is glued to a digit any more. */
  lemma {:induction false} UnglueNoGlued(s: string)
    ensures NoGlued(Unglue(s))
    decreases |s|
  {
    if s != [] {
      var r := Unglue(s);
      if GluedAt(s, 0) {
        var rest := Unglue(s[3..]);
        UnglueNoGlued(s[3..]);
        assert r == s[..3] + " " + rest;
        forall i | 0 <= i < |r|
          ensures !GluedAt(r, i)
        {
          if i >= 4 {
            assert r[i..] == rest[i - 4..];
            assert !GluedAt(rest, i - 4);
          }
        }
      } else {
        var rest := Unglue(s[1..]);
        UnglueNoGlued(s[1..]);
        assert r == [s[0]] + rest;
        forall i | 0 <= i < |r|
          ensures !GluedAt(r, i)
        {
          if i >= 1 {
            assert !GluedAt(rest, i - 1);
          } else {
            UnglueHead(s);
          }
        }
      }
    }
  }

  /**
   * The first three characters are kept, and the fourth too when no
   * fraction is glued at the start; a text shorter than 4 is left as it is.
   */
  lemma {:induction false} UnglueHead(s: string)
    ensures |s| <= |Unglue(s)|
    ensures forall j :: 0 <= j < 3 && j < |s| ==> Unglue(s)[j] == s[j]
    ensures !GluedAt(s, 0) ==> forall j :: 0 <= j < 4 && j < |s| ==> Unglue(s)[j] == s[j]
    ensures |s| < 4 ==> Unglue(s) == s
    decreases |s|
  {
    if s != [] {
      if GluedAt(s, 0) {
        UnglueHead(s[3..]);
      } else {
        UnglueHead(s[1..]);
        assert Unglue(s) == [s[0]] + Unglue(s[1..]);
        assert |s| < 4 ==> Unglue(s) == [s[0]] + s[1..];
      }
    }
  }

  /** `r` is `s` with spaces inserted. */
  predicate SpacesInserted(r: string, s: string)
    decreases |r|
  {
    if r == [] then s == []
    else (s != [] && r[0] == s[0] && SpacesInserted(r[1..], s[1..])) || (r[0] == ' ' && SpacesInserted(r[1..], s))
  }

  lemma {:induction false} SpacesInsertedCopy(p: string, r: string, s: string)
    requires SpacesInserted(r, s)
    ensures SpacesInserted(p + r, p + s)
    decreases |p|
  {
    if p != [] {
      assert (p + r)[1..] == p[1..] + r;
      assert (p + s)[1..] == p[1..] + s;
      SpacesInsertedCopy(p[1..], r, s);
      assert p + r != [] && p + s != [] && (p + r)[0] == (p + s)[0];
      assert SpacesInserted((p + r)[1..], (p + s)[1..]);
    } else {
      assert p + r == r && p + s == s;
    }
  }

  /** The first substitution only inserts spaces. */
  lemma {:induction false} UnglueInsertsSpaces(s: string)
    ensures SpacesInserted(Unglue(s), s)
    decreases |s|
  {
    if s != [] {
      if GluedAt(s, 0) {
        UnglueInsertsSpaces(s[3..]);
        assert SpacesInserted(" " + Unglue(s[3..]), s[3..]);
        SpacesInsertedCopy(s[..3], " " + Unglue(s[3..]), s[3..]);
        assert s[..3] + s[3..] == s;
        assert s[..3] + " " + Unglue(s[3..]) == s[..3] + (" " + Unglue(s[3..]));
      } else {
        UnglueInsertsSpaces(s[1..]);
        assert ([s[0]] + Unglue(s[1..]))[1..] == Unglue(s[1..]);
      }
    }
  }

  lemma {:induction false} UnglueFree(s: string, c: char)
    requires Free(s, c) && c != ' '
    ensures Free(Unglue(s), c)
    decreases |s|
  {
    if s != [] {
      if GluedAt(s, 0) {
        UnglueFree(s[3..], c);
      } else {
        UnglueFree(s[1..], c);
      }
    }
  }

  /** "30,003,00" becomes "30,00 3,00". */
  lemma UnglueExample()
    ensures Unglue("30,003,00") == "30,00 3,00"
  {
    var s := "30,003,00";
    assert !GluedAt(s, 0) && !GluedAt(s[1..], 0) && GluedAt(s[2..], 0);
    var t := s[2..][3..];
    assert t == "3,00";
    assert !GluedAt(t, 0) && !GluedAt(t[1..], 0) && !GluedAt(t[2..], 0) && !GluedAt(t[3..], 0);
    assert Unglue(t[3..]) == "0";
    assert Unglue(t[2..]) == "00";
    assert Unglue(t[1..]) == ",00";
    assert Unglue(t) == "3,00";
    assert Unglue(s[2..]) == ",00 3,00";
  }

  // ------------------------------------------------- successive amounts

  /** `\d{1,8}[.,]\d{2}` at `i`: where it ends (the digit run must stop at the separator). */
  function AmountEnd(s: string, i: nat): (e: Option<nat>)
    requires i <= |s|
    ensures e.Some? ==> i + 4 <= e.value <= |s| && IsSep(s[e.value - 3]) && IsDigit(s[e.value - 2]) && IsDigit(s[e.value - 1])
  {
    var d := DigitRunEnd(s, i);
    if 1 <= d - i <= 8 && d + 2 < |s| && IsSep(s[d]) && IsDigit(s[d + 1]) && IsDigit(s[d + 2]) then Some(d + 3) else None
  }

  /** `(\d{1,8}[.,]\d{2})(?=(\d{1,8}[.,]\d{2}))` matches at 0: where its group ends. */
  function MultiAt(s: string): (e: Option<nat>)
    ensures e.Some? ==> 4 <= e.value < |s|
  {
    match AmountEnd(s, 0)
    case None => None
    case Some(e) => if AmountEnd(s, e).Some? then Some(e) else None
  }

  /** `_RE_MULTI_AMOUNTS.sub(r"\1 ", s)` */
  function SplitAmounts(s: string): string
    decreases |s|
  {
    if s == [] then []
    else
      match MultiAt(s)
      case Some(e) => s[..e] + " " + SplitAmounts(s[e..])
      case None => [s[0]] + SplitAmounts(s[1..])
  }

  /** After the first substitution the second one finds nothing, so it changes nothing. */
  lemma {:induction false} SplitAmountsNoMatch(s: string)
    requires NoGlued(s)
    ensures SplitAmounts(s) == s
    decreases |s|
  {
    if s != [] {
      if AmountEnd(s, 0).Some? {
        var e := AmountEnd(s, 0).value;
        assert !GluedAt(s, e - 3);
        assert AmountEnd(s, e).None?;
      }
      assert MultiAt(s).None?;
      assert NoGlued(s[1..]) by {
        forall i | 0 <= i < |s[1..]|
          ensures !GluedAt(s[1..], i)
        {
          assert !GluedAt(s, i + 1);
        }
      }
      SplitAmountsNoMatch(s[1..]);
      assert [s[0]] + s[1..] == s;
    }
  }

  /** `_fix_glued_amounts` */
  function FixGluedAmounts(s: string): (r: string)
    ensures r == Unglue(s) && NoGlued(r) && SpacesInserted(r, s)
  {
    UnglueNoGlued(s);
    UnglueInsertsSpaces(s);
    SplitAmountsNoMatch(Unglue(s));
    SplitAmounts(Unglue(s))
  }

  // ------------------------------------------------------------ normalize

  /** The text before it is cut into lines. */
  function Prepared(raw: string): string {
    FixGluedAmounts(PadEuro(ReplaceChar(raw, Nbsp, ' ')))
  }

  /** The stripped lines `normalize` joins. */
  function OutLines(raw: string): seq<string> {
    StripAll(SplitLines(Prepared(raw)))
  }

  /** `normalize` */
  function Normalize(raw: string): string {
    JoinLines(OutLines(raw))
  }

  lemma {:induction false} SplitLinesFree(s: string, c: char)
    requires Free(s, c)
    ensures forall i :: 0 <= i < |SplitLines(s)| ==> Free(SplitLines(s)[i], c)
    decreases |s|
  {
    if s != [] {
      var k := LineEnd(s, 0);
      if k < |s| {
        SplitLinesFree(s[k + BreakWidth(s, k)..], c);
      }
    }
  }

  lemma {:induction false} JoinLinesFree(lines: seq<string>, c: char)
    requires c != '\n' && forall i :: 0 <= i < |lines| ==> Free(lines[i], c)
    ensures Free(JoinLines(lines), c)
    decreases |lines|
  {
    if |lines| > 1 {
      JoinLinesFree(lines[1..], c);
    }
  }

  /** The normalised text has no NBSP. */
  lemma NormalizeNoNbsp(raw: string)
    ensures Free(Normalize(raw), Nbsp)
  {
    var t := ReplaceChar(raw, Nbsp, ' ');
    PadEuroFree(t, Nbsp);
    UnglueFree(PadEuro(t), Nbsp);
    var lines := SplitLines(Prepared(raw));
    SplitLinesFree(Prepared(raw), Nbsp);
    forall i | 0 <= i < |lines|
      ensures Free(StripAll(lines)[i], Nbsp)
    {
      StripFree(lines[i], Nbsp);
    }
    JoinLinesFree(StripAll(lines), Nbsp);
  }

  /** Every line joined has no line boundary and no whitespace at either end. */
  lemma OutLinesStripped(raw: string)
    ensures forall i :: 0 <= i < |OutLines(raw)| ==>
      var l := OutLines(raw)[i];
      NoBreaks(l) && (l == [] || (!IsSpace(l[0]) && !IsSpace(l[|l| - 1])))
  {
    StrippedLinesClean(Prepared(raw));
  }

  /** The stripped lines of any text have no line boundary and no whitespace at either end. */
  lemma StrippedLinesClean(text: string)
    ensures forall i :: 0 <= i < |StripAll(SplitLines(text))| ==>
      var l := StripAll(SplitLines(text))[i];
      NoBreaks(l) && (l == [] || (!IsSpace(l[0]) && !IsSpace(l[|l| - 1])))
  {
    var lines := SplitLines(text);
    forall i | 0 <= i < |lines|
      ensures NoBreaks(Strip(lines[i]))
    {
      StripNoBreaks(lines[i]);
    }
  }

  lemma StripNoBreaks(s: string)
    requires NoBreaks(s)
    ensures NoBreaks(Strip(s))
  {
    var off := LeadEnd(s, 0);
    forall j | 0 <= j < |Strip(s)|
      ensures !IsLineBreak(Strip(s)[j])
    {
      assert Strip(s)[j] == s[off + j];
    }
  }

  lemma LineEndJoin(a: string, b: string)
    requires NoBreaks(a)
    ensures LineEnd(a + "\n" + b, 0) == |a|
  {
    var s := a + "\n" + b;
    assert forall j :: 0 <= j < |a| ==> s[j] == a[j];
    assert s[|a|] == '\n';
    LineEndAt(s, 0, |a|);
  }

  lemma {:induction false} LineEndAt(s: string, i: nat, k: nat)
    requires i <= k < |s| && IsLineBreak(s[k]) && forall j :: i <= j < k ==> !IsLineBreak(s[j])
    ensures LineEnd(s, i) == k
    decreases k - i
  {
    if i < k {
      LineEndAt(s, i + 1, k);
    }
  }

  lemma {:induction false} LineEndWhole(s: string, i: nat)
    requires i <= |s| && forall j :: i <= j < |s| ==> !IsLineBreak(s[j])
    ensures LineEnd(s, i) == |s|
    decreases |s| - i
  {
    if i < |s| {
      LineEndWhole(s, i + 1);
    }
  }

  /**
   * Splitting the normalised text gives back its lines, provided the last
   * one is not empty.
   */
  lemma {:induction false} SplitJoin(lines: seq<string>)
    requires forall i :: 0 <= i < |lines| ==> NoBreaks(lines[i])
    requires lines != [] ==> lines[|lines| - 1] != []
    ensures SplitLines(JoinLines(lines)) == lines
    decreases |lines|
  {
    if |lines| == 1 {
      LineEndWhole(lines[0], 0);
    } else if |lines| > 1 {
      var a, rest := lines[0], JoinLines(lines[1..]);
      var s := a + "\n" + rest;
      LineEndJoin(a, rest);
      assert s[|a|] == '\n';
      assert BreakWidth(s, |a|) == 1;
      assert s[|a| + 1..] == rest;
      assert s[..|a|] == a;
      SplitJoin(lines[1..]);
      assert rest != [] by {
        assert JoinLines(lines[1..]) != [] by {
          if |lines[1..]| == 1 {
          } else {
            assert |JoinLines(lines[1..])| >= 1;
          }
        }
      }
    }
  }

  // ------------------------------------------------------------ line count

  /** The line boundaries of `s`, a `\r\n` pair counted once. */
  function Breaks(s: string): nat
    decreases |s|
  {
    if s == [] then 0
    else if s[0] == '\r' && |s| > 1 && s[1] == '\n' then 1 + Breaks(s[2..])
    else (if IsLineBreak(s[0]) then 1 else 0) + Breaks(s[1..])
  }

  /** `s` ends inside a line rather than on a boundary. */
  predicate OpenEnd(s: string) {
    s != [] && !IsLineBreak(s[|s| - 1])
  }

  /** One line per boundary, plus the unterminated last line. */
  function LineCount(s: string): nat {
    Breaks(s) + if OpenEnd(s) then 1 else 0
  }

  /** How one leading character adds to the boundaries and the end of a text. */
  lemma ConsLines(c: char, t: string)
    ensures Breaks([c] + t) ==
      if c == '\r' && t != [] && t[0] == '\n' then 1 + Breaks(t[1..])
      else (if IsLineBreak(c) then 1 else 0) + Breaks(t)
    ensures OpenEnd([c] + t) == if t == [] then !IsLineBreak(c) else OpenEnd(t)
  {
    assert ([c] + t)[1..] == t;
    if t != [] {
      assert ([c] + t)[2..] == t[1..];
    }
  }

  /** Characters that are not boundaries add no boundary. */
  lemma {:induction false} BreaksSkip(s: string, k: nat)
    requires k <= |s| && forall j :: 0 <= j < k ==> !IsLineBreak(s[j])
    ensures Breaks(s) == Breaks(s[k..])
    ensures k < |s| ==> OpenEnd(s) == OpenEnd(s[k..])
    decreases k
  {
    if k > 0 {
      assert IsLineBreak('\r');
      BreaksSkip(s[1..], k - 1);
      assert s[1..][k - 1..] == s[k..];
    }
  }

  /** `splitlines` gives `LineCount` lines. */
  lemma {:induction false} SplitLinesCount(s: string)
    ensures |SplitLines(s)| == LineCount(s)
    decreases |s|
  {
    if s != [] {
      var k := LineEnd(s, 0);
      BreaksSkip(s, k);
      if k < |s| {
        BreakAt(s, k);
        SplitLinesCount(s[k + BreakWidth(s, k)..]);
      }
    }
  }

  /** The boundary at `k` counts once, and what follows it decides how the text ends. */
  lemma BreakAt(s: string, k: nat)
    requires k < |s| && IsLineBreak(s[k])
    ensures Breaks(s[k..]) == 1 + Breaks(s[k + BreakWidth(s, k)..])
    ensures OpenEnd(s) == OpenEnd(s[k + BreakWidth(s, k)..])
  {
    var w := BreakWidth(s, k);
    var rest := s[k + w..];
    assert s[k..][w..] == rest;
    assert s[k..][1..] == s[k + 1..];
    if rest != [] {
      assert s[|s| - 1] == rest[|rest| - 1];
    }
  }

  /** Two texts whose boundaries sit at the same places have the same boundaries and the same end. */
  lemma {:induction false} SameBreaks(r: string, s: string)
    requires |r| == |s|
    requires forall i :: 0 <= i < |s| ==>
      (IsLineBreak(r[i]) <==> IsLineBreak(s[i])) && (r[i] == '\r' <==> s[i] == '\r') && (r[i] == '\n' <==> s[i] == '\n')
    ensures Breaks(r) == Breaks(s) && OpenEnd(r) == OpenEnd(s)
    decreases |s|
  {
    if s != [] {
      SameBreaks(r[1..], s[1..]);
      if |s| > 1 {
        SameBreaks(r[2..], s[2..]);
      }
    }
  }

  /** The NBSP replacement moves no boundary. */
  lemma ReplaceNbspLines(s: string)
    ensures LineCount(ReplaceChar(s, Nbsp, ' ')) == LineCount(s)
  {
    SameBreaks(ReplaceChar(s, Nbsp, ' '), s);
  }

  /** The padding of `€` moves no boundary. */
  lemma {:induction false} PadEuroLines(s: string)
    ensures Breaks(PadEuro(s)) == Breaks(s) && OpenEnd(PadEuro(s)) == OpenEnd(s)
    decreases |s|
  {
    if s != [] {
      PadEuroLines(s[1..]);
      if s[0] == Euro {
        PadEuroAtEuro(s);
      } else {
        if |s| > 1 && s[1] != Euro {
          PadEuroLines(s[1..][1..]);
        }
        PadEuroAtOther(s);
      }
    }
  }

  /** `PadEuroLines` at a `€`: the three characters written are no boundary. */
  lemma PadEuroAtEuro(s: string)
    requires s != [] && s[0] == Euro
    requires Breaks(PadEuro(s[1..])) == Breaks(s[1..]) && OpenEnd(PadEuro(s[1..])) == OpenEnd(s[1..])
    ensures Breaks(PadEuro(s)) == Breaks(s) && OpenEnd(PadEuro(s)) == OpenEnd(s)
  {
    var t := PadEuro(s[1..]);
    assert s[1..] == [] <==> t == [];
    assert PadEuro(s) == [' ', Euro, ' '] + t;
    BreaksSkip(PadEuro(s), 3);
    assert PadEuro(s)[3..] == t;
    BreaksSkip(s, 1);
  }

  /** `PadEuroLines` at another character: it is kept, and so is whether it pairs with the next. */
  lemma PadEuroAtOther(s: string)
    requires s != [] && s[0] != Euro
    requires Breaks(PadEuro(s[1..])) == Breaks(s[1..]) && OpenEnd(PadEuro(s[1..])) == OpenEnd(s[1..])
    requires |s| > 1 && s[1] != Euro ==>
      Breaks(PadEuro(s[1..][1..])) == Breaks(s[1..][1..]) && OpenEnd(PadEuro(s[1..][1..])) == OpenEnd(s[1..][1..])
    ensures Breaks(PadEuro(s)) == Breaks(s) && OpenEnd(PadEuro(s)) == OpenEnd(s)
  {
    var t := PadEuro(s[1..]);
    assert s[1..] == [] <==> t == [];
    assert PadEuro(s) == [s[0]] + t;
    ConsLines(s[0], t);
    ConsLines(s[0], s[1..]);
    if s[1..] != [] {
      assert t[0] == if s[1] == Euro then ' ' else s[1];
      if s[1] != Euro {
        assert t[1..] == PadEuro(s[1..][1..]);
      }
    }
  }

  /** The split of glued amounts moves no boundary. */
  lemma {:induction false} UnglueLines(s: string)
    ensures Breaks(Unglue(s)) == Breaks(s) && OpenEnd(Unglue(s)) == OpenEnd(s)
    decreases |s|
  {
    if s != [] {
      if GluedAt(s, 0) {
        var u := Unglue(s[3..]);
        UnglueLines(s[3..]);
        assert Unglue(s) == s[..3] + " " + u;
        BreaksSkip(Unglue(s), 4);
        assert Unglue(s)[4..] == u;
        BreaksSkip(s, 3);
      } else {
        var u := Unglue(s[1..]);
        UnglueLines(s[1..]);
        assert Unglue(s) == [s[0]] + u;
        ConsLines(s[0], u);
        ConsLines(s[0], s[1..]);
        if s[1..] != [] && s[1] == '\n' {
          assert !GluedAt(s[1..], 0);
          assert u[1..] == Unglue(s[1..][1..]);
          UnglueLines(s[1..][1..]);
        }
      }
    }
  }

  /** The text before it is cut has as many lines as the raw text. */
  lemma PreparedLineCount(raw: string)
    ensures |SplitLines(Prepared(raw))| == |SplitLines(raw)|
  {
    var a := ReplaceChar(raw, Nbsp, ' ');
    ReplaceNbspLines(raw);
    PadEuroLines(a);
    UnglueLines(PadEuro(a));
    SplitLinesCount(raw);
    SplitLinesCount(Prepared(raw));
  }

  /** Joined lines that hold no boundary: one boundary between each two, and an open end unless the last is empty. */
  lemma {:induction false} JoinLinesCount(lines: seq<string>)
    requires lines != [] && forall i :: 0 <= i < |lines| ==> NoBreaks(lines[i])
    ensures Breaks(JoinLines(lines)) == |lines| - 1
    ensures OpenEnd(JoinLines(lines)) <==> lines[|lines| - 1] != []
    decreases |lines|
  {
    if |lines| == 1 {
      BreaksSkip(lines[0], |lines[0]|);
      assert lines[0][|lines[0]|..] == [];
    } else {
      var a, rest := lines[0], JoinLines(lines[1..]);
      var s := a + "\n" + rest;
      assert NoBreaks(a);
      BreaksSkip(s, |a|);
      assert s[|a|..] == ['\n'] + rest;
      ConsLines('\n', rest);
      JoinLinesCount(lines[1..]);
    }
  }

  /**
   * `normalize` strips one line per line of the raw text, and the
   * normalised text has that many lines, one fewer when the last of them
   * is blank: "a\n " has two lines and normalises to "a\n", which has one.
   */
  lemma NormalizeLineCount(raw: string)
    ensures |OutLines(raw)| == |SplitLines(raw)|
    ensures |SplitLines(Normalize(raw))| ==
      if OutLines(raw) != [] && OutLines(raw)[|OutLines(raw)| - 1] == [] then |SplitLines(raw)| - 1
      else |SplitLines(raw)|
  {
    PreparedLineCount(raw);
    OutLinesStripped(raw);
    SplitLinesCount(Normalize(raw));
    if OutLines(raw) != [] {
      JoinLinesCount(OutLines(raw));
    }
  }

  lemma BlankLastLine()
    ensures |SplitLines("a\n ")| == 2
    ensures Normalize("a\n ") == "a\n"
    ensures |SplitLines("a\n")| == 1
  {
    SplitBlank();
    PreparedBlank();
    OutLinesBlank();
    SplitOutBlank();
  }

  lemma SplitBlank()
    ensures SplitLines("a\n ") == ["a", " "]
  {
    var raw := "a\n ";
    assert LineEnd(raw, 0) == 1;
    assert BreakWidth(raw, 1) == 1;
    assert raw[2..] == " ";
    assert raw[..1] == "a";
    assert LineEnd(" ", 0) == 1;
    assert SplitLines(" ") == [" "];
  }

  lemma PreparedBlank()
    ensures Prepared("a\n ") == "a\n "
  {
    var raw := "a\n ";
    assert ReplaceChar(raw, Nbsp, ' ') == raw;
    PadEuroBlank();
    UnglueBlank();
  }

  lemma OutLinesBlank()
    ensures StripAll(["a", " "]) == ["a", ""]
  {
    var lines := ["a", " "];
    var r := StripAll(lines);
    StripBlank();
    assert r[0] == Strip(lines[0]) == "a";
    assert r[1] == Strip(lines[1]) == "";
    assert r == [r[0], r[1]];
  }

  lemma StripBlank()
    ensures Strip(" ") == "" && Strip("a") == "a"
  {
    assert IsSpace(" "[0]);
    assert !IsSpace("a"[0]);
  }

  lemma SplitOutBlank()
    ensures JoinLines(["a", ""]) == "a\n"
    ensures SplitLines("a\n") == ["a"]
  {
    var out := "a\n";
    assert LineEnd(out, 0) == 1;
    assert BreakWidth(out, 1) == 1;
    assert out[2..] == [];
    assert out[..1] == "a";
  }

  lemma PadEuroBlank()
    ensures PadEuro("a\n ") == "a\n "
  {
    assert "a\n "[1..] == "\n ";
    assert "\n "[1..] == " ";
    assert PadEuro(" ") == " ";
  }

  lemma UnglueBlank()
    ensures Unglue("a\n ") == "a\n "
  {
    assert "a\n "[1..] == "\n ";
    assert "\n "[1..] == " ";
    assert Unglue(" ") == " ";
  }
}
