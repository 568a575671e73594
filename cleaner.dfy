/**
 * `TextCleaner.process` (`core/text/cleaner.py`): U+3002 and NBSP become
 * spaces, whitespace before a line break is dropped, runs of line breaks
 * collapse, and the text is stripped.
 */
module Cleaner {
  import opened Wrappers
  import opened Chars
  import opened Strings

  /** IDEOGRAPHIC FULL STOP, U+3002. */
  const FullStop: char := '\U{3002}'

  // ------------------------------------------------------------ `\s+\n`

  /** The last line break at a position `k` with `lo < k < hi`. */
  function LastBreak(s: string, lo: nat, hi: nat): (k: Option<nat>)
    requires lo <= hi <= |s|
    ensures k.Some? ==> lo < k.value < hi && s[k.value] == '\n'
    ensures k.Some? ==> forall t :: k.value < t < hi ==> s[t] != '\n'
    ensures k.None? ==> forall t :: lo < t < hi ==> s[t] != '\n'
    decreases hi
  {
    if hi <= lo + 1 then None
    else if s[hi - 1] == '\n' then Some(hi - 1)
    else LastBreak(s, lo, hi - 1)
  }

  /**
   * `re.sub(r"\s+\n", "\n", s)`. At each position the greedy `\s+` takes
   * the whole whitespace run and gives back up to its last line break; the
   * match needs one whitespace character before that break.
   */
  function TrimBeforeBreaks(s: string): (r: string)
    decreases |s|
  {
    if s == [] then []
    else
      match LastBreak(s, 0, LeadEnd(s, 0))
      case Some(k) => "\n" + TrimBeforeBreaks(s[k + 1..])
      case None => [s[0]] + TrimBeforeBreaks(s[1..])
  }

  /** No whitespace character stands right before a line break. */
  predicate NoSpaceBeforeBreak(s: string) {
    forall i :: 0 < i < |s| && s[i] == '\n' ==> !IsSpace(s[i - 1])
  }

  /** No line break follows another: there is no empty line. */
  predicate NoDoubleBreak(s: string) {
    forall i :: 0 < i < |s| && s[i] == '\n' ==> s[i - 1] != '\n'
  }

  /** The output starts with a line break only when the leading whitespace run holds one. */
  lemma TrimHead(s: string)
    ensures TrimBeforeBreaks(s) == [] <==> s == []
    ensures s != [] && (forall k :: 0 <= k < LeadEnd(s, 0) ==> s[k] != '\n') ==> TrimBeforeBreaks(s)[0] != '\n'
  {
    if s != [] && s[0] == '\n' {
      assert 0 < LeadEnd(s, 0);
    }
  }

  /** After the substitution no whitespace precedes a line break. */
  lemma {:induction false} TrimNoSpace(s: string)
    ensures NoSpaceBeforeBreak(TrimBeforeBreaks(s))
    decreases |s|
  {
    if s != [] {
      var e := LeadEnd(s, 0);
      var r := TrimBeforeBreaks(s);
      match LastBreak(s, 0, e)
      case Some(k) =>
        var rest := TrimBeforeBreaks(s[k + 1..]);
        TrimNoSpace(s[k + 1..]);
        assert r == "\n" + rest;
        if rest != [] {
          // the run goes on after `k` without another line break
          assert LeadEnd(s[k + 1..], 0) == e - (k + 1) by {
            LeadEndShift(s, k + 1);
          }
          TrimHead(s[k + 1..]);
        }
        forall i | 0 < i < |r| && r[i] == '\n'
          ensures !IsSpace(r[i - 1])
        {
          assert r[i] == rest[i - 1];
        }
      case None =>
        var rest := TrimBeforeBreaks(s[1..]);
        TrimNoSpace(s[1..]);
        assert r == [s[0]] + rest;
        if rest != [] && IsSpace(s[0]) {
          assert LeadEnd(s[1..], 0) == e - 1 by {
            LeadEndShift(s, 1);
          }
          TrimHead(s[1..]);
        }
        forall i | 0 < i < |r| && r[i] == '\n'
          ensures !IsSpace(r[i - 1])
        {
          assert r[i] == rest[i - 1];
        }
    }
  }

  /** Within a whitespace run, the run of a suffix ends where the whole run ends. */
  lemma LeadEndShift(s: string, n: nat)
    requires n <= LeadEnd(s, 0)
    ensures LeadEnd(s[n..], 0) == LeadEnd(s, 0) - n
  {
    var e := LeadEnd(s, 0);
    assert forall j :: 0 <= j < |s| - n ==> s[n..][j] == s[n + j];
    LeadEndUnique(s[n..], 0, e - n);
  }

  /** The run ends at the first non-whitespace character. */
  lemma {:induction false} LeadEndUnique(t: string, i: nat, k: nat)
    requires i <= k <= |t|
    requires forall j :: i <= j < k ==> IsSpace(t[j])
    requires k < |t| ==> !IsSpace(t[k])
    ensures LeadEnd(t, i) == k
    decreases k - i
  {
    if i < k {
      LeadEndUnique(t, i + 1, k);
    }
  }

  /** On text with no whitespace before a line break the substitution changes nothing. */
  lemma {:induction false} TrimIdentity(s: string)
    requires NoSpaceBeforeBreak(s)
    ensures TrimBeforeBreaks(s) == s
    decreases |s|
  {
    if s != [] {
      var e := LeadEnd(s, 0);
      forall t | 0 < t < e
        ensures s[t] != '\n'
      {
        assert IsSpace(s[t - 1]);
      }
      assert LastBreak(s, 0, e).None?;
      assert NoSpaceBeforeBreak(s[1..]) by {
        forall i | 0 < i < |s[1..]| && s[1..][i] == '\n'
          ensures !IsSpace(s[1..][i - 1])
        {
          assert s[1..][i] == s[i + 1] && s[1..][i - 1] == s[i];
        }
      }
      TrimIdentity(s[1..]);
      assert s == [s[0]] + s[1..];
    }
  }

  // ------------------------------------------------------------ `\n+`

  /** The end of the run of line breaks that starts at `i`. */
  function BreakRunEnd(s: string, i: nat): (k: nat)
    requires i <= |s|
    ensures i <= k <= |s| && (k < |s| ==> s[k] != '\n')
    ensures forall j :: i <= j < k ==> s[j] == '\n'
    decreases |s| - i
  {
    if i < |s| && s[i] == '\n' then BreakRunEnd(s, i + 1) else i
  }

  /** `re.sub(r"\n+", "\n", s)` */
  function CollapseBreaks(s: string): (r: string)
    decreases |s|
  {
    if s == [] then []
    else if s[0] == '\n' then "\n" + CollapseBreaks(s[BreakRunEnd(s, 0)..])
    else [s[0]] + CollapseBreaks(s[1..])
  }

  /** The output starts with a line break exactly when the input does. */
  lemma CollapseHead(s: string)
    ensures CollapseBreaks(s) == [] <==> s == []
    ensures s != [] ==> (CollapseBreaks(s)[0] == '\n' <==> s[0] == '\n')
  {
  }

  /** After the substitution no line break follows another. */
  lemma {:induction false} CollapseNoDouble(s: string)
    ensures NoDoubleBreak(CollapseBreaks(s))
    decreases |s|
  {
    if s != [] {
      var r := CollapseBreaks(s);
      var n := if s[0] == '\n' then BreakRunEnd(s, 0) else 1;
      var rest := CollapseBreaks(s[n..]);
      CollapseNoDouble(s[n..]);
      CollapseHead(s[n..]);
      assert r == [r[0]] + rest;
      if s[0] == '\n' && n < |s| {
        assert s[n..][0] == s[n];
      }
      forall i | 0 < i < |r| && r[i] == '\n'
        ensures r[i - 1] != '\n'
      {
        assert r[i] == rest[i - 1];
      }
    }
  }

  /** Text with no empty line is left as it is. */
  lemma {:induction false} CollapseIdentity(s: string)
    requires NoDoubleBreak(s)
    ensures CollapseBreaks(s) == s
    decreases |s|
  {
    if s != [] {
      if s[0] == '\n' && 1 < |s| {
        assert s[1] != '\n';
      }
      assert NoDoubleBreak(s[1..]) by {
        forall i | 0 < i < |s[1..]| && s[1..][i] == '\n'
          ensures s[1..][i - 1] != '\n'
        {
          assert s[1..][i] == s[i + 1] && s[1..][i - 1] == s[i];
        }
      }
      CollapseIdentity(s[1..]);
      assert s == [s[0]] + s[1..];
    }
  }

  // ------------------------------------------------------------ `process`

  /** `TextCleaner.process` */
  function Process(text: string): string {
    var t := ReplaceChar(ReplaceChar(text, FullStop, ' '), Nbsp, ' ');
    Strip(CollapseBreaks(TrimBeforeBreaks(t)))
  }

  /** A slice keeps the property. */
  lemma SliceNoSpace(s: string, a: nat, b: nat)
    requires NoSpaceBeforeBreak(s) && a <= b <= |s|
    ensures NoSpaceBeforeBreak(s[a..b])
  {
    forall i | 0 < i < b - a && s[a..b][i] == '\n'
      ensures !IsSpace(s[a..b][i - 1])
    {
      assert s[a..b][i] == s[a + i] && s[a..b][i - 1] == s[a + i - 1];
    }
  }

  /** Neither substitution brings a character other than a line break. */
  lemma {:induction false} TrimFree(s: string, c: char)
    requires Free(s, c) && c != '\n'
    ensures Free(TrimBeforeBreaks(s), c)
    decreases |s|
  {
    if s != [] {
      var n := match LastBreak(s, 0, LeadEnd(s, 0)) case Some(k) => k + 1 case None => 1;
      TrimFree(s[n..], c);
    }
  }

  lemma {:induction false} CollapseFree(s: string, c: char)
    requires Free(s, c) && c != '\n'
    ensures Free(CollapseBreaks(s), c)
    decreases |s|
  {
    if s != [] {
      var n := if s[0] == '\n' then BreakRunEnd(s, 0) else 1;
      CollapseFree(s[n..], c);
    }
  }

  lemma ReplaceFree(s: string, a: char, b: char)
    requires a != b
    ensures Free(ReplaceChar(s, a, b), a)
  {
  }

  lemma ReplaceKeepsFree(s: string, a: char, b: char, c: char)
    requires Free(s, c) && b != c
    ensures Free(ReplaceChar(s, a, b), c)
  {
  }

  /**
   * The cleaned text holds no U+3002 and no NBSP, no whitespace before a
   * line break and so no empty line, and starts and ends with a visible
   * character.
   */
  lemma ProcessClean(text: string)
    ensures Free(Process(text), FullStop) && Free(Process(text), Nbsp)
    ensures NoSpaceBeforeBreak(Process(text)) && NoDoubleBreak(Process(text))
    ensures Process(text) == [] || (!IsSpace(Process(text)[0]) && !IsSpace(Process(text)[|Process(text)| - 1]))
  {
    var t := ReplaceChar(ReplaceChar(text, FullStop, ' '), Nbsp, ' ');
    ReplacedFree(text);
    TrimmedClean(t);
    StrippedClean(TrimBeforeBreaks(t));
  }

  /** After the two replacements neither U+3002 nor NBSP is left. */
  lemma ReplacedFree(text: string)
    ensures Free(ReplaceChar(ReplaceChar(text, FullStop, ' '), Nbsp, ' '), FullStop)
    ensures Free(ReplaceChar(ReplaceChar(text, FullStop, ' '), Nbsp, ' '), Nbsp)
  {
    var t1 := ReplaceChar(text, FullStop, ' ');
    ReplaceFree(text, FullStop, ' ');
    ReplaceKeepsFree(t1, Nbsp, ' ', FullStop);
    ReplaceFree(t1, Nbsp, ' ');
  }

  /** After `\s+\n` the text is free of both characters, and `\n+` has nothing left to do. */
  lemma TrimmedClean(t: string)
    requires Free(t, FullStop) && Free(t, Nbsp)
    ensures Free(TrimBeforeBreaks(t), FullStop) && Free(TrimBeforeBreaks(t), Nbsp)
    ensures NoSpaceBeforeBreak(TrimBeforeBreaks(t))
    ensures CollapseBreaks(TrimBeforeBreaks(t)) == TrimBeforeBreaks(t)
  {
    TrimNoSpace(t);
    TrimFree(t, FullStop);
    TrimFree(t, Nbsp);
    CollapseIdentity(TrimBeforeBreaks(t));
  }

  lemma StrippedClean(u: string)
    requires Free(u, FullStop) && Free(u, Nbsp) && NoSpaceBeforeBreak(u)
    ensures Free(Strip(u), FullStop) && Free(Strip(u), Nbsp)
    ensures NoSpaceBeforeBreak(Strip(u)) && NoDoubleBreak(Strip(u))
  {
    StripFree(u, FullStop);
    StripFree(u, Nbsp);
    var a := LeadEnd(u, 0);
    SliceNoSpace(u, a, a + |Strip(u)|);
  }

  /** Cleaning a cleaned text changes nothing. */
  lemma ProcessIdempotent(text: string)
    ensures Process(Process(text)) == Process(text)
  {
    var r := Process(text);
    ProcessClean(text);
    assert ReplaceChar(r, FullStop, ' ') == r;
    assert ReplaceChar(r, Nbsp, ' ') == r;
    TrimIdentity(r);
    CollapseIdentity(r);
    if r != [] {
      assert LeadEnd(r, 0) == 0;
      assert TrailStart(r, |r|) == |r|;
    }
  }

  // ------------------------------------------------------------ the visible characters

  /** The characters of `s` that are not whitespace, in order. */
  function Ink(s: string): string
    decreases |s|
  {
    if s == [] then [] else (if IsSpace(s[0]) then [] else [s[0]]) + Ink(s[1..])
  }

  lemma {:induction false} InkAppend(a: string, b: string)
    ensures Ink(a + b) == Ink(a) + Ink(b)
    decreases |a|
  {
    if a == [] {
      assert a + b == b;
    } else {
      var h := if IsSpace(a[0]) then [] else [a[0]];
      assert (a + b)[0] == a[0] && (a + b)[1..] == a[1..] + b;
      InkAppend(a[1..], b);
      calc {
        Ink(a + b);
        h + Ink(a[1..] + b);
        h + (Ink(a[1..]) + Ink(b));
        (h + Ink(a[1..])) + Ink(b);
        Ink(a) + Ink(b);
      }
    }
  }

  /** Whitespace has no ink. */
  lemma {:induction false} InkBlank(s: string)
    requires forall i :: 0 <= i < |s| ==> IsSpace(s[i])
    ensures Ink(s) == []
    decreases |s|
  {
    if s != [] {
      InkBlank(s[1..]);
    }
  }

  /** The substitutions drop or replace whitespace only. */
  lemma {:induction false} TrimInk(s: string)
    ensures Ink(TrimBeforeBreaks(s)) == Ink(s)
    decreases |s|
  {
    if s != [] {
      match LastBreak(s, 0, LeadEnd(s, 0))
      case Some(k) =>
        TrimInk(s[k + 1..]);
        assert s == s[..k + 1] + s[k + 1..];
        InkAppend(s[..k + 1], s[k + 1..]);
        InkBlank(s[..k + 1]);
        InkAppend("\n", TrimBeforeBreaks(s[k + 1..]));
      case None =>
        TrimInk(s[1..]);
        InkAppend([s[0]], TrimBeforeBreaks(s[1..]));
    }
  }

  /** `strip` removes whitespace only. */
  lemma StripInk(s: string)
    ensures Ink(Strip(s)) == Ink(s)
  {
    var a, b := LeadEnd(s, 0), TrailStart(s, |s|);
    if a == |s| {
      InkBlank(s);
    } else {
      assert a < b by {
        if b <= a {
          assert false;
        }
      }
      assert Strip(s) == s[a..b];
      InkSlice(s, a, b);
    }
  }

  /** Cutting whitespace off both ends keeps the ink. */
  lemma InkSlice(s: string, a: nat, b: nat)
    requires a <= b <= |s|
    requires forall j :: 0 <= j < a ==> IsSpace(s[j])
    requires forall j :: b <= j < |s| ==> IsSpace(s[j])
    ensures Ink(s[a..b]) == Ink(s)
  {
    InkBlankSuffix(s, b);
    assert s[..b][a..] == s[a..b];
    InkBlankPrefix(s[..b], a);
  }

  lemma {:induction false} InkBlankPrefix(s: string, a: nat)
    requires a <= |s| && forall j :: 0 <= j < a ==> IsSpace(s[j])
    ensures Ink(s[a..]) == Ink(s)
    decreases a
  {
    if a > 0 {
      assert s[1..][a - 1..] == s[a..];
      InkBlankPrefix(s[1..], a - 1);
    }
  }

  lemma InkBlankSuffix(s: string, b: nat)
    requires b <= |s| && forall j :: b <= j < |s| ==> IsSpace(s[j])
    ensures Ink(s[..b]) == Ink(s)
  {
    var post := s[b..];
    assert forall i :: 0 <= i < |post| ==> post[i] == s[b + i];
    assert s == s[..b] + post;
    InkAppend(s[..b], post);
    InkBlank(post);
  }

  /** NBSP is whitespace, so replacing it leaves the ink alone. */
  lemma {:induction false} ReplaceSpaceInk(s: string)
    ensures Ink(ReplaceChar(s, Nbsp, ' ')) == Ink(s)
    decreases |s|
  {
    if s != [] {
      assert ReplaceChar(s, Nbsp, ' ')[1..] == ReplaceChar(s[1..], Nbsp, ' ');
      ReplaceSpaceInk(s[1..]);
    }
  }

  /** Apart from U+3002, which becomes a space, cleaning keeps every visible character, in order. */
  lemma ProcessInk(text: string)
    ensures Ink(Process(text)) == Ink(ReplaceChar(text, FullStop, ' '))
  {
    var t1 := ReplaceChar(text, FullStop, ' ');
    var t := ReplaceChar(t1, Nbsp, ' ');
    ReplaceSpaceInk(t1);
    var u := TrimBeforeBreaks(t);
    TrimInk(t);
    TrimNoSpace(t);
    CollapseIdentity(u);
    StripInk(u);
  }

  /** The whitespace run around the line break shrinks to the break, and the indentation after it stays. */
  lemma ProcessExample()
    ensures TrimBeforeBreaks("a \n b") == "a\n b"
  {
    var s := "a \n b";
    assert s[0] == 'a';
    LeadEndUnique(s, 0, 0);
    assert LastBreak(s, 0, 0).None?;
    assert s[1..] == " \n b";
    assert TrimBeforeBreaks(s) == [s[0]] + TrimBeforeBreaks(s[1..]);
    ExampleRun();
  }

  lemma ExampleRun()
    ensures TrimBeforeBreaks(" \n b") == "\n b"
  {
    var t := " \n b";
    assert t[0] == ' ' && t[1] == '\n' && t[2] == ' ' && t[3] == 'b';
    LeadEndUnique(t, 0, 3);
    assert LastBreak(t, 0, 3) == Some(1);
    assert t[2..] == " b";
    ExampleIndent();
  }

  lemma ExampleIndent()
    ensures TrimBeforeBreaks(" b") == " b"
  {
    LeadEndUnique(" b", 0, 1);
    assert LastBreak(" b", 0, 1).None?;
    assert " b"[1..] == "b";
    assert TrimBeforeBreaks("b") == "b";
  }
}
