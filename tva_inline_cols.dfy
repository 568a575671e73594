/**
 * `TvaInlineColsRule` (`core/parsing/rules/tva_inline_cols.py`): a VAT table
 * whose header names TAUX, TVA, HT and TTC, followed by one line per rate:
 *
 *     CODE   Taux    TVA     HT      TTC
 *     B      10.00%  2,44    24,36   26,80
 */
module TvaInlineCols {
  import opened Wrappers
  import opened Chars
  import opened Strings
  import opened BaseRule
  import opened Patterns
  import Normalizer

  // ----------------------------------------------------------------- header

  /**
   * `header.search(ln)`: `\b(taux).*(tva).*(ht).*(ttc)\b`. Taking the earliest
   * occurrence of each word leaves the most room for the next ones, so the
   * pattern matches exactly when this chain of earliest occurrences exists.
   */
  predicate IsHeader(ln: string) {
    match FirstCI(ln, 0, "taux", true, false)
    case None => false
    case Some(a) =>
      a + 4 <= |ln| &&
      match FirstCI(ln, a + 4, "tva", false, false)
      case None => false
      case Some(b) =>
        b + 3 <= |ln| &&
        match FirstCI(ln, b + 3, "ht", false, false)
        case None => false
        case Some(c) => c + 2 <= |ln| && FirstCI(ln, c + 2, "ttc", false, true).Some?
  }

  // -------------------------------------------------------------------- row

  /** `[A-Z0-9\-]` under `(?i)`. */
  predicate CodeChar(c: char) {
    'A' <= c <= 'Z' || 'a' <= c <= 'z' || IsDigit(c) || c == '-'
  }

  function CodeRunEnd(s: string, p: nat): (q: nat)
    requires p <= |s|
    ensures p <= q <= |s|
    ensures forall j :: p <= j < q ==> CodeChar(s[j])
    ensures q == |s| || !CodeChar(s[q])
    decreases |s| - p
  {
    if p < |s| && CodeChar(s[p]) then CodeRunEnd(s, p + 1) else p
  }

  /** The groups of a row: the rate, and the spans of the TVA and HT amounts and the start of TTC. */
  datatype RowGroups = RowGroups(rate: Rate, tvaStart: nat, tvaEnd: nat, htStart: nat, htEnd: nat, ttcStart: nat)

  predicate ValidRow(s: string, g: RowGroups) {
    RateShape(g.rate)
    && g.tvaStart < g.tvaEnd < g.htStart < g.htEnd < g.ttcStart
    && NumberStart(s, g.tvaStart) && NumberStart(s, g.htStart) && NumberStart(s, g.ttcStart)
  }

  /**
   * The last two amounts, the second starting at `y`: `([\-]?\d[\d\s.,]*)\s+([\-]?\d[\d\s.,]*)`.
   * The first group gives back characters until the rest matches, so its end
   * is the last whitespace position `j` (searched downwards from `x`) after
   * whose whitespace run an amount starts. Returns that end and where the
   * third amount starts.
   */
  function LastSplit(s: string, lo: nat, x: nat): (r: Option<(nat, nat)>)
    requires lo <= x <= |s|
    ensures r.Some? ==> lo <= r.value.0 < x && r.value.0 < r.value.1 && NumberStart(s, r.value.1)
    ensures r.Some? ==> IsSpace(s[r.value.0]) && r.value.1 == SkipSpaces(s, r.value.0)
    decreases x - lo
  {
    if x == lo then None
    else
      var j := x - 1;
      if IsSpace(s[j]) && NumberStart(s, SkipSpaces(s, j)) then Some((j, SkipSpaces(s, j)))
      else LastSplit(s, lo, j)
  }

  /** The split of the third and fourth groups when the third starts at `y`. */
  function Split34(s: string, y: nat): (r: Option<(nat, nat)>)
    requires NumberStart(s, y)
    ensures r.Some? ==> y < r.value.0 < r.value.1 && NumberStart(s, r.value.1)
  {
    LastSplit(s, y + HeadLen(s, y), NumberEnd(s, y))
  }

  /**
   * The split of the second and third groups, the second starting at `p`:
   * the last end of the second group for which the third and fourth groups
   * still match.
   */
  function Split23(s: string, lo: nat, x: nat): (r: Option<(nat, nat)>)
    requires lo <= x <= |s|
    ensures r.Some? ==> lo <= r.value.0 < x && r.value.0 < r.value.1 && NumberStart(s, r.value.1)
    ensures r.Some? ==> Split34(s, r.value.1).Some?
    decreases x - lo
  {
    if x == lo then None
    else
      var j := x - 1;
      var y := SkipSpaces(s, j);
      if IsSpace(s[j]) && NumberStart(s, y) && Split34(s, y).Some? then Some((j, y))
      else Split23(s, lo, j)
  }

  /** `\s*%?\s+` after the rate token ending at `e`: where the amounts begin. */
  function PercentGap(s: string, e: nat): (p: Option<nat>)
    requires e <= |s|
    ensures p.Some? ==> e < p.value <= |s|
  {
    var p1 := SkipSpaces(s, e);
    if p1 < |s| && s[p1] == '%' then
      var p2 := SkipSpaces(s, p1 + 1);
      if p2 == p1 + 1 then None else Some(p2)
    else if p1 == e then None
    else Some(p1)
  }

  /** `row.match(ln)` */
  function RowMatch(s: string): (g: Option<RowGroups>)
    ensures g.Some? ==> ValidRow(s, g.value)
  {
    var c := CodeRunEnd(s, 0);
    var w := SkipSpaces(s, c);
    if c == 0 || w == c then None
    else
      match RateAt(s, w)
      case None => None
      case Some((e, rate)) =>
        match PercentGap(s, e)
        case None => None
        case Some(p) =>
          if !NumberStart(s, p) then None
          else
            match Split23(s, p + HeadLen(s, p), NumberEnd(s, p))
            case None => None
            case Some((tvaEnd, htStart)) =>
              var (htEnd, ttcStart) := Split34(s, htStart).value;
              Some(RowGroups(rate, p, tvaEnd, htStart, htEnd, ttcStart))
  }

  /** Lines 39-44: the row read from a matching line, columns rate, TVA, HT, TTC, then `fix_ttc`. */
  function ReadRow(s: string, g: RowGroups): (r: Result<TaxRow>)
    requires ValidRow(s, g)
    ensures r.Success? ==> RowBalanced(r.value) && r.value.rate == Some(RateValue(g.rate))
    ensures r.Success? ==>
      var tva, ht := ToDec(s[g.tvaStart..g.tvaEnd]), ToDec(s[g.htStart..g.htEnd]);
      tva.Success? && ht.Success? && r.value.tva == Some(tva.value) && r.value.baseHt == Some(ht.value)
    ensures r.Failure? <==>
      ToDec(s[g.tvaStart..g.tvaEnd]).Failure? || ToDec(s[g.htStart..g.htEnd]).Failure?
      || ToDec(s[g.ttcStart..NumberEnd(s, g.ttcStart)]).Failure?
  {
    match ToDec(s[g.tvaStart..g.tvaEnd])
    case Failure(e) => Failure(e)
    case Success(tva) =>
      match ToDec(s[g.htStart..g.htEnd])
      case Failure(e) => Failure(e)
      case Success(ht) =>
        match ToDec(s[g.ttcStart..NumberEnd(s, g.ttcStart)])
        case Failure(e) => Failure(e)
        case Success(ttc) =>
          var a := FixTtc(Amounts(Some(ht), Some(tva), Some(ttc)));
          Success(TaxRow(Some(RateValue(g.rate)), a.ht, a.tva, a.ttc))
  }

  /** A row whose three amounts are known and add up within 0.02. */
  predicate RowBalanced(row: TaxRow) {
    Balanced(Amounts(row.baseHt, row.tva, row.ttc))
  }

  // ------------------------------------------------------------------- scan

  /**
   * The rows the line loop collects from `lines` on, given whether the header
   * has been seen and the rows collected so far; a failing `to_dec` aborts.
   */
  function TableRows(lines: seq<string>, inTable: bool, blocks: seq<TaxRow>): Result<seq<TaxRow>>
    decreases |lines|
  {
    if lines == [] then Success(blocks)
    else if !inTable then TableRows(lines[1..], IsHeader(lines[0]), blocks)
    else
      match RowMatch(lines[0])
      case None => if blocks != [] then Success(blocks) else TableRows(lines[1..], true, blocks)
      case Some(g) =>
        match ReadRow(lines[0], g)
        case Failure(e) => Failure(e)
        case Success(row) => TableRows(lines[1..], true, blocks + [row])
  }

  /** The rule's result for the rows found. */
  function Summary(rows: seq<TaxRow>): (r: Option<ParseResult>)
    ensures rows == [] <==> r.None?
    ensures r.Some? ==>
      r.value.tvaDetails == rows
      && r.value.totalHt == Some(SumHt(rows)) && r.value.tvaAmount == Some(SumTva(rows))
      && r.value.totalTtc == Some(SumTtc(rows))
      && r.value.confidence == 0.9 && r.value.notes == {"tva_inline_cols"}
  {
    if rows == [] then None
    else Some(ParseResult(Some(SumHt(rows)), Some(SumTtc(rows)), Some(SumTva(rows)), rows, 0.9, {"tva_inline_cols"}))
  }

  /** What `apply` returns, as a function of the text. */
  function Parsed(text: string): Result<Option<ParseResult>>
  {
    match TableRows(StrippedLines(text), false, [])
    case Failure(e) => Failure(e)
    case Success(rows) => Success(Summary(rows))
  }

  /** `TvaInlineColsRule.apply` */
  method Apply(text: string) returns (r: Result<Option<ParseResult>>)
    ensures r == Parsed(text)
  {
    var lines := StrippedLines(text);
    var blocks: seq<TaxRow> := [];
    var inTable := false;
    var i := 0;
    while i < |lines|
      invariant 0 <= i <= |lines|
      invariant TableRows(lines[i..], inTable, blocks) == TableRows(lines, false, [])
    {
      var ln := lines[i];
      assert lines[i..][1..] == lines[i + 1..];
      if !inTable && IsHeader(ln) {
        inTable := true;
        i := i + 1;
        continue;
      }
      if !inTable {
        i := i + 1;
        continue;
      }
      var m := RowMatch(ln);
      if m.None? {
        if blocks != [] {
          break;
        }
        i := i + 1;
        continue;
      }
      var row := ReadRow(ln, m.value);
      if row.Failure? {
        return Failure(row.error);
      }
      blocks := blocks + [row.value];
      i := i + 1;
    }
    return Success(Summary(blocks));
  }

  // ------------------------------------------------------------- properties

  /** The rows collected extend the rows already there. */
  lemma {:induction false} RowsExtend(lines: seq<string>, inTable: bool, blocks: seq<TaxRow>)
    ensures TableRows(lines, inTable, blocks).Success? ==>
      blocks <= TableRows(lines, inTable, blocks).value
    decreases |lines|
  {
    if lines != [] {
      var ln := lines[0];
      if !inTable {
        RowsExtend(lines[1..], IsHeader(ln), blocks);
      } else {
        match RowMatch(ln)
        case None =>
          if blocks == [] {
            RowsExtend(lines[1..], true, blocks);
          }
        case Some(g) =>
          var r := ReadRow(ln, g);
          if r.Success? {
            RowsExtend(lines[1..], true, blocks + [r.value]);
            PrefixSnoc(blocks, r.value, TableRows(lines, inTable, blocks));
          }
      }
    }
  }

  lemma PrefixSnoc(blocks: seq<TaxRow>, row: TaxRow, rest: Result<seq<TaxRow>>)
    requires rest.Success? ==> blocks + [row] <= rest.value
    ensures rest.Success? ==> blocks <= rest.value
  {
    if rest.Success? {
      assert rest.value[..|blocks|] == (blocks + [row])[..|blocks|] == blocks;
    }
  }

  predicate AllBalanced(rows: seq<TaxRow>) {
    forall k :: 0 <= k < |rows| ==> RowBalanced(rows[k])
  }

  /** Every row has passed through `fix_ttc`: |HT + TVA − TTC| ≤ 0.02. */
  lemma {:induction false} RowsBalanced(lines: seq<string>, inTable: bool, blocks: seq<TaxRow>)
    requires AllBalanced(blocks)
    ensures TableRows(lines, inTable, blocks).Success? ==> AllBalanced(TableRows(lines, inTable, blocks).value)
    decreases |lines|
  {
    if lines != [] {
      var ln := lines[0];
      if !inTable {
        RowsBalanced(lines[1..], IsHeader(ln), blocks);
      } else {
        match RowMatch(ln)
        case None =>
          if blocks == [] {
            RowsBalanced(lines[1..], true, blocks);
          }
        case Some(g) =>
          var r := ReadRow(ln, g);
          if r.Success? {
            BalancedSnoc(blocks, r.value);
            RowsBalanced(lines[1..], true, blocks + [r.value]);
          }
      }
    }
  }

  lemma BalancedSnoc(rows: seq<TaxRow>, row: TaxRow)
    requires AllBalanced(rows) && RowBalanced(row)
    ensures AllBalanced(rows + [row])
  {
    assert forall k :: 0 <= k < |rows| ==> (rows + [row])[k] == rows[k];
  }

  /** Without a header line nothing is collected, so the rule returns None. */
  lemma {:induction false} NoHeaderNoRows(lines: seq<string>, blocks: seq<TaxRow>)
    requires forall k :: 0 <= k < |lines| ==> !IsHeader(lines[k])
    ensures TableRows(lines, false, blocks) == Success(blocks)
    decreases |lines|
  {
    if lines != [] {
      NoHeaderNoRows(lines[1..], blocks);
    }
  }

  lemma NoHeaderNoResult(text: string)
    requires forall k :: 0 <= k < |StrippedLines(text)| ==> !IsHeader(StrippedLines(text)[k])
    ensures Parsed(text) == Success(None)
  {
    NoHeaderNoRows(StrippedLines(text), []);
  }

  /**
   * Once a row has been read, the first line that is not a row ends the
   * table: the lines after it are not looked at.
   */
  lemma TableEndsAtNonRow(blocks: seq<TaxRow>, rest: seq<string>, ln: string)
    requires blocks != [] && RowMatch(ln).None?
    ensures TableRows([ln] + rest, true, blocks) == Success(blocks)
  {
    assert ([ln] + rest)[0] == ln;
  }

  /** The totals of a successful scan are sums over rows that are all kept and all balanced. */
  lemma ResultRows(text: string)
    ensures Parsed(text).Success? && Parsed(text).value.Some? ==>
      var p := Parsed(text).value.value;
      p.tvaDetails != [] && AllBalanced(p.tvaDetails)
      && p.totalHt == Some(SumHt(p.tvaDetails)) && p.tvaAmount == Some(SumTva(p.tvaDetails))
      && p.totalTtc == Some(SumTtc(p.tvaDetails))
  {
    RowsBalanced(StrippedLines(text), false, []);
  }

  // ----------------------------------------------------- documented example

  /** The two lines of the class comment. */
  const ExampleHeader: string := "CODE   Taux    TVA     HT      TTC"
  const ExampleRow: string := "B     " + " 10.00" + "%  2,4" + "4    2" + "4,36  " + " 26,80"

  /** The earliest hit of `lit` is at `q` when no position before it has the first letter of `lit`. */
  lemma {:induction false} FirstCIAt(s: string, p: nat, q: nat, lit: string, before: bool, after: bool)
    requires p <= q <= |s| && |lit| > 0 && HitCI(s, q, lit, before, after)
    requires forall j :: p <= j < q ==> Lower(s[j]) != lit[0]
    ensures FirstCI(s, p, lit, before, after) == Some(q)
    decreases q - p
  {
    if p < q {
      assert Lower(s[p + 0]) != lit[0];
      FirstCIAt(s, p + 1, q, lit, before, after);
    }
  }

  lemma HeaderTaux()
    ensures FirstCI(ExampleHeader, 0, "taux", true, false) == Some(7)
  {
    var h := ExampleHeader;
    assert h[6] == ' ' && h[7] == 'T' && h[8] == 'a' && h[9] == 'u' && h[10] == 'x';
    assert Lower('T') == 't';
    assert HitCI(h, 7, "taux", true, false);
    FirstCIAt(h, 0, 7, "taux", true, false);
  }

  lemma HeaderTva()
    ensures FirstCI(ExampleHeader, 11, "tva", false, false) == Some(15)
  {
    var h := ExampleHeader;
    assert h[15] == 'T' && h[16] == 'V' && h[17] == 'A';
    assert Lower('T') == 't' && Lower('V') == 'v' && Lower('A') == 'a';
    assert HitCI(h, 15, "tva", false, false);
    FirstCIAt(h, 11, 15, "tva", false, false);
  }

  lemma HeaderHt()
    ensures FirstCI(ExampleHeader, 18, "ht", false, false) == Some(23)
  {
    var h := ExampleHeader;
    assert h[23] == 'H' && h[24] == 'T';
    assert Lower('H') == 'h' && Lower('T') == 't';
    assert HitCI(h, 23, "ht", false, false);
    FirstCIAt(h, 18, 23, "ht", false, false);
  }

  lemma HeaderTtc()
    ensures FirstCI(ExampleHeader, 25, "ttc", false, true) == Some(31)
  {
    var h := ExampleHeader;
    assert h[31] == 'T' && h[32] == 'T' && h[33] == 'C' && |h| == 34;
    assert Lower('T') == 't' && Lower('C') == 'c';
    assert HitCI(h, 31, "ttc", false, true);
    FirstCIAt(h, 25, 31, "ttc", false, true);
  }

  /** The header line of the class comment is a header. */
  lemma ExampleHeaderMatches()
    ensures IsHeader(ExampleHeader)
  {
    HeaderTaux();
    HeaderTva();
    HeaderHt();
    HeaderTtc();
  }

  /** A string with the characters of `ExampleRow`, one by one. */
  predicate IsExampleRow(r: string) {
    |r| == 36
    && r[0] == 'B' && r[1] == ' ' && r[2] == ' ' && r[3] == ' ' && r[4] == ' ' && r[5] == ' '
    && r[6] == ' ' && r[7] == '1' && r[8] == '0' && r[9] == '.' && r[10] == '0' && r[11] == '0'
    && r[12] == '%' && r[13] == ' ' && r[14] == ' ' && r[15] == '2' && r[16] == ',' && r[17] == '4'
    && r[18] == '4' && r[19] == ' ' && r[20] == ' ' && r[21] == ' ' && r[22] == ' ' && r[23] == '2'
    && r[24] == '4' && r[25] == ',' && r[26] == '3' && r[27] == '6' && r[28] == ' ' && r[29] == ' '
    && r[30] == ' ' && r[31] == '2' && r[32] == '6' && r[33] == ',' && r[34] == '8' && r[35] == '0'
  }

  lemma ExampleRowChars0()
    ensures |ExampleRow| == 36 && ExampleRow[0] == 'B' && ExampleRow[1] == ' ' && ExampleRow[2] == ' ' && ExampleRow[3] == ' ' && ExampleRow[4] == ' ' && ExampleRow[5] == ' '
  {
  }

  lemma ExampleRowChars1()
    ensures |ExampleRow| == 36 && ExampleRow[6] == ' ' && ExampleRow[7] == '1' && ExampleRow[8] == '0' && ExampleRow[9] == '.' && ExampleRow[10] == '0' && ExampleRow[11] == '0'
  {
  }

  lemma ExampleRowChars2()
    ensures |ExampleRow| == 36 && ExampleRow[12] == '%' && ExampleRow[13] == ' ' && ExampleRow[14] == ' ' && ExampleRow[15] == '2' && ExampleRow[16] == ',' && ExampleRow[17] == '4'
  {
  }

  lemma ExampleRowChars3()
    ensures |ExampleRow| == 36 && ExampleRow[18] == '4' && ExampleRow[19] == ' ' && ExampleRow[20] == ' ' && ExampleRow[21] == ' ' && ExampleRow[22] == ' ' && ExampleRow[23] == '2'
  {
  }

  lemma ExampleRowChars4()
    ensures |ExampleRow| == 36 && ExampleRow[24] == '4' && ExampleRow[25] == ',' && ExampleRow[26] == '3' && ExampleRow[27] == '6' && ExampleRow[28] == ' ' && ExampleRow[29] == ' '
  {
  }

  lemma ExampleRowChars5()
    ensures |ExampleRow| == 36 && ExampleRow[30] == ' ' && ExampleRow[31] == '2' && ExampleRow[32] == '6' && ExampleRow[33] == ',' && ExampleRow[34] == '8' && ExampleRow[35] == '0'
  {
  }

  lemma ExampleRowIs()
    ensures IsExampleRow(ExampleRow)
  {
    ExampleRowChars0();
    ExampleRowChars1();
    ExampleRowChars2();
    ExampleRowChars3();
    ExampleRowChars4();
    ExampleRowChars5();
  }

  /** The code `B`, then the spaces before the rate. */
  lemma ExampleRowStart(r: string)
    requires IsExampleRow(r)
    ensures CodeRunEnd(r, 0) == 1 && SkipSpaces(r, 1) == 7
  {
    assert CodeChar(r[0]) && !CodeChar(r[1]);
    assert !IsSpace(r[7]);
    assert SkipSpaces(r, 6) == 7 && SkipSpaces(r, 5) == 7 && SkipSpaces(r, 4) == 7;
    assert SkipSpaces(r, 3) == 7 && SkipSpaces(r, 2) == 7 && SkipSpaces(r, 1) == 7;
  }

  lemma TenPercentParts()
    ensures RateParts("10.00") == Some(Rate("10", "00"))
  {
    var t := "10.00";
    assert !IsDigit(t[2]);
    assert DigitRunEnd(t, 2) == 2 && DigitRunEnd(t, 1) == 2 && DigitRunEnd(t, 0) == 2;
    assert t[..2] == "10" && t[3..] == "00";
  }

  /** The rate `10.00`, then `%` and the spaces before the amounts. */
  lemma ExampleRate(r: string)
    requires IsExampleRow(r)
    ensures RateAt(r, 7) == Some((12, Rate("10", "00")))
    ensures PercentGap(r, 12) == Some(15)
  {
    assert !RateChar(r[12]);
    assert RateRunEnd(r, 11) == 12 && RateRunEnd(r, 10) == 12 && RateRunEnd(r, 9) == 12;
    assert RateRunEnd(r, 8) == 12 && RateRunEnd(r, 7) == 12;
    assert r[7..12] == "10.00";
    TenPercentParts();
    assert !IsSpace(r[12]) && r[12] == '%';
    assert SkipSpaces(r, 12) == 12;
    assert !IsSpace(r[15]);
    assert SkipSpaces(r, 14) == 15 && SkipSpaces(r, 13) == 15;
  }

  lemma {:induction false} ExampleNumRun(r: string, p: nat)
    requires IsExampleRow(r)
    requires 16 <= p <= 36
    ensures NumRunEnd(r, p) == 36
    decreases 36 - p
  {
    if p < 36 {
      ExampleNumRun(r, p + 1);
      assert NumChar(r[p]);
    }
  }

  /** Each amount group runs, greedily, to the end of the line. */
  lemma ExampleRuns(r: string)
    requires IsExampleRow(r)
    ensures NumberStart(r, 15) && NumberEnd(r, 15) == 36
    ensures NumberStart(r, 23) && NumberEnd(r, 23) == 36
    ensures NumberStart(r, 31) && NumberEnd(r, 31) == 36
  {
    assert IsDigit(r[15]) && IsDigit(r[23]) && IsDigit(r[31]);
    ExampleNumRun(r, 16);
    ExampleNumRun(r, 24);
    ExampleNumRun(r, 32);
  }

  /** The spaces before `24,36` and before `26,80`. */
  lemma ExampleGaps(r: string)
    requires IsExampleRow(r)
    ensures SkipSpaces(r, 22) == 23
    ensures SkipSpaces(r, 28) == 31 && SkipSpaces(r, 29) == 31 && SkipSpaces(r, 30) == 31
  {
    assert !IsSpace(r[23]) && !IsSpace(r[31]);
    assert SkipSpaces(r, 22) == 23;
    assert SkipSpaces(r, 30) == 31 && SkipSpaces(r, 29) == 31 && SkipSpaces(r, 28) == 31;
  }

  /** Within `26,80` there is no whitespace to split at. */
  lemma {:induction false} ExampleNoSplit(r: string, x: nat)
    requires IsExampleRow(r)
    requires 32 <= x <= 36
    ensures LastSplit(r, 32, x) == None
  {
    if x > 32 {
      ExampleNoSplit(r, x - 1);
      assert !IsSpace(r[x - 1]);
    }
  }

  /** From `24,36` on, the last split is the one before `26,80`. */
  lemma {:induction false} ExampleSplitAt30(r: string, x: nat)
    requires IsExampleRow(r)
    requires 31 <= x <= 36
    ensures LastSplit(r, 24, x) == Some((30, 31))
  {
    if x > 31 {
      ExampleSplitAt30(r, x - 1);
      assert !IsSpace(r[x - 1]);
    } else {
      ExampleGaps(r);
      assert IsSpace(r[30]) && IsDigit(r[31]);
    }
  }

  /** After `26,80` no split is left. */
  lemma ExampleLastSplitNone(r: string)
    requires IsExampleRow(r)
    ensures Split34(r, 31) == None
  {
    ExampleRuns(r);
    ExampleNoSplit(r, 36);
  }

  /** After `24,36` the last split is the one before `26,80`. */
  lemma ExampleLastSplitSome(r: string)
    requires IsExampleRow(r)
    ensures Split34(r, 23) == Some((30, 31))
  {
    ExampleRuns(r);
    ExampleSplitAt30(r, 36);
  }

  /** One step down in `Split23`: no split at `x - 1` when its whitespace run is followed by no HT and TTC. */
  lemma Split23Down(s: string, lo: nat, x: nat, y: nat)
    requires lo < x <= |s| && y == SkipSpaces(s, x - 1)
    requires !IsSpace(s[x - 1]) || !NumberStart(s, y) || Split34(s, y).None?
    ensures Split23(s, lo, x) == Split23(s, lo, x - 1)
  {
  }

  /** Ending TVA at 22 leaves HT `24,36` and TTC `26,80`. */
  lemma ExampleSplit23First(r: string)
    requires IsExampleRow(r)
    ensures Split23(r, 16, 23) == Some((22, 23))
  {
    ExampleGaps(r);
    ExampleLastSplitSome(r);
    assert IsSpace(r[22]) && IsDigit(r[23]);
  }

  /** No split inside a run of non-whitespace: `Split23` goes on down. */
  lemma {:induction false} Split23Solid(s: string, lo: nat, a: nat, x: nat)
    requires lo <= a <= x <= |s|
    requires forall j :: a <= j < x ==> !IsSpace(s[j])
    ensures Split23(s, lo, x) == Split23(s, lo, a)
    decreases x - a
  {
    if a < x {
      Split23Solid(s, lo, a, x - 1);
      Split23Down(s, lo, x, SkipSpaces(s, x - 1));
    }
  }

  /** Ending TVA inside `24,36` leaves no room for HT. */
  lemma ExampleSplit23Inside(r: string)
    requires IsExampleRow(r)
    ensures Split23(r, 16, 28) == Some((22, 23))
  {
    ExampleSplit23First(r);
    assert forall j :: 23 <= j < 28 ==> !IsSpace(r[j]);
    Split23Solid(r, 16, 23, 28);
  }

  /** Ending TVA in the spaces after `24,36` leaves HT `26,80` and no TTC. */
  lemma ExampleSplit23Gap(r: string)
    requires IsExampleRow(r)
    ensures Split23(r, 16, 31) == Some((22, 23))
  {
    ExampleSplit23Inside(r);
    ExampleGaps(r);
    ExampleLastSplitNone(r);
    Split23Down(r, 16, 29, 31);
    Split23Down(r, 16, 30, 31);
    Split23Down(r, 16, 31, 31);
  }

  lemma ExampleSolidTtc(r: string)
    requires IsExampleRow(r)
    ensures forall j :: 31 <= j < 36 ==> !IsSpace(r[j])
  {
  }

  /** Ending TVA at 22 is the last choice for which HT and TTC still match. */
  lemma ExampleSplit23(r: string)
    requires IsExampleRow(r)
    ensures Split23(r, 16, 36) == Some((22, 23))
  {
    ExampleSplit23Gap(r);
    ExampleSolidTtc(r);
    Split23Solid(r, 16, 31, 36);
  }

  /** The row line matches, with TVA, HT and TTC in the columns of the header. */
  lemma ExampleRowMatch(r: string)
    requires IsExampleRow(r)
    ensures RowMatch(r) == Some(RowGroups(Rate("10", "00"), 15, 22, 23, 30, 31))
  {
    ExampleRowStart(r);
    ExampleRate(r);
    ExampleRuns(r);
    ExampleSplit23(r);
    ExampleLastSplitSome(r);
  }

  /** An amount printed with a comma, followed by the spaces its greedy group takes along. */
  lemma PaddedAmount(t: string, pad: string, m: Money)
    requires forall i :: 0 <= i < |t| ==> KeptChar(t[i])
    requires forall i :: 0 <= i < |pad| ==> IsSpace(pad[i])
    requires ReplaceChar(t, ',', '.') == FormatMoney(m)
    ensures ToDec(t + pad) == Success(m)
  {
    KeptAppend(t, pad);
    KeptAll(t);
    forall i | 0 <= i < |pad|
      ensures !KeptChar(pad[i])
    {
      SpaceNotKept(pad[i]);
    }
    KeptNone(pad);
    ToDecPrinted(t + pad, m);
  }

  lemma PrintedTva()
    ensures FormatMoney(244) == "2.44" && ReplaceChar("2,44", ',', '.') == "2.44"
  {
    assert NatToDigits(2) == "2";
    assert [DigitChar(4), DigitChar(4)] == "44";
  }

  lemma ExampleTva(r: string)
    requires IsExampleRow(r)
    ensures ToDec(r[15..22]) == Success(244)
  {
    assert r[15..22] == "2,44" + "   ";
    PaddedTva();
  }

  lemma PaddedTva()
    ensures ToDec("2,44" + "   ") == Success(244)
  {
    PrintedTva();
    PaddedAmount("2,44", "   ", 244);
  }

  lemma PrintedHt()
    ensures FormatMoney(2436) == "24.36" && ReplaceChar("24,36", ',', '.') == "24.36"
  {
    assert NatToDigits(24) == "24";
    assert [DigitChar(3), DigitChar(6)] == "36";
  }

  lemma ExampleHt(r: string)
    requires IsExampleRow(r)
    ensures ToDec(r[23..30]) == Success(2436)
  {
    assert r[23..30] == "24,36" + "  ";
    PaddedHt();
  }

  lemma PaddedHt()
    ensures ToDec("24,36" + "  ") == Success(2436)
  {
    PrintedHt();
    PaddedAmount("24,36", "  ", 2436);
  }

  lemma PrintedTtc()
    ensures FormatMoney(2680) == "26.80" && ReplaceChar("26,80", ',', '.') == "26.80"
  {
    assert NatToDigits(26) == "26";
    assert [DigitChar(8), DigitChar(0)] == "80";
  }

  lemma ExampleTtc(r: string)
    requires IsExampleRow(r)
    ensures ToDec(r[31..36]) == Success(2680)
  {
    assert r[31..36] == "26,80" + "";
    PaddedTtc();
  }

  lemma PaddedTtc()
    ensures ToDec("26,80" + "") == Success(2680)
  {
    PrintedTtc();
    PaddedAmount("26,80", "", 2680);
  }

  lemma TenPercentValue()
    ensures RateValue(Rate("10", "00")) == 10.0
  {
    assert DigitsValue("10"[..1]) == 1;
    assert FracValue("00"[1..]) == 0.0;
  }

  /** The row line reads as 10 %, TVA 2.44, HT 24.36 and TTC 26.80. */
  lemma ExampleRead(r: string)
    requires IsExampleRow(r)
    ensures RowMatch(r).Some?
    ensures ReadRow(r, RowMatch(r).value) == Success(TaxRow(Some(10.0), Some(2436), Some(244), Some(2680)))
  {
    ExampleRowMatch(r);
    ExampleRuns(r);
    ExampleTva(r);
    ExampleHt(r);
    ExampleTtc(r);
    TenPercentValue();
  }

  lemma ExampleSplitLines()
    ensures SplitLines(ExampleHeader + "\n" + ExampleRow) == [ExampleHeader, ExampleRow]
  {
    var h, r := ExampleHeader, ExampleRow;
    assert NoBreaks(h) && NoBreaks(r);
    assert JoinLines([h, r]) == h + "\n" + r;
    Normalizer.SplitJoin([h, r]);
  }

  /** A line with no whitespace at either end is its own strip. */
  lemma StripUntrimmed(s: string)
    requires s != [] && !IsSpace(s[0]) && !IsSpace(s[|s| - 1])
    ensures Strip(s) == s
  {
  }

  /** The text of the class comment splits into its two lines, already stripped. */
  lemma ExampleLines()
    ensures StrippedLines(ExampleHeader + "\n" + ExampleRow) == [ExampleHeader, ExampleRow]
  {
    var h, r := ExampleHeader, ExampleRow;
    ExampleSplitLines();
    assert !IsSpace(h[0]) && !IsSpace(h[|h| - 1]);
    StripUntrimmed(h);
    assert !IsSpace(r[0]) && !IsSpace(r[|r| - 1]);
    StripUntrimmed(r);
  }

  /**
   * The table of the class comment gives one row at 10 %, with TVA 2.44,
   * HT 24.36 and TTC 26.80, and these as its totals.
   */
  lemma DocumentedExample()
    ensures Parsed(ExampleHeader + "\n" + ExampleRow) == Success(Some(ParseResult(
      Some(2436), Some(2680), Some(244),
      [TaxRow(Some(10.0), Some(2436), Some(244), Some(2680))],
      0.9, {"tva_inline_cols"})))
  {
    var row := TaxRow(Some(10.0), Some(2436), Some(244), Some(2680));
    ExampleLines();
    ExampleHeaderMatches();
    ExampleRowIs();
    ExampleRead(ExampleRow);
    HeaderThenRow(ExampleHeader, ExampleRow, row);
    assert [row][..0] == [];
  }

  /** A header line followed by one row line gives that row. */
  lemma HeaderThenRow(h: string, r: string, row: TaxRow)
    requires IsHeader(h) && RowMatch(r).Some? && ReadRow(r, RowMatch(r).value) == Success(row)
    ensures TableRows([h, r], false, []) == Success([row])
  {
    HeaderStep([h, r]);
    assert [h, r][1..] == [r];
    LastRowStep(r, row);
  }

  /** A last row line that reads is the only row of a table just opened. */
  lemma LastRowStep(r: string, row: TaxRow)
    requires RowMatch(r).Some? && ReadRow(r, RowMatch(r).value) == Success(row)
    ensures TableRows([r], true, []) == Success([row])
  {
    RowStep([r], [], row);
    assert [r][1..] == [] && [] + [row] == [row];
  }

  /** Before the table, a header line opens it. */
  lemma HeaderStep(lines: seq<string>)
    requires lines != [] && IsHeader(lines[0])
    ensures TableRows(lines, false, []) == TableRows(lines[1..], true, [])
  {
  }

  /** Inside the table, a row line that reads is collected. */
  lemma RowStep(lines: seq<string>, blocks: seq<TaxRow>, row: TaxRow)
    requires lines != [] && RowMatch(lines[0]).Some? && ReadRow(lines[0], RowMatch(lines[0]).value) == Success(row)
    ensures TableRows(lines, true, blocks) == TableRows(lines[1..], true, blocks + [row])
  {
  }
}
