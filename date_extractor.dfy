/**
 * `extract_date` (`core/parsing/date_extractor.py`): the first numeric
 * day/month/year date of the text, else the first day / French month name /
 * year date, printed as zero-padded `DD-MM-YYYY`.
 *
 * Both patterns are deterministic once Python's backtracking is played out:
 * `(\d{1,2})` followed by a separator (or by `\s+`) matches exactly when the
 * digit run there has one or two digits, and `(\d{2,4})(?!\d)` matches
 * exactly a digit run of two to four digits.
 */
module DateExtractor {
  import opened Wrappers
  import opened Chars
  import opened Strings
  import opened BaseRule
  import opened Patterns

  // ------------------------------------------------------- printing numbers

  function Pow10(k: nat): (p: nat)
    ensures p >= 1
  {
    if k == 0 then 1 else 10 * Pow10(k - 1)
  }

  /** A string of `k` digits stands for less than `10^k`. */
  lemma {:induction false} DigitsBelow(s: string)
    requires AllDigits(s)
    ensures DigitsValue(s) < Pow10(|s|)
  {
    if s != [] {
      DigitsBelow(s[..|s| - 1]);
    }
  }

  /** A number below `10^k` is printed with at most `k` digits. */
  lemma {:induction false} NatToDigitsShort(n: nat, k: nat)
    requires k >= 1 && n < Pow10(k)
    ensures |NatToDigits(n)| <= k
  {
    if n >= 10 {
      NatToDigitsShort(n / 10, k - 1);
    }
  }

  /** A leading zero does not change the value of a digit string. */
  lemma {:induction false} LeadingZero(t: string)
    requires AllDigits(t)
    ensures AllDigits("0" + t) && DigitsValue("0" + t) == DigitsValue(t)
  {
    if t != [] {
      assert ("0" + t)[..|t|] == "0" + t[..|t| - 1];
      LeadingZero(t[..|t| - 1]);
    }
  }

  /** `f"{n:0wd}"`: `n` in decimal, padded on the left with zeros to `w` characters. */
  function Pad(n: nat, w: nat): (s: string)
    ensures AllDigits(s) && DigitsValue(s) == n
    ensures |s| == if |NatToDigits(n)| < w then w else |NatToDigits(n)|
    decreases w
  {
    if |NatToDigits(n)| >= w then
      NatToDigitsValue(n);
      NatToDigits(n)
    else
      var t := Pad(n, w - 1);
      LeadingZero(t);
      "0" + t
  }

  /** A number below `10^w` is padded to exactly `w` digits. */
  lemma PadWidth(n: nat, w: nat)
    requires w >= 1 && n < Pow10(w)
    ensures |Pad(n, w)| == w
  {
    NatToDigitsShort(n, w);
  }

  // --------------------------------------------------------- numeric dates

  predicate DateSep(c: char) { c == '/' || c == '-' || c == '.' }

  /** The three groups of a match: digit strings. */
  datatype Groups = Groups(day: string, month: string, year: string)

  /**
   * `(\d{1,2})[\/\-\.]` at `p`: the end of the group, which must be followed
   * by a separator.
   */
  function ShortField(s: string, p: nat): (e: Option<nat>)
    requires p <= |s|
    ensures e.Some? ==> p < e.value < |s| && e.value - p <= 2 && AllDigits(s[p..e.value]) && DateSep(s[e.value])
  {
    var k := DigitRunEnd(s, p);
    if 1 <= k - p <= 2 && k < |s| && DateSep(s[k]) then Some(k) else None
  }

  /** `RE_NUM` tried at `i`: `(?<!\d)(\d{1,2})[\/\-\.](\d{1,2})[\/\-\.](\d{2,4})(?!\d)`. */
  function NumAt(s: string, i: nat): (g: Option<Groups>)
    requires i <= |s|
    ensures g.Some? ==>
      && 1 <= |g.value.day| <= 2 && AllDigits(g.value.day)
      && 1 <= |g.value.month| <= 2 && AllDigits(g.value.month)
      && 2 <= |g.value.year| <= 4 && AllDigits(g.value.year)
  {
    if i > 0 && IsDigit(s[i - 1]) then None
    else
      match ShortField(s, i)
      case None => None
      case Some(d) =>
        match ShortField(s, d + 1)
        case None => None
        case Some(m) =>
          var y := DigitRunEnd(s, m + 1);
          if 2 <= y - (m + 1) <= 4 then Some(Groups(s[i..d], s[d + 1..m], s[m + 1..y])) else None
  }

  /** `RE_NUM.search(s)` from `i`: the position and groups of the leftmost match. */
  function NumSearch(s: string, i: nat): (r: Option<(nat, Groups)>)
    requires i <= |s|
    ensures r.Some? ==> i <= r.value.0 <= |s| && NumAt(s, r.value.0) == Some(r.value.1)
    ensures forall j :: i <= j <= |s| && (r.None? || j < r.value.0) ==> NumAt(s, j).None?
    decreases |s| - i
  {
    match NumAt(s, i)
    case Some(g) => Some((i, g))
    case None => if i == |s| then None else NumSearch(s, i + 1)
  }

  /** The year as `int` reads it, after a two-digit year got its `"20"`. */
  function YearValue(y: string): (v: nat)
    requires 2 <= |y| <= 4 && AllDigits(y)
    ensures v < 10000
    ensures |y| == 2 ==> 2000 <= v < 2100
  {
    DigitsBelow(y);
    if |y| == 2 then 2000 + DigitsValue(y) else DigitsValue(y)
  }

  /** Day and month zero-padded to two digits and the year to four, joined by dashes. */
  predicate DashedDate(r: string, day: nat, month: nat, year: nat) {
    && |r| == 10 && r[2] == '-' && r[5] == '-'
    && AllDigits(r[..2]) && AllDigits(r[3..5]) && AllDigits(r[6..])
    && DigitsValue(r[..2]) == day && DigitsValue(r[3..5]) == month && DigitsValue(r[6..]) == year
  }

  /** Joins the three printed fields with dashes. */
  function Dashed(d: string, m: string, y: string): (r: string)
    requires |d| == 2 && |m| == 2 && |y| == 4
    ensures |r| == 10 && r[2] == '-' && r[5] == '-'
    ensures r[..2] == d && r[3..5] == m && r[6..] == y
  {
    d + "-" + m + "-" + y
  }

  /** `f"{int(d):02d}-{int(mth):02d}-{int(y):04d}"` for a numeric match. */
  function FormatNum(g: Groups): (r: string)
    requires 1 <= |g.day| <= 2 && AllDigits(g.day)
    requires 1 <= |g.month| <= 2 && AllDigits(g.month)
    requires 2 <= |g.year| <= 4 && AllDigits(g.year)
    ensures DashedDate(r, DigitsValue(g.day), DigitsValue(g.month), YearValue(g.year))
  {
    TwoDigitsBelow100(g.day);
    TwoDigitsBelow100(g.month);
    PadWidth(DigitsValue(g.day), 2);
    PadWidth(DigitsValue(g.month), 2);
    PadWidth(YearValue(g.year), 4);
    Dashed(Pad(DigitsValue(g.day), 2), Pad(DigitsValue(g.month), 2), Pad(YearValue(g.year), 4))
  }

  // ---------------------------------------------------------- French dates

  /** The month alternatives of `RE_FR`, in the order the pattern tries them. */
  const MonthNames: seq<string> := [
    "janv", "janvier", "f\U{E9}vr", "fev", "f\U{E9}vrier", "mars", "avr", "avril", "mai",
    "juin", "juil", "juillet", "ao\U{FB}t", "aout", "sept", "septembre",
    "oct", "octobre", "nov", "novembre", "d\U{E9}c", "dec", "d\U{E9}cembre"]

  /** `MOIS`: the two-digit month of every lower-case month name. */
  const Mois: map<string, string> := map[
    "janv" := "01", "janvier" := "01", "f\U{E9}vr" := "02", "fev" := "02", "f\U{E9}vrier" := "02",
    "mars" := "03", "avr" := "04", "avril" := "04", "mai" := "05",
    "juin" := "06", "juil" := "07", "juillet" := "07", "ao\U{FB}t" := "08", "aout" := "08",
    "sept" := "09", "septembre" := "09",
    "oct" := "10", "octobre" := "10", "nov" := "11", "novembre" := "11",
    "d\U{E9}c" := "12", "dec" := "12", "d\U{E9}cembre" := "12"]

  /** Every alternative of the pattern is a key of `MOIS`. */
  lemma MonthNamesKnown(k: nat)
    requires k < |MonthNames|
    ensures MonthNames[k] in Mois
  {
  }

  /** The groups of a French match: the day digits, the month as written, the year digits. */
  datatype FrGroups = FrGroups(day: string, month: string, year: string)

  /**
   * `\s+(alternatives)\s+(\d{4})` from `p`, alternatives tried from the
   * `k`-th on: the end of the month name and the start of the year for the
   * first alternative after which the rest matches.
   */
  function MonthFrom(s: string, p: nat, k: nat): (r: Option<(nat, nat)>)
    requires p <= |s| && k <= |MonthNames|
    ensures r.Some? ==>
      && k <= r.value.0 < |MonthNames| && MatchCI(s, p, MonthNames[r.value.0])
      && p + |MonthNames[r.value.0]| < r.value.1 && r.value.1 + 4 <= |s|
      && AllDigits(s[r.value.1..r.value.1 + 4])
    decreases |MonthNames| - k
  {
    if k == |MonthNames| then None
    else
      var name := MonthNames[k];
      if MatchCI(s, p, name) then
        var q := SkipSpaces(s, p + |name|);
        if q > p + |name| && DigitRunEnd(s, q) >= q + 4 then
          DigitsSlice(s, q, q + 4);
          Some((k, q))
        else MonthFrom(s, p, k + 1)
      else MonthFrom(s, p, k + 1)
  }

  /** A slice of digits is a digit string. */
  lemma DigitsSlice(s: string, a: nat, b: nat)
    requires a <= b <= |s| && forall j :: a <= j < b ==> IsDigit(s[j])
    ensures AllDigits(s[a..b])
  {
  }

  /** `RE_FR` tried at `i`: `\b(\d{1,2})\s+(month)\s+(\d{4})`, case-insensitive. */
  function FrAt(s: string, i: nat): (g: Option<FrGroups>)
    requires i <= |s|
    ensures g.Some? ==>
      && 1 <= |g.value.day| <= 2 && AllDigits(g.value.day)
      && |g.value.year| == 4 && AllDigits(g.value.year)
      && LowerStr(g.value.month) in Mois
  {
    if !WordBoundary(s, i) then None
    else
      var d := DigitRunEnd(s, i);
      var a := SkipSpaces(s, d);
      if 1 <= d - i <= 2 && a > d then
        var r := MonthFrom(s, a, 0);
        if r.None? then None
        else
          var name := MonthNames[r.value.0];
          var year := s[r.value.1..r.value.1 + 4];
          LowerMatched(s, a, name);
          MonthNamesKnown(r.value.0);
          Some(FrGroups(s[i..d], s[a..a + |name|], year))
      else None
  }

  /** A case-insensitive match of a lower-case name, lowered, is that name. */
  lemma LowerMatched(s: string, a: nat, name: string)
    requires MatchCI(s, a, name)
    ensures LowerStr(s[a..a + |name|]) == name
  {
  }

  /** `RE_FR.search(s)` from `i`. */
  function FrSearch(s: string, i: nat): (r: Option<(nat, FrGroups)>)
    requires i <= |s|
    ensures r.Some? ==> i <= r.value.0 <= |s| && FrAt(s, r.value.0) == Some(r.value.1)
    ensures forall j :: i <= j <= |s| && (r.None? || j < r.value.0) ==> FrAt(s, j).None?
    decreases |s| - i
  {
    var g := FrAt(s, i);
    if g.Some? then Some((i, g.value))
    else if i == |s| then None
    else FrSearch(s, i + 1)
  }

  /** `f"{int(d):02d}-{mm}-{int(y):04d}"` for a French match, if `MOIS` knows the month. */
  function FormatFr(g: FrGroups): (r: Option<string>)
    requires 1 <= |g.day| <= 2 && AllDigits(g.day) && |g.year| == 4 && AllDigits(g.year)
  {
    var mo := LowerStr(g.month);
    if mo in Mois then
      MoisValues(mo);
      TwoDigitsBelow100(g.day);
      PadWidth(DigitsValue(g.day), 2);
      DigitsBelow(g.year);
      PadWidth(DigitsValue(g.year), 4);
      Some(Dashed(Pad(DigitsValue(g.day), 2), Mois[mo], Pad(DigitsValue(g.year), 4)))
    else None
  }

  // ---------------------------------------------------------- extract_date

  /** `extract_date` */
  function ExtractDate(text: string): Option<string>
  {
    match NumSearch(text, 0)
    case Some((_, g)) => Some(FormatNum(g))
    case None =>
      match FrSearch(text, 0)
      case Some((_, g)) => FormatFr(g)
      case None => None
  }

  /** The month number `MOIS` gives every name the pattern accepts. */
  function MonthNumber(name: string): (n: nat)
    requires name in Mois
  {
    var k := Mois[name];
    if |k| == 2 && IsDigit(k[0]) && IsDigit(k[1]) then 10 * DigitValue(k[0]) + DigitValue(k[1]) else 0
  }

  /** The codes `MOIS` maps to. */
  predicate MonthCode(k: string) {
    k == "01" || k == "02" || k == "03" || k == "04" || k == "05" || k == "06"
    || k == "07" || k == "08" || k == "09" || k == "10" || k == "11" || k == "12"
  }

  lemma MoisCodes(name: string)
    requires name in Mois
    ensures MonthCode(Mois[name])
  {
    assert Mois[name] in Mois.Values;
  }

  /** A month code is two digits between 01 and 12. */
  lemma MonthCodeValue(k: string)
    requires MonthCode(k)
    ensures |k| == 2 && AllDigits(k) && 1 <= 10 * DigitValue(k[0]) + DigitValue(k[1]) <= 12
  {
  }

  /** The value of a two-digit string. */
  lemma TwoDigitsValue(k: string)
    requires |k| == 2 && AllDigits(k)
    ensures DigitsValue(k) == 10 * DigitValue(k[0]) + DigitValue(k[1])
  {
    var h := k[..1];
    assert h[..0] == [] && h[0] == k[0];
    assert DigitsValue(h) == DigitValue(k[0]);
  }

  /** Every value of `MOIS` is two digits between 01 and 12. */
  lemma MoisValues(name: string)
    requires name in Mois
    ensures |Mois[name]| == 2 && AllDigits(Mois[name])
    ensures DigitsValue(Mois[name]) == MonthNumber(name) && 1 <= MonthNumber(name) <= 12
  {
    MoisCodes(name);
    MonthCodeValue(Mois[name]);
    TwoDigitsValue(Mois[name]);
  }

  /**
   * A numeric date wins: it is printed whatever day and month it names
   * (they are not range-checked), with `20` before a two-digit year.
   */
  lemma NumericWins(text: string)
    requires NumSearch(text, 0).Some?
    ensures var g := NumSearch(text, 0).value.1;
      ExtractDate(text).Some? &&
      DashedDate(ExtractDate(text).value, DigitsValue(g.day), DigitsValue(g.month), YearValue(g.year))
  {
  }

  /** Without a numeric date, the first French date is printed with the month number of its name. */
  lemma FrenchFallback(text: string)
    requires NumSearch(text, 0).None? && FrSearch(text, 0).Some?
    ensures var g := FrSearch(text, 0).value.1;
      var mo := LowerStr(g.month);
      && mo in Mois
      && ExtractDate(text).Some?
      && DashedDate(ExtractDate(text).value, DigitsValue(g.day), MonthNumber(mo), DigitsValue(g.year))
  {
    var g := FrSearch(text, 0).value.1;
    MoisValues(LowerStr(g.month));
  }

  /** The result is `None` exactly when neither pattern matches anywhere. */
  lemma NoDate(text: string)
    ensures ExtractDate(text).None? <==> NumSearch(text, 0).None? && FrSearch(text, 0).None?
  {
    if NumSearch(text, 0).None? && FrSearch(text, 0).Some? {
      FrenchFallback(text);
    }
  }
}
