/**
 * `TotalsLineRule` (`core/parsing/rules/totals_line.py`): three independent
 * label searches, TOTAL TTC, TOTAL HT and TOTAL TVA, each followed on the
 * same line by the first amount.
 */
module TotalsLine {
  import opened Wrappers
  import opened Chars
  import opened Strings
  import opened BaseRule
  import opened Patterns

  datatype Label = TotalTtc | TotalHt | TotalTva

  /** Where the label of pattern `l` ends when it starts at `i`: `\btotal\s*(ttc|ht\b|tva\b)`. */
  function LabelEnd(l: Label, s: string, i: nat): (e: Option<nat>)
    requires i <= |s|
    ensures e.Some? ==> i + 5 <= e.value <= |s| && WordBoundary(s, i) && MatchCI(s, i, "total")
  {
    if !(WordBoundary(s, i) && MatchCI(s, i, "total")) then None
    else
      var p := SkipSpaces(s, i + 5);
      match l
      case TotalTtc => TtcWord(s, p)
      case TotalHt => if WordCI(s, p, "ht") then Some(p + 2) else None
      case TotalTva => if WordCI(s, p, "tva") then Some(p + 3) else None
  }

  /** One attempt of pattern `l` at `i`: where its amount starts. */
  function MatchAt(l: Label, s: string, i: nat): (k: Option<nat>)
    requires i <= |s|
    ensures k.Some? ==> NumberStart(s, k.value) && LabelEnd(l, s, i).Some?
    ensures k.Some? ==> LabelEnd(l, s, i).value <= k.value && NoNewline(s, LabelEnd(l, s, i).value, k.value)
  {
    match LabelEnd(l, s, i)
    case None => None
    case Some(e) => LazyNumber(s, e)
  }

  /** The attempt of the pattern of `l` at every position, `None` past the end of the text. */
  function Attempts(l: Label, s: string): nat -> Option<nat> {
    (j: nat) => if j <= |s| then MatchAt(l, s, j) else None
  }

  /** `_ttc.search`, `_ht.search`, `_tva.search`: the leftmost position at which the pattern matches. */
  function Search(l: Label, s: string, i: nat): (k: Option<nat>)
    requires i <= |s|
    ensures k.Some? ==> NumberStart(s, k.value)
  {
    FirstMatchFound(Attempts(l, s), i, |s|);
    FirstMatch(Attempts(l, s), i, |s|)
  }

  /** What `search` returns is the leftmost match: the match at `p` when nothing matches from `i` up to `p`. */
  lemma SearchLeftmost(l: Label, s: string, i: nat, p: nat)
    requires i <= p <= |s| && MatchAt(l, s, p).Some?
    requires forall j :: i <= j < p ==> MatchAt(l, s, j).None?
    ensures Search(l, s, i) == MatchAt(l, s, p)
  {
    FirstMatchLeftmost(Attempts(l, s), i, |s|, p);
  }

  /** The amount (as captured) the pattern of `l` finds in `s`. */
  function Found(l: Label, s: string): Option<string>
  {
    match Search(l, s, 0)
    case None => None
    case Some(k) => Some(Captured(s, k))
  }

  /** `to_dec(m.group(1)) if m else None`, with the error `to_dec` raises. */
  function Read(found: Option<string>): (r: Result<Option<Money>>)
    ensures found.None? ==> r == Success(None)
    ensures found.Some? ==> (r.Success? <==> ToDec(found.value).Success?)
    ensures found.Some? && r.Success? ==> r.value == Some(ToDec(found.value).value)
  {
    match found
    case None => Success(None)
    case Some(t) =>
      match ToDec(t)
      case Failure(e) => Failure(e)
      case Success(m) => Success(Some(m))
  }

  /** `TotalsLineRule.apply`: the three searches, then `Combine`. */
  function Apply(text: string): Result<Option<ParseResult>>
  {
    Combine(Found(TotalTtc, text), Found(TotalHt, text), Found(TotalTva, text))
  }

  /** The body of `apply` once the three searches have run: `fTtc`, `fHt`, `fTva` are the amounts they captured. */
  function Combine(fTtc: Option<string>, fHt: Option<string>, fTva: Option<string>): (r: Result<Option<ParseResult>>)
    // no label at all: no result
    ensures fTtc.None? && fHt.None? && fTva.None? ==> r == Success(None)
    // an amount that does not parse makes the rule raise
    ensures r.Failure? <==> Read(fTtc).Failure? || Read(fHt).Failure? || Read(fTva).Failure?
    // otherwise each total is its own label's amount, with no cross-check
    ensures r.Success? && r.value.Some? ==>
      var p := r.value.value;
      p.totalTtc == Read(fTtc).value && p.totalHt == Read(fHt).value && p.tvaAmount == Read(fTva).value
      && (p.totalTtc.Some? || p.totalHt.Some? || p.tvaAmount.Some?)
      && p.tvaDetails == [] && p.confidence == 0.7 && p.notes == {"totals_line"}
  {
    if fTtc.None? && fHt.None? && fTva.None? then Success(None)
    else
      match Read(fTtc)
      case Failure(e) => Failure(e)
      case Success(ttc) =>
        match Read(fHt)
        case Failure(e) => Failure(e)
        case Success(ht) =>
          match Read(fTva)
          case Failure(e) => Failure(e)
          case Success(tva) =>
            Success(Some(ParseResult(ht, ttc, tva, [], 0.7, {"totals_line"})))
  }

  /** The amount is read on the label's line. */
  lemma TotalTtcExample()
    ensures Found(TotalTtc, "TOTAL TTC : 12,50") == Some("12,50")
  {
    var s := "TOTAL TTC : 12,50";
    TtcLabelAtStart();
    LazyExample();
    assert Search(TotalTtc, s, 0) == Some(12);
    RunExample();
    TtcSlice();
  }

  lemma TtcSlice()
    ensures "TOTAL TTC : 12,50"[12..17] == "12,50"
  {
  }

  lemma TtcLabelAtStart()
    ensures LabelEnd(TotalTtc, "TOTAL TTC : 12,50", 0) == Some(9)
  {
    TotalWordExample();
    TtcWordExample();
  }

  lemma TotalWordExample()
    ensures WordBoundary("TOTAL TTC : 12,50", 0) && MatchCI("TOTAL TTC : 12,50", 0, "total")
    ensures SkipSpaces("TOTAL TTC : 12,50", 5) == 6
  {
    var s := "TOTAL TTC : 12,50";
    assert SkipSpaces(s, 6) == 6;
  }

  lemma TtcWordExample()
    ensures TtcWord("TOTAL TTC : 12,50", 6) == Some(9)
  {
    var s := "TOTAL TTC : 12,50";
    assert MatchCI(s, 6, "t");
    assert OptDot(s, 7) == 7 && SkipSpaces(s, 7) == 7 && MatchCI(s, 7, "t");
    assert OptDot(s, 8) == 8 && SkipSpaces(s, 8) == 8 && MatchCI(s, 8, "c");
    assert DotBoundary(s, 9) == Some(9);
  }

  lemma LazyExample()
    ensures LazyNumber("TOTAL TTC : 12,50", 9) == Some(12)
  {
  }

  lemma RunExample()
    ensures NumRunEnd("TOTAL TTC : 12,50", 13) == 17
  {
  }

  lemma HtLabelAtStart(s: string)
    requires |s| > 8 && s[..9] == "TOTAL HT "[..8] + [s[8]] && !IsWordChar(s[8])
    ensures LabelEnd(TotalHt, s, 0) == Some(8)
  {
    assert WordBoundary(s, 0) && MatchCI(s, 0, "total");
    assert SkipSpaces(s, 5) == 6;
    assert WordCI(s, 6, "ht");
  }

  /** An amount only on the next line is not found: `.` does not cross a line break. */
  lemma AmountOnNextLineMissed()
    ensures MatchAt(TotalHt, "TOTAL HT\n12,50", 0).None?
  {
    var s := "TOTAL HT\n12,50";
    HtLabelAtStart(s);
  }

  /**
   * `[\d\s.,]*` runs on across a line break, so two amounts on consecutive
   * lines are captured together and `to_dec` raises.
   */
  lemma CaptureAcrossLines()
    ensures Found(TotalHt, "TOTAL HT 10,00\n20,00") == Some("10,00\n20,00")
    ensures ToDec("10,00\n20,00").Failure?
  {
    var s := "TOTAL HT 10,00\n20,00";
    HtLabelAtStart(s);
    CrossLazy();
    assert Search(TotalHt, s, 0) == Some(9);
    CrossRun();
    CrossSlice();
    CrossKept();
    CrossParse();
  }

  lemma CrossSlice()
    ensures "TOTAL HT 10,00\n20,00"[9..20] == "10,00\n20,00"
  {
  }

  lemma CrossLazy()
    ensures LazyNumber("TOTAL HT 10,00\n20,00", 8) == Some(9)
  {
  }

  lemma CrossRun()
    ensures NumRunEnd("TOTAL HT 10,00\n20,00", 10) == 20
  {
  }

  lemma CrossKept()
    ensures Kept("10,00\n20,00") == "10,0020,00"
  {
    assert "10,00\n20,00" == "10,00" + "\n20,00";
    assert "\n20,00" == "\n" + "20,00";
    KeptAppend("10,00", "\n20,00");
    KeptAppend("\n", "20,00");
    KeptAll("10,00");
    KeptAll("20,00");
    KeptNone("\n");
  }

  lemma CrossParse()
    ensures ReplaceChar("10,0020,00", ',', '.') == "10.0020.00"
    ensures ParseDecimal("10.0020.00").Failure?
  {
    var t := "10.0020.00";
    assert PointIndex(t) == 2;
    assert !IsDigit(t[3..][4]);
  }
}
