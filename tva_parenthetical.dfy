/**
 * `TvaParentheticalRule` (`core/parsing/rules/tva_parenthetical.py`): one VAT
 * line written as `R% : TVA (HT HT / TTC TTC)`, for instance
 * `10% : 6,95 € (69,55 € HT / 76,50 € TTC)`.
 */
module TvaParenthetical {
  import opened Wrappers
  import opened Chars
  import opened Strings
  import opened BaseRule
  import opened Patterns

  /** The four groups of a match: the rate, and where the TVA, HT and TTC amounts start. */
  datatype Groups = Groups(rate: Rate, tva: nat, ht: nat, ttc: nat)

  predicate ValidGroups(s: string, g: Groups) {
    RateShape(g.rate) && NumberStart(s, g.tva) && NumberStart(s, g.ht) && NumberStart(s, g.ttc)
  }

  /** A slash with optional whitespace around it, from `p`: where the text after it starts. */
  function SlashEnd(s: string, p: nat): (q: Option<nat>)
    requires p <= |s|
    ensures q.Some? ==> p < q.value <= |s|
  {
    var p1 := SkipSpaces(s, p);
    if p1 < |s| && s[p1] == '/' then Some(SkipSpaces(s, p1 + 1)) else None
  }

  /** The tail `\s*(?:cur)?\s*TTC\s*\)` after the TTC amount ending at `e`. */
  predicate ClosesAt(s: string, e: nat)
    requires e <= |s|
  {
    match CurrencyThen(s, e, "ttc")
    case None => false
    case Some(q) =>
      var p := SkipSpaces(s, q + 3);
      p < |s| && s[p] == ')'
  }

  /** One attempt of the pattern at `i`: `\b`, the rate and `%`, then the rest from `AfterRate`. */
  function MatchAt(s: string, i: nat): (g: Option<Groups>)
    requires i <= |s|
    ensures g.Some? ==> ValidGroups(s, g.value) && i < g.value.tva < g.value.ht < g.value.ttc
  {
    if !WordBoundary(s, i) then None
    else
      match RateAt(s, i)
      case None => None
      case Some((e, rate)) =>
        if e < |s| && s[e] == '%' then AfterRate(s, e + 1, rate) else None
  }

  /** After `%`: the separator, the TVA amount, the currency and `(`, then the rest from `AfterOpen`. */
  function AfterRate(s: string, p: nat, rate: Rate): (g: Option<Groups>)
    requires p <= |s| && RateShape(rate)
    ensures g.Some? ==> ValidGroups(s, g.value) && p <= g.value.tva < g.value.ht < g.value.ttc
    ensures g.Some? ==> g.value.rate == rate && g.value.tva == SeparatorEnd(s, p)
  {
    var pTva := SeparatorEnd(s, p);
    if !NumberStart(s, pTva) then None
    else
      match CurrencyThen(s, NumberEnd(s, pTva), "(")
      case None => None
      case Some(open) => AfterOpen(s, open + 1, rate, pTva)
  }

  /** After `(`: the HT amount, the currency, `HT`, the slash, the TTC amount and the closing tail. */
  function AfterOpen(s: string, p: nat, rate: Rate, pTva: nat): (g: Option<Groups>)
    requires p <= |s| && RateShape(rate) && NumberStart(s, pTva) && pTva < p
    ensures g.Some? ==> g == Some(Groups(rate, pTva, SkipSpaces(s, p), g.value.ttc))
    ensures g.Some? ==> ValidGroups(s, g.value) && p <= g.value.ht < g.value.ttc
  {
    var pHt := SkipSpaces(s, p);
    if !NumberStart(s, pHt) then None
    else
      match CurrencyThen(s, NumberEnd(s, pHt), "ht")
      case None => None
      case Some(h) =>
        match SlashEnd(s, h + 2)
        case None => None
        case Some(pTtc) =>
          if NumberStart(s, pTtc) && ClosesAt(s, NumberEnd(s, pTtc)) then
            Some(Groups(rate, pTva, pHt, pTtc))
          else None
  }

  /** The attempt at every position, `None` past the end of the text. */
  function Attempts(s: string): nat -> Option<Groups> {
    (j: nat) => if j <= |s| then MatchAt(s, j) else None
  }

  /** `_re.search`: the leftmost match. */
  function Search(s: string, i: nat): (g: Option<Groups>)
    requires i <= |s|
    ensures g.Some? ==> ValidGroups(s, g.value)
  {
    FirstMatchFound(Attempts(s), i, |s|);
    FirstMatch(Attempts(s), i, |s|)
  }

  /**
   * What `re.search` returns is the leftmost match: the attempt at `p` (that is,
   * `MatchAt(s, p)`) when no attempt matches from `i` up to `p`.
   */
  lemma SearchLeftmost(s: string, i: nat, p: nat)
    requires i <= p <= |s| && Attempts(s)(p).Some?
    requires forall j :: i <= j < p ==> Attempts(s)(j).None?
    ensures Search(s, i) == Attempts(s)(p)
  {
    FirstMatchLeftmost(Attempts(s), i, |s|, p);
  }

  /** The result built from the four groups once the amounts are read. */
  function Build(rate: real, tva: Money, ht: Money, ttc: Money): (p: ParseResult)
    // the printed HT and TVA are kept; TTC is corrected when it is off by more than 0.02
    ensures p.totalHt == Some(ht) && p.tvaAmount == Some(tva)
    ensures p.totalTtc == Some(if AbsInt(ht + tva - ttc) <= 2 then ttc else ht + tva)
    ensures Balanced(Amounts(p.totalHt, p.tvaAmount, p.totalTtc))
    // one row, carrying the printed rate and the same amounts as the totals
    ensures p.tvaDetails == [TaxRow(Some(rate), p.totalHt, p.tvaAmount, p.totalTtc)]
    ensures p.confidence == 0.95 && p.notes == {"tva_parenthetical"}
  {
    var a := FixTtc(Amounts(Some(ht), Some(tva), Some(ttc)));
    ParseResult(a.ht, a.ttc, a.tva, [TaxRow(Some(rate), a.ht, a.tva, a.ttc)], 0.95, {"tva_parenthetical"})
  }

  /** `TvaParentheticalRule.apply` */
  function Apply(text: string): (r: Result<Option<ParseResult>>)
    ensures Search(text, 0).None? <==> r == Success(None)
    ensures Search(text, 0).Some? ==>
      var g := Search(text, 0).value;
      var tva, ht, ttc := ToDec(Captured(text, g.tva)), ToDec(Captured(text, g.ht)), ToDec(Captured(text, g.ttc));
      (r.Failure? <==> tva.Failure? || ht.Failure? || ttc.Failure?)
      && (r.Success? ==> r.value == Some(Build(RateValue(g.rate), tva.value, ht.value, ttc.value)))
  {
    match Search(text, 0)
    case None => Success(None)
    case Some(g) =>
      match ToDec(Captured(text, g.tva))
      case Failure(e) => Failure(e)
      case Success(tva) =>
        match ToDec(Captured(text, g.ht))
        case Failure(e) => Failure(e)
        case Success(ht) =>
          match ToDec(Captured(text, g.ttc))
          case Failure(e) => Failure(e)
          case Success(ttc) => Success(Some(Build(RateValue(g.rate), tva, ht, ttc)))
  }

  /** The receipt line from the rule's documentation, in the pieces the pattern splits it into. */
  const Example: string :=
    "10% : " + "6,95 " + "\U{20AC} (" + "69,55 " + "\U{20AC} HT / " + "76,50 " + "\U{20AC} TTC)"

  /** `10% : 6,95 € (69,55 € HT / 76,50 € TTC)` gives HT 69.55, TVA 6.95, TTC 76.50 at 10 %. */
  lemma DocumentedExample()
    ensures Apply(Example) == Success(Some(ParseResult(
      Some(6955), Some(7650), Some(695),
      [TaxRow(Some(10.0), Some(6955), Some(695), Some(7650))],
      0.95, {"tva_parenthetical"})))
  {
    ExampleMatch();
    assert Search(Example, 0) == Some(Groups(Rate("10", []), 6, 14, 27));
    ExampleSlices();
    TvaAmount();
    HtAmount();
    TtcAmount();
    TenPercent();
  }

  lemma TenPercent()
    ensures RateValue(Rate("10", [])) == 10.0
  {
    assert DigitsValue("10"[..1]) == 1;
  }

  /** A run of amount characters from `p` that stops at `q` ends there. */
  lemma NumRunEndAt(s: string, p: nat, q: nat)
    requires p <= q <= |s| && forall j :: p <= j < q ==> NumChar(s[j])
    requires q == |s| || !NumChar(s[q])
    ensures NumRunEnd(s, p) == q
  {
  }

  lemma ExampleMatch()
    ensures MatchAt(Example, 0) == Some(Groups(Rate("10", []), 6, 14, 27))
  {
    ExampleRate();
    ExampleTva();
    ExampleOpen();
    ExampleHt();
    ExampleHtLabel();
    ExampleSlash();
    ExampleTtc();
    ExampleClose();
    assert AfterOpen(Example, 14, Rate("10", []), 6) == Some(Groups(Rate("10", []), 6, 14, 27));
    assert AfterRate(Example, 3, Rate("10", [])) == Some(Groups(Rate("10", []), 6, 14, 27));
  }

  lemma ExampleRate()
    ensures WordBoundary(Example, 0) && RateAt(Example, 0) == Some((2, Rate("10", []))) && Example[2] == '%'
  {
    var s := Example;
    assert RateRunEnd(s, 2) == 2;
    assert RateRunEnd(s, 0) == 2;
    assert s[0..2] == "10";
    assert DigitRunEnd("10", 0) == 2;
  }

  lemma ExampleTva()
    ensures SeparatorEnd(Example, 3) == 6 && NumberStart(Example, 6) && NumberEnd(Example, 6) == 11
  {
    ExampleSeparator();
    var s := Example;
    assert s[6] == '6' && s[7] == ',' && s[8] == '9' && s[9] == '5' && s[10] == ' ' && s[11] == '\U{20AC}';
    NumRunEndAt(s, 7, 11);
  }

  lemma ExampleSeparator()
    ensures SeparatorEnd(Example, 3) == 6
  {
    var s := Example;
    assert s[3] == ' ' && s[4] == ':' && s[5] == ' ' && s[6] == '6';
    assert SkipSpaces(s, 3) == 4 && SkipSpaces(s, 5) == 6;
  }

  lemma ExampleOpen()
    ensures CurrencyThen(Example, 11, "(") == Some(13)
  {
    var s := Example;
    assert SkipSpaces(s, 11) == 11 && SkipSpaces(s, 12) == 13;
    assert MatchCI(s, 11, "\U{20AC}") && MatchCI(s, 13, "(");
  }

  lemma ExampleHt()
    ensures SkipSpaces(Example, 14) == 14 && NumberStart(Example, 14) && NumberEnd(Example, 14) == 20
  {
    var s := Example;
    assert s[15] == '9' && s[16] == ',' && s[17] == '5' && s[18] == '5' && s[19] == ' ' && s[20] == '\U{20AC}';
    NumRunEndAt(s, 15, 20);
  }

  lemma ExampleHtLabel()
    ensures CurrencyThen(Example, 20, "ht") == Some(22)
  {
    var s := Example;
    assert SkipSpaces(s, 20) == 20 && SkipSpaces(s, 21) == 22;
    assert MatchCI(s, 20, "\U{20AC}") && MatchCI(s, 22, "ht");
  }

  lemma ExampleSlash()
    ensures SlashEnd(Example, 24) == Some(27)
  {
    var s := Example;
    assert SkipSpaces(s, 24) == 25 && SkipSpaces(s, 26) == 27;
  }

  lemma ExampleTtc()
    ensures NumberStart(Example, 27) && NumberEnd(Example, 27) == 33
  {
    var s := Example;
    assert s[28] == '6' && s[29] == ',' && s[30] == '5' && s[31] == '0' && s[32] == ' ' && s[33] == '\U{20AC}';
    NumRunEndAt(s, 28, 33);
  }

  lemma ExampleClose()
    ensures ClosesAt(Example, 33)
  {
    var s := Example;
    assert SkipSpaces(s, 33) == 33 && SkipSpaces(s, 34) == 35;
    assert MatchCI(s, 33, "\U{20AC}") && MatchCI(s, 35, "ttc");
    assert CurrencyThen(s, 33, "ttc") == Some(35);
    assert SkipSpaces(s, 38) == 38;
  }

  lemma ExampleSlices()
    ensures Captured(Example, 6) == "6,95 "
    ensures Captured(Example, 14) == "69,55 "
    ensures Captured(Example, 27) == "76,50 "
  {
    ExampleTva();
    ExampleHt();
    ExampleTtc();
  }

  /** A printed amount followed by the space the pattern captures reads as `m`. */
  lemma PrintedAmount(t: string, m: Money)
    requires forall i :: 0 <= i < |t| ==> KeptChar(t[i])
    requires ReplaceChar(t, ',', '.') == FormatMoney(m)
    ensures ToDec(t + " ") == Success(m)
  {
    KeptTrailingSpace(t);
    ToDecPrinted(t + " ", m);
  }

  lemma TvaAmount()
    ensures ToDec("6,95 ") == Success(695)
  {
    assert ReplaceChar("6,95", ',', '.') == "6.95";
    assert NatToDigits(6) == "6";
    assert [DigitChar(9), DigitChar(5)] == "95";
    assert FormatMoney(695) == "6.95";
    PrintedAmount("6,95", 695);
    assert "6,95" + " " == "6,95 ";
  }

  lemma HtAmount()
    ensures ToDec("69,55 ") == Success(6955)
  {
    assert ReplaceChar("69,55", ',', '.') == "69.55";
    assert NatToDigits(69) == "69";
    assert [DigitChar(5), DigitChar(5)] == "55";
    assert FormatMoney(6955) == "69.55";
    PrintedAmount("69,55", 6955);
    assert "69,55" + " " == "69,55 ";
  }

  lemma TtcAmount()
    ensures ToDec("76,50 ") == Success(7650)
  {
    assert ReplaceChar("76,50", ',', '.') == "76.50";
    assert NatToDigits(76) == "76";
    assert [DigitChar(5), DigitChar(0)] == "50";
    assert FormatMoney(7650) == "76.50";
    PrintedAmount("76,50", 7650);
    assert "76,50" + " " == "76,50 ";
  }
}
