/**
 * `get_amount_rules` (`core/parsing/rule_registry.py`): the fixed list of
 * amount rules, in the order they are tried. The rules hold only class
 * constants, so a rule is modelled by which rule it is; applying it is the
 * pure function its module defines.
 */
module RuleRegistry {
  import opened Wrappers
  import opened BaseRule
  import TvaParenthetical
  import TvaInlineCols
  import TvaVertical
  import TvaInlineAny
  import TotalsLine
  import TotalTtc
  import PaymentTotal

  /** The registered rule classes (`TvaInlineTvaRule` is not one of them). */
  datatype Rule =
    | TvaParentheticalRule
    | TvaInlineColsRule
    | TvaVerticalRule
    | TvaInlineAnyRule
    | TotalsLineRule
    | TotalTtcRule
    | PaymentTotalRule

  /** The class constant `priority`; the registry does not consult it. */
  function Priority(r: Rule): nat {
    match r
    case TvaParentheticalRule => 60
    case TvaInlineColsRule => 70
    case TvaVerticalRule => 78
    case TvaInlineAnyRule => 65
    case TotalsLineRule => 80
    case TotalTtcRule => 82
    case PaymentTotalRule => 90
  }

  /** `get_amount_rules`: each of the seven rules once, the most specific first. */
  function GetAmountRules(): (rules: seq<Rule>)
    ensures |rules| == 7
    ensures forall i, j :: 0 <= i < j < |rules| ==> rules[i] != rules[j]
    ensures rules[0] == TvaParentheticalRule && rules[1] == TvaInlineColsRule && rules[2] == TvaVerticalRule
    ensures rules[3] == TvaInlineAnyRule && rules[4] == TotalsLineRule && rules[5] == TotalTtcRule
    ensures rules[6] == PaymentTotalRule
  {
    [TvaParentheticalRule, TvaInlineColsRule, TvaVerticalRule, TvaInlineAnyRule,
     TotalsLineRule, TotalTtcRule, PaymentTotalRule]
  }

  /** Every rule class the registry knows of is in the list. */
  lemma RegistryComplete(r: Rule)
    ensures r in GetAmountRules()
  {
    var rules := GetAmountRules();
    match r
    case TvaParentheticalRule => assert rules[0] == r;
    case TvaInlineColsRule => assert rules[1] == r;
    case TvaVerticalRule => assert rules[2] == r;
    case TvaInlineAnyRule => assert rules[3] == r;
    case TotalsLineRule => assert rules[4] == r;
    case TotalTtcRule => assert rules[5] == r;
    case PaymentTotalRule => assert rules[6] == r;
  }

  /**
   * `rule.apply(text)`. A failure is the exception `to_dec` raises; only the
   * vertical and inline-any rules never raise.
   */
  function ApplyRule(rule: Rule, text: string): (r: Result<Option<ParseResult>>)
    ensures rule == TvaVerticalRule ==> r == Success(TvaVertical.Parsed(text))
    ensures rule == TvaInlineAnyRule ==> r == Success(TvaInlineAny.Parsed(text))
  {
    match rule
    case TvaParentheticalRule => TvaParenthetical.Apply(text)
    case TvaInlineColsRule => TvaInlineCols.Parsed(text)
    case TvaVerticalRule => Success(TvaVertical.Parsed(text))
    case TvaInlineAnyRule => Success(TvaInlineAny.Parsed(text))
    case TotalsLineRule => TotalsLine.Apply(text)
    case TotalTtcRule => TotalTtc.Apply(text)
    case PaymentTotalRule => PaymentTotal.Apply(text)
  }

  /** The number the import comments of the registry put beside each rule. */
  function CommentedPriority(r: Rule): nat {
    match r
    case TvaParentheticalRule => 70
    case TvaInlineColsRule => 68
    case TvaVerticalRule => 66
    case TvaInlineAnyRule => 65
    case TotalsLineRule => 50
    case TotalTtcRule => 30
    case PaymentTotalRule => 40
  }

  /**
   * The list is not in order of `priority`: the first rule has the lowest,
   * and the vertical rule (78) comes before the inline-any rule (65). Nor is
   * it in the order of the import comments: those fall along the list
   * except that the TTC rule (30) comes before the payment rule (40).
   */
  lemma OrderIsNotPriority()
    ensures forall i :: 0 < i < |GetAmountRules()| ==> Priority(GetAmountRules()[0]) < Priority(GetAmountRules()[i])
    ensures Priority(GetAmountRules()[2]) > Priority(GetAmountRules()[3])
    ensures Priority(GetAmountRules()[3]) < Priority(GetAmountRules()[4])
    ensures forall i :: 0 < i < 6 ==> CommentedPriority(GetAmountRules()[i - 1]) > CommentedPriority(GetAmountRules()[i])
    ensures CommentedPriority(GetAmountRules()[5]) < CommentedPriority(GetAmountRules()[6])
  {
  }
}
