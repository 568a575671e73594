/**
 * `AmountsExtractor.extract` (`core/parsing/amounts_extractor.py`): every
 * registered rule is applied once to the text, in registry order, and the
 * results that are not `None` are kept in that order. A rule that raises
 * makes the whole pass raise.
 */
module AmountsExtractor {
  import opened Wrappers
  import opened BaseRule
  import opened RuleRegistry

  /** What each rule of `rules` returns on `text`, in order. */
  function Outcomes(rules: seq<Rule>, text: string): (outs: seq<Result<Option<ParseResult>>>)
    ensures |outs| == |rules| && forall i :: 0 <= i < |rules| ==> outs[i] == ApplyRule(rules[i], text)
  {
    seq(|rules|, i requires 0 <= i < |rules| => ApplyRule(rules[i], text))
  }

  /** The results among `outs` that are not `None`, or the first exception. */
  function Collect<T>(outs: seq<Result<Option<T>>>): Result<seq<T>>
    decreases |outs|
  {
    if outs == [] then Success([])
    else
      match outs[0]
      case Failure(e) => Failure(e)
      case Success(res) => Prepend(Found(res), Collect(outs[1..]))
  }

  /** What one rule contributes when it does not raise: its result, if any. */
  function Found<T>(res: Option<T>): (r: seq<T>)
    ensures |r| <= 1 && (r == [] <==> res.None?) && (res.Some? ==> r == [res.value])
  {
    if res.Some? then [res.value] else []
  }

  /** `out` followed by what the remaining rules collect. */
  function Prepend<T>(out: seq<T>, rest: Result<seq<T>>): Result<seq<T>> {
    match rest
    case Failure(e) => Failure(e)
    case Success(tail) => Success(out + tail)
  }

  lemma PrependTwice<T>(a: seq<T>, b: seq<T>, rest: Result<seq<T>>)
    ensures Prepend(a, Prepend(b, rest)) == Prepend(a + b, rest)
  {
    if rest.Success? {
      assert a + (b + rest.value) == (a + b) + rest.value;
    }
  }

  /** One more rule that does not raise: its result joins the kept ones. */
  lemma CollectStep<T>(outs: seq<Result<Option<T>>>, i: nat, kept: seq<T>)
    requires i < |outs| && outs[i].Success? && Collect(outs) == Prepend(kept, Collect(outs[i..]))
    ensures Collect(outs) == Prepend(kept + Found(outs[i].value), Collect(outs[i + 1..]))
  {
    assert outs[i..][1..] == outs[i + 1..];
    PrependTwice(kept, Found(outs[i].value), Collect(outs[i + 1..]));
  }

  /** A rule that raises ends the pass with its exception. */
  lemma CollectStop<T>(outs: seq<Result<Option<T>>>, i: nat, kept: seq<T>)
    requires i < |outs| && outs[i].Failure? && Collect(outs) == Prepend(kept, Collect(outs[i..]))
    ensures Collect(outs) == Failure(outs[i].error)
  {
  }

  /** The present values of `opts`, in order. */
  function Present<T(!new)>(opts: seq<Option<T>>): (r: seq<T>)
    ensures |r| <= |opts|
    ensures forall p :: p in r <==> Some(p) in opts
    ensures r == [] <==> forall i :: 0 <= i < |opts| ==> opts[i].None?
  {
    if opts == [] then []
    else Found(opts[0]) + Present(opts[1..])
  }

  /** One call `rule.apply(text)`. */
  method ApplyOne(rule: Rule, text: string) returns (r: Result<Option<ParseResult>>)
    ensures r == ApplyRule(rule, text)
  {
    r := ApplyRule(rule, text);
  }

  /** `AmountsExtractor.extract` */
  method Extract(text: string) returns (out: Result<seq<ParseResult>>)
    ensures out == Collect(Outcomes(GetAmountRules(), text))
  {
    out := ApplyAll(GetAmountRules(), text);
  }

  /** The loop of `extract` over the registered rules, in order. */
  method ApplyAll(rules: seq<Rule>, text: string) returns (out: Result<seq<ParseResult>>)
    ensures out == Collect(Outcomes(rules, text))
  {
    ghost var outs := Outcomes(rules, text);
    var kept: seq<ParseResult> := [];
    assert outs[0..] == outs;
    PrependNothing(Collect(outs));
    for i := 0 to |rules|
      invariant Collect(outs) == Prepend(kept, Collect(outs[i..]))
    {
      var res := ApplyOne(rules[i], text);
      assert res == outs[i];
      if res.Failure? {
        CollectStop(outs, i, kept);
        return Failure(res.error);
      }
      CollectStep(outs, i, kept);
      if res.value.Some? {
        kept := kept + [res.value.value];
      } else {
        assert kept + [] == kept;
      }
    }
    assert outs[|rules|..] == [];
    assert Collect(outs[|rules|..]) == Success([]);
    assert kept + [] == kept;
    return Success(kept);
  }

  lemma PrependNothing<T>(rest: Result<seq<T>>)
    ensures Prepend([], rest) == rest
  {
    if rest.Success? {
      assert [] + rest.value == rest.value;
    }
  }

  /**
   * When no rule raises and rule `i` returns `opts[i]`, the pass returns the
   * present results in rule order: at most one per rule, and none when no
   * rule matches.
   */
  lemma {:induction false} CollectKeepsPresent<T(!new)>(outs: seq<Result<Option<T>>>, opts: seq<Option<T>>)
    requires |opts| == |outs| && forall i :: 0 <= i < |outs| ==> outs[i] == Success(opts[i])
    ensures Collect(outs) == Success(Present(opts))
    decreases |outs|
  {
    if outs != [] {
      CollectKeepsPresent(outs[1..], opts[1..]);
    }
  }

  /** The pass raises exactly when one of the rules raises. */
  lemma {:induction false} CollectFails<T>(outs: seq<Result<Option<T>>>)
    ensures Collect(outs).Failure? <==> exists i :: 0 <= i < |outs| && outs[i].Failure?
    decreases |outs|
  {
    if outs != [] {
      CollectFails(outs[1..]);
      if outs[0].Success? {
        assert forall i :: 1 <= i < |outs| ==> outs[i] == outs[1..][i - 1];
      }
    }
  }

  /** Of the seven rules, at most seven results are kept, and none when no rule matches. */
  lemma ExtractAtMostSeven(text: string)
    requires Collect(Outcomes(GetAmountRules(), text)).Success?
    ensures |Collect(Outcomes(GetAmountRules(), text)).value| <= 7
    ensures (forall i :: 0 <= i < 7 ==> ApplyRule(GetAmountRules()[i], text) == Success(None))
      ==> Collect(Outcomes(GetAmountRules(), text)).value == []
  {
    CollectBound(Outcomes(GetAmountRules(), text));
  }

  /** A pass that does not raise keeps at most one result per outcome, and none when every outcome is `None`. */
  lemma CollectBound<T(!new)>(outs: seq<Result<Option<T>>>)
    requires Collect(outs).Success?
    ensures |Collect(outs).value| <= |outs|
    ensures (forall i :: 0 <= i < |outs| ==> outs[i] == Success(None)) ==> Collect(outs).value == []
  {
    CollectFails(outs);
    var opts := seq(|outs|, i requires 0 <= i < |outs| => outs[i].value);
    CollectKeepsPresent(outs, opts);
  }
}
