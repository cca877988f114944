/**
 The policy decision: an autonomy baseline, bundle defaults and prioritised matching
 rules folded into one restrictive verdict, with an early exit on deny.
 */
module Evaluation {
  import opened Prelude
  import opened Ordering
  import opened Constraints
  import opened Policy
  import opened Cel

  datatype Verdict = Verdict(
    effect: Effect,
    constraints: Limits,
    reason: string,
    policyId: Option<string>,
    policyVersion: Option<int>,
    ruleId: Option<string>)

  const NOTHING := Verdict(Unset, UNRESTRICTED, "", None, None, None)

  function Severity(effect: Effect): nat {
    match effect
    case Deny => 4
    case RequireApproval => 3
    case AllowWithConstraints => 2
    case Allow => 1
    case _ => 0
  }

  function Combine(current: Verdict, incoming: Verdict): Verdict {
    if incoming.effect == Unset then current
    else if current.effect == Unset then incoming
    else
      var merged := Merge(current.constraints, incoming.constraints);
      if Severity(incoming.effect) > Severity(current.effect) then incoming.(constraints := merged)
      else current.(constraints := merged)
  }

  predicate IsReadAction(action: string) {
    || "read." <= action
    || (|action| >= 5 && action[|action| - 5..] == ".read")
    || "observe." <= action
    || "research." <= action
  }

  function AutonomyBaseline(input: Input): Verdict {
    if input.subjectType != "agent" then NOTHING
    else if input.autonomy == "observe_only" then
      if IsReadAction(input.action) then
        NOTHING.(effect := AllowWithConstraints, reason := "Agent autonomy permits read actions only")
      else NOTHING.(effect := Deny, reason := "Agent autonomy is observe-only")
    else if input.autonomy == "suggest" then
      NOTHING.(effect := RequireApproval, constraints := UNRESTRICTED.(requireReview := true),
               reason := "Agent autonomy permits suggestions only")
    else if input.autonomy == "approval_required" then
      NOTHING.(effect := RequireApproval, constraints := UNRESTRICTED.(requireReview := true),
               reason := "Agent autonomy requires approval")
    else if input.autonomy == "policy_bounded" then NOTHING
    else NOTHING.(effect := Deny, reason := "Agent autonomy is unknown")
  }

  function DefaultVerdict(b: Bundle): Verdict {
    Verdict(b.defaultEffect, UNRESTRICTED, "Policy default effect applied",
            Some(b.policyId), Some(b.policyVersion), None)
  }

  function RuleVerdict(b: Bundle, r: Rule): Verdict {
    Verdict(r.effect, r.constraints, r.reason, Some(b.policyId), Some(b.policyVersion), Some(r.id))
  }

  // ----- the specification -----

  /** What the loop meets: a default, or a rule past the prefilter with its outcome. */
  datatype Candidate = Default(verdict: Verdict) | Conditional(outcome: Outcome, verdict: Verdict)

  function RuleCandidates(engine: Engine, input: Input, b: Bundle, rules: seq<Rule>): seq<Candidate> {
    if rules == [] then []
    else
      var r := rules[0];
      (if r.enabled && Prefilter(r, input)
       then [Conditional(Direct(engine, r.condition, input), RuleVerdict(b, r))] else [])
      + RuleCandidates(engine, input, b, rules[1..])
  }

  function Candidates(engine: Engine, input: Input, bundles: seq<Bundle>): seq<Candidate> {
    if bundles == [] then []
    else
      [Default(DefaultVerdict(bundles[0]))]
      + RuleCandidates(engine, input, bundles[0], bundles[0].rules)
      + Candidates(engine, input, bundles[1..])
  }

  /** How far a walk over candidates gets. */
  datatype Walked = Ended(verdict: Verdict) | Stopped(verdict: Verdict) | Broke(error: CelError)

  /** The fold with its early exit: a matching rule that leaves deny ends it. */
  function Walk(cs: seq<Candidate>, current: Verdict): Walked {
    if cs == [] then Ended(current)
    else
      match cs[0]
      case Default(v) => Walk(cs[1..], Combine(current, v))
      case Conditional(Failed(e), _) => Broke(e)
      case Conditional(Decided(matched), v) =>
        if !matched then Walk(cs[1..], current)
        else
          var next := Combine(current, v);
          if next.effect == Deny then Stopped(next) else Walk(cs[1..], next)
  }

  /** Nothing contributed: deny, with a reason that tells the two ways apart. */
  function Conclude(v: Verdict, anyBundle: bool): Verdict {
    if v.effect != Unset then v
    else if !anyBundle then NOTHING.(effect := Deny, reason := "No active policy allows this action")
    else v.(effect := Deny, reason := "No matching policy rule")
  }

  function Decide(engine: Engine, input: Input, bundles: seq<Bundle>): Result<Verdict, CelError> {
    match Walk(Candidates(engine, input, bundles), AutonomyBaseline(input))
    case Broke(e) => Err(e)
    case Stopped(v) => Ok(v)
    case Ended(v) => Ok(Conclude(v, bundles != []))
  }

  predicate RuleAtMost(a: Rule, b: Rule) {
    a.priority < b.priority || (a.priority == b.priority && AtMost(a.id, b.id))
  }

  lemma RuleOrderIsTotal()
    ensures TotalPreorder(RuleAtMost)
  {
    StringOrderIsTotal();
    forall a, b ensures RuleAtMost(a, b) || RuleAtMost(b, a) {
      assert AtMost(a.id, b.id) || AtMost(b.id, a.id);
    }
    forall a, b, c | RuleAtMost(a, b) && RuleAtMost(b, c) ensures RuleAtMost(a, c) {
      if a.priority == b.priority == c.priority {
        assert AtMost(a.id, b.id) && AtMost(b.id, c.id);
      }
    }
  }

  /** `o` is `b` with its rules sorted by priority and identifier. */
  ghost predicate Arranged(b: Bundle, o: Bundle) {
    o == b.(rules := o.rules) && multiset(o.rules) == multiset(b.rules) && SortedBy(RuleAtMost, o.rules)
  }

  ghost predicate ArrangedAll(bundles: seq<Bundle>, ordered: seq<Bundle>) {
    |ordered| == |bundles| && forall i | 0 <= i < |bundles| :: Arranged(bundles[i], ordered[i])
  }

  lemma {:induction false} WalkAppend(a: seq<Candidate>, b: seq<Candidate>, v: Verdict)
    ensures Walk(a + b, v) == match Walk(a, v) case Ended(w) => Walk(b, w) case other => other
  {
    if a == [] {
      assert a + b == b;
    } else {
      assert (a + b)[1..] == a[1..] + b;
      match a[0]
      case Default(d) => WalkAppend(a[1..], b, Combine(v, d));
      case Conditional(Failed(e), _) =>
      case Conditional(Decided(matched), d) => WalkAppend(a[1..], b, if matched then Combine(v, d) else v);
    }
  }

  lemma {:induction false} CandidatesAppend(engine: Engine, input: Input, a: seq<Bundle>, b: seq<Bundle>)
    ensures Candidates(engine, input, a + b) == Candidates(engine, input, a) + Candidates(engine, input, b)
  {
    if a == [] {
      assert a + b == b;
    } else {
      assert (a + b)[1..] == a[1..] + b;
      CandidatesAppend(engine, input, a[1..], b);
    }
  }

  lemma {:induction false} RuleCandidatesAppend(
    engine: Engine, input: Input, bundle: Bundle, a: seq<Rule>, b: seq<Rule>)
    ensures RuleCandidates(engine, input, bundle, a + b)
         == RuleCandidates(engine, input, bundle, a) + RuleCandidates(engine, input, bundle, b)
  {
    if a == [] {
      assert a + b == b;
    } else {
      assert (a + b)[1..] == a[1..] + b;
      RuleCandidatesAppend(engine, input, bundle, a[1..], b);
    }
  }

  lemma ArrangeRest(bundles: seq<Bundle>) returns (ordered: seq<Bundle>)
    ensures ArrangedAll(bundles, ordered)
  {
    RuleOrderIsTotal();
    ordered := [];
    for i := 0 to |bundles|
      invariant ArrangedAll(bundles[..i], ordered)
    {
      var rules := Arrangement(bundles[i].rules, RuleAtMost);
      ordered := ordered + [bundles[i].(rules := rules)];
    }
    assert bundles[..|bundles|] == bundles;
  }

  predicate ColonFree(b: Bundle) {
    ':' !in b.policyId && forall r :: r in b.rules ==> ':' !in r.id
  }

  /** How one bundle left the running verdict. */
  datatype Progress = Continue(verdict: Verdict) | Exit(verdict: Verdict) | Fail(error: CelError)

  function AsProgress(w: Walked): Progress {
    match w
    case Ended(v) => Continue(v)
    case Stopped(v) => Exit(v)
    case Broke(e) => Fail(e)
  }

  /** Walking the rules from one on: skip it, fail, pass it by, or take it in. */
  lemma WalkRule(engine: Engine, input: Input, b: Bundle, rules: seq<Rule>, i: nat, v: Verdict)
    requires i < |rules|
    ensures var rest := RuleCandidates(engine, input, b, rules[i + 1..]);
            var outcome := Direct(engine, rules[i].condition, input);
            Walk(RuleCandidates(engine, input, b, rules[i..]), v) ==
            if !(rules[i].enabled && Prefilter(rules[i], input)) then Walk(rest, v)
            else if outcome.Failed? then Broke(outcome.error)
            else if !outcome.value then Walk(rest, v)
            else if Combine(v, RuleVerdict(b, rules[i])).effect == Deny then
              Stopped(Combine(v, RuleVerdict(b, rules[i])))
            else Walk(rest, Combine(v, RuleVerdict(b, rules[i])))
  {
    var rest := RuleCandidates(engine, input, b, rules[i + 1..]);
    assert rules[i..][0] == rules[i] && rules[i..][1..] == rules[i + 1..];
    if rules[i].enabled && Prefilter(rules[i], input) {
      var c := Conditional(Direct(engine, rules[i].condition, input), RuleVerdict(b, rules[i]));
      assert RuleCandidates(engine, input, b, rules[i..]) == [c] + rest;
      assert ([c] + rest)[1..] == rest;
    } else {
      assert RuleCandidates(engine, input, b, rules[i..]) == rest;
    }
  }

  lemma WalkBundle(engine: Engine, input: Input, b: Bundle, v: Verdict)
    ensures Walk(Candidates(engine, input, [b]), v)
         == Walk(RuleCandidates(engine, input, b, b.rules), Combine(v, DefaultVerdict(b)))
  {
    var rules := RuleCandidates(engine, input, b, b.rules);
    assert Candidates(engine, input, [b][1..]) == [];
    assert Candidates(engine, input, [b]) == [Default(DefaultVerdict(b))] + rules;
    assert ([Default(DefaultVerdict(b))] + rules)[1..] == rules;
  }

  /** After bundles walked to their end, the walk goes on with the next. */
  lemma WalkExtends(engine: Engine, input: Input, done: seq<Bundle>, more: seq<Bundle>, v: Verdict)
    ensures Walk(Candidates(engine, input, done + more), v) ==
            match Walk(Candidates(engine, input, done), v)
            case Ended(w) => Walk(Candidates(engine, input, more), w)
            case other => other
  {
    CandidatesAppend(engine, input, done, more);
    WalkAppend(Candidates(engine, input, done), Candidates(engine, input, more), v);
  }

  class PolicyEvaluator {
    const cel: Evaluator

    constructor (cel: Evaluator)
      ensures this.cel == cel
    {
      this.cel := cel;
    }

    /** The loop over one bundle: its default, then its rules in order. */
    method EvaluateBundle(input: Input, bundle: Bundle, current: Verdict)
      returns (r: Progress, ghost ordered: Bundle)
      requires cel.Valid() && ColonFree(bundle)
      modifies cel
      ensures cel.Valid() && Arranged(bundle, ordered)
      ensures r == AsProgress(Walk(Candidates(cel.engine, input, [ordered]), current))
    {
      RuleOrderIsTotal();
      var result := Combine(current, DefaultVerdict(bundle));
      var rules := SortBy(bundle.rules, RuleAtMost);
      ordered := bundle.(rules := rules);
      WalkBundle(cel.engine, input, ordered, current);
      assert rules[0..] == rules;
      ghost var goal := Walk(Candidates(cel.engine, input, [ordered]), current);
      for i := 0 to |rules|
        invariant cel.Valid()
        invariant goal == Walk(RuleCandidates(cel.engine, input, ordered, rules[i..]), result)
      {
        var rule := rules[i];
        WalkRule(cel.engine, input, ordered, rules, i, result);
        assert RuleVerdict(ordered, rule) == RuleVerdict(bundle, rule);
        var selected := rule.enabled;
        if selected {
          selected := RuleMatchesPrefilter(rule, input);
        }
        if !selected {
          continue;
        }
        assert rule in multiset(bundle.rules);
        var outcome := EvaluateCondition(bundle, rule, input);
        if outcome.Failed? {
          return Fail(outcome.error), ordered;
        }
        if !outcome.value {
          continue;
        }
        result := Combine(result, RuleVerdict(bundle, rule));
        if result.effect == Deny {
          return Exit(result), ordered;
        }
      }
      return Continue(result), ordered;
    }

    /** Asks the condition evaluator under the printed cache key. */
    method EvaluateCondition(bundle: Bundle, rule: Rule, input: Input) returns (r: Outcome)
      requires cel.Valid() && ColonFree(bundle) && rule in bundle.rules
      modifies cel
      ensures cel.Valid() && r == Direct(cel.engine, rule.condition, input)
    {
      r := cel.Evaluate(
        bundle.policyId + ":" + Decimal(bundle.policyVersion) + ":" + rule.id + ":" + rule.condition,
        rule.condition, input, Source(bundle.policyId, bundle.policyVersion, rule.id, rule.condition));
    }

    /** The decision, for some sorted arrangement of every bundle's rules. */
    method Evaluate(input: Input, bundles: seq<Bundle>)
      returns (r: Result<Verdict, CelError>, ghost ordered: seq<Bundle>)
      requires cel.Valid() && forall b :: b in bundles ==> ColonFree(b)
      modifies cel
      ensures cel.Valid() && ArrangedAll(bundles, ordered)
      ensures r == Decide(cel.engine, input, ordered)
    {
      var result := AutonomyBaseline(input);
      ghost var base := result;
      ordered := [];
      for i := 0 to |bundles|
        invariant cel.Valid() && ArrangedAll(bundles[..i], ordered)
        invariant Walk(Candidates(cel.engine, input, ordered), base) == Ended(result)
      {
        var progress, arranged := EvaluateBundle(input, bundles[i], result);
        WalkExtends(cel.engine, input, ordered, [arranged], base);
        ordered := ordered + [arranged];
        if progress.Continue? {
          result := progress.verdict;
        } else {
          ghost var rest := ArrangeRest(bundles[i + 1..]);
          WalkExtends(cel.engine, input, ordered, rest, base);
          ordered := ordered + rest;
          return if progress.Exit? then Ok(progress.verdict) else Err(progress.error), ordered;
        }
      }
      if |bundles| == 0 && result.effect == Unset {
        return Ok(NOTHING.(effect := Deny, reason := "No active policy allows this action")), ordered;
      }
      if result.effect == Unset {
        result := result.(effect := Deny, reason := "No matching policy rule");
      }
      return Ok(result), ordered;
    }
  }
}
