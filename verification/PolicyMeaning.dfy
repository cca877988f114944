/**
 The policy decision read off the input and the fields of bundles and rules: who says
 which effect, whose verdict wins, under which limits, and what silence means.
 */
module PolicyMeaning {
  import opened Prelude
  import opened Ordering
  import opened Constraints
  import opened Policy
  import opened Cel
  import opened Evaluation
  import opened EvaluationProperties

  /** The rule is enabled, fits the input in every respect, and its condition holds. */
  ghost predicate Applies(engine: Engine, input: Input, r: Rule) {
    && r.enabled
    && (exists p :: p in r.actionPatterns
          && if p != [] && p[|p| - 1] == '*' then p[..|p| - 1] <= input.action else p == input.action)
    && (r.resourceTypes == [] || input.resourceType in r.resourceTypes)
    && (r.riskLevels == [] || input.risk in r.riskLevels)
    && (r.maximumCost == None || input.estimatedCost <= r.maximumCost.value)
    && engine.compile(r.condition).Some?
    && engine.run(engine.compile(r.condition).value, input) == Decided(true)
  }

  lemma AppliesIffMatched(engine: Engine, input: Input, r: Rule)
    ensures Applies(engine, input, r) <==>
              r.enabled && Prefilter(r, input) && Direct(engine, r.condition, input) == Decided(true)
  {
    if r.enabled && Prefilter(r, input) {
      var p :| p in r.actionPatterns && ActionMatches(p, input.action);
      assert if p != [] && p[|p| - 1] == '*' then p[..|p| - 1] <= input.action else p == input.action;
    }
    if p :| p in r.actionPatterns
            && if p != [] && p[|p| - 1] == '*' then p[..|p| - 1] <= input.action else p == input.action {
      assert ActionMatches(p, input.action);
    }
  }

  // ----- the subject's own voice -----

  predicate Reads(action: string) {
    || "read." <= action || "observe." <= action || "research." <= action
    || (|action| >= 5 && action[|action| - 5..] == ".read")
  }

  /** What an agent's autonomy says by itself; nobody else has a voice of their own. */
  predicate BaselineSays(input: Input, e: Effect) {
    && input.subjectType == "agent"
    && (|| (input.autonomy == "observe_only" && e == if Reads(input.action) then AllowWithConstraints else Deny)
        || (input.autonomy in {"suggest", "approval_required"} && e == RequireApproval)
        || (input.autonomy !in {"observe_only", "suggest", "approval_required", "policy_bounded"} && e == Deny))
  }

  predicate BaselineReviews(input: Input) {
    input.subjectType == "agent" && input.autonomy in {"suggest", "approval_required"}
  }

  function BaselineReason(input: Input): string {
    match input.autonomy
    case "observe_only" =>
      if Reads(input.action) then "Agent autonomy permits read actions only" else "Agent autonomy is observe-only"
    case "suggest" => "Agent autonomy permits suggestions only"
    case "approval_required" => "Agent autonomy requires approval"
    case _ => "Agent autonomy is unknown"
  }

  lemma BaselineByFields(input: Input)
    ensures var v := AutonomyBaseline(input);
            && (forall e :: e != Unset ==> (v.effect == e <==> BaselineSays(input, e)))
            && v.policyId == None && v.policyVersion == None && v.ruleId == None
            && v.constraints == Limits(None, None, [], [], BaselineReviews(input))
            && v.reason == if v.effect == Unset then "" else BaselineReason(input)
  {
  }

  // ----- which effect -----

  /** The bundle's default or one of its applicable rules has this effect. */
  ghost predicate BundleSays(engine: Engine, input: Input, b: Bundle, e: Effect) {
    b.defaultEffect == e || exists r :: r in b.rules && Applies(engine, input, r) && r.effect == e
  }

  ghost predicate Says(engine: Engine, input: Input, bundles: seq<Bundle>, e: Effect) {
    BaselineSays(input, e) || exists b :: b in bundles && BundleSays(engine, input, b, e)
  }

  lemma BundleSaysIffContributes(engine: Engine, input: Input, b: Bundle, e: Effect)
    requires e != Unset
    ensures BundleSays(engine, input, b, e) <==> exists v :: Contributes(engine, input, b, v) && v.effect == e
  {
    if b.defaultEffect == e {
      assert Contributes(engine, input, b, DefaultVerdict(b));
    }
    if r :| r in b.rules && Applies(engine, input, r) && r.effect == e {
      AppliesIffMatched(engine, input, r);
      assert Contributes(engine, input, b, RuleVerdict(b, r));
    }
    if v :| Contributes(engine, input, b, v) && v.effect == e && v != DefaultVerdict(b) {
      var r :| r in b.rules && r.enabled && Prefilter(r, input)
               && Direct(engine, r.condition, input) == Decided(true) && v == RuleVerdict(b, r);
      AppliesIffMatched(engine, input, r);
    }
  }

  lemma SaysIffSpeaks(engine: Engine, input: Input, bundles: seq<Bundle>, e: Effect)
    requires e != Unset
    ensures Says(engine, input, bundles, e) <==> exists v :: Speaks(engine, input, bundles, v) && v.effect == e
  {
    BaselineByFields(input);
    if BaselineSays(input, e) {
      assert Speaks(engine, input, bundles, AutonomyBaseline(input));
    }
    if b :| b in bundles && BundleSays(engine, input, b, e) {
      BundleSaysIffContributes(engine, input, b, e);
      var v :| Contributes(engine, input, b, v) && v.effect == e;
      assert Speaks(engine, input, bundles, v);
    }
    if v :| Speaks(engine, input, bundles, v) && v.effect == e && v != AutonomyBaseline(input) {
      var b :| b in bundles && Contributes(engine, input, b, v);
      BundleSaysIffContributes(engine, input, b, e);
    }
  }

  /** Nobody says anything. */
  ghost predicate Silent(engine: Engine, input: Input, bundles: seq<Bundle>) {
    forall e :: e != Unset ==> !Says(engine, input, bundles, e)
  }

  /**
   The strictest effect that anybody says: the four known effects in their order, a name
   nobody knows only if none of them is said, and deny if nothing is.
   */
  lemma EffectByFields(engine: Engine, input: Input, bundles: seq<Bundle>, ordered: seq<Bundle>)
    requires Sound(engine, input, bundles) && ArrangedAll(bundles, ordered)
    ensures Decide(engine, input, ordered).Ok?
    ensures var e := Decide(engine, input, ordered).value.effect;
            var deny, approval, limited, allow :=
              Says(engine, input, bundles, Deny), Says(engine, input, bundles, RequireApproval),
              Says(engine, input, bundles, AllowWithConstraints), Says(engine, input, bundles, Allow);
            && (e == Deny <==> deny || Silent(engine, input, bundles))
            && (e == RequireApproval <==> approval && !deny)
            && (e == AllowWithConstraints <==> limited && !approval && !deny)
            && (e == Allow <==> allow && !limited && !approval && !deny)
            && e != Unset
            && (e.Other? ==> Says(engine, input, bundles, e) && !deny && !approval && !limited && !allow)
  {
    var e := StrictestSaid(engine, input, bundles, ordered);
    if !Silent(engine, input, bundles) {
      StrictestRanks(engine, input, bundles, e);
    }
  }

  /** The decision's effect is said and nothing said is stricter, unless all are silent. */
  lemma StrictestSaid(engine: Engine, input: Input, bundles: seq<Bundle>, ordered: seq<Bundle>) returns (e: Effect)
    requires Sound(engine, input, bundles) && ArrangedAll(bundles, ordered)
    ensures Decide(engine, input, ordered).Ok? && e == Decide(engine, input, ordered).value.effect
    ensures Silent(engine, input, bundles) ==> e == Deny
    ensures !Silent(engine, input, bundles) ==>
              && e != Unset && Says(engine, input, bundles, e)
              && forall f :: f != Unset && Says(engine, input, bundles, f) ==> Severity(f) <= Severity(e)
  {
    EffectIsStrictest(engine, input, bundles, ordered);
    e := Decide(engine, input, ordered).value.effect;
    if Silent(engine, input, bundles) {
      forall v ensures !Speaks(engine, input, bundles, v) {
        if Speaks(engine, input, bundles, v) {
          SpeakersSay(engine, input, bundles, v);
        }
      }
    } else {
      var f :| f != Unset && Says(engine, input, bundles, f);
      SaysIffSpeaks(engine, input, bundles, f);
      var s :| Strictest(engine, input, bundles, s) && SameHead(Decide(engine, input, ordered).value, s);
      SpeakersSay(engine, input, bundles, s);
      StrictestByFields(engine, input, bundles, s);
    }
  }

  lemma StrictestRanks(engine: Engine, input: Input, bundles: seq<Bundle>, e: Effect)
    requires e != Unset && Says(engine, input, bundles, e)
    requires forall f :: f != Unset && Says(engine, input, bundles, f) ==> Severity(f) <= Severity(e)
    ensures var deny, approval, limited, allow :=
              Says(engine, input, bundles, Deny), Says(engine, input, bundles, RequireApproval),
              Says(engine, input, bundles, AllowWithConstraints), Says(engine, input, bundles, Allow);
            && (e == Deny <==> deny)
            && (e == RequireApproval <==> approval && !deny)
            && (e == AllowWithConstraints <==> limited && !approval && !deny)
            && (e == Allow <==> allow && !limited && !approval && !deny)
            && (e.Other? ==> !deny && !approval && !limited && !allow)
  {
  }

  lemma SpeakersSay(engine: Engine, input: Input, bundles: seq<Bundle>, v: Verdict)
    requires Speaks(engine, input, bundles, v)
    ensures v.effect != Unset && Says(engine, input, bundles, v.effect)
  {
    assert v.effect != Unset;
    SaysIffSpeaks(engine, input, bundles, v.effect);
  }

  lemma StrictestByFields(engine: Engine, input: Input, bundles: seq<Bundle>, v: Verdict)
    requires Strictest(engine, input, bundles, v)
    ensures forall e :: e != Unset && Says(engine, input, bundles, e) ==> Severity(e) <= Severity(v.effect)
  {
    forall e | e != Unset && Says(engine, input, bundles, e) ensures Severity(e) <= Severity(v.effect) {
      SaysIffSpeaks(engine, input, bundles, e);
      var w :| Speaks(engine, input, bundles, w) && w.effect == e;
    }
  }

  /** Nobody but an agent, and no policy-bounded one, is allowed anything no bundle says. */
  lemma AllowedOnlyIfSaid(engine: Engine, input: Input, bundles: seq<Bundle>, ordered: seq<Bundle>)
    requires Sound(engine, input, bundles) && ArrangedAll(bundles, ordered)
    requires input.subjectType != "agent" || input.autonomy == "policy_bounded"
    ensures Decide(engine, input, ordered).Ok?
    ensures var e := Decide(engine, input, ordered).value.effect;
            e != Deny ==> exists b :: b in bundles && BundleSays(engine, input, b, e)
  {
    EffectByFields(engine, input, bundles, ordered);
  }

  /** Silence is denied, with no limits and nobody's name, for one of two reasons. */
  lemma SilenceIsDenied(engine: Engine, input: Input, bundles: seq<Bundle>, ordered: seq<Bundle>)
    requires Sound(engine, input, bundles) && ArrangedAll(bundles, ordered) && Silent(engine, input, bundles)
    ensures Decide(engine, input, ordered) ==
              Ok(Verdict(Deny, Limits(None, None, [], [], false),
                         if bundles == [] then "No active policy allows this action" else "No matching policy rule",
                         None, None, None))
  {
    ArrangedSound(engine, input, bundles, ordered);
    var vs := Contributors(engine, input, ordered);
    if vs != [] {
      ContributorsSet(engine, input, ordered);
      assert vs[0] in vs && vs[0].effect != Unset;
      SpeaksIffContributor(engine, input, bundles, ordered, vs[0]);
      SpeakersSay(engine, input, bundles, vs[0]);
    }
    var m := DecisionFoldsPrefix(engine, input, ordered);
    assert vs[..m] == [];
  }

  // ----- whose verdict -----

  predicate Known(e: Effect) {
    e in {Allow, AllowWithConstraints, RequireApproval, Deny}
  }

  /** The first verdict with this effect. */
  ghost predicate IsFirst(vs: seq<Verdict>, v: Verdict, e: Effect) {
    v.effect == e && exists k :: 0 <= k < |vs| && vs[k] == v && forall j | 0 <= j < k :: vs[j].effect != e
  }

  ghost predicate Lacks(vs: seq<Verdict>, e: Effect) {
    forall v :: v in vs ==> v.effect != e
  }

  lemma FirstAcross(a: seq<Verdict>, b: seq<Verdict>, c: seq<Verdict>, v: Verdict, e: Effect)
    requires Lacks(a, e) && IsFirst(b, v, e)
    ensures IsFirst(a + b + c, v, e)
  {
    var vs := a + b + c;
    var k :| 0 <= k < |b| && b[k] == v && forall j | 0 <= j < k :: b[j].effect != e;
    forall j | 0 <= j < |a| + k ensures vs[j].effect != e {
      if j < |a| {
        assert vs[j] == a[j] && a[j] in a;
      } else {
        assert vs[j] == b[j - |a|];
      }
    }
    assert vs[|a| + k] == v;
  }

  /** The decision is headed by the first verdict of its effect. */
  lemma DecisionIsFirst(engine: Engine, input: Input, ordered: seq<Bundle>, v: Verdict)
    requires Sound(engine, input, ordered) && Decide(engine, input, ordered).Ok?
    requires var e := Decide(engine, input, ordered).value.effect;
             Known(e) && IsFirst(Contributors(engine, input, ordered), v, e)
    ensures SameHead(Decide(engine, input, ordered).value, v)
  {
    DecisionFollowsLeader(engine, input, ordered);
    var d, vs := Decide(engine, input, ordered).value, Contributors(engine, input, ordered);
    var k: nat :| Leading(vs, k);
    assert SameHead(d, vs[k]) && vs[k].effect == d.effect;
    var j :| 0 <= j < |vs| && vs[j] == v && forall i | 0 <= i < j :: vs[i].effect != d.effect;
    assert vs[j].effect == vs[k].effect;
    assert j == k;
  }

  lemma {:induction false} ContributedAppend(a: seq<Candidate>, b: seq<Candidate>)
    ensures Contributed(a + b) == Contributed(a) + Contributed(b)
  {
    if a == [] {
      assert a + b == b;
    } else {
      assert (a + b)[1..] == a[1..] + b;
      ContributedAppend(a[1..], b);
    }
  }

  /** The contributors of some bundles that do not say e have it nowhere. */
  lemma QuietBundlesLack(engine: Engine, input: Input, bundles: seq<Bundle>, e: Effect)
    requires e != Unset && forall b :: b in bundles ==> !BundleSays(engine, input, b, e)
    ensures Lacks(Contributed(Candidates(engine, input, bundles)), e)
  {
    var cs := Candidates(engine, input, bundles);
    forall v | v in Contributed(cs) ensures v.effect != e {
      ContributedMembers(cs, v);
      CandidateMembers(engine, input, bundles, Default(v));
      CandidateMembers(engine, input, bundles, Conditional(Decided(true), v));
      var b :| b in bundles
               && (Offers(engine, input, b, Default(v)) || Offers(engine, input, b, Conditional(Decided(true), v)));
      assert Contributes(engine, input, b, v);
      if v.effect == e {
        BundleSaysIffContributes(engine, input, b, e);
      }
    }
  }

  /** The contributors around the i-th bundle. */
  lemma ContributorsAround(engine: Engine, input: Input, ordered: seq<Bundle>, i: nat)
    requires i < |ordered|
    ensures Contributors(engine, input, ordered) ==
              (Told(AutonomyBaseline(input)) + Contributed(Candidates(engine, input, ordered[..i])))
              + Contributed(Candidates(engine, input, [ordered[i]]))
              + Contributed(Candidates(engine, input, ordered[i + 1..]))
  {
    var a, b, c := ordered[..i], [ordered[i]], ordered[i + 1..];
    assert ordered == a + b + c;
    CandidatesAppend(engine, input, a + b, c);
    CandidatesAppend(engine, input, a, b);
    ContributedAppend(Candidates(engine, input, a + b), Candidates(engine, input, c));
    ContributedAppend(Candidates(engine, input, a), Candidates(engine, input, b));
  }

  lemma BundleContributors(engine: Engine, input: Input, b: Bundle)
    ensures Contributed(Candidates(engine, input, [b]))
         == Told(DefaultVerdict(b)) + Contributed(RuleCandidates(engine, input, b, b.rules))
  {
    var rules := RuleCandidates(engine, input, b, b.rules);
    assert Candidates(engine, input, [b][1..]) == [];
    assert Candidates(engine, input, [b]) == [Default(DefaultVerdict(b))] + rules;
    ContributedAppend([Default(DefaultVerdict(b))], rules);
    assert Contributed([Default(DefaultVerdict(b))]) == Told(DefaultVerdict(b)) + Contributed([]);
  }

  /** The k-th rule is the first applicable one of its effect. */
  ghost predicate FirstRule(engine: Engine, input: Input, rules: seq<Rule>, k: nat, e: Effect) {
    && k < |rules| && Applies(engine, input, rules[k]) && rules[k].effect == e
    && forall m | 0 <= m < k :: !(Applies(engine, input, rules[m]) && rules[m].effect == e)
  }

  /** The first rule contributes its verdict if it applies, and nothing if it does not. */
  lemma RuleContributes(engine: Engine, input: Input, b: Bundle, rules: seq<Rule>)
    requires rules != []
    ensures Contributed(RuleCandidates(engine, input, b, rules))
         == (if Applies(engine, input, rules[0]) && rules[0].effect != Unset then [RuleVerdict(b, rules[0])] else [])
            + Contributed(RuleCandidates(engine, input, b, rules[1..]))
  {
    var r := rules[0];
    AppliesIffMatched(engine, input, r);
    var head := if r.enabled && Prefilter(r, input)
                then [Conditional(Direct(engine, r.condition, input), RuleVerdict(b, r))] else [];
    ContributedAppend(head, RuleCandidates(engine, input, b, rules[1..]));
    assert head != [] ==> head[1..] == [];
  }

  lemma {:induction false} RulesFirst(engine: Engine, input: Input, b: Bundle, rules: seq<Rule>, k: nat, e: Effect)
    requires e != Unset && FirstRule(engine, input, rules, k, e)
    ensures IsFirst(Contributed(RuleCandidates(engine, input, b, rules)), RuleVerdict(b, rules[k]), e)
  {
    var r, rest := rules[0], rules[1..];
    var told := if Applies(engine, input, r) && r.effect != Unset then [RuleVerdict(b, r)] else [];
    var tail := Contributed(RuleCandidates(engine, input, b, rest));
    RuleContributes(engine, input, b, rules);
    if k == 0 {
      assert told[0] == RuleVerdict(b, r);
      FirstAcross([], told, tail, RuleVerdict(b, r), e);
      assert [] + told + tail == told + tail;
    } else {
      assert rest[k - 1] == rules[k];
      assert forall m | 0 <= m < k - 1 :: rest[m] == rules[m + 1];
      RulesFirst(engine, input, b, rest, k - 1, e);
      FirstAcross(told, tail, [], RuleVerdict(b, rules[k]), e);
      assert told + tail + [] == told + tail;
    }
  }

  /** A bundle's first verdict of an effect: its default, or else its first applicable rule. */
  lemma BundleFirst(engine: Engine, input: Input, b: Bundle, k: nat, e: Effect)
    requires e != Unset && (b.defaultEffect == e || FirstRule(engine, input, b.rules, k, e))
    ensures IsFirst(Contributed(Candidates(engine, input, [b])),
                    if b.defaultEffect == e then DefaultVerdict(b) else RuleVerdict(b, b.rules[k]), e)
  {
    var told, tail := Told(DefaultVerdict(b)), Contributed(RuleCandidates(engine, input, b, b.rules));
    BundleContributors(engine, input, b);
    if b.defaultEffect == e {
      assert told[0] == DefaultVerdict(b);
      FirstAcross([], told, tail, DefaultVerdict(b), e);
      assert [] + told + tail == told + tail;
    } else {
      RulesFirst(engine, input, b, b.rules, k, e);
      FirstAcross(told, tail, [], RuleVerdict(b, b.rules[k]), e);
      assert told + tail + [] == told + tail;
    }
  }

  /** An agent whose own autonomy says the effect is told so, and no bundle is named. */
  lemma BaselineWins(engine: Engine, input: Input, ordered: seq<Bundle>)
    requires Sound(engine, input, ordered) && Decide(engine, input, ordered).Ok?
    requires var e := Decide(engine, input, ordered).value.effect; Known(e) && BaselineSays(input, e)
    ensures var d := Decide(engine, input, ordered).value;
            d.reason == BaselineReason(input) && d.policyId == None && d.policyVersion == None && d.ruleId == None
  {
    var e, v := Decide(engine, input, ordered).value.effect, AutonomyBaseline(input);
    BaselineByFields(input);
    assert Told(v)[0] == v;
    var rest := Contributed(Candidates(engine, input, ordered));
    FirstAcross([], Told(v), rest, v, e);
    assert [] + Told(v) + rest == Contributors(engine, input, ordered);
    DecisionIsFirst(engine, input, ordered, v);
  }

  /**
   Otherwise the first bundle that says the effect is named: by its default if that says
   it, and else by its first applicable rule that does.
   */
  lemma BundleWins(engine: Engine, input: Input, ordered: seq<Bundle>, i: nat, k: nat)
    requires Sound(engine, input, ordered) && Decide(engine, input, ordered).Ok? && i < |ordered|
    requires var e := Decide(engine, input, ordered).value.effect;
             && Known(e) && !BaselineSays(input, e)
             && (forall j | 0 <= j < i :: !BundleSays(engine, input, ordered[j], e))
             && (ordered[i].defaultEffect == e || FirstRule(engine, input, ordered[i].rules, k, e))
    ensures var d, b := Decide(engine, input, ordered).value, ordered[i];
            && d.policyId == Some(b.policyId) && d.policyVersion == Some(b.policyVersion)
            && d.reason == (if b.defaultEffect == d.effect then "Policy default effect applied" else b.rules[k].reason)
            && d.ruleId == (if b.defaultEffect == d.effect then None else Some(b.rules[k].id))
  {
    var e, b, base := Decide(engine, input, ordered).value.effect, ordered[i], AutonomyBaseline(input);
    var v := if b.defaultEffect == e then DefaultVerdict(b) else RuleVerdict(b, b.rules[k]);
    BaselineByFields(input);
    QuietBundlesLack(engine, input, ordered[..i], e);
    BundleFirst(engine, input, b, k, e);
    ContributorsAround(engine, input, ordered, i);
    var before := Told(base) + Contributed(Candidates(engine, input, ordered[..i]));
    assert Lacks(before, e);
    FirstAcross(before, Contributed(Candidates(engine, input, [b])),
                Contributed(Candidates(engine, input, ordered[i + 1..])), v, e);
    DecisionIsFirst(engine, input, ordered, v);
  }

  /** Rules come by ascending priority, and by identifier where priorities are equal. */
  lemma RulesComeByPriority(b: Bundle, o: Bundle, i: nat, j: nat)
    requires Arranged(b, o) && i < j < |o.rules|
    ensures o.policyId == b.policyId && o.policyVersion == b.policyVersion && o.defaultEffect == b.defaultEffect
    ensures multiset(o.rules) == multiset(b.rules)
    ensures o.rules[i].priority <= o.rules[j].priority
    ensures o.rules[i].priority == o.rules[j].priority ==>
              o.rules[i].id == o.rules[j].id || Before(o.rules[i].id, o.rules[j].id)
  {
    assert RuleAtMost(o.rules[i], o.rules[j]);
  }

  // ----- under which limits -----

  /** The rule's limits count: it applies and it says something. */
  ghost predicate Binds(engine: Engine, input: Input, bundles: seq<Bundle>, r: Rule) {
    r.effect != Unset && exists b :: b in bundles && r in b.rules && Applies(engine, input, r)
  }

  /** The limits of contributors are those of binding rules, or none at all but a review. */
  lemma ContributorLimits(engine: Engine, input: Input, bundles: seq<Bundle>, v: Verdict)
    requires v in Contributors(engine, input, bundles)
    ensures (exists r :: Binds(engine, input, bundles, r) && r.constraints == v.constraints)
            || v.constraints == Limits(None, None, [], [], false)
            || (BaselineReviews(input) && v.constraints == Limits(None, None, [], [], true))
  {
    ContributorMembers(engine, input, bundles, v);
    BaselineByFields(input);
    if v != AutonomyBaseline(input) {
      var b :| b in bundles && Contributes(engine, input, b, v);
      if v != DefaultVerdict(b) {
        var r :| r in b.rules && r.enabled && Prefilter(r, input)
                 && Direct(engine, r.condition, input) == Decided(true) && v == RuleVerdict(b, r);
        AppliesIffMatched(engine, input, r);
        assert Binds(engine, input, bundles, r);
      }
    }
  }

  lemma BindingRuleContributes(engine: Engine, input: Input, bundles: seq<Bundle>, r: Rule)
    requires Binds(engine, input, bundles, r)
    ensures exists v :: v in Contributors(engine, input, bundles) && v.constraints == r.constraints
  {
    var b :| b in bundles && r in b.rules && Applies(engine, input, r);
    AppliesIffMatched(engine, input, r);
    var v := RuleVerdict(b, r);
    assert Contributes(engine, input, b, v);
    ContributorMembers(engine, input, bundles, v);
  }

  lemma BaselineContributes(engine: Engine, input: Input, bundles: seq<Bundle>)
    requires BaselineReviews(input)
    ensures AutonomyBaseline(input) in Contributors(engine, input, bundles)
  {
    BaselineByFields(input);
    assert BaselineSays(input, RequireApproval);
    assert AutonomyBaseline(input).effect == RequireApproval;
    ContributorMembers(engine, input, bundles, AutonomyBaseline(input));
  }

  /** The values every binding rule permits. */
  ghost predicate AllRulesPermit(
    engine: Engine, input: Input, bundles: seq<Bundle>, list: Limits -> seq<string>, x: string)
  {
    forall r :: Binds(engine, input, bundles, r) ==> list(r.constraints) == [] || x in list(r.constraints)
  }

  lemma ReviewByFields(engine: Engine, input: Input, bundles: seq<Bundle>)
    requires Sound(engine, input, bundles) && Decide(engine, input, bundles).Ok?
    requires Decide(engine, input, bundles).value.effect != Deny
    ensures Decide(engine, input, bundles).value.constraints.requireReview <==>
              BaselineReviews(input) || exists r :: Binds(engine, input, bundles, r) && r.constraints.requireReview
  {
    var vs := LimitsAreMerged(engine, input, bundles);
    if v :| v in vs && v.constraints.requireReview {
      ContributorLimits(engine, input, bundles, v);
    }
    if r :| Binds(engine, input, bundles, r) && r.constraints.requireReview {
      BindingRuleContributes(engine, input, bundles, r);
    }
    if BaselineReviews(input) {
      BaselineContributes(engine, input, bundles);
      BaselineByFields(input);
    }
  }

  /** A decision that does not deny carries the merge of all contributors' limits. */
  lemma LimitsAreMerged(engine: Engine, input: Input, bundles: seq<Bundle>) returns (vs: seq<Verdict>)
    requires Sound(engine, input, bundles) && Decide(engine, input, bundles).Ok?
    requires Decide(engine, input, bundles).value.effect != Deny
    ensures vs == Contributors(engine, input, bundles)
    ensures var limits, cs := Decide(engine, input, bundles).value.constraints, Map(Constraint, vs);
            && limits.maxCost == LowerAll(Map(Cost, cs)) && limits.maxRuntime == LowerAll(Map(Runtime, cs))
            && limits.allowedDomains == IntersectAll(Map(Domains, cs))
            && limits.allowedResourceIds == IntersectAll(Map(Resources, cs))
            && (limits.requireReview <==> exists v :: v in vs && v.constraints.requireReview)
  {
    vs := Contributors(engine, input, bundles);
    var cs := Map(Constraint, vs);
    EarlyExitRefinesFullFold(engine, input, bundles);
    ContributorsSet(engine, input, bundles);
    FoldMergesConstraints(vs);
    MergeAllByField(cs);
    ReviewOfMerged(vs);
  }

  lemma ReviewOfMerged(vs: seq<Verdict>)
    ensures (exists c :: c in Map(Constraint, vs) && c.requireReview) <==>
            (exists v :: v in vs && v.constraints.requireReview)
  {
    var cs := Map(Constraint, vs);
    if c :| c in cs && c.requireReview {
      var i :| 0 <= i < |cs| && cs[i] == c;
      assert vs[i] in vs && vs[i].constraints == c;
    }
    if v :| v in vs && v.constraints.requireReview {
      var i :| 0 <= i < |vs| && vs[i] == v;
      assert cs[i] == v.constraints;
    }
  }

  /** Either cap of a permitted action is the least among those of the binding rules. */
  lemma CapsByFields(engine: Engine, input: Input, bundles: seq<Bundle>, r: Rule)
    requires Sound(engine, input, bundles) && Decide(engine, input, bundles).Ok?
    requires Decide(engine, input, bundles).value.effect != Deny
    ensures var limits := Decide(engine, input, bundles).value.constraints;
            && (limits.maxCost.Some? ==>
                  exists q :: Binds(engine, input, bundles, q) && q.constraints.maxCost == limits.maxCost)
            && (limits.maxRuntime.Some? ==>
                  exists q :: Binds(engine, input, bundles, q) && q.constraints.maxRuntime == limits.maxRuntime)
            && (Binds(engine, input, bundles, r) && r.constraints.maxCost.Some? ==>
                  limits.maxCost.Some? && limits.maxCost.value <= r.constraints.maxCost.value)
            && (Binds(engine, input, bundles, r) && r.constraints.maxRuntime.Some? ==>
                  limits.maxRuntime.Some? && limits.maxRuntime.value <= r.constraints.maxRuntime.value)
  {
    var vs := LimitsAreMerged(engine, input, bundles);
    var cs := Map(Constraint, vs);
    CapOfBinding(engine, input, bundles, Cost, r);
    CapOfBinding(engine, input, bundles, Runtime, r);
  }

  lemma CapOfBinding(engine: Engine, input: Input, bundles: seq<Bundle>, cap: Limits -> Option<int>, r: Rule)
    requires cap(Limits(None, None, [], [], false)) == None && cap(Limits(None, None, [], [], true)) == None
    ensures var least := LowerAll(Map(cap, Map(Constraint, Contributors(engine, input, bundles))));
            && (least.Some? ==> exists q :: Binds(engine, input, bundles, q) && cap(q.constraints) == least)
            && (Binds(engine, input, bundles, r) && cap(r.constraints).Some? ==>
                  least.Some? && least.value <= cap(r.constraints).value)
  {
    var vs := Contributors(engine, input, bundles);
    var caps := Map(cap, Map(Constraint, vs));
    LowerAllIsMinimum(caps);
    if LowerAll(caps).Some? {
      CapComesFromRule(engine, input, bundles, cap, LowerAll(caps));
    }
    if Binds(engine, input, bundles, r) && cap(r.constraints).Some? {
      CapIsAmong(engine, input, bundles, cap, r);
    }
  }

  lemma CapComesFromRule(
    engine: Engine, input: Input, bundles: seq<Bundle>, cap: Limits -> Option<int>, least: Option<int>)
    requires cap(Limits(None, None, [], [], false)) == None && cap(Limits(None, None, [], [], true)) == None
    requires least.Some? && least in Map(cap, Map(Constraint, Contributors(engine, input, bundles)))
    ensures exists q :: Binds(engine, input, bundles, q) && cap(q.constraints) == least
  {
    var vs := Contributors(engine, input, bundles);
    var caps := Map(cap, Map(Constraint, vs));
    var i :| 0 <= i < |caps| && caps[i] == least;
    assert vs[i] in vs && cap(vs[i].constraints) == caps[i];
    ContributorLimits(engine, input, bundles, vs[i]);
  }

  lemma CapIsAmong(engine: Engine, input: Input, bundles: seq<Bundle>, cap: Limits -> Option<int>, r: Rule)
    requires Binds(engine, input, bundles, r)
    ensures cap(r.constraints) in Map(cap, Map(Constraint, Contributors(engine, input, bundles)))
  {
    var vs := Contributors(engine, input, bundles);
    var caps := Map(cap, Map(Constraint, vs));
    BindingRuleContributes(engine, input, bundles, r);
    var v :| v in vs && v.constraints == r.constraints;
    var i :| 0 <= i < |vs| && vs[i] == v;
    assert caps[i] == cap(r.constraints);
  }

  /**
   Either allow-list of a permitted action permits exactly what every binding rule
   permits, as soon as there is something they all permit.
   */
  lemma ListsByFields(engine: Engine, input: Input, bundles: seq<Bundle>, common: string, x: string)
    requires Sound(engine, input, bundles) && Decide(engine, input, bundles).Ok?
    requires Decide(engine, input, bundles).value.effect != Deny
    ensures var limits := Decide(engine, input, bundles).value.constraints;
            && (AllRulesPermit(engine, input, bundles, Domains, common) ==>
                  (limits.allowedDomains == [] || x in limits.allowedDomains
                   <==> AllRulesPermit(engine, input, bundles, Domains, x)))
            && (AllRulesPermit(engine, input, bundles, Resources, common) ==>
                  (limits.allowedResourceIds == [] || x in limits.allowedResourceIds
                   <==> AllRulesPermit(engine, input, bundles, Resources, x)))
  {
    var vs := LimitsAreMerged(engine, input, bundles);
    ListOfBinding(engine, input, bundles, Domains, common, x);
    ListOfBinding(engine, input, bundles, Resources, common, x);
  }

  lemma ListOfBinding(
    engine: Engine, input: Input, bundles: seq<Bundle>, list: Limits -> seq<string>, common: string, x: string)
    requires list(Limits(None, None, [], [], false)) == [] && list(Limits(None, None, [], [], true)) == []
    ensures var folded := IntersectAll(Map(list, Map(Constraint, Contributors(engine, input, bundles))));
            AllRulesPermit(engine, input, bundles, list, common) ==>
              (folded == [] || x in folded <==> AllRulesPermit(engine, input, bundles, list, x))
  {
    var lists := Map(list, Map(Constraint, Contributors(engine, input, bundles)));
    PermittedByAll(engine, input, bundles, list, common);
    PermittedByAll(engine, input, bundles, list, x);
    if AllRulesPermit(engine, input, bundles, list, common) {
      IntersectAllMeaning(lists, common);
      assert Permits(IntersectAll(lists), x) <==> AllPermit(lists, x);
    }
  }

  lemma PermittedByAll(engine: Engine, input: Input, bundles: seq<Bundle>, list: Limits -> seq<string>, x: string)
    requires list(Limits(None, None, [], [], false)) == [] && list(Limits(None, None, [], [], true)) == []
    ensures AllRulesPermit(engine, input, bundles, list, x) <==>
              AllPermit(Map(list, Map(Constraint, Contributors(engine, input, bundles))), x)
  {
    var vs := Contributors(engine, input, bundles);
    var lists := Map(list, Map(Constraint, vs));
    if AllRulesPermit(engine, input, bundles, list, x) {
      forall l | l in lists ensures Permits(l, x) {
        var i :| 0 <= i < |lists| && lists[i] == l;
        assert vs[i] in vs && list(vs[i].constraints) == l;
        ContributorLimits(engine, input, bundles, vs[i]);
      }
    }
    if AllPermit(lists, x) {
      forall r | Binds(engine, input, bundles, r) ensures list(r.constraints) == [] || x in list(r.constraints) {
        BindingRuleContributes(engine, input, bundles, r);
        var v :| v in vs && v.constraints == r.constraints;
        var i :| 0 <= i < |vs| && vs[i] == v;
        assert lists[i] == list(r.constraints) && lists[i] in lists;
        assert Permits(lists[i], x);
      }
    }
  }

  // ----- where evaluation stops -----

  /** The bundles up to the k-th rule of the i-th one, without it. */
  function UpTo(ordered: seq<Bundle>, i: nat, k: nat): seq<Bundle>
    requires i < |ordered| && k <= |ordered[i].rules|
  {
    ordered[..i] + [ordered[i].(rules := ordered[i].rules[..k])]
  }

  /** What is walked after the first k rules of the i-th bundle. */
  function Beyond(engine: Engine, input: Input, ordered: seq<Bundle>, i: nat, k: nat): seq<Candidate>
    requires i < |ordered| && k <= |ordered[i].rules|
  {
    RuleCandidates(engine, input, ordered[i], ordered[i].rules[k..]) + Candidates(engine, input, ordered[i + 1..])
  }

  lemma CandidatesSplit(engine: Engine, input: Input, ordered: seq<Bundle>, i: nat, k: nat)
    requires i < |ordered| && k <= |ordered[i].rules|
    ensures Candidates(engine, input, ordered)
         == Candidates(engine, input, UpTo(ordered, i, k)) + Beyond(engine, input, ordered, i, k)
  {
    var b := ordered[i];
    var short := b.(rules := b.rules[..k]);
    assert ordered == ordered[..i] + ([b] + ordered[i + 1..]);
    CandidatesAppend(engine, input, ordered[..i], [b] + ordered[i + 1..]);
    CandidatesAppend(engine, input, [b], ordered[i + 1..]);
    CandidatesAppend(engine, input, ordered[..i], [short]);
    BundleSplit(engine, input, b, k);
    Regrouped(Candidates(engine, input, ordered[..i]), Candidates(engine, input, [short]),
              RuleCandidates(engine, input, b, b.rules[k..]), Candidates(engine, input, ordered[i + 1..]));
  }

  lemma Regrouped<T>(a: seq<T>, b: seq<T>, c: seq<T>, d: seq<T>)
    ensures a + ((b + c) + d) == (a + b) + (c + d)
  {
  }

  lemma BundleSplit(engine: Engine, input: Input, b: Bundle, k: nat)
    requires k <= |b.rules|
    ensures Candidates(engine, input, [b])
         == Candidates(engine, input, [b.(rules := b.rules[..k])]) + RuleCandidates(engine, input, b, b.rules[k..])
  {
    var short := b.(rules := b.rules[..k]);
    assert b.rules == b.rules[..k] + b.rules[k..];
    RuleCandidatesAppend(engine, input, b, b.rules[..k], b.rules[k..]);
    SingleCandidates(engine, input, b);
    SingleCandidates(engine, input, short);
    SameRuleCandidates(engine, input, b, short, b.rules[..k]);
  }

  lemma SingleCandidates(engine: Engine, input: Input, b: Bundle)
    ensures Candidates(engine, input, [b])
         == [Default(DefaultVerdict(b))] + RuleCandidates(engine, input, b, b.rules)
  {
    assert Candidates(engine, input, [b][1..]) == [];
  }

  /** Only a bundle's name is read when its rules become candidates. */
  lemma {:induction false} SameRuleCandidates(engine: Engine, input: Input, a: Bundle, b: Bundle, rules: seq<Rule>)
    requires a.policyId == b.policyId && a.policyVersion == b.policyVersion
    ensures RuleCandidates(engine, input, a, rules) == RuleCandidates(engine, input, b, rules)
  {
    if rules != [] {
      SameRuleCandidates(engine, input, a, b, rules[1..]);
    }
  }

  /**
   Nothing after a deny counts: once an applicable rule that says something leaves the
   decision at deny, later rules and bundles change nothing, not even by failing.
   */
  lemma DenyEndsEvaluation(engine: Engine, input: Input, ordered: seq<Bundle>, i: nat, k: nat)
    requires i < |ordered| && k < |ordered[i].rules|
    requires Applies(engine, input, ordered[i].rules[k]) && ordered[i].rules[k].effect != Unset
    requires Decide(engine, input, UpTo(ordered, i, k + 1)).Ok?
    requires Decide(engine, input, UpTo(ordered, i, k + 1)).value.effect == Deny
    ensures Decide(engine, input, ordered) == Decide(engine, input, UpTo(ordered, i, k + 1))
  {
    var base := AutonomyBaseline(input);
    var upTo, r := UpTo(ordered, i, k + 1), ordered[i].rules[k];
    CandidatesSplit(engine, input, ordered, i, k + 1);
    WalkAppend(Candidates(engine, input, upTo), Beyond(engine, input, ordered, i, k + 1), base);
    LastRuleEndsWalk(engine, input, ordered, i, k);
  }

  lemma OneRule(engine: Engine, input: Input, b: Bundle, r: Rule)
    requires Applies(engine, input, r)
    ensures RuleCandidates(engine, input, b, [r]) == [Conditional(Decided(true), RuleVerdict(b, r))]
  {
    AppliesIffMatched(engine, input, r);
    assert [r][1..] == [];
  }

  lemma LastRuleEndsWalk(engine: Engine, input: Input, ordered: seq<Bundle>, i: nat, k: nat)
    requires i < |ordered| && k < |ordered[i].rules|
    requires Applies(engine, input, ordered[i].rules[k]) && ordered[i].rules[k].effect != Unset
    requires var w := Walk(Candidates(engine, input, UpTo(ordered, i, k + 1)), AutonomyBaseline(input));
             w.Ended? ==> w.verdict.effect == Unset || w.verdict.effect == Deny
    ensures !Walk(Candidates(engine, input, UpTo(ordered, i, k + 1)), AutonomyBaseline(input)).Ended?
  {
    var base, r := AutonomyBaseline(input), ordered[i].rules[k];
    var short := ordered[i].(rules := ordered[i].rules[..k + 1]);
    var upTo := UpTo(ordered, i, k + 1);
    assert upTo[i] == short && short.rules[..k] == ordered[i].rules[..k] && upTo[..i] == ordered[..i];
    CandidatesSplit(engine, input, upTo, i, k);
    AppliesIffMatched(engine, input, r);
    var last := Conditional(Decided(true), RuleVerdict(short, r));
    assert short.rules[k..] == [r] && upTo[i + 1..] == [];
    OneRule(engine, input, short, r);
    assert Beyond(engine, input, upTo, i, k) == [last] + [];
    WalkAppend(Candidates(engine, input, UpTo(upTo, i, k)), [last], base);
    assert [last][1..] == [];
  }

  /** No applicable rule among these candidates' bundles: the walk goes through them all. */
  lemma {:induction false} WalkWithoutMatchEnds(cs: seq<Candidate>, v: Verdict)
    requires forall c :: c in cs && c.Conditional? ==> c.outcome == Decided(false)
    ensures Walk(cs, v).Ended?
  {
    if cs != [] {
      assert cs[0] in cs;
      WalkWithoutMatchEnds(cs[1..], match cs[0] case Default(d) => Combine(v, d) case _ => v);
    }
  }

  /**
   Nothing but such a rule ends evaluation: a condition that fails is reported if what
   comes before it holds no applicable rule, or leaves the decision short of deny.
   */
  lemma FailureIsReported(engine: Engine, input: Input, ordered: seq<Bundle>, i: nat, k: nat)
    requires i < |ordered| && k < |ordered[i].rules|
    requires Sound(engine, input, UpTo(ordered, i, k))
    requires var r := ordered[i].rules[k];
             r.enabled && Prefilter(r, input) && Direct(engine, r.condition, input).Failed?
    requires || (forall b :: b in UpTo(ordered, i, k) ==> forall r :: r in b.rules ==> !Applies(engine, input, r))
             || Decide(engine, input, UpTo(ordered, i, k)).Err?
             || Decide(engine, input, UpTo(ordered, i, k)).value.effect != Deny
    ensures Decide(engine, input, ordered) == Err(Direct(engine, ordered[i].rules[k].condition, input).error)
  {
    var base, b, r := AutonomyBaseline(input), ordered[i], ordered[i].rules[k];
    var cs := Candidates(engine, input, UpTo(ordered, i, k));
    SoundMeansNoFailure(engine, input, UpTo(ordered, i, k));
    if forall b :: b in UpTo(ordered, i, k) ==> forall r :: r in b.rules ==> !Applies(engine, input, r) {
      NoMatchAmong(engine, input, UpTo(ordered, i, k));
      WalkWithoutMatchEnds(cs, base);
    } else {
      SoundWalkIsNotBroken(cs, base);
    }
    CandidatesSplit(engine, input, ordered, i, k);
    WalkAppend(cs, Beyond(engine, input, ordered, i, k), base);
    assert b.rules[k..][0] == r;
    assert Beyond(engine, input, ordered, i, k)[0]
        == Conditional(Direct(engine, r.condition, input), RuleVerdict(b, r));
  }

  lemma {:induction false} SoundWalkIsNotBroken(cs: seq<Candidate>, v: Verdict)
    requires NoFailure(cs)
    ensures !Walk(cs, v).Broke? && (Walk(cs, v).Stopped? ==> Walk(cs, v).verdict.effect == Deny)
  {
    if cs != [] {
      WalkHead(cs, v);
      SoundWalkIsNotBroken(cs[1..], Combine(v, Incoming(cs[0])));
    }
  }

  lemma NoMatchAmong(engine: Engine, input: Input, bundles: seq<Bundle>)
    requires Sound(engine, input, bundles)
    requires forall b :: b in bundles ==> forall r :: r in b.rules ==> !Applies(engine, input, r)
    ensures forall c :: c in Candidates(engine, input, bundles) && c.Conditional? ==> c.outcome == Decided(false)
  {
    forall c | c in Candidates(engine, input, bundles) && c.Conditional? ensures c.outcome == Decided(false) {
      CandidateMembers(engine, input, bundles, c);
      var b :| b in bundles && Offers(engine, input, b, c);
      var r :| r in b.rules && r.enabled && Prefilter(r, input)
               && c == Conditional(Direct(engine, r.condition, input), RuleVerdict(b, r));
      AppliesIffMatched(engine, input, r);
    }
  }

  // ----- failures -----

  /** An error is the failure of an enabled rule's own condition. */
  lemma {:induction false} ErrorIsARules(engine: Engine, input: Input, bundles: seq<Bundle>)
    requires Decide(engine, input, bundles).Err?
    ensures exists b, r :: b in bundles && r in b.rules && r.enabled
              && match engine.compile(r.condition)
                 case None => Decide(engine, input, bundles) == Err(InvalidExpression)
                 case Some(p) => engine.run(p, input) == Failed(Decide(engine, input, bundles).error)
  {
    var cs := Candidates(engine, input, bundles);
    BrokenWalkHasCause(cs, AutonomyBaseline(input));
    var c :| c in cs && c.Conditional? && c.outcome == Failed(Decide(engine, input, bundles).error);
    CandidateMembers(engine, input, bundles, c);
    var b :| b in bundles && Offers(engine, input, b, c);
    var r :| r in b.rules && r.enabled && Prefilter(r, input)
             && c == Conditional(Direct(engine, r.condition, input), RuleVerdict(b, r));
  }

  lemma {:induction false} BrokenWalkHasCause(cs: seq<Candidate>, v: Verdict)
    requires Walk(cs, v).Broke?
    ensures exists c :: c in cs && c.Conditional? && c.outcome == Failed(Walk(cs, v).error)
  {
    match cs[0]
    case Default(d) => BrokenWalkHasCause(cs[1..], Combine(v, d));
    case Conditional(Failed(e), _) => assert cs[0] in cs;
    case Conditional(Decided(matched), d) => BrokenWalkHasCause(cs[1..], if matched then Combine(v, d) else v);
  }
}
