/** What the policy decision means, whatever order rules and bundles come in. */
module EvaluationProperties {
  import opened Prelude
  import opened Ordering
  import opened Constraints
  import opened Policy
  import opened Cel
  import opened Evaluation

  // ----- contributors -----

  function Told(v: Verdict): seq<Verdict> {
    if v.effect == Unset then [] else [v]
  }

  /** What a candidate adds: its verdict, or nothing if its condition is not met. */
  function Incoming(c: Candidate): Verdict {
    match c
    case Default(v) => v
    case Conditional(Decided(true), v) => v
    case _ => NOTHING
  }

  /** The verdicts of defaults and matching rules, in order. */
  function Contributed(cs: seq<Candidate>): seq<Verdict> {
    if cs == [] then [] else Told(Incoming(cs[0])) + Contributed(cs[1..])
  }

  function Contributors(engine: Engine, input: Input, bundles: seq<Bundle>): seq<Verdict> {
    Told(AutonomyBaseline(input)) + Contributed(Candidates(engine, input, bundles))
  }

  /** Combining everything, with no early exit. */
  function Fold(vs: seq<Verdict>): Verdict {
    if vs == [] then NOTHING else Combine(Fold(vs[..|vs| - 1]), vs[|vs| - 1])
  }

  lemma FoldSnoc(vs: seq<Verdict>, v: Verdict)
    ensures Fold(vs + [v]) == Combine(Fold(vs), v)
    ensures Fold(vs + Told(v)) == Combine(Fold(vs), v)
  {
    assert (vs + [v])[..|vs|] == vs;
    assert vs + [] == vs;
  }

  predicate NoUnset(vs: seq<Verdict>) {
    forall v :: v in vs ==> v.effect != Unset
  }

  lemma {:induction false} ContributedSet(cs: seq<Candidate>)
    ensures NoUnset(Contributed(cs))
  {
    if cs != [] {
      ContributedSet(cs[1..]);
    }
  }

  /** Everything about a verdict but its constraints. */
  predicate SameHead(a: Verdict, b: Verdict) {
    a == b.(constraints := a.constraints)
  }

  /** Position k holds the greatest severity, and is the first to. */
  predicate Leading(vs: seq<Verdict>, k: nat) {
    && k < |vs|
    && (forall j | 0 <= j < |vs| :: Severity(vs[j].effect) <= Severity(vs[k].effect))
    && (forall j | 0 <= j < k :: Severity(vs[j].effect) < Severity(vs[k].effect))
  }

  /** The fold takes its effect, reason and identifiers from the leading contributor. */
  lemma {:induction false} FoldFollowsLeader(vs: seq<Verdict>) returns (k: nat)
    requires vs != [] && NoUnset(vs)
    ensures Leading(vs, k) && SameHead(Fold(vs), vs[k])
  {
    var n := |vs| - 1;
    var init, last := vs[..n], vs[n];
    assert vs == init + [last];
    if n == 0 {
      k := 0;
    } else {
      k := FoldFollowsLeader(init);
      assert Leading(init, k) && vs[k] == init[k];
      if Severity(last.effect) > Severity(init[k].effect) {
        k := n;
      }
    }
  }

  lemma LeaderUnique(vs: seq<Verdict>, j: nat, k: nat)
    requires Leading(vs, j) && Leading(vs, k)
    ensures j == k
  {
    assert Severity(vs[j].effect) == Severity(vs[k].effect);
  }

  const Constraint := (v: Verdict) => v.constraints

  lemma {:induction false} FoldMergesConstraints(vs: seq<Verdict>)
    requires NoUnset(vs)
    ensures Fold(vs).constraints == MergeAll(Map(Constraint, vs))
    ensures vs != [] ==> Fold(vs).effect != Unset
  {
    if vs != [] {
      var init, last := vs[..|vs| - 1], vs[|vs| - 1];
      assert last in vs;
      FoldMergesConstraints(init);
      MapSnoc(vs);
      CombineMerges(Fold(init), last);
      if init == [] {
        MergeAllOne(last.constraints);
      }
    }
  }

  lemma MapSnoc(vs: seq<Verdict>)
    requires vs != []
    ensures MergeAll(Map(Constraint, vs)) == Merge(MergeAll(Map(Constraint, vs[..|vs| - 1])), vs[|vs| - 1].constraints)
  {
    assert Map(Constraint, vs)[..|vs| - 1] == Map(Constraint, vs[..|vs| - 1]);
  }

  lemma CombineMerges(current: Verdict, incoming: Verdict)
    requires incoming.effect != Unset
    ensures Combine(current, incoming).effect != Unset
    ensures current.effect == Unset ==> Combine(current, incoming) == incoming
    ensures current.effect != Unset ==>
              Combine(current, incoming).constraints == Merge(current.constraints, incoming.constraints)
  {
  }

  // ----- early exit -----

  predicate NoFailure(cs: seq<Candidate>) {
    forall c :: c in cs ==> c.Conditional? ==> c.outcome.Decided?
  }

  /** One step of a walk that meets no failure. */
  lemma WalkHead(cs: seq<Candidate>, v: Verdict)
    requires cs != [] && NoFailure(cs)
    ensures var next := Combine(v, Incoming(cs[0]));
            Walk(cs, v) == if cs[0].Conditional? && cs[0].outcome.value && next.effect == Deny
                           then Stopped(next) else Walk(cs[1..], next)
  {
    assert cs[0] in cs;
  }

  lemma TakeAcross<T>(a: seq<T>, b: seq<T>, c: seq<T>, n: nat)
    requires n <= |c|
    ensures a + (b + c)[..|b| + n] == (a + b) + c[..n]
  {
  }

  /** The walk folds a prefix of the contributors, a proper one only after deny. */
  lemma {:induction false} WalkFoldsPrefix(cs: seq<Candidate>, seen: seq<Verdict>) returns (n: nat)
    requires NoFailure(cs)
    ensures n <= |Contributed(cs)|
    ensures var w := Walk(cs, Fold(seen));
            && !w.Broke?
            && w.verdict == Fold(seen + Contributed(cs)[..n])
            && (w.Ended? ==> n == |Contributed(cs)|)
            && (w.Stopped? ==> w.verdict.effect == Deny)
  {
    if cs == [] {
      n := 0;
      assert seen + Contributed(cs)[..0] == seen;
    } else {
      var told, rest := Told(Incoming(cs[0])), Contributed(cs[1..]);
      FoldSnoc(seen, Incoming(cs[0]));
      WalkHead(cs, Fold(seen));
      assert Contributed(cs) == told + rest;
      if Walk(cs, Fold(seen)) == Stopped(Fold(seen + told)) && Fold(seen + told).effect == Deny {
        n := |told|;
        assert Contributed(cs)[..n] == told;
      } else {
        n := WalkFoldsPrefix(cs[1..], seen + told);
        TakeAcross(seen, told, rest, n);
        n := |told| + n;
      }
    }
  }

  /** Once the fold denies, further contributors change its constraints only. */
  lemma {:induction false} DenySticks(vs: seq<Verdict>, more: seq<Verdict>)
    requires Fold(vs).effect == Deny
    ensures SameHead(Fold(vs + more), Fold(vs))
  {
    if more == [] {
      assert vs + more == vs;
    } else {
      DenySticks(vs, more[..|more| - 1]);
      assert vs + more == vs + more[..|more| - 1] + [more[|more| - 1]];
      FoldSnoc(vs + more[..|more| - 1], more[|more| - 1]);
    }
  }

  /** No condition that the prefilter lets through fails. */
  predicate Sound(engine: Engine, input: Input, bundles: seq<Bundle>) {
    forall b :: b in bundles ==> forall r :: r in b.rules && r.enabled && Prefilter(r, input) ==>
      Direct(engine, r.condition, input).Decided?
  }

  lemma {:induction false} RuleCandidateMembers(engine: Engine, input: Input, b: Bundle, rules: seq<Rule>, c: Candidate)
    ensures c in RuleCandidates(engine, input, b, rules) <==>
            exists r :: r in rules && r.enabled && Prefilter(r, input)
                     && c == Conditional(Direct(engine, r.condition, input), RuleVerdict(b, r))
  {
    if rules != [] {
      assert rules == [rules[0]] + rules[1..];
      RuleCandidateMembers(engine, input, b, rules[1..], c);
    }
  }

  /** A candidate comes from the default or an applicable rule of some bundle. */
  ghost predicate Offers(engine: Engine, input: Input, b: Bundle, c: Candidate) {
    || c == Default(DefaultVerdict(b))
    || exists r :: r in b.rules && r.enabled && Prefilter(r, input)
                && c == Conditional(Direct(engine, r.condition, input), RuleVerdict(b, r))
  }

  lemma {:induction false} CandidateMembers(engine: Engine, input: Input, bundles: seq<Bundle>, c: Candidate)
    ensures c in Candidates(engine, input, bundles) <==>
            exists b :: b in bundles && Offers(engine, input, b, c)
  {
    if bundles != [] {
      assert bundles == [bundles[0]] + bundles[1..];
      RuleCandidateMembers(engine, input, bundles[0], bundles[0].rules, c);
      CandidateMembers(engine, input, bundles[1..], c);
      assert c in Candidates(engine, input, bundles) <==>
             Offers(engine, input, bundles[0], c) || c in Candidates(engine, input, bundles[1..]);
      assert forall b :: b in bundles <==> b == bundles[0] || b in bundles[1..];
    }
  }

  lemma SoundMeansNoFailure(engine: Engine, input: Input, bundles: seq<Bundle>)
    requires Sound(engine, input, bundles)
    ensures NoFailure(Candidates(engine, input, bundles))
  {
    forall c | c in Candidates(engine, input, bundles) ensures c.Conditional? ==> c.outcome.Decided? {
      CandidateMembers(engine, input, bundles, c);
    }
  }

  /** The decision a full fold over all bundles would give. */
  function FullDecision(engine: Engine, input: Input, bundles: seq<Bundle>): Verdict {
    Conclude(Fold(Contributors(engine, input, bundles)), bundles != [])
  }

  lemma ContributorsSet(engine: Engine, input: Input, bundles: seq<Bundle>)
    ensures NoUnset(Contributors(engine, input, bundles))
  {
    ContributedSet(Candidates(engine, input, bundles));
  }

  /**
   The early exit is invisible but for constraints: the decision has the effect, reason
   and identifiers of the full fold, is equal to it unless it denies, and its
   constraints merge a prefix of the contributors.
   */
  lemma EarlyExitRefinesFullFold(engine: Engine, input: Input, bundles: seq<Bundle>)
    requires Sound(engine, input, bundles)
    ensures var d := Decide(engine, input, bundles);
            var full := FullDecision(engine, input, bundles);
            var vs := Contributors(engine, input, bundles);
            && d.Ok?
            && SameHead(d.value, full)
            && (d.value.effect != Deny ==> d.value == full)
            && exists n :: 0 <= n <= |vs| && d.value.constraints == MergeAll(Map(Constraint, vs[..n]))
  {
    var vs := Contributors(engine, input, bundles);
    var m := DecisionFoldsPrefix(engine, input, bundles);
    ContributorsSet(engine, input, bundles);
    PrefixAgrees(vs, m, bundles != []);
  }

  /** A prefix that is whole, or that denies, concludes as the whole does. */
  lemma PrefixAgrees(vs: seq<Verdict>, m: nat, anyBundle: bool)
    requires NoUnset(vs) && m <= |vs| && (m < |vs| ==> Fold(vs[..m]).effect == Deny)
    ensures var d, full := Conclude(Fold(vs[..m]), anyBundle), Conclude(Fold(vs), anyBundle);
            && SameHead(d, full)
            && (d.effect != Deny ==> d == full)
            && d.constraints == MergeAll(Map(Constraint, vs[..m]))
  {
    assert NoUnset(vs[..m]);
    FoldMergesConstraints(vs[..m]);
    if m < |vs| {
      assert vs == vs[..m] + vs[m..];
      DenySticks(vs[..m], vs[m..]);
    } else {
      assert vs[..m] == vs;
    }
  }

  /** The decision concludes the fold of a prefix of the contributors. */
  lemma DecisionFoldsPrefix(engine: Engine, input: Input, bundles: seq<Bundle>) returns (m: nat)
    requires Sound(engine, input, bundles)
    ensures m <= |Contributors(engine, input, bundles)|
    ensures var v := Fold(Contributors(engine, input, bundles)[..m]);
            && Decide(engine, input, bundles) == Ok(Conclude(v, bundles != []))
            && (m < |Contributors(engine, input, bundles)| ==> v.effect == Deny)
  {
    var cs, base := Candidates(engine, input, bundles), AutonomyBaseline(input);
    var vs, seen := Contributors(engine, input, bundles), Told(AutonomyBaseline(input));
    SoundMeansNoFailure(engine, input, bundles);
    FoldSnoc([], base);
    assert [] + seen == seen;
    var n := WalkFoldsPrefix(cs, seen);
    m := |seen| + n;
    assert vs[..m] == seen + Contributed(cs)[..n];
  }

  /** The decision is the most severe contributor's, the earliest one of that severity. */
  lemma DecisionFollowsLeader(engine: Engine, input: Input, bundles: seq<Bundle>)
    requires Sound(engine, input, bundles)
    ensures var d := Decide(engine, input, bundles);
            var vs := Contributors(engine, input, bundles);
            && d.Ok?
            && (vs == [] ==> d.value.effect == Deny && d.value.policyId == None && d.value.ruleId == None)
            && (vs != [] ==> exists k: nat :: Leading(vs, k))
            && (forall k: nat :: Leading(vs, k) ==> SameHead(d.value, vs[k]))
  {
    EarlyExitRefinesFullFold(engine, input, bundles);
    ContributorsSet(engine, input, bundles);
    var vs := Contributors(engine, input, bundles);
    FoldMergesConstraints(vs);
    if vs != [] {
      var k := FoldFollowsLeader(vs);
      forall j: nat | Leading(vs, j) ensures j == k {
        LeaderUnique(vs, j, k);
      }
    }
  }

  /** A condition that fails never leads to anything but an error or a deny. */
  lemma {:induction false} FailureNeverPermits(engine: Engine, input: Input, bundles: seq<Bundle>)
    requires !NoFailure(Candidates(engine, input, bundles))
    ensures var d := Decide(engine, input, bundles); d.Err? || d.value.effect == Deny
  {
    WalkWithFailure(Candidates(engine, input, bundles), AutonomyBaseline(input));
  }

  lemma {:induction false} WalkWithFailure(cs: seq<Candidate>, v: Verdict)
    requires !NoFailure(cs)
    ensures Walk(cs, v).Broke? || (Walk(cs, v).Stopped? && Walk(cs, v).verdict.effect == Deny)
  {
    assert cs == [cs[0]] + cs[1..];
    match cs[0]
    case Default(d) => WalkWithFailure(cs[1..], Combine(v, d));
    case Conditional(Failed(_), _) =>
    case Conditional(Decided(matched), d) =>
      var next := if matched then Combine(v, d) else v;
      if !(matched && next.effect == Deny) {
        WalkWithFailure(cs[1..], next);
      }
  }

  // ----- the autonomy guardrail -----

  predicate AtLeastAsStrict(v: Verdict, floor: Verdict) {
    && Severity(v.effect) >= Severity(floor.effect)
    && (floor.constraints.requireReview ==> v.constraints.requireReview)
  }

  /** Whatever is walked, the verdict it started from is never loosened. */
  lemma {:induction false} WalkNeverLoosens(cs: seq<Candidate>, v: Verdict)
    requires v.effect != Unset
    ensures !Walk(cs, v).Broke? ==> Walk(cs, v).verdict.effect != Unset && AtLeastAsStrict(Walk(cs, v).verdict, v)
  {
    if cs != [] {
      match cs[0]
      case Default(d) => WalkNeverLoosens(cs[1..], Combine(v, d));
      case Conditional(Failed(_), _) =>
      case Conditional(Decided(matched), d) => WalkNeverLoosens(cs[1..], if matched then Combine(v, d) else v);
    }
  }

  /**
   No policy loosens an agent's autonomy: unknown autonomy is always denied,
   observe-only agents get nothing but read actions, and agents that suggest or need
   approval never act without approval and review.
   */
  lemma GuardrailHolds(engine: Engine, input: Input, bundles: seq<Bundle>)
    requires input.subjectType == "agent" && Decide(engine, input, bundles).Ok?
    ensures var v := Decide(engine, input, bundles).value;
            && (input.autonomy !in {"observe_only", "suggest", "approval_required", "policy_bounded"} ==>
                  v.effect == Deny)
            && (input.autonomy == "observe_only" && !IsReadAction(input.action) ==> v.effect == Deny)
            && (input.autonomy == "observe_only" ==> v.effect != Allow)
            && (input.autonomy in {"suggest", "approval_required"} ==>
                  v.effect in {RequireApproval, Deny} && v.constraints.requireReview)
  {
    if input.autonomy != "policy_bounded" {
      WalkNeverLoosens(Candidates(engine, input, bundles), AutonomyBaseline(input));
    }
  }

  // ----- order independence -----

  /** A verdict the bundle contributes, read off its rules as a set. */
  ghost predicate Contributes(engine: Engine, input: Input, b: Bundle, v: Verdict) {
    && v.effect != Unset
    && (|| v == DefaultVerdict(b)
        || exists r :: r in b.rules && r.enabled && Prefilter(r, input)
                    && Direct(engine, r.condition, input) == Decided(true) && v == RuleVerdict(b, r))
  }

  lemma {:induction false} ContributedMembers(cs: seq<Candidate>, v: Verdict)
    ensures v in Contributed(cs) <==>
            v.effect != Unset && (Default(v) in cs || Conditional(Decided(true), v) in cs)
  {
    if cs != [] {
      assert cs == [cs[0]] + cs[1..];
      ContributedMembers(cs[1..], v);
    }
  }

  lemma ContributorMembers(engine: Engine, input: Input, bundles: seq<Bundle>, v: Verdict)
    ensures v in Contributors(engine, input, bundles) <==>
            (v.effect != Unset && v == AutonomyBaseline(input))
            || exists b :: b in bundles && Contributes(engine, input, b, v)
  {
    var cs := Candidates(engine, input, bundles);
    ContributedMembers(cs, v);
    CandidateMembers(engine, input, bundles, Default(v));
    CandidateMembers(engine, input, bundles, Conditional(Decided(true), v));
    forall b | b in bundles && Contributes(engine, input, b, v)
      ensures v in Contributed(cs)
    {
      assert Offers(engine, input, b, Default(v)) || Offers(engine, input, b, Conditional(Decided(true), v));
    }
  }

  lemma ArrangedContributes(engine: Engine, input: Input, b: Bundle, o: Bundle, v: Verdict)
    requires Arranged(b, o)
    ensures Contributes(engine, input, b, v) <==> Contributes(engine, input, o, v)
  {
    forall r ensures r in b.rules <==> r in o.rules {
      assert r in multiset(b.rules) <==> r in multiset(o.rules);
    }
    assert forall r :: RuleVerdict(b, r) == RuleVerdict(o, r);
  }

  lemma ArrangedContributors(engine: Engine, input: Input, bundles: seq<Bundle>, ordered: seq<Bundle>, v: Verdict)
    requires ArrangedAll(bundles, ordered)
    ensures (exists b :: b in bundles && Contributes(engine, input, b, v))
       <==> (exists o :: o in ordered && Contributes(engine, input, o, v))
  {
    forall i | 0 <= i < |bundles|
      ensures Contributes(engine, input, bundles[i], v) <==> Contributes(engine, input, ordered[i], v)
    {
      ArrangedContributes(engine, input, bundles[i], ordered[i], v);
    }
    if b :| b in bundles && Contributes(engine, input, b, v) {
      var i :| 0 <= i < |bundles| && bundles[i] == b;
      assert ordered[i] in ordered;
    }
    if o :| o in ordered && Contributes(engine, input, o, v) {
      var i :| 0 <= i < |ordered| && ordered[i] == o;
      assert bundles[i] in bundles;
    }
  }

  lemma ArrangedSound(engine: Engine, input: Input, bundles: seq<Bundle>, ordered: seq<Bundle>)
    requires ArrangedAll(bundles, ordered) && Sound(engine, input, bundles)
    ensures Sound(engine, input, ordered)
  {
    forall o, r | o in ordered && r in o.rules && r.enabled && Prefilter(r, input)
      ensures Direct(engine, r.condition, input).Decided?
    {
      var i :| 0 <= i < |ordered| && ordered[i] == o;
      assert r in multiset(bundles[i].rules) && bundles[i] in bundles;
    }
  }

  /** v is the most severe thing the baseline and the bundles, as sets, have to say. */
  ghost predicate Strictest(engine: Engine, input: Input, bundles: seq<Bundle>, v: Verdict) {
    && Speaks(engine, input, bundles, v)
    && forall w :: Speaks(engine, input, bundles, w) ==> Severity(w.effect) <= Severity(v.effect)
  }

  ghost predicate Speaks(engine: Engine, input: Input, bundles: seq<Bundle>, v: Verdict) {
    || (v.effect != Unset && v == AutonomyBaseline(input))
    || exists b :: b in bundles && Contributes(engine, input, b, v)
  }

  lemma SpeaksIffContributor(engine: Engine, input: Input, bundles: seq<Bundle>, ordered: seq<Bundle>, v: Verdict)
    requires ArrangedAll(bundles, ordered)
    ensures Speaks(engine, input, bundles, v) <==> v in Contributors(engine, input, ordered)
  {
    ArrangedContributors(engine, input, bundles, ordered, v);
    ContributorMembers(engine, input, ordered, v);
  }

  /**
   Order-free reference: however rules and bundles are arranged, the decision has the
   greatest severity among the baseline, the defaults and the matching rules, and it
   denies when none of them says anything.
   */
  lemma EffectIsStrictest(engine: Engine, input: Input, bundles: seq<Bundle>, ordered: seq<Bundle>)
    requires Sound(engine, input, bundles) && ArrangedAll(bundles, ordered)
    ensures Decide(engine, input, ordered).Ok?
    ensures forall v :: Strictest(engine, input, bundles, v) ==>
              Severity(Decide(engine, input, ordered).value.effect) == Severity(v.effect)
    ensures (exists v :: Speaks(engine, input, bundles, v)) ==>
              exists v :: Strictest(engine, input, bundles, v) && SameHead(Decide(engine, input, ordered).value, v)
    ensures (forall v :: !Speaks(engine, input, bundles, v)) ==>
              Decide(engine, input, ordered).value.effect == Deny
  {
    var vs := Contributors(engine, input, ordered);
    ArrangedSound(engine, input, bundles, ordered);
    DecisionFollowsLeader(engine, input, ordered);
    forall v ensures Speaks(engine, input, bundles, v) <==> v in vs {
      SpeaksIffContributor(engine, input, bundles, ordered, v);
    }
    if vs == [] {
      forall v ensures !Speaks(engine, input, bundles, v) {}
    } else {
      var k: nat :| Leading(vs, k);
      assert vs[k] in vs;
      assert Strictest(engine, input, bundles, vs[k]);
      assert SameHead(Decide(engine, input, ordered).value, vs[k]);
    }
  }

  /** Known effects are told apart by severity, unknown names are not. */
  predicate KnownEffect(e: Effect) {
    e in {Allow, AllowWithConstraints, RequireApproval, Deny}
  }

  /** Bundles in another order decide with the same severity, hence the same known effect. */
  lemma PermutedBundlesSameEffect(
    engine: Engine, input: Input,
    bundles: seq<Bundle>, ordered: seq<Bundle>, bundles': seq<Bundle>, ordered': seq<Bundle>)
    requires multiset(bundles) == multiset(bundles')
    requires Sound(engine, input, bundles)
    requires ArrangedAll(bundles, ordered) && ArrangedAll(bundles', ordered')
    ensures Decide(engine, input, ordered).Ok? && Decide(engine, input, ordered').Ok?
    ensures var e, e' := Decide(engine, input, ordered).value.effect, Decide(engine, input, ordered').value.effect;
            && Severity(e) == Severity(e')
            && (KnownEffect(e) ==> e == e')
  {
    forall b ensures b in bundles <==> b in bundles' {
      assert b in multiset(bundles) <==> b in multiset(bundles');
    }
    SameSpeakers(engine, input, bundles, bundles');
    EffectConcludes(engine, input, bundles, ordered);
    EffectConcludes(engine, input, bundles', ordered');
    ConclusionsAgree(engine, input, bundles, bundles',
                     Decide(engine, input, ordered).value.effect, Decide(engine, input, ordered').value.effect);
  }

  /** The effect of a strictest speaker, or deny among silence. */
  ghost predicate Concludes(engine: Engine, input: Input, bundles: seq<Bundle>, e: Effect) {
    || (exists v :: Strictest(engine, input, bundles, v) && e == v.effect)
    || (e == Deny && forall v :: !Speaks(engine, input, bundles, v))
  }

  lemma EffectConcludes(engine: Engine, input: Input, bundles: seq<Bundle>, ordered: seq<Bundle>)
    requires Sound(engine, input, bundles) && ArrangedAll(bundles, ordered)
    ensures Decide(engine, input, ordered).Ok?
    ensures Concludes(engine, input, bundles, Decide(engine, input, ordered).value.effect)
  {
    EffectIsStrictest(engine, input, bundles, ordered);
  }

  lemma ConclusionsAgree(
    engine: Engine, input: Input, bundles: seq<Bundle>, bundles': seq<Bundle>, e: Effect, e': Effect)
    requires forall v :: Speaks(engine, input, bundles, v) <==> Speaks(engine, input, bundles', v)
    requires Concludes(engine, input, bundles, e) && Concludes(engine, input, bundles', e')
    ensures Severity(e) == Severity(e') && (KnownEffect(e) ==> e == e')
  {
    if v :| Strictest(engine, input, bundles, v) && e == v.effect {
      assert Speaks(engine, input, bundles', v);
      if v' :| Strictest(engine, input, bundles', v') && e' == v'.effect {
        assert Speaks(engine, input, bundles, v');
      }
    }
  }

  lemma SameSpeakers(engine: Engine, input: Input, bundles: seq<Bundle>, bundles': seq<Bundle>)
    requires forall b :: b in bundles <==> b in bundles'
    ensures Sound(engine, input, bundles) <==> Sound(engine, input, bundles')
    ensures forall v :: Speaks(engine, input, bundles, v) <==> Speaks(engine, input, bundles', v)
    ensures forall v :: Strictest(engine, input, bundles, v) <==> Strictest(engine, input, bundles', v)
  {
    assert forall v :: Speaks(engine, input, bundles, v) <==> Speaks(engine, input, bundles', v);
  }

  predicate DistinctRules(b: Bundle) {
    forall i, j | 0 <= i < j < |b.rules| :: (b.rules[i].priority, b.rules[i].id) != (b.rules[j].priority, b.rules[j].id)
  }

  /** With distinct priority and identifier pairs a bundle has one arrangement. */
  lemma ArrangementUnique(b: Bundle, b': Bundle, o: Bundle, o': Bundle)
    requires b' == b.(rules := b'.rules) && multiset(b.rules) == multiset(b'.rules) && DistinctRules(b)
    requires Arranged(b, o) && Arranged(b', o')
    ensures o == o'
  {
    forall x, y | x in o.rules && y in o.rules && RuleAtMost(x, y) && RuleAtMost(y, x) ensures x == y {
      assert x in multiset(b.rules) && y in multiset(b.rules);
      if x.id != y.id {
        BeforeTransitive(x.id, y.id, x.id);
        BeforeIrreflexive(x.id);
      }
    }
    SortedPermutationsEqual(RuleAtMost, o.rules, o'.rules);
  }

  /** Permuting the rules inside bundles changes nothing at all in the decision. */
  lemma PermutedRulesSameDecision(
    engine: Engine, input: Input,
    bundles: seq<Bundle>, ordered: seq<Bundle>, bundles': seq<Bundle>, ordered': seq<Bundle>)
    requires |bundles| == |bundles'|
    requires forall i | 0 <= i < |bundles| ::
      && DistinctRules(bundles[i])
      && bundles'[i] == bundles[i].(rules := bundles'[i].rules)
      && multiset(bundles[i].rules) == multiset(bundles'[i].rules)
    requires ArrangedAll(bundles, ordered) && ArrangedAll(bundles', ordered')
    ensures Decide(engine, input, ordered) == Decide(engine, input, ordered')
  {
    forall i | 0 <= i < |bundles| ensures ordered[i] == ordered'[i] {
      ArrangementUnique(bundles[i], bundles'[i], ordered[i], ordered'[i]);
    }
    assert ordered == ordered';
  }
}
