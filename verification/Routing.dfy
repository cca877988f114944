/** Binding validation, plan resolution and the route chain a request walks. */
module Routing {
  import opened Prelude
  import opened Ordering

  /** An offering identifier as a caller spells it. */
  type OfferingId = string

  /** The identifier itself: a 128-bit value with many accepted spellings. */
  datatype Uuid = Uuid(bits: nat)

  /**
   Two readers of one text: the service checks that it looks like a UUID, the database
   casts it to one.
   */
  datatype Reader = Reader(wellFormed: OfferingId -> bool, cast: OfferingId -> Option<Uuid>)

  /** The database casts no empty text. */
  function Cast(reader: Reader, id: OfferingId): Option<Uuid> {
    if id == "" then None else reader.cast(id)
  }

  datatype Route = Route(
    offeringId: Uuid,
    connectionId: string,
    providerKey: string,
    providerModelId: string)

  datatype Plan = Plan(primary: Option<Route>, fast: Option<Route>, fallbacks: seq<Route>)

  datatype Offering = Offering(available: bool, agentUsable: bool)

  datatype FallbackPolicy = NoFallback | Ordered | UnknownPolicy

  /** A binding as requested. */
  datatype Binding = Binding(
    primary: OfferingId,
    fast: Option<OfferingId>,
    fallbacks: seq<OfferingId>,
    policy: FallbackPolicy,
    maxCost: Option<int>)

  /** A binding as stored, in UUID columns. */
  datatype StoredBinding = StoredBinding(
    primary: Uuid,
    fast: Option<Uuid>,
    fallbacks: seq<Uuid>,
    policy: FallbackPolicy)

  datatype BindingError =
    | OfferingNotFound | OfferingUnavailable | OfferingNotAgentUsable
    | InvalidArgument | InvalidFallbackPolicy | Conflict | DatabaseRefused

  const MAXIMUM_FALLBACKS := 5

  function Present<T>(x: Option<T>): seq<T> {
    if x.Some? then [x.value] else []
  }

  /** The fast offering counts only if it is given and not the empty string. */
  function FastList(b: Binding): seq<OfferingId> {
    if b.fast.Some? && b.fast.value != "" then [b.fast.value] else []
  }

  function OfferingList(b: Binding): seq<OfferingId> {
    [b.primary] + FastList(b) + b.fallbacks
  }

  function StoredList(s: StoredBinding): seq<Uuid> {
    [s.primary] + Present(s.fast) + s.fallbacks
  }

  function OfferingProblem(reader: Reader, offerings: map<Uuid, Offering>, id: OfferingId): Option<BindingError> {
    match Cast(reader, id)
    case None => Some(DatabaseRefused)
    case Some(u) =>
      if u !in offerings then Some(OfferingNotFound)
      else if !offerings[u].available then Some(OfferingUnavailable)
      else if !offerings[u].agentUsable then Some(OfferingNotAgentUsable)
      else None
  }

  /** What validation accepts. It tells offerings apart by their spelling. */
  predicate ValidBinding(reader: Reader, offerings: map<Uuid, Offering>, b: Binding) {
    && (forall id :: id in OfferingList(b) ==>
          reader.wellFormed(id) && OfferingProblem(reader, offerings, id) == None)
    && |b.fallbacks| <= MAXIMUM_FALLBACKS
    && Distinct(OfferingList(b))
    && (b.policy == NoFallback ==> b.fallbacks == [])
    && (b.policy == Ordered ==> b.fallbacks != [])
    && b.policy != UnknownPolicy
    && (b.maxCost.Some? ==> b.maxCost.value > 0)
  }

  /** The text casts to an offering that is available and open to agents. */
  predicate Usable(reader: Reader, offerings: map<Uuid, Offering>, id: OfferingId) {
    && id != "" && reader.cast(id).Some? && reader.cast(id).value in offerings
    && offerings[reader.cast(id).value].available && offerings[reader.cast(id).value].agentUsable
  }

  /** What is wrong with an offering, by what the tables hold of it. */
  lemma ProblemByFields(reader: Reader, offerings: map<Uuid, Offering>, id: OfferingId)
    ensures OfferingProblem(reader, offerings, id) == None <==> Usable(reader, offerings, id)
    ensures id == "" || reader.cast(id) == None ==> OfferingProblem(reader, offerings, id) == Some(DatabaseRefused)
    ensures id != "" && reader.cast(id).Some? ==>
              var u := reader.cast(id).value;
              && (u !in offerings ==> OfferingProblem(reader, offerings, id) == Some(OfferingNotFound))
              && (u in offerings && !offerings[u].available ==>
                    OfferingProblem(reader, offerings, id) == Some(OfferingUnavailable))
              && (u in offerings && offerings[u].available && !offerings[u].agentUsable ==>
                    OfferingProblem(reader, offerings, id) == Some(OfferingNotAgentUsable))
  {
  }

  /** A binding is valid exactly if all of this holds of its fields. */
  lemma ValidBindingByFields(reader: Reader, offerings: map<Uuid, Offering>, b: Binding)
    ensures OfferingList(b) ==
              [b.primary] + (if b.fast.Some? && b.fast.value != "" then [b.fast.value] else []) + b.fallbacks
    ensures var ids := OfferingList(b);
            ValidBinding(reader, offerings, b) <==>
              && (forall id :: id in ids ==> reader.wellFormed(id) && Usable(reader, offerings, id))
              && |b.fallbacks| <= 5
              && (forall i, j | 0 <= i < j < |ids| :: ids[i] != ids[j])
              && (b.policy == NoFallback || b.policy == Ordered)
              && (b.policy == Ordered <==> b.fallbacks != [])
              && (b.maxCost.Some? ==> b.maxCost.value > 0)
  {
    UsableAll(reader, offerings, OfferingList(b));
    PolicyFits(b);
  }

  lemma UsableAll(reader: Reader, offerings: map<Uuid, Offering>, ids: seq<OfferingId>)
    ensures (forall id :: id in ids ==> reader.wellFormed(id) && OfferingProblem(reader, offerings, id) == None)
       <==> (forall id :: id in ids ==> reader.wellFormed(id) && Usable(reader, offerings, id))
  {
    forall id ensures OfferingProblem(reader, offerings, id) == None <==> Usable(reader, offerings, id) {
      ProblemByFields(reader, offerings, id);
    }
  }

  lemma PolicyFits(b: Binding)
    ensures (b.policy == NoFallback ==> b.fallbacks == []) && (b.policy == Ordered ==> b.fallbacks != [])
            && b.policy != UnknownPolicy
       <==> (b.policy == NoFallback || b.policy == Ordered) && (b.policy == Ordered <==> b.fallbacks != [])
  {
  }

  lemma OfferingMembers(b: Binding)
    ensures forall id :: id in OfferingList(b) <==> id == b.primary || id in FastList(b) || id in b.fallbacks
  {
    assert OfferingList(b) == [b.primary] + (FastList(b) + b.fallbacks);
  }

  /** Whether every text looks like a UUID to the service. */
  method AllWellFormed(reader: Reader, ids: seq<OfferingId>) returns (ok: bool)
    ensures ok <==> forall id :: id in ids ==> reader.wellFormed(id)
  {
    for i := 0 to |ids|
      invariant forall j | 0 <= j < i :: reader.wellFormed(ids[j])
    {
      if !reader.wellFormed(ids[i]) {
        assert ids[i] in ids;
        return false;
      }
    }
    return true;
  }

  /** The first problem among some offerings. */
  method FirstProblem(reader: Reader, offerings: map<Uuid, Offering>, ids: seq<OfferingId>)
    returns (r: Option<BindingError>)
    ensures r == None <==> forall id :: id in ids ==> OfferingProblem(reader, offerings, id) == None
    ensures r.Some? ==>
              exists i :: 0 <= i < |ids| && OfferingProblem(reader, offerings, ids[i]) == r
                && forall j | 0 <= j < i :: OfferingProblem(reader, offerings, ids[j]) == None
  {
    for i := 0 to |ids|
      invariant forall j | 0 <= j < i :: OfferingProblem(reader, offerings, ids[j]) == None
    {
      r := OfferingProblem(reader, offerings, ids[i]);
      if r.Some? {
        assert ids[i] in ids;
        return r;
      }
    }
    return None;
  }

  /** Whether a spelling occurs twice. */
  method Repeats(primary: OfferingId, fast: seq<OfferingId>, fallbacks: seq<OfferingId>) returns (repeated: bool)
    requires |fast| <= 1
    ensures repeated <==> !Distinct([primary] + fast + fallbacks)
  {
    var seen := {primary};
    ghost var list := [primary] + fast + fallbacks;
    if fast != [] {
      if fast[0] in seen {
        assert list[0] == list[1];
        return true;
      }
      seen := seen + {fast[0]};
    }
    ghost var n := 1 + |fast|;
    for i := 0 to |fallbacks|
      invariant seen == Elements(list[..n + i])
      invariant Distinct(list[..n + i])
    {
      assert list[n + i] == fallbacks[i];
      assert list[..n + i + 1] == list[..n + i] + [fallbacks[i]];
      if fallbacks[i] in seen {
        ghost var j :| 0 <= j < n + i && list[..n + i][j] == fallbacks[i];
        assert list[j] == list[n + i];
        return true;
      }
      seen := seen + {fallbacks[i]};
    }
    assert list[..n + |fallbacks|] == list;
    return false;
  }

  /** Accepts exactly the valid bindings. */
  method ValidateBinding(reader: Reader, offerings: map<Uuid, Offering>, b: Binding)
    returns (r: Option<BindingError>)
    ensures r == None <==> ValidBinding(reader, offerings, b)
    ensures (exists id :: id in OfferingList(b) && !reader.wellFormed(id)) ==> r == Some(InvalidArgument)
    ensures (forall id :: id in OfferingList(b) ==> reader.wellFormed(id)) ==>
              forall i | 0 <= i < |OfferingList(b)| ::
                OfferingProblem(reader, offerings, OfferingList(b)[i]).Some?
                && (forall j | 0 <= j < i :: OfferingProblem(reader, offerings, OfferingList(b)[j]) == None) ==>
                  r == OfferingProblem(reader, offerings, OfferingList(b)[i])
    ensures (forall id :: id in OfferingList(b) ==>
               reader.wellFormed(id) && OfferingProblem(reader, offerings, id) == None) ==>
              r == if |b.fallbacks| > 5 || !Distinct(OfferingList(b)) then Some(InvalidArgument)
                   else if b.policy == UnknownPolicy || (b.policy == NoFallback) != (b.fallbacks == []) then
                     Some(InvalidFallbackPolicy)
                   else if b.maxCost.Some? && b.maxCost.value <= 0 then Some(InvalidArgument)
                   else None
  {
    OfferingMembers(b);
    var fast := FastList(b);
    var wellFormed := AllWellFormed(reader, [b.primary] + fast + b.fallbacks);
    if !wellFormed {
      return Some(InvalidArgument);
    }
    var problem := FirstProblem(reader, offerings, [b.primary] + fast + b.fallbacks);
    if problem.Some? {
      return problem;
    }
    if |b.fallbacks| > MAXIMUM_FALLBACKS {
      return Some(InvalidArgument);
    }
    var repeated := Repeats(b.primary, fast, b.fallbacks);
    if repeated {
      return Some(InvalidArgument);
    }
    match b.policy {
      case NoFallback =>
        if |b.fallbacks| != 0 {
          return Some(InvalidFallbackPolicy);
        }
      case Ordered =>
        if |b.fallbacks| == 0 {
          return Some(InvalidFallbackPolicy);
        }
      case UnknownPolicy =>
        return Some(InvalidFallbackPolicy);
    }
    if b.maxCost.Some? && b.maxCost.value <= 0 {
      return Some(InvalidArgument);
    }
    return None;
  }

  // ----- storing -----

  /** The values behind some texts, if the database casts them all. */
  function CastAll(reader: Reader, ids: seq<OfferingId>): (r: Option<seq<Uuid>>)
    ensures r.Some? <==> forall id :: id in ids ==> Cast(reader, id).Some?
    ensures r.Some? ==> |r.value| == |ids| && forall i | 0 <= i < |ids| :: Cast(reader, ids[i]) == Some(r.value[i])
  {
    if ids == [] then Some([])
    else
      assert ids == ids[..|ids| - 1] + [ids[|ids| - 1]];
      match (CastAll(reader, ids[..|ids| - 1]), Cast(reader, ids[|ids| - 1]))
      case (Some(rest), Some(u)) => Some(rest + [u])
      case _ => None
  }

  /** Writing the rows: casts can fail, and the fallback rows are unique by value. */
  function Store(reader: Reader, b: Binding): Result<StoredBinding, BindingError> {
    match (Cast(reader, b.primary), CastAll(reader, b.fallbacks))
    case (Some(primary), Some(fallbacks)) =>
      if b.fast.Some? && Cast(reader, b.fast.value) == None then Err(DatabaseRefused)
      else if !Distinct(fallbacks) then Err(Conflict)
      else Ok(StoredBinding(primary, if b.fast == None then None else Cast(reader, b.fast.value), fallbacks, b.policy))
    case _ => Err(DatabaseRefused)
  }

  /** Setting a binding: validated as spelled, then stored by value. */
  method SetBinding(reader: Reader, offerings: map<Uuid, Offering>, b: Binding)
    returns (r: Result<StoredBinding, BindingError>)
    ensures r.Ok? ==> ValidBinding(reader, offerings, b) && r == Store(reader, b)
    ensures ValidBinding(reader, offerings, b) ==> r == Store(reader, b)
  {
    var problem := ValidateBinding(reader, offerings, b);
    return if problem.Some? then Err(problem.value) else Store(reader, b);
  }

  /** A valid binding is stored as the values of its offerings, or refused on two grounds. */
  lemma StoredValues(reader: Reader, offerings: map<Uuid, Offering>, b: Binding)
    requires ValidBinding(reader, offerings, b)
    ensures Store(reader, b).Err? ==> Store(reader, b).error in {DatabaseRefused, Conflict}
    ensures Store(reader, b) == Err(DatabaseRefused) <==> b.fast == Some("")
    ensures Store(reader, b) == Err(Conflict) <==>
              b.fast != Some("") && exists i, j | 0 <= i < j < |b.fallbacks| ::
                Cast(reader, b.fallbacks[i]) == Cast(reader, b.fallbacks[j])
    ensures Store(reader, b).Ok? ==>
              var s := Store(reader, b).value;
              && s.policy == b.policy
              && |StoredList(s)| == |OfferingList(b)|
              && forall i | 0 <= i < |OfferingList(b)| :: Cast(reader, OfferingList(b)[i]) == Some(StoredList(s)[i])
  {
    OfferingMembers(b);
    forall id | id in OfferingList(b) ensures Cast(reader, id).Some? {
      assert OfferingProblem(reader, offerings, id) == None;
    }
    assert b.primary in OfferingList(b);
    var fallbacks := CastAll(reader, b.fallbacks).value;
    assert forall i | 0 <= i < |fallbacks| :: Cast(reader, b.fallbacks[i]) == Some(fallbacks[i]);
  }

  /** No two offerings of the binding are spellings of one identifier. */
  predicate SpelledApart(reader: Reader, b: Binding) {
    forall i, j | 0 <= i < j < |OfferingList(b)| ::
      Cast(reader, OfferingList(b)[i]) != Cast(reader, OfferingList(b)[j])
  }

  lemma SpelledApartIffDistinct(reader: Reader, offerings: map<Uuid, Offering>, b: Binding)
    requires ValidBinding(reader, offerings, b) && Store(reader, b).Ok?
    ensures SpelledApart(reader, b) <==> Distinct(StoredList(Store(reader, b).value))
  {
    StoredValues(reader, offerings, b);
    var ids, us := OfferingList(b), StoredList(Store(reader, b).value);
    assert forall i | 0 <= i < |ids| :: Cast(reader, ids[i]) == Some(us[i]);
  }

  // ----- resolving -----

  /** The routes that can be fetched, in order; the others are dropped. */
  function Fetched(fetch: Uuid -> Option<Route>, ids: seq<Uuid>): seq<Route> {
    if ids == [] then [] else Present(fetch(ids[0])) + Fetched(fetch, ids[1..])
  }

  /** Only the primary route must resolve. */
  function ResolvePlan(fetch: Uuid -> Option<Route>, s: StoredBinding): Option<Plan> {
    match fetch(s.primary)
    case None => None
    case Some(p) =>
      Some(Plan(Some(p),
                if s.fast == None then None else fetch(s.fast.value),
                if s.policy == Ordered then Fetched(fetch, s.fallbacks) else []))
  }

  function BuildRouteChain(plan: Plan, modelAlias: string): seq<Route> {
    (if modelAlias == "fast" && plan.fast.Some? then Present(plan.fast) + Present(plan.primary)
     else Present(plan.primary) + Present(plan.fast))
    + plan.fallbacks
  }

  function Ids(routes: seq<Route>): (r: seq<Uuid>)
    ensures |r| == |routes| && forall i | 0 <= i < |routes| :: r[i] == routes[i].offeringId
  {
    seq(|routes|, i requires 0 <= i < |routes| => routes[i].offeringId)
  }

  /** A subsequence: what is left after striking out some elements. */
  predicate Within<T(==)>(a: seq<T>, b: seq<T>) {
    a == [] || (b != [] && if a[0] == b[0] then Within(a[1..], b[1..]) else Within(a, b[1..]))
  }

  /** A fetched route carries the identifier it was fetched by. */
  ghost predicate Faithful(fetch: Uuid -> Option<Route>) {
    forall u :: fetch(u).Some? ==> fetch(u).value.offeringId == u
  }

  lemma {:induction false} WithinTail<T>(a: seq<T>, b: seq<T>)
    requires a != [] && Within(a, b)
    ensures Within(a[1..], b)
  {
    if a[0] != b[0] {
      WithinTail(a, b[1..]);
    }
    if a[1..] != [] && a[1] == b[0] && a[0] == b[0] {
      WithinTail(a[1..], b[1..]);
    } else if a[1..] != [] && a[1] == b[0] {
      WithinTail(a[1..], b[1..]);
    }
  }

  lemma WithinSkips<T>(a: seq<T>, x: T, b: seq<T>)
    requires Within(a, b)
    ensures Within(a, [x] + b)
  {
    assert ([x] + b)[1..] == b;
    if a != [] && a[0] == x {
      WithinTail(a, b);
    }
  }

  lemma FetchedWithin(fetch: Uuid -> Option<Route>, ids: seq<Uuid>)
    requires Faithful(fetch)
    ensures Within(Ids(Fetched(fetch, ids)), ids)
    ensures Distinct(ids) ==> Distinct(Ids(Fetched(fetch, ids)))
    ensures forall id :: id in Ids(Fetched(fetch, ids)) <==> id in ids && fetch(id).Some?
    ensures |Fetched(fetch, ids)| <= |ids|
  {
    FetchedSubsequence(fetch, ids);
    FetchedMembers(fetch, ids);
    if Distinct(ids) {
      FetchedDistinct(fetch, ids);
    }
  }

  lemma FetchedHead(fetch: Uuid -> Option<Route>, ids: seq<Uuid>)
    requires Faithful(fetch) && ids != []
    ensures Ids(Fetched(fetch, ids)) == (if fetch(ids[0]).Some? then [ids[0]] else []) + Ids(Fetched(fetch, ids[1..]))
  {
  }

  lemma {:induction false} FetchedSubsequence(fetch: Uuid -> Option<Route>, ids: seq<Uuid>)
    requires Faithful(fetch)
    ensures Within(Ids(Fetched(fetch, ids)), ids) && |Fetched(fetch, ids)| <= |ids|
  {
    if ids != [] {
      var rest := Ids(Fetched(fetch, ids[1..]));
      FetchedHead(fetch, ids);
      FetchedSubsequence(fetch, ids[1..]);
      if fetch(ids[0]).Some? {
        assert ([ids[0]] + rest)[1..] == rest;
      } else {
        assert ids == [ids[0]] + ids[1..] && [] + rest == rest;
        WithinSkips(rest, ids[0], ids[1..]);
      }
    }
  }

  lemma {:induction false} FetchedMembers(fetch: Uuid -> Option<Route>, ids: seq<Uuid>)
    requires Faithful(fetch)
    ensures forall id :: id in Ids(Fetched(fetch, ids)) <==> id in ids && fetch(id).Some?
  {
    if ids != [] {
      FetchedHead(fetch, ids);
      FetchedMembers(fetch, ids[1..]);
      assert ids == [ids[0]] + ids[1..];
    }
  }

  lemma {:induction false} FetchedDistinct(fetch: Uuid -> Option<Route>, ids: seq<Uuid>)
    requires Faithful(fetch) && Distinct(ids)
    ensures Distinct(Ids(Fetched(fetch, ids)))
  {
    if ids != [] {
      FetchedHead(fetch, ids);
      FetchedMembers(fetch, ids[1..]);
      FetchedDistinct(fetch, ids[1..]);
    }
  }

  /** The chain permutes the plan's routes and keeps the fallbacks as its suffix. */
  lemma ChainShape(plan: Plan, modelAlias: string)
    ensures var chain := BuildRouteChain(plan, modelAlias);
            var fastFirst := modelAlias == "fast" && plan.fast.Some?;
            && multiset(chain) == multiset(Present(plan.primary) + Present(plan.fast) + plan.fallbacks)
            && |chain| >= |plan.fallbacks|
            && chain[|chain| - |plan.fallbacks|..] == plan.fallbacks
            && (plan.primary.Some? || plan.fast.Some? ==>
                  && |chain| > |plan.fallbacks|
                  && chain[0] == if fastFirst || plan.primary == None then plan.fast.value else plan.primary.value)
  {
  }

  /** The identifiers before the fallbacks. */
  lemma ChainFront(plan: Plan, modelAlias: string) returns (front: seq<Uuid>)
    requires plan.primary.Some?
    ensures Ids(BuildRouteChain(plan, modelAlias)) == front + Ids(plan.fallbacks)
    ensures var p := plan.primary.value.offeringId;
            front == if plan.fast == None then [p]
                     else if modelAlias == "fast" then [plan.fast.value.offeringId, p]
                     else [p, plan.fast.value.offeringId]
  {
    var p := plan.primary.value.offeringId;
    front := if plan.fast == None then [p]
             else if modelAlias == "fast" then [plan.fast.value.offeringId, p]
             else [p, plan.fast.value.offeringId];
  }

  lemma ChainMembers(plan: Plan, modelAlias: string)
    requires plan.primary.Some?
    ensures forall id :: id in Ids(BuildRouteChain(plan, modelAlias)) <==>
      || id == plan.primary.value.offeringId
      || (plan.fast.Some? && id == plan.fast.value.offeringId)
      || id in Ids(plan.fallbacks)
  {
    var front := ChainFront(plan, modelAlias);
  }

  lemma ChainDistinct(plan: Plan, modelAlias: string)
    requires plan.primary.Some?
    requires Distinct(Ids(plan.fallbacks))
    requires plan.primary.value.offeringId !in Ids(plan.fallbacks)
    requires plan.fast.Some? ==>
      && plan.fast.value.offeringId != plan.primary.value.offeringId
      && plan.fast.value.offeringId !in Ids(plan.fallbacks)
    ensures Distinct(Ids(BuildRouteChain(plan, modelAlias)))
  {
    var front := ChainFront(plan, modelAlias);
    var all, rest := Ids(BuildRouteChain(plan, modelAlias)), Ids(plan.fallbacks);
    forall i, j | 0 <= i < j < |all| ensures all[i] != all[j] {
      if j >= |front| {
        assert all[j] == rest[j - |front|];
        if i >= |front| {
          assert all[i] == rest[i - |front|];
        }
      }
    }
  }

  /** A binding whose policy is not to fall back has no fallback routes, whatever its rows say. */
  lemma OnlyOrderedFallsBack(s: StoredBinding, fetch: Uuid -> Option<Route>)
    requires fetch(s.primary).Some?
    ensures ResolvePlan(fetch, s).Some?
    ensures s.policy != Ordered ==> ResolvePlan(fetch, s).value.fallbacks == []
    ensures s.policy == Ordered ==> ResolvePlan(fetch, s).value.fallbacks == Fetched(fetch, s.fallbacks)
  {
  }

  /** What resolving a stored binding gives. */
  lemma PlanOfStoredBinding(s: StoredBinding, fetch: Uuid -> Option<Route>)
    requires Faithful(fetch) && (s.policy == Ordered || s.fallbacks == [])
    ensures ResolvePlan(fetch, s).Some? <==> fetch(s.primary).Some?
    ensures ResolvePlan(fetch, s).Some? ==>
            var plan := ResolvePlan(fetch, s).value;
            && plan.primary == fetch(s.primary) && plan.primary.value.offeringId == s.primary
            && plan.fast == (if s.fast == None then None else fetch(s.fast.value))
            && (plan.fast.Some? ==> s.fast == Some(plan.fast.value.offeringId))
            && plan.fallbacks == Fetched(fetch, s.fallbacks)
            && Within(Ids(plan.fallbacks), s.fallbacks)
            && forall id :: id in Ids(plan.fallbacks) <==> id in s.fallbacks && fetch(id).Some?
  {
    FetchedWithin(fetch, s.fallbacks);
  }

  /**
   The chain of a plan resolved from a binding that was set: the resolvable ones among
   its primary, fast and fallback offerings and nothing else; the fast route leads
   exactly when it is asked for and there; the fallbacks come last in the binding's
   order; there are at most seven; and if the binding spells no identifier in two
   ways, no offering occurs twice.
   */
  lemma ChainOfValidBinding(
    reader: Reader, offerings: map<Uuid, Offering>, b: Binding, fetch: Uuid -> Option<Route>, modelAlias: string)
    requires ValidBinding(reader, offerings, b) && Store(reader, b).Ok?
    requires Faithful(fetch) && ResolvePlan(fetch, Store(reader, b).value).Some?
    ensures var s := Store(reader, b).value;
            var plan := ResolvePlan(fetch, s).value;
            var chain := BuildRouteChain(plan, modelAlias);
            && 1 <= |chain| <= 7
            && multiset(chain) == multiset(Present(plan.primary) + Present(plan.fast) + plan.fallbacks)
            && chain[|chain| - |plan.fallbacks|..] == plan.fallbacks
            && Within(Ids(plan.fallbacks), s.fallbacks)
            && chain[0] == (if modelAlias == "fast" && plan.fast.Some? then plan.fast.value else plan.primary.value)
            && (forall id :: id in Ids(chain) <==> id in StoredList(s) && fetch(id).Some?)
            && (SpelledApart(reader, b) ==> Distinct(Ids(chain)))
  {
    var s := Store(reader, b).value;
    var plan := ResolvePlan(fetch, s).value;
    StoredValues(reader, offerings, b);
    StoredLength(reader, b);
    FetchedWithin(fetch, s.fallbacks);
    PlanOfStoredBinding(s, fetch);
    ChainShape(plan, modelAlias);
    StoredChainMembers(s, fetch, modelAlias);
    if SpelledApart(reader, b) {
      SpelledApartIffDistinct(reader, offerings, b);
      ApartChainDistinct(s, fetch, modelAlias);
    }
  }

  lemma StoredLength(reader: Reader, b: Binding)
    requires Store(reader, b).Ok?
    ensures |Store(reader, b).value.fallbacks| == |b.fallbacks|
  {
  }

  lemma StoredChainMembers(s: StoredBinding, fetch: Uuid -> Option<Route>, modelAlias: string)
    requires Faithful(fetch) && ResolvePlan(fetch, s).Some? && (s.policy == Ordered || s.fallbacks == [])
    ensures forall id :: id in Ids(BuildRouteChain(ResolvePlan(fetch, s).value, modelAlias)) <==>
                         id in StoredList(s) && fetch(id).Some?
  {
    PlanOfStoredBinding(s, fetch);
    ChainMembers(ResolvePlan(fetch, s).value, modelAlias);
    StoredMembers(s);
  }

  lemma StoredMembers(s: StoredBinding)
    ensures forall u :: u in StoredList(s) <==> u == s.primary || s.fast == Some(u) || u in s.fallbacks
  {
    assert StoredList(s) == [s.primary] + (Present(s.fast) + s.fallbacks);
  }

  lemma ApartChainDistinct(s: StoredBinding, fetch: Uuid -> Option<Route>, modelAlias: string)
    requires Faithful(fetch) && ResolvePlan(fetch, s).Some? && (s.policy == Ordered || s.fallbacks == [])
    requires Distinct(StoredList(s))
    ensures Distinct(Ids(BuildRouteChain(ResolvePlan(fetch, s).value, modelAlias)))
  {
    PartsDistinct([s.primary], Present(s.fast), s.fallbacks);
    PlanOfStoredBinding(s, fetch);
    FetchedWithin(fetch, s.fallbacks);
    assert s.primary in [s.primary];
    assert s.fast.Some? ==> s.fast.value in Present(s.fast);
    ChainDistinct(ResolvePlan(fetch, s).value, modelAlias);
  }

  // ----- no offering twice, exactly -----

  /** Every identifier resolves. */
  function ResolveAll(u: Uuid): Option<Route> {
    Some(Route(u, "", "", ""))
  }

  lemma {:induction false} ResolveAllFetches(ids: seq<Uuid>)
    ensures Ids(Fetched(ResolveAll, ids)) == ids
  {
    if ids != [] {
      ResolveAllFetches(ids[1..]);
      assert Fetched(ResolveAll, ids) == [Route(ids[0], "", "", "")] + Fetched(ResolveAll, ids[1..]);
      assert ids == [ids[0]] + ids[1..];
    }
  }

  /** With everything resolvable the plain chain is the stored list itself. */
  lemma ResolveAllChain(s: StoredBinding)
    requires s.policy == Ordered || s.fallbacks == []
    ensures Faithful(ResolveAll) && ResolvePlan(ResolveAll, s).Some?
    ensures Ids(BuildRouteChain(ResolvePlan(ResolveAll, s).value, "")) == StoredList(s)
  {
    PlanOfStoredBinding(s, ResolveAll);
    ResolveAllFetches(s.fallbacks);
    var front := ChainFront(ResolvePlan(ResolveAll, s).value, "");
    assert front == [s.primary] + Present(s.fast);
  }

  /**
   For a binding that was set, no chain holds an offering twice, whatever resolves and
   whichever alias is asked for, if and only if the binding spells its identifiers
   apart by value. Validation compares spellings, and the tables only keep fallbacks
   apart from each other.
   */
  lemma ChainDistinctExactly(reader: Reader, offerings: map<Uuid, Offering>, b: Binding)
    requires ValidBinding(reader, offerings, b) && Store(reader, b).Ok?
    ensures var s := Store(reader, b).value;
            (forall fetch: Uuid -> Option<Route>, modelAlias: string |
               Faithful(fetch) && ResolvePlan(fetch, s).Some? ::
               Distinct(Ids(BuildRouteChain(ResolvePlan(fetch, s).value, modelAlias))))
            <==> SpelledApart(reader, b)
  {
    var s := Store(reader, b).value;
    StoredValues(reader, offerings, b);
    SpelledApartIffDistinct(reader, offerings, b);
    if SpelledApart(reader, b) {
      forall fetch: Uuid -> Option<Route>, modelAlias: string | Faithful(fetch) && ResolvePlan(fetch, s).Some?
        ensures Distinct(Ids(BuildRouteChain(ResolvePlan(fetch, s).value, modelAlias)))
      {
        ApartChainDistinct(s, fetch, modelAlias);
      }
    } else {
      ResolveAllChain(s);
    }
  }

  /** Lower and upper case of one identifier: accepted, stored and routed to twice. */
  lemma TwoSpellingsRouteTwice()
    ensures exists reader: Reader, offerings, b: Binding ::
      && ValidBinding(reader, offerings, b)
      && Store(reader, b).Ok?
      && Ids(BuildRouteChain(ResolvePlan(ResolveAll, Store(reader, b).value).value, "")) == [Uuid(10), Uuid(10)]
  {
    var reader := Reader(_ => true, id => if id in {"a", "A"} then Some(Uuid(10)) else None);
    var offerings := map[Uuid(10) := Offering(true, true)];
    var b := Binding("a", None, ["A"], Ordered, None);
    assert OfferingList(b) == ["a", "A"];
    assert "A" == ["A"][0] && Cast(reader, "A") == Some(Uuid(10));
    assert forall id :: id in ["A"] ==> Cast(reader, id).Some?;
    assert CastAll(reader, ["A"]).value == [Uuid(10)];
    assert Store(reader, b) == Ok(StoredBinding(Uuid(10), None, [Uuid(10)], Ordered));
    ResolveAllChain(Store(reader, b).value);
    assert ValidBinding(reader, offerings, b);
  }

  lemma PartsDistinct<T>(a: seq<T>, b: seq<T>, c: seq<T>)
    requires Distinct(a + b + c)
    ensures Distinct(a) && Distinct(b) && Distinct(c)
    ensures forall x :: !(x in a && x in b) && !(x in a && x in c) && !(x in b && x in c)
  {
    var s := a + b + c;
    forall i, j | 0 <= i < |a| && 0 <= j < |b| ensures a[i] != b[j] {
      assert s[i] == a[i] && s[|a| + j] == b[j];
    }
    forall i, j | 0 <= i < |a| && 0 <= j < |c| ensures a[i] != c[j] {
      assert s[i] == a[i] && s[|a| + |b| + j] == c[j];
    }
    forall i, j | 0 <= i < |b| && 0 <= j < |c| ensures b[i] != c[j] {
      assert s[|a| + i] == b[i] && s[|a| + |b| + j] == c[j];
    }
    forall i, j | 0 <= i < j < |a| ensures a[i] != a[j] {
      assert s[i] == a[i] && s[j] == a[j];
    }
    forall i, j | 0 <= i < j < |b| ensures b[i] != b[j] {
      assert s[|a| + i] == b[i] && s[|a| + j] == b[j];
    }
    forall i, j | 0 <= i < j < |c| ensures c[i] != c[j] {
      assert s[|a| + |b| + i] == c[i] && s[|a| + |b| + j] == c[j];
    }
  }
}
