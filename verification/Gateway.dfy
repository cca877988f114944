/**
 Model gateway execution over a route chain: pre-stream fallback, the streaming lock,
 retry accounting and the request journal, for arbitrary provider adapters.
 */
module Gateway {
  import opened Prelude
  import Ordering
  import opened Routing

  type Chunk = string
  type Usage = nat

  datatype ProviderError = KeyUnavailable(detail: string) | NoAdapter(providerKey: string) | CallFailed(detail: string)

  /** A chunk the adapter hands to the callback, and whether the client took it. */
  datatype Delivery = Delivery(chunk: Chunk, taken: bool)

  /**
   One adapter stream as it happened: whatever the adapter made of the callback's
   answers, it delivered these chunks and returned this usage and error.
   */
  datatype StreamRun = StreamRun(deliveries: seq<Delivery>, usage: Usage, error: Option<string>)

  /** Everything outside the service, by position in the route chain. */
  datatype Outside = Outside(
    keyErrors: map<nat, string>,
    adapters: set<string>,
    streams: nat -> StreamRun,
    completions: nat -> Result<Usage, string>)

  datatype Status = Admitted | Succeeded | Failed | ClientDisconnected

  datatype Record = Record(
    route: Route,
    status: Status,
    usage: Usage,
    errorCode: string,
    streamed: bool,
    retryCount: nat,
    fallbackFrom: Option<Uuid>)

  /** A journal completion; the usage event repeats the completed record. */
  datatype Completion = Completion(record: Record, usageEvent: Option<Record>)

  datatype GatewayError =
    | NoAvailableRoute
    | AdmissionRefused
    | BudgetExceeded
    | ProviderCallFailed(cause: ProviderError)
    | StreamingInterrupted(cause: ProviderError)
    | ClientGone

  // ----- what a route does before streaming -----

  /** What keeps a route from being called: no key, or no adapter for its provider. */
  function Obstacle(o: Outside, routes: seq<Route>, i: nat): Option<ProviderError>
    requires i < |routes|
  {
    if i in o.keyErrors then Some(KeyUnavailable(o.keyErrors[i]))
    else if routes[i].providerKey !in o.adapters then Some(NoAdapter(routes[i].providerKey))
    else None
  }

  predicate Reachable(o: Outside, routes: seq<Route>, i: nat)
    requires i < |routes|
  {
    Obstacle(o, routes, i) == None
  }

  /** The route answers: at least one chunk, or a clean end. */
  predicate Locks(o: Outside, routes: seq<Route>, i: nat)
    requires i < |routes|
  {
    Reachable(o, routes, i) && (o.streams(i).deliveries != [] || o.streams(i).error == None)
  }

  predicate Completes(o: Outside, routes: seq<Route>, i: nat)
    requires i < |routes|
  {
    Reachable(o, routes, i) && o.completions(i).Ok?
  }

  /** Why a route that did not answer failed. */
  function StreamFailure(o: Outside, routes: seq<Route>, i: nat): ProviderError
    requires i < |routes| && !Locks(o, routes, i)
  {
    match Obstacle(o, routes, i)
    case Some(e) => e
    case None => CallFailed(o.streams(i).error.value)
  }

  function CompletionFailure(o: Outside, routes: seq<Route>, i: nat): ProviderError
    requires i < |routes| && !Completes(o, routes, i)
  {
    match Obstacle(o, routes, i)
    case Some(e) => e
    case None => CallFailed(o.completions(i).error)
  }

  /** i is the first route that answers the stream. */
  predicate Selects(o: Outside, routes: seq<Route>, i: nat) {
    i < |routes| && Locks(o, routes, i) && forall j | 0 <= j < i :: !Locks(o, routes, j)
  }

  predicate SelectsCompletion(o: Outside, routes: seq<Route>, i: nat) {
    i < |routes| && Completes(o, routes, i) && forall j | 0 <= j < i :: !Completes(o, routes, j)
  }

  predicate Disconnected(run: StreamRun) {
    exists d :: d in run.deliveries && !d.taken
  }

  function FallbackFrom(routes: seq<Route>, last: nat): Option<Uuid> {
    if last > 0 && routes != [] then Some(routes[0].offeringId) else None
  }

  /** The error variable after route i was selected: it survives an earlier fallback. */
  function LastError(o: Outside, routes: seq<Route>, i: nat): Option<ProviderError>
    requires Selects(o, routes, i)
  {
    var run := o.streams(i);
    if run.deliveries != [] && run.error.Some? && !Disconnected(run) then Some(CallFailed(run.error.value))
    else if i > 0 then Some(StreamFailure(o, routes, i - 1))
    else None
  }

  lemma AnsweringIsSelected(o: Outside, routes: seq<Route>, i: nat, lastErr: Option<ProviderError>)
    requires i < |routes| && Locks(o, routes, i) && forall j | 0 <= j < i :: !Locks(o, routes, j)
    requires lastErr == if i > 0 then Some(StreamFailure(o, routes, i - 1)) else None
    ensures Selects(o, routes, i)
    ensures var run := o.streams(i);
            LastError(o, routes, i) ==
              if run.deliveries != [] && run.error.Some? && !Disconnected(run) then Some(CallFailed(run.error.value))
              else lastErr
  {
  }

  /** What the call returns once route i was selected. */
  function StreamReturn(o: Outside, routes: seq<Route>, i: nat): Option<GatewayError>
    requires Selects(o, routes, i)
  {
    if Disconnected(o.streams(i)) then Some(ClientGone)
    else
      match LastError(o, routes, i)
      case Some(e) => Some(StreamingInterrupted(e))
      case None => None
  }

  /** The record completed once route i was selected. */
  function StreamRecord(o: Outside, routes: seq<Route>, i: nat): Record
    requires Selects(o, routes, i)
  {
    var run := o.streams(i);
    var status :=
      if Disconnected(run) then ClientDisconnected
      else if LastError(o, routes, i).Some? then Failed
      else Succeeded;
    Record(routes[i], status, run.usage,
           if status == ClientDisconnected then "client_disconnected"
           else if status == Failed then "stream_interrupted" else "",
           true, i, FallbackFrom(routes, i))
  }

  function Chunks(i: nat, deliveries: seq<Delivery>): (r: seq<(nat, Chunk)>)
    ensures |r| == |deliveries| && forall j | 0 <= j < |r| :: r[j] == (i, deliveries[j].chunk)
  {
    seq(|deliveries|, j requires 0 <= j < |deliveries| => (i, deliveries[j].chunk))
  }

  /** The routes called since `before` are exactly the reachable ones below n, in order. */
  ghost predicate InvokedUpTo(before: seq<nat>, now: seq<nat>, o: Outside, routes: seq<Route>, n: nat)
    requires n <= |routes|
  {
    && before <= now
    && (forall k | |before| <= k < |now| :: now[k] < n && Reachable(o, routes, now[k]))
    && (forall k, m | |before| <= k < m < |now| :: now[k] < now[m])
    && (forall i | 0 <= i < n && Reachable(o, routes, i) :: exists k :: |before| <= k < |now| && now[k] == i)
  }

  lemma InvokedNext(before: seq<nat>, now: seq<nat>, o: Outside, routes: seq<Route>, n: nat)
    requires n < |routes| && InvokedUpTo(before, now, o, routes, n)
    ensures Reachable(o, routes, n) ==> InvokedUpTo(before, now + [n], o, routes, n + 1)
    ensures !Reachable(o, routes, n) ==> InvokedUpTo(before, now, o, routes, n + 1)
  {
    if Reachable(o, routes, n) {
      var next := now + [n];
      forall i | 0 <= i < n + 1 && Reachable(o, routes, i) ensures exists k :: |before| <= k < |next| && next[k] == i {
        if i < n {
          var k :| |before| <= k < |now| && now[k] == i;
          assert next[k] == i;
        } else {
          assert next[|now|] == i;
        }
      }
    }
  }

  // ----- the service -----

  class GatewayService {
    const requireBudget: bool
    var admitted: seq<Record>
    var completed: seq<Completion>
    /** Chunks handed to the client callback, with the route they came from. */
    var forwarded: seq<(nat, Chunk)>
    /** Routes whose adapter was called, in order. */
    var invoked: seq<nat>
    /** The variables the streaming callback captures. */
    var firstChunkSent: bool
    var clientDisconnected: bool

    constructor (requireBudget: bool)
      ensures this.requireBudget == requireBudget
      ensures admitted == [] && completed == [] && forwarded == [] && invoked == []
    {
      this.requireBudget := requireBudget;
      admitted, completed, forwarded, invoked := [], [], [], [];
      firstChunkSent, clientDisconnected := false, false;
    }

    /** The stream proxy callback. */
    method OnChunk(i: nat, d: Delivery) returns (ok: bool)
      modifies this`firstChunkSent, this`clientDisconnected, this`forwarded
      ensures firstChunkSent && ok == d.taken
      ensures clientDisconnected == (old(clientDisconnected) || !d.taken)
      ensures forwarded == old(forwarded) + [(i, d.chunk)]
    {
      if !firstChunkSent {
        firstChunkSent := true;
      }
      forwarded := forwarded + [(i, d.chunk)];
      if !d.taken {
        clientDisconnected := true;
        return false;
      }
      return true;
    }

    /** An adapter's stream, driving the callback as often as it likes. */
    method CallStream(i: nat, run: StreamRun) returns (usage: Usage, error: Option<string>)
      modifies this`firstChunkSent, this`clientDisconnected, this`forwarded, this`invoked
      ensures usage == run.usage && error == run.error
      ensures invoked == old(invoked) + [i]
      ensures forwarded == old(forwarded) + Chunks(i, run.deliveries)
      ensures firstChunkSent == (old(firstChunkSent) || run.deliveries != [])
      ensures clientDisconnected == (old(clientDisconnected) || Disconnected(run))
    {
      invoked := invoked + [i];
      for j := 0 to |run.deliveries|
        invariant invoked == old(invoked) + [i]
        invariant forwarded == old(forwarded) + Chunks(i, run.deliveries[..j])
        invariant firstChunkSent == (old(firstChunkSent) || j > 0)
        invariant clientDisconnected == (old(clientDisconnected) || exists k | 0 <= k < j :: !run.deliveries[k].taken)
      {
        var _ := OnChunk(i, run.deliveries[j]);
        assert Chunks(i, run.deliveries[..j + 1]) == Chunks(i, run.deliveries[..j]) + [(i, run.deliveries[j].chunk)];
      }
      assert run.deliveries[..|run.deliveries|] == run.deliveries;
      assert Disconnected(run) <==> exists k | 0 <= k < |run.deliveries| :: !run.deliveries[k].taken;
      return run.usage, run.error;
    }

    /**
     Streaming execution. Admission and the budget check may refuse; after that the
     first route that answers is selected and locked, and the journal is completed
     once.
     */
    method ExecuteStream(plan: Plan, modelAlias: string, admits: bool, withinBudget: bool, o: Outside)
      returns (r: Option<GatewayError>)
      modifies this
      ensures var routes := BuildRouteChain(plan, modelAlias);
              && (routes == [] ==>
                    r == Some(NoAvailableRoute) && admitted == old(admitted) && completed == old(completed))
              && (routes != [] && !admits ==>
                    r == Some(AdmissionRefused) && admitted == old(admitted) && completed == old(completed))
              && (routes == [] || !admits || (requireBudget && !withinBudget) ==>
                    forwarded == old(forwarded) && invoked == old(invoked))
              && (routes != [] && admits ==>
                    && admitted == old(admitted) + [Record(routes[0], Admitted, 0, "", true, 0, None)]
                    && |completed| == |old(completed)| + 1)
              && (routes != [] && admits && requireBudget && !withinBudget ==>
                    && r == Some(BudgetExceeded)
                    && completed == old(completed)
                         + [Completion(Record(routes[0], Failed, 0, "budget_exceeded", true, 0, None), None)])
      ensures var routes := BuildRouteChain(plan, modelAlias);
              routes != [] && admits && (requireBudget ==> withinBudget) ==>
                && |completed| == |old(completed)| + 1 && completed[..|old(completed)|] == old(completed)
                && var done := completed[|old(completed)|];
                   && (forall i: nat :: Selects(o, routes, i) ==>
                         && done.usageEvent == Some(done.record)
                         && done.record.route == routes[i]
                         && done.record.usage == o.streams(i).usage
                         && done.record.retryCount == i
                         && done.record.streamed
                         && done.record.fallbackFrom == (if i > 0 then Some(routes[0].offeringId) else None))
                   && ((forall i | 0 <= i < |routes| :: !Locks(o, routes, i)) ==>
                         done == Completion(
                           Record(routes[0], Failed, 0, "all_routes_failed", true, |routes|,
                                  if |routes| > 1 then Some(routes[0].offeringId) else None), None))
                   && (forall j | |old(forwarded)| <= j < |forwarded| ::
                         forwarded[j].0 < |routes| && routes[forwarded[j].0] == done.record.route)
      ensures var routes := BuildRouteChain(plan, modelAlias);
              routes != [] && admits && (requireBudget ==> withinBudget) ==>
                && (forall i: nat :: Selects(o, routes, i) ==>
                      && r == StreamReturn(o, routes, i)
                      && completed == old(completed)
                           + [Completion(StreamRecord(o, routes, i), Some(StreamRecord(o, routes, i)))]
                      && forwarded == old(forwarded) + Chunks(i, o.streams(i).deliveries)
                      && InvokedUpTo(old(invoked), invoked, o, routes, i + 1))
                && ((forall i | 0 <= i < |routes| :: !Locks(o, routes, i)) ==>
                      && r == Some(ProviderCallFailed(StreamFailure(o, routes, |routes| - 1)))
                      && forwarded == old(forwarded)
                      && InvokedUpTo(old(invoked), invoked, o, routes, |routes|))
    {
      var routes := BuildRouteChain(plan, modelAlias);
      if |routes| == 0 {
        return Some(NoAvailableRoute);
      }
      if !admits {
        return Some(AdmissionRefused);
      }
      var record := Record(routes[0], Admitted, 0, "", true, 0, None);
      admitted := admitted + [record];
      if requireBudget && !withinBudget {
        RecordFailure(record, "budget_exceeded", 0, None);
        return Some(BudgetExceeded);
      }
      var lastErr, selected, retryCount, fallbackFrom, usage := StreamRoutes(routes, o);
      assert selected.Some? ==> forall i: nat :: Selects(o, routes, i) ==> i == selected.value;
      if selected == None {
        RecordFailure(record, "all_routes_failed", retryCount, fallbackFrom);
        return Some(ProviderCallFailed(lastErr.value));
      }
      r := CompleteStream(routes, o, selected.value, lastErr, retryCount, fallbackFrom, usage);
    }

    /** Completes the journal for the selected route and says how the stream ended. */
    method CompleteStream(
      routes: seq<Route>, o: Outside, i: nat,
      lastErr: Option<ProviderError>, retryCount: nat, fallbackFrom: Option<Uuid>, usage: Usage)
      returns (r: Option<GatewayError>)
      requires Selects(o, routes, i) && retryCount == i && fallbackFrom == FallbackFrom(routes, i)
      requires usage == o.streams(i).usage && lastErr == LastError(o, routes, i)
      requires clientDisconnected == Disconnected(o.streams(i))
      modifies this`completed
      ensures r == StreamReturn(o, routes, i)
      ensures completed == old(completed) + [Completion(StreamRecord(o, routes, i), Some(StreamRecord(o, routes, i)))]
      ensures var done := completed[|old(completed)|];
              && done.record.route == routes[i]
              && done.record.usage == o.streams(i).usage
              && done.record.retryCount == i
              && done.record.streamed
              && done.record.fallbackFrom == (if i > 0 then Some(routes[0].offeringId) else None)
    {
      var status, errorCode := Succeeded, "";
      if clientDisconnected {
        status, errorCode := ClientDisconnected, "client_disconnected";
      } else if lastErr.Some? {
        status, errorCode := Failed, "stream_interrupted";
      }
      var record := Record(routes[i], status, usage, errorCode, true, retryCount, fallbackFrom);
      completed := completed + [Completion(record, Some(record))];
      if clientDisconnected {
        return Some(ClientGone);
      }
      if lastErr.Some? {
        return Some(StreamingInterrupted(lastErr.value));
      }
      return None;
    }

    /** The route loop. */
    method StreamRoutes(routes: seq<Route>, o: Outside)
      returns (lastErr: Option<ProviderError>, selected: Option<nat>, retryCount: nat,
               fallbackFrom: Option<Uuid>, usage: Usage)
      requires routes != []
      modifies this`firstChunkSent, this`clientDisconnected, this`forwarded, this`invoked
      ensures selected.Some? ==>
                && Selects(o, routes, selected.value)
                && retryCount == selected.value
                && fallbackFrom == FallbackFrom(routes, selected.value)
                && usage == o.streams(selected.value).usage
                && clientDisconnected == Disconnected(o.streams(selected.value))
                && lastErr == LastError(o, routes, selected.value)
                && forwarded == old(forwarded) + Chunks(selected.value, o.streams(selected.value).deliveries)
                && InvokedUpTo(old(invoked), invoked, o, routes, selected.value + 1)
      ensures selected == None ==>
                && (forall j | 0 <= j < |routes| :: !Locks(o, routes, j))
                && retryCount == |routes|
                && fallbackFrom == FallbackFrom(routes, |routes| - 1)
                && lastErr == Some(StreamFailure(o, routes, |routes| - 1))
                && forwarded == old(forwarded)
                && InvokedUpTo(old(invoked), invoked, o, routes, |routes|)
    {
      lastErr, selected, retryCount, fallbackFrom, usage := None, None, 0, None, 0;
      firstChunkSent, clientDisconnected := false, false;
      for i := 0 to |routes|
        invariant selected == None && retryCount == i
        invariant fallbackFrom == if i > 0 then FallbackFrom(routes, i - 1) else None
        invariant !firstChunkSent && !clientDisconnected && forwarded == old(forwarded)
        invariant forall j | 0 <= j < i :: !Locks(o, routes, j)
        invariant lastErr == if i > 0 then Some(StreamFailure(o, routes, i - 1)) else None
        invariant InvokedUpTo(old(invoked), invoked, o, routes, i)
      {
        InvokedNext(old(invoked), invoked, o, routes, i);
        if i > 0 {
          fallbackFrom := Some(routes[0].offeringId);
        }
        var obstacle := Obstacle(o, routes, i);
        if obstacle.Some? {
          lastErr := obstacle;
          retryCount := retryCount + 1;
          continue;
        }
        var streamUsage, streamErr := CallStream(i, o.streams(i));
        if firstChunkSent || streamErr == None {
          AnsweringIsSelected(o, routes, i, lastErr);
        }
        if firstChunkSent {
          selected := Some(i);
          usage := streamUsage;
          if streamErr.Some? && !clientDisconnected {
            lastErr := Some(CallFailed(streamErr.value));
          }
          return;
        }
        assert Chunks(i, o.streams(i).deliveries) == [];
        if streamErr.Some? {
          lastErr := Some(CallFailed(streamErr.value));
          retryCount := retryCount + 1;
          continue;
        }
        selected := Some(i);
        usage := streamUsage;
        return;
      }
    }

    method RecordFailure(record: Record, errorCode: string, retryCount: nat, fallbackFrom: Option<Uuid>)
      modifies this`completed
      ensures completed == old(completed) + [Completion(
                record.(status := Failed, errorCode := errorCode, retryCount := retryCount,
                        fallbackFrom := fallbackFrom), None)]
    {
      var failed := record.(status := Failed, errorCode := errorCode, retryCount := retryCount,
                            fallbackFrom := fallbackFrom);
      completed := completed + [Completion(failed, None)];
    }

    /** Non-streaming execution: the first route to complete wins and errors before it are forgotten. */
    method Execute(plan: Plan, modelAlias: string, admits: bool, withinBudget: bool, o: Outside)
      returns (r: Result<Usage, GatewayError>)
      modifies this
      ensures var routes := BuildRouteChain(plan, modelAlias);
              && (routes == [] ==>
                    r == Err(NoAvailableRoute) && admitted == old(admitted) && completed == old(completed))
              && (routes != [] && !admits ==>
                    r == Err(AdmissionRefused) && admitted == old(admitted) && completed == old(completed))
              && (routes == [] || !admits || (requireBudget && !withinBudget) ==> invoked == old(invoked))
              && (routes != [] && admits ==>
                    && admitted == old(admitted) + [Record(routes[0], Admitted, 0, "", false, 0, None)]
                    && |completed| == |old(completed)| + 1)
              && (routes != [] && admits && requireBudget && !withinBudget ==>
                    && r == Err(BudgetExceeded)
                    && completed == old(completed)
                         + [Completion(Record(routes[0], Failed, 0, "budget_exceeded", false, 0, None), None)])
      ensures var routes := BuildRouteChain(plan, modelAlias);
              routes != [] && admits && (requireBudget ==> withinBudget) ==>
                && (forall i: nat :: SelectsCompletion(o, routes, i) ==>
                      var record := Record(
                        routes[i], Succeeded, o.completions(i).value, "", false, i,
                        if i > 0 then Some(routes[0].offeringId) else None);
                      && r == Ok(o.completions(i).value)
                      && completed == old(completed) + [Completion(record, Some(record))]
                      && InvokedUpTo(old(invoked), invoked, o, routes, i + 1))
                && ((forall i | 0 <= i < |routes| :: !Completes(o, routes, i)) ==>
                      && r == Err(ProviderCallFailed(CompletionFailure(o, routes, |routes| - 1)))
                      && completed == old(completed)
                           + [Completion(
                                Record(routes[0], Failed, 0, "all_routes_failed", false, |routes|,
                                       if |routes| > 1 then Some(routes[0].offeringId) else None), None)]
                      && InvokedUpTo(old(invoked), invoked, o, routes, |routes|))
      ensures forwarded == old(forwarded)
    {
      var routes := BuildRouteChain(plan, modelAlias);
      if |routes| == 0 {
        return Err(NoAvailableRoute);
      }
      if !admits {
        return Err(AdmissionRefused);
      }
      var record := Record(routes[0], Admitted, 0, "", false, 0, None);
      admitted := admitted + [record];
      if requireBudget && !withinBudget {
        RecordFailure(record, "budget_exceeded", 0, None);
        return Err(BudgetExceeded);
      }
      var lastErr, selected, retryCount, fallbackFrom, usage := CompleteRoutes(routes, o);
      if selected == None {
        RecordFailure(record, "all_routes_failed", retryCount, fallbackFrom);
        return Err(ProviderCallFailed(lastErr.value));
      }
      record := Record(routes[selected.value], Succeeded, usage, "", false, retryCount, fallbackFrom);
      completed := completed + [Completion(record, Some(record))];
      return Ok(usage);
    }

    /** The route loop: the first completed call wins. */
    method CompleteRoutes(routes: seq<Route>, o: Outside)
      returns (lastErr: Option<ProviderError>, selected: Option<nat>, retryCount: nat,
               fallbackFrom: Option<Uuid>, usage: Usage)
      requires routes != []
      modifies this`invoked
      ensures selected.Some? ==>
                && SelectsCompletion(o, routes, selected.value)
                && retryCount == selected.value
                && fallbackFrom == FallbackFrom(routes, selected.value)
                && usage == o.completions(selected.value).value
                && InvokedUpTo(old(invoked), invoked, o, routes, selected.value + 1)
      ensures selected == None ==>
                && (forall j | 0 <= j < |routes| :: !Completes(o, routes, j))
                && retryCount == |routes|
                && fallbackFrom == FallbackFrom(routes, |routes| - 1)
                && lastErr == Some(CompletionFailure(o, routes, |routes| - 1))
                && InvokedUpTo(old(invoked), invoked, o, routes, |routes|)
    {
      lastErr, selected, retryCount, fallbackFrom, usage := None, None, 0, None, 0;
      for i := 0 to |routes|
        invariant selected == None && retryCount == i
        invariant fallbackFrom == if i > 0 then FallbackFrom(routes, i - 1) else None
        invariant forall j | 0 <= j < i :: !Completes(o, routes, j)
        invariant lastErr == if i > 0 then Some(CompletionFailure(o, routes, i - 1)) else None
        invariant InvokedUpTo(old(invoked), invoked, o, routes, i)
      {
        InvokedNext(old(invoked), invoked, o, routes, i);
        if i > 0 {
          fallbackFrom := Some(routes[0].offeringId);
        }
        var obstacle := Obstacle(o, routes, i);
        if obstacle.Some? {
          lastErr := obstacle;
          retryCount := retryCount + 1;
          continue;
        }
        invoked := invoked + [i];
        var result := o.completions(i);
        if result.Err? {
          lastErr := Some(CallFailed(result.error));
          retryCount := retryCount + 1;
          continue;
        }
        selected := Some(i);
        usage := result.value;
        return;
      }
    }
  }

  // ----- what the contracts mean -----

  /** When a route can be called, answers a stream or completes, and why it fails. */
  lemma RouteByFields(o: Outside, routes: seq<Route>, i: nat)
    requires i < |routes|
    ensures var keyed, adapted := i !in o.keyErrors, routes[i].providerKey in o.adapters;
            var run, result := o.streams(i), o.completions(i);
            && (Reachable(o, routes, i) <==> keyed && adapted)
            && (Locks(o, routes, i) <==> keyed && adapted && (|run.deliveries| > 0 || run.error.None?))
            && (Completes(o, routes, i) <==> keyed && adapted && result.Ok?)
            && (!Locks(o, routes, i) ==>
                  StreamFailure(o, routes, i) ==
                    if !keyed then KeyUnavailable(o.keyErrors[i])
                    else if !adapted then NoAdapter(routes[i].providerKey)
                    else CallFailed(run.error.value))
            && (!Completes(o, routes, i) ==>
                  CompletionFailure(o, routes, i) ==
                    if !keyed then KeyUnavailable(o.keyErrors[i])
                    else if !adapted then NoAdapter(routes[i].providerKey)
                    else CallFailed(result.error))
  {
  }

  /** The selected route is the first that answers, and only a route of the chain. */
  lemma SelectionByFields(o: Outside, routes: seq<Route>, i: nat)
    ensures Selects(o, routes, i) <==>
              && i < |routes| && i !in o.keyErrors && routes[i].providerKey in o.adapters
              && (|o.streams(i).deliveries| > 0 || o.streams(i).error.None?)
              && forall j | 0 <= j < i ::
                   j in o.keyErrors || routes[j].providerKey !in o.adapters
                   || (|o.streams(j).deliveries| == 0 && o.streams(j).error.Some?)
    ensures SelectsCompletion(o, routes, i) <==>
              && i < |routes| && i !in o.keyErrors && routes[i].providerKey in o.adapters && o.completions(i).Ok?
              && forall j | 0 <= j < i ::
                   j in o.keyErrors || routes[j].providerKey !in o.adapters || o.completions(j).Err?
  {
    forall j | 0 <= j < |routes|
      ensures Locks(o, routes, j) <==>
                !(j in o.keyErrors || routes[j].providerKey !in o.adapters
                  || (|o.streams(j).deliveries| == 0 && o.streams(j).error.Some?))
      ensures Completes(o, routes, j) <==>
                !(j in o.keyErrors || routes[j].providerKey !in o.adapters || o.completions(j).Err?)
    {
      RouteByFields(o, routes, j);
    }
  }

  /**
   What is journalled and returned for the selected route, field by field: its own route,
   usage and position, and a status that the refused chunk decides first and an earlier
   failure or a broken stream second.
   */
  lemma StreamOutcomeByFields(o: Outside, routes: seq<Route>, i: nat)
    requires Selects(o, routes, i)
    ensures var run, record := o.streams(i), StreamRecord(o, routes, i);
            var refused := exists d :: d in run.deliveries && !d.taken;
            var broken := i > 0 || run.error.Some?;
            && record.route == routes[i]
            && record.usage == run.usage
            && record.retryCount == i
            && record.streamed
            && record.fallbackFrom == (if i > 0 then Some(routes[0].offeringId) else None)
            && record.status == (if refused then ClientDisconnected else if broken then Failed else Succeeded)
            && record.errorCode ==
                 (if refused then "client_disconnected" else if broken then "stream_interrupted" else "")
            && (refused ==> StreamReturn(o, routes, i) == Some(ClientGone))
            && (!refused && run.error.Some? ==>
                  StreamReturn(o, routes, i) == Some(StreamingInterrupted(CallFailed(run.error.value))))
            && (!refused && run.error == None && i > 0 ==>
                  StreamReturn(o, routes, i) == Some(StreamingInterrupted(StreamFailure(o, routes, i - 1))))
            && (!refused && run.error == None && i == 0 ==> StreamReturn(o, routes, i) == None)
  {
  }

  /** The returned error and the journalled status always agree. */
  lemma ReturnAgreesWithRecord(o: Outside, routes: seq<Route>, i: nat)
    requires Selects(o, routes, i)
    ensures var r, record := StreamReturn(o, routes, i), StreamRecord(o, routes, i);
            && (r == None <==> record.status == Succeeded)
            && (r == Some(ClientGone) <==> record.status == ClientDisconnected)
            && (r.Some? && r.value.StreamingInterrupted? <==> record.status == Failed)
            && (record.status == Succeeded <==> record.errorCode == "")
  {
  }

  /**
   A stream is reported as a success if and only if the first route of the chain was
   selected and ended cleanly with every chunk taken: the error of a route that
   failed before streaming is kept, so a clean stream from a fallback counts as failed.
   */
  lemma StreamSucceedsExactly(o: Outside, routes: seq<Route>, i: nat)
    requires Selects(o, routes, i)
    ensures StreamReturn(o, routes, i) == None <==>
            i == 0 && o.streams(0).error == None && forall d :: d in o.streams(0).deliveries ==> d.taken
  {
  }

  /** A clean fallback stream, delivered whole to the client, reported as interrupted. */
  lemma CleanFallbackIsReportedFailed()
    ensures exists o: Outside, routes: seq<Route> ::
      && Selects(o, routes, 1)
      && o.streams(1) == StreamRun([Delivery("chunk", true)], 7, None)
      && StreamReturn(o, routes, 1).Some? && StreamReturn(o, routes, 1).value.StreamingInterrupted?
      && StreamRecord(o, routes, 1).status == Failed
  {
    var streams := (i: nat) => if i == 0 then StreamRun([], 0, Some("rate limited"))
                               else StreamRun([Delivery("chunk", true)], 7, None);
    var o := Outside(map[], {"p"}, streams, (i: nat) => Err("unused"));
    var routes := [Route(Uuid(1), "c", "p", "m"), Route(Uuid(2), "c", "p", "m")];
    assert !Locks(o, routes, 0) && Locks(o, routes, 1);
    assert Selects(o, routes, 1);
    assert StreamReturn(o, routes, 1) == Some(StreamingInterrupted(CallFailed("rate limited")));
  }

  /** No two of the calls made since `before` go to one offering. */
  ghost predicate TriesEachOnce(before: seq<nat>, now: seq<nat>, chain: seq<Route>) {
    forall k, m | |before| <= k < m < |now| && now[k] < |chain| && now[m] < |chain| ::
      chain[now[k]].offeringId != chain[now[m]].offeringId
  }

  /** A request routed by a binding makes at most seven calls, and none twice if it is spelled apart. */
  lemma ValidBindingTriesEachOnce(
    reader: Reader, offerings: map<Uuid, Offering>, b: Binding, fetch: Uuid -> Option<Route>, modelAlias: string,
    before: seq<nat>, now: seq<nat>, o: Outside, n: nat)
    requires ValidBinding(reader, offerings, b) && Store(reader, b).Ok?
    requires Faithful(fetch) && ResolvePlan(fetch, Store(reader, b).value).Some?
    requires var chain := BuildRouteChain(ResolvePlan(fetch, Store(reader, b).value).value, modelAlias);
             n <= |chain| && InvokedUpTo(before, now, o, chain, n)
    ensures |now| - |before| <= 7
    ensures SpelledApart(reader, b) ==>
              TriesEachOnce(before, now, BuildRouteChain(ResolvePlan(fetch, Store(reader, b).value).value, modelAlias))
  {
    ChainOfValidBinding(reader, offerings, b, fetch, modelAlias);
    var chain := BuildRouteChain(ResolvePlan(fetch, Store(reader, b).value).value, modelAlias);
    IncreasingIsShort(now[|before|..], n);
    if SpelledApart(reader, b) {
      DistinctChainTriesEachOnce(before, now, o, chain, n);
    }
  }

  lemma DistinctChainTriesEachOnce(before: seq<nat>, now: seq<nat>, o: Outside, chain: seq<Route>, n: nat)
    requires Ordering.Distinct(Ids(chain)) && n <= |chain| && InvokedUpTo(before, now, o, chain, n)
    ensures TriesEachOnce(before, now, chain)
  {
    var ids := Ids(chain);
    forall k, m | |before| <= k < m < |now| ensures chain[now[k]].offeringId != chain[now[m]].offeringId {
      assert now[k] < now[m] < n;
      assert ids[now[k]] != ids[now[m]];
    }
  }

  /** Whatever resolves, whatever the adapters do and however far the loop gets. */
  ghost predicate NeverCallsTwice(s: StoredBinding) {
    forall fetch: Uuid -> Option<Route>, modelAlias: string, o: Outside, now: seq<nat>, n: nat |
      && Faithful(fetch) && ResolvePlan(fetch, s).Some?
      && n <= |BuildRouteChain(ResolvePlan(fetch, s).value, modelAlias)|
      && InvokedUpTo([], now, o, BuildRouteChain(ResolvePlan(fetch, s).value, modelAlias), n) ::
      TriesEachOnce([], now, BuildRouteChain(ResolvePlan(fetch, s).value, modelAlias))
  }

  /**
   No request routed by a binding that was set ever calls an offering twice, if and only
   if the binding spells its identifiers apart.
   */
  lemma TriesEachOnceExactly(reader: Reader, offerings: map<Uuid, Offering>, b: Binding)
    requires ValidBinding(reader, offerings, b) && Store(reader, b).Ok?
    ensures NeverCallsTwice(Store(reader, b).value) <==> SpelledApart(reader, b)
  {
    var s := Store(reader, b).value;
    StoredValues(reader, offerings, b);
    SpelledApartIffDistinct(reader, offerings, b);
    if SpelledApart(reader, b) {
      ApartNeverCallsTwice(s);
    } else {
      RepeatedCallsTwice(s);
    }
  }

  lemma ApartNeverCallsTwice(s: StoredBinding)
    requires Ordering.Distinct(StoredList(s)) && (s.policy == Ordered || s.fallbacks == [])
    ensures NeverCallsTwice(s)
  {
    forall fetch: Uuid -> Option<Route>, modelAlias: string, o: Outside, now: seq<nat>, n: nat |
      && Faithful(fetch) && ResolvePlan(fetch, s).Some?
      && n <= |BuildRouteChain(ResolvePlan(fetch, s).value, modelAlias)|
      && InvokedUpTo([], now, o, BuildRouteChain(ResolvePlan(fetch, s).value, modelAlias), n)
      ensures TriesEachOnce([], now, BuildRouteChain(ResolvePlan(fetch, s).value, modelAlias))
    {
      ApartChainDistinct(s, fetch, modelAlias);
      DistinctChainTriesEachOnce([], now, o, BuildRouteChain(ResolvePlan(fetch, s).value, modelAlias), n);
    }
  }

  lemma RepeatedCallsTwice(s: StoredBinding)
    requires !Ordering.Distinct(StoredList(s)) && (s.policy == Ordered || s.fallbacks == [])
    ensures !NeverCallsTwice(s)
  {
    ResolveAllChain(s);
    var chain := BuildRouteChain(ResolvePlan(ResolveAll, s).value, "");
    var o, now := RepeatedRouteIsCalledTwice(chain);
    assert !TriesEachOnce([], now, chain);
  }

  /** When every call fails the whole chain is walked, repetitions included. */
  lemma RepeatedRouteIsCalledTwice(chain: seq<Route>) returns (o: Outside, now: seq<nat>)
    requires !Ordering.Distinct(Ids(chain))
    ensures InvokedUpTo([], now, o, chain, |chain|) && !TriesEachOnce([], now, chain)
  {
    var providers := set r | r in chain :: r.providerKey;
    o := Outside(map[], providers, (i: nat) => StreamRun([], 0, Some("unavailable")), (i: nat) => Err("unavailable"));
    now := seq(|chain|, i => i);
    forall i | 0 <= i < |chain| ensures Reachable(o, chain, i) && now[i] == i {
      assert chain[i] in chain;
    }
    var ids := Ids(chain);
    var i, j :| 0 <= i < j < |ids| && ids[i] == ids[j];
    assert chain[now[i]].offeringId == chain[now[j]].offeringId;
  }

  lemma {:induction false} IncreasingIsShort(calls: seq<nat>, n: nat)
    requires forall k | 0 <= k < |calls| :: calls[k] < n
    requires forall k, m | 0 <= k < m < |calls| :: calls[k] < calls[m]
    ensures |calls| <= n
  {
    if calls != [] {
      IncreasingIsShort(calls[..|calls| - 1], calls[|calls| - 1]);
    }
  }
}
