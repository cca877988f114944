/**
 At-least-once consumption into an idempotent projection: poll, handle and commit one
 record at a time, with crashes, restarts, redelivery and failing commits.
 */
module Consumer {
  import opened Prelude

  datatype Event = Event(id: string, hash: string, body: string)

  /**
   A record: its envelope does not decode, its event type is unknown and passed over
   without a projection, or it carries an event to project.
   */
  datatype Entry = Undecodable | Ignored | Carries(event: Event)

  datatype Position = Position(partition: nat, offset: nat)

  type State = string

  /** How an event changes the projected state; None is a failing transaction. */
  type Applier = (State, Event) -> Option<State>

  /** An inbox row: the event's hash, and the record it was first consumed from. */
  datatype Consumed = Consumed(hash: string, at: Position)

  /** The projection database; `applied` lists the records that changed it, in order. */
  datatype Projection = Projection(state: State, inbox: map<string, Consumed>, applied: seq<Position>)

  datatype ProjectError = IdentityConflict | ApplyFailed

  /** One checkpointed transaction: true when the event applied for the first time. */
  function Project(apply: Applier, p: Projection, at: Position, e: Event): (Projection, Result<bool, ProjectError>) {
    if e.id in p.inbox then
      (p, if p.inbox[e.id].hash == e.hash then Ok(false) else Err(IdentityConflict))
    else
      match apply(p.state, e)
      case None => (p, Err(ApplyFailed))
      case Some(s) => (Projection(s, p.inbox[e.id := Consumed(e.hash, at)], p.applied + [at]), Ok(true))
  }

  /**
   The log, the projection database, and as history how many records of each partition
   were ever handled successfully.
   */
  datatype Ledger = Ledger(log: seq<seq<Entry>>, projection: Projection, reached: seq<nat>)

  /**
   `committed` is the broker's offset per partition, `position` where the running
   consumer fetches next, `batch` what it still has to process, `handled` whether the
   head of the batch was handled but not committed yet.
   */
  datatype World = World(
    ledger: Ledger,
    committed: seq<nat>,
    position: seq<nat>,
    batch: seq<Position>,
    handled: bool,
    running: bool)

  datatype CommitFault = Committed | Lost | ReplyLost

  datatype Label =
    | Produce(partition: nat, entry: Entry)
    | Start
    | Poll(order: seq<nat>)
    | Handle
    | Commit(fault: CommitFault)
    | Crash

  predicate InLog(log: seq<seq<Entry>>, at: Position) {
    at.partition < |log| && at.offset < |log[at.partition]|
  }

  /** The records a poll returns: the next one of each named partition, in turn. */
  function Fetch(log: seq<seq<Entry>>, position: seq<nat>, order: seq<nat>): (seq<Position>, seq<nat>)
    requires |position| == |log|
    decreases |order|
  {
    if order == [] || order[0] >= |log| || position[order[0]] >= |log[order[0]]| then ([], position)
    else
      var p := order[0];
      var (rest, final) := Fetch(log, position[p := position[p] + 1], order[1..]);
      ([Position(p, position[p])] + rest, final)
  }

  function Stop(w: World): World {
    w.(running := false, batch := [], handled := false)
  }

  function Append(l: Ledger, p: nat, entry: Entry): Ledger
    requires p < |l.log|
  {
    l.(log := l.log[p := l.log[p] + [entry]])
  }

  /** Handling a record: decode, then pass over or project; None when that fails. */
  function HandleEntry(apply: Applier, l: Ledger, at: Position): Option<Ledger>
    requires InLog(l.log, at) && |l.reached| == |l.log|
  {
    match l.log[at.partition][at.offset]
    case Undecodable => None
    case Ignored => Some(l.(reached := Reach(l.reached, at)))
    case Carries(e) =>
      match Project(apply, l.projection, at, e)
      case (_, Err(_)) => None
      case (projection, Ok(_)) => Some(Ledger(l.log, projection, Reach(l.reached, at)))
  }

  function Reach(reached: seq<nat>, at: Position): (r: seq<nat>)
    requires at.partition < |reached|
  {
    if reached[at.partition] <= at.offset then reached[at.partition := at.offset + 1] else reached
  }

  function CommitRecord(w: World, at: Position, fault: CommitFault): World
    requires at.partition < |w.committed| && w.batch != []
  {
    var committed := if fault == Lost then w.committed else w.committed[at.partition := at.offset + 1];
    if fault == Committed then w.(committed := committed, batch := w.batch[1..], handled := false)
    else Stop(w.(committed := committed))
  }

  /** One atomic step; any error ends the run. A label that does not apply changes nothing. */
  function Step(apply: Applier, w: World, l: Label): World
    requires Shape(w)
  {
    match l
    case Produce(p, entry) =>
      if p < |w.ledger.log| then w.(ledger := Append(w.ledger, p, entry)) else w
    case Start =>
      w.(running := true, position := w.committed, batch := [], handled := false)
    case Poll(order) =>
      if w.running && w.batch == [] then
        var (batch, position) := Fetch(w.ledger.log, w.position, order);
        w.(batch := batch, position := position)
      else w
    case Handle =>
      if w.running && w.batch != [] && !w.handled then
        assert w.batch[0] in w.batch;
        match HandleEntry(apply, w.ledger, w.batch[0])
        case None => Stop(w)
        case Some(l) => w.(ledger := l, handled := true)
      else w
    case Commit(fault) =>
      if w.running && w.batch != [] && w.handled then
        assert w.batch[0] in w.batch;
        CommitRecord(w, w.batch[0], fault)
      else w
    case Crash => Stop(w)
  }

  /** The arrays fit together and the batch points into the log. */
  predicate Shape(w: World) {
    && |w.committed| == |w.position| == |w.ledger.reached| == |w.ledger.log|
    && forall at :: at in w.batch ==> InLog(w.ledger.log, at)
  }

  // ----- the invariant of the consumer -----

  /** Processing the batch takes each partition from its committed offset, record by record, to its position. */
  predicate Lined(committed: seq<nat>, batch: seq<Position>, position: seq<nat>)
    decreases |batch|
  {
    if batch == [] then committed == position
    else
      && batch[0].partition < |committed|
      && batch[0].offset == committed[batch[0].partition]
      && Lined(committed[batch[0].partition := batch[0].offset + 1], batch[1..], position)
  }

  predicate OffsetsOk(w: World)
    requires Shape(w)
  {
    && (forall p | 0 <= p < |w.committed| ::
          w.committed[p] <= w.ledger.reached[p] <= w.committed[p] + 1 && w.ledger.reached[p] <= |w.ledger.log[p]|)
    && (w.running ==> Lined(w.committed, w.batch, w.position))
    && (w.handled ==>
          && w.running && w.batch != [] && w.batch[0] in w.batch
          && w.ledger.reached[w.batch[0].partition] == w.batch[0].offset + 1)
  }

  // ----- the invariant of the projection -----

  function EventAt(log: seq<seq<Entry>>, at: Position): Option<Event> {
    if InLog(log, at) && log[at.partition][at.offset].Carries? then Some(log[at.partition][at.offset].event) else None
  }

  predicate IgnoredAt(log: seq<seq<Entry>>, at: Position) {
    InLog(log, at) && log[at.partition][at.offset].Ignored?
  }

  /** Everything a log says, a longer one says too. */
  ghost predicate Continues(log: seq<seq<Entry>>, log': seq<seq<Entry>>) {
    && (forall at :: EventAt(log, at).Some? ==> EventAt(log', at) == EventAt(log, at))
    && (forall at :: IgnoredAt(log, at) ==> IgnoredAt(log', at))
  }

  predicate Reached(reached: seq<nat>, at: Position) {
    at.partition < |reached| && at.offset < reached[at.partition]
  }

  /** The state after applying the events at these positions once each, in order. */
  function Replay(apply: Applier, initial: State, log: seq<seq<Entry>>, applied: seq<Position>): Option<State> {
    if applied == [] then Some(initial)
    else
      match (Replay(apply, initial, log, applied[..|applied| - 1]), EventAt(log, applied[|applied| - 1]))
      case (Some(s), Some(e)) => apply(s, e)
      case _ => None
  }

  predicate SameEvent(log: seq<seq<Entry>>, a: Position, b: Position) {
    EventAt(log, a).Some? && EventAt(log, b).Some? && EventAt(log, a).value.id == EventAt(log, b).value.id
  }

  /** `b` stands for the record at `at`: the same event, and not a later record of its partition. */
  predicate StandsFor(log: seq<seq<Entry>>, b: Position, at: Position) {
    SameEvent(log, b, at) && (b.partition == at.partition ==> b.offset <= at.offset)
  }

  /** Applied records are reached, each is its event's inbox record, in log order per partition. */
  predicate AppliedOk(l: Ledger) {
    var applied := l.projection.applied;
    && (forall k | 0 <= k < |applied| ::
          && Reached(l.reached, applied[k]) && EventAt(l.log, applied[k]).Some?
          && EventAt(l.log, applied[k]).value.id in l.projection.inbox
          && l.projection.inbox[EventAt(l.log, applied[k]).value.id].at == applied[k])
    && (forall j, k | 0 <= j < k < |applied| ::
          && applied[j] != applied[k]
          && (applied[j].partition == applied[k].partition ==> applied[j].offset < applied[k].offset))
  }

  /** A reached record was ignored, or its event is in the inbox, consumed at it or before it. */
  ghost predicate ReachedOk(l: Ledger) {
    forall at | Reached(l.reached, at) && !IgnoredAt(l.log, at) ::
      && EventAt(l.log, at).Some?
      && EventAt(l.log, at).value.id in l.projection.inbox
      && l.projection.inbox[EventAt(l.log, at).value.id].hash == EventAt(l.log, at).value.hash
      && StandsFor(l.log, l.projection.inbox[EventAt(l.log, at).value.id].at, at)
  }

  predicate InboxOk(l: Ledger) {
    forall id :: id in l.projection.inbox ==>
      var at := l.projection.inbox[id].at;
      at in l.projection.applied && EventAt(l.log, at).Some? && EventAt(l.log, at).value.id == id
  }

  ghost predicate LedgerOk(apply: Applier, initial: State, l: Ledger) {
    && AppliedOk(l) && ReachedOk(l) && InboxOk(l)
    && Replay(apply, initial, l.log, l.projection.applied) == Some(l.projection.state)
  }

  ghost predicate Inv(apply: Applier, initial: State, w: World) {
    Shape(w) && OffsetsOk(w) && LedgerOk(apply, initial, w.ledger)
  }

  // ----- preservation -----

  lemma {:induction false} FetchLined(log: seq<seq<Entry>>, position: seq<nat>, order: seq<nat>)
    requires |position| == |log|
    ensures var (batch, final) := Fetch(log, position, order);
            && |final| == |log|
            && Lined(position, batch, final)
            && forall at :: at in batch ==> InLog(log, at)
    decreases |order|
  {
    if order == [] || order[0] >= |log| || position[order[0]] >= |log[order[0]]| {
    } else {
      var p := order[0];
      FetchLined(log, position[p := position[p] + 1], order[1..]);
      var (rest, final) := Fetch(log, position[p := position[p] + 1], order[1..]);
      var batch := [Position(p, position[p])] + rest;
      assert batch[1..] == rest;
    }
  }

  lemma {:induction false} ReplayOnLongerLog(
    apply: Applier, initial: State, log: seq<seq<Entry>>, log': seq<seq<Entry>>, applied: seq<Position>)
    requires Continues(log, log')
    requires Replay(apply, initial, log, applied).Some?
    ensures Replay(apply, initial, log', applied) == Replay(apply, initial, log, applied)
  {
    if applied != [] {
      ReplayOnLongerLog(apply, initial, log, log', applied[..|applied| - 1]);
    }
  }

  /** Producing only appends, so nothing already projected is affected. */
  lemma AppendKeepsLedger(apply: Applier, initial: State, l: Ledger, p: nat, entry: Entry)
    requires LedgerOk(apply, initial, l) && p < |l.log|
    ensures LedgerOk(apply, initial, Append(l, p, entry))
  {
    var l' := Append(l, p, entry);
    assert Continues(l.log, l'.log);
    ReplayOnLongerLog(apply, initial, l.log, l'.log, l.projection.applied);
    LongerLogKeepsRecords(l, l');
  }

  lemma LongerLogKeepsRecords(l: Ledger, l': Ledger)
    requires l'.projection == l.projection && l'.reached == l.reached
    requires Continues(l.log, l'.log)
    requires AppliedOk(l) && ReachedOk(l) && InboxOk(l)
    ensures AppliedOk(l') && ReachedOk(l') && InboxOk(l')
  {
  }

  lemma ReachedNext(reached: seq<nat>, at: Position)
    requires at.partition < |reached| && at.offset <= reached[at.partition] <= at.offset + 1
    ensures forall b :: Reached(Reach(reached, at), b) <==> Reached(reached, b) || b == at
  {
  }

  /** A redelivered or repeated event changes nothing and is counted as reached. */
  lemma DuplicateKeepsLedger(apply: Applier, initial: State, l: Ledger, at: Position, e: Event)
    requires LedgerOk(apply, initial, l) && |l.reached| == |l.log|
    requires EventAt(l.log, at) == Some(e) && at.offset <= l.reached[at.partition] <= at.offset + 1
    requires e.id in l.projection.inbox && l.projection.inbox[e.id].hash == e.hash
    ensures LedgerOk(apply, initial, l.(reached := Reach(l.reached, at)))
  {
    ReachedNext(l.reached, at);
    assert Reached(l.reached, l.projection.inbox[e.id].at);
  }

  /** A record passed over changes nothing and is counted as reached. */
  lemma IgnoredKeepsLedger(apply: Applier, initial: State, l: Ledger, at: Position)
    requires LedgerOk(apply, initial, l) && |l.reached| == |l.log|
    requires IgnoredAt(l.log, at) && at.offset <= l.reached[at.partition] <= at.offset + 1
    ensures LedgerOk(apply, initial, l.(reached := Reach(l.reached, at)))
  {
    ReachedNext(l.reached, at);
  }

  /** A new event is applied once and entered in the inbox with it. */
  lemma FreshKeepsLedger(apply: Applier, initial: State, l: Ledger, at: Position, e: Event)
    requires LedgerOk(apply, initial, l) && |l.reached| == |l.log|
    requires EventAt(l.log, at) == Some(e) && at.offset <= l.reached[at.partition] <= at.offset + 1
    requires e.id !in l.projection.inbox && apply(l.projection.state, e).Some?
    ensures LedgerOk(apply, initial, Ledger(l.log, Project(apply, l.projection, at, e).0, Reach(l.reached, at)))
  {
    var l' := Ledger(l.log, Project(apply, l.projection, at, e).0, Reach(l.reached, at));
    var applied := l.projection.applied;
    assert !Reached(l.reached, at);
    ReachedNext(l.reached, at);
    assert l'.projection.applied == applied + [at] && (applied + [at])[..|applied|] == applied;
    FreshApplied(l, l', at, e);
    FreshReached(l, l', at, e);
    FreshInbox(l, l', at, e);
  }

  lemma FreshReached(l: Ledger, l': Ledger, at: Position, e: Event)
    requires ReachedOk(l) && l'.log == l.log
    requires EventAt(l.log, at) == Some(e) && e.id !in l.projection.inbox
    requires l'.projection.inbox == l.projection.inbox[e.id := Consumed(e.hash, at)]
    requires forall b :: Reached(l'.reached, b) <==> Reached(l.reached, b) || b == at
    ensures ReachedOk(l')
  {
  }

  lemma FreshInbox(l: Ledger, l': Ledger, at: Position, e: Event)
    requires InboxOk(l) && l'.log == l.log && l'.projection.applied == l.projection.applied + [at]
    requires EventAt(l.log, at) == Some(e)
    requires l'.projection.inbox == l.projection.inbox[e.id := Consumed(e.hash, at)]
    ensures InboxOk(l')
  {
    assert at in l'.projection.applied;
  }

  lemma FreshApplied(l: Ledger, l': Ledger, at: Position, e: Event)
    requires AppliedOk(l) && l'.log == l.log && l'.projection.applied == l.projection.applied + [at]
    requires EventAt(l.log, at) == Some(e) && e.id !in l.projection.inbox && !Reached(l.reached, at)
    requires at.partition < |l.reached|
    requires l'.projection.inbox == l.projection.inbox[e.id := Consumed(e.hash, at)]
    requires forall b :: Reached(l'.reached, b) <==> Reached(l.reached, b) || b == at
    ensures AppliedOk(l')
  {
    var applied := l.projection.applied;
    forall j | 0 <= j < |applied|
      ensures applied[j] != at
      ensures applied[j].partition == at.partition ==> applied[j].offset < at.offset
    {
      assert Reached(l.reached, applied[j]);
    }
  }

  lemma HandleKeepsLedger(apply: Applier, initial: State, l: Ledger, at: Position)
    requires LedgerOk(apply, initial, l) && |l.reached| == |l.log| && InLog(l.log, at)
    requires at.offset <= l.reached[at.partition] <= at.offset + 1
    requires HandleEntry(apply, l, at).Some?
    ensures LedgerOk(apply, initial, HandleEntry(apply, l, at).value)
  {
    if IgnoredAt(l.log, at) {
      IgnoredKeepsLedger(apply, initial, l, at);
      return;
    }
    var e := EventAt(l.log, at).value;
    if e.id in l.projection.inbox {
      DuplicateKeepsLedger(apply, initial, l, at, e);
    } else {
      FreshKeepsLedger(apply, initial, l, at, e);
    }
  }

  lemma HandleKeepsInv(apply: Applier, initial: State, w: World)
    requires Inv(apply, initial, w)
    ensures Inv(apply, initial, Step(apply, w, Handle))
  {
    if w.running && w.batch != [] && !w.handled {
      var at := w.batch[0];
      assert at in w.batch;
      HandleKeepsOffsets(apply, w);
      if HandleEntry(apply, w.ledger, at).Some? {
        HandleKeepsLedger(apply, initial, w.ledger, at);
      }
    }
  }

  lemma HandleKeepsOffsets(apply: Applier, w: World)
    requires Shape(w) && OffsetsOk(w) && w.running && w.batch != [] && !w.handled
    ensures var w' := Step(apply, w, Handle); Shape(w') && OffsetsOk(w')
  {
    assert w.batch[0] in w.batch;
  }

  lemma StepKeepsInv(apply: Applier, initial: State, w: World, l: Label)
    requires Inv(apply, initial, w)
    ensures Inv(apply, initial, Step(apply, w, l))
  {
    match l
    case Produce(p, entry) =>
      if p < |w.ledger.log| {
        AppendKeepsLedger(apply, initial, w.ledger, p, entry);
      }
    case Start =>
    case Poll(order) => PollKeepsShape(apply, w, order);
    case Handle => HandleKeepsInv(apply, initial, w);
    case Commit(fault) => CommitKeepsShape(apply, w, fault);
    case Crash =>
  }

  // ----- every run -----

  function Exec(apply: Applier, w: World, run: seq<Label>): (r: World)
    requires Shape(w) && OffsetsOk(w)
    ensures Shape(r) && OffsetsOk(r)
  {
    if run == [] then w
    else
      var before := Exec(apply, w, run[..|run| - 1]);
      StepKeepsShape(apply, before, run[|run| - 1]);
      Step(apply, before, run[|run| - 1])
  }

  lemma StepKeepsShape(apply: Applier, w: World, l: Label)
    requires Shape(w) && OffsetsOk(w)
    ensures var w' := Step(apply, w, l); Shape(w') && OffsetsOk(w')
  {
    match l
    case Produce(p, entry) =>
    case Start =>
    case Poll(order) => PollKeepsShape(apply, w, order);
    case Handle =>
      if w.running && w.batch != [] && !w.handled {
        HandleKeepsOffsets(apply, w);
      }
    case Commit(fault) => CommitKeepsShape(apply, w, fault);
    case Crash =>
  }

  lemma PollKeepsShape(apply: Applier, w: World, order: seq<nat>)
    requires Shape(w) && OffsetsOk(w)
    ensures var w' := Step(apply, w, Poll(order)); Shape(w') && OffsetsOk(w')
  {
    FetchLined(w.ledger.log, w.position, order);
  }

  lemma CommitKeepsShape(apply: Applier, w: World, fault: CommitFault)
    requires Shape(w) && OffsetsOk(w)
    ensures var w' := Step(apply, w, Commit(fault)); Shape(w') && OffsetsOk(w')
  {
    if w.running && w.batch != [] && w.handled {
      assert forall b :: b in w.batch[1..] ==> b in w.batch;
    }
  }

  lemma {:induction false} RunKeepsInv(apply: Applier, initial: State, w: World, run: seq<Label>)
    requires Inv(apply, initial, w)
    ensures Inv(apply, initial, Exec(apply, w, run))
  {
    if run != [] {
      RunKeepsInv(apply, initial, w, run[..|run| - 1]);
      StepKeepsInv(apply, initial, Exec(apply, w, run[..|run| - 1]), run[|run| - 1]);
    }
  }

  function Zeros(n: nat): (r: seq<nat>)
    ensures |r| == n && forall i | 0 <= i < n :: r[i] == 0
  {
    seq(n, _ => 0)
  }

  /** Nothing produced, consumed or projected yet, over n partitions. */
  function Fresh(n: nat, initial: State): (w: World)
    ensures Shape(w) && OffsetsOk(w)
  {
    World(Ledger(seq(n, _ => []), Projection(initial, map[], []), Zeros(n)), Zeros(n), Zeros(n), [], false, false)
  }

  lemma FreshIsOk(apply: Applier, n: nat, initial: State)
    ensures Inv(apply, initial, Fresh(n, initial))
  {
  }

  /**
   Across crashes, restarts, redelivery and failing commits: every partition has
   handled exactly a prefix of its log, at most one record past the committed ones;
   nothing in it failed to decode; each event in those prefixes was applied exactly once and nothing else was; within
   a partition events were applied in log order; and the projected state is what
   applying them in that order gives.
   */
  lemma AppliedExactlyOnce(apply: Applier, n: nat, initial: State, run: seq<Label>)
    ensures var w := Exec(apply, Fresh(n, initial), run);
            var l := w.ledger;
            var applied := l.projection.applied;
            && (forall p | 0 <= p < |w.committed| ::
                  w.committed[p] <= l.reached[p] <= w.committed[p] + 1 && l.reached[p] <= |l.log[p]|)
            && (forall at | Reached(l.reached, at) && !IgnoredAt(l.log, at) ::
                  EventAt(l.log, at).Some? && exists k :: 0 <= k < |applied| && SameEvent(l.log, applied[k], at))
            && (forall k | 0 <= k < |applied| :: Reached(l.reached, applied[k]))
            && (forall j, k | 0 <= j < k < |applied| ::
                  && !SameEvent(l.log, applied[j], applied[k])
                  && (applied[j].partition == applied[k].partition ==> applied[j].offset < applied[k].offset))
            && Replay(apply, initial, l.log, applied) == Some(l.projection.state)
  {
    FreshIsOk(apply, n, initial);
    RunKeepsInv(apply, initial, Fresh(n, initial), run);
    ReachedAreApplied(Exec(apply, Fresh(n, initial), run).ledger);
    AppliedEventsDiffer(Exec(apply, Fresh(n, initial), run).ledger);
  }

  lemma ReachedAreApplied(l: Ledger)
    requires AppliedOk(l) && ReachedOk(l) && InboxOk(l)
    ensures forall at | Reached(l.reached, at) && !IgnoredAt(l.log, at) ::
              EventAt(l.log, at).Some?
              && exists k :: 0 <= k < |l.projection.applied| && SameEvent(l.log, l.projection.applied[k], at)
  {
    forall at | Reached(l.reached, at) && !IgnoredAt(l.log, at)
      ensures exists k :: 0 <= k < |l.projection.applied| && SameEvent(l.log, l.projection.applied[k], at)
    {
      ReachedHasRecord(l, at);
    }
  }

  lemma ReachedHasRecord(l: Ledger, at: Position)
    requires AppliedOk(l) && ReachedOk(l) && InboxOk(l) && Reached(l.reached, at) && !IgnoredAt(l.log, at)
    ensures exists k :: 0 <= k < |l.projection.applied| && SameEvent(l.log, l.projection.applied[k], at)
  {
    var b := l.projection.inbox[EventAt(l.log, at).value.id].at;
    var k :| 0 <= k < |l.projection.applied| && l.projection.applied[k] == b;
    assert SameEvent(l.log, l.projection.applied[k], at);
  }

  lemma AppliedEventsDiffer(l: Ledger)
    requires AppliedOk(l)
    ensures forall j, k | 0 <= j < k < |l.projection.applied| ::
              !SameEvent(l.log, l.projection.applied[j], l.projection.applied[k])
  {
  }

  // ----- progress -----

  /**
   A record goes through if it is of unknown type, or carries an event consumed before
   with the same hash, or one that is new and that the applier takes.
   */
  predicate GoesThrough(apply: Applier, l: Ledger, at: Position) {
    || IgnoredAt(l.log, at)
    || (EventAt(l.log, at).Some?
        && var e := EventAt(l.log, at).value;
           if e.id in l.projection.inbox then l.projection.inbox[e.id].hash == e.hash
           else apply(l.projection.state, e).Some?)
  }

  /** The projection after such a record: changed only by a new event, and then in all its parts. */
  function ProjectionAfter(apply: Applier, l: Ledger, at: Position): Projection
    requires GoesThrough(apply, l, at)
  {
    if IgnoredAt(l.log, at) || EventAt(l.log, at).value.id in l.projection.inbox then l.projection
    else
      var e := EventAt(l.log, at).value;
      Projection(apply(l.projection.state, e).value,
                 l.projection.inbox[e.id := Consumed(e.hash, at)],
                 l.projection.applied + [at])
  }

  /** Handling succeeds exactly on the records that go through. */
  lemma HandlesExactly(apply: Applier, l: Ledger, at: Position)
    requires InLog(l.log, at) && |l.reached| == |l.log|
    ensures HandleEntry(apply, l, at).Some? <==> GoesThrough(apply, l, at)
    ensures GoesThrough(apply, l, at) ==>
              && HandleEntry(apply, l, at).value.log == l.log
              && HandleEntry(apply, l, at).value.projection == ProjectionAfter(apply, l, at)
              && at.offset < HandleEntry(apply, l, at).value.reached[at.partition]
  {
  }

  /** What handling the head of a batch leaves. */
  lemma HandlingStep(apply: Applier, w: World)
    requires Shape(w) && w.running && !w.handled && w.batch != [] && InLog(w.ledger.log, w.batch[0])
    ensures var at, w1 := w.batch[0], Step(apply, w, Handle);
            if GoesThrough(apply, w.ledger, at) then
              && w1.running && w1.handled && w1.batch == w.batch && w1.committed == w.committed
              && w1.ledger.log == w.ledger.log && w1.ledger.projection == ProjectionAfter(apply, w.ledger, at)
              && |w1.ledger.reached| == |w.ledger.reached|
            else !w1.running && w1.committed == w.committed && w1.ledger == w.ledger
  {
    HandlesExactly(apply, w.ledger, w.batch[0]);
  }

  lemma CommittingStep(apply: Applier, w: World, fault: CommitFault)
    requires Shape(w) && w.running && w.handled && w.batch != [] && InLog(w.ledger.log, w.batch[0])
    ensures var at, w' := w.batch[0], Step(apply, w, Commit(fault));
            && at.partition < |w.committed|
            && w'.ledger == w.ledger
            && w'.committed == (if fault == Lost then w.committed else w.committed[at.partition := at.offset + 1])
            && (w'.running <==> fault == Committed)
            && (fault == Committed ==> !w'.handled && w'.batch == w.batch[1..])
  {
  }

  /** The steps of a consumer that starts anew and processes one record of a partition. */
  function RestartRun(p: nat): seq<Label> {
    [Start] + [Poll([p])] + [Handle] + [Commit(Committed)]
  }

  lemma RestartUnfolds(apply: Applier, w: World, p: nat)
    requires Shape(w) && OffsetsOk(w)
    ensures var w1 := Exec(apply, w, [Start]);
            var w2 := Exec(apply, w, [Start] + [Poll([p])]);
            var w3 := Exec(apply, w, [Start] + [Poll([p])] + [Handle]);
            && w1 == Step(apply, w, Start) && w2 == Step(apply, w1, Poll([p]))
            && w3 == Step(apply, w2, Handle)
            && Exec(apply, w, RestartRun(p)) == Step(apply, w3, Commit(Committed))
  {
    var a, b, c, d := [Start], [Start] + [Poll([p])], [Start] + [Poll([p])] + [Handle], RestartRun(p);
    assert a[..0] == [] && b[..1] == a && c[..2] == b && d[..3] == c;
    assert Exec(apply, w, []) == w;
  }

  /** A poll for one partition fetches its next record. */
  lemma PollFetchesNext(apply: Applier, w: World, p: nat)
    requires Shape(w) && OffsetsOk(w) && p < |w.committed| && w.committed[p] < |w.ledger.log[p]|
    ensures var w1 := Step(apply, w, Start);
            var w2 := Step(apply, w1, Poll([p]));
            && w2.ledger == w.ledger && w2.committed == w.committed
            && w2.running && !w2.handled && w2.batch == [Position(p, w.committed[p])]
  {
    var order := [p];
    assert order[1..] == [];
    var position := w.committed[p := w.committed[p] + 1];
    assert Fetch(w.ledger.log, position, []) == ([], position);
  }

  /**
   A consumer that starts anew processes the next record of a partition if and only if
   that record goes through: then the committed offset moves past it and the projection
   is as the record leaves it, and otherwise neither moves.
   */
  lemma NextRecordIsTakenExactly(apply: Applier, w: World, p: nat)
    requires Shape(w) && OffsetsOk(w) && p < |w.committed| && w.committed[p] < |w.ledger.log[p]|
    ensures var w' := Exec(apply, w, RestartRun(p));
            var at := Position(p, w.committed[p]);
            if GoesThrough(apply, w.ledger, at) then
              && w'.committed == w.committed[p := w.committed[p] + 1] && w'.running
              && w'.ledger.projection == ProjectionAfter(apply, w.ledger, at)
            else
              w'.committed == w.committed && !w'.running && w'.ledger == w.ledger
  {
    var at := Position(p, w.committed[p]);
    RestartUnfolds(apply, w, p);
    PollFetchesNext(apply, w, p);
    HandlesExactly(apply, w.ledger, at);
    var w2 := Exec(apply, w, [Start] + [Poll([p])]);
    assert w2.batch[0] == at && w2.batch[1..] == [];
  }

  /**
   Redelivery: whatever state a crash leaves with a record handled but uncommitted, the
   consumer that starts next commits that record and the projection stays as it was.
   */
  lemma RedeliveryAdvances(apply: Applier, initial: State, w: World, p: nat)
    requires Inv(apply, initial, w) && p < |w.committed| && w.ledger.reached[p] == w.committed[p] + 1
    ensures w.committed[p] < |w.ledger.log[p]|
    ensures var w' := Exec(apply, Step(apply, w, Crash), RestartRun(p));
            && w'.committed == w.committed[p := w.committed[p] + 1]
            && w'.ledger.projection == w.ledger.projection
  {
    var crashed := Step(apply, w, Crash);
    var at := Position(p, w.committed[p]);
    assert Reached(w.ledger.reached, at);
    NextRecordIsTakenExactly(apply, crashed, p);
  }

  /** A poll returns a record for every name on its order, as long as there are enough. */
  lemma {:induction false} FetchTakesAll(log: seq<seq<Entry>>, position: seq<nat>, order: seq<nat>)
    requires |position| == |log|
    requires forall p :: p in order ==> p < |log| && position[p] + multiset(order)[p] <= |log[p]|
    ensures var batch := Fetch(log, position, order).0;
            |batch| == |order| && forall i | 0 <= i < |order| :: batch[i].partition == order[i]
    decreases |order|
  {
    if order != [] {
      var p, rest := order[0], order[1..];
      assert order == [p] + rest;
      assert p in order && multiset(order)[p] >= 1;
      var next := position[p := position[p] + 1];
      forall q | q in rest ensures q < |log| && next[q] + multiset(rest)[q] <= |log[q]| {
        assert q in order;
        assert multiset(order)[q] == multiset([p])[q] + multiset(rest)[q];
      }
      FetchTakesAll(log, next, rest);
    }
  }

  /** The steps that are not the consumer's own: producing, crashing, and commits that fail. */
  lemma OutsideSteps(apply: Applier, w: World, p: nat, entry: Entry)
    requires Shape(w)
    ensures p < |w.ledger.log| ==>
              Step(apply, w, Produce(p, entry)) ==
                w.(ledger := w.ledger.(log := w.ledger.log[p := w.ledger.log[p] + [entry]]))
    ensures Step(apply, w, Crash) == World(w.ledger, w.committed, w.position, [], false, false)
    ensures w.running && w.batch != [] && w.handled && w.batch[0].partition < |w.committed| ==>
              var at := w.batch[0];
              && Step(apply, w, Commit(Lost)) == World(w.ledger, w.committed, w.position, [], false, false)
              && Step(apply, w, Commit(ReplyLost)) ==
                   World(w.ledger, w.committed[at.partition := at.offset + 1], w.position, [], false, false)
  {
  }

  // ----- one partition -----

  /** The record carries an event that no earlier record carries. */
  predicate IsFirst(log: seq<seq<Entry>>, offset: nat) {
    && EventAt(log, Position(0, offset)).Some?
    && forall m | 0 <= m < offset :: !SameEvent(log, Position(0, m), Position(0, offset))
  }

  /** The records below n that carry an event for the first time. */
  function FirstOccurrences(log: seq<seq<Entry>>, n: nat): seq<Position> {
    if n == 0 then []
    else if IsFirst(log, n - 1) then FirstOccurrences(log, n - 1) + [Position(0, n - 1)]
    else FirstOccurrences(log, n - 1)
  }

  lemma {:induction false} FirstOccurrencesMembers(log: seq<seq<Entry>>, n: nat)
    ensures forall at :: at in FirstOccurrences(log, n) <==>
              at.partition == 0 && at.offset < n && IsFirst(log, at.offset)
    ensures Ascending(FirstOccurrences(log, n))
  {
    if n > 0 {
      FirstOccurrencesMembers(log, n - 1);
      assert Position(0, n - 1).offset == n - 1;
    }
  }

  predicate Ascending(s: seq<Position>) {
    && (forall k | 0 <= k < |s| :: s[k].partition == 0)
    && (forall j, k | 0 <= j < k < |s| :: s[j].offset < s[k].offset)
  }

  ghost predicate Included(a: seq<Position>, b: seq<Position>) {
    forall x :: x in a ==> x in b
  }

  function Init(s: seq<Position>): (r: seq<Position>)
    requires s != []
    ensures s == r + [s[|s| - 1]]
  {
    s[..|s| - 1]
  }

  lemma {:induction false} AscendingUnique(a: seq<Position>, b: seq<Position>)
    requires Ascending(a) && Ascending(b) && Included(a, b) && Included(b, a)
    ensures a == b
  {
    if a != [] {
      assert a[0] in b;
    }
    if b != [] {
      assert b[0] in a;
    }
    if a != [] {
      SameLast(a, b);
      InitIncluded(a, b);
      InitIncluded(b, a);
      AscendingUnique(Init(a), Init(b));
    }
  }

  lemma SameLast(a: seq<Position>, b: seq<Position>)
    requires Ascending(a) && Ascending(b) && Included(a, b) && Included(b, a) && a != [] && b != []
    ensures a[|a| - 1] == b[|b| - 1]
  {
    var x, y := a[|a| - 1], b[|b| - 1];
    assert x in b && y in a;
    assert x.offset <= y.offset && y.offset <= x.offset;
  }

  lemma InitIncluded(a: seq<Position>, b: seq<Position>)
    requires Ascending(a) && Included(a, b) && a != [] && b != [] && a[|a| - 1] == b[|b| - 1]
    ensures Ascending(Init(a)) && Included(Init(a), Init(b))
  {
    forall x | x in Init(a) ensures x in Init(b) {
      assert x in a && x.offset < a[|a| - 1].offset;
    }
  }

  /**
   With one partition the applied records are the first occurrences of the events in a
   prefix of the log, which is the committed prefix or one record more.
   */
  lemma OnePartitionAppliesPrefix(apply: Applier, initial: State, run: seq<Label>)
    ensures var w := Exec(apply, Fresh(1, initial), run);
            && |w.ledger.reached| == |w.committed| == 1
            && w.ledger.reached[0] in {w.committed[0], w.committed[0] + 1}
            && w.ledger.projection.applied == FirstOccurrences(w.ledger.log, w.ledger.reached[0])
            && Replay(apply, initial, w.ledger.log, FirstOccurrences(w.ledger.log, w.ledger.reached[0]))
               == Some(w.ledger.projection.state)
  {
    FreshIsOk(apply, 1, initial);
    RunKeepsInv(apply, initial, Fresh(1, initial), run);
    PartitionsStay(apply, Fresh(1, initial), run);
    var l := Exec(apply, Fresh(1, initial), run).ledger;
    var n := l.reached[0];
    FirstOccurrencesMembers(l.log, n);
    forall at ensures at in l.projection.applied <==> at in FirstOccurrences(l.log, n) {
      AppliedIffFirst(l, at);
    }
    assert Included(l.projection.applied, FirstOccurrences(l.log, n));
    AscendingUnique(l.projection.applied, FirstOccurrences(l.log, n));
  }

  lemma {:induction false} PartitionsStay(apply: Applier, w: World, run: seq<Label>)
    requires Shape(w) && OffsetsOk(w)
    ensures |Exec(apply, w, run).ledger.log| == |w.ledger.log|
  {
    if run != [] {
      PartitionsStay(apply, w, run[..|run| - 1]);
    }
  }

  lemma AppliedIffFirst(l: Ledger, at: Position)
    requires AppliedOk(l) && ReachedOk(l) && InboxOk(l) && |l.reached| == |l.log| == 1
    ensures at in l.projection.applied <==> at.partition == 0 && at.offset < l.reached[0] && IsFirst(l.log, at.offset)
  {
    assert at.partition == 0 ==> at == Position(0, at.offset);
    if at in l.projection.applied {
      assert Reached(l.reached, at);
      forall m | 0 <= m < at.offset ensures !SameEvent(l.log, Position(0, m), at) {
        assert Reached(l.reached, Position(0, m));
      }
    } else if at.partition == 0 && at.offset < l.reached[0] && EventAt(l.log, at).Some? {
      assert Reached(l.reached, at);
      var b := l.projection.inbox[EventAt(l.log, at).value.id].at;
      assert b in l.projection.applied && Reached(l.reached, b);
      assert b == Position(0, b.offset) && b.offset < at.offset;
      assert SameEvent(l.log, Position(0, b.offset), at);
    }
  }

  // ----- the consumer's loop -----

  datatype RunError = FetchFailed | ProcessFailed(at: Position) | CommitFailed(at: Position)

  /** What the client has for one iteration: a canceled context, an error, or records and their commits' fates. */
  datatype PollResult = Canceled | Broken | Records(order: seq<nat>, commits: seq<CommitFault>)

  /** The polls among some labels. */
  function Polled(labels: seq<Label>): seq<seq<nat>> {
    if labels == [] then []
    else
      Polled(labels[..|labels| - 1])
      + (if labels[|labels| - 1].Poll? then [labels[|labels| - 1].order] else [])
  }

  /** From the i-th on, the polls that return records before a canceled or failing one. */
  function Orders(polls: seq<PollResult>, i: nat): seq<seq<nat>>
    decreases |polls| - i
  {
    if i >= |polls| || !polls[i].Records? then [] else [polls[i].order] + Orders(polls, i + 1)
  }

  /** What ends the polls from the i-th on; running out of them is a cancellation. */
  function Ending(polls: seq<PollResult>, i: nat): PollResult
    decreases |polls| - i
  {
    if i >= |polls| then Canceled else if polls[i].Records? then Ending(polls, i + 1) else polls[i]
  }

  lemma PolledNext(labels: seq<Label>, l: Label)
    ensures Polled(labels + [l]) == Polled(labels) + (if l.Poll? then [l.order] else [])
  {
    assert (labels + [l])[..|labels|] == labels;
  }

  lemma Regroup<T>(a: seq<T>, x: T, b: seq<T>)
    ensures a + ([x] + b) == (a + [x]) + b
  {
  }

  /** The broker's offset is still at this record. */
  predicate Uncommitted(w: World, at: Position) {
    at.partition < |w.committed| && w.committed[at.partition] == at.offset
  }

  /** What becomes of the j-th commit of a batch. */
  function Fate(commits: seq<CommitFault>, j: nat): (fault: CommitFault)
    ensures fault != Committed ==> fault in commits
  {
    if j < |commits| then commits[j] else Committed
  }

  class ConsumerProcess {
    const apply: Applier
    var world: World

    constructor (apply: Applier, n: nat, initial: State)
      ensures this.apply == apply && world == Fresh(n, initial)
    {
      this.apply := apply;
      world := Fresh(n, initial);
    }

    /** One step, added to the run so far. */
    method Take(l: Label, ghost start: World, ghost labels: seq<Label>)
      requires Shape(start) && OffsetsOk(start) && world == Exec(apply, start, labels)
      modifies this
      ensures world == Step(apply, old(world), l)
      ensures world == Exec(apply, start, labels + [l])
      ensures Polled(labels + [l]) == Polled(labels) + (if l.Poll? then [l.order] else [])
    {
      PolledNext(labels, l);
      assert (labels + [l])[..|labels|] == labels;
      world := Step(apply, world, l);
    }

    /** Starts consuming at the committed offsets. */
    method StartUp() returns (ghost labels: seq<Label>)
      requires Shape(world) && OffsetsOk(world)
      modifies this
      ensures world == Exec(apply, old(world), labels) && Polled(labels) == []
      ensures world.running && world.batch == [] && !world.handled
    {
      Take(Start, world, []);
      labels := [Start];
      assert [] + [Start] == labels;
    }

    /** Polls once the last batch is done. */
    method FetchBatch(order: seq<nat>, ghost start: World, ghost before: seq<Label>) returns (ghost labels: seq<Label>)
      requires Shape(start) && OffsetsOk(start) && world == Exec(apply, start, before)
      requires world.running && world.batch == [] && !world.handled
      modifies this
      ensures world == Exec(apply, start, labels) && Polled(labels) == Polled(before) + [order]
      ensures world.running && !world.handled
    {
      Take(Poll(order), start, before);
      labels := before + [Poll(order)];
    }

    /** Handles one record and commits it; stops at the first failure. */
    method ProcessRecord(fault: CommitFault, ghost start: World, ghost before: seq<Label>)
      returns (r: Option<RunError>, ghost labels: seq<Label>)
      requires Shape(start) && OffsetsOk(start) && world == Exec(apply, start, before)
      requires world.running && !world.handled && world.batch != []
      modifies this
      ensures world == Exec(apply, start, labels) && Polled(labels) == Polled(before)
      ensures r == None ==> world.running && !world.handled && world.batch == old(world).batch[1..]
      ensures r.Some? ==> !world.running && r.value != FetchFailed
      ensures r.Some? && r.value.ProcessFailed? ==> Uncommitted(world, r.value.at)
      ensures r.Some? && r.value.CommitFailed? ==> fault != Committed
      ensures var l, at := old(world).ledger, old(world).batch[0];
              && at.partition < |old(world).committed|
              && (r == None <==> fault == Committed && GoesThrough(apply, l, at))
              && (r == Some(ProcessFailed(at)) <==> !GoesThrough(apply, l, at))
              && (r == Some(CommitFailed(at)) <==> fault != Committed && GoesThrough(apply, l, at))
              && world.committed ==
                   (if GoesThrough(apply, l, at) && fault != Lost
                    then old(world).committed[at.partition := at.offset + 1] else old(world).committed)
              && world.ledger.log == l.log
              && world.ledger.projection ==
                   (if GoesThrough(apply, l, at) then ProjectionAfter(apply, l, at) else l.projection)
    {
      var at := world.batch[0];
      assert at in world.batch;
      HandlingStep(apply, world);
      Take(Handle, start, before);
      labels := before + [Handle];
      if !world.running {
        return Some(ProcessFailed(at)), labels;
      }
      CommittingStep(apply, world, fault);
      Take(Commit(fault), start, labels);
      labels := labels + [Commit(fault)];
      if !world.running {
        return Some(CommitFailed(at)), labels;
      }
      return None, labels;
    }

    /** Handles and commits the records of one poll, one after the other. */
    method ProcessBatch(commits: seq<CommitFault>, ghost start: World, ghost before: seq<Label>)
      returns (r: Option<RunError>, ghost labels: seq<Label>)
      requires Shape(start) && OffsetsOk(start) && world == Exec(apply, start, before)
      requires world.running && !world.handled
      modifies this
      ensures world == Exec(apply, start, labels) && Polled(labels) == Polled(before)
      ensures r == None ==> world.running && world.batch == [] && !world.handled
      ensures r.Some? ==> !world.running && r.value != FetchFailed
      ensures r.Some? && r.value.ProcessFailed? ==> Uncommitted(world, r.value.at)
      ensures r.Some? && r.value.CommitFailed? ==> exists c :: c in commits && c != Committed
    {
      labels := before;
      var n := |world.batch|;
      for j := 0 to n
        invariant world == Exec(apply, start, labels)
        invariant world.running && !world.handled && |world.batch| == n - j
        invariant Polled(labels) == Polled(before)
      {
        var fault := Fate(commits, j);
        r, labels := ProcessRecord(fault, start, labels);
        if r.Some? {
          return;
        }
      }
      return None, labels;
    }

    /** One iteration: poll, then process what it returned. */
    method Iterate(order: seq<nat>, commits: seq<CommitFault>, ghost start: World, ghost before: seq<Label>)
      returns (r: Option<RunError>, ghost labels: seq<Label>)
      requires Shape(start) && OffsetsOk(start) && world == Exec(apply, start, before)
      requires world.running && world.batch == [] && !world.handled
      modifies this
      ensures world == Exec(apply, start, labels) && Polled(labels) == Polled(before) + [order]
      ensures r == None ==> world.running && world.batch == [] && !world.handled
      ensures r != Some(FetchFailed)
      ensures r.Some? && r.value.ProcessFailed? ==> Uncommitted(world, r.value.at)
    {
      labels := FetchBatch(order, start, before);
      r, labels := ProcessBatch(commits, start, labels);
    }

    /**
     Polls, handles and commits until the context is canceled (None) or something
     fails. Whatever happens is a run of the steps above, given by `labels`, and makes
     the polls in turn; a clean stop leaves no record half processed, and a record
     that failed is not committed.
     */
    method Run(polls: seq<PollResult>) returns (r: Option<RunError>, ghost labels: seq<Label>)
      requires Shape(world) && OffsetsOk(world)
      modifies this
      ensures world == Exec(apply, old(world), labels)
      ensures r == None ==> world.batch == [] && !world.handled
      ensures Polled(labels) <= Orders(polls, 0)
      ensures r == None || r == Some(FetchFailed) ==> Polled(labels) == Orders(polls, 0)
      ensures r == Some(FetchFailed) ==> Ending(polls, 0).Broken?
      ensures r == None ==> Ending(polls, 0).Canceled?
      ensures r.Some? && r.value.ProcessFailed? ==> Uncommitted(world, r.value.at)
    {
      ghost var start := world;
      labels := StartUp();
      for i := 0 to |polls|
        invariant world == Exec(apply, start, labels)
        invariant world.running && world.batch == [] && !world.handled
        invariant Orders(polls, 0) == Polled(labels) + Orders(polls, i)
        invariant Ending(polls, 0) == Ending(polls, i)
      {
        match polls[i] {
          case Canceled => return None, labels;
          case Broken => return Some(FetchFailed), labels;
          case Records(order, commits) =>
            Regroup(Polled(labels), order, Orders(polls, i + 1));
            r, labels := Iterate(order, commits, start, labels);
            if r.Some? {
              return;
            }
        }
      }
      return None, labels;
    }
  }
}
