/**
 The bring-your-own-key credential protocol: creation and rotation over two stores, a
 metadata row and a versioned compare-and-set secret store, with any number of
 concurrent attempts, lost replies and crashes between any two steps.
 */
module Byok {
  import opened Prelude

  type Secret = string
  type Fingerprint = string

  /** The keyed fingerprint function and its shortened display form. */
  datatype Keyed = Keyed(sum: Secret -> Fingerprint, display: Fingerprint -> string)

  datatype CredentialState = PendingStore | PendingVerification | Activated | VerificationFailed

  /** The metadata row. `active` 0 means that no version was ever activated. */
  datatype Credential = Credential(fingerprint: Fingerprint, state: CredentialState, active: nat, latest: nat)

  datatype ConnectionStatus = Pending | InUse | Failed

  datatype OperationState = Prepared | SecretStored | Succeeded | Rejected

  /** A rotation's idempotency record; its request hash covers these two values. */
  datatype Operation = Operation(state: OperationState, expected: nat, display: string)

  /** Version v of the secret is vault[v - 1]; `doomed` are the versions queued for destruction. */
  datatype Stores = Stores(
    vault: seq<Secret>,
    row: Option<Credential>,
    status: ConnectionStatus,
    connectionVersion: nat,
    operations: map<string, Operation>,
    doomed: set<nat>)

  datatype Kind = Create | Rotate(key: string, expected: nat)

  datatype Error =
    | CredentialRejected | IdempotencyConflict | SecretStoreConflict
    | VersionConflict | NotFound | Unavailable

  datatype Verdict = Accepted | Refused | Unreachable

  function Recorded(s: Stores): nat {
    if s.row == None then 0 else s.row.value.latest
  }

  function Greatest(a: nat, b: nat): nat {
    if a < b then b else a
  }

  // ----- the ports -----

  /** How a preparing call lets an attempt go on: at this snapshot, or done already. */
  datatype Start = Proceed(latest: nat) | Replay | Stop(error: Error)

  /** Insert the row if absent, then compare its fingerprint. */
  function EnsureCredential(s: Stores, fp: Fingerprint): (Stores, Start) {
    var s' := if s.row == None then s.(row := Some(Credential(fp, PendingStore, 0, 0))) else s;
    var c := s'.row.value;
    if c.fingerprint != fp then (s, Stop(IdempotencyConflict))
    else if c.state == Activated then (s', Replay)
    else if c.state == VerificationFailed then (s', Stop(CredentialRejected))
    else (s', Proceed(c.latest))
  }

  function PrepareRotation(k: Keyed, s: Stores, key: string, expected: nat, fp: Fingerprint): (Stores, Start) {
    if key in s.operations
       && (s.operations[key].expected != expected || s.operations[key].display != k.display(fp)) then
      (s, Stop(IdempotencyConflict))
    else if s.status == Pending then (s, Stop(NotFound))
    else if s.connectionVersion != expected then (s, Stop(VersionConflict))
    else if s.row == None then (s, Stop(NotFound))
    else
      var s' := if key in s.operations then s
                else s.(operations := s.operations[key := Operation(Prepared, expected, k.display(fp))]);
      match s'.operations[key].state
      case Succeeded => (s', Replay)
      case Rejected => (s', Stop(CredentialRejected))
      case _ => (s', Proceed(s.row.value.latest))
  }

  function Prepare(k: Keyed, s: Stores, kind: Kind, raw: Secret): (Stores, Start) {
    match kind
    case Create => EnsureCredential(s, k.sum(raw))
    case Rotate(key, expected) => PrepareRotation(k, s, key, expected, k.sum(raw))
  }

  predicate CasSucceeds(s: Stores, latest: nat) {
    |s.vault| == latest
  }

  function Append(s: Stores, raw: Secret): Stores {
    s.(vault := s.vault + [raw])
  }

  function SetOperation(s: Stores, key: string, state: OperationState): Stores {
    if key in s.operations then s.(operations := s.operations[key := s.operations[key].(state := state)]) else s
  }

  function RecordStored(s: Stores, kind: Kind, version: nat): Stores
    requires s.row.Some?
  {
    var c := s.row.value;
    match kind
    case Create => s.(row := Some(c.(state := PendingVerification, latest := Greatest(c.latest, version))))
    case Rotate(key, _) =>
      var s' := if key in s.operations && s.operations[key].state in {Prepared, SecretStored}
                then SetOperation(s, key, SecretStored) else s;
      s'.(row := Some(c.(latest := Greatest(c.latest, version))))
  }

  /** Making a verified version the active one. */
  function Promote(s: Stores, version: nat, fp: Fingerprint): Stores
    requires s.row.Some?
  {
    s.(row := Some(Credential(fp, Activated, version, Greatest(s.row.value.latest, version))),
       status := InUse, connectionVersion := s.connectionVersion + 1)
  }

  /** The version that a rotation to another one replaces. */
  function Replaced(s: Stores, version: nat): set<nat>
    requires s.row.Some?
  {
    if s.row.value.active > 0 && s.row.value.active != version then {s.row.value.active} else {}
  }

  /** The closing transaction, by verdict. */
  function SettleStores(k: Keyed, s: Stores, kind: Kind, raw: Secret, version: nat, verdict: Verdict)
    : (Stores, Option<Error>)
    requires s.row.Some?
  {
    match (verdict, kind)
    case (Accepted, Create) =>
      if s.status == InUse then (s, Some(NotFound)) else (Promote(s, version, k.sum(raw)), None)
    case (Accepted, Rotate(key, _)) =>
      (SetOperation(Promote(s, version, k.sum(raw)), key, Succeeded).(doomed := s.doomed + Replaced(s, version)), None)
    case (Refused, Create) =>
      var c := s.row.value;
      (s.(row := Some(c.(state := VerificationFailed, latest := Greatest(c.latest, version))),
          status := Failed, connectionVersion := s.connectionVersion + 1, doomed := s.doomed + {version}),
       Some(CredentialRejected))
    case (Refused, Rotate(key, _)) =>
      (SetOperation(s, key, Rejected).(doomed := s.doomed + {version}), Some(CredentialRejected))
    case (Unreachable, _) => (s, Some(Unavailable))
  }

  // ----- attempts -----

  datatype Stage =
    | Started
    | Ready(latest: nat)
    | Conflicted(latest: nat)
    | Polled(latest: nat, current: nat)
    | Stored(version: nat)
    | Noted(version: nat)
    | Loaded(version: nat, bytes: Secret)
    | Verified(version: nat, bytes: Secret, verdict: Verdict)
    | Finished(error: Option<Error>)

  datatype Attempt = Attempt(kind: Kind, raw: Secret, stage: Stage)

  /** What was handed to the provider, and what was handed to activation or completion. */
  datatype Check = Check(version: nat, bytes: Secret, verdict: Verdict)
  datatype Promotion = Promotion(version: nat, fingerprint: Fingerprint)

  datatype Settlement = Settlement(attempt: nat, version: nat)

  /** The closing transaction promoted or rejected its version, rather than give up. */
  predicate TookEffect(error: Option<Error>) {
    error == None || error == Some(CredentialRejected)
  }

  /** `writers` names the attempt behind each vault version, `settlements` who settled which. */
  datatype World = World(
    stores: Stores,
    attempts: seq<Attempt>,
    writers: seq<nat>,
    checks: seq<Check>,
    promotions: seq<Promotion>,
    settlements: seq<Settlement>)

  datatype Label =
    | Begin(kind: Kind, raw: Secret)
    | Expire(key: string)
    | PrepareStep(at: nat)
    | WriteCas(at: nat)
    | WriteLost(at: nat)
    | Poll(at: nat)
    | ReadBack(at: nat)
    | Note(at: nat)
    | Load(at: nat)
    | Verify(at: nat, verdict: Verdict)
    | Settle(at: nat)
    | Crash(at: nat)

  function Move(w: World, i: nat, stores: Stores, stage: Stage): World
    requires i < |w.attempts|
  {
    w.(stores := stores, attempts := w.attempts[i := w.attempts[i].(stage := stage)])
  }

  function AfterPrepare(start: Start): Stage {
    match start
    case Proceed(latest) => Ready(latest)
    case Replay => Finished(None)
    case Stop(e) => Finished(Some(e))
  }

  function Step(k: Keyed, w: World, l: Label): World {
    if l.Begin? then w.(attempts := w.attempts + [Attempt(l.kind, l.raw, Started)])
    else if l.Expire? then w.(stores := w.stores.(operations := w.stores.operations - {l.key}))
    else if l.at >= |w.attempts| then w
    else StepAttempt(k, w, l, w.attempts[l.at])
  }

  function StepAttempt(k: Keyed, w: World, l: Label, a: Attempt): World
    requires !l.Begin? && !l.Expire? && l.at < |w.attempts| && a == w.attempts[l.at]
  {
    var i, s := l.at, w.stores;
    if l.Crash? then Move(w, i, s, Finished(Some(Unavailable)))
    else if l.PrepareStep? && a.stage.Started? then
      var (s', start) := Prepare(k, s, a.kind, a.raw);
      Move(w, i, s', AfterPrepare(start))
    else if l.WriteCas? && a.stage.Ready? then
      if CasSucceeds(s, a.stage.latest) then
        Move(w, i, Append(s, a.raw), Stored(a.stage.latest + 1)).(writers := w.writers + [i])
      else Move(w, i, s, Conflicted(a.stage.latest))
    else if l.WriteLost? && a.stage.Ready? && CasSucceeds(s, a.stage.latest) then
      Move(w, i, Append(s, a.raw), Finished(Some(Unavailable))).(writers := w.writers + [i])
    else if l.Poll? && a.stage.Conflicted? then
      Move(w, i, s, if |s.vault| <= a.stage.latest then Finished(Some(SecretStoreConflict))
                    else Polled(a.stage.latest, |s.vault|))
    else if l.ReadBack? && a.stage.Polled? && 1 <= a.stage.current <= |s.vault| then
      Move(w, i, s, if k.sum(s.vault[a.stage.current - 1]) == k.sum(a.raw) then Stored(a.stage.current)
                    else Finished(Some(IdempotencyConflict)))
    else if l.Note? && a.stage.Stored? && s.row.Some? then
      Move(w, i, RecordStored(s, a.kind, a.stage.version), Noted(a.stage.version))
    else if l.Load? && a.stage.Noted? && 1 <= a.stage.version <= |s.vault| then
      Move(w, i, s, Loaded(a.stage.version, s.vault[a.stage.version - 1]))
    else if l.Verify? && a.stage.Loaded? then
      Move(w, i, s, Verified(a.stage.version, a.stage.bytes, l.verdict))
        .(checks := w.checks + [Check(a.stage.version, a.stage.bytes, l.verdict)])
    else if l.Settle? && a.stage.Verified? && s.row.Some? then
      var (s', error) := SettleStores(k, s, a.kind, a.raw, a.stage.version, a.stage.verdict);
      Move(w, i, s', Finished(error))
        .(promotions := if a.stage.verdict == Accepted
                        then w.promotions + [Promotion(a.stage.version, k.sum(a.raw))] else w.promotions,
         settlements := if TookEffect(error) then w.settlements + [Settlement(i, a.stage.version)] else w.settlements)
    else w
  }

  function Exec(k: Keyed, w: World, run: seq<Label>): World {
    if run == [] then w else Step(k, Exec(k, w, run[..|run| - 1]), run[|run| - 1])
  }

  const EMPTY := World(Stores([], None, Pending, 1, map[], {}), [], [], [], [], [])

  // ----- the invariant -----

  /** The version exists in the vault and holds a credential with this fingerprint. */
  predicate Holds(k: Keyed, s: Stores, version: nat, fp: Fingerprint) {
    1 <= version <= |s.vault| && k.sum(s.vault[version - 1]) == fp
  }

  /** What every state of the two stores keeps. */
  predicate Consistent(k: Keyed, s: Stores) {
    && Recorded(s) <= |s.vault| <= Recorded(s) + 1
    && (s.row == None ==> s.vault == [] && s.status != InUse)
    && (s.row.Some? ==>
          var c := s.row.value;
          && (c.active > 0 ==> Holds(k, s, c.active, c.fingerprint) && c.active <= c.latest)
          && (c.state == Activated ==> c.active > 0)
          && (s.status == InUse ==> c.active > 0))
    && (forall key :: key in s.operations ==>
          && s.operations[key].expected <= s.connectionVersion
          && (s.operations[key].state == Succeeded ==> s.operations[key].expected < s.connectionVersion))
  }

  predicate AttemptOk(k: Keyed, s: Stores, checks: seq<Check>, a: Attempt) {
    match a.stage
    case Started => true
    case Ready(latest) => s.row.Some? && latest <= Recorded(s)
    case Conflicted(latest) => s.row.Some? && latest <= Recorded(s) && latest < |s.vault|
    case Polled(latest, current) => s.row.Some? && latest < current <= |s.vault|
    case Stored(v) => s.row.Some? && Holds(k, s, v, k.sum(a.raw))
    case Noted(v) => s.row.Some? && v <= Recorded(s) && Holds(k, s, v, k.sum(a.raw))
    case Loaded(v, bytes) =>
      s.row.Some? && v <= Recorded(s) && Holds(k, s, v, k.sum(a.raw)) && bytes == s.vault[v - 1]
    case Verified(v, bytes, verdict) =>
      && s.row.Some? && v <= Recorded(s) && Holds(k, s, v, k.sum(a.raw)) && bytes == s.vault[v - 1]
      && Check(v, bytes, verdict) in checks
    case Finished(error) => error != Some(SecretStoreConflict)
  }

  /** An attempt at one of these stages has written nothing yet. */
  predicate Unwritten(stage: Stage) {
    stage.Started? || stage.Ready? || stage.Conflicted? || stage.Polled?
  }

  predicate WritersOk(w: World) {
    && |w.writers| == |w.stores.vault|
    && (forall v | 0 <= v < |w.writers| ::
          && w.writers[v] < |w.attempts|
          && !Unwritten(w.attempts[w.writers[v]].stage)
          && w.stores.vault[v] == w.attempts[w.writers[v]].raw)
    && (forall u, v | 0 <= u < v < |w.writers| :: w.writers[u] != w.writers[v])
  }

  predicate LogsOk(k: Keyed, w: World) {
    && (forall c :: c in w.checks ==> 1 <= c.version <= |w.stores.vault| && c.bytes == w.stores.vault[c.version - 1])
    && (forall p :: p in w.promotions ==>
          && Holds(k, w.stores, p.version, p.fingerprint)
          && Check(p.version, w.stores.vault[p.version - 1], Accepted) in w.checks)
  }

  predicate AttemptsOk(k: Keyed, w: World) {
    forall i | 0 <= i < |w.attempts| :: AttemptOk(k, w.stores, w.checks, w.attempts[i])
  }

  predicate Inv(k: Keyed, w: World) {
    Consistent(k, w.stores) && AttemptsOk(k, w) && WritersOk(w) && LogsOk(k, w)
  }

  /** What one attempt may rely on about everybody else's steps. */
  predicate Grows(s: Stores, s': Stores) {
    && s.vault <= s'.vault
    && Recorded(s) <= Recorded(s')
    && (s.row.Some? ==> s'.row.Some?)
  }

  lemma AttemptStable(k: Keyed, s: Stores, s': Stores, checks: seq<Check>, checks': seq<Check>, a: Attempt)
    requires AttemptOk(k, s, checks, a) && Grows(s, s')
    requires forall c :: c in checks ==> c in checks'
    ensures AttemptOk(k, s', checks', a)
  {
    assert forall v | 0 <= v < |s.vault| :: s'.vault[v] == s.vault[v];
  }

  lemma PrepareKeeps(k: Keyed, s: Stores, kind: Kind, raw: Secret)
    requires Consistent(k, s)
    ensures var (s', start) := Prepare(k, s, kind, raw);
            && Consistent(k, s') && Grows(s, s') && s'.vault == s.vault
            && (start.Proceed? ==> s'.row.Some? && start.latest == Recorded(s'))
            && start != Stop(SecretStoreConflict)
            && Recorded(s') == Recorded(s)
  {
  }

  lemma AppendKeeps(k: Keyed, s: Stores, raw: Secret)
    requires Consistent(k, s) && s.row.Some? && |s.vault| <= Recorded(s)
    ensures Consistent(k, Append(s, raw)) && Grows(s, Append(s, raw))
    ensures Holds(k, Append(s, raw), |s.vault| + 1, k.sum(raw))
  {
  }

  lemma RecordKeeps(k: Keyed, s: Stores, kind: Kind, version: nat)
    requires Consistent(k, s) && s.row.Some? && 1 <= version <= |s.vault|
    ensures var s' := RecordStored(s, kind, version);
            Consistent(k, s') && Grows(s, s') && s'.vault == s.vault && version <= Recorded(s')
  {
  }

  lemma SettleKeeps(k: Keyed, s: Stores, kind: Kind, raw: Secret, version: nat, verdict: Verdict)
    requires Consistent(k, s) && s.row.Some? && version <= Recorded(s) && Holds(k, s, version, k.sum(raw))
    ensures var s' := SettleStores(k, s, kind, raw, version, verdict).0;
            Consistent(k, s') && Grows(s, s') && s'.vault == s.vault
  {
  }

  /** The port call behind one step of an attempt: at most one store operation. */
  predicate PortCall(k: Keyed, s: Stores, s': Stores, a: Attempt) {
    || s' == s
    || (a.stage.Started? && s' == Prepare(k, s, a.kind, a.raw).0)
    || (a.stage.Ready? && CasSucceeds(s, a.stage.latest) && s' == Append(s, a.raw))
    || (a.stage.Stored? && s.row.Some? && s' == RecordStored(s, a.kind, a.stage.version))
    || (a.stage.Verified? && s.row.Some?
        && s' == SettleStores(k, s, a.kind, a.raw, a.stage.version, a.stage.verdict).0)
  }

  lemma StepIsPortCall(k: Keyed, w: World, l: Label)
    requires !l.Begin? && !l.Expire? && l.at < |w.attempts|
    ensures PortCall(k, w.stores, Step(k, w, l).stores, w.attempts[l.at])
  {
  }

  lemma PortCallKeeps(k: Keyed, s: Stores, s': Stores, checks: seq<Check>, a: Attempt)
    requires Consistent(k, s) && AttemptOk(k, s, checks, a) && PortCall(k, s, s', a)
    ensures Consistent(k, s') && Grows(s, s')
    ensures a.stage.Ready? || s'.vault == s.vault
  {
    if s' != s {
      match a.stage
      case Started => PrepareKeeps(k, s, a.kind, a.raw);
      case Ready(latest) => AppendKeeps(k, s, a.raw);
      case Stored(v) => RecordKeeps(k, s, a.kind, v);
      case Verified(v, _, verdict) => SettleKeeps(k, s, a.kind, a.raw, v, verdict);
    }
  }

  /** Each step of each attempt keeps the stores consistent and only lets them grow. */
  lemma StepKeepsStores(k: Keyed, w: World, l: Label)
    requires Inv(k, w)
    ensures Consistent(k, Step(k, w, l).stores) && Grows(w.stores, Step(k, w, l).stores)
  {
    if !l.Begin? && !l.Expire? && l.at < |w.attempts| {
      StepIsPortCall(k, w, l);
      PortCallKeeps(k, w.stores, Step(k, w, l).stores, w.checks, w.attempts[l.at]);
    }
  }

  /** The stepping attempt lands in a stage that its claims support. */
  lemma StepMovesWell(k: Keyed, w: World, l: Label)
    requires Inv(k, w) && !l.Begin? && !l.Expire? && l.at < |w.attempts|
    ensures var w' := Step(k, w, l); AttemptOk(k, w'.stores, w'.checks, w'.attempts[l.at])
  {
    assert AttemptOk(k, w.stores, w.checks, w.attempts[l.at]);
    if Unwritten(w.attempts[l.at].stage) {
      EarlyStepMovesWell(k, w, l);
    } else {
      LateStepMovesWell(k, w, l);
    }
  }

  lemma EarlyStepMovesWell(k: Keyed, w: World, l: Label)
    requires Consistent(k, w.stores) && !l.Begin? && !l.Expire? && l.at < |w.attempts|
    requires AttemptOk(k, w.stores, w.checks, w.attempts[l.at]) && Unwritten(w.attempts[l.at].stage)
    ensures var w' := Step(k, w, l); AttemptOk(k, w'.stores, w'.checks, w'.attempts[l.at])
  {
    var a := w.attempts[l.at];
    if l.PrepareStep? && a.stage.Started? {
      PrepareMovesWell(k, w, l);
    } else if !a.stage.Started? {
      WriteMovesWell(k, w, l);
    }
  }

  lemma PrepareMovesWell(k: Keyed, w: World, l: Label)
    requires Consistent(k, w.stores) && l.PrepareStep? && l.at < |w.attempts| && w.attempts[l.at].stage.Started?
    ensures var w' := Step(k, w, l); AttemptOk(k, w'.stores, w'.checks, w'.attempts[l.at])
  {
    var a := w.attempts[l.at];
    PrepareKeeps(k, w.stores, a.kind, a.raw);
    var (s', start) := Prepare(k, w.stores, a.kind, a.raw);
    assert Step(k, w, l) == Move(w, l.at, s', AfterPrepare(start));
  }

  lemma WriteMovesWell(k: Keyed, w: World, l: Label)
    requires Consistent(k, w.stores) && !l.Begin? && !l.Expire? && l.at < |w.attempts|
    requires AttemptOk(k, w.stores, w.checks, w.attempts[l.at])
    requires Unwritten(w.attempts[l.at].stage) && !w.attempts[l.at].stage.Started?
    ensures var w' := Step(k, w, l); AttemptOk(k, w'.stores, w'.checks, w'.attempts[l.at])
  {
    if w.attempts[l.at].stage.Ready? {
      ReadyMovesWell(k, w, l);
    } else {
      RecoveryMovesWell(k, w, l);
    }
  }

  lemma ReadyMovesWell(k: Keyed, w: World, l: Label)
    requires Consistent(k, w.stores) && !l.Begin? && !l.Expire? && l.at < |w.attempts|
    requires AttemptOk(k, w.stores, w.checks, w.attempts[l.at]) && w.attempts[l.at].stage.Ready?
    ensures var w' := Step(k, w, l); AttemptOk(k, w'.stores, w'.checks, w'.attempts[l.at])
  {
    var a := w.attempts[l.at];
    if CasSucceeds(w.stores, a.stage.latest) {
      AppendKeeps(k, w.stores, a.raw);
    }
  }

  lemma RecoveryMovesWell(k: Keyed, w: World, l: Label)
    requires Consistent(k, w.stores) && !l.Begin? && !l.Expire? && l.at < |w.attempts|
    requires AttemptOk(k, w.stores, w.checks, w.attempts[l.at])
    requires w.attempts[l.at].stage.Conflicted? || w.attempts[l.at].stage.Polled?
    ensures var w' := Step(k, w, l); AttemptOk(k, w'.stores, w'.checks, w'.attempts[l.at])
  {
  }

  lemma LateStepMovesWell(k: Keyed, w: World, l: Label)
    requires Consistent(k, w.stores) && !l.Begin? && !l.Expire? && l.at < |w.attempts|
    requires AttemptOk(k, w.stores, w.checks, w.attempts[l.at]) && !Unwritten(w.attempts[l.at].stage)
    ensures var w' := Step(k, w, l); AttemptOk(k, w'.stores, w'.checks, w'.attempts[l.at])
  {
    var a := w.attempts[l.at];
    if l.Note? && a.stage.Stored? {
      RecordKeeps(k, w.stores, a.kind, a.stage.version);
    }
  }

  /** Attempts other than the i-th are as they were, and the stores only grew. */
  predicate Carries(w: World, w': World, i: nat) {
    && i < |w'.attempts|
    && (|w'.attempts| == |w.attempts| || (|w'.attempts| == |w.attempts| + 1 && i == |w.attempts|))
    && (forall j | 0 <= j < |w.attempts| && j != i :: w'.attempts[j] == w.attempts[j])
    && Grows(w.stores, w'.stores)
    && (forall c :: c in w.checks ==> c in w'.checks)
  }

  lemma AttemptsCarry(k: Keyed, w: World, w': World, i: nat)
    requires AttemptsOk(k, w) && Carries(w, w', i) && AttemptOk(k, w'.stores, w'.checks, w'.attempts[i])
    ensures AttemptsOk(k, w')
  {
    forall j | 0 <= j < |w'.attempts| ensures AttemptOk(k, w'.stores, w'.checks, w'.attempts[j]) {
      if j != i {
        AttemptStable(k, w.stores, w'.stores, w.checks, w'.checks, w.attempts[j]);
      }
    }
  }

  /** What one attempt's step does to the world around it. */
  predicate Shaped(w: World, w': World, i: nat)
    requires i < |w.attempts|
  {
    && |w'.attempts| == |w.attempts|
    && (forall j | 0 <= j < |w.attempts| && j != i :: w'.attempts[j] == w.attempts[j])
    && w'.attempts[i].raw == w.attempts[i].raw
    && (Unwritten(w'.attempts[i].stage) ==> Unwritten(w.attempts[i].stage))
    && (|| (w'.writers == w.writers && w'.stores.vault == w.stores.vault)
        || (Unwritten(w.attempts[i].stage) && !Unwritten(w'.attempts[i].stage)
            && w'.writers == w.writers + [i] && w'.stores.vault == w.stores.vault + [w.attempts[i].raw]))
    && w.checks <= w'.checks
  }

  lemma PrepareShape(k: Keyed, w: World, i: nat)
    requires Inv(k, w) && i < |w.attempts|
    ensures Shaped(w, Step(k, w, PrepareStep(i)), i)
  {
    PrepareKeeps(k, w.stores, w.attempts[i].kind, w.attempts[i].raw);
  }

  lemma SettleShape(k: Keyed, w: World, i: nat)
    requires Inv(k, w) && i < |w.attempts|
    ensures Shaped(w, Step(k, w, Settle(i)), i)
  {
    var a := w.attempts[i];
    assert AttemptOk(k, w.stores, w.checks, a);
    if a.stage.Verified? {
      SettleKeeps(k, w.stores, a.kind, a.raw, a.stage.version, a.stage.verdict);
    }
  }

  lemma OtherShape(k: Keyed, w: World, l: Label)
    requires !l.Begin? && !l.Expire? && !l.PrepareStep? && !l.Settle? && l.at < |w.attempts|
    ensures Shaped(w, Step(k, w, l), l.at)
  {
  }

  lemma StepShape(k: Keyed, w: World, l: Label)
    requires Inv(k, w) && !l.Begin? && !l.Expire? && l.at < |w.attempts|
    ensures Shaped(w, Step(k, w, l), l.at)
  {
    match l
    case PrepareStep(i) => PrepareShape(k, w, i);
    case Settle(i) => SettleShape(k, w, i);
    case _ => OtherShape(k, w, l);
  }

  lemma WritersCarry(w: World, w': World, i: nat)
    requires WritersOk(w) && i < |w.attempts| && Shaped(w, w', i)
    ensures WritersOk(w') && w.writers <= w'.writers
  {
  }

  lemma ChecksCarry(k: Keyed, w: World, w': World)
    requires LogsOk(k, w) && Grows(w.stores, w'.stores) && w.checks <= w'.checks
    ensures forall c :: c in w.checks ==>
              1 <= c.version <= |w'.stores.vault| && c.bytes == w'.stores.vault[c.version - 1] && c in w'.checks
    ensures forall p :: p in w.promotions ==>
              && Holds(k, w'.stores, p.version, p.fingerprint)
              && Check(p.version, w'.stores.vault[p.version - 1], Accepted) in w'.checks
  {
  }

  /** The log of checks only gains what the stepping attempt's claims support. */
  lemma ChecksGain(k: Keyed, w: World, l: Label)
    requires Inv(k, w) && !l.Begin? && !l.Expire? && l.at < |w.attempts|
    ensures forall c :: c in Step(k, w, l).checks && c !in w.checks ==>
              1 <= c.version <= |w.stores.vault| && c.bytes == w.stores.vault[c.version - 1]
  {
    assert AttemptOk(k, w.stores, w.checks, w.attempts[l.at]);
  }

  /** So does the log of promotions. */
  lemma PromotionsGain(k: Keyed, w: World, l: Label)
    requires Inv(k, w) && !l.Begin? && !l.Expire? && l.at < |w.attempts|
    ensures forall p :: p in Step(k, w, l).promotions && p !in w.promotions ==>
              && Holds(k, w.stores, p.version, p.fingerprint)
              && Check(p.version, w.stores.vault[p.version - 1], Accepted) in w.checks
  {
    assert AttemptOk(k, w.stores, w.checks, w.attempts[l.at]);
  }

  lemma ActKeepsInv(k: Keyed, w: World, l: Label)
    requires Inv(k, w) && !l.Begin? && !l.Expire? && l.at < |w.attempts|
    ensures Inv(k, Step(k, w, l)) && Grows(w.stores, Step(k, w, l).stores)
    ensures w.writers <= Step(k, w, l).writers
  {
    StepKeepsStores(k, w, l);
    StepShape(k, w, l);
    StepMovesWell(k, w, l);
    ChecksGain(k, w, l);
    PromotionsGain(k, w, l);
    InvCarries(k, w, Step(k, w, l), l.at);
  }

  /** The invariant carries over to any world related to it the way a step's result is. */
  lemma InvCarries(k: Keyed, w: World, w': World, i: nat)
    requires Inv(k, w) && i < |w.attempts| && Shaped(w, w', i)
    requires Consistent(k, w'.stores) && Grows(w.stores, w'.stores)
    requires AttemptOk(k, w'.stores, w'.checks, w'.attempts[i])
    requires forall c :: c in w'.checks && c !in w.checks ==>
               1 <= c.version <= |w.stores.vault| && c.bytes == w.stores.vault[c.version - 1]
    requires forall p :: p in w'.promotions && p !in w.promotions ==>
               && Holds(k, w.stores, p.version, p.fingerprint)
               && Check(p.version, w.stores.vault[p.version - 1], Accepted) in w.checks
    ensures Inv(k, w') && w.writers <= w'.writers
  {
    AttemptsCarry(k, w, w', i);
    WritersCarry(w, w', i);
    ChecksCarry(k, w, w');
  }

  lemma BeginKeepsInv(k: Keyed, w: World, kind: Kind, raw: Secret)
    requires Inv(k, w)
    ensures Inv(k, Step(k, w, Begin(kind, raw)))
  {
    AttemptsCarry(k, w, Step(k, w, Begin(kind, raw)), |w.attempts|);
  }

  lemma ExpireKeepsInv(k: Keyed, w: World, key: string)
    requires Inv(k, w)
    ensures Inv(k, Step(k, w, Expire(key))) && Grows(w.stores, Step(k, w, Expire(key)).stores)
  {
    var w' := Step(k, w, Expire(key));
    forall j | 0 <= j < |w'.attempts| ensures AttemptOk(k, w'.stores, w'.checks, w'.attempts[j]) {
      AttemptStable(k, w.stores, w'.stores, w.checks, w'.checks, w.attempts[j]);
    }
  }

  lemma StepKeepsInv(k: Keyed, w: World, l: Label)
    requires Inv(k, w)
    ensures Inv(k, Step(k, w, l)) && Grows(w.stores, Step(k, w, l).stores)
    ensures w.writers <= Step(k, w, l).writers
  {
    match l
    case Begin(kind, raw) => BeginKeepsInv(k, w, kind, raw);
    case Expire(key) => ExpireKeepsInv(k, w, key);
    case _ =>
      if l.at < |w.attempts| {
        ActKeepsInv(k, w, l);
      }
  }

  lemma {:induction false} RunKeepsInv(k: Keyed, w: World, run: seq<Label>)
    requires Inv(k, w)
    ensures Inv(k, Exec(k, w, run)) && Grows(w.stores, Exec(k, w, run).stores)
    ensures w.writers <= Exec(k, w, run).writers
  {
    if run != [] {
      RunKeepsInv(k, w, run[..|run| - 1]);
      StepKeepsInv(k, Exec(k, w, run[..|run| - 1]), run[|run| - 1]);
    }
  }

  /** The steps that are nobody's progress: a new attempt, an expiry, a crash, a lost reply. */
  lemma FaultSteps(k: Keyed, w: World, i: nat, key: string, kind: Kind, raw: Secret)
    requires i < |w.attempts|
    ensures var a := w.attempts[i];
            && Step(k, w, Begin(kind, raw)) == w.(attempts := w.attempts + [Attempt(kind, raw, Started)])
            && Step(k, w, Expire(key)) == w.(stores := w.stores.(operations := w.stores.operations - {key}))
            && Step(k, w, Crash(i)) ==
                 w.(attempts := w.attempts[i := Attempt(a.kind, a.raw, Finished(Some(Unavailable)))])
            && (a.stage.Ready? && |w.stores.vault| == a.stage.latest ==>
                  Step(k, w, WriteLost(i)) ==
                    w.(stores := w.stores.(vault := w.stores.vault + [a.raw]), writers := w.writers + [i],
                       attempts := w.attempts[i := Attempt(a.kind, a.raw, Finished(Some(Unavailable)))]))
  {
  }

  // ----- what every reachable state satisfies -----

  /**
   In every interleaving of attempts, crashes, lost replies and retries: what the
   provider was asked to verify is exactly what the vault holds; every version handed
   to activation or completion holds a credential with the fingerprint it was handed
   with, and the provider accepted it; so does the version in use; at most one vault
   version is unrecorded; and no attempt ever writes two versions.
   */
  lemma ReachableStatesAreSafe(k: Keyed, run: seq<Label>)
    ensures var w := Exec(k, EMPTY, run);
            && (forall c :: c in w.checks ==>
                  1 <= c.version <= |w.stores.vault| && c.bytes == w.stores.vault[c.version - 1])
            && (forall p :: p in w.promotions ==>
                  && Holds(k, w.stores, p.version, p.fingerprint)
                  && Check(p.version, w.stores.vault[p.version - 1], Accepted) in w.checks)
            && (w.stores.status == InUse ==>
                  && w.stores.row.Some?
                  && Holds(k, w.stores, w.stores.row.value.active, w.stores.row.value.fingerprint))
            && Recorded(w.stores) <= |w.stores.vault| <= Recorded(w.stores) + 1
            && |w.writers| == |w.stores.vault|
            && (forall u, v | 0 <= u < v < |w.writers| :: w.writers[u] != w.writers[v])
  {
    RunKeepsInv(k, EMPTY, run);
  }

  /** The error for a version that did not advance is never returned. */
  lemma StoreConflictNeverSurfaces(k: Keyed, run: seq<Label>, i: nat)
    requires i < |Exec(k, EMPTY, run).attempts|
    ensures Exec(k, EMPTY, run).attempts[i].stage != Finished(Some(SecretStoreConflict))
  {
    RunKeepsInv(k, EMPTY, run);
    var w := Exec(k, EMPTY, run);
    assert AttemptOk(k, w.stores, w.checks, w.attempts[i]);
  }

  /**
   A finished rotation is never replayed: completing it moves the connection version
   past the one its retry must present, so the retry is told VersionConflict.
   */
  lemma RotationNeverReplays(k: Keyed, run: seq<Label>, key: string, expected: nat, raw: Secret)
    ensures var s := Exec(k, EMPTY, run).stores;
            && Prepare(k, s, Rotate(key, expected), raw).1 != Replay
            && (key in s.operations && s.operations[key].state == Succeeded
                && s.operations[key].expected == expected && s.operations[key].display == k.display(k.sum(raw))
                && s.status != Pending ==>
                  Prepare(k, s, Rotate(key, expected), raw).1 == Stop(VersionConflict))
  {
    RunKeepsInv(k, EMPTY, run);
  }

  /** A rejected rotation leaves the credential in use alone and stays rejected on retry. */
  lemma RejectedRotationStaysRejected(k: Keyed, s: Stores, key: string, expected: nat, raw: Secret, version: nat)
    requires s.row.Some? && key in s.operations && s.status != Pending && s.connectionVersion == expected
    requires s.operations[key].expected == expected && s.operations[key].display == k.display(k.sum(raw))
    ensures var (s', error) := SettleStores(k, s, Rotate(key, expected), raw, version, Refused);
            && error == Some(CredentialRejected)
            && s'.row == s.row && s'.status == s.status && s'.vault == s.vault
            && s'.connectionVersion == s.connectionVersion
            && Prepare(k, s', Rotate(key, expected), raw) == (s', Stop(CredentialRejected))
  {
  }

  /**
   A settled creation answers its retries without another step: replayed once active,
   rejected once refused, and a different key under the same connection conflicts.
   */
  lemma SettledCreationAnswersRetries(k: Keyed, s: Stores, raw: Secret, version: nat, verdict: Verdict, other: Secret)
    requires s.row.Some? && s.row.value.fingerprint == k.sum(raw) && s.status != InUse && verdict != Unreachable
    ensures var s' := SettleStores(k, s, Create, raw, version, verdict).0;
            && Prepare(k, s', Create, raw) == (s', if verdict == Accepted then Replay else Stop(CredentialRejected))
            && (k.sum(other) != k.sum(raw) ==> Prepare(k, s', Create, other) == (s', Stop(IdempotencyConflict)))
  {
  }

  // ----- stale snapshots -----

  /** The attempt has taken a snapshot that no compare-and-set will match any more. */
  predicate Stale(w: World, i: nat) {
    && i < |w.attempts|
    && !w.attempts[i].stage.Started?
    && (w.attempts[i].stage.Ready? ==> w.attempts[i].stage.latest < |w.stores.vault|)
  }

  lemma StaleStep(k: Keyed, w: World, l: Label, i: nat)
    requires Inv(k, w) && Stale(w, i)
    ensures Stale(Step(k, w, l), i)
    ensures i in Step(k, w, l).writers ==> i in w.writers
  {
    StepKeepsStores(k, w, l);
    if !l.Begin? && !l.Expire? && l.at < |w.attempts| {
      StepShape(k, w, l);
      if l.at == i {
        assert !Step(k, w, l).attempts[i].stage.Ready? || Step(k, w, l) == w;
      }
    }
  }

  /** From then on it writes nothing, whatever it and everybody else do. */
  lemma {:induction false} StaleSnapshotNeverWrites(k: Keyed, w: World, run: seq<Label>, i: nat)
    requires Inv(k, w) && Stale(w, i)
    ensures Stale(Exec(k, w, run), i)
    ensures i in Exec(k, w, run).writers ==> i in w.writers
  {
    if run != [] {
      var init := run[..|run| - 1];
      StaleSnapshotNeverWrites(k, w, init, i);
      RunKeepsInv(k, w, init);
      StaleStep(k, Exec(k, w, init), run[|run| - 1], i);
    }
  }

  // ----- recovery -----

  /** The last two transactions back to back. */
  function RecordAndSettle(k: Keyed, s: Stores, kind: Kind, raw: Secret, version: nat, verdict: Verdict)
    : (Stores, Option<Error>)
    requires s.row.Some?
  {
    SettleStores(k, RecordStored(s, kind, version), kind, raw, version, verdict)
  }

  /** The recoverable write: a new version, the same credential's unrecorded one, or a conflict. */
  function Written(k: Keyed, s: Stores, raw: Secret): (Stores, Result<nat, Error>) {
    var n := |s.vault|;
    if n == Recorded(s) then (Append(s, raw), Ok(n + 1))
    else if n > 0 && k.sum(s.vault[n - 1]) == k.sum(raw) then (s, Ok(n))
    else (s, Err(IdempotencyConflict))
  }

  /** Everything after the preparing call. */
  function WriteAndSettle(k: Keyed, s: Stores, kind: Kind, raw: Secret, verdict: Verdict): (Stores, Option<Error>)
    requires s.row.Some?
  {
    match Written(k, s, raw)
    case (s', Ok(version)) => RecordAndSettle(k, s', kind, raw, version, verdict)
    case (s', Err(e)) => (s', Some(e))
  }

  /** One attempt from start to end with nobody else acting. */
  function Uninterrupted(k: Keyed, s: Stores, kind: Kind, raw: Secret, verdict: Verdict): (Stores, Option<Error>)
    requires Consistent(k, s)
  {
    PrepareKeeps(k, s, kind, raw);
    match Prepare(k, s, kind, raw)
    case (s', Stop(e)) => (s', Some(e))
    case (s', Replay) => (s', None)
    case (s', Proceed(latest)) => WriteAndSettle(k, s', kind, raw, verdict)
  }

  /** The attempt has answered, leaving these stores. */
  predicate Ended(w: World, i: nat, end: (Stores, Option<Error>)) {
    w.stores == end.0 && i < |w.attempts| && w.attempts[i].stage == Finished(end.1)
  }

  lemma ExecOne(k: Keyed, w: World, run: seq<Label>, l: Label)
    ensures Exec(k, w, run + [l]) == Step(k, Exec(k, w, run), l)
  {
    assert (run + [l])[..|run|] == run;
  }

  lemma {:induction false} ExecAppend(k: Keyed, w: World, a: seq<Label>, b: seq<Label>)
    ensures Exec(k, w, a + b) == Exec(k, Exec(k, w, a), b)
  {
    if b == [] {
      assert a + b == a;
    } else {
      assert (a + b)[..|a + b| - 1] == a + b[..|b| - 1];
      ExecAppend(k, w, a, b[..|b| - 1]);
    }
  }

  /** The three steps of the recoverable write, uninterrupted. */
  function WriteRun(i: nat): seq<Label> {
    [WriteCas(i)] + [Poll(i)] + [ReadBack(i)]
  }

  /**
   With an unrecorded version in the vault, a retry from the recorded snapshot reuses
   it exactly if its credential has the same fingerprint, and otherwise gets
   IdempotencyConflict; either way nothing is written.
   */
  lemma RetryReusesExactlyItsOwn(k: Keyed, w: World, i: nat)
    requires Inv(k, w) && i < |w.attempts|
    requires |w.stores.vault| == Recorded(w.stores) + 1 && w.attempts[i].stage == Ready(Recorded(w.stores))
    ensures var w' := Exec(k, w, WriteRun(i));
            var n := |w.stores.vault|;
            && w'.stores == w.stores
            && i < |w'.attempts|
            && w'.attempts[i].stage ==
                 if k.sum(w.stores.vault[n - 1]) == k.sum(w.attempts[i].raw) then Stored(n)
                 else Finished(Some(IdempotencyConflict))
  {
    WriteRunUnfolds(k, w, i);
  }

  lemma WriteRunUnfolds(k: Keyed, w: World, i: nat)
    ensures Exec(k, w, WriteRun(i)) == Step(k, Step(k, Step(k, w, WriteCas(i)), Poll(i)), ReadBack(i))
  {
    ExecOne(k, w, [WriteCas(i)] + [Poll(i)], ReadBack(i));
    ExecOne(k, w, [WriteCas(i)], Poll(i));
    ExecOne(k, w, [], WriteCas(i));
    assert [] + [WriteCas(i)] == [WriteCas(i)];
  }

  /** No unrecorded version: the same three steps store the credential as the next one. */
  lemma CleanWriteStoresNext(k: Keyed, w: World, i: nat)
    requires Inv(k, w) && i < |w.attempts|
    requires |w.stores.vault| == Recorded(w.stores) && w.attempts[i].stage == Ready(Recorded(w.stores))
    ensures var w' := Exec(k, w, WriteRun(i));
            && w'.stores == Append(w.stores, w.attempts[i].raw)
            && i < |w'.attempts|
            && w'.attempts[i].stage == Stored(|w.stores.vault| + 1)
  {
    WriteRunUnfolds(k, w, i);
  }

  /** The steps after the write, uninterrupted. */
  function FinishRun(i: nat, verdict: Verdict): seq<Label> {
    [Note(i)] + [Load(i)] + [Verify(i, verdict)] + [Settle(i)]
  }

  /** The steps after the write make its two closing transactions. */
  lemma FinishRunSettles(k: Keyed, w: World, i: nat, verdict: Verdict)
    requires Inv(k, w) && i < |w.attempts| && w.attempts[i].stage.Stored? && w.stores.row.Some?
    ensures var a := w.attempts[i];
            Ended(Exec(k, w, FinishRun(i, verdict)), i,
                  RecordAndSettle(k, w.stores, a.kind, a.raw, a.stage.version, verdict))
  {
    FinishRunUnfolds(k, w, i, verdict);
    var a := w.attempts[i];
    assert AttemptOk(k, w.stores, w.checks, a);
    RecordKeeps(k, w.stores, a.kind, a.stage.version);
    var s1 := RecordStored(w.stores, a.kind, a.stage.version);
    var w1 := Step(k, w, Note(i));
    assert w1.stores == s1 && i < |w1.attempts| && w1.attempts[i] == Attempt(a.kind, a.raw, Noted(a.stage.version));
    NotedSettles(k, w1, i, verdict);
  }

  lemma FinishRunUnfolds(k: Keyed, w: World, i: nat, verdict: Verdict)
    ensures Exec(k, w, FinishRun(i, verdict))
         == Step(k, Step(k, Step(k, Step(k, w, Note(i)), Load(i)), Verify(i, verdict)), Settle(i))
  {
    ExecOne(k, w, [], Note(i));
    assert [] + [Note(i)] == [Note(i)];
    ExecOne(k, w, [Note(i)], Load(i));
    ExecOne(k, w, [Note(i)] + [Load(i)], Verify(i, verdict));
    ExecOne(k, w, [Note(i)] + [Load(i)] + [Verify(i, verdict)], Settle(i));
  }

  lemma NotedSettles(k: Keyed, w: World, i: nat, verdict: Verdict)
    requires i < |w.attempts| && w.stores.row.Some?
    requires w.attempts[i].stage.Noted? && 1 <= w.attempts[i].stage.version <= |w.stores.vault|
    ensures var w', a := Step(k, Step(k, Step(k, w, Load(i)), Verify(i, verdict)), Settle(i)), w.attempts[i];
            Ended(w', i, SettleStores(k, w.stores, a.kind, a.raw, a.stage.version, verdict))
  {
    var a := w.attempts[i];
    var bytes := w.stores.vault[a.stage.version - 1];
    var w1 := Step(k, w, Load(i));
    assert w1.stores == w.stores && w1.attempts[i] == Attempt(a.kind, a.raw, Loaded(a.stage.version, bytes));
    var w2 := Step(k, w1, Verify(i, verdict));
    assert w2.stores == w.stores && w2.attempts[i] == Attempt(a.kind, a.raw, Verified(a.stage.version, bytes, verdict));
  }

  /**
   An attempt whose steps run with nobody in between is the serial attempt: the same
   stores and the same answer, with every step the answer makes superfluous skipped.
   */
  lemma SerialRunIsUninterrupted(k: Keyed, w: World, i: nat, verdict: Verdict)
    requires Inv(k, w) && i < |w.attempts| && w.attempts[i].stage.Started?
    ensures var run, a := [PrepareStep(i)] + (WriteRun(i) + FinishRun(i, verdict)), w.attempts[i];
            Ended(Exec(k, w, run), i, Uninterrupted(k, w.stores, a.kind, a.raw, verdict))
  {
    var a, rest := w.attempts[i], WriteRun(i) + FinishRun(i, verdict);
    var w1 := Step(k, w, PrepareStep(i));
    StepKeepsInv(k, w, PrepareStep(i));
    ExecOne(k, w, [], PrepareStep(i));
    assert [] + [PrepareStep(i)] == [PrepareStep(i)];
    ExecAppend(k, w, [PrepareStep(i)], rest);
    PrepareKeeps(k, w.stores, a.kind, a.raw);
    PreparedStage(k, w, i);
    PreparedRunsToEnd(k, w1, i, verdict, Prepare(k, w.stores, a.kind, a.raw).1);
  }

  lemma PreparedRunsToEnd(k: Keyed, w: World, i: nat, verdict: Verdict, start: Start)
    requires Inv(k, w) && i < |w.attempts| && w.attempts[i].stage == AfterPrepare(start)
    requires start.Proceed? ==> start.latest == Recorded(w.stores) && w.stores.row.Some?
    ensures var a := w.attempts[i];
            Ended(Exec(k, w, WriteRun(i) + FinishRun(i, verdict)), i,
                  match start
                  case Stop(e) => (w.stores, Some(e))
                  case Replay => (w.stores, None)
                  case Proceed(_) => WriteAndSettle(k, w.stores, a.kind, a.raw, verdict))
  {
    if start.Proceed? {
      ReadyRunsToEnd(k, w, i, verdict);
    } else {
      OwnLabels(i, verdict);
      FinishedStays(k, w, WriteRun(i) + FinishRun(i, verdict), i);
    }
  }

  lemma OwnLabels(i: nat, verdict: Verdict)
    ensures forall l :: l in WriteRun(i) + FinishRun(i, verdict) ==> OwnStep(l, i)
    ensures forall l :: l in FinishRun(i, verdict) ==> OwnStep(l, i)
  {
  }

  predicate OwnStep(l: Label, i: nat) {
    !l.Begin? && !l.Expire? && !l.Crash? && l.at == i
  }

  lemma PreparedStage(k: Keyed, w: World, i: nat)
    requires i < |w.attempts| && w.attempts[i].stage.Started?
    ensures var w', a := Step(k, w, PrepareStep(i)), w.attempts[i];
            var (s', start) := Prepare(k, w.stores, a.kind, a.raw);
            w'.stores == s' && i < |w'.attempts| && w'.attempts[i] == Attempt(a.kind, a.raw, AfterPrepare(start))
  {
  }

  /** The recoverable write's three steps. */
  lemma WriteRunWrites(k: Keyed, w: World, i: nat)
    requires Inv(k, w) && i < |w.attempts| && w.attempts[i].stage == Ready(Recorded(w.stores))
    ensures var w', a := Exec(k, w, WriteRun(i)), w.attempts[i];
            var (s', r) := Written(k, w.stores, a.raw);
            && w'.stores == s' && i < |w'.attempts|
            && w'.attempts[i].stage == if r.Ok? then Stored(r.value) else Finished(Some(r.error))
  {
    if |w.stores.vault| == Recorded(w.stores) {
      CleanWriteStoresNext(k, w, i);
    } else {
      RetryReusesExactlyItsOwn(k, w, i);
    }
  }

  /** From a fresh snapshot on. */
  lemma ReadyRunsToEnd(k: Keyed, w: World, i: nat, verdict: Verdict)
    requires Inv(k, w) && i < |w.attempts| && w.attempts[i].stage == Ready(Recorded(w.stores)) && w.stores.row.Some?
    ensures var a := w.attempts[i];
            Ended(Exec(k, w, WriteRun(i) + FinishRun(i, verdict)), i,
                  WriteAndSettle(k, w.stores, a.kind, a.raw, verdict))
  {
    ExecAppend(k, w, WriteRun(i), FinishRun(i, verdict));
    RunKeepsInv(k, w, WriteRun(i));
    KindAndRawStay(k, w, WriteRun(i), i);
    WriteRunWrites(k, w, i);
    var w1 := Exec(k, w, WriteRun(i));
    if w1.attempts[i].stage.Stored? {
      FinishRunSettles(k, w1, i, verdict);
    } else {
      OwnLabels(i, verdict);
      FinishedStays(k, w1, FinishRun(i, verdict), i);
    }
  }

  /**
   A retry that has its snapshot and runs alone, against an accepting provider, ends
   with its credential in use if and only if nothing is unrecorded or the unrecorded
   version carries its own fingerprint. It adds a version only in the first case.
   */
  lemma SoloRetrySucceedsExactly(k: Keyed, w: World, i: nat)
    requires Inv(k, w) && i < |w.attempts| && w.attempts[i].stage == Ready(Recorded(w.stores))
    requires w.attempts[i].kind.Create? ==> w.stores.status != InUse
    ensures var w' := Exec(k, w, WriteRun(i) + FinishRun(i, Accepted));
            var n, fp := |w.stores.vault|, k.sum(w.attempts[i].raw);
            && i < |w'.attempts|
            && (w'.attempts[i].stage == Finished(None) <==>
                  n == Recorded(w.stores) || k.sum(w.stores.vault[n - 1]) == fp)
            && (w'.attempts[i].stage == Finished(None) ==>
                  && w'.stores.status == InUse && w'.stores.row.Some?
                  && w'.stores.row.value.fingerprint == fp
                  && w'.stores.row.value.active == |w'.stores.vault|
                  && |w'.stores.vault| == if n == Recorded(w.stores) then n + 1 else n)
            && (w'.attempts[i].stage != Finished(None) ==>
                  w'.attempts[i].stage == Finished(Some(IdempotencyConflict)) && w'.stores == w.stores)
  {
    assert AttemptOk(k, w.stores, w.checks, w.attempts[i]);
    ReadyRunsToEnd(k, w, i, Accepted);
    var a := w.attempts[i];
    AcceptedEnd(k, w.stores, a.kind, a.raw);
  }

  /** With an accepting provider only another credential's unrecorded version stands in the way. */
  lemma AcceptedEnd(k: Keyed, s: Stores, kind: Kind, raw: Secret)
    requires Consistent(k, s) && s.row.Some? && (kind.Create? ==> s.status != InUse)
    ensures var (s', error) := WriteAndSettle(k, s, kind, raw, Accepted);
            var n := |s.vault|;
            && (error == None <==> n == Recorded(s) || k.sum(s.vault[n - 1]) == k.sum(raw))
            && (error == None ==>
                  && s'.status == InUse && s'.row.Some?
                  && s'.row.value.fingerprint == k.sum(raw)
                  && s'.row.value.active == |s'.vault|
                  && |s'.vault| == if n == Recorded(s) then n + 1 else n)
            && (error != None ==> error == Some(IdempotencyConflict) && s' == s)
  {
  }

  /** A finished attempt takes no further steps, so its own labels change nothing. */
  lemma {:induction false} FinishedStays(k: Keyed, w: World, run: seq<Label>, i: nat)
    requires i < |w.attempts| && w.attempts[i].stage.Finished?
    requires forall l :: l in run ==> OwnStep(l, i)
    ensures Exec(k, w, run) == w
  {
    if run != [] {
      var init, last := run[..|run| - 1], run[|run| - 1];
      assert last in run;
      FinishedStays(k, w, init, i);
    }
  }

  lemma {:induction false} KindAndRawStay(k: Keyed, w: World, run: seq<Label>, i: nat)
    requires i < |w.attempts|
    ensures var w' := Exec(k, w, run);
            i < |w'.attempts| && w'.attempts[i].kind == w.attempts[i].kind && w'.attempts[i].raw == w.attempts[i].raw
  {
    if run != [] {
      KindAndRawStay(k, w, run[..|run| - 1], i);
    }
  }

  // ----- whole attempts, by what the stores hold -----

  /** What recording a stored version writes. */
  lemma RecordByFields(k: Keyed, s: Stores, kind: Kind, version: nat)
    requires s.row.Some?
    ensures var c := s.row.value;
            var latest := if c.latest < version then version else c.latest;
            && (kind.Create? ==>
                  RecordStored(s, kind, version) == Stores(
                    s.vault, Some(Credential(c.fingerprint, PendingVerification, c.active, latest)),
                    s.status, s.connectionVersion, s.operations, s.doomed))
            && (kind.Rotate? ==>
                  RecordStored(s, kind, version) == Stores(
                    s.vault, Some(Credential(c.fingerprint, c.state, c.active, latest)),
                    s.status, s.connectionVersion,
                    if kind.key in s.operations && s.operations[kind.key].state.Prepared?
                    then s.operations[kind.key := s.operations[kind.key].(state := SecretStored)]
                    else s.operations,
                    s.doomed))
  {
    if kind.Rotate? && kind.key in s.operations && s.operations[kind.key].state.SecretStored? {
      assert s.operations[kind.key := s.operations[kind.key].(state := SecretStored)] == s.operations;
    }
  }

  /** What an accepting provider makes the closing transaction write and answer. */
  lemma AcceptanceByFields(k: Keyed, s: Stores, kind: Kind, raw: Secret, version: nat)
    requires s.row.Some?
    ensures var c := s.row.value;
            var row := Credential(k.sum(raw), Activated, version, if c.latest < version then version else c.latest);
            var end := SettleStores(k, s, kind, raw, version, Accepted);
            && (kind.Create? && s.status == InUse ==> end == (s, Some(NotFound)))
            && (kind.Create? && s.status != InUse ==>
                  end == (Stores(s.vault, Some(row), InUse, s.connectionVersion + 1, s.operations, s.doomed), None))
            && (kind.Rotate? ==>
                  end == (Stores(s.vault, Some(row), InUse, s.connectionVersion + 1,
                                 if kind.key in s.operations
                                 then s.operations[kind.key := s.operations[kind.key].(state := Succeeded)]
                                 else s.operations,
                                 if c.active > 0 && c.active != version then s.doomed + {c.active} else s.doomed),
                          None))
  {
    assert s.doomed + {} == s.doomed;
  }

  /** And one that refuses the credential, or cannot be reached. */
  lemma RefusalByFields(k: Keyed, s: Stores, kind: Kind, raw: Secret, version: nat)
    requires s.row.Some?
    ensures var c := s.row.value;
            var latest := if c.latest < version then version else c.latest;
            var end := SettleStores(k, s, kind, raw, version, Refused);
            && end.1 == Some(CredentialRejected)
            && (kind.Create? ==>
                  end.0 == Stores(s.vault, Some(Credential(c.fingerprint, VerificationFailed, c.active, latest)),
                                  Failed, s.connectionVersion + 1, s.operations, s.doomed + {version}))
            && (kind.Rotate? ==>
                  end.0 == Stores(s.vault, s.row, s.status, s.connectionVersion,
                                  if kind.key in s.operations
                                  then s.operations[kind.key := s.operations[kind.key].(state := Rejected)]
                                  else s.operations,
                                  s.doomed + {version}))
            && SettleStores(k, s, kind, raw, version, Unreachable) == (s, Some(Unavailable))
  {
  }

  /** The credential's version: the next one, or the unrecorded one it recognises. */
  function OwnVersion(s: Stores): nat {
    if |s.vault| == Recorded(s) then |s.vault| + 1 else |s.vault|
  }

  /** Nothing is unrecorded, or what is carries this fingerprint. */
  predicate Writable(k: Keyed, s: Stores, raw: Secret) {
    |s.vault| == Recorded(s) || (s.vault != [] && k.sum(s.vault[|s.vault| - 1]) == k.sum(raw))
  }

  /** A creation whose row settles the matter touches nothing. */
  lemma CreationAnsweredAtOnce(k: Keyed, s: Stores, raw: Secret, verdict: Verdict)
    requires Consistent(k, s) && s.row.Some?
    ensures var c := s.row.value;
            && (c.fingerprint != k.sum(raw) ==>
                  Uninterrupted(k, s, Create, raw, verdict) == (s, Some(IdempotencyConflict)))
            && (c.fingerprint == k.sum(raw) && c.state == Activated ==>
                  Uninterrupted(k, s, Create, raw, verdict) == (s, None))
            && (c.fingerprint == k.sum(raw) && c.state == VerificationFailed ==>
                  Uninterrupted(k, s, Create, raw, verdict) == (s, Some(CredentialRejected)))
            && (c.fingerprint == k.sum(raw) && c.state in {PendingStore, PendingVerification}
                && |s.vault| != c.latest && k.sum(s.vault[|s.vault| - 1]) != k.sum(raw) ==>
                  Uninterrupted(k, s, Create, raw, verdict) == (s, Some(IdempotencyConflict)))
  {
  }

  /**
   A creation with no row yet, or with its own row still pending, goes through to the
   provider and leaves exactly these stores.
   */
  lemma CreationRuns(k: Keyed, s: Stores, raw: Secret, verdict: Verdict)
    requires Consistent(k, s) && Writable(k, s, raw)
    requires s.row.Some? ==>
               s.row.value.fingerprint == k.sum(raw) && s.row.value.state in {PendingStore, PendingVerification}
    ensures var fp, v := k.sum(raw), OwnVersion(s);
            var vault := if |s.vault| == Recorded(s) then s.vault + [raw] else s.vault;
            var active := if s.row == None then 0 else s.row.value.active;
            var end := Uninterrupted(k, s, Create, raw, verdict);
            && (verdict == Accepted && s.status != InUse ==>
                  end == (Stores(vault, Some(Credential(fp, Activated, v, v)), InUse,
                                 s.connectionVersion + 1, s.operations, s.doomed), None))
            && (verdict == Accepted && s.status == InUse ==>
                  end == (Stores(vault, Some(Credential(fp, PendingVerification, active, v)), InUse,
                                 s.connectionVersion, s.operations, s.doomed), Some(NotFound)))
            && (verdict == Refused ==>
                  end == (Stores(vault, Some(Credential(fp, VerificationFailed, active, v)), Failed,
                                 s.connectionVersion + 1, s.operations, s.doomed + {v}), Some(CredentialRejected)))
            && (verdict == Unreachable ==>
                  end == (Stores(vault, Some(Credential(fp, PendingVerification, active, v)), s.status,
                                 s.connectionVersion, s.operations, s.doomed), Some(Unavailable)))
  {
    var c := if s.row == None then Credential(k.sum(raw), PendingStore, 0, 0) else s.row.value;
    PrepareKeeps(k, s, Create, raw);
    assert Prepare(k, s, Create, raw) == (s.(row := Some(c)), Proceed(c.latest));
    RunsAfterPreparing(k, s.(row := Some(c)), Create, raw, verdict);
  }

  /** From a prepared row on, whichever the kind. */
  lemma RunsAfterPreparing(k: Keyed, s: Stores, kind: Kind, raw: Secret, verdict: Verdict)
    requires Consistent(k, s) && s.row.Some? && Writable(k, s, raw)
    ensures var s1 := if |s.vault| == Recorded(s) then s.(vault := s.vault + [raw]) else s;
            WriteAndSettle(k, s, kind, raw, verdict)
            == SettleStores(k, RecordStored(s1, kind, OwnVersion(s)), kind, raw, OwnVersion(s), verdict)
  {
  }

  /** What has to hold for a rotation to reach the vault. */
  predicate RotationMayRun(k: Keyed, s: Stores, key: string, expected: nat, raw: Secret) {
    && s.status != Pending && s.connectionVersion == expected && s.row.Some?
    && (key in s.operations ==>
          && s.operations[key].expected == expected && s.operations[key].display == k.display(k.sum(raw))
          && s.operations[key].state in {Prepared, SecretStored})
  }

  /** A rotation that may not run touches nothing and says why. */
  lemma RotationAnsweredAtOnce(k: Keyed, s: Stores, key: string, expected: nat, raw: Secret, verdict: Verdict)
    requires Consistent(k, s) && !RotationMayRun(k, s, key, expected, raw)
    ensures var other := key in s.operations
              && (s.operations[key].expected != expected || s.operations[key].display != k.display(k.sum(raw)));
            Uninterrupted(k, s, Rotate(key, expected), raw, verdict) ==
              (s, Some(if other then IdempotencyConflict
                       else if s.status == Pending then NotFound
                       else if s.connectionVersion != expected then VersionConflict
                       else if s.row == None then NotFound
                       else CredentialRejected))
  {
  }

  /** Another credential's unrecorded version stops it after its operation was entered. */
  lemma RotationBlocked(k: Keyed, s: Stores, key: string, expected: nat, raw: Secret, verdict: Verdict)
    requires Consistent(k, s) && RotationMayRun(k, s, key, expected, raw) && !Writable(k, s, raw)
    ensures Uninterrupted(k, s, Rotate(key, expected), raw, verdict) ==
              (Stores(s.vault, s.row, s.status, s.connectionVersion,
                      if key in s.operations then s.operations
                      else s.operations[key := Operation(Prepared, expected, k.display(k.sum(raw)))],
                      s.doomed), Some(IdempotencyConflict))
  {
  }

  /** A rotation that may run goes through to the provider and leaves exactly these stores. */
  lemma RotationRuns(k: Keyed, s: Stores, key: string, expected: nat, raw: Secret, verdict: Verdict)
    requires Consistent(k, s) && RotationMayRun(k, s, key, expected, raw) && Writable(k, s, raw)
    ensures var fp, v, c := k.sum(raw), OwnVersion(s), s.row.value;
            var vault := if |s.vault| == c.latest then s.vault + [raw] else s.vault;
            var end := Uninterrupted(k, s, Rotate(key, expected), raw, verdict);
            && (verdict == Accepted ==>
                  end == (Stores(vault, Some(Credential(fp, Activated, v, v)), InUse, expected + 1,
                                 s.operations[key := Operation(Succeeded, expected, k.display(fp))],
                                 if c.active > 0 && c.active != v then s.doomed + {c.active} else s.doomed), None))
            && (verdict == Refused ==>
                  end == (Stores(vault, Some(c.(latest := v)), s.status, expected,
                                 s.operations[key := Operation(Rejected, expected, k.display(fp))],
                                 s.doomed + {v}), Some(CredentialRejected)))
            && (verdict == Unreachable ==>
                  end == (Stores(vault, Some(c.(latest := v)), s.status, expected,
                                 s.operations[key := Operation(SecretStored, expected, k.display(fp))],
                                 s.doomed), Some(Unavailable)))
  {
    var kind, v := Rotate(key, expected), OwnVersion(s);
    var stored := RotationStored(k, s, key, expected, raw);
    RotationReachesProvider(k, s, key, expected, raw, verdict);
    AcceptanceByFields(k, stored, kind, raw, v);
    RefusalByFields(k, stored, kind, raw, v);
    var display := k.display(k.sum(raw));
    var succeeded, rejected := Operation(Succeeded, expected, display), Operation(Rejected, expected, display);
    assert stored.operations[key := succeeded] == s.operations[key := succeeded];
    assert stored.operations[key := rejected] == s.operations[key := rejected];
  }

  /** What is stored when such a rotation asks the provider. */
  function RotationStored(k: Keyed, s: Stores, key: string, expected: nat, raw: Secret): Stores
    requires s.row.Some?
  {
    Stores(if |s.vault| == s.row.value.latest then s.vault + [raw] else s.vault,
           Some(s.row.value.(latest := OwnVersion(s))), s.status, s.connectionVersion,
           s.operations[key := Operation(SecretStored, expected, k.display(k.sum(raw)))], s.doomed)
  }

  lemma RotationReachesProvider(k: Keyed, s: Stores, key: string, expected: nat, raw: Secret, verdict: Verdict)
    requires Consistent(k, s) && RotationMayRun(k, s, key, expected, raw) && Writable(k, s, raw)
    ensures Uninterrupted(k, s, Rotate(key, expected), raw, verdict)
         == SettleStores(k, RotationStored(k, s, key, expected, raw), Rotate(key, expected), raw,
                         OwnVersion(s), verdict)
  {
    var kind, v := Rotate(key, expected), OwnVersion(s);
    var s0 := RotationPrepared(k, s, key, expected, raw);
    RunsAfterPreparing(k, s0, kind, raw, verdict);
    var s1 := if |s.vault| == Recorded(s) then s0.(vault := s.vault + [raw]) else s0;
    RecordByFields(k, s1, kind, v);
    assert RecordStored(s1, kind, v).operations == RotationStored(k, s, key, expected, raw).operations;
  }

  lemma RotationPrepared(k: Keyed, s: Stores, key: string, expected: nat, raw: Secret) returns (s0: Stores)
    requires Consistent(k, s) && RotationMayRun(k, s, key, expected, raw)
    ensures Prepare(k, s, Rotate(key, expected), raw) == (s0, Proceed(s.row.value.latest)) && Consistent(k, s0)
    ensures s0 == s.(operations := s0.operations)
    ensures key in s0.operations && s0.operations[key].state in {Prepared, SecretStored}
    ensures forall state ::
              s0.operations[key := s0.operations[key].(state := state)]
              == s.operations[key := Operation(state, expected, k.display(k.sum(raw)))]
  {
    PrepareKeeps(k, s, Rotate(key, expected), raw);
    s0 := Prepare(k, s, Rotate(key, expected), raw).0;
  }

  /**
   A creation run from its start, alone and against an accepting provider, answers
   success if and only if it replays an active creation with its fingerprint, or the
   connection is not in use, the row is absent or its own and pending, and the vault
   holds nothing unrecorded or its own version; and in that second case its version is
   the active one.
   */
  lemma CreationSucceedsExactly(k: Keyed, w: World, i: nat)
    requires Inv(k, w) && i < |w.attempts| && w.attempts[i].stage.Started? && w.attempts[i].kind.Create?
    ensures var s, raw := w.stores, w.attempts[i].raw;
            var fp, n := k.sum(raw), |s.vault|;
            var w' := Exec(k, w, [PrepareStep(i)] + (WriteRun(i) + FinishRun(i, Accepted)));
            var replays := s.row.Some? && s.row.value.fingerprint == fp && s.row.value.state == Activated;
            var activates :=
              && s.status != InUse
              && (s.row.Some? ==>
                    s.row.value.fingerprint == fp && s.row.value.state in {PendingStore, PendingVerification})
              && (n == (if s.row == None then 0 else s.row.value.latest)
                  || (n > 0 && k.sum(s.vault[n - 1]) == fp));
            && i < |w'.attempts|
            && (w'.attempts[i].stage == Finished(None) <==> replays || activates)
            && (replays ==> w'.stores == s)
            && (activates ==>
                  && w'.stores.status == InUse && w'.stores.row.Some?
                  && w'.stores.row.value.fingerprint == fp
                  && w'.stores.row.value.active == |w'.stores.vault| > 0
                  && k.sum(w'.stores.vault[|w'.stores.vault| - 1]) == fp
                  && w'.stores.vault ==
                       if n == (if s.row == None then 0 else s.row.value.latest) then s.vault + [raw] else s.vault)
  {
    SerialRunIsUninterrupted(k, w, i, Accepted);
    CreationAccepted(k, w.stores, w.attempts[i].raw);
  }

  /** The same of the serial function. */
  lemma CreationAccepted(k: Keyed, s: Stores, raw: Secret)
    requires Consistent(k, s)
    ensures var (s', error) := Uninterrupted(k, s, Create, raw, Accepted);
            var fp := k.sum(raw);
            var replays := s.row.Some? && s.row.value.fingerprint == fp && s.row.value.state == Activated;
            var activates :=
              && s.status != InUse && Writable(k, s, raw)
              && (s.row.Some? ==>
                    s.row.value.fingerprint == fp && s.row.value.state in {PendingStore, PendingVerification});
            && (error == None <==> replays || activates)
            && (replays ==> s' == s)
            && (activates ==>
                  && s'.status == InUse && s'.row.Some?
                  && s'.row.value.fingerprint == fp
                  && s'.row.value.active == |s'.vault| > 0
                  && k.sum(s'.vault[|s'.vault| - 1]) == fp
                  && s'.vault == if |s.vault| == Recorded(s) then s.vault + [raw] else s.vault)
  {
    if s.row.Some? {
      CreationAnsweredAtOnce(k, s, raw, Accepted);
    }
    if Writable(k, s, raw)
       && (s.row.Some? ==>
             s.row.value.fingerprint == k.sum(raw) && s.row.value.state in {PendingStore, PendingVerification}) {
      CreationRuns(k, s, raw, Accepted);
    }
  }

  /**
   A rotation run from its start, alone and against an accepting provider, succeeds if
   and only if the connection was ever in use and is at the expected version, its
   operation is new or is this one and unsettled, and the vault holds nothing unrecorded
   or its own version; then its version is the active one.
   */
  lemma RotationSucceedsExactly(k: Keyed, w: World, i: nat)
    requires Inv(k, w) && i < |w.attempts| && w.attempts[i].stage.Started? && w.attempts[i].kind.Rotate?
    ensures var s, a := w.stores, w.attempts[i];
            var raw, key, expected := a.raw, a.kind.key, a.kind.expected;
            var fp, n := k.sum(raw), |s.vault|;
            var w' := Exec(k, w, [PrepareStep(i)] + (WriteRun(i) + FinishRun(i, Accepted)));
            var rotates :=
              && s.status != Pending && s.connectionVersion == expected && s.row.Some?
              && (key in s.operations ==>
                    && s.operations[key].expected == expected && s.operations[key].display == k.display(fp)
                    && s.operations[key].state in {Prepared, SecretStored})
              && (n == s.row.value.latest || k.sum(s.vault[n - 1]) == fp);
            && i < |w'.attempts|
            && (w'.attempts[i].stage == Finished(None) <==> rotates)
            && (rotates ==>
                  && w'.stores.status == InUse && w'.stores.row.Some?
                  && w'.stores.row.value.fingerprint == fp
                  && w'.stores.row.value.active == |w'.stores.vault| > 0
                  && k.sum(w'.stores.vault[|w'.stores.vault| - 1]) == fp
                  && w'.stores.connectionVersion == expected + 1
                  && key in w'.stores.operations && w'.stores.operations[key].state == Succeeded)
  {
    var raw, key, expected := w.attempts[i].raw, w.attempts[i].kind.key, w.attempts[i].kind.expected;
    SerialRunIsUninterrupted(k, w, i, Accepted);
    RotationAccepted(k, w.stores, key, expected, raw);
  }

  /** The same of the serial function. */
  lemma RotationAccepted(k: Keyed, s: Stores, key: string, expected: nat, raw: Secret)
    requires Consistent(k, s)
    ensures var (s', error) := Uninterrupted(k, s, Rotate(key, expected), raw, Accepted);
            && (error == None <==> RotationMayRun(k, s, key, expected, raw) && Writable(k, s, raw))
            && (error == None ==>
                  && s'.status == InUse && s'.row.Some?
                  && s'.row.value.fingerprint == k.sum(raw)
                  && s'.row.value.active == |s'.vault| > 0
                  && k.sum(s'.vault[|s'.vault| - 1]) == k.sum(raw)
                  && s'.connectionVersion == expected + 1
                  && key in s'.operations && s'.operations[key].state == Succeeded)
  {
    if !RotationMayRun(k, s, key, expected, raw) {
      RotationAnsweredAtOnce(k, s, key, expected, raw, Accepted);
    } else if !Writable(k, s, raw) {
      RotationBlocked(k, s, key, expected, raw, Accepted);
    } else {
      RotationRuns(k, s, key, expected, raw, Accepted);
    }
  }

  // ----- an abandoned version -----

  /** A version is written but unrecorded, and no attempt in flight knows about it. */
  predicate Abandoned(k: Keyed, w: World, fp: Fingerprint) {
    && |w.stores.vault| == Recorded(w.stores) + 1
    && k.sum(w.stores.vault[|w.stores.vault| - 1]) == fp
    && (forall a :: a in w.attempts ==>
          a.stage.Finished? || (Unaware(a.stage, |w.stores.vault|) && k.sum(a.raw) != fp))
  }

  /** Not past its write, and looking at no other version than the latest. */
  predicate Unaware(stage: Stage, latest: nat) {
    stage.Started? || stage.Ready? || stage.Conflicted? || (stage.Polled? && stage.current == latest)
  }

  lemma AbandonedStep(k: Keyed, w: World, l: Label, fp: Fingerprint)
    requires Inv(k, w) && Abandoned(k, w, fp)
    requires l.Begin? ==> k.sum(l.raw) != fp
    ensures var w' := Step(k, w, l);
            Abandoned(k, w', fp) && w'.stores.vault == w.stores.vault && w'.promotions == w.promotions
  {
    var w' := Step(k, w, l);
    if !l.Begin? && !l.Expire? && l.at < |w.attempts| {
      AbandonedMove(k, w, l, fp);
      forall b | b in w'.attempts
        ensures b.stage.Finished? || (Unaware(b.stage, |w'.stores.vault|) && k.sum(b.raw) != fp)
      {
        var j :| 0 <= j < |w'.attempts| && w'.attempts[j] == b;
        if j != l.at {
          assert b == w.attempts[j];
        }
      }
    }
  }

  lemma AbandonedMove(k: Keyed, w: World, l: Label, fp: Fingerprint)
    requires Inv(k, w) && Abandoned(k, w, fp)
    requires !l.Begin? && !l.Expire? && l.at < |w.attempts|
    ensures var w' := Step(k, w, l);
            var a' := w'.attempts[l.at];
            && |w'.attempts| == |w.attempts|
            && (forall j | 0 <= j < |w.attempts| && j != l.at :: w'.attempts[j] == w.attempts[j])
            && w'.stores.vault == w.stores.vault && Recorded(w'.stores) == Recorded(w.stores)
            && w'.promotions == w.promotions
            && (a'.stage.Finished? || (Unaware(a'.stage, |w.stores.vault|) && k.sum(a'.raw) != fp))
  {
    var a := w.attempts[l.at];
    assert a in w.attempts;
    assert AttemptOk(k, w.stores, w.checks, a);
    if a.stage.Started? {
      PreparedMove(k, w, l);
    } else {
      UnawareMove(k, w, l, fp);
    }
  }

  /** A finished attempt, or one that has only read so far and cannot write. */
  lemma UnawareMove(k: Keyed, w: World, l: Label, fp: Fingerprint)
    requires !l.Begin? && !l.Expire? && l.at < |w.attempts| && w.stores.vault != []
    requires k.sum(w.stores.vault[|w.stores.vault| - 1]) == fp
    requires var a := w.attempts[l.at];
             a.stage.Finished?
             || (Unaware(a.stage, |w.stores.vault|) && !a.stage.Started? && k.sum(a.raw) != fp
                 && (a.stage.Ready? ==> a.stage.latest < |w.stores.vault|))
    ensures var w' := Step(k, w, l);
            var a' := w'.attempts[l.at];
            && |w'.attempts| == |w.attempts|
            && (forall j | 0 <= j < |w.attempts| && j != l.at :: w'.attempts[j] == w.attempts[j])
            && w'.stores == w.stores && w'.promotions == w.promotions
            && (a'.stage.Finished? || (Unaware(a'.stage, |w.stores.vault|) && k.sum(a'.raw) != fp))
  {
  }

  lemma PreparedMove(k: Keyed, w: World, l: Label)
    requires Consistent(k, w.stores) && !l.Begin? && !l.Expire? && l.at < |w.attempts|
    requires w.attempts[l.at].stage.Started?
    ensures var w' := Step(k, w, l);
            && |w'.attempts| == |w.attempts|
            && (forall j | 0 <= j < |w.attempts| && j != l.at :: w'.attempts[j] == w.attempts[j])
            && w'.stores.vault == w.stores.vault && Recorded(w'.stores) == Recorded(w.stores)
            && w'.promotions == w.promotions
            && w'.attempts[l.at].raw == w.attempts[l.at].raw
            && (w'.attempts[l.at].stage.Finished? || Unaware(w'.attempts[l.at].stage, |w.stores.vault|))
  {
    PrepareKeeps(k, w.stores, w.attempts[l.at].kind, w.attempts[l.at].raw);
  }

  /**
   An abandoned version shuts out every other credential: as long as nobody retries
   with its fingerprint, no attempt writes, records or promotes anything.
   */
  lemma {:induction false} AbandonedVersionBlocksOthers(k: Keyed, w: World, run: seq<Label>, fp: Fingerprint)
    requires Inv(k, w) && Abandoned(k, w, fp)
    requires forall l :: l in run && l.Begin? ==> k.sum(l.raw) != fp
    ensures var w' := Exec(k, w, run);
            Abandoned(k, w', fp) && w'.stores.vault == w.stores.vault && w'.promotions == w.promotions
  {
    if run != [] {
      var init, last := run[..|run| - 1], run[|run| - 1];
      assert last in run;
      AbandonedVersionBlocksOthers(k, w, init, fp);
      RunKeepsInv(k, w, init);
      AbandonedStep(k, Exec(k, w, init), last, fp);
    }
  }

  // ----- the destruction queue -----

  /** The version in use is not queued for destruction. */
  predicate InUseIsKept(s: Stores) {
    s.status == InUse && s.row.Some? ==> s.row.value.active !in s.doomed
  }

  /**
   The closing transactions that leave a doomed version in use: promoting a version
   already queued, or queueing the version in use because another attempt's rotation
   to it was refused.
   */
  predicate DoomsInUse(s: Stores, kind: Kind, version: nat, verdict: Verdict)
    requires s.row.Some?
  {
    match (verdict, kind)
    case (Accepted, Create) => s.status != InUse && version in s.doomed
    case (Accepted, Rotate(_, _)) => version in s.doomed
    case (Refused, Rotate(_, _)) => s.status == InUse && version == s.row.value.active
    case _ => false
  }

  lemma SettleKeepsInUseExactly(k: Keyed, s: Stores, kind: Kind, raw: Secret, version: nat, verdict: Verdict)
    requires s.row.Some? && InUseIsKept(s)
    ensures InUseIsKept(SettleStores(k, s, kind, raw, version, verdict).0) <==> !DoomsInUse(s, kind, version, verdict)
  {
  }

  /** The step is such a transaction. */
  predicate Dooming(w: World, l: Label) {
    && l.Settle? && l.at < |w.attempts| && w.attempts[l.at].stage.Verified? && w.stores.row.Some?
    && var a := w.attempts[l.at]; DoomsInUse(w.stores, a.kind, a.stage.version, a.stage.verdict)
  }

  /** What the queue and the version in use look like is up to the closing transactions. */
  predicate SameUse(s: Stores, s': Stores) {
    && s'.doomed == s.doomed && s'.status == s.status
    && (s'.row.Some? && s'.row.value.active > 0 ==> s.row.Some? && s'.row.value.active == s.row.value.active)
    && (s.row.Some? ==> s'.row.Some? && s'.row.value.active == s.row.value.active)
  }

  lemma OtherStepsKeepUse(k: Keyed, w: World, l: Label)
    requires l.Settle? && l.at < |w.attempts| ==> !w.attempts[l.at].stage.Verified? || w.stores.row == None
    ensures SameUse(w.stores, Step(k, w, l).stores)
    ensures Step(k, w, l).settlements == w.settlements
  {
    if !l.Begin? && !l.Expire? && l.at < |w.attempts| {
      StepIsPortCall(k, w, l);
    }
  }

  lemma StepKeepsInUseExactly(k: Keyed, w: World, l: Label)
    requires Consistent(k, w.stores) && InUseIsKept(w.stores)
    ensures InUseIsKept(Step(k, w, l).stores) <==> !Dooming(w, l)
  {
    if l.Settle? && l.at < |w.attempts| && w.attempts[l.at].stage.Verified? && w.stores.row.Some? {
      var a := w.attempts[l.at];
      SettleKeepsInUseExactly(k, w.stores, a.kind, a.raw, a.stage.version, a.stage.verdict);
    } else {
      OtherStepsKeepUse(k, w, l);
    }
  }

  /** In every state along the run the version in use is kept. */
  ghost predicate AlwaysKept(k: Keyed, run: seq<Label>) {
    forall n | 0 <= n <= |run| :: InUseIsKept(Exec(k, EMPTY, run[..n]).stores)
  }

  ghost predicate NeverDooms(k: Keyed, run: seq<Label>) {
    forall n | 0 <= n < |run| :: !Dooming(Exec(k, EMPTY, run[..n]), run[n])
  }

  lemma AlwaysKeptNext(k: Keyed, init: seq<Label>, l: Label)
    ensures AlwaysKept(k, init + [l]) <==> AlwaysKept(k, init) && InUseIsKept(Exec(k, EMPTY, init + [l]).stores)
  {
    var run := init + [l];
    assert forall n | 0 <= n <= |init| :: run[..n] == init[..n];
    assert run[..|run|] == run;
  }

  lemma NeverDoomsNext(k: Keyed, init: seq<Label>, l: Label)
    ensures NeverDooms(k, init + [l]) <==> NeverDooms(k, init) && !Dooming(Exec(k, EMPTY, init), l)
  {
    var run := init + [l];
    assert forall n | 0 <= n < |init| :: run[..n] == init[..n] && run[n] == init[n];
    assert run[..|init|] == init && run[|init|] == l;
  }

  /**
   Along a run the version in use is never queued for destruction if and only if no
   closing transaction of the run is a dooming one.
   */
  lemma {:induction false} InUseIsKeptExactly(k: Keyed, run: seq<Label>)
    ensures AlwaysKept(k, run) <==> NeverDooms(k, run)
  {
    if run == [] {
      assert run[..0] == [];
    } else {
      var init, l := run[..|run| - 1], run[|run| - 1];
      assert run == init + [l];
      InUseIsKeptExactly(k, init);
      AlwaysKeptNext(k, init, l);
      NeverDoomsNext(k, init, l);
      if AlwaysKept(k, init) {
        assert init[..|init|] == init;
        LastStepKeepsInUse(k, init, l);
      }
    }
  }

  lemma LastStepKeepsInUse(k: Keyed, init: seq<Label>, l: Label)
    requires InUseIsKept(Exec(k, EMPTY, init).stores)
    ensures InUseIsKept(Exec(k, EMPTY, init + [l]).stores) <==> !Dooming(Exec(k, EMPTY, init), l)
  {
    RunKeepsInv(k, EMPTY, init);
    ExecOne(k, EMPTY, init, l);
    StepKeepsInUseExactly(k, Exec(k, EMPTY, init), l);
  }

  /** The steps of one attempt of a creation, in three parts. */
  function Opening(i: nat): seq<Label> {
    [Begin(Create, "key")] + [PrepareStep(i)] + [WriteCas(i)]
  }

  function Recovering(i: nat): seq<Label> {
    [Poll(i)] + [ReadBack(i)]
  }

  function Judging(i: nat, verdict: Verdict): seq<Label> {
    [Note(i)] + [Load(i)] + [Verify(i, verdict)]
  }

  /** The row after the version was recorded. */
  function KeyRow(k: Keyed): Credential {
    Credential(k.sum("key"), PendingVerification, 0, 1)
  }

  function KeyStores(row: Credential): Stores {
    Stores(["key"], Some(row), Pending, 1, map[], {})
  }

  function KeyAttempt(stage: Stage): Attempt {
    Attempt(Create, "key", stage)
  }

  /** The first attempt has written, the second has recognised the version. */
  function SharedWorld(k: Keyed): World {
    World(KeyStores(Credential(k.sum("key"), PendingStore, 0, 0)),
          [KeyAttempt(Stored(1)), KeyAttempt(Stored(1))], [0], [], [], [])
  }

  lemma TwoAttemptsShare(k: Keyed)
    ensures Exec(k, EMPTY, Opening(0) + (Opening(1) + Recovering(1))) == SharedWorld(k)
  {
    var row := Credential(k.sum("key"), PendingStore, 0, 0);
    var first := World(KeyStores(row), [KeyAttempt(Stored(1))], [0], [], [], []);
    FirstAttemptWrites(k);
    var second := World(KeyStores(row), [KeyAttempt(Stored(1)), KeyAttempt(Conflicted(0))], [0], [], [], []);
    SecondAttemptConflicts(k);
    ExecAppend(k, EMPTY, Opening(0), Opening(1) + Recovering(1));
    ExecAppend(k, first, Opening(1), Recovering(1));
    SecondAttemptRecognises(k, second);
  }

  lemma SecondAttemptRecognises(k: Keyed, w: World)
    requires w.stores.vault == ["key"] && w.attempts == [KeyAttempt(Stored(1)), KeyAttempt(Conflicted(0))]
    ensures Exec(k, w, Recovering(1)) == w.(attempts := [KeyAttempt(Stored(1)), KeyAttempt(Stored(1))])
  {
    ExecOne(k, w, [], Poll(1));
    ExecOne(k, w, [Poll(1)], ReadBack(1));
    assert [] + [Poll(1)] == [Poll(1)];
    assert Step(k, w, Poll(1)) == w.(attempts := [KeyAttempt(Stored(1)), KeyAttempt(Polled(0, 1))]);
  }

  lemma FirstAttemptWrites(k: Keyed)
    ensures Exec(k, EMPTY, Opening(0)) ==
            World(KeyStores(Credential(k.sum("key"), PendingStore, 0, 0)), [KeyAttempt(Stored(1))], [0], [], [], [])
  {
    var row := Credential(k.sum("key"), PendingStore, 0, 0);
    var a := World(EMPTY.stores, [KeyAttempt(Started)], [], [], [], []);
    var b := World(KeyStores(row).(vault := []), [KeyAttempt(Ready(0))], [], [], [], []);
    OpeningUnfolds(k, EMPTY, 0);
    assert Step(k, EMPTY, Begin(Create, "key")) == a;
    assert Step(k, a, PrepareStep(0)) == b;
  }

  lemma SecondAttemptConflicts(k: Keyed)
    ensures var row := Credential(k.sum("key"), PendingStore, 0, 0);
            Exec(k, World(KeyStores(row), [KeyAttempt(Stored(1))], [0], [], [], []), Opening(1)) ==
            World(KeyStores(row), [KeyAttempt(Stored(1)), KeyAttempt(Conflicted(0))], [0], [], [], [])
  {
    var row := Credential(k.sum("key"), PendingStore, 0, 0);
    var first := World(KeyStores(row), [KeyAttempt(Stored(1))], [0], [], [], []);
    var a := first.(attempts := [KeyAttempt(Stored(1)), KeyAttempt(Started)]);
    var b := first.(attempts := [KeyAttempt(Stored(1)), KeyAttempt(Ready(0))]);
    OpeningUnfolds(k, first, 1);
    assert Step(k, first, Begin(Create, "key")) == a;
    assert Step(k, a, PrepareStep(1)) == b;
  }

  lemma OpeningUnfolds(k: Keyed, w: World, i: nat)
    ensures Exec(k, w, Opening(i)) == Step(k, Step(k, Step(k, w, Begin(Create, "key")), PrepareStep(i)), WriteCas(i))
  {
    ExecOne(k, w, [], Begin(Create, "key"));
    assert [] + [Begin(Create, "key")] == [Begin(Create, "key")];
    ExecOne(k, w, [Begin(Create, "key")], PrepareStep(i));
    ExecOne(k, w, [Begin(Create, "key")] + [PrepareStep(i)], WriteCas(i));
  }

  /** Recording, reading back and judging version 1 moves only this attempt and the row. */
  lemma JudgingVerifies(k: Keyed, w: World, i: nat, verdict: Verdict)
    requires i < |w.attempts| && w.attempts[i] == KeyAttempt(Stored(1)) && w.stores.vault == ["key"]
    requires w.stores.row.Some? && w.stores.row.value.latest <= 1
    ensures var c := w.stores.row.value.(state := PendingVerification, latest := 1);
            Exec(k, w, Judging(i, verdict)) ==
              w.(stores := w.stores.(row := Some(c)),
                 attempts := w.attempts[i := KeyAttempt(Verified(1, "key", verdict))],
                 checks := w.checks + [Check(1, "key", verdict)])
  {
    var c := w.stores.row.value.(state := PendingVerification, latest := 1);
    ExecOne(k, w, [], Note(i));
    assert [] + [Note(i)] == [Note(i)];
    ExecOne(k, w, [Note(i)], Load(i));
    ExecOne(k, w, [Note(i)] + [Load(i)], Verify(i, verdict));
    var s := w.stores.(row := Some(c));
    assert Step(k, w, Note(i)) == w.(stores := s, attempts := w.attempts[i := KeyAttempt(Noted(1))]);
    var noted := w.(stores := s, attempts := w.attempts[i := KeyAttempt(Noted(1))]);
    assert Step(k, noted, Load(i)) == w.(stores := s, attempts := w.attempts[i := KeyAttempt(Loaded(1, "key"))]);
  }

  /** Both attempts have settled: version 1 is in use and queued for destruction. */
  lemma SettlingDooms(k: Keyed, w: World)
    requires w.stores == KeyStores(KeyRow(k))
    requires w.attempts == [KeyAttempt(Verified(1, "key", Refused)), KeyAttempt(Verified(1, "key", Accepted))]
    ensures !InUseIsKept(Exec(k, w, [Settle(0)] + [Settle(1)]).stores)
  {
    ExecOne(k, w, [], Settle(0));
    assert [] + [Settle(0)] == [Settle(0)];
    ExecOne(k, w, [Settle(0)], Settle(1));
    var w' := Step(k, w, Settle(0));
    assert w'.stores.doomed == {1} && w'.stores.status == Failed && w'.stores.row.Some?;
    assert w'.attempts[1] == KeyAttempt(Verified(1, "key", Accepted));
  }

  lemma BothAreJudged(k: Keyed)
    ensures var w := Exec(k, Exec(k, SharedWorld(k), Judging(0, Refused)), Judging(1, Accepted));
            && w.stores == KeyStores(KeyRow(k))
            && w.attempts == [KeyAttempt(Verified(1, "key", Refused)), KeyAttempt(Verified(1, "key", Accepted))]
  {
    JudgingVerifies(k, SharedWorld(k), 0, Refused);
    JudgingVerifies(k, Exec(k, SharedWorld(k), Judging(0, Refused)), 1, Accepted);
  }

  lemma ExecParts(k: Keyed, w: World, a: seq<Label>, b: seq<Label>, c: seq<Label>, d: seq<Label>)
    ensures Exec(k, w, a + (b + (c + d))) == Exec(k, Exec(k, Exec(k, Exec(k, w, a), b), c), d)
  {
    ExecAppend(k, w, a, b + (c + d));
    ExecAppend(k, Exec(k, w, a), b, c + d);
    ExecAppend(k, Exec(k, Exec(k, w, a), b), c, d);
  }

  /**
   Two attempts of one creation share a version, the provider refuses it to one and then
   accepts it for the other: the version in use is queued for destruction.
   */
  lemma SharedVersionIsDoomed(k: Keyed) returns (run: seq<Label>)
    ensures !InUseIsKept(Exec(k, EMPTY, run).stores)
  {
    var sharing, settling := Opening(0) + (Opening(1) + Recovering(1)), [Settle(0)] + [Settle(1)];
    run := sharing + (Judging(0, Refused) + (Judging(1, Accepted) + settling));
    TwoAttemptsShare(k);
    BothAreJudged(k);
    SettlingDooms(k, Exec(k, Exec(k, SharedWorld(k), Judging(0, Refused)), Judging(1, Accepted)));
    ExecParts(k, EMPTY, sharing, Judging(0, Refused), Judging(1, Accepted), settling);
  }

  // ----- doomed versions in use are shared -----

  ghost predicate Settled(log: seq<Settlement>, version: nat) {
    exists i :: 0 <= i < |log| && log[i].version == version
  }

  /** Two different settlements of one version. */
  ghost predicate SettledTwice(log: seq<Settlement>, version: nat) {
    exists i, j :: 0 <= i < j < |log| && log[i].version == version && log[j].version == version
  }

  lemma SettledNext(log: seq<Settlement>, last: Settlement, version: nat)
    ensures Settled(log, version) ==> Settled(log + [last], version)
    ensures SettledTwice(log, version) ==> SettledTwice(log + [last], version)
    ensures last.version == version ==> Settled(log + [last], version)
    ensures last.version == version && Settled(log, version) ==> SettledTwice(log + [last], version)
  {
    var next := log + [last];
    assert next[|log|] == last;
    if Settled(log, version) {
      var i :| 0 <= i < |log| && log[i].version == version;
      assert next[i].version == version;
    }
    if SettledTwice(log, version) {
      var i, j :| 0 <= i < j < |log| && log[i].version == version && log[j].version == version;
      assert next[i].version == version && next[j].version == version;
    }
  }

  /** Doomed and active versions were settled, and a version that is both was settled twice. */
  ghost predicate QueueOk(s: Stores, log: seq<Settlement>) {
    && (forall v :: v in s.doomed ==> Settled(log, v))
    && (s.row.Some? && s.row.value.active > 0 ==>
          && Settled(log, s.row.value.active)
          && (s.row.value.active in s.doomed ==> SettledTwice(log, s.row.value.active)))
  }

  lemma SettleKeepsQueue(
    k: Keyed, s: Stores, kind: Kind, raw: Secret, version: nat, verdict: Verdict,
    log: seq<Settlement>, last: Settlement)
    requires s.row.Some? && QueueOk(s, log) && last.version == version
    ensures var (s', error) := SettleStores(k, s, kind, raw, version, verdict);
            QueueOk(s', if TookEffect(error) then log + [last] else log)
  {
    var (s', error) := SettleStores(k, s, kind, raw, version, verdict);
    if TookEffect(error) {
      SettledNext(log, last, version);
      forall v | v in s'.doomed ensures Settled(log + [last], v) {
        SettledNext(log, last, v);
      }
      SettledNext(log, last, s'.row.value.active);
    } else {
      assert s' == s;
    }
  }

  /** An attempt settles at most once, and is finished with it. */
  predicate SettlersOk(w: World) {
    && (forall i | 0 <= i < |w.settlements| ::
          w.settlements[i].attempt < |w.attempts| && w.attempts[w.settlements[i].attempt].stage.Finished?)
    && (forall i, j | 0 <= i < j < |w.settlements| :: w.settlements[i].attempt != w.settlements[j].attempt)
  }

  /** Finished attempts stay finished, and only an attempt that finishes is added to the log. */
  lemma StepSettlers(k: Keyed, w: World, l: Label)
    requires SettlersOk(w)
    ensures SettlersOk(Step(k, w, l))
  {
    var w' := Step(k, w, l);
    SettlementsGain(k, w, l);
    forall i | 0 <= i < |w.settlements|
      ensures w.settlements[i].attempt < |w'.attempts| && w'.attempts[w.settlements[i].attempt].stage.Finished?
    {
      FinishedStaysFinished(k, w, l, w.settlements[i].attempt);
    }
  }

  lemma FinishedStaysFinished(k: Keyed, w: World, l: Label, i: nat)
    requires i < |w.attempts| && w.attempts[i].stage.Finished?
    ensures i < |Step(k, w, l).attempts| && Step(k, w, l).attempts[i].stage.Finished?
  {
  }

  lemma SettlementsGain(k: Keyed, w: World, l: Label)
    ensures var w' := Step(k, w, l);
            || w'.settlements == w.settlements
            || (&& l.Settle? && l.at < |w.attempts| && !w.attempts[l.at].stage.Finished?
                && |w'.attempts| == |w.attempts| && w'.attempts[l.at].stage.Finished?
                && |w'.settlements| == |w.settlements| + 1
                && w'.settlements[..|w.settlements|] == w.settlements
                && w'.settlements[|w.settlements|].attempt == l.at)
  {
  }

  lemma StepKeepsQueue(k: Keyed, w: World, l: Label)
    requires QueueOk(w.stores, w.settlements)
    ensures QueueOk(Step(k, w, l).stores, Step(k, w, l).settlements)
  {
    if l.Settle? && l.at < |w.attempts| && w.attempts[l.at].stage.Verified? && w.stores.row.Some? {
      var a := w.attempts[l.at];
      SettleKeepsQueue(k, w.stores, a.kind, a.raw, a.stage.version, a.stage.verdict,
                       w.settlements, Settlement(l.at, a.stage.version));
    } else {
      OtherStepsKeepUse(k, w, l);
    }
  }

  lemma {:induction false} RunKeepsQueue(k: Keyed, w: World, run: seq<Label>)
    requires QueueOk(w.stores, w.settlements) && SettlersOk(w)
    ensures var w' := Exec(k, w, run); QueueOk(w'.stores, w'.settlements) && SettlersOk(w')
  {
    if run != [] {
      var before := Exec(k, w, run[..|run| - 1]);
      RunKeepsQueue(k, w, run[..|run| - 1]);
      StepKeepsQueue(k, before, run[|run| - 1]);
      StepSettlers(k, before, run[|run| - 1]);
    }
  }

  /**
   In every reachable state, a version that is active and queued for destruction was
   settled by two different attempts: only attempts that share a version can doom it.
   */
  lemma DoomedActiveIsShared(k: Keyed, run: seq<Label>)
    ensures var w := Exec(k, EMPTY, run);
            w.stores.row.Some? && w.stores.row.value.active > 0 && w.stores.row.value.active in w.stores.doomed ==>
              exists i, j :: 0 <= i < j < |w.settlements|
                && w.settlements[i].version == w.stores.row.value.active
                && w.settlements[j].version == w.stores.row.value.active
                && w.settlements[i].attempt != w.settlements[j].attempt
  {
    RunKeepsQueue(k, EMPTY, run);
    var w := Exec(k, EMPTY, run);
    if w.stores.row.Some? && w.stores.row.value.active > 0 && w.stores.row.value.active in w.stores.doomed {
      var i, j :| 0 <= i < j < |w.settlements|
                  && w.settlements[i].version == w.stores.row.value.active
                  && w.settlements[j].version == w.stores.row.value.active;
      assert w.settlements[i].attempt != w.settlements[j].attempt;
    }
  }

  // ----- the service methods -----

  /** A port call may work, fail before acting, or act and lose its reply. */
  datatype Fault = Fine | Dropped | ReplyLost

  /** Any interference that keeps what one attempt may rely on. */
  ghost predicate Tame(k: Keyed, others: (nat, Stores) -> Stores) {
    forall n, s :: Consistent(k, s) ==> Consistent(k, others(n, s)) && Grows(s, others(n, s))
  }

  /** At each point of interference n, the others run in the world that point belongs to. */
  function MachineOthers(k: Keyed, worlds: nat -> World, runs: nat -> seq<Label>): (nat, Stores) -> Stores {
    (n: nat, s: Stores) => if s == worlds(n).stores then Exec(k, worlds(n), runs(n)).stores else s
  }

  /** Whatever other attempts do is tame, in every world that meets the invariant. */
  lemma MachineRunsAreTame(k: Keyed, worlds: nat -> World, runs: nat -> seq<Label>)
    requires forall n :: Inv(k, worlds(n))
    ensures Tame(k, MachineOthers(k, worlds, runs))
  {
    forall n, s | Consistent(k, s)
      ensures Consistent(k, MachineOthers(k, worlds, runs)(n, s)) && Grows(s, MachineOthers(k, worlds, runs)(n, s))
    {
      RunKeepsInv(k, worlds(n), runs(n));
    }
  }

  /** Nobody else acts. */
  ghost predicate Quiet(others: (nat, Stores) -> Stores) {
    forall n, s :: others(n, s) == s
  }

  ghost predicate NoFaults(faults: nat -> Fault) {
    forall n :: faults(n) == Fine
  }

  class ByokService {
    const k: Keyed
    var stores: Stores

    constructor (k: Keyed)
      ensures this.k == k && stores == EMPTY.stores
    {
      this.k := k;
      stores := EMPTY.stores;
    }

    method Interfere(others: (nat, Stores) -> Stores, n: nat)
      requires Consistent(k, stores) && Tame(k, others)
      modifies this
      ensures Quiet(others) ==> stores == old(stores)
      ensures Consistent(k, stores) && Grows(old(stores), stores)
    {
      stores := others(n, stores);
    }

    /** The compare-and-set write: at the expected version or not at all. */
    method CallWriteCas(latest: nat, raw: Secret, fault: Fault) returns (r: Result<nat, Error>)
      requires Consistent(k, stores) && stores.row.Some? && latest <= Recorded(stores)
      modifies this
      ensures Consistent(k, stores) && Grows(old(stores), stores)
      ensures stores == if CasSucceeds(old(stores), latest) && fault != Dropped then Append(old(stores), raw)
                        else old(stores)
      ensures r == if fault != Fine then Err(Unavailable)
                   else if CasSucceeds(old(stores), latest) then Ok(latest + 1) else Err(SecretStoreConflict)
      ensures r.Ok? ==> Holds(k, stores, r.value, k.sum(raw))
    {
      if CasSucceeds(stores, latest) && fault != Dropped {
        AppendKeeps(k, stores, raw);
        stores := Append(stores, raw);
        return if fault == Fine then Ok(latest + 1) else Err(Unavailable);
      }
      return if fault == Fine then Err(SecretStoreConflict) else Err(Unavailable);
    }

    /** After a lost compare-and-set: accepts the current version if it is this credential. */
    method Recognise(
      latest: nat, expectedFingerprint: Fingerprint,
      others: (nat, Stores) -> Stores, faults: nat -> Fault) returns (r: Result<nat, Error>)
      requires Consistent(k, stores) && Tame(k, others)
      modifies this
      ensures Consistent(k, stores) && Grows(old(stores), stores)
      ensures r.Ok? ==> r.value > latest && Holds(k, stores, r.value, expectedFingerprint)
      ensures Quiet(others) ==> stores == old(stores)
      ensures Quiet(others) && NoFaults(faults) && |old(stores).vault| > latest ==>
                r == if Holds(k, stores, |stores.vault|, expectedFingerprint) then Ok(|stores.vault|)
                     else Err(IdempotencyConflict)
      ensures |old(stores).vault| > latest ==> r != Err(SecretStoreConflict)
      ensures r == Err(Unavailable) ==> faults(1) != Fine || faults(2) != Fine
      ensures faults(1) != Fine ==> r == Err(Unavailable)
      ensures r.Err? ==> r.error in {Unavailable, SecretStoreConflict, IdempotencyConflict}
    {
      Interfere(others, 1);
      if faults(1) != Fine {
        return Err(Unavailable);
      }
      var current := |stores.vault|;
      if current <= latest {
        return Err(SecretStoreConflict);
      }
      Interfere(others, 2);
      if faults(2) != Fine {
        return Err(Unavailable);
      }
      var stored := stores.vault[current - 1];
      if k.sum(stored) != expectedFingerprint {
        return Err(IdempotencyConflict);
      }
      return Ok(current);
    }

    /**
     Writes the credential, or recognises it as the version a lost reply left behind.
     The version returned holds a credential with the expected fingerprint.
     */
    method WriteCredentialRecoverably(
      latest: nat, raw: Secret, expectedFingerprint: Fingerprint,
      others: (nat, Stores) -> Stores, faults: nat -> Fault) returns (r: Result<nat, Error>)
      requires Consistent(k, stores) && stores.row.Some? && latest <= Recorded(stores) && Tame(k, others)
      requires expectedFingerprint == k.sum(raw)
      modifies this
      ensures Consistent(k, stores) && Grows(old(stores), stores)
      ensures r.Ok? ==> r.value > latest && Holds(k, stores, r.value, expectedFingerprint)
      ensures r.Err? ==> r.error in {Unavailable, IdempotencyConflict}
      ensures faults(0) != Fine ==> r == Err(Unavailable)
      ensures r == Err(Unavailable) ==> faults(0) != Fine || faults(1) != Fine || faults(2) != Fine
      ensures Quiet(others) ==>
                stores == old(stores) || (CasSucceeds(old(stores), latest) && stores == Append(old(stores), raw))
      ensures Quiet(others) && NoFaults(faults) && latest == Recorded(old(stores)) ==>
                (stores, r) == Written(k, old(stores), raw)
      ensures Quiet(others) && NoFaults(faults) && latest < Recorded(old(stores)) ==>
                && stores == old(stores)
                && r == if Holds(k, stores, |stores.vault|, expectedFingerprint) then Ok(|stores.vault|)
                        else Err(IdempotencyConflict)
    {
      Interfere(others, 0);
      r := CallWriteCas(latest, raw, faults(0));
      if r == Err(SecretStoreConflict) {
        r := Recognise(latest, expectedFingerprint, others, faults);
      }
    }

    method CallPrepare(kind: Kind, raw: Secret, fault: Fault) returns (r: Result<Start, Error>)
      requires Consistent(k, stores)
      modifies this
      ensures Consistent(k, stores) && Grows(old(stores), stores)
      ensures r.Ok? && r.value.Proceed? ==> stores.row.Some? && r.value.latest == Recorded(stores)
      ensures r == Ok(Replay) ==>
                && kind.Create? && stores.row.Some? && stores.row.value.state == Activated
                && Holds(k, stores, stores.row.value.active, k.sum(raw))
      ensures fault == Fine ==> r == Ok(Prepare(k, old(stores), kind, raw).1)
      ensures fault != Fine ==> r == Err(Unavailable)
      ensures stores == if fault == Dropped then old(stores) else Prepare(k, old(stores), kind, raw).0
      ensures stores.vault == old(stores).vault
    {
      PrepareKeeps(k, stores, kind, raw);
      var (prepared, start) := Prepare(k, stores, kind, raw);
      if fault != Dropped {
        stores := prepared;
      }
      return if fault == Fine then Ok(start) else Err(Unavailable);
    }

    method CallRecord(kind: Kind, version: nat, fault: Fault) returns (failed: bool)
      requires Consistent(k, stores) && stores.row.Some? && 1 <= version <= |stores.vault|
      modifies this
      ensures Consistent(k, stores) && Grows(old(stores), stores) && stores.vault == old(stores).vault
      ensures stores == if fault == Dropped then old(stores) else RecordStored(old(stores), kind, version)
      ensures failed <==> fault != Fine
      ensures !failed ==>
                stores.row.value.latest ==
                  (if old(stores).row.value.latest < version then version else old(stores).row.value.latest)
      ensures !failed ==> version <= Recorded(stores)
    {
      RecordKeeps(k, stores, kind, version);
      if fault != Dropped {
        stores := RecordStored(stores, kind, version);
      }
      return fault != Fine;
    }

    method CallSettle(kind: Kind, raw: Secret, version: nat, verdict: Verdict, fault: Fault) returns (r: Option<Error>)
      requires Consistent(k, stores) && stores.row.Some?
      requires version <= Recorded(stores) && Holds(k, stores, version, k.sum(raw))
      modifies this
      ensures Consistent(k, stores) && Grows(old(stores), stores) && stores.vault == old(stores).vault
      ensures r == None ==>
                && verdict == Accepted && stores.status == InUse && stores.row.Some?
                && stores.row.value.active == version && stores.row.value.fingerprint == k.sum(raw)
      ensures fault == Fine ==> (stores, r) == SettleStores(k, old(stores), kind, raw, version, verdict)
      ensures fault == ReplyLost ==> stores == SettleStores(k, old(stores), kind, raw, version, verdict).0
      ensures fault == Dropped ==> stores == old(stores)
      ensures fault != Fine ==> r == Some(Unavailable)
    {
      SettleKeeps(k, stores, kind, raw, version, verdict);
      var (settled, error) := SettleStores(k, stores, kind, raw, version, verdict);
      if fault != Dropped {
        stores := settled;
      }
      return if fault == Fine then error else Some(Unavailable);
    }

    /**
     Creation and rotation: prepare, write recoverably, record, read back, verify and
     settle, with everybody else's steps in between. `sent` is what the provider saw,
     `promoted` what activation or completion was asked for.
     */
    method ApplyCredential(
      kind: Kind, raw: Secret, verdict: Verdict, others: (nat, Stores) -> Stores, faults: nat -> Fault)
      returns (r: Option<Error>, sent: Option<Secret>, promoted: Option<Promotion>)
      requires Consistent(k, stores) && Tame(k, others)
      modifies this
      ensures Consistent(k, stores) && Grows(old(stores), stores)
      ensures sent.Some? ==> k.sum(sent.value) == k.sum(raw)
      ensures promoted.Some? ==>
                && sent.Some?
                && promoted.value.fingerprint == k.sum(raw)
                && Holds(k, stores, promoted.value.version, k.sum(raw))
                && stores.vault[promoted.value.version - 1] == sent.value
                && verdict == Accepted
      ensures r == None && promoted.Some? ==>
                && stores.status == InUse && stores.row.Some?
                && stores.row.value.active == promoted.value.version
                && stores.row.value.fingerprint == k.sum(raw)
      ensures r == None && promoted == None ==>
                && kind.Create? && stores.row.Some? && stores.row.value.state == Activated
                && Holds(k, stores, stores.row.value.active, k.sum(raw))
      ensures faults(3) != Fine ==> r == Some(Unavailable) && sent == None && promoted == None
      ensures Quiet(others) && NoFaults(faults) ==> (stores, r) == Uninterrupted(k, old(stores), kind, raw, verdict)
    {
      sent, promoted := None, None;
      Interfere(others, 3);
      var start := CallPrepare(kind, raw, faults(3));
      if start.Err? {
        return Some(start.error), sent, promoted;
      }
      if start.value.Replay? {
        return None, sent, promoted;
      }
      if start.value.Stop? {
        return Some(start.value.error), sent, promoted;
      }
      r, sent, promoted := WriteAndVerify(kind, raw, start.value.latest, verdict, others, faults);
    }

    /** The part after the preparing call, from the snapshot it returned. */
    method WriteAndVerify(
      kind: Kind, raw: Secret, latest: nat, verdict: Verdict, others: (nat, Stores) -> Stores, faults: nat -> Fault)
      returns (r: Option<Error>, sent: Option<Secret>, promoted: Option<Promotion>)
      requires Consistent(k, stores) && Tame(k, others) && stores.row.Some? && latest <= Recorded(stores)
      modifies this
      ensures Consistent(k, stores) && Grows(old(stores), stores)
      ensures sent.Some? ==> k.sum(sent.value) == k.sum(raw)
      ensures promoted.Some? ==>
                && sent.Some? && verdict == Accepted
                && promoted.value.fingerprint == k.sum(raw)
                && Holds(k, stores, promoted.value.version, k.sum(raw))
                && stores.vault[promoted.value.version - 1] == sent.value
      ensures r == None ==>
                && promoted.Some?
                && stores.status == InUse && stores.row.Some?
                && stores.row.value.active == promoted.value.version
                && stores.row.value.fingerprint == k.sum(raw)
      ensures faults(0) != Fine ==> r == Some(Unavailable) && sent == None
      ensures Quiet(others) && NoFaults(faults) && latest == Recorded(old(stores)) ==>
                (stores, r) == WriteAndSettle(k, old(stores), kind, raw, verdict)
    {
      var written := WriteCredentialRecoverably(latest, raw, k.sum(raw), others, faults);
      if written.Err? {
        return Some(written.error), None, None;
      }
      r, sent, promoted := RecordAndVerify(kind, raw, written.value, verdict, others, faults);
    }

    /** The part after the write: record the version, read it back, verify, settle. */
    method RecordAndVerify(
      kind: Kind, raw: Secret, version: nat, verdict: Verdict, others: (nat, Stores) -> Stores, faults: nat -> Fault)
      returns (r: Option<Error>, sent: Option<Secret>, promoted: Option<Promotion>)
      requires Consistent(k, stores) && Tame(k, others)
      requires stores.row.Some? && Holds(k, stores, version, k.sum(raw))
      modifies this
      ensures Consistent(k, stores) && Grows(old(stores), stores)
      ensures sent.Some? ==> k.sum(sent.value) == k.sum(raw)
      ensures promoted.Some? ==>
                && sent.Some? && verdict == Accepted
                && promoted.value == Promotion(version, k.sum(raw))
                && Holds(k, stores, version, k.sum(raw))
                && stores.vault[version - 1] == sent.value
      ensures r == None ==>
                && promoted.Some?
                && stores.status == InUse && stores.row.Some?
                && stores.row.value.active == version
                && stores.row.value.fingerprint == k.sum(raw)
      ensures faults(4) != Fine || faults(5) != Fine ==> r == Some(Unavailable) && sent == None && promoted == None
      ensures faults(6) != Fine ==> r == Some(Unavailable)
      ensures faults(4) == faults(5) == faults(6) == Fine ==>
                && sent.Some? && promoted.Some? == (verdict == Accepted)
                && match verdict
                   case Accepted => r == None || (kind.Create? && r == Some(NotFound))
                   case Refused => r == Some(CredentialRejected)
                   case Unreachable => r == Some(Unavailable)
      ensures Quiet(others) ==> stores.vault == old(stores).vault
      ensures Quiet(others) && NoFaults(faults) ==>
                && (stores, r) == RecordAndSettle(k, old(stores), kind, raw, version, verdict)
                && sent == Some(old(stores).vault[version - 1])
                && promoted.Some? == (verdict == Accepted)
    {
      sent, promoted := None, None;
      Interfere(others, 4);
      var failed := CallRecord(kind, version, faults(4));
      if failed {
        return Some(Unavailable), sent, promoted;
      }
      Interfere(others, 5);
      if faults(5) != Fine {
        return Some(Unavailable), sent, promoted;
      }
      var storedCredential := stores.vault[version - 1];
      sent := Some(storedCredential);
      Interfere(others, 6);
      if verdict == Accepted {
        promoted := Some(Promotion(version, k.sum(raw)));
      }
      r := CallSettle(kind, raw, version, verdict, faults(6));
    }
  }
}
