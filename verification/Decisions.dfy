/**
 Recorded decisions: each evaluation request identifier is decided at most once, however
 concurrent calls, policy changes, failing stores and lost replies interleave.
 */
module Decisions {
  import opened Prelude
  import opened Policy
  import opened Cel
  import opened Evaluation

  type Hash = string

  datatype Key = Key(tenant: string, requestId: string)

  /** A validated request whose subject is already resolved. */
  datatype Request = Request(key: Key, input: Input)

  datatype Decision = Decision(id: string, key: Key, verdict: Verdict, inputHash: Hash)

  datatype DecisionError = DecisionMismatch | AlreadyRecorded | EvaluationFailed(cause: CelError) | Unavailable

  type Store = map<Key, Decision>

  datatype Stage =
    | Asked
    | NotFound
    | Judged(decision: Decision)
    | Answered(answer: Result<Decision, DecisionError>)

  datatype Inquiry = Inquiry(request: Request, stage: Stage)

  datatype World = World(store: Store, calls: seq<Inquiry>)

  /** Each judgement sees the policies of its own moment. */
  datatype Label =
    | Enter(request: Request)
    | Find(at: nat)
    | Judge(at: nat, engine: Engine, bundles: seq<Bundle>, id: string)
    | Record(at: nat)
    | RecordLost(at: nat)
    | Drop(at: nat)

  /** The answer a lookup gives on a recorded decision. */
  function Found(d: Decision, inputHash: Hash): Result<Decision, DecisionError> {
    if d.inputHash == inputHash then Ok(d) else Err(DecisionMismatch)
  }

  function Judgement(hash: Input -> Hash, r: Request, engine: Engine, bundles: seq<Bundle>, id: string): Stage {
    match Decide(engine, r.input, bundles)
    case Err(e) => Answered(Err(EvaluationFailed(e)))
    case Ok(v) => Judged(Decision(id, r.key, v, hash(r.input)))
  }

  function Step(hash: Input -> Hash, w: World, l: Label): World {
    if l.Enter? then w.(calls := w.calls + [Inquiry(l.request, Asked)])
    else if l.at >= |w.calls| then w
    else
      var c := w.calls[l.at];
      if l.Find? && c.stage.Asked? then
        w.(calls := w.calls[l.at := c.(stage :=
          if c.request.key in w.store then Answered(Found(w.store[c.request.key], hash(c.request.input)))
          else NotFound)])
      else if l.Judge? && c.stage.NotFound? then
        w.(calls := w.calls[l.at := c.(stage := Judgement(hash, c.request, l.engine, l.bundles, l.id))])
      else if (l.Record? || l.RecordLost?) && c.stage.Judged? then
        if c.stage.decision.key in w.store then
          w.(calls := w.calls[l.at := c.(stage := Answered(Err(AlreadyRecorded)))])
        else
          World(w.store[c.stage.decision.key := c.stage.decision],
                w.calls[l.at := c.(stage := Answered(if l.Record? then Ok(c.stage.decision) else Err(Unavailable)))])
      else if l.Drop? && !c.stage.Answered? then
        w.(calls := w.calls[l.at := c.(stage := Answered(Err(Unavailable)))])
      else w
  }

  function Exec(hash: Input -> Hash, w: World, run: seq<Label>): World {
    if run == [] then w else Step(hash, Exec(hash, w, run[..|run| - 1]), run[|run| - 1])
  }

  ghost predicate CallOk(hash: Input -> Hash, store: Store, c: Inquiry) {
    match c.stage
    case Judged(d) => d.key == c.request.key && d.inputHash == hash(c.request.input)
    case Answered(Ok(d)) =>
      && c.request.key in store && store[c.request.key] == d
      && d.inputHash == hash(c.request.input)
    case _ => true
  }

  ghost predicate Inv(hash: Input -> Hash, w: World) {
    && (forall k :: k in w.store ==> w.store[k].key == k)
    && (forall i | 0 <= i < |w.calls| :: CallOk(hash, w.store, w.calls[i]))
  }

  /** Recorded decisions are never replaced or removed. */
  predicate Extends(s: Store, s': Store) {
    forall k :: k in s ==> k in s' && s'[k] == s[k]
  }

  lemma StepKeepsInv(hash: Input -> Hash, w: World, l: Label)
    requires Inv(hash, w)
    ensures Inv(hash, Step(hash, w, l)) && Extends(w.store, Step(hash, w, l).store)
  {
    var w' := Step(hash, w, l);
    forall i | 0 <= i < |w'.calls| ensures CallOk(hash, w'.store, w'.calls[i]) {
      if i < |w.calls| {
        assert CallOk(hash, w.store, w.calls[i]);
      }
    }
  }

  /**
   Write-once: along any run a recorded decision stays as it is, and every call that
   succeeds returns the one recorded for its request, made for an equal input hash.
   */
  lemma {:induction false} DecisionsAreWriteOnce(hash: Input -> Hash, w: World, run: seq<Label>)
    requires Inv(hash, w)
    ensures var w' := Exec(hash, w, run);
            && Inv(hash, w')
            && Extends(w.store, w'.store)
            && forall i | 0 <= i < |w'.calls| && w'.calls[i].stage.Answered? && w'.calls[i].stage.answer.Ok? ::
                 var c := w'.calls[i];
                 && c.request.key in w'.store
                 && c.stage.answer.value == w'.store[c.request.key]
                 && c.stage.answer.value.inputHash == hash(c.request.input)
  {
    if run != [] {
      DecisionsAreWriteOnce(hash, w, run[..|run| - 1]);
      StepKeepsInv(hash, Exec(hash, w, run[..|run| - 1]), run[|run| - 1]);
    }
    var w' := Exec(hash, w, run);
    forall i | 0 <= i < |w'.calls| ensures CallOk(hash, w'.store, w'.calls[i]) {}
  }

  /** Two successes for one request identifier return one decision, and so have one input hash. */
  lemma SuccessesAgree(hash: Input -> Hash, run: seq<Label>, i: nat, j: nat)
    requires var w := Exec(hash, World(map[], []), run);
             && i < |w.calls| && j < |w.calls|
             && w.calls[i].request.key == w.calls[j].request.key
             && w.calls[i].stage.Answered? && w.calls[i].stage.answer.Ok?
             && w.calls[j].stage.Answered? && w.calls[j].stage.answer.Ok?
    ensures var w := Exec(hash, World(map[], []), run);
            && w.calls[i].stage.answer == w.calls[j].stage.answer
            && hash(w.calls[i].request.input) == hash(w.calls[j].request.input)
  {
    DecisionsAreWriteOnce(hash, World(map[], []), run);
  }

  /**
   Once a request is decided, a later lookup answers at once, in every later state: the
   recorded decision for an equal input hash and DecisionMismatch for any other, and
   records nothing.
   */
  lemma LaterLookupsAreSettled(hash: Input -> Hash, w: World, run: seq<Label>, i: nat)
    requires Inv(hash, w)
    requires var w' := Exec(hash, w, run);
             i < |w'.calls| && w'.calls[i].stage.Asked? && w'.calls[i].request.key in w.store
    ensures var w' := Exec(hash, w, run);
            var d := w.store[w'.calls[i].request.key];
            var after := Step(hash, w', Find(i));
            && after.store == w'.store
            && after.calls[i].stage == Answered(
                 if d.inputHash == hash(w'.calls[i].request.input) then Ok(d) else Err(DecisionMismatch))
  {
    DecisionsAreWriteOnce(hash, w, run);
  }

  // ----- where decisions come from -----

  /**
   Somewhere in the run this decision was judged: for a request with its key and input
   hash, on the policies of that moment, which gave exactly its verdict.
   */
  ghost predicate JudgedIn(hash: Input -> Hash, calls: seq<Inquiry>, run: seq<Label>, d: Decision) {
    exists n :: 0 <= n < |run| && JudgedAt(hash, calls, run[n], d)
  }

  ghost predicate JudgedAt(hash: Input -> Hash, calls: seq<Inquiry>, l: Label, d: Decision) {
    && l.Judge? && l.at < |calls|
    && d.key == calls[l.at].request.key
    && d.inputHash == hash(calls[l.at].request.input)
    && d.id == l.id
    && Decide(l.engine, calls[l.at].request.input, l.bundles) == Ok(d.verdict)
  }

  ghost predicate AllJudged(hash: Input -> Hash, w: World, run: seq<Label>) {
    && (forall k :: k in w.store ==> JudgedIn(hash, w.calls, run, w.store[k]))
    && (forall i | 0 <= i < |w.calls| && w.calls[i].stage.Judged? ::
          JudgedIn(hash, w.calls, run, w.calls[i].stage.decision))
  }

  /** Requests of calls never change. */
  lemma RequestsStay(hash: Input -> Hash, w: World, l: Label)
    ensures var w' := Step(hash, w, l);
            |w.calls| <= |w'.calls| && forall i | 0 <= i < |w.calls| :: w'.calls[i].request == w.calls[i].request
  {
  }

  lemma JudgedStays(
    hash: Input -> Hash, calls: seq<Inquiry>, calls': seq<Inquiry>, run: seq<Label>, l: Label, d: Decision)
    requires |calls| <= |calls'| && forall i | 0 <= i < |calls| :: calls'[i].request == calls[i].request
    requires JudgedIn(hash, calls, run, d)
    ensures JudgedIn(hash, calls', run + [l], d)
  {
    var n :| 0 <= n < |run| && JudgedAt(hash, calls, run[n], d);
    assert (run + [l])[n] == run[n] && JudgedAt(hash, calls', run[n], d);
  }

  /** What a step adds to the store or holds in a call was held before, or is judged by it. */
  lemma StepJudges(hash: Input -> Hash, w: World, l: Label)
    ensures var w' := Step(hash, w, l);
            && (forall k :: k in w'.store ==>
                  || (k in w.store && w'.store[k] == w.store[k])
                  || exists i :: 0 <= i < |w.calls| && w.calls[i].stage == Judged(w'.store[k]))
            && (forall i | 0 <= i < |w'.calls| && w'.calls[i].stage.Judged? ::
                  || (i < |w.calls| && w'.calls[i].stage == w.calls[i].stage)
                  || JudgedAt(hash, w'.calls, l, w'.calls[i].stage.decision))
  {
    if (l.Record? || l.RecordLost?) && l.at < |w.calls| && w.calls[l.at].stage.Judged? {
      assert w.calls[l.at].stage == Judged(w.calls[l.at].stage.decision);
    }
  }

  lemma StepKeepsJudged(hash: Input -> Hash, w: World, run: seq<Label>, l: Label)
    requires AllJudged(hash, w, run)
    ensures AllJudged(hash, Step(hash, w, l), run + [l])
  {
    var w' := Step(hash, w, l);
    RequestsStay(hash, w, l);
    StepJudges(hash, w, l);
    forall k | k in w'.store ensures JudgedIn(hash, w'.calls, run + [l], w'.store[k]) {
      JudgedStays(hash, w.calls, w'.calls, run, l, w'.store[k]);
    }
    forall i | 0 <= i < |w'.calls| && w'.calls[i].stage.Judged?
      ensures JudgedIn(hash, w'.calls, run + [l], w'.calls[i].stage.decision)
    {
      if i < |w.calls| && w'.calls[i].stage == w.calls[i].stage {
        JudgedStays(hash, w.calls, w'.calls, run, l, w'.calls[i].stage.decision);
      } else {
        assert (run + [l])[|run|] == l;
      }
    }
  }

  /**
   Every decision recorded along a run was judged in it: its verdict is the one `Decide`
   gave for the input of a request with its key, on the policies of that moment, and its
   input hash is that input's.
   */
  lemma {:induction false} RecordedIsJudged(hash: Input -> Hash, run: seq<Label>)
    ensures AllJudged(hash, Exec(hash, World(map[], []), run), run)
  {
    if run != [] {
      var init := run[..|run| - 1];
      RecordedIsJudged(hash, init);
      StepKeepsJudged(hash, Exec(hash, World(map[], []), init), init, run[|run| - 1]);
      assert run == init + [run[|run| - 1]];
    }
  }

  /** Recording: the first one stands, and a later one is turned away and changes nothing. */
  lemma RecordByFields(hash: Input -> Hash, w: World, i: nat)
    requires i < |w.calls| && w.calls[i].stage.Judged?
    ensures var d, w' := w.calls[i].stage.decision, Step(hash, w, Record(i));
            && (d.key !in w.store ==>
                  w'.store == w.store[d.key := d] && w'.calls[i].stage == Answered(Ok(d)))
            && (d.key in w.store ==>
                  w'.store == w.store && w'.calls[i].stage == Answered(Err(AlreadyRecorded)))
            && (d.key !in w.store ==>
                  && Step(hash, w, RecordLost(i)).store == w.store[d.key := d]
                  && Step(hash, w, RecordLost(i)).calls[i].stage == Answered(Err(Unavailable)))
            && Step(hash, w, Drop(i)).store == w.store
            && Step(hash, w, Drop(i)).calls[i].stage == Answered(Err(Unavailable))
  {
  }

  /** The steps of one inquiry. */
  function InquiryRun(i: nat, engine: Engine, bundles: seq<Bundle>, id: string): seq<Label> {
    [Find(i)] + [Judge(i, engine, bundles, id)] + [Record(i)]
  }

  /** An inquiry that runs alone: what it answers and what is recorded, in every case. */
  lemma InquiryAlone(hash: Input -> Hash, w: World, i: nat, engine: Engine, bundles: seq<Bundle>, id: string)
    requires i < |w.calls| && w.calls[i].stage.Asked?
    ensures var r, w' := w.calls[i].request, Exec(hash, w, InquiryRun(i, engine, bundles, id));
            && i < |w'.calls|
            && (r.key in w.store ==>
                  && w'.store == w.store
                  && w'.calls[i].stage == Answered(
                       if w.store[r.key].inputHash == hash(r.input) then Ok(w.store[r.key]) else Err(DecisionMismatch)))
            && (r.key !in w.store ==>
                  match Decide(engine, r.input, bundles)
                  case Err(e) => w'.store == w.store && w'.calls[i].stage == Answered(Err(EvaluationFailed(e)))
                  case Ok(v) =>
                    var d := Decision(id, r.key, v, hash(r.input));
                    w'.store == w.store[r.key := d] && w'.calls[i].stage == Answered(Ok(d)))
  {
    var a, b, c := [Find(i)], [Find(i)] + [Judge(i, engine, bundles, id)], InquiryRun(i, engine, bundles, id);
    assert a[..0] == [] && b[..1] == a && c[..2] == b;
    assert Exec(hash, w, []) == w;
    assert Exec(hash, w, a) == Step(hash, w, Find(i));
    assert Exec(hash, w, b) == Step(hash, Exec(hash, w, a), Judge(i, engine, bundles, id));
    assert Exec(hash, w, c) == Step(hash, Exec(hash, w, b), Record(i));
  }

  // ----- the service method -----

  class DecisionService {
    const evaluator: PolicyEvaluator
    const hash: Input -> Hash
    var store: Store

    constructor (evaluator: PolicyEvaluator, hash: Input -> Hash)
      ensures this.evaluator == evaluator && this.hash == hash && store == map[]
    {
      this.evaluator := evaluator;
      this.hash := hash;
      store := map[];
    }

    /**
     Looks the request up, evaluates it on the policies of the moment and records the
     decision, unless another call (one of `raced`) has recorded one meanwhile.
     */
    method Evaluate(request: Request, bundles: seq<Bundle>, id: string, raced: Store)
      returns (r: Result<Decision, DecisionError>, ghost ordered: seq<Bundle>)
      requires evaluator.cel.Valid() && forall b :: b in bundles ==> ColonFree(b)
      requires evaluator.cel as object != this
      modifies this, evaluator.cel
      ensures evaluator.cel.Valid() && Extends(old(store), store)
      ensures request.key in old(store) ==>
                && store == old(store)
                && r == if old(store)[request.key].inputHash == hash(request.input) then Ok(old(store)[request.key])
                        else Err(DecisionMismatch)
      ensures r.Ok? ==>
                && request.key in store && store[request.key] == r.value
                && r.value.inputHash == hash(request.input)
      ensures request.key !in old(store) ==>
                && ArrangedAll(bundles, ordered)
                && match Decide(evaluator.cel.engine, request.input, ordered)
                   case Err(e) => r == Err(EvaluationFailed(e)) && store == old(store)
                   case Ok(v) =>
                     if request.key in raced then r == Err(AlreadyRecorded) && store == raced + old(store)
                     else
                       var decision := Decision(id, request.key, v, hash(request.input));
                       r == Ok(decision) && store == (raced + old(store))[request.key := decision]
    {
      ordered := [];
      var inputHash := hash(request.input);
      if request.key in store {
        return Found(store[request.key], inputHash), ordered;
      }
      var result;
      result, ordered := evaluator.Evaluate(request.input, bundles);
      if result.Err? {
        return Err(EvaluationFailed(result.error)), ordered;
      }
      var decision := Decision(id, request.key, result.value, inputHash);
      store := raced + store;
      if request.key in store {
        return Err(AlreadyRecorded), ordered;
      }
      store := store[request.key := decision];
      return Ok(decision), ordered;
    }
  }
}
