/**
 Condition evaluation behind a compile cache. Compiling and running are parameters:
 any deterministic compiler and any deterministic program semantics.
 */
module Cel {
  import opened Prelude
  import opened Policy

  /** A handle to a compiled program. */
  type Program = nat

  datatype CelError = InvalidExpression | CostExceeded

  datatype Outcome = Decided(value: bool) | Failed(error: CelError)

  datatype Engine = Engine(compile: string -> Option<Program>, run: (Program, Input) -> Outcome)

  /** Evaluation without a cache. */
  function Direct(engine: Engine, condition: string, input: Input): Outcome {
    match engine.compile(condition)
    case None => Failed(InvalidExpression)
    case Some(p) => engine.run(p, input)
  }

  function Digits(n: nat): string {
    if n < 10 then [('0' as int + n) as char] else Digits(n / 10) + [('0' as int + n % 10) as char]
  }

  function Decimal(n: int): string {
    if n < 0 then "-" + Digits(-n) else Digits(n)
  }

  datatype Source = Source(policyId: string, version: int, ruleId: string, condition: string)

  function Key(s: Source): string {
    s.policyId + ":" + Decimal(s.version) + ":" + s.ruleId + ":" + s.condition
  }

  predicate WellNamed(s: Source) {
    ':' !in s.policyId && ':' !in s.ruleId
  }

  lemma {:induction false} DigitsHaveNoColon(n: nat)
    ensures ':' !in Digits(n)
  {
    if n >= 10 {
      DigitsHaveNoColon(n / 10);
    }
  }

  /** The number a text of digits stands for. */
  function ValueOf(s: string): int {
    if s == [] then 0 else 10 * ValueOf(s[..|s| - 1]) + (s[|s| - 1] as int - '0' as int)
  }

  lemma {:induction false} DigitsRoundTrip(n: nat)
    ensures ValueOf(Digits(n)) == n && Digits(n) != [] && Digits(n)[0] != '-'
  {
    if n < 10 {
      assert Digits(n)[..0] == [];
    } else {
      var last := [('0' as int + n % 10) as char];
      DigitsRoundTrip(n / 10);
      assert Digits(n) == Digits(n / 10) + last;
      assert Digits(n)[..|Digits(n)| - 1] == Digits(n / 10);
    }
  }

  /** Different numbers are printed differently. */
  lemma DecimalDetermines(m: int, n: int)
    requires Decimal(m) == Decimal(n)
    ensures m == n
  {
    DigitsRoundTrip(if m < 0 then -m else m);
    DigitsRoundTrip(if n < 0 then -n else n);
    if m < 0 {
      assert Decimal(m)[0] == '-' && Decimal(m)[1..] == Digits(-m);
    }
    if n < 0 {
      assert Decimal(n)[0] == '-' && Decimal(n)[1..] == Digits(-n);
    }
  }

  lemma {:induction false} SplitAtColon(a: string, rest: string, a': string, rest': string)
    requires ':' !in a && ':' !in a'
    requires a + ":" + rest == a' + ":" + rest'
    ensures a == a' && rest == rest'
  {
    var s, s' := a + ":" + rest, a' + ":" + rest';
    assert s[0] == s'[0];
    assert s[0] == if a == [] then ':' else a[0];
    assert s'[0] == if a' == [] then ':' else a'[0];
    assert a != [] ==> a[0] in a;
    assert a' != [] ==> a'[0] in a';
    if a == [] {
      assert a' == [];
      assert s[1..] == rest && s'[1..] == rest';
    } else {
      assert s[0] == a[0] && s'[0] == a'[0];
      assert s[1..] == a[1..] + ":" + rest && s'[1..] == a'[1..] + ":" + rest';
      SplitAtColon(a[1..], rest, a'[1..], rest');
      assert a == [a[0]] + a[1..] && a' == [a'[0]] + a'[1..];
    }
  }

  /** The printed key determines all it is printed from, when identifiers hold no colon. */
  lemma KeyDeterminesCondition(s: Source, s': Source)
    requires WellNamed(s) && WellNamed(s') && Key(s) == Key(s')
    ensures s == s'
  {
    DigitsHaveNoColon(if s.version < 0 then -s.version else s.version);
    DigitsHaveNoColon(if s'.version < 0 then -s'.version else s'.version);
    var tail, tail' := s.ruleId + ":" + s.condition, s'.ruleId + ":" + s'.condition;
    var body, body' := Decimal(s.version) + ":" + tail, Decimal(s'.version) + ":" + tail';
    assert Key(s) == s.policyId + ":" + body && Key(s') == s'.policyId + ":" + body';
    SplitAtColon(s.policyId, body, s'.policyId, body');
    SplitAtColon(Decimal(s.version), tail, Decimal(s'.version), tail');
    SplitAtColon(s.ruleId, s.condition, s'.ruleId, s'.condition);
    DecimalDetermines(s.version, s'.version);
  }

  /** Any rule identifier with a colon shares its key with another rule's condition. */
  lemma ColonCollides(s: Source, at: nat)
    requires at < |s.ruleId| && s.ruleId[at] == ':'
    ensures var s' := s.(ruleId := s.ruleId[..at], condition := s.ruleId[at + 1..] + ":" + s.condition);
            Key(s') == Key(s) && s'.condition != s.condition
  {
    var head, tail := s.ruleId[..at], s.ruleId[at + 1..];
    assert s.ruleId == head + ":" + tail;
    var s' := s.(ruleId := head, condition := tail + ":" + s.condition);
    var front := s.policyId + ":" + Decimal(s.version) + ":";
    assert Key(s) == front + (head + ":" + tail) + ":" + s.condition;
    assert Key(s') == front + head + ":" + (tail + ":" + s.condition);
    assert |s'.condition| > |s.condition|;
  }

  type Cache = map<string, Program>

  /** Among the sources ever asked about, the printed key determines the condition. */
  ghost predicate Separate(asked: iset<Source>) {
    forall s, t | s in asked && t in asked && Key(s) == Key(t) :: s.condition == t.condition
  }

  ghost const WELL_NAMED: iset<Source> := iset s: Source | WellNamed(s)

  lemma WellNamedAreSeparate()
    ensures Separate(WELL_NAMED)
  {
    forall s, t | s in WELL_NAMED && t in WELL_NAMED && Key(s) == Key(t) ensures s.condition == t.condition {
      KeyDeterminesCondition(s, t);
    }
  }

  /** Every cached program is what compiling the condition behind its key gives. */
  ghost predicate Faithful(engine: Engine, asked: iset<Source>, cache: Cache) {
    forall s | s in asked && Key(s) in cache :: engine.compile(s.condition) == Some(cache[Key(s)])
  }

  lemma StoreStaysFaithful(engine: Engine, asked: iset<Source>, cache: Cache, s: Source, p: Program)
    requires Faithful(engine, asked, cache) && Separate(asked) && s in asked && engine.compile(s.condition) == Some(p)
    ensures Faithful(engine, asked, cache[Key(s) := p])
  {
    forall t | t in asked && Key(t) in cache[Key(s) := p]
      ensures engine.compile(t.condition) == Some(cache[Key(s) := p][Key(t)])
    {
      if Key(t) == Key(s) {
        assert t.condition == s.condition;
      }
    }
  }

  /** The caching evaluator of the source. */
  class Evaluator {
    const engine: Engine
    var cache: Cache

    constructor (engine: Engine)
      ensures Valid() && this.engine == engine && cache == map[]
    {
      this.engine := engine;
      cache := map[];
    }

    ghost predicate Valid()
      reads this
    {
      Faithful(engine, WELL_NAMED, cache)
    }

    /** The cache is invisible, and no entry is ever replaced. */
    method Evaluate(cacheKey: string, expression: string, input: Input, ghost source: Source) returns (r: Outcome)
      requires Valid() && WellNamed(source)
      requires cacheKey == Key(source) && expression == source.condition
      modifies this
      ensures Valid()
      ensures r == Direct(engine, expression, input)
      ensures match engine.compile(expression)
              case None => r == Failed(InvalidExpression) && cache == old(cache)
              case Some(p) => r == engine.run(p, input) && cacheKey in cache && cache[cacheKey] == p
      ensures old(cache.Items) <= cache.Items
      ensures cache.Keys <= old(cache.Keys) + {cacheKey}
    {
      var program: Program;
      if cacheKey in cache {
        program := cache[cacheKey];
      } else {
        var compiled := engine.compile(expression);
        if compiled == None {
          return Failed(InvalidExpression);
        }
        WellNamedAreSeparate();
        StoreStaysFaithful(engine, WELL_NAMED, cache, source, compiled.value);
        cache := cache[cacheKey := compiled.value];
        program := compiled.value;
      }
      return engine.run(program, input);
    }
  }

  // ----- concurrent calls -----

  /** Where a call stands between its accesses to the shared cache. */
  datatype Stage =
    | Entered
    | Missed
    | Compiled(made: Program)
    | Holding(program: Program)
    | Returned(outcome: Outcome)

  datatype Call = Call(source: Source, input: Input, stage: Stage)

  datatype Shared = Shared(cache: Cache, calls: seq<Call>)

  /** One step of one call, or a new call. */
  datatype Label =
    | Enter(source: Source, input: Input)
    | Load(at: nat)
    | Compile(at: nat)
    | LoadOrStore(at: nat)
    | Run(at: nat)

  /** A label that does not apply leaves the state alone. */
  function Step(engine: Engine, s: Shared, l: Label): Shared {
    if l.Enter? then s.(calls := s.calls + [Call(l.source, l.input, Entered)])
    else if l.at >= |s.calls| then s
    else
      var c := s.calls[l.at];
      match (l, c.stage)
      case (Load(at), Entered) =>
        var stage := if Key(c.source) in s.cache then Holding(s.cache[Key(c.source)]) else Missed;
        s.(calls := s.calls[at := c.(stage := stage)])
      case (Compile(at), Missed) =>
        var stage := match engine.compile(c.source.condition)
          case Some(p) => Compiled(p)
          case None => Returned(Failed(InvalidExpression));
        s.(calls := s.calls[at := c.(stage := stage)])
      case (LoadOrStore(at), Compiled(p)) =>
        var cache := if Key(c.source) in s.cache then s.cache else s.cache[Key(c.source) := p];
        Shared(cache, s.calls[at := c.(stage := Holding(cache[Key(c.source)]))])
      case (Run(at), Holding(p)) =>
        s.(calls := s.calls[at := c.(stage := Returned(engine.run(p, c.input)))])
      case _ => s
  }

  function Exec(engine: Engine, s: Shared, run: seq<Label>): Shared
    decreases |run|
  {
    if run == [] then s else Exec(engine, Step(engine, s, run[0]), run[1..])
  }

  ghost predicate CallOk(engine: Engine, asked: iset<Source>, c: Call) {
    && c.source in asked
    && match c.stage
       case Compiled(p) => engine.compile(c.source.condition) == Some(p)
       case Holding(p) => engine.compile(c.source.condition) == Some(p)
       case Returned(o) => o == Direct(engine, c.source.condition, c.input)
       case _ => true
  }

  ghost predicate Inv(engine: Engine, asked: iset<Source>, s: Shared) {
    Faithful(engine, asked, s.cache) && forall c :: c in s.calls ==> CallOk(engine, asked, c)
  }

  lemma StepKeepsInv(engine: Engine, asked: iset<Source>, s: Shared, l: Label)
    requires Inv(engine, asked, s) && Separate(asked)
    requires l.Enter? ==> l.source in asked
    ensures Inv(engine, asked, Step(engine, s, l))
    ensures s.cache.Items <= Step(engine, s, l).cache.Items
  {
    var s' := Step(engine, s, l);
    if !l.Enter? && l.at < |s.calls| {
      var c := s.calls[l.at];
      assert CallOk(engine, asked, c);
      if l.LoadOrStore? && c.stage.Compiled? {
        StoreStaysFaithful(engine, asked, s.cache, c.source, c.stage.made);
      }
      assert CallOk(engine, asked, s'.calls[l.at]);
    }
  }

  ghost predicate Asks(run: seq<Label>, asked: iset<Source>) {
    forall l :: l in run && l.Enter? ==> l.source in asked
  }

  /** Every call that has returned gave what its own condition gives. */
  ghost predicate AllDirect(engine: Engine, s: Shared) {
    forall c :: c in s.calls && c.stage.Returned? ==> c.stage.outcome == Direct(engine, c.source.condition, c.input)
  }

  /**
   However concurrent calls interleave their load, compile and store steps, each one
   that returns gives what compiling and evaluating its own condition gives, and no
   cache entry is ever replaced.
   */
  lemma {:induction false} InterleavedCallsAreDirect(engine: Engine, asked: iset<Source>, s: Shared, run: seq<Label>)
    requires Inv(engine, asked, s) && Separate(asked) && Asks(run, asked)
    ensures var t := Exec(engine, s, run);
            Inv(engine, asked, t) && s.cache.Items <= t.cache.Items && AllDirect(engine, t)
    decreases |run|
  {
    if run == [] {
      forall c | c in s.calls && c.stage.Returned?
        ensures c.stage.outcome == Direct(engine, c.source.condition, c.input)
      {
        assert CallOk(engine, asked, c);
      }
    } else {
      assert run[0] in run;
      StepKeepsInv(engine, asked, s, run[0]);
      InterleavedCallsAreDirect(engine, asked, Step(engine, s, run[0]), run[1..]);
    }
  }

  const EMPTY := Shared(map[], [])

  /**
   The cache is invisible in every history, under every compiler, if and only if no two
   of the sources asked about print one key for two conditions.
   */
  lemma CacheInvisibleExactly(asked: iset<Source>)
    ensures Separate(asked)
            <==> forall engine: Engine, run: seq<Label> | Asks(run, asked) ::
                   AllDirect(engine, Exec(engine, EMPTY, run))
  {
    if Separate(asked) {
      forall engine: Engine, run: seq<Label> | Asks(run, asked) ensures AllDirect(engine, Exec(engine, EMPTY, run)) {
        InterleavedCallsAreDirect(engine, asked, EMPTY, run);
      }
    } else {
      var s, t :| s in asked && t in asked && Key(s) == Key(t) && s.condition != t.condition;
      var engine, run := CollisionShows(s, t);
      assert Asks(run, asked);
      assert !AllDirect(engine, Exec(engine, EMPTY, run));
    }
  }

  const SOME_INPUT := Input("", "", "", "", "", 0, map[])

  /** A history that sees through the cache when two conditions share a key. */
  lemma CollisionShows(s: Source, t: Source) returns (engine: Engine, run: seq<Label>)
    requires Key(s) == Key(t) && s.condition != t.condition
    ensures forall l :: l in run && l.Enter? ==> l.source == s || l.source == t
    ensures !AllDirect(engine, Exec(engine, EMPTY, run))
  {
    engine := Engine(c => Some(if c == s.condition then 0 else 1), (p, i) => Decided(p == 0));
    var tail := [Enter(t, SOME_INPUT), Load(1), Run(1)];
    run := [Enter(s, SOME_INPUT), Load(0), Compile(0), LoadOrStore(0)] + tail;
    var cache: Cache := map[Key(s) := 0];
    var first := Call(s, SOME_INPUT, Holding(0));
    FirstCallFills(engine, s, tail);
    var a := Shared(cache, [first]);
    var b := Shared(cache, [first, Call(t, SOME_INPUT, Entered)]);
    assert Step(engine, a, tail[0]) == b;
    var c := Shared(cache, [first, Call(t, SOME_INPUT, Holding(0))]);
    assert Step(engine, b, tail[1]) == c;
    var last := Call(t, SOME_INPUT, Returned(Decided(true)));
    var d := Shared(cache, [first, last]);
    assert Step(engine, c, tail[2]) == d;
    ExecThree(engine, a, tail[0], tail[1], tail[2], []);
    assert tail == [tail[0], tail[1], tail[2]] + [];
    assert Exec(engine, EMPTY, run) == d;
    assert last == d.calls[1];
    assert Direct(engine, t.condition, SOME_INPUT) == Decided(false);
  }

  /** A first call under an empty cache enters its program. */
  lemma FirstCallFills(engine: Engine, s: Source, tail: seq<Label>)
    requires engine.compile(s.condition).Some?
    ensures var p := engine.compile(s.condition).value;
            Exec(engine, EMPTY, [Enter(s, SOME_INPUT), Load(0), Compile(0), LoadOrStore(0)] + tail)
            == Exec(engine, Shared(map[Key(s) := p], [Call(s, SOME_INPUT, Holding(p))]), tail)
  {
    var p := engine.compile(s.condition).value;
    var ls := [Enter(s, SOME_INPUT), Load(0), Compile(0), LoadOrStore(0)] + tail;
    var call := Call(s, SOME_INPUT, Entered);
    assert Step(engine, EMPTY, ls[0]) == Shared(map[], [call]);
    assert Step(engine, Shared(map[], [call]), ls[1]) == Shared(map[], [call.(stage := Missed)]);
    assert Step(engine, Shared(map[], [call.(stage := Missed)]), ls[2]) == Shared(map[], [call.(stage := Compiled(p))]);
    assert Step(engine, Shared(map[], [call.(stage := Compiled(p))]), ls[3])
        == Shared(map[Key(s) := p], [call.(stage := Holding(p))]);
    ExecThree(engine, EMPTY, ls[0], ls[1], ls[2], ls[3..]);
    assert ls == [ls[0], ls[1], ls[2]] + ls[3..];
    assert ls[3..][1..] == tail;
  }

  lemma ExecThree(engine: Engine, s: Shared, a: Label, b: Label, c: Label, rest: seq<Label>)
    ensures Exec(engine, s, [a, b, c] + rest)
         == Exec(engine, Step(engine, Step(engine, Step(engine, s, a), b), c), rest)
  {
    var ls := [a, b, c] + rest;
    assert ls[1..] == [b, c] + rest && ls[1..][1..] == [c] + rest && ls[1..][1..][1..] == rest;
    assert Exec(engine, s, ls) == Exec(engine, Step(engine, s, a), ls[1..]);
    assert Exec(engine, Step(engine, s, a), ls[1..]) == Exec(engine, Step(engine, Step(engine, s, a), b), ls[1..][1..]);
  }
}
