/** The catalog refresh worker's retry delay, in 64-bit two's-complement nanoseconds. */
module Backoff {

  const TWO_63: int := 0x8000_0000_0000_0000
  const TWO_64: int := 0x1_0000_0000_0000_0000
  const SECOND: int := 1_000_000_000

  /** The value a 64-bit signed operation keeps of an exact result. */
  function Wrap(x: int): int {
    (x + TWO_63) % TWO_64 - TWO_63
  }

  function Pow2(n: nat): (r: nat)
    ensures r >= 1
  {
    if n == 0 then 1 else 2 * Pow2(n - 1)
  }

  /** The shifted second: both the shift and the product wrap. */
  function Product(attempts: nat): int {
    Wrap(Wrap(Pow2(attempts)) * SECOND)
  }

  function Delay(attempts: nat, maxBackoff: int): int {
    var backoff := Product(attempts);
    if backoff > maxBackoff then maxBackoff else backoff
  }

  function Exact(attempts: nat, maxBackoff: int): int {
    var exact := Pow2(attempts) * SECOND;
    if exact > maxBackoff then maxBackoff else exact
  }

  lemma {:induction false} Pow2Monotone(n: nat, m: nat)
    requires n <= m
    ensures Pow2(n) <= Pow2(m)
    decreases m - n
  {
    if n < m {
      Pow2Monotone(n, m - 1);
    }
  }

  lemma Pow2Of33()
    ensures Pow2(33) == 0x2_0000_0000
  {
    Pow2Adds(16, 17);
    assert Pow2(16) == 0x1_0000 && Pow2(17) == 0x2_0000 by {
      Pow2Adds(8, 8);
      assert Pow2(8) == 256;
    }
  }

  lemma {:induction false} Pow2Adds(n: nat, m: nat)
    ensures Pow2(n + m) == Pow2(n) * Pow2(m)
  {
    if n > 0 {
      Pow2Adds(n - 1, m);
      assert Pow2(n + m) == 2 * Pow2(n - 1 + m);
      assert 2 * (Pow2(n - 1) * Pow2(m)) == (2 * Pow2(n - 1)) * Pow2(m);
    }
  }

  lemma WrapIdle(x: int)
    requires -TWO_63 <= x < TWO_63
    ensures Wrap(x) == x
  {
  }

  /** Up to 33 attempts nothing wraps. */
  lemma ProductIsExact(attempts: nat)
    requires attempts <= 33
    ensures Product(attempts) == Pow2(attempts) * SECOND
    ensures 0 < Product(attempts) < TWO_63
  {
    Pow2Monotone(attempts, 33);
    Pow2Of33();
    WrapIdle(Pow2(attempts));
    WrapIdle(Pow2(attempts) * SECOND);
  }

  /** Beyond 33 attempts the exact delay no longer fits. */
  lemma BeyondTheRange(attempts: nat)
    requires attempts >= 34
    ensures Pow2(attempts) * SECOND >= TWO_63
  {
    Pow2Monotone(34, attempts);
    Pow2Of33();
    assert Pow2(34) == 2 * Pow2(33);
  }

  // ----- the wrapped products -----

  /** A whole number of turns leaves nothing behind. */
  lemma WrapTurns(x: int, turns: int)
    ensures Wrap(x + turns * TWO_64) == Wrap(x)
  {
    var a, b := x + TWO_63, x + TWO_63 + turns * TWO_64;
    var q := a / TWO_64;
    assert a == TWO_64 * q + a % TWO_64;
    assert b == TWO_64 * (q + turns) + a % TWO_64;
  }

  /** Wrapping a factor first makes no difference. */
  lemma WrapFactor(x: int, y: int)
    ensures Wrap(Wrap(x) * y) == Wrap(x * y)
  {
    var turns := (x + TWO_63) / TWO_64;
    assert x + TWO_63 == TWO_64 * turns + (x + TWO_63) % TWO_64;
    assert Wrap(x) == x - turns * TWO_64;
    assert Wrap(x) * y == x * y + (-turns * y) * TWO_64 by {
      assert (x - turns * TWO_64) * y == x * y - turns * TWO_64 * y;
      Commutes(turns, TWO_64, y);
    }
    WrapTurns(x * y, -turns * y);
  }

  lemma Commutes(a: int, b: int, c: int)
    ensures a * b * c == a * c * b
  {
  }

  /** The wrapped products of 34 to 54 attempts. */
  const WRAPPED: seq<int> := [
    -1_266_874_889_709_551_616, -2_533_749_779_419_103_232, -5_067_499_558_838_206_464,
    8_311_744_956_033_138_688, -1_823_254_161_643_274_240, -3_646_508_323_286_548_480,
    -7_293_016_646_573_096_960, 3_860_710_780_563_357_696, 7_721_421_561_126_715_392,
    -3_003_900_951_456_120_832, -6_007_801_902_912_241_664, 6_431_140_267_885_068_288,
    -5_584_463_537_939_415_040, 7_277_816_997_830_721_536, -3_891_110_078_048_108_544,
    -7_782_220_156_096_217_088, 2_882_303_761_517_117_440, 5_764_607_523_034_234_880,
    -6_917_529_027_641_081_856, 4_611_686_018_427_387_904, -9_223_372_036_854_775_808
  ]

  lemma TableDoubles(i: nat)
    requires 0 < i < |WRAPPED|
    ensures WRAPPED[i] == Wrap(2 * WRAPPED[i - 1])
  {
  }

  lemma {:induction false} ProductInTable(attempts: nat)
    requires 34 <= attempts <= 54
    ensures Product(attempts) == WRAPPED[attempts - 34]
  {
    if attempts == 34 {
      WrapFactor(Pow2(34), SECOND);
      Pow2Of33();
      assert Pow2(34) == 2 * Pow2(33);
    } else {
      ProductInTable(attempts - 1);
      ProductDoubles(attempts);
      TableDoubles(attempts - 34);
    }
  }

  lemma ProductDoubles(attempts: nat)
    requires attempts > 0
    ensures Product(attempts) == Wrap(2 * Product(attempts - 1))
  {
    WrapFactor(Pow2(attempts), SECOND);
    WrapFactor(Pow2(attempts - 1), SECOND);
    WrapFactor(Pow2(attempts - 1) * SECOND, 2);
    assert Pow2(attempts) * SECOND == Pow2(attempts - 1) * SECOND * 2;
  }

  /** A second of nanoseconds is divisible by 2 to the 9th: from 55 attempts on nothing is left. */
  lemma {:induction false} ProductVanishes(attempts: nat)
    requires attempts >= 55
    ensures Product(attempts) == 0
  {
    ProductDoubles(attempts);
    if attempts == 55 {
      ProductInTable(54);
    } else {
      ProductVanishes(attempts - 1);
    }
  }

  /** From 55 attempts on a failing job is released with no delay, for ever. */
  lemma NoDelayFrom55(attempts: nat, maxBackoff: int)
    requires attempts >= 55 && maxBackoff > 0
    ensures Delay(attempts, maxBackoff) == 0
  {
    ProductVanishes(attempts);
  }

  /**
   The delay is the exact doubling capped at the maximum if and only if there were at
   most 33 attempts, or at most 54 and the tabulated product reaches the maximum.
   */
  lemma DelayIsExactWhen(attempts: nat, maxBackoff: int)
    requires 0 < maxBackoff < TWO_63
    ensures Delay(attempts, maxBackoff) == Exact(attempts, maxBackoff)
            <==> attempts <= 33 || (attempts <= 54 && maxBackoff <= WRAPPED[attempts - 34])
  {
    if attempts <= 33 {
      ProductIsExact(attempts);
    } else {
      BeyondTheRange(attempts);
      if attempts <= 54 {
        ProductInTable(attempts);
      } else {
        ProductVanishes(attempts);
      }
    }
  }

  /** Within that range more attempts never wait less. */
  lemma DelayMonotone(n: nat, m: nat, maxBackoff: int)
    requires n <= m <= 33 && 0 < maxBackoff < TWO_63
    ensures 0 < Delay(n, maxBackoff) <= Delay(m, maxBackoff) <= maxBackoff
  {
    ProductIsExact(n);
    ProductIsExact(m);
    Pow2Monotone(n, m);
  }

  /** The next attempt is scheduled in the past, whatever the maximum. */
  lemma FirstOverflow(maxBackoff: int)
    requires 0 < maxBackoff
    ensures Delay(34, maxBackoff) == -1_266_874_889_709_551_616
  {
    Pow2Of33();
    assert Pow2(34) == 2 * Pow2(33);
    WrapIdle(Pow2(34));
  }

  datatype Job = Job(id: string, attempts: nat, succeeds: bool)

  datatype Release = Release(id: string, delay: int)

  function Releases(jobs: seq<Job>, maxBackoff: int): seq<Release> {
    if jobs == [] then []
    else
      var last := jobs[|jobs| - 1];
      Releases(jobs[..|jobs| - 1], maxBackoff)
      + (if last.succeeds then [] else [Release(last.id, Delay(last.attempts, maxBackoff))])
  }

  /** The positions of the failed jobs, in order. */
  ghost predicate FailedAt(jobs: seq<Job>, at: seq<nat>) {
    && (forall i | 0 <= i < |at| :: at[i] < |jobs| && !jobs[at[i]].succeeds)
    && (forall i, j | 0 <= i < j < |at| :: at[i] < at[j])
    && (forall k | 0 <= k < |jobs| && !jobs[k].succeeds :: k in at)
  }

  lemma FailedNext(init: seq<Job>, last: Job, at: seq<nat>)
    requires FailedAt(init, at)
    ensures FailedAt(init + [last], at + (if last.succeeds then [] else [|init|]))
  {
    var jobs, next := init + [last], at + (if last.succeeds then [] else [|init|]);
    forall k | 0 <= k < |jobs| && !jobs[k].succeeds ensures k in next {
      if k < |init| {
        assert jobs[k] == init[k] && k in at;
      }
    }
  }

  /** A job's release carries its identifier and the wrapped product, capped. */
  lemma ReleaseByFields(job: Job, maxBackoff: int)
    ensures Release(job.id, Delay(job.attempts, maxBackoff)) ==
              Release(job.id, if Product(job.attempts) > maxBackoff then maxBackoff else Product(job.attempts))
  {
  }

  /**
   The released jobs are exactly the failed ones, in their order, each with the delay of
   its own attempts.
   */
  lemma {:induction false} ReleasesAreTheFailed(jobs: seq<Job>, maxBackoff: int) returns (at: seq<nat>)
    ensures FailedAt(jobs, at) && |at| == |Releases(jobs, maxBackoff)|
    ensures forall i | 0 <= i < |at| ::
              Releases(jobs, maxBackoff)[i] == Release(jobs[at[i]].id, Delay(jobs[at[i]].attempts, maxBackoff))
  {
    if jobs == [] {
      at := [];
    } else {
      var n := |jobs| - 1;
      var before := ReleasesAreTheFailed(jobs[..n], maxBackoff);
      FailedNext(jobs[..n], jobs[n], before);
      assert jobs == jobs[..n] + [jobs[n]];
      at := before + (if jobs[n].succeeds then [] else [n]);
      assert forall i | 0 <= i < |before| :: jobs[..n][before[i]] == jobs[before[i]];
    }
  }

  class CatalogWorker {
    const maxBackoff: int
    var released: seq<Release>

    constructor (maxBackoff: int)
      ensures this.maxBackoff == if maxBackoff <= 0 then 300 * SECOND else maxBackoff
      ensures released == []
    {
      this.maxBackoff := if maxBackoff <= 0 then 300 * SECOND else maxBackoff;
      released := [];
    }

    /** Releases exactly the failed jobs of a batch, in order, each with its delay. */
    method ProcessBatch(jobs: seq<Job>)
      modifies this
      ensures released == old(released) + Releases(jobs, maxBackoff)
    {
      for i := 0 to |jobs|
        invariant released == old(released) + Releases(jobs[..i], maxBackoff)
      {
        var job := jobs[i];
        assert jobs[..i + 1][..i] == jobs[..i];
        if !job.succeeds {
          var backoff := Wrap(Wrap(Pow2(job.attempts)) * SECOND);
          if backoff > maxBackoff {
            backoff := maxBackoff;
          }
          released := released + [Release(job.id, backoff)];
        }
      }
      assert jobs[..|jobs|] == jobs;
    }
  }
}
