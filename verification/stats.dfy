/** Whole-percent rounding as `Math.round(k / n * 100)` computes it for counts. */
module Rounding {
  import opened Arith

  /** `r` is `100 * k / n` rounded to the nearest integer, halves rounding up:
      `r - 1/2 <= 100 * k / n < r + 1/2`, multiplied through by `2 * n`. */
  ghost predicate IsRoundedPercent(r: int, k: int, n: int)
  {
    n > 0 && 2 * n * r - n <= 200 * k < 2 * n * r + n
  }

  /** `Math.round(k / n * 100)` for counts, in exact integer arithmetic. */
  function RoundPercent(k: nat, n: nat): (r: nat)
    requires n > 0
    ensures IsRoundedPercent(r, k, n)
    ensures k <= n ==> r <= 100
    ensures k == 0 ==> r == 0
    ensures k == n ==> r == 100
  {
    var q := (200 * k + n) / (2 * n);
    QuotientIsRoundedPercent(k, n, q);
    q
  }

  lemma QuotientIsRoundedPercent(k: nat, n: nat, q: int)
    requires n > 0 && q == (200 * k + n) / (2 * n)
    ensures IsRoundedPercent(q, k, n)
    ensures k <= n ==> q <= 100
    ensures k == 0 ==> q == 0
    ensures k == n ==> q == 100
  {
    DivBounds(200 * k + n, 2 * n, q);
    if k <= n && q > 100 {
      MulMonotone(2 * n, 101, q);
    }
    if k == 0 {
      assert 2 * n * q <= n < 2 * n * 1;
      MulMonotoneStrict(2 * n, q, 1);
      assert 2 * n * (-1) < 2 * n * q;
      MulMonotoneStrict(2 * n, -1, q);
    }
    if k == n {
      assert 2 * n * q < 2 * n * 101;
      MulMonotoneStrict(2 * n, q, 101);
      assert 2 * n * 99 < 2 * n * q;
      MulMonotoneStrict(2 * n, 99, q);
    }
  }

  /** The Euclidean quotient of `x` by a positive `m` brackets `x` between consecutive
      multiples of `m`. */
  lemma DivBounds(x: int, m: int, q: int)
    requires m > 0 && q == x / m
    ensures m * q <= x < m * q + m
  {
  }

  /** At most one integer is the rounded percentage of `k / n`. */
  lemma RoundedPercentUnique(r1: int, r2: int, k: int, n: int)
    requires IsRoundedPercent(r1, k, n) && IsRoundedPercent(r2, k, n)
    ensures r1 == r2
  {
    if r1 < r2 {
      MulMonotone(2 * n, r1 + 1, r2);
    } else if r2 < r1 {
      MulMonotone(2 * n, r2 + 1, r1);
    }
  }

  /** Rounding a larger share never gives a smaller percentage. */
  lemma RoundPercentMonotone(k1: nat, k2: nat, n: nat)
    requires n > 0 && k1 <= k2
    ensures RoundPercent(k1, n) <= RoundPercent(k2, n)
  {
    var r1, r2 := RoundPercent(k1, n), RoundPercent(k2, n);
    if r2 < r1 {
      MulMonotone(2 * n, r2 + 1, r1);
    }
  }
}

/** `getExecutionStats`: type and status counts and four percentage rates over a list of
    execution records (src/data/mockData.ts:426-446). */
module Stats {
  import opened Seqs
  import opened Executions
  import opened Rounding

  datatype ExecutionStats = ExecutionStats(
    total: nat,
    normal: nat,
    replay: nat,
    shadow: nat,
    success: nat,
    failed: nat,
    replayRate: nat,
    shadowRate: nat,
    successRate: nat,
    debugRate: nat
  )

  /** A rate as the source writes it: the rounded percentage when there are records, else 0. */
  function Rate(k: nat, total: nat): nat
  {
    if total > 0 then RoundPercent(k, total) else 0
  }

  /** What a rate means: 0 for an empty list, otherwise `k / total` as a rounded percentage. */
  ghost predicate IsRate(rate: nat, k: nat, total: nat)
  {
    if total == 0 then rate == 0 else IsRoundedPercent(rate, k, total) && rate <= 100
  }

  function GetExecutionStats(execs: seq<Execution>): (st: ExecutionStats)
    ensures st.total == |execs|
    ensures st.normal == CountKind(execs, Normal)
    ensures st.replay == CountKind(execs, Replay)
    ensures st.shadow == CountKind(execs, Shadow)
    ensures st.success == CountStatus(execs, Success)
    ensures st.failed == CountStatus(execs, Failed)
    ensures st.normal + st.replay + st.shadow == st.total
    ensures st.success + st.failed <= st.total
    ensures st.success + st.failed == st.total <==>
              forall i :: 0 <= i < |execs| ==> execs[i].status != Running
    ensures IsRate(st.replayRate, st.replay, st.total)
    ensures IsRate(st.shadowRate, st.shadow, st.total)
    ensures IsRate(st.successRate, st.success, st.total)
    ensures IsRate(st.debugRate, st.total - st.normal, st.total)
  {
    var total := |execs|;
    var normal := CountKind(execs, Normal);
    var replay := CountKind(execs, Replay);
    var shadow := CountKind(execs, Shadow);
    var success := CountStatus(execs, Success);
    var failed := CountStatus(execs, Failed);
    KindCountsPartition(execs);
    StatusCountsPartition(execs);
    CountIfNoneOrAll(execs, HasStatus(Running));
    assert CountStatus(execs, Running) == 0 <==>
             forall i :: 0 <= i < |execs| ==> !HasStatus(Running)(execs[i]);
    FromCounts(total, normal, replay, shadow, success, failed)
  }

  /** The record `getExecutionStats` returns, given its six counts; `debugRate` is the
      share of REPLAY and SHADOW records together. */
  function FromCounts(total: nat, normal: nat, replay: nat, shadow: nat, success: nat, failed: nat): ExecutionStats
  {
    ExecutionStats(
      total, normal, replay, shadow, success, failed,
      Rate(replay, total),
      Rate(shadow, total),
      Rate(success, total),
      Rate(replay + shadow, total))
  }

  /** Equal lengths and equal type and status counts give equal statistics. */
  lemma StatsFromCounts(a: seq<Execution>, b: seq<Execution>)
    requires |a| == |b|
    requires CountKind(a, Normal) == CountKind(b, Normal)
    requires CountKind(a, Replay) == CountKind(b, Replay)
    requires CountKind(a, Shadow) == CountKind(b, Shadow)
    requires CountStatus(a, Success) == CountStatus(b, Success)
    requires CountStatus(a, Failed) == CountStatus(b, Failed)
    ensures GetExecutionStats(a) == GetExecutionStats(b)
  {
  }

  /** The statistics are a function of the multiset of records: reordering the input
      changes no field. */
  lemma StatsIgnoreOrder(a: seq<Execution>, b: seq<Execution>)
    requires multiset(a) == multiset(b)
    ensures GetExecutionStats(a) == GetExecutionStats(b)
  {
    assert |a| == |multiset(a)| == |multiset(b)| == |b|;
    CountIfPermutation(a, b, IsKind(Normal));
    CountIfPermutation(a, b, IsKind(Replay));
    CountIfPermutation(a, b, IsKind(Shadow));
    CountIfPermutation(a, b, HasStatus(Success));
    CountIfPermutation(a, b, HasStatus(Failed));
    StatsFromCounts(a, b);
  }
  /** The `(type, status)` pair of every record, in order. */
  function Kinds(s: seq<Execution>): (ks: seq<(ExecutionType, ExecutionStatus)>)
    ensures |ks| == |s|
    ensures forall i :: 0 <= i < |s| ==> ks[i] == (s[i].kind, s[i].status)
  {
    seq(|s|, i requires 0 <= i < |s| => (s[i].kind, s[i].status))
  }

  function PairIsKind(t: ExecutionType): ((ExecutionType, ExecutionStatus)) -> bool
  {
    (k: (ExecutionType, ExecutionStatus)) => k.0 == t
  }

  function PairHasStatus(st: ExecutionStatus): ((ExecutionType, ExecutionStatus)) -> bool
  {
    (k: (ExecutionType, ExecutionStatus)) => k.1 == st
  }

  /** Type and status counts read only the `(type, status)` pair of each record. */
  lemma {:induction false} CountsReadOnlyKinds(s: seq<Execution>, t: ExecutionType, st: ExecutionStatus)
    ensures CountKind(s, t) == CountIf(Kinds(s), PairIsKind(t))
    ensures CountStatus(s, st) == CountIf(Kinds(s), PairHasStatus(st))
    decreases |s|
  {
    if |s| > 0 {
      CountsReadOnlyKinds(s[1..], t, st);
      assert Kinds(s)[1..] == Kinds(s[1..]);
    }
  }

  /** The statistics depend only on the multiset of `(type, status)` pairs: ids, names,
      timestamps and the order of records play no part. */
  lemma StatsReadOnlyKinds(a: seq<Execution>, b: seq<Execution>)
    requires multiset(Kinds(a)) == multiset(Kinds(b))
    ensures GetExecutionStats(a) == GetExecutionStats(b)
  {
    assert |a| == |Kinds(a)| == |multiset(Kinds(a))| == |multiset(Kinds(b))| == |b|;
    CountsReadOnlyKinds(a, Normal, Success);
    CountsReadOnlyKinds(b, Normal, Success);
    CountsReadOnlyKinds(a, Replay, Failed);
    CountsReadOnlyKinds(b, Replay, Failed);
    CountsReadOnlyKinds(a, Shadow, Failed);
    CountsReadOnlyKinds(b, Shadow, Failed);
    CountIfPermutation(Kinds(a), Kinds(b), PairIsKind(Normal));
    CountIfPermutation(Kinds(a), Kinds(b), PairIsKind(Replay));
    CountIfPermutation(Kinds(a), Kinds(b), PairIsKind(Shadow));
    CountIfPermutation(Kinds(a), Kinds(b), PairHasStatus(Success));
    CountIfPermutation(Kinds(a), Kinds(b), PairHasStatus(Failed));
    assert CountKind(a, Normal) == CountKind(b, Normal);
    assert CountKind(a, Replay) == CountKind(b, Replay);
    assert CountKind(a, Shadow) == CountKind(b, Shadow);
    assert CountStatus(a, Success) == CountStatus(b, Success);
    assert CountStatus(a, Failed) == CountStatus(b, Failed);
    StatsFromCounts(a, b);
  }
}
