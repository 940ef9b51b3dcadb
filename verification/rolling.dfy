/** The "recent executions" summary cards: platform-wide counts and success rates over
    the last 1, 5, 15 and 60 minutes (src/components/aws/ExecutionTimeline.tsx:587-619). */
module Rolling {
  import opened Seqs
  import opened Executions
  import opened Rounding
  import opened TimeWindow
  import opened Visible

  /** The lookback lengths of the four cards, in minutes. */
  const Lookbacks: seq<nat> := [1, 5, 15, 60]

  datatype WindowStat = WindowStat(minutes: nat, count: nat, successRate: nat)

  function Cutoff(now: int, minutes: nat): int
  {
    now - minutes * MsPerMinute
  }

  function AtOrAfter(cutoff: int): Execution -> bool
  {
    (e: Execution) => e.timestamp >= cutoff
  }

  /** The records of the last `minutes` minutes. The window is bounded below only: a
      record stamped after `now` is counted, and no function or type filter applies. */
  function Recent(execs: seq<Execution>, now: int, minutes: nat): (recent: seq<Execution>)
    ensures forall e :: e in recent <==> e in execs && e.timestamp >= now - minutes * MsPerMinute
    ensures |recent| == CountIf(execs, AtOrAfter(Cutoff(now, minutes)))
    ensures |recent| <= |execs|
    ensures multiset(recent) <= multiset(execs)
    ensures CountStatus(recent, Success)
         == CountIf(execs, Both(AtOrAfter(Cutoff(now, minutes)), HasStatus(Success)))
  {
    FilterContents(execs, AtOrAfter(Cutoff(now, minutes)));
    CountIfFilter(execs, AtOrAfter(Cutoff(now, minutes)), HasStatus(Success));
    Filter(execs, AtOrAfter(Cutoff(now, minutes)))
  }

  /** The success rate of a set of records as a whole percentage; 100 when there are none. */
  function SuccessRate(recent: seq<Execution>): (rate: nat)
    ensures rate <= 100
    ensures |recent| == 0 ==> rate == 100
    ensures |recent| > 0 ==> IsRoundedPercent(rate, CountStatus(recent, Success), |recent|)
  {
    if |recent| > 0 then RoundPercent(CountStatus(recent, Success), |recent|) else 100
  }

  /** One summary card: the number of records since the cutoff, and their success rate. */
  function Card(execs: seq<Execution>, now: int, minutes: nat): (c: WindowStat)
    ensures c.minutes == minutes
    ensures c.count == CountIf(execs, AtOrAfter(Cutoff(now, minutes)))
    ensures c.count == 0 ==> c.successRate == 100
    ensures c.count > 0 ==>
              IsRoundedPercent(c.successRate,
                               CountIf(execs, Both(AtOrAfter(Cutoff(now, minutes)), HasStatus(Success))),
                               c.count)
  {
    var recent := Recent(execs, now, minutes);
    WindowStat(minutes, |recent|, SuccessRate(recent))
  }

  /** A longer lookback never counts fewer records. */
  lemma {:induction false} CountGrowsWithLookback(execs: seq<Execution>, now: int, m1: nat, m2: nat)
    requires m1 <= m2
    ensures |Recent(execs, now, m1)| <= |Recent(execs, now, m2)|
  {
    forall e: Execution
      ensures AtOrAfter(Cutoff(now, m1))(e) ==> AtOrAfter(Cutoff(now, m2))(e)
    {
      assert m1 * MsPerMinute <= m2 * MsPerMinute;
    }
    CountIfMonotone(execs, AtOrAfter(Cutoff(now, m1)), AtOrAfter(Cutoff(now, m2)));
  }

  /** The four summary cards, shortest lookback first. */
  function RollingStats(execs: seq<Execution>, now: int): (cards: seq<WindowStat>)
    ensures |cards| == |Lookbacks|
    ensures forall i :: 0 <= i < |cards| ==> cards[i].minutes == Lookbacks[i]
    ensures forall i :: 0 <= i < |cards| ==>
              && cards[i].count == |Recent(execs, now, Lookbacks[i])|
              && cards[i].successRate == SuccessRate(Recent(execs, now, Lookbacks[i]))
    ensures forall i :: 0 <= i < |cards| ==> cards[i].count <= |execs| && cards[i].successRate <= 100
    ensures forall i :: 0 <= i < |cards| ==> (cards[i].count == 0 ==> cards[i].successRate == 100)
    ensures forall i, j :: 0 <= i <= j < |cards| ==> cards[i].count <= cards[j].count
  {
    var cards := seq(|Lookbacks|, i requires 0 <= i < |Lookbacks| => Card(execs, now, Lookbacks[i]));
    forall i, j | 0 <= i <= j < |cards|
      ensures cards[i].count <= cards[j].count
    {
      CountGrowsWithLookback(execs, now, Lookbacks[i], Lookbacks[j]);
    }
    cards
  }

  /** A record stamped after `now` is counted by every card, yet appears on no function
      row of the timeline, whatever the range and type filter. */
  lemma FutureRecordCountedButNotDrawn(execs: seq<Execution>, now: int, e: Execution, minutes: nat,
                                       name: string, r: TimeRange, tf: TypeFilter)
    requires e in execs && e.timestamp > now
    ensures e in Recent(execs, now, minutes)
    ensures e !in VisibleExecutions(execs, name, now, r, tf)
  {
  }

  /** The colour band of a success rate on a summary card. */
  datatype Band = Healthy | Warning | Failing

  function RateBand(rate: int): (b: Band)
    ensures b == Healthy <==> rate >= 90
    ensures b == Failing <==> rate < 70
  {
    if rate >= 90 then Healthy else if rate >= 70 then Warning else Failing
  }

  /** A higher success rate is never shown in a worse band. */
  lemma BandOrder(r1: int, r2: int)
    requires r1 <= r2
    ensures RateBand(r1) == Healthy ==> RateBand(r2) == Healthy
    ensures RateBand(r2) == Failing ==> RateBand(r1) == Failing
  {
  }

  /** A card whose window holds no record is shown as healthy. */
  lemma EmptyWindowHealthy(execs: seq<Execution>, now: int, minutes: nat)
    requires |Recent(execs, now, minutes)| == 0
    ensures RateBand(Card(execs, now, minutes).successRate) == Healthy
  {
  }

  /** Three records half a minute, three minutes and twenty minutes old, the middle one
      failed: the 1-minute card shows 1 at 100%, the 5-minute card 2 at 50%, the 15-minute
      card 2 at 50% and the 60-minute card 3 at 67%. */
  lemma ThreeRecordExample(now: int)
    ensures var execs := [
        Execution(1, "resizeImage", Success, Normal, None, 100.0, now - 30000, "w", 1),
        Execution(2, "resizeImage", Failed, Normal, None, 100.0, now - 180000, "w", 2),
        Execution(3, "resizeImage", Success, Normal, None, 100.0, now - 1200000, "w", 3)];
      RollingStats(execs, now) == [
        WindowStat(1, 1, 100), WindowStat(5, 2, 50), WindowStat(15, 2, 50), WindowStat(60, 3, 67)]
  {
    var a := Execution(1, "resizeImage", Success, Normal, None, 100.0, now - 30000, "w", 1);
    var b := Execution(2, "resizeImage", Failed, Normal, None, 100.0, now - 180000, "w", 2);
    var c := Execution(3, "resizeImage", Success, Normal, None, 100.0, now - 1200000, "w", 3);
    ExampleCards(a, b, c, now);
    FourCards([a, b, c], now);
  }

  /** The cards are those of the 1, 5, 15 and 60-minute lookbacks, in that order. */
  lemma FourCards(execs: seq<Execution>, now: int)
    ensures RollingStats(execs, now)
         == [Card(execs, now, 1), Card(execs, now, 5), Card(execs, now, 15), Card(execs, now, 60)]
  {
    var cards := RollingStats(execs, now);
    assert cards[0].minutes == 1 && cards[1].minutes == 5 && cards[2].minutes == 15 && cards[3].minutes == 60;
  }

  lemma ExampleCards(a: Execution, b: Execution, c: Execution, now: int)
    requires a.timestamp == now - 30000 && b.timestamp == now - 180000 && c.timestamp == now - 1200000
    requires a.status == Success && b.status == Failed && c.status == Success
    ensures Card([a, b, c], now, 1) == WindowStat(1, 1, 100)
    ensures Card([a, b, c], now, 5) == WindowStat(5, 2, 50)
    ensures Card([a, b, c], now, 15) == WindowStat(15, 2, 50)
    ensures Card([a, b, c], now, 60) == WindowStat(60, 3, 67)
  {
    ExampleWindows(a, b, c, now);
    ExampleSuccesses(a, b, c);
    assert RoundPercent(1, 1) == 100;
    assert RoundPercent(1, 2) == 50;
    assert RoundPercent(2, 3) == 67;
  }

  lemma ExampleWindows(a: Execution, b: Execution, c: Execution, now: int)
    requires a.timestamp == now - 30000 && b.timestamp == now - 180000 && c.timestamp == now - 1200000
    ensures Recent([a, b, c], now, 1) == [a]
    ensures Recent([a, b, c], now, 5) == [a, b]
    ensures Recent([a, b, c], now, 15) == [a, b]
    ensures Recent([a, b, c], now, 60) == [a, b, c]
  {
    ThreeFiltered(a, b, c, AtOrAfter(Cutoff(now, 1)));
    ThreeFiltered(a, b, c, AtOrAfter(Cutoff(now, 5)));
    ThreeFiltered(a, b, c, AtOrAfter(Cutoff(now, 15)));
    ThreeFiltered(a, b, c, AtOrAfter(Cutoff(now, 60)));
  }

  lemma ThreeFiltered(a: Execution, b: Execution, c: Execution, p: Execution -> bool)
    ensures Filter([a, b, c], p)
         == (if p(a) then [a] else []) + (if p(b) then [b] else []) + (if p(c) then [c] else [])
    ensures CountIf([a, b, c], p)
         == (if p(a) then 1 else 0) + (if p(b) then 1 else 0) + (if p(c) then 1 else 0)
  {
    assert [a, b, c][1..] == [b, c] && [b, c][1..] == [c] && [c][1..] == [];
    assert Filter([c], p) == (if p(c) then [c] else []);
    assert Filter([b, c], p) == (if p(b) then [b] else []) + Filter([c], p);
    assert CountIf([c], p) == (if p(c) then 1 else 0);
    assert CountIf([b, c], p) == (if p(b) then 1 else 0) + CountIf([c], p);
  }

  lemma ExampleSuccesses(a: Execution, b: Execution, c: Execution)
    requires a.status == Success && b.status == Failed && c.status == Success
    ensures CountStatus([a], Success) == 1
    ensures CountStatus([a, b], Success) == 1
    ensures CountStatus([a, b, c], Success) == 2
  {
    ThreeFiltered(a, b, c, HasStatus(Success));
    assert [a, b][1..] == [b] && [b][1..] == [] && [a][1..] == [];
    assert CountIf([b], HasStatus(Success)) == 0;
  }
}
