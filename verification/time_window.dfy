/** The time window of the execution timeline: the closed table of ranges, the tick
    marks across the window, and the mapping of a timestamp to a horizontal position and
    of a duration to a bar width (src/components/aws/ExecutionTimeline.tsx:64-124). */
module TimeWindow {
  import opened Arith

  const MsPerMinute: int := 60000
  const MsPerHour: int := 3600000

  datatype TimeRange = FiveMinutes | TenMinutes | OneHour | SixHours | OneDay

  /** One row of the range table: window length in hours, number of tick intervals,
      interval length in minutes, and the button caption. */
  datatype RangeConfig = RangeConfig(hours: real, slots: nat, slotMinutes: real, caption: string)

  /** The range table. In every row the tick intervals cover the window exactly. */
  function Config(r: TimeRange): (c: RangeConfig)
    ensures c.hours > 0.0 && c.slots > 0 && c.slotMinutes > 0.0
    ensures c.slots as real * c.slotMinutes == c.hours * 60.0
  {
    match r
    case FiveMinutes => RangeConfig(5.0 / 60.0, 10, 0.5, "5분")
    case TenMinutes => RangeConfig(10.0 / 60.0, 10, 1.0, "10분")
    case OneHour => RangeConfig(1.0, 12, 5.0, "1시간")
    case SixHours => RangeConfig(6.0, 12, 30.0, "6시간")
    case OneDay => RangeConfig(24.0, 12, 120.0, "24시간")
  }

  /** The window length in milliseconds, `hours * 60 * 60 * 1000`. */
  function WindowMs(r: TimeRange): (w: int)
    ensures w > 0
    ensures w as real == Config(r).hours * MsPerHour as real
  {
    match r
    case FiveMinutes => 300000
    case TenMinutes => 600000
    case OneHour => 3600000
    case SixHours => 21600000
    case OneDay => 86400000
  }

  /** The tick interval in milliseconds, `slotMinutes * 60 * 1000`; the ticks divide the
      window into `slots` equal whole-millisecond intervals. */
  function SlotMs(r: TimeRange): (m: int)
    ensures m > 0
    ensures m as real == Config(r).slotMinutes * MsPerMinute as real
    ensures Config(r).slots * m == WindowMs(r)
  {
    match r
    case FiveMinutes => 30000
    case TenMinutes => 60000
    case OneHour => 300000
    case SixHours => 1800000
    case OneDay => 7200000
  }

  /** The left edge of the window that ends at `now`. */
  function WindowStart(now: int, r: TimeRange): (start: int)
    ensures start < now
    ensures now - start == WindowMs(r)
  {
    now - WindowMs(r)
  }

  /** A tick mark; its text label is a locale rendering of `time` and is not modelled. */
  datatype Tick = Tick(time: int, isNow: bool)

  /** The tick marks from the window start to `now`, one per slot boundary. */
  method TimeSlots(now: int, r: TimeRange) returns (ticks: seq<Tick>)
    ensures |ticks| == Config(r).slots + 1
    ensures forall i :: 0 <= i < |ticks| ==> ticks[i].time == WindowStart(now, r) + i * SlotMs(r)
    ensures forall i :: 0 <= i < |ticks| ==> (ticks[i].isNow <==> i == |ticks| - 1)
    ensures ticks[0].time == WindowStart(now, r)
    ensures ticks[|ticks| - 1].time == now
    ensures forall i, j :: 0 <= i < j < |ticks| ==> ticks[i].time < ticks[j].time
  {
    var slots := Config(r).slots;
    var start := now - WindowMs(r);
    var step := SlotMs(r);
    ticks := [];
    var i := 0;
    while i <= slots
      invariant 0 <= i <= slots + 1
      invariant |ticks| == i
      invariant forall k :: 0 <= k < i ==> ticks[k] == Tick(start + k * step, k == slots)
      invariant forall k, l :: 0 <= k < l < i ==> ticks[k].time < ticks[l].time
    {
      if i > 0 {
        MulStrict(step, i - 1, i);
      }
      ticks := ticks + [Tick(start + i * step, i == slots)];
      i := i + 1;
    }
  }

  /** Where a timestamp falls across the window, as a percentage, clamped to [0, 100]. */
  function Position(now: int, r: TimeRange, t: int): (p: real)
    ensures 0.0 <= p <= 100.0
    ensures t <= WindowStart(now, r) ==> p == 0.0
    ensures t >= now ==> p == 100.0
    ensures WindowStart(now, r) <= t <= now ==>
              p * WindowMs(r) as real == (t - WindowStart(now, r)) as real * 100.0
  {
    var w := WindowMs(r) as real;
    var raw := ((t - WindowStart(now, r)) as real / w) * 100.0;
    DivScale(t - WindowStart(now, r), WindowMs(r));
    Clamp(raw)
  }

  function Clamp(x: real): real
  {
    if x < 0.0 then 0.0 else if x > 100.0 then 100.0 else x
  }

  /** `(d / w) * 100` for a positive `w`: its sign is the sign of `d`, it reaches 100
      exactly when `d` reaches `w`, and multiplying back by `w` recovers `100 * d`. */
  lemma DivScale(d: int, w: int)
    requires w > 0
    ensures var x := (d as real / w as real) * 100.0;
      && (d <= 0 ==> x <= 0.0)
      && (d >= w ==> x >= 100.0)
      && x * w as real == d as real * 100.0
  {
    var q := d as real / w as real;
    assert q * w as real == d as real;
    if d <= 0 && q > 0.0 {
      RealMulMonotone(0.0, q, w as real);
    }
    if d >= w && q < 1.0 {
      RealMulMonotone(q, 1.0, w as real);
    }
  }

  /** A later timestamp never sits to the left of an earlier one. */
  lemma PositionMonotone(now: int, r: TimeRange, t1: int, t2: int)
    requires t1 <= t2
    ensures Position(now, r, t1) <= Position(now, r, t2)
  {
    var w := WindowMs(r) as real;
    var d1 := (t1 - WindowStart(now, r)) as real;
    var d2 := (t2 - WindowStart(now, r)) as real;
    RealDivMonotone(d1, d2, w);
  }

  /** Inside the window the mapping is one-to-one: distinct timestamps get distinct,
      correctly ordered positions. */
  lemma PositionStrictInWindow(now: int, r: TimeRange, t1: int, t2: int)
    requires WindowStart(now, r) <= t1 < t2 <= now
    ensures Position(now, r, t1) < Position(now, r, t2)
  {
    var p1, p2 := Position(now, r, t1), Position(now, r, t2);
    var w := WindowMs(r) as real;
    assert p1 * w < p2 * w;
    if p1 >= p2 {
      RealMulMonotone(p2, p1, w);
    }
  }

  /** Tick `i` sits at `i / slots` of the width, the same place the evenly spaced grid
      lines are drawn, so markers and grid agree. */
  lemma TickPosition(now: int, r: TimeRange, i: nat)
    requires i <= Config(r).slots
    ensures Position(now, r, WindowStart(now, r) + i * SlotMs(r)) * Config(r).slots as real
            == i as real * 100.0
  {
    MulMonotone(SlotMs(r), i, Config(r).slots);
    match r
    case FiveMinutes =>
    case TenMinutes =>
    case OneHour =>
    case SixHours =>
    case OneDay =>
  }

  lemma RealDivMonotone(a: real, b: real, w: real)
    requires a <= b && w > 0.0
    ensures a / w <= b / w
  {
    var qa, qb := a / w, b / w;
    assert qa * w == a && qb * w == b;
    if qa > qb {
      RealMulMonotone(qb, qa, w);
    }
  }

  const MaxDuration: real := 3000.0
  const MinWidth: real := 8.0
  const MaxWidth: real := 60.0

  /** The bar width of a duration: linear from 8 at 0 ms to 60 at 3000 ms, saturating
      above. Negative durations are not guarded and give a width below 8. */
  function Width(duration: real): (w: real)
    ensures duration == 0.0 ==> w == MinWidth
    ensures duration >= MaxDuration ==> w == MaxWidth
    ensures 0.0 <= duration ==> MinWidth <= w <= MaxWidth
    ensures duration < 0.0 ==> w < MinWidth
    ensures 0.0 <= duration <= MaxDuration ==>
              (w - MinWidth) * MaxDuration == duration * (MaxWidth - MinWidth)
  {
    var capped := if duration < MaxDuration then duration else MaxDuration;
    MinWidth + ((capped / MaxDuration) * (MaxWidth - MinWidth))
  }

  /** A longer run never gets a narrower bar. */
  lemma WidthMonotone(d1: real, d2: real)
    requires d1 <= d2
    ensures Width(d1) <= Width(d2)
  {
  }

  /** The duration from which a bar is wide enough for its type icon: 9000/13 ms, about
      692.3 ms, where the linear segment reaches 20. */
  const IconDuration: real := 9000.0 / 13.0

  /** The type icon is drawn inside a bar at least 20 units wide, which is exactly a
      duration of at least 9000/13 ms. */
  lemma IconShownFrom(duration: real)
    ensures Width(duration) >= 20.0 <==> duration >= IconDuration
  {
  }

  /** For a whole number of milliseconds the icon threshold is 693 ms. */
  lemma IconShownFrom693(duration: int)
    ensures Width(duration as real) >= 20.0 <==> duration >= 693
  {
    IconShownFrom(duration as real);
  }
}
