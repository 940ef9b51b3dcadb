/** How one execution is drawn and described: the marker style chosen from status and
    type, and the "time ago" text of the executions table
    (src/components/aws/ExecutionTimeline.tsx:15-49, 126-135). */
module Markers {
  import opened Executions
  import opened TimeWindow

  /** A two-stop 135-degree gradient, as `from` and `to` colours. */
  datatype Gradient = Gradient(from: string, to: string)

  /** The marker outline: none, a 2px solid line, or a 2px dashed line, of a colour. */
  datatype Border = NoBorder | Solid(colour: string) | Dashed(colour: string)

  /** The marker shadow: none, the blue focus ring of replays, or the subtle drop shadow. */
  datatype Shadow = NoShadow | ReplayRing | DropShadow

  datatype MarkerStyle = MarkerStyle(background: Gradient, border: Border, shadow: Shadow)

  const SuccessColours: Gradient := Gradient("#22C55E", "#16A34A")
  const FailedColours: Gradient := Gradient("#EF4444", "#DC2626")
  const RunningColours: Gradient := Gradient("#9CA3AF", "#6B7280")
  const ReplayColours: Gradient := Gradient("#60A5FA", "#2563EB")

  /** The status colour table of normal runs. */
  const StatusTable: map<string, Gradient> :=
    map["SUCCESS" := SuccessColours, "FAILED" := FailedColours, "RUNNING" := RunningColours]

  /** The status colours of a normal run, looked up in the table by the status string;
      a status missing from the table falls back to the RUNNING entry. */
  function StatusColours(status: string): (g: Gradient)
    ensures status == "SUCCESS" ==> g == SuccessColours
    ensures status == "FAILED" ==> g == FailedColours
    ensures status != "SUCCESS" && status != "FAILED" ==> g == RunningColours
    ensures g in {SuccessColours, FailedColours, RunningColours}
  {
    if status in StatusTable then StatusTable[status] else StatusTable["RUNNING"]
  }

  /** The shadow-run background, chosen by its own SUCCESS / FAILED / otherwise test. */
  function ShadowColours(status: string): Gradient
  {
    if status == "SUCCESS" then SuccessColours
    else if status == "FAILED" then FailedColours
    else RunningColours
  }

  /** The marker style of an execution of the given status and type. */
  function StyleOf(status: string, t: ExecutionType): (m: MarkerStyle)
    ensures t == Replay ==> m == MarkerStyle(ReplayColours, Solid("#BFDBFE"), ReplayRing)
    ensures t == Shadow ==> m.border == Dashed("#2563EB") && m.shadow == NoShadow
    ensures t == Normal ==> m.border == NoBorder && m.shadow == DropShadow
    ensures t != Replay ==> m.background == StatusColours(status)
  {
    match t
    case Replay => MarkerStyle(ReplayColours, Solid("#BFDBFE"), ReplayRing)
    case Shadow => MarkerStyle(ShadowColours(status), Dashed("#2563EB"), NoShadow)
    case Normal => MarkerStyle(StatusColours(status), NoBorder, DropShadow)
  }

  /** A replay looks the same whatever its status. */
  lemma ReplayIgnoresStatus(s1: string, s2: string)
    ensures StyleOf(s1, Replay) == StyleOf(s2, Replay)
  {
  }

  /** A shadow run is coloured exactly like a normal run of the same status (the two are
      told apart by the dashed outline), and an unknown status is drawn as RUNNING. */
  lemma ShadowMatchesNormalColours(status: string)
    ensures StyleOf(status, Shadow).background == StyleOf(status, Normal).background
    ensures StyleOf(status, Shadow).border != StyleOf(status, Normal).border
    ensures status != "SUCCESS" && status != "FAILED" ==>
              forall t :: t != Replay ==> StyleOf(status, t) == StyleOf("RUNNING", t)
  {
  }

  /** Distinct statuses of a non-replay run get distinct colours. */
  lemma StatusColoursDistinct(s1: ExecutionStatus, s2: ExecutionStatus, t: ExecutionType)
    requires t != Replay && s1 != s2
    ensures StyleOf(StatusName(s1), t).background != StyleOf(StatusName(s2), t).background
  {
  }

  /** The "time ago" of a record: hours and leftover minutes once an hour has passed,
      otherwise whole minutes (negative for a record stamped after `now`). */
  datatype Elapsed = HoursAgo(hours: int, minutes: int) | MinutesAgo(minutes: int)

  /** `Math.floor` of a quotient by a positive divisor. Dafny's `/` rounds toward minus
      infinity when the divisor is positive, which is exactly `Math.floor(a / b)`. */
  function FloorDiv(a: int, b: int): (q: int)
    requires b > 0
    ensures q * b <= a < q * b + b
  {
    a / b
  }

  function RelativeTime(now: int, timestamp: int): (r: Elapsed)
    ensures r.HoursAgo? ==> r.hours >= 1 && 0 <= r.minutes < 60
    ensures r.MinutesAgo? ==> r.minutes < 60
  {
    var diff := now - timestamp;
    var minutes := FloorDiv(diff, MsPerMinute);
    var hours := FloorDiv(minutes, 60);
    // `minutes` is positive on this branch, where JavaScript's truncating `%` and
    // Dafny's Euclidean `%` agree.
    if hours > 0 then HoursAgo(hours, minutes % 60) else MinutesAgo(minutes)
  }

  /** For a record in the past, the text shows whole elapsed minutes, split into hours
      and minutes exactly when at least an hour has passed, and the split loses nothing. */
  lemma RelativeTimeMeaning(now: int, timestamp: int)
    requires timestamp <= now
    ensures var diff := now - timestamp;
      var r := RelativeTime(now, timestamp);
      && (r.HoursAgo? <==> diff >= 60 * MsPerMinute)
      && (r.HoursAgo? ==> (r.hours * 60 + r.minutes) * MsPerMinute <= diff < (r.hours * 60 + r.minutes + 1) * MsPerMinute)
      && (r.MinutesAgo? ==> 0 <= r.minutes && r.minutes * MsPerMinute <= diff < (r.minutes + 1) * MsPerMinute)
  {
    var diff := now - timestamp;
    var minutes := FloorDiv(diff, MsPerMinute);
    var hours := FloorDiv(minutes, 60);
    assert minutes >= 0;
    if diff >= 60 * MsPerMinute {
      assert minutes >= 60;
    } else {
      assert minutes < 60;
    }
  }

  /** A record stamped after `now` reads as a negative number of minutes. */
  lemma FutureRecordTime(now: int, timestamp: int)
    requires timestamp > now
    ensures RelativeTime(now, timestamp).MinutesAgo?
    ensures RelativeTime(now, timestamp).minutes < 0
  {
  }
}
