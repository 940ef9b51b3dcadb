# EventOS execution timeline and statistics, in Dafny

EventOS is an admin console for serverless function executions. Each execution is a
NORMAL run, a REPLAY of an earlier run, or a SHADOW comparison run, and REPLAY/SHADOW
records link to the NORMAL record they were derived from. This project models the pure
logic behind the console's execution timeline and its statistics:

- the range table (5 minutes to 24 hours);
- the tick marks across the window;
- the mapping of a timestamp to a clamped horizontal position, and of a duration to a bar width;
- the records drawn on each function's row, filtered and then stably sorted by start time, with the four badge counts beside the row;
- the rolling 1/5/15/60-minute summary cards and their colour bands;
- the "time ago" split into hours and minutes;
- the marker style chosen from status and type;
- `getExecutionStats`, the type and status counts with four rounded percentage rates;
- the sample data set the console ships with.

Timestamps are integer milliseconds. `now` is a parameter everywhere. Positions and widths
are exact reals. `Math.round(k / n * 100)` on counts is modelled on the exact quotient as
`(200 * k + n) / (2 * n)`, and the ghost predicate `Rounding.IsRoundedPercent` states what
this means: the result is within one half of `100 * k / n`, with halves rounding up.

Durations are elapsed milliseconds, typed as any JavaScript number, so the model takes them
as exact reals, fractional or negative. `getExecutionWidth` does not guard against a negative
duration. The model follows the code: `TimeWindow.Width` is defined for every duration, and a
negative duration gives a width below 8. The marker's CSS `minWidth: '8px'`
(src/components/aws/ExecutionTimeline.tsx:448) still draws such a bar 8 px wide; only the
`width >= 20` icon test sees the unclamped value.

The console never looks a parent up: it only prints `parentExecutionId`. `Executions.FindById`
and `Executions.ParentOf` are the model's reading of that field as a link to another record of
the list.

Modules:

- `Arith`: monotonicity of multiplication, shared by the rounding and window proofs.
- `Seqs`: counting and filtering by a predicate.
- `Executions`: the record, the enums and the parent link.
- `Rounding` and `Stats`: the statistics.
- `TimeWindow`: ranges, ticks, positions and widths.
- `Visible`: function rows.
- `Rolling`: the summary cards.
- `Markers`: marker style and relative time.
- `MockData`: the sample data.

## Model

| member | source | states |
|---|---|---|
| Executions.KindCountsPartition | src/data/mockData.ts:1 | every record has exactly one of the three types, so the NORMAL, REPLAY and SHADOW counts add up to the list length |
| Executions.StatusCountsPartition | src/data/mockData.ts:2 | every record has exactly one of the three statuses, so the SUCCESS, FAILED and RUNNING counts add up to the list length |
| Executions.FindById | src/data/mockData.ts:9 | a parent id resolves to the first record that carries that id; it fails to resolve exactly when no record carries it |
| Executions.ParentOf | src/data/mockData.ts:9 | a record with a null parent id has no parent; a parent id resolves exactly when some record in the list carries it, and the resolved parent is in the list and carries that id |
| Executions.ParentResolves | src/data/mockData.ts:9 | in a well-linked list, every REPLAY/SHADOW record resolves to a NORMAL parent of the same function with a smaller Lamport clock |
| Executions.ParentLabel | src/components/aws/ExecutionTimeline.tsx:700-705 | after a record's id the table renders nothing exactly when the parent id is null, the bare text "0" exactly when it is 0 (the falsy number is itself rendered), and the arrow label exactly when it is non-zero, naming the record's parent id |
| Executions.ParentLabelInWellLinked | src/components/aws/ExecutionTimeline.tsx:700-705 | in a well-linked list the table renders something after exactly the REPLAY and SHADOW records, and an arrow label names the record the parent link resolves to |
| Rounding.RoundPercent | src/data/mockData.ts:441-444 | the integer formula is round-half-up of `100 * k / n`; it lies in [0, 100] for k <= n; it is 0 for k = 0 and 100 for k = n |
| Rounding.RoundedPercentUnique | src/data/mockData.ts:441-444 | at most one integer is the rounded percentage of k / n, so any correct rounding of the exact quotient agrees with the model |
| Rounding.RoundPercentMonotone | src/components/aws/ExecutionTimeline.tsx:591-593 | over the same number of records, more successes never give a lower rounded percentage |
| Stats.GetExecutionStats | src/data/mockData.ts:426-446 | `total` is the list length; each of `normal`, `replay`, `shadow`, `success` and `failed` is the number of records of that type or status; normal + replay + shadow = total; success + failed <= total, with equality exactly when no record is RUNNING; every rate is 0 on an empty list and otherwise the rounded percentage of its count, within [0, 100]; `debugRate` is the rate of total - normal |
| Stats.StatsFromCounts | src/data/mockData.ts:426-446 | the statistics depend only on the list length and the five type and status counts |
| Stats.StatsIgnoreOrder | src/data/mockData.ts:426-446 | reordering the records changes no field of the statistics |
| Stats.CountsReadOnlyKinds | src/data/mockData.ts:427-432 | each type or status count equals the same count taken over the `(type, status)` pairs alone |
| Stats.StatsReadOnlyKinds | src/data/mockData.ts:426-446 | two lists with the same multiset of `(type, status)` pairs have equal statistics, whatever their ids, names, timestamps and order |
| TimeWindow.Config | src/components/aws/ExecutionTimeline.tsx:64-70 | in every row of the range table, slots * slotMinutes equals the window length in minutes |
| TimeWindow.WindowMs | src/components/aws/ExecutionTimeline.tsx:77 | the window length in milliseconds is hours * 3 600 000 for the range's row |
| TimeWindow.SlotMs | src/components/aws/ExecutionTimeline.tsx:80 | the tick interval is slotMinutes * 60 000 ms, and `slots` intervals cover the window exactly |
| TimeWindow.WindowStart | src/components/aws/ExecutionTimeline.tsx:77 | the window starts one window length before `now` |
| TimeWindow.TimeSlots | src/components/aws/ExecutionTimeline.tsx:74-92 | there are slots + 1 ticks, one interval apart and strictly increasing; the first is at the window start and the last at `now`; only the last is flagged `isNow` |
| TimeWindow.Position | src/components/aws/ExecutionTimeline.tsx:94-102 | the position is within [0, 100]; it is 0 at or before the window start and 100 at or after `now`; inside the window it is the elapsed share of the window, times 100 |
| TimeWindow.DivScale | src/components/aws/ExecutionTimeline.tsx:100 | the unclamped `(d / w) * 100` is non-positive for d <= 0, at least 100 for d >= w, and gives back 100 * d when multiplied by w |
| TimeWindow.PositionMonotone | src/components/aws/ExecutionTimeline.tsx:100-101 | a later timestamp never sits left of an earlier one |
| TimeWindow.PositionStrictInWindow | src/components/aws/ExecutionTimeline.tsx:100-101 | two distinct timestamps inside the window get strictly ordered positions |
| TimeWindow.TickPosition | src/components/aws/ExecutionTimeline.tsx:74-102 | tick i sits at i / slots of the width, so tick marks and evenly spaced grid lines coincide |
| TimeWindow.Width | src/components/aws/ExecutionTimeline.tsx:118-124 | the width is 8 at 0 ms and 60 from 3000 ms up; it is within [8, 60] for non-negative durations and below 8 for negative ones; it is linear on [0, 3000] |
| TimeWindow.WidthMonotone | src/components/aws/ExecutionTimeline.tsx:118-124 | a longer run never gets a narrower bar |
| TimeWindow.IconShownFrom | src/components/aws/ExecutionTimeline.tsx:455-460 | the width reaches the icon threshold of 20 exactly for durations of at least 9000/13 ms (about 692.3 ms), fractional ones included |
| TimeWindow.IconShownFrom693 | src/components/aws/ExecutionTimeline.tsx:455-460 | for integer durations the width reaches the icon threshold of 20 exactly from 693 ms |
| Visible.InsertByTime | src/components/aws/ExecutionTimeline.tsx:115 | insertion adds exactly the one record, and keeps a list sorted by start time sorted |
| Visible.InsertIsStable | src/components/aws/ExecutionTimeline.tsx:115 | among the records with any one timestamp, the inserted record comes first and the others keep their order |
| Visible.SortByTime | src/components/aws/ExecutionTimeline.tsx:115 | the result is a permutation of the input, sorted ascending by start time |
| Visible.SortIsStable | src/components/aws/ExecutionTimeline.tsx:115 | the sort is stable: the records sharing any one timestamp keep their input order |
| Visible.VisibleExecutions | src/components/aws/ExecutionTimeline.tsx:104-116 | a record is on a function's row exactly when it belongs to that function, starts within [start, now] and passes the type filter; the row is sorted by start time and is a permutation of the filtered records |
| Visible.VisibleIsStable | src/components/aws/ExecutionTimeline.tsx:104-116 | records on a row that share a timestamp appear in their input order |
| Visible.CountRow | src/components/aws/ExecutionTimeline.tsx:366-393 | the REPLAY and SHADOW badges are drawn exactly when the row holds a record of that type; success + failed and replay + shadow never exceed the row length |
| Visible.RowCountsMeaning | src/components/aws/ExecutionTimeline.tsx:364-369 | each badge counts the in-view records of its status or type; success + failed and replay + shadow never exceed the row length |
| Visible.FilteredRowCounts | src/components/aws/ExecutionTimeline.tsx:366-369 | under a REPLAY filter the SHADOW count is 0, so its badge is not drawn; under a SHADOW filter the REPLAY count is 0, so its badge is not drawn; under a NORMAL filter both counts are 0 and neither badge is drawn |
| Rolling.Recent | src/components/aws/ExecutionTimeline.tsx:588-590 | a record is in a card's window exactly when it starts no earlier than the cutoff; there is no upper bound and no function or type filter; its length, the count the card shows, is the number of records at or after the cutoff; it holds each record no more often than the input does, and its SUCCESS count is the number of SUCCESS records at or after the cutoff |
| Rolling.SuccessRate | src/components/aws/ExecutionTimeline.tsx:591-593 | the rate is 100 for an empty window and otherwise the rounded share of SUCCESS records; it is within [0, 100] |
| Rolling.Card | src/components/aws/ExecutionTimeline.tsx:588-593 | a card's count is the number of records at or after its cutoff; its rate is 100 when there are none, and otherwise the round-half-up share of the SUCCESS records among them |
| Rolling.CountGrowsWithLookback | src/components/aws/ExecutionTimeline.tsx:587-590 | a longer lookback never counts fewer records |
| Rolling.RollingStats | src/components/aws/ExecutionTimeline.tsx:587-593 | there are four cards for 1, 5, 15 and 60 minutes; each card shows the number of records in its lookback window and their success rate; counts are bounded by the list and rates by 100; an empty card shows 100%; counts never decrease from card to card |
| Rolling.FutureRecordCountedButNotDrawn | src/components/aws/ExecutionTimeline.tsx:587-593 | a record stamped after `now` is counted by every card, yet is drawn on no function row |
| Rolling.RateBand | src/components/aws/ExecutionTimeline.tsx:611 | a rate is shown green exactly when it is at least 90, and red exactly when it is below 70 |
| Rolling.BandOrder | src/components/aws/ExecutionTimeline.tsx:611 | a higher rate is never shown in a worse band |
| Rolling.EmptyWindowHealthy | src/components/aws/ExecutionTimeline.tsx:591-611 | a card whose window holds no record shows a rate of 100 and so is green |
| Rolling.ThreeRecordExample | src/components/aws/ExecutionTimeline.tsx:587-593 | a worked example: records 30 s, 3 min and 20 min old, the middle one failed, give cards (1, 100%), (2, 50%), (2, 50%) and (3, 67%) |
| Markers.StatusColours | src/components/aws/ExecutionTimeline.tsx:16-43 | SUCCESS is drawn green, FAILED red, and any other status, including one missing from the table, with the RUNNING grey |
| Markers.StyleOf | src/components/aws/ExecutionTimeline.tsx:15-49 | REPLAY gets the blue gradient, a solid light-blue border and the focus ring; SHADOW gets a dashed blue border and no shadow; NORMAL gets no border and the drop shadow; a non-replay background is the colour of its own status |
| Markers.ReplayIgnoresStatus | src/components/aws/ExecutionTimeline.tsx:22-28 | a REPLAY looks the same whatever its status |
| Markers.ShadowMatchesNormalColours | src/components/aws/ExecutionTimeline.tsx:30-48 | a SHADOW run has the background of a NORMAL run of the same status but a different border; an unknown status is drawn exactly like RUNNING |
| Markers.StatusColoursDistinct | src/components/aws/ExecutionTimeline.tsx:16-43 | distinct statuses of a non-replay run get distinct backgrounds |
| Markers.FloorDiv | src/components/aws/ExecutionTimeline.tsx:128-129 | `Math.floor(a / b)` for b > 0: the largest q with q * b <= a |
| Markers.RelativeTime | src/components/aws/ExecutionTimeline.tsx:126-135 | an hours reading has at least one hour and 0..59 leftover minutes; a minutes reading is under 60 |
| Markers.RelativeTimeMeaning | src/components/aws/ExecutionTimeline.tsx:126-135 | for a past record, the hours form is used exactly when at least an hour has passed, and the shown hours and minutes are the whole elapsed minutes, with nothing lost in the split |
| Markers.FutureRecordTime | src/components/aws/ExecutionTimeline.tsx:126-135 | a record stamped after `now` reads as a negative number of minutes |
| MockData.MockExecutions | src/data/mockData.ts:77-422 | the seventeen sample records in source order, with their ids, functions, statuses, types, parent ids, durations, minute offsets, workers and clocks |
| MockData.MockStampsInLastHour | src/data/mockData.ts:77-422 | every sample record started between 5 and 50 minutes before the module was loaded, and ran for a positive number of milliseconds |
| MockData.MockIdsUnique | src/data/mockData.ts:77-422 | no two sample records share an id |
| MockData.MockNormalsHaveNoParent | src/data/mockData.ts:77-422 | every NORMAL sample record has a null parent id |
| MockData.MockParentsResolve | src/data/mockData.ts:77-422 | every REPLAY/SHADOW sample record points at an existing NORMAL record of the same function that is earlier by Lamport clock and by start time |
| MockData.MockIsWellLinked | src/data/mockData.ts:77-422 | the sample records satisfy the link discipline that `Executions.ParentResolves` relies on |
| MockData.MockFunctionsDeclared | src/data/mockData.ts:30-422 | every sample record runs a declared, active function |
| MockData.MockInactiveHasNoRecords | src/data/mockData.ts:30-422 | the one inactive function, `transcodeVideo`, has no sample records |
| MockData.MockLamportFollowsIds | src/data/mockData.ts:77-422 | in the sample data a larger id always carries a larger Lamport clock |
| MockData.MockStats | src/data/mockData.ts:77-446 | `getExecutionStats` over the sample data gives 17 records: 12 NORMAL, 3 REPLAY, 2 SHADOW, 12 SUCCESS and 5 FAILED; rates are replay 18%, shadow 12%, success 71% and debug 29% |

## Left out

- Date parsing and locale formatting are not modelled: ISO strings, `toLocaleTimeString('ko-KR')`, and the text labels of ticks. Timestamps are integer milliseconds, and a tick is its time and `isNow` flag.
- Floating-point arithmetic is not modelled. Durations, positions, widths and window lengths are exact reals, so binary rounding of values such as `5 / 60` hours is absent. `Math.round` is modelled on exact quotients, which differs from IEEE doubles only when the double quotient lands just below a half: for 23 of 40 the double `(23 / 40) * 100` is 57.49999999999999, so `Math.round` gives 57 where the model gives 58.
- The `setInterval` clock refresh is not modelled. `now` is a parameter.
- Markers.RelativeTime: returns the hours and minutes shown, not the Korean text template around them.
- Markers.StyleOf: CSS strings for the border and shadow are modelled as constructors (solid or dashed with a colour, focus ring or drop shadow). The gradient is kept as its two colours.
- Markers.StatusColours: the lookup is an own-key lookup. A status string naming an inherited object property (such as `"constructor"`) would not fall back in JavaScript, and that is not modelled.
- The `input`, `output` and `logs` payloads of a record are not modelled. No modelled operation reads them.
- The deploy page, the API client, the stores, the pages and the other rendering components are not part of this model. They are rendering, navigation or network glue.
- The PENDING status of the API's data transfer types is not part of this model. The console's own record type has three statuses.
- MockData.MockExecutions: every sample timestamp is taken from one load instant `loadTime`, while the source calls `Date.now()` once per record, so the seventeen instants may differ by a few milliseconds.
- The hover card, the navigation callbacks and the rest of the executions table are rendering and are not modelled. The table lists the records in input order; only its parent-id label is modelled.
