/** The records drawn on one function's row of the timeline, and the four counts shown
    beside the row (src/components/aws/ExecutionTimeline.tsx:104-116, 364-369). */
module Visible {
  import opened Seqs
  import opened Executions
  import opened TimeWindow

  /** The type filter buttons: every type, or one type only. */
  datatype TypeFilter = All | Only(kind: ExecutionType)

  /** A record is on `name`'s row when it belongs to that function, started inside the
      closed window `[start, now]`, and passes the type filter. */
  predicate InView(e: Execution, name: string, start: int, now: int, tf: TypeFilter)
  {
    && e.functionName == name
    && start <= e.timestamp <= now
    && (tf.All? || e.kind == tf.kind)
  }

  function InViewOf(name: string, start: int, now: int, tf: TypeFilter): Execution -> bool
  {
    (e: Execution) => InView(e, name, start, now, tf)
  }

  function AtTime(k: int): Execution -> bool
  {
    (e: Execution) => e.timestamp == k
  }

  ghost predicate SortedByTime(s: seq<Execution>)
  {
    forall i, j :: 0 <= i < j < |s| ==> s[i].timestamp <= s[j].timestamp
  }

  /** Inserts `x` before the first record that does not start earlier, so `x` stays ahead
      of the records it preceded in the input that share its timestamp. */
  function InsertByTime(x: Execution, s: seq<Execution>): (r: seq<Execution>)
    ensures multiset(r) == multiset(s) + multiset{x}
    ensures SortedByTime(s) ==> SortedByTime(r)
  {
    if |s| == 0 || x.timestamp <= s[0].timestamp then
      [x] + s
    else
      var rest := InsertByTime(x, s[1..]);
      assert s == [s[0]] + s[1..];
      HeadStaysFirst(x, s, rest);
      [s[0]] + rest
  }

  /** Keeping `s[0]` in front of the insertion into the tail keeps the result sorted. */
  lemma HeadStaysFirst(x: Execution, s: seq<Execution>, rest: seq<Execution>)
    requires |s| > 0 && s[0].timestamp < x.timestamp
    requires multiset(rest) == multiset(s[1..]) + multiset{x}
    requires SortedByTime(s[1..]) ==> SortedByTime(rest)
    ensures SortedByTime(s) ==> SortedByTime([s[0]] + rest)
  {
    if SortedByTime(s) {
      assert SortedByTime(s[1..]);
      forall j | 0 <= j < |rest|
        ensures s[0].timestamp <= rest[j].timestamp
      {
        assert rest[j] in multiset(rest);
        if rest[j] != x {
          assert rest[j] in multiset(s[1..]);
          var m :| 0 <= m < |s[1..]| && s[1..][m] == rest[j];
          assert s[m + 1] == rest[j];
        }
      }
    }
  }

  /** Insertion is stable: among the records with timestamp `k`, `x` comes first and the
      others keep their order. */
  lemma {:induction false} InsertIsStable(x: Execution, s: seq<Execution>, k: int)
    ensures Filter(InsertByTime(x, s), AtTime(k)) == Filter([x], AtTime(k)) + Filter(s, AtTime(k))
    decreases |s|
  {
    if |s| == 0 || x.timestamp <= s[0].timestamp {
      assert InsertByTime(x, s) == [x] + s;
      FilterAppend([x], s, AtTime(k));
    } else {
      var rest := InsertByTime(x, s[1..]);
      assert InsertByTime(x, s) == [s[0]] + rest;
      InsertIsStable(x, s[1..], k);
      InsertIsStableStep(x, s, rest, k);
    }
  }

  lemma InsertIsStableStep(x: Execution, s: seq<Execution>, rest: seq<Execution>, k: int)
    requires |s| > 0 && s[0].timestamp < x.timestamp
    requires Filter(rest, AtTime(k)) == Filter([x], AtTime(k)) + Filter(s[1..], AtTime(k))
    ensures Filter([s[0]] + rest, AtTime(k)) == Filter([x], AtTime(k)) + Filter(s, AtTime(k))
  {
    var fx := Filter([x], AtTime(k));
    var f0 := Filter([s[0]], AtTime(k));
    var tail := Filter(s[1..], AtTime(k));
    FilterAppend([s[0]], rest, AtTime(k));
    FilterAppend([s[0]], s[1..], AtTime(k));
    assert s == [s[0]] + s[1..];
    // `s[0]` starts strictly before `x`, so at most one of them has timestamp `k`.
    FilterSingleton(x, AtTime(k));
    FilterSingleton(s[0], AtTime(k));
    assert fx == [] || f0 == [];
    SwapDisjoint(f0, fx, tail);
    calc {
      Filter([s[0]] + rest, AtTime(k));
      f0 + Filter(rest, AtTime(k));
      f0 + (fx + tail);
      fx + (f0 + tail);
      fx + Filter(s, AtTime(k));
    }
  }

  lemma FilterSingleton(y: Execution, p: Execution -> bool)
    ensures Filter([y], p) == if p(y) then [y] else []
  {
    assert [y][1..] == [];
  }

  lemma SwapDisjoint<T>(a: seq<T>, b: seq<T>, c: seq<T>)
    requires a == [] || b == []
    ensures a + (b + c) == b + (a + c)
  {
    if a == [] {
      assert a + (b + c) == b + c == b + (a + c);
    } else {
      assert a + (b + c) == a + c == b + (a + c);
    }
  }

  /** Sorts by timestamp, ascending. */
  function SortByTime(s: seq<Execution>): (r: seq<Execution>)
    ensures multiset(r) == multiset(s)
    ensures SortedByTime(r)
  {
    if |s| == 0 then []
    else
      assert s == [s[0]] + s[1..];
      InsertByTime(s[0], SortByTime(s[1..]))
  }

  /** The sort is stable: the records with any one timestamp keep their input order. */
  lemma {:induction false} SortIsStable(s: seq<Execution>, k: int)
    ensures Filter(SortByTime(s), AtTime(k)) == Filter(s, AtTime(k))
    decreases |s|
  {
    if |s| > 0 {
      SortIsStable(s[1..], k);
      InsertIsStable(s[0], SortByTime(s[1..]), k);
      FilterAppend([s[0]], s[1..], AtTime(k));
      assert s == [s[0]] + s[1..];
    }
  }

  /** The records on `name`'s row, earliest first. */
  function VisibleExecutions(execs: seq<Execution>, name: string, now: int, r: TimeRange, tf: TypeFilter)
    : (v: seq<Execution>)
    ensures forall e :: e in v <==> e in execs && InView(e, name, WindowStart(now, r), now, tf)
    ensures SortedByTime(v)
    ensures multiset(v) == multiset(Filter(execs, InViewOf(name, WindowStart(now, r), now, tf)))
  {
    var selected := Filter(execs, InViewOf(name, WindowStart(now, r), now, tf));
    var v := SortByTime(selected);
    FilterContents(execs, InViewOf(name, WindowStart(now, r), now, tf));
    assert forall e :: e in v <==> e in multiset(v);
    assert forall e :: e in selected <==> e in multiset(selected);
    v
  }

  /** Ties keep their input order: the records of `name`'s row that share any one
      timestamp appear in the order they have in `execs`. */
  lemma VisibleIsStable(execs: seq<Execution>, name: string, now: int, r: TimeRange, tf: TypeFilter, k: int)
    ensures Filter(VisibleExecutions(execs, name, now, r, tf), AtTime(k))
         == Filter(execs, Both(InViewOf(name, WindowStart(now, r), now, tf), AtTime(k)))
  {
    var p := InViewOf(name, WindowStart(now, r), now, tf);
    SortIsStable(Filter(execs, p), k);
    FilterFilter(execs, p, AtTime(k));
  }

  /** The badges beside a function row. */
  datatype RowCounts = RowCounts(success: nat, failed: nat, replay: nat, shadow: nat)

  /** The four counts beside a row. The REPLAY and SHADOW badges are drawn only when
      their count is positive, that is when the row holds a record of that type. */
  function CountRow(visible: seq<Execution>): (c: RowCounts)
    ensures c.replay > 0 <==> exists i :: 0 <= i < |visible| && visible[i].kind == Replay
    ensures c.shadow > 0 <==> exists i :: 0 <= i < |visible| && visible[i].kind == Shadow
    ensures c.success + c.failed <= |visible|
    ensures c.replay + c.shadow <= |visible|
  {
    CountIfNoneOrAll(visible, IsKind(Replay));
    CountIfNoneOrAll(visible, IsKind(Shadow));
    CountIfDisjoint(visible, HasStatus(Success), HasStatus(Failed));
    CountIfDisjoint(visible, IsKind(Replay), IsKind(Shadow));
    RowCounts(
      CountStatus(visible, Success),
      CountStatus(visible, Failed),
      CountKind(visible, Replay),
      CountKind(visible, Shadow))
  }

  /** What the badges of `name`'s row say about the whole record list: each counts the
      in-view records of its status or type, and no badge pair exceeds the row. */
  lemma RowCountsMeaning(execs: seq<Execution>, name: string, now: int, r: TimeRange, tf: TypeFilter)
    ensures var v := VisibleExecutions(execs, name, now, r, tf);
      var c := CountRow(v);
      var p := InViewOf(name, WindowStart(now, r), now, tf);
      && c.success == CountIf(execs, Both(p, HasStatus(Success)))
      && c.failed == CountIf(execs, Both(p, HasStatus(Failed)))
      && c.replay == CountIf(execs, Both(p, IsKind(Replay)))
      && c.shadow == CountIf(execs, Both(p, IsKind(Shadow)))
      && c.success + c.failed <= |v|
      && c.replay + c.shadow <= |v|
  {
    var v := VisibleExecutions(execs, name, now, r, tf);
    var p := InViewOf(name, WindowStart(now, r), now, tf);
    var selected := Filter(execs, p);
    CountIfPermutation(v, selected, HasStatus(Success));
    CountIfPermutation(v, selected, HasStatus(Failed));
    CountIfPermutation(v, selected, IsKind(Replay));
    CountIfPermutation(v, selected, IsKind(Shadow));
    CountIfFilter(execs, p, HasStatus(Success));
    CountIfFilter(execs, p, HasStatus(Failed));
    CountIfFilter(execs, p, IsKind(Replay));
    CountIfFilter(execs, p, IsKind(Shadow));
    CountIfDisjoint(v, HasStatus(Success), HasStatus(Failed));
    CountIfDisjoint(v, IsKind(Replay), IsKind(Shadow));
  }

  /** Under a single-type filter the other derived type never shows: a REPLAY filter
      leaves no SHADOW badge and a SHADOW filter no REPLAY badge. */
  lemma FilteredRowCounts(execs: seq<Execution>, name: string, now: int, r: TimeRange, tf: TypeFilter)
    ensures var c := CountRow(VisibleExecutions(execs, name, now, r, tf));
      && (tf == Only(Replay) ==> c.shadow == 0)
      && (tf == Only(Shadow) ==> c.replay == 0)
      && (tf == Only(Normal) ==> c.replay == 0 && c.shadow == 0)
  {
    var v := VisibleExecutions(execs, name, now, r, tf);
    forall i | 0 <= i < |v|
      ensures tf.Only? ==> v[i].kind == tf.kind
    {
      assert v[i] in v;
    }
    CountIfNoneOrAll(v, IsKind(Replay));
    CountIfNoneOrAll(v, IsKind(Shadow));
  }
}
