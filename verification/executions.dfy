/** The execution record of the EventOS console and the causal parent link between
    records (src/data/mockData.ts:1-27). */
module Executions {
  import opened Seqs

  /** NORMAL is an organic invocation, REPLAY a forced re-run of an earlier record,
      SHADOW a comparison run dispatched alongside an original. */
  datatype ExecutionType = Normal | Replay | Shadow

  datatype ExecutionStatus = Success | Failed | Running

  datatype Option<T> = None | Some(value: T)

  /** One execution record. `functionName` and `kind` stand for the source's `function`
      and `type` fields (both are Dafny keywords). Timestamps are milliseconds since the
      epoch. A duration is any number of milliseconds, fractional or negative, as an exact
      real. `input`, `output` and `logs` are free-form payloads and are not modelled. */
  datatype Execution = Execution(
    id: int,
    functionName: string,
    status: ExecutionStatus,
    kind: ExecutionType,
    parent: Option<int>,
    duration: real,
    timestamp: int,
    worker: string,
    lamport: int
  )

  /** A deployed function; executions refer to it by name only. */
  datatype FunctionDef = FunctionDef(
    id: string,
    name: string,
    runtime: string,
    currentVersion: string,
    executions24h: nat,
    failures24h: nat,
    active: bool
  )

  /** The wire spelling of a status, as handed to the marker styling. */
  function StatusName(s: ExecutionStatus): string
  {
    match s
    case Success => "SUCCESS"
    case Failed => "FAILED"
    case Running => "RUNNING"
  }

  function IsKind(t: ExecutionType): Execution -> bool
  {
    (e: Execution) => e.kind == t
  }

  function HasStatus(s: ExecutionStatus): Execution -> bool
  {
    (e: Execution) => e.status == s
  }

  /** Number of records of type `t`. */
  function CountKind(s: seq<Execution>, t: ExecutionType): nat
  {
    CountIf(s, IsKind(t))
  }

  /** Number of records with status `st`. */
  function CountStatus(s: seq<Execution>, st: ExecutionStatus): nat
  {
    CountIf(s, HasStatus(st))
  }

  /** Every record has exactly one of the three types, so the type counts partition the list. */
  lemma {:induction false} KindCountsPartition(s: seq<Execution>)
    ensures CountKind(s, Normal) + CountKind(s, Replay) + CountKind(s, Shadow) == |s|
    decreases |s|
  {
    if |s| > 0 {
      KindCountsPartition(s[1..]);
    }
  }

  /** Every record has exactly one of the three statuses, so the status counts partition the list. */
  lemma {:induction false} StatusCountsPartition(s: seq<Execution>)
    ensures CountStatus(s, Success) + CountStatus(s, Failed) + CountStatus(s, Running) == |s|
    decreases |s|
  {
    if |s| > 0 {
      StatusCountsPartition(s[1..]);
    }
  }

  /** Resolves an id to the first record carrying it, or `None` for a dangling id. */
  function FindById(s: seq<Execution>, id: int): (r: Option<Execution>)
    ensures r.Some? ==> r.value in s && r.value.id == id
    ensures r.None? <==> forall i :: 0 <= i < |s| ==> s[i].id != id
    ensures r.Some? ==> exists i :: 0 <= i < |s| && s[i] == r.value && forall j :: 0 <= j < i ==> s[j].id != id
  {
    if |s| == 0 then None
    else if s[0].id == id then Some(s[0])
    else
      var r := FindById(s[1..], id);
      assert forall i :: 1 <= i < |s| ==> s[i] == s[1..][i - 1];
      if r.Some? then
        var i :| 0 <= i < |s[1..]| && s[1..][i] == r.value && forall j :: 0 <= j < i ==> s[1..][j].id != id;
        assert s[i + 1] == r.value && forall j :: 0 <= j < i + 1 ==> s[j].id != id;
        r
      else
        r
  }

  /** The record a REPLAY or SHADOW record was derived from, when the link resolves. */
  function ParentOf(s: seq<Execution>, e: Execution): (r: Option<Execution>)
    ensures e.parent.None? ==> r.None?
    ensures r.Some? ==> r.value in s && e.parent == Some(r.value.id)
    ensures e.parent.Some? ==> (r.Some? <==> exists i :: 0 <= i < |s| && s[i].id == e.parent.value)
  {
    match e.parent
    case None => None
    case Some(p) => FindById(s, p)
  }

  /** What the executions table renders after a record's own id. The table writes
      `parentExecutionId && <arrow label>`: a null id renders nothing, a non-zero id renders
      the arrow label "← #id", and an id of 0 is falsy, so the expression evaluates to the
      number 0, which React renders as the bare text "0". */
  datatype ParentText = NoText | BareZero | Arrow(parentId: int)

  function ParentLabel(e: Execution): (r: ParentText)
    ensures r == NoText <==> e.parent.None?
    ensures r == BareZero <==> e.parent == Some(0)
    ensures r.Arrow? <==> e.parent.Some? && e.parent.value != 0
    ensures r.Arrow? ==> e.parent == Some(r.parentId)
  {
    match e.parent
    case None => NoText
    case Some(p) => if p != 0 then Arrow(p) else BareZero
  }

  /** No two records share an id. */
  ghost predicate UniqueIds(s: seq<Execution>)
  {
    forall i, j :: 0 <= i < j < |s| ==> s[i].id != s[j].id
  }

  /** The intended shape of the parent links: NORMAL records have no parent, and a
      REPLAY/SHADOW record's parent exists, belongs to the same function, is a NORMAL
      record (so links never chain or cycle) and is causally earlier by Lamport clock. */
  ghost predicate WellLinked(s: seq<Execution>)
  {
    && UniqueIds(s)
    && forall i :: 0 <= i < |s| ==>
         match s[i].kind
         case Normal => s[i].parent.None?
         case _ =>
           && s[i].parent.Some?
           && exists j :: 0 <= j < |s| && s[j].id == s[i].parent.value
                          && s[j].functionName == s[i].functionName
                          && s[j].kind == Normal
                          && s[j].lamport < s[i].lamport
  }

  /** In a well-linked list, every derived record resolves to its parent, a NORMAL record
      of the same function with a smaller Lamport clock. */
  lemma ParentResolves(s: seq<Execution>, i: int)
    requires WellLinked(s)
    requires 0 <= i < |s| && s[i].kind != Normal
    ensures ParentOf(s, s[i]).Some?
    ensures ParentOf(s, s[i]).value.functionName == s[i].functionName
    ensures ParentOf(s, s[i]).value.kind == Normal
    ensures ParentOf(s, s[i]).value.lamport < s[i].lamport
  {
    var j :| 0 <= j < |s| && s[j].id == s[i].parent.value
             && s[j].functionName == s[i].functionName
             && s[j].kind == Normal
             && s[j].lamport < s[i].lamport;
    var r := ParentOf(s, s[i]);
    assert r.Some?;
    var k :| 0 <= k < |s| && s[k] == r.value;
    assert k == j;
  }

  /** In a well-linked list the table marks exactly the REPLAY and SHADOW records, and
      an arrow label names the record the parent link resolves to. */
  lemma ParentLabelInWellLinked(s: seq<Execution>, i: int)
    requires WellLinked(s)
    requires 0 <= i < |s|
    ensures ParentLabel(s[i]) == NoText <==> s[i].kind == Normal
    ensures ParentLabel(s[i]).Arrow? ==>
              ParentOf(s, s[i]).Some? && ParentOf(s, s[i]).value.id == ParentLabel(s[i]).parentId
  {
    if s[i].kind != Normal {
      ParentResolves(s, i);
    }
  }
}
