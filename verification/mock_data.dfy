/** The sample data the console ships with: five functions and seventeen execution
    records, every timestamp a whole number of minutes before the moment the module is
    loaded (src/data/mockData.ts:29-423). */
module MockData {
  import opened Executions
  import opened Seqs
  import opened TimeWindow
  import opened Rounding
  import opened Stats

  const Functions: seq<FunctionDef> := [
      FunctionDef("fn-1", "resizeImage", "Node.js 18", "v1.2.3", 1247, 3, true),
      FunctionDef("fn-2", "processPayment", "Python 3.11", "v2.0.1", 892, 0, true),
      FunctionDef("fn-3", "sendNotification", "Node.js 20", "v1.5.0", 2103, 5, true),
      FunctionDef("fn-4", "generateReport", "Python 3.9", "v3.1.2", 456, 1, true),
      FunctionDef("fn-5", "transcodeVideo", "Go 1.20", "v1.0.8", 234, 0, false)
    ]

  /** The sample records in source order, for a module loaded at `loadTime`. */
  function MockExecutions(loadTime: int): (s: seq<Execution>)
    ensures |s| == 17
  {
    [
      Execution(1001, "resizeImage", Success, Normal, None, 142.0, loadTime - 5 * MsPerMinute, "worker-a3f2", 1523),
      Execution(1002, "processPayment", Success, Normal, None, 287.0, loadTime - 8 * MsPerMinute, "worker-b7e1", 1524),
      Execution(1003, "sendNotification", Failed, Normal, None, 523.0, loadTime - 12 * MsPerMinute, "worker-c4d9", 1525),
      Execution(1013, "sendNotification", Success, Replay, Some(1003), 98.0, loadTime - 10 * MsPerMinute, "worker-c4d9", 1535),
      Execution(1004, "resizeImage", Success, Normal, None, 156.0, loadTime - 15 * MsPerMinute, "worker-a3f2", 1526),
      Execution(1005, "generateReport", Failed, Normal, None, 2341.0, loadTime - 18 * MsPerMinute, "worker-e8k2", 1527),
      Execution(1015, "generateReport", Failed, Shadow, Some(1005), 2456.0, loadTime - 17 * MsPerMinute, "worker-f9k3", 1537),
      Execution(1006, "processPayment", Success, Normal, None, 195.0, loadTime - 22 * MsPerMinute, "worker-b7e1", 1528),
      Execution(1016, "processPayment", Success, Shadow, Some(1006), 203.0, loadTime - 21 * MsPerMinute, "worker-b7e2", 1538),
      Execution(1007, "sendNotification", Success, Normal, None, 98.0, loadTime - 25 * MsPerMinute, "worker-c4d9", 1529),
      Execution(1008, "resizeImage", Success, Normal, None, 134.0, loadTime - 30 * MsPerMinute, "worker-a3f2", 1530),
      Execution(1018, "resizeImage", Success, Replay, Some(1008), 128.0, loadTime - 28 * MsPerMinute, "worker-a3f2", 1540),
      Execution(1009, "generateReport", Success, Normal, None, 1876.0, loadTime - 35 * MsPerMinute, "worker-e8k2", 1531),
      Execution(1010, "sendNotification", Failed, Normal, None, 412.0, loadTime - 40 * MsPerMinute, "worker-c4d9", 1532),
      Execution(1020, "sendNotification", Failed, Replay, Some(1010), 398.0, loadTime - 38 * MsPerMinute, "worker-c4d9", 1542),
      Execution(1011, "processPayment", Success, Normal, None, 223.0, loadTime - 45 * MsPerMinute, "worker-b7e1", 1533),
      Execution(1012, "resizeImage", Success, Normal, None, 167.0, loadTime - 50 * MsPerMinute, "worker-a3f2", 1534)
    ]
  }

  /** Every sample record started between 5 and 50 minutes before the module was loaded,
      and ran for a positive number of milliseconds. */
  lemma MockStampsInLastHour(loadTime: int)
    ensures var s := MockExecutions(loadTime);
      forall i :: 0 <= i < |s| ==>
        && loadTime - 50 * MsPerMinute <= s[i].timestamp <= loadTime - 5 * MsPerMinute
        && s[i].duration > 0.0
  {
    var s := MockExecutions(loadTime);
    forall i | 0 <= i < |s|
      ensures loadTime - 50 * MsPerMinute <= s[i].timestamp <= loadTime - 5 * MsPerMinute
      ensures s[i].duration > 0.0
    {
      Indices(i);
    }
  }

  /** Every index of the sample list, spelled out. */
  lemma Indices(i: int)
    requires 0 <= i < 17
    ensures i == 0 || i == 1 || i == 2 || i == 3 || i == 4 || i == 5 || i == 6 || i == 7 || i == 8 || i == 9 || i == 10 || i == 11 || i == 12 || i == 13 || i == 14 || i == 15 || i == 16
  {
  }

  /** The position of each sample id in the list. */
  function IdIndex(id: int): int
  {
    match id
    case 1001 => 0
    case 1002 => 1
    case 1003 => 2
    case 1013 => 3
    case 1004 => 4
    case 1005 => 5
    case 1015 => 6
    case 1006 => 7
    case 1016 => 8
    case 1007 => 9
    case 1008 => 10
    case 1018 => 11
    case 1009 => 12
    case 1010 => 13
    case 1020 => 14
    case 1011 => 15
    case 1012 => 16
    case _ => -1
  }

  /** Each sample id is found at its own position, so no two records share an id. */
  lemma MockIdsUnique(loadTime: int)
    ensures UniqueIds(MockExecutions(loadTime))
  {
    var s := MockExecutions(loadTime);
    forall i | 0 <= i < |s|
      ensures IdIndex(s[i].id) == i
    {
      Indices(i);
    }
  }

  /** NORMAL sample records carry no parent id. */
  lemma MockNormalsHaveNoParent(loadTime: int)
    ensures var s := MockExecutions(loadTime);
      forall i :: 0 <= i < |s| && s[i].kind == Normal ==> s[i].parent.None?
  {
    var s := MockExecutions(loadTime);
    forall i | 0 <= i < |s| && s[i].kind == Normal
      ensures s[i].parent.None?
    {
      Indices(i);
    }
  }

  /** Every REPLAY/SHADOW sample record points at a NORMAL record of the same function
      that is earlier both by Lamport clock and by start time. */
  lemma MockParentsResolve(loadTime: int)
    ensures var s := MockExecutions(loadTime);
      forall i :: 0 <= i < |s| && s[i].kind != Normal ==>
        && s[i].parent.Some?
        && exists j :: 0 <= j < |s| && s[j].id == s[i].parent.value
                       && s[j].functionName == s[i].functionName
                       && s[j].kind == Normal
                       && s[j].lamport < s[i].lamport
                       && s[j].timestamp < s[i].timestamp
  {
    var s := MockExecutions(loadTime);
    forall i | 0 <= i < |s| && s[i].kind != Normal
      ensures && s[i].parent.Some?
              && exists j :: 0 <= j < |s| && s[j].id == s[i].parent.value
                             && s[j].functionName == s[i].functionName
                             && s[j].kind == Normal
                             && s[j].lamport < s[i].lamport
                             && s[j].timestamp < s[i].timestamp
    {
      Indices(i);
      if i == 3 {
        assert s[2].id == s[3].parent.value;
      } else if i == 6 {
        assert s[5].id == s[6].parent.value;
      } else if i == 8 {
        assert s[7].id == s[8].parent.value;
      } else if i == 11 {
        assert s[10].id == s[11].parent.value;
      } else if i == 14 {
        assert s[13].id == s[14].parent.value;
      }
    }
  }

  /** The sample records satisfy the intended link discipline. */
  lemma MockIsWellLinked(loadTime: int)
    ensures WellLinked(MockExecutions(loadTime))
  {
    MockIdsUnique(loadTime);
    MockNormalsHaveNoParent(loadTime);
    MockParentsResolve(loadTime);
  }

  function Bit(b: bool): nat
  {
    if b then 1 else 0
  }

  /** Counting `p` over a suffix peels off four elements at a time. */
  lemma Tally4(s: seq<Execution>, k: nat, p: Execution -> bool)
    requires k + 4 <= |s|
    ensures CountIf(s[k..], p)
         == Bit(p(s[k])) + Bit(p(s[k + 1])) + Bit(p(s[k + 2])) + Bit(p(s[k + 3])) + CountIf(s[k + 4..], p)
  {
    CountIfSuffix(s, k, p);
    CountIfSuffix(s, k + 1, p);
    CountIfSuffix(s, k + 2, p);
    CountIfSuffix(s, k + 3, p);
  }

  /** Counting `p` over a list of seventeen adds up its verdict on each element. */
  lemma Tally17(s: seq<Execution>, p: Execution -> bool)
    requires |s| == 17
    ensures CountIf(s, p) ==
          Bit(p(s[0])) +
          Bit(p(s[1])) +
          Bit(p(s[2])) +
          Bit(p(s[3])) +
          Bit(p(s[4])) +
          Bit(p(s[5])) +
          Bit(p(s[6])) +
          Bit(p(s[7])) +
          Bit(p(s[8])) +
          Bit(p(s[9])) +
          Bit(p(s[10])) +
          Bit(p(s[11])) +
          Bit(p(s[12])) +
          Bit(p(s[13])) +
          Bit(p(s[14])) +
          Bit(p(s[15])) +
          Bit(p(s[16]))
  {
    TallyUpper(s, p);
    TallyLower(s, p);
  }

  lemma TallyUpper(s: seq<Execution>, p: Execution -> bool)
    requires |s| == 17
    ensures CountIf(s[8..], p) == Bit(p(s[8])) + Bit(p(s[9])) + Bit(p(s[10])) + Bit(p(s[11])) + Bit(p(s[12])) + Bit(p(s[13])) + Bit(p(s[14])) + Bit(p(s[15])) + Bit(p(s[16]))
  {
    assert s[17..] == [];
    CountIfSuffix(s, 16, p);
    Tally4(s, 12, p);
    Tally4(s, 8, p);
  }

  lemma TallyLower(s: seq<Execution>, p: Execution -> bool)
    requires |s| == 17
    ensures CountIf(s, p) == Bit(p(s[0])) + Bit(p(s[1])) + Bit(p(s[2])) + Bit(p(s[3])) + Bit(p(s[4])) + Bit(p(s[5])) + Bit(p(s[6])) + Bit(p(s[7])) + CountIf(s[8..], p)
  {
    assert CountIf(s[4..], p) == Bit(p(s[4])) + Bit(p(s[5])) + Bit(p(s[6])) + Bit(p(s[7])) + CountIf(s[8..], p) by {
      Tally4(s, 4, p);
    }
    assert CountIf(s[0..], p) == Bit(p(s[0])) + Bit(p(s[1])) + Bit(p(s[2])) + Bit(p(s[3])) + CountIf(s[4..], p) by {
      Tally4(s, 0, p);
    }
    WholeSuffix(s, p);
  }

  lemma WholeSuffix(s: seq<Execution>, p: Execution -> bool)
    ensures CountIf(s[0..], p) == CountIf(s, p)
  {
    assert s[0..] == s;
  }

  /** The type and status counts of the sample data, one count per lemma. */
  lemma MockNormalCount(loadTime: int)
    ensures CountKind(MockExecutions(loadTime), Normal) == 12
  {
    Tally17(MockExecutions(loadTime), IsKind(Normal));
  }

  lemma MockReplayCount(loadTime: int)
    ensures CountKind(MockExecutions(loadTime), Replay) == 3
  {
    Tally17(MockExecutions(loadTime), IsKind(Replay));
  }

  lemma MockShadowCount(loadTime: int)
    ensures CountKind(MockExecutions(loadTime), Shadow) == 2
  {
    Tally17(MockExecutions(loadTime), IsKind(Shadow));
  }

  lemma MockSuccessCount(loadTime: int)
    ensures CountStatus(MockExecutions(loadTime), Success) == 12
  {
    Tally17(MockExecutions(loadTime), HasStatus(Success));
  }

  lemma MockFailedCount(loadTime: int)
    ensures CountStatus(MockExecutions(loadTime), Failed) == 5
  {
    Tally17(MockExecutions(loadTime), HasStatus(Failed));
  }

  /** Any seventeen records with the sample's type and status counts give the sample's
      figures. */
  lemma StatsOfSampleCounts(s: seq<Execution>)
    requires |s| == 17
    requires CountKind(s, Normal) == 12 && CountKind(s, Replay) == 3 && CountKind(s, Shadow) == 2
    requires CountStatus(s, Success) == 12 && CountStatus(s, Failed) == 5
    ensures GetExecutionStats(s) == ExecutionStats(17, 12, 3, 2, 12, 5, 18, 12, 71, 29)
  {
    assert RoundPercent(3, 17) == 18;
    assert RoundPercent(2, 17) == 12;
    assert RoundPercent(12, 17) == 71;
    assert RoundPercent(5, 17) == 29;
  }

  /** The figures `getExecutionStats` reports for the sample data: 17 records, of which
      12 NORMAL, 3 REPLAY and 2 SHADOW, 12 succeeded and 5 failed; replay rate 18%,
      shadow rate 12%, success rate 71% and debug rate 29%. */
  lemma MockStats(loadTime: int)
    ensures GetExecutionStats(MockExecutions(loadTime))
         == ExecutionStats(17, 12, 3, 2, 12, 5, 18, 12, 71, 29)
  {
    MockNormalCount(loadTime);
    MockReplayCount(loadTime);
    MockShadowCount(loadTime);
    MockSuccessCount(loadTime);
    MockFailedCount(loadTime);
    StatsOfSampleCounts(MockExecutions(loadTime));
  }

  /** `name` is the name of a declared, active function. */
  ghost predicate DeclaredActive(name: string)
  {
    exists f :: 0 <= f < |Functions| && Functions[f].name == name && Functions[f].active
  }

  /** The position in `Functions` of the function each sample record runs. */
  function FunctionIndex(i: int): (f: nat)
    ensures f < 4
  {
    match i
    case 0 => 0
    case 1 => 1
    case 2 => 2
    case 3 => 2
    case 4 => 0
    case 5 => 3
    case 6 => 3
    case 7 => 1
    case 8 => 1
    case 9 => 2
    case 10 => 0
    case 11 => 0
    case 12 => 3
    case 13 => 2
    case 14 => 2
    case 15 => 1
    case 16 => 0
    case _ => 0
  }

  lemma RecordFunction(loadTime: int, i: int)
    requires 0 <= i < 17
    ensures MockExecutions(loadTime)[i].functionName == Functions[FunctionIndex(i)].name
  {
    Indices(i);
  }

  /** Every sample record runs one of the declared functions, and that function is
      active. */
  lemma MockFunctionsDeclared(loadTime: int)
    ensures var s := MockExecutions(loadTime);
      forall i :: 0 <= i < |s| ==> DeclaredActive(s[i].functionName)
  {
    var s := MockExecutions(loadTime);
    forall i | 0 <= i < |s|
      ensures DeclaredActive(s[i].functionName)
    {
      RecordFunction(loadTime, i);
      var f := FunctionIndex(i);
      assert Functions[f].active;
    }
  }

  /** The one inactive function, `transcodeVideo`, has no sample records. */
  lemma MockInactiveHasNoRecords(loadTime: int)
    ensures !Functions[4].active
    ensures var s := MockExecutions(loadTime);
      forall i :: 0 <= i < |s| ==> s[i].functionName != Functions[4].name
  {
    var s := MockExecutions(loadTime);
    assert Functions[4].name == "transcodeVideo";
    forall i | 0 <= i < |s|
      ensures s[i].functionName != "transcodeVideo"
    {
      Indices(i);
    }
  }

  /** The sample Lamport clocks run in the same order as the ids: a larger id always
      carries a larger clock. */
  lemma MockLamportFollowsIds(loadTime: int)
    ensures var s := MockExecutions(loadTime);
      forall i, j :: 0 <= i < |s| && 0 <= j < |s| && s[i].id < s[j].id ==> s[i].lamport < s[j].lamport
  {
    var s := MockExecutions(loadTime);
    forall i | 0 <= i < |s|
      ensures s[i].lamport == s[i].id + 522
    {
      Indices(i);
    }
  }
}
