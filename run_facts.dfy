/**
 * What a run guarantees: the order in which nodes are announced is the
 * pre-order of the tree, one `go test` process is spawned per test in that
 * same order, and only suite/test events occur, none of them a failure.
 */
module RunFacts {
  import opened Text
  import opened TestTree
  import opened Discovery
  import opened RunEngine

  /** The ids of the `running` announcements of `steps`, in order. */
  function StartedIds(steps: seq<Step>): seq<string> {
    if steps == [] then []
    else
      var head := match steps[0]
        case Fire(SuiteEvent(id, SuiteRunning)) => [id]
        case Fire(TestEvent(id, TestRunning)) => [id]
        case _ => [];
      head + StartedIds(steps[1..])
  }

  /** The processes spawned by `steps`, in order. */
  function Spawned(steps: seq<Step>): seq<Launch> {
    if steps == [] then []
    else (if steps[0].Spawn? then [steps[0].launch] else []) + Spawned(steps[1..])
  }

  /** One `go test` launch per test, in order. */
  function LaunchesFor(tests: seq<Node>, cwd: Option<string>): seq<Launch>
    requires forall t :: t in tests ==> t.Test?
  {
    if tests == [] then []
    else [Launch(GoRuntimePath, GoTestArgs(tests[0]), cwd)] + LaunchesFor(tests[1..], cwd)
  }

  /** An event about a single node that is not a failure. */
  predicate NodeEvent(e: Event) {
    e.SuiteEvent? || (e.TestEvent? && e.testState != TestFailed)
  }

  lemma {:induction false} StartedIdsConcat(a: seq<Step>, b: seq<Step>)
    ensures StartedIds(a + b) == StartedIds(a) + StartedIds(b)
    decreases |a|
  {
    if a == [] {
      assert a + b == b;
    } else {
      assert (a + b)[0] == a[0];
      assert (a + b)[1..] == a[1..] + b;
      StartedIdsConcat(a[1..], b);
    }
  }

  lemma {:induction false} SpawnedConcat(a: seq<Step>, b: seq<Step>)
    ensures Spawned(a + b) == Spawned(a) + Spawned(b)
    decreases |a|
  {
    if a == [] {
      assert a + b == b;
    } else {
      assert (a + b)[0] == a[0];
      assert (a + b)[1..] == a[1..] + b;
      SpawnedConcat(a[1..], b);
    }
  }

  lemma {:induction false} LaunchesForConcat(a: seq<Node>, b: seq<Node>, cwd: Option<string>)
    requires forall t :: t in a + b ==> t.Test?
    ensures LaunchesFor(a + b, cwd) == LaunchesFor(a, cwd) + LaunchesFor(b, cwd)
    decreases |a|
  {
    if a == [] {
      assert a + b == b;
    } else {
      assert (a + b)[0] == a[0];
      assert (a + b)[1..] == a[1..] + b;
      LaunchesForConcat(a[1..], b, cwd);
    }
  }

  lemma IdsConcat(a: seq<Node>, b: seq<Node>)
    ensures Ids(a + b) == Ids(a) + Ids(b)
  {
  }

  /**
   * Every node of the tree is announced `running` exactly once, in
   * pre-order: a parent before its children, children left to right.
   */
  lemma {:induction false} StartOrderIsPreOrder(n: Node, cwd: Option<string>)
    ensures StartedIds(RunSteps(n, cwd)) == Ids(Flatten(n))
    decreases n, 1
  {
    match n
    case Test(id, _, _, _) =>
      var steps := RunSteps(n, cwd);
      assert steps[1..][1..][1..] == [];
      assert StartedIds(steps[1..][1..]) == [];
      assert StartedIds(steps[1..]) == [];
    case Suite(id, _, children) =>
      var open := [Fire(SuiteEvent(id, SuiteRunning))];
      var close := [Fire(SuiteEvent(id, SuiteCompleted))];
      var inner := RunAllSteps(children, cwd);
      AllStartOrderIsPreOrder(children, cwd);
      StartedIdsConcat(open + inner, close);
      StartedIdsConcat(open, inner);
      assert StartedIds(close) == [];
      IdsConcat([n], FlattenAll(children));
  }

  lemma {:induction false} AllStartOrderIsPreOrder(children: seq<Node>, cwd: Option<string>)
    ensures StartedIds(RunAllSteps(children, cwd)) == Ids(FlattenAll(children))
    decreases children, 0
  {
    if children != [] {
      StartOrderIsPreOrder(children[0], cwd);
      AllStartOrderIsPreOrder(children[1..], cwd);
      StartedIdsConcat(RunSteps(children[0], cwd), RunAllSteps(children[1..], cwd));
      IdsConcat(Flatten(children[0]), FlattenAll(children[1..]));
    }
  }

  /**
   * Running a node spawns exactly one `go test` process per test below it,
   * in pre-order, each with that test's own argument list.
   */
  lemma {:induction false} SpawnsFollowTests(n: Node, cwd: Option<string>)
    ensures Spawned(RunSteps(n, cwd)) == LaunchesFor(TestsOf(Flatten(n)), cwd)
    decreases n, 1
  {
    match n
    case Test(_, _, _, _) =>
      var steps := RunSteps(n, cwd);
      assert TestsOf(Flatten(n)) == [n];
      assert steps[1..][1..][1..] == [];
      assert Spawned(steps[1..][1..]) == [];
      assert Spawned(steps[1..]) == [steps[1].launch];
      assert LaunchesFor([n], cwd) == [Launch(GoRuntimePath, GoTestArgs(n), cwd)] + LaunchesFor([], cwd);
    case Suite(id, _, children) =>
      var open := [Fire(SuiteEvent(id, SuiteRunning))];
      var close := [Fire(SuiteEvent(id, SuiteCompleted))];
      var inner := RunAllSteps(children, cwd);
      AllSpawnsFollowTests(children, cwd);
      assert RunSteps(n, cwd) == open + inner + close;
      SpawnedConcat(open + inner, close);
      SpawnedConcat(open, inner);
      assert Spawned(close) == [] && Spawned(open) == [];
      TestsOfConcat([n], FlattenAll(children));
      assert TestsOf([n]) == [];
      assert Flatten(n) == [n] + FlattenAll(children);
      assert TestsOf(Flatten(n)) == TestsOf(FlattenAll(children));
      assert Spawned(RunSteps(n, cwd)) == Spawned(inner);
  }

  lemma {:induction false} AllSpawnsFollowTests(children: seq<Node>, cwd: Option<string>)
    ensures Spawned(RunAllSteps(children, cwd)) == LaunchesFor(TestsOf(FlattenAll(children)), cwd)
    decreases children, 0
  {
    if children != [] {
      SpawnsFollowTests(children[0], cwd);
      AllSpawnsFollowTests(children[1..], cwd);
      SpawnedConcat(RunSteps(children[0], cwd), RunAllSteps(children[1..], cwd));
      TestsOfConcat(Flatten(children[0]), FlattenAll(children[1..]));
      LaunchesForConcat(TestsOf(Flatten(children[0])), TestsOf(FlattenAll(children[1..])), cwd);
    }
  }

  /**
   * Running a node fires only suite and test events (never a run
   * bracket), no test ever fails, and the node's own `running` event comes
   * first and its `completed`/`passed` event last.
   */
  lemma {:induction false} RunStepsOnlyNodeEvents(n: Node, cwd: Option<string>)
    ensures forall s :: s in RunSteps(n, cwd) && s.Fire? ==> NodeEvent(s.event)
    ensures |RunSteps(n, cwd)| >= 2
    ensures RunSteps(n, cwd)[0] == if n.Suite? then Fire(SuiteEvent(n.id, SuiteRunning)) else Fire(TestEvent(n.id, TestRunning))
    ensures RunSteps(n, cwd)[|RunSteps(n, cwd)| - 1] ==
              if n.Suite? then Fire(SuiteEvent(n.id, SuiteCompleted)) else Fire(TestEvent(n.id, TestPassed))
    decreases n, 1
  {
    match n
    case Test(_, _, _, _) =>
    case Suite(_, _, children) =>
      AllRunStepsOnlyNodeEvents(children, cwd);
  }

  lemma {:induction false} AllRunStepsOnlyNodeEvents(children: seq<Node>, cwd: Option<string>)
    ensures forall s :: s in RunAllSteps(children, cwd) && s.Fire? ==> NodeEvent(s.event)
    decreases children, 0
  {
    if children != [] {
      RunStepsOnlyNodeEvents(children[0], cwd);
      AllRunStepsOnlyNodeEvents(children[1..], cwd);
    }
  }

  // ---- the built-in fake suite ----

  /** The pre-order listing of the fake suite. */
  lemma FakeTestSuiteFlatten()
    ensures Flatten(FakeTestSuite) == FakePreOrder()
  {
    var t1, t2 := Test("test1", "Test #1", None, None), Test("test2", "Test #2", None, None);
    var t3, t4 := Test("test3", "Test #3", None, None), Test("test4", "Test #4", None, None);
    var nested := Suite("nested", "Nested suite", [t1, t2]);
    assert FakeTestSuite == Suite("root", "Fake", [nested, t3, t4]);
    assert [t1, t2][1..] == [t2] && [t2][1..] == [];
    assert FlattenAll([t2]) == [t2];
    assert Flatten(nested) == [nested, t1, t2];
    assert [nested, t3, t4][1..] == [t3, t4] && [t3, t4][1..] == [t4] && [t4][1..] == [];
    assert FlattenAll([t4]) == [t4];
    assert FlattenAll([t3, t4]) == [t3, t4];
  }

  /** The fake suite's nodes, in pre-order. */
  function FakePreOrder(): seq<Node> {
    var t1, t2 := Test("test1", "Test #1", None, None), Test("test2", "Test #2", None, None);
    var t3, t4 := Test("test3", "Test #3", None, None), Test("test4", "Test #4", None, None);
    [Suite("root", "Fake", [Suite("nested", "Nested suite", [t1, t2]), t3, t4]),
     Suite("nested", "Nested suite", [t1, t2]), t1, t2, t3, t4]
  }

  /** Leaf tests are their own test listing. */
  lemma {:induction false} TestsOfLeaves(s: seq<Node>)
    requires forall k :: 0 <= k < |s| ==> s[k].Test?
    ensures TestsOf(s) == s
    decreases |s|
  {
    if s != [] {
      TestsOfLeaves(s[1..]);
    }
  }

  /** The fake suite: a root, one nested suite holding `test1` and `test2`, then `test3` and `test4`. */
  lemma FakeTestSuiteShape()
    ensures Ids(Flatten(FakeTestSuite)) == ["root", "nested", "test1", "test2", "test3", "test4"]
    ensures Ids(TestsOf(Flatten(FakeTestSuite))) == ["test1", "test2", "test3", "test4"]
  {
    FakeTestSuiteFlatten();
    TestsOfFakePreOrder();
    IdsOfFakePreOrder();
  }

  lemma TestsOfFakePreOrder()
    ensures TestsOf(FakePreOrder()) == FakePreOrder()[2..]
  {
    var all := FakePreOrder();
    TestsAfterTwoSuites(all[0], all[1], all[2..]);
    assert all == [all[0], all[1]] + all[2..];
  }

  lemma TestsAfterTwoSuites(a: Node, b: Node, tests: seq<Node>)
    requires a.Suite? && b.Suite?
    requires forall k :: 0 <= k < |tests| ==> tests[k].Test?
    ensures TestsOf([a, b] + tests) == tests
  {
    TestsOfConcat([a, b], tests);
    assert [a, b][1..] == [b] && [b][1..] == [];
    TestsOfLeaves(tests);
  }

  lemma IdsOfFakePreOrder()
    ensures Ids(FakePreOrder()) == ["root", "nested", "test1", "test2", "test3", "test4"]
    ensures Ids(FakePreOrder()[2..]) == ["test1", "test2", "test3", "test4"]
  {
    var ids := Ids(FakePreOrder());
    assert |ids| == 6;
    assert ids[0] == "root" && ids[1] == "nested";
    assert ids[2] == "test1" && ids[3] == "test2" && ids[4] == "test3" && ids[5] == "test4";
  }

  /**
   * `runFakeTests` with ids none of which occurs in the fake suite does
   * nothing at all.
   */
  lemma {:induction false} FakeRunUnknownIds(tests: seq<string>, cwd: Option<string>)
    requires forall k :: 0 <= k < |tests| ==> tests[k] !in Ids(Flatten(FakeTestSuite))
    ensures FakeRunSteps(tests, cwd) == []
    decreases |tests|
  {
    if tests != [] {
      var last := tests[|tests| - 1];
      FakeRunUnknownIds(tests[..|tests| - 1], cwd);
      FindNodeIsFirstInPreOrder(FakeTestSuite, last);
      assert FindNode(FakeTestSuite, last).None?;
    }
  }

  /** Running the fake suite's nested suite announces it, runs `test1` then `test2`, and completes it. */
  lemma FakeRunNested(cwd: Option<string>)
    ensures FakeRunSteps(["nested"], cwd) == [
              Fire(SuiteEvent("nested", SuiteRunning)),
              Fire(TestEvent("test1", TestRunning)),
              Spawn(Launch(GoRuntimePath, ["test", "-v", "-run", "^(Test #1)$", "."], cwd)),
              Fire(TestEvent("test1", TestPassed)),
              Fire(TestEvent("test2", TestRunning)),
              Spawn(Launch(GoRuntimePath, ["test", "-v", "-run", "^(Test #2)$", "."], cwd)),
              Fire(TestEvent("test2", TestPassed)),
              Fire(SuiteEvent("nested", SuiteCompleted))
            ]
  {
    var t1, t2 := Test("test1", "Test #1", None, None), Test("test2", "Test #2", None, None);
    var nested := Suite("nested", "Nested suite", [t1, t2]);
    assert FakeTestSuite.children[0] == nested;
    assert FindNode(FakeTestSuite, "nested") == Some(nested);
    assert ["nested"][..0] == [];
    assert FakeRunSteps(["nested"], cwd) == RunSteps(nested, cwd);
    assert Dirname("") == ".";
    assert "^(" + "Test #1" + ")$" == "^(Test #1)$";
    assert "^(" + "Test #2" + ")$" == "^(Test #2)$";
    assert GoTestArgs(t1) == ["test", "-v", "-run", "^(Test #1)$", "."];
    assert GoTestArgs(t2) == ["test", "-v", "-run", "^(Test #2)$", "."];
    assert [t1, t2][1..] == [t2] && [t2][1..] == [];
    assert RunAllSteps([t2], cwd) == RunSteps(t2, cwd);
    assert RunAllSteps([t1, t2], cwd) == RunSteps(t1, cwd) + RunSteps(t2, cwd);
  }
}
