/**
 * The test adapter (src/adapter.ts, class `ExampleAdapter`): it loads the
 * test tree, keeps an index of every node by id, and runs requested ids by
 * looking them up in that index. The two event emitters are recorded as
 * the sequences of events fired on them; `run` records on the same trace
 * the processes `runNode` spawns.
 */
module Adapter {
  import opened TestTree
  import opened Discovery
  import opened RunEngine
  import opened RunFacts

  /** The events of the `tests` emitter. */
  datatype LoadEvent = LoadStarted | LoadFinished(suite: Node)

  /** The three emitters the adapter registers for disposal. */
  datatype Disposable = TestsEmitter | TestStatesEmitter | AutorunEmitter

  /** How a call ends: normally, or by throwing an error with a message. */
  datatype Outcome = Returned | Threw(message: string)

  const NotImplemented := "Method not implemented."

  // ---- the node index ----

  /**
   * The index after `set(n.id, n)` for every node of `s`, in order, on
   * top of `m`: later nodes overwrite earlier ones with the same id.
   */
  function Indexed(m: map<string, Node>, s: seq<Node>): map<string, Node> {
    if s == [] then m
    else Indexed(m, s[..|s| - 1])[s[|s| - 1].id := s[|s| - 1]]
  }

  /** The last node of `s` with the given id. */
  function LastWithId(s: seq<Node>, id: string): (r: Option<Node>)
    ensures r.None? <==> forall k :: 0 <= k < |s| ==> s[k].id != id
    ensures r.Some? ==> exists k :: 0 <= k < |s| && s[k] == r.value && r.value.id == id
                                    && forall j :: k < j < |s| ==> s[j].id != id
  {
    if s == [] then None
    else if s[|s| - 1].id == id then Some(s[|s| - 1])
    else
      var r := LastWithId(s[..|s| - 1], id);
      assert forall j :: 0 <= j < |s| - 1 ==> s[j] == s[..|s| - 1][j];
      r
  }

  lemma {:induction false} IndexedConcat(m: map<string, Node>, a: seq<Node>, b: seq<Node>)
    ensures Indexed(m, a + b) == Indexed(Indexed(m, a), b)
    decreases |b|
  {
    if b == [] {
      assert a + b == a;
    } else {
      var init := b[..|b| - 1];
      IndexedConcat(m, a, init);
      assert (a + b)[..|a + b| - 1] == a + init;
      assert (a + b)[|a + b| - 1] == b[|b| - 1];
    }
  }

  /**
   * A key is in the index exactly when it was there before or some node
   * of `s` has it as id; it then maps to the last such node of `s`, and
   * keys no node has keep their old entry.
   */
  lemma {:induction false} IndexedLookup(m: map<string, Node>, s: seq<Node>, k: string)
    ensures k in Indexed(m, s) <==> k in m || LastWithId(s, k).Some?
    ensures LastWithId(s, k).Some? ==> Indexed(m, s)[k] == LastWithId(s, k).value
    ensures k in m && LastWithId(s, k).None? ==> Indexed(m, s)[k] == m[k]
    decreases |s|
  {
    if s != [] {
      IndexedLookup(m, s[..|s| - 1], k);
    }
  }

  /** No two nodes of `s` share an id. */
  predicate DistinctIds(s: seq<Node>) {
    forall i, j :: 0 <= i < j < |s| ==> s[i].id != s[j].id
  }

  /** Without duplicate ids, the first and the last node with an id are the same node. */
  lemma FirstIsLastWhenDistinct(s: seq<Node>, id: string)
    requires DistinctIds(s)
    ensures FirstWithId(s, id) == LastWithId(s, id)
  {
    var first, last := FirstWithId(s, id), LastWithId(s, id);
    if first.Some? {
      var i :| 0 <= i < |s| && s[i] == first.value && first.value.id == id;
      var j :| 0 <= j < |s| && s[j] == last.value && last.value.id == id;
      assert s[i].id == s[j].id;
    }
  }

  /**
   * After indexing a freshly cleared map with a tree whose ids are all
   * distinct, looking an id up in the index finds what `findNode` finds
   * in the tree, and nothing exactly when `findNode` finds nothing.
   */
  lemma LoadedLookup(tree: Node, k: string)
    requires DistinctIds(Flatten(tree))
    ensures k in Indexed(map[], Flatten(tree)) <==> FindNode(tree, k).Some?
    ensures FindNode(tree, k).Some? ==> Indexed(map[], Flatten(tree))[k] == FindNode(tree, k).value
  {
    IndexedLookup(map[], Flatten(tree), k);
    FindNodeIsFirstInPreOrder(tree, k);
    FirstIsLastWhenDistinct(Flatten(tree), k);
  }

  /** Every entry of the index is stored under its own id. */
  predicate SelfKeyed(m: map<string, Node>) {
    forall k :: k in m ==> m[k].id == k
  }

  lemma {:induction false} IndexedSelfKeyed(m: map<string, Node>, s: seq<Node>)
    requires SelfKeyed(m)
    ensures SelfKeyed(Indexed(m, s))
    decreases |s|
  {
    if s != [] {
      IndexedSelfKeyed(m, s[..|s| - 1]);
    }
  }

  // ---- run ----

  /** The steps `run` produces between its bracketing events: each requested id found in the index, in order. */
  function RequestedSteps(index: map<string, Node>, tests: seq<string>, cwd: Option<string>): seq<Step> {
    if tests == [] then []
    else
      var last := tests[|tests| - 1];
      RequestedSteps(index, tests[..|tests| - 1], cwd) + (if last in index then RunSteps(index[last], cwd) else [])
  }

  /** Ids that are not in the index are skipped: nothing at all happens for them. */
  lemma {:induction false} RequestedUnknownIds(index: map<string, Node>, tests: seq<string>, cwd: Option<string>)
    requires forall k :: 0 <= k < |tests| ==> tests[k] !in index
    ensures RequestedSteps(index, tests, cwd) == []
    decreases |tests|
  {
    if tests != [] {
      RequestedUnknownIds(index, tests[..|tests| - 1], cwd);
    }
  }

  /** Between the bracketing events only suite and test events occur, none of them a failure. */
  lemma {:induction false} RequestedStepsOnlyNodeEvents(index: map<string, Node>, tests: seq<string>, cwd: Option<string>)
    ensures forall s :: s in RequestedSteps(index, tests, cwd) && s.Fire? ==> NodeEvent(s.event)
    decreases |tests|
  {
    if tests != [] {
      var last := tests[|tests| - 1];
      RequestedStepsOnlyNodeEvents(index, tests[..|tests| - 1], cwd);
      if last in index {
        RunStepsOnlyNodeEvents(index[last], cwd);
      }
    }
  }

  /**
   * A run is bracketed: it starts with the one `started` event carrying
   * the requested ids, ends with the one `finished` event, and every
   * event in between is a suite or test event.
   */
  lemma RunIsBracketed(index: map<string, Node>, tests: seq<string>, cwd: Option<string>)
    ensures var steps := [Fire(RunStarted(tests))] + RequestedSteps(index, tests, cwd) + [Fire(RunFinished)];
            && steps[0] == Fire(RunStarted(tests))
            && steps[|steps| - 1] == Fire(RunFinished)
            && forall i :: 0 < i < |steps| - 1 && steps[i].Fire? ==> NodeEvent(steps[i].event)
  {
    var inner := RequestedSteps(index, tests, cwd);
    var steps := [Fire(RunStarted(tests))] + inner + [Fire(RunFinished)];
    RequestedStepsOnlyNodeEvents(index, tests, cwd);
    forall i | 0 < i < |steps| - 1 && steps[i].Fire?
      ensures NodeEvent(steps[i].event)
    {
      assert steps[i] == inner[i - 1];
      assert inner[i - 1] in inner;
    }
  }

  /** The ids of the built-in fake suite are distinct. */
  lemma FakeTestSuiteDistinctIds()
    ensures DistinctIds(Flatten(FakeTestSuite))
  {
    FakeTestSuiteShape();
    var all := Flatten(FakeTestSuite);
    var ids := Ids(all);
    FakeIdsDistinct(ids);
    forall i, j | 0 <= i < j < |all|
      ensures all[i].id != all[j].id
    {
      assert ids[i] == all[i].id && ids[j] == all[j].id;
    }
  }

  lemma FakeIdsDistinct(ids: seq<string>)
    requires ids == ["root", "nested", "test1", "test2", "test3", "test4"]
    ensures forall i, j :: 0 <= i < j < |ids| ==> ids[i] != ids[j]
  {
    assert "test1"[4] != "test2"[4] && "test1"[4] != "test3"[4] && "test1"[4] != "test4"[4];
    assert "test2"[4] != "test3"[4] && "test2"[4] != "test4"[4] && "test3"[4] != "test4"[4];
  }

  /**
   * With the fake suite loaded, `run` through the adapter's index does
   * exactly what `runFakeTests` does with the same ids.
   */
  lemma {:induction false} AdapterRunMatchesFakeRun(tests: seq<string>, cwd: Option<string>)
    ensures RequestedSteps(Indexed(map[], Flatten(FakeTestSuite)), tests, cwd) == FakeRunSteps(tests, cwd)
    decreases |tests|
  {
    if tests != [] {
      AdapterRunMatchesFakeRun(tests[..|tests| - 1], cwd);
      FakeTestSuiteDistinctIds();
      LoadedLookup(FakeTestSuite, tests[|tests| - 1]);
    }
  }

  // ---- the adapter ----

  class ExampleAdapter {
    /** The workspace folder the adapter was created for (loading does not consult it). */
    const workspace: WorkspaceFolder
    var disposables: seq<Disposable>
    var nodesById: map<string, Node>
    /** The events fired on the `tests` emitter so far. */
    var loadEvents: seq<LoadEvent>
    /** The events fired on the `testStates` emitter and the processes spawned, in order. */
    var trace: seq<Step>

    /** Registers the three emitters for disposal; the index starts empty. */
    constructor(workspace: WorkspaceFolder)
      ensures this.workspace == workspace
      ensures disposables == [TestsEmitter, TestStatesEmitter, AutorunEmitter]
      ensures nodesById == map[] && loadEvents == [] && trace == []
    {
      this.workspace := workspace;
      disposables := [];
      nodesById := map[];
      loadEvents := [];
      trace := [];
      new;
      disposables := disposables + [TestsEmitter];
      disposables := disposables + [TestStatesEmitter];
      disposables := disposables + [AutorunEmitter];
    }

    /**
     * `collectNodesById(info)`: sets every node of the tree under its id,
     * the node itself first, then each child's subtree in order.
     */
    method CollectNodesById(info: Node)
      modifies this`nodesById
      ensures nodesById == Indexed(old(nodesById), Flatten(info))
      decreases info
    {
      nodesById := nodesById[info.id := info];
      assert Indexed(old(nodesById), [info]) == nodesById;
      match info {
        case Test(_, _, _, _) =>
        case Suite(_, _, children) =>
          var i := 0;
          while i < |children|
            invariant 0 <= i <= |children|
            invariant nodesById == Indexed(old(nodesById), [info] + FlattenAll(children[..i]))
          {
            assert children[..i + 1] == children[..i] + [children[i]];
            FlattenAllSnoc(children[..i], children[i]);
            IndexedConcat(old(nodesById), [info] + FlattenAll(children[..i]), Flatten(children[i]));
            AppendAssoc([info], FlattenAll(children[..i]), Flatten(children[i]));
            CollectNodesById(children[i]);
            i := i + 1;
          }
          assert children[..i] == children;
      }
    }

    /**
     * `load()`: announces the load, loads the tree, rebuilds the index
     * from scratch, and announces the loaded tree. Afterwards the index
     * holds exactly the ids of the loaded tree, each under its own id.
     * `failure` is a rejection of `loadFakeTests` (a failing `readdir`,
     * `stat` or outline request): `load` then throws it after `started`,
     * before the index is cleared, so the index keeps its old contents and
     * `finished` is never announced.
     */
    method Load(folders: seq<WorkspaceFolder>, failure: Option<string>) returns (r: Outcome)
      modifies this`nodesById, this`loadEvents
      ensures failure.Some? ==> r == Threw(failure.value)
      ensures failure.Some? ==> loadEvents == old(loadEvents) + [LoadStarted] && nodesById == old(nodesById)
      ensures failure.None? ==> r == Returned
      ensures failure.None? ==> loadEvents == old(loadEvents) + [LoadStarted, LoadFinished(LoadedSuite(folders))]
      ensures failure.None? ==> nodesById == Indexed(map[], Flatten(LoadedSuite(folders)))
      ensures failure.None? ==> SelfKeyed(nodesById)
      ensures failure.None? ==> forall k :: k in nodesById <==> k in Ids(Flatten(LoadedSuite(folders)))
    {
      loadEvents := loadEvents + [LoadStarted];
      if failure.Some? {
        return Threw(failure.value);
      }
      var loadedTests := LoadFakeTests(folders);
      nodesById := map[];
      CollectNodesById(loadedTests);
      loadEvents := loadEvents + [LoadFinished(loadedTests)];
      IndexedSelfKeyed(map[], Flatten(loadedTests));
      forall k
        ensures k in nodesById <==> k in Ids(Flatten(loadedTests))
      {
        IndexedLookup(map[], Flatten(loadedTests), k);
        var ids := Ids(Flatten(loadedTests));
        if k in ids {
          var i :| 0 <= i < |ids| && ids[i] == k;
          assert Flatten(loadedTests)[i].id == k;
        }
      }
      r := Returned;
    }

    /**
     * `run(tests)`: announces the run, runs each requested id the index
     * knows (skipping the others), and announces the end of the run.
     */
    method Run(tests: seq<string>, folders: seq<WorkspaceFolder>)
      modifies this`trace
      ensures trace == old(trace) + [Fire(RunStarted(tests))]
                       + RequestedSteps(nodesById, tests, WorkspaceRoot(folders)) + [Fire(RunFinished)]
    {
      ghost var cwd := WorkspaceRoot(folders);
      trace := trace + [Fire(RunStarted(tests))];
      ghost var start := trace;
      var i := 0;
      while i < |tests|
        invariant 0 <= i <= |tests|
        invariant trace == start + RequestedSteps(nodesById, tests[..i], cwd)
      {
        var id := tests[i];
        assert tests[..i + 1][..i] == tests[..i];
        ghost var step := if id in nodesById then RunSteps(nodesById[id], cwd) else [];
        assert RequestedSteps(nodesById, tests[..i + 1], cwd) == RequestedSteps(nodesById, tests[..i], cwd) + step;
        AppendAssoc(start, RequestedSteps(nodesById, tests[..i], cwd), step);
        if id in nodesById {
          var t := RunNode(nodesById[id], folders, trace);
          trace := t;
        }
        i := i + 1;
      }
      assert tests[..i] == tests;
      trace := trace + [Fire(RunFinished)];
    }

    /** `cancel()`: not implemented; it always throws. */
    method Cancel() returns (r: Outcome)
      ensures r == Threw(NotImplemented)
    {
      r := Threw(NotImplemented);
    }

    /**
     * `dispose()`: calls `cancel()` first, so it throws that same error
     * before any emitter is released, and nothing changes.
     */
    method Dispose() returns (r: Outcome)
      ensures r.Threw? && r.message == NotImplemented
    {
      r := Cancel();
    }
  }
}
