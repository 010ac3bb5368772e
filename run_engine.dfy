/**
 * The run engine (src/fakeTests.ts: `findNode`, `runNode`,
 * `runFakeTests`). Emitted events and spawned `go test` processes are
 * recorded, in the order they happen, as a trace of steps; the process's
 * output is only echoed, so every test is reported as passed.
 */
module RunEngine {
  import opened Text
  import opened TestTree
  import opened Discovery
  import opened DiscoveryFacts
  import opened Symbols

  datatype SuiteState = SuiteRunning | SuiteCompleted
  datatype TestState = TestRunning | TestPassed | TestFailed

  /** The four event shapes sent to the test explorer. */
  datatype Event =
    | RunStarted(tests: seq<string>)
    | RunFinished
    | SuiteEvent(suite: string, suiteState: SuiteState)
    | TestEvent(test: string, testState: TestState)

  /** A spawned process: program, argument list and working directory. */
  datatype Launch = Launch(program: string, args: seq<string>, cwd: Option<string>)

  /** One observable effect of a run: an event fired, or a process spawned. */
  datatype Step = Fire(event: Event) | Spawn(launch: Launch)

  const GoRuntimePath := "/usr/local/bin/go"

  /** The working directory of spawned processes: the first file-scheme workspace folder's path. */
  function WorkspaceRoot(folders: seq<WorkspaceFolder>): Option<string> {
    match FirstFileFolder(folders)
    case None => None
    case Some(folder) => Some(folder.path)
  }

  /** The `go test` arguments for one test: run exactly `^(title)$` in the directory of its file. */
  function GoTestArgs(t: Node): seq<string>
    requires t.Test?
  {
    ["test", "-v", "-run", "^(" + t.title + ")$", Dirname(if t.file.Some? then t.file.value else "")]
  }

  /**
   * For a test found by discovery in `dir`, the argument list anchors its
   * own name and targets the directory the file was found in.
   */
  lemma DiscoveredTestArgs(dir: string, parentId: string, file: string, symbols: seq<Symbol>, t: Node)
    requires t in FileSuite(dir, parentId, file, symbols).children
    requires dir != "" && '/' !in file
    requires dir == "/" || dir[|dir| - 1] != '/'
    ensures t.Test? && GoTestArgs(t) == ["test", "-v", "-run", "^(" + t.title + ")$", dir]
  {
    FileTestFields(dir, parentId, file, symbols);
    DirnameOfJoin(dir, file);
  }

  // ---- findNode ----

  /** The first node of `s` with the given id. */
  function FirstWithId(s: seq<Node>, id: string): (r: Option<Node>)
    ensures r.None? <==> forall k :: 0 <= k < |s| ==> s[k].id != id
    ensures r.Some? ==> exists k :: 0 <= k < |s| && s[k] == r.value && r.value.id == id
                                    && forall j :: 0 <= j < k ==> s[j].id != id
  {
    if s == [] then None
    else if s[0].id == id then Some(s[0])
    else
      var r := FirstWithId(s[1..], id);
      assert forall j :: 0 < j < |s| ==> s[j] == s[1..][j - 1];
      r
  }

  lemma {:induction false} FirstWithIdConcat(a: seq<Node>, b: seq<Node>, id: string)
    ensures FirstWithId(a + b, id) == if FirstWithId(a, id).Some? then FirstWithId(a, id) else FirstWithId(b, id)
    decreases |a|
  {
    if a == [] {
      assert a + b == b;
    } else {
      assert (a + b)[0] == a[0];
      assert (a + b)[1..] == a[1..] + b;
      FirstWithIdConcat(a[1..], b, id);
    }
  }

  /** `findNode`: the node itself if it has the id, else the first match among its children, depth first. */
  function FindNode(n: Node, id: string): Option<Node>
    decreases n
  {
    if n.id == id then Some(n)
    else match n
      case Test(_, _, _, _) => None
      case Suite(_, _, children) => FindIn(children, id)
  }

  /** The `for (const child of children)` loop of `findNode`: the first child subtree with a match wins. */
  function FindIn(children: seq<Node>, id: string): Option<Node>
    decreases children
  {
    if children == [] then None
    else
      var found := FindNode(children[0], id);
      if found.Some? then found else FindIn(children[1..], id)
  }

  /**
   * `findNode` is a pre-order search: it returns the first node of the
   * pre-order listing with the id, and nothing exactly when no node of the
   * tree has that id.
   */
  lemma {:induction false} FindNodeIsFirstInPreOrder(n: Node, id: string)
    ensures FindNode(n, id) == FirstWithId(Flatten(n), id)
    decreases n, 1
  {
    match n
    case Test(_, _, _, _) =>
    case Suite(_, _, children) =>
      FindInIsFirstInPreOrder(children, id);
      FirstWithIdConcat([n], FlattenAll(children), id);
  }

  lemma {:induction false} FindInIsFirstInPreOrder(children: seq<Node>, id: string)
    ensures FindIn(children, id) == FirstWithId(FlattenAll(children), id)
    decreases children, 0
  {
    if children != [] {
      FindNodeIsFirstInPreOrder(children[0], id);
      FindInIsFirstInPreOrder(children[1..], id);
      FirstWithIdConcat(Flatten(children[0]), FlattenAll(children[1..]), id);
    }
  }

  // ---- runNode ----

  /**
   * The steps `runNode` produces: a suite is announced running, its
   * children run one after the other, then it is completed; a test is
   * announced running, its `go test` process is spawned, and it passes.
   */
  function RunSteps(n: Node, cwd: Option<string>): seq<Step>
    decreases n
  {
    match n
    case Suite(id, _, children) =>
      [Fire(SuiteEvent(id, SuiteRunning))] + RunAllSteps(children, cwd) + [Fire(SuiteEvent(id, SuiteCompleted))]
    case Test(id, _, _, _) =>
      [Fire(TestEvent(id, TestRunning)), Spawn(Launch(GoRuntimePath, GoTestArgs(n), cwd)), Fire(TestEvent(id, TestPassed))]
  }

  function RunAllSteps(children: seq<Node>, cwd: Option<string>): seq<Step>
    decreases children
  {
    if children == [] then [] else RunSteps(children[0], cwd) + RunAllSteps(children[1..], cwd)
  }

  lemma {:induction false} RunAllStepsConcat(a: seq<Node>, b: seq<Node>, cwd: Option<string>)
    ensures RunAllSteps(a + b, cwd) == RunAllSteps(a, cwd) + RunAllSteps(b, cwd)
    decreases |a|
  {
    if a == [] {
      assert a + b == b;
    } else {
      assert (a + b)[0] == a[0];
      assert (a + b)[1..] == a[1..] + b;
      RunAllStepsConcat(a[1..], b, cwd);
    }
  }

  /**
   * `runNode(node, emitter)`: appends the steps of running `node`, children
   * strictly in order, to `trace`.
   */
  method RunNode(node: Node, folders: seq<WorkspaceFolder>, trace: seq<Step>) returns (trace': seq<Step>)
    ensures trace' == trace + RunSteps(node, WorkspaceRoot(folders))
    decreases node
  {
    var cwd := WorkspaceRoot(folders);
    match node {
      case Suite(id, _, children) =>
        trace' := trace + [Fire(SuiteEvent(id, SuiteRunning))];
        var i := 0;
        while i < |children|
          invariant 0 <= i <= |children|
          invariant trace' == trace + [Fire(SuiteEvent(id, SuiteRunning))] + RunAllSteps(children[..i], cwd)
        {
          RunAllStepsConcat(children[..i], [children[i]], cwd);
          assert children[..i + 1] == children[..i] + [children[i]];
          assert RunAllSteps([children[i]], cwd) == RunSteps(children[i], cwd) + RunAllSteps([], cwd);
          trace' := RunNode(children[i], folders, trace');
          i := i + 1;
        }
        assert children[..i] == children;
        trace' := trace' + [Fire(SuiteEvent(id, SuiteCompleted))];
      case Test(id, _, _, _) =>
        trace' := trace + [Fire(TestEvent(id, TestRunning))];
        trace' := trace' + [Spawn(Launch(GoRuntimePath, GoTestArgs(node), cwd))];
        // the process output is drained and echoed; its exit status is not consulted
        trace' := trace' + [Fire(TestEvent(id, TestPassed))];
    }
  }

  // ---- runFakeTests ----

  /** The steps for one requested id: those of the node it resolved to, or none. */
  function StepsFor(found: Option<Node>, cwd: Option<string>): seq<Step> {
    match found
    case None => []
    case Some(n) => RunSteps(n, cwd)
  }

  /** The steps of `runFakeTests`: each id, in the given order, looked up in the fake suite. */
  function FakeRunSteps(tests: seq<string>, cwd: Option<string>): seq<Step> {
    if tests == [] then []
    else FakeRunSteps(tests[..|tests| - 1], cwd) + StepsFor(FindNode(FakeTestSuite, tests[|tests| - 1]), cwd)
  }

  /**
   * `runFakeTests`: resolves each requested id against the built-in fake
   * suite (not against the loaded tree) and runs what it finds.
   */
  method RunFakeTests(tests: seq<string>, folders: seq<WorkspaceFolder>, trace: seq<Step>) returns (trace': seq<Step>)
    ensures trace' == trace + FakeRunSteps(tests, WorkspaceRoot(folders))
  {
    trace' := trace;
    ghost var cwd := WorkspaceRoot(folders);
    var i := 0;
    while i < |tests|
      invariant 0 <= i <= |tests|
      invariant trace' == trace + FakeRunSteps(tests[..i], cwd)
    {
      var node := FindNode(FakeTestSuite, tests[i]);
      FakeRunStepsSnoc(tests, i, cwd);
      AppendAssoc(trace, FakeRunSteps(tests[..i], cwd), StepsFor(node, cwd));
      if node.Some? {
        trace' := RunNode(node.value, folders, trace');
      }
      i := i + 1;
    }
    assert tests[..i] == tests;
  }

  lemma AppendAssoc<T>(a: seq<T>, b: seq<T>, c: seq<T>)
    ensures (a + b) + c == a + (b + c)
  {
  }

  lemma FakeRunStepsSnoc(tests: seq<string>, i: nat, cwd: Option<string>)
    requires i < |tests|
    ensures FakeRunSteps(tests[..i + 1], cwd) == FakeRunSteps(tests[..i], cwd) + StepsFor(FindNode(FakeTestSuite, tests[i]), cwd)
  {
    assert tests[..i + 1][..i] == tests[..i];
  }
}
