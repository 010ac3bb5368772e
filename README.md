# Go test explorer: discovery, lookup and runs

A Dafny model of the core of a VS Code test adapter for Go. It has three parts.

- **Discovery.** `walk` turns a directory tree into a tree of suites and tests.
  - Every `_test.go` file becomes a suite. Its test functions are the outline's `Function` symbols named `Test…`.
  - A `…Suite` function names the file's group. Such functions are not tests themselves.
  - The remaining tests are sorted by name.
  - A directory becomes a suite only if a test file lies somewhere below it.
- **The run engine.**
  - `findNode` is a pre-order search.
  - `runNode` fires `running` and then `completed`/`passed` events around a node's children. For each test it spawns `go test -v -run ^(name)$ <dir>`.
  - `runFakeTests` resolves ids against a built-in fake suite.
- **The adapter** (class `ExampleAdapter`).
  - It indexes the loaded tree by id (`nodesById`).
  - `run` brackets the requested runs between one `started` event and one `finished` event.
  - `cancel` throws. `dispose` calls `cancel` first.

Files:

- `text.dfy`: `startsWith`/`endsWith`, the ordinal name order, and `/`-separated `path.join` and `path.dirname`.
- `tree.dfy`: the suite/test tree and its pre-order listing.
- `symbols.dfy`: the symbol pipeline of one test file.
- `discovery.dfy` / `discovery_facts.dfy`: `walk`, `loadFakeTests`, the fake suite, and what discovery guarantees.
- `run_engine.dfy` / `run_facts.dfy`: `findNode`, `runNode`, `runFakeTests`, and what a run guarantees.
- `adapter.dfy`: the adapter class, its index and its run trace.
- `duplicate_ids.dfy`: why discovered ids need not be distinct.
- `scenarios.dfy`: concrete files and directories and the trees they produce.

Effects are recorded as values rather than performed:

- Event emitters are sequences of the events fired on them.
- A spawned process is a `Launch(program, args, cwd)` step in the same trace as the events.
- The file system is an `Entry` tree given in listing order.
- The Go outline is the symbol list attached to each file entry.
- The workspace folders are a parameter.

Two points where the code is followed rather than the stated design:

- **Ids are not unique.** A test id is `directoryId + "_" + (group or file) + "_" + name`, built from the id of the enclosing directory suite rather than the file's. So two files of one directory that wrap a same-named test in the same `…Suite` function give both tests the same id. `DuplicateIds.SameGroupInOneListing` proves this for every such pair in any directory listing, whatever else it lists. `DuplicateIds.DuplicatesInSubdirectory` and `DuplicateIds.DuplicatesInDiscovered` carry the duplicate up to the discovered tree. The adapter's index then keeps the later node (`Adapter.IndexedLookup`).
- **Pruning is by the presence of test files, not of tests.** A directory is kept exactly when a `_test.go` file lies below it. A test file with no tests still yields an (empty) suite, so a directory holding only such a file is kept (`DiscoveryFacts.EntryNodesPruned`).

## Model

| member | source | states |
|---|---|---|
| Text.Join | src/fakeTests.ts:100 | the joined path ends with the file name |
| Text.Dirname | src/fakeTests.ts:165 | no `/` gives `.`; otherwise the result is `/` or a proper prefix of the path followed by `/` |
| Text.DirnameOfJoin | src/fakeTests.ts:100 | the directory of `dir/file` is `dir` again (for a non-empty dir without a trailing `/` and a file name without `/`) |
| Text.LeTotal | src/fakeTests.ts:93 | any two names are comparable by the order the sort uses |
| Text.LeTransitive | src/fakeTests.ts:93 | the name order is transitive |
| Text.LeAntisymmetric | src/fakeTests.ts:93 | names ordered both ways are equal |
| Symbols.Filter | src/fakeTests.ts:61-64 | `filter` keeps exactly the elements satisfying the predicate, each as many times as it occurs |
| Symbols.FilterMembers | src/fakeTests.ts:92 | an element survives a filter iff it was there and satisfies the predicate |
| Symbols.FilterHead | src/fakeTests.ts:87 | the filtered list is empty iff nothing satisfies the predicate, and otherwise starts with the first element that does |
| Symbols.TestFunctions | src/fakeTests.ts:56-65 | a symbol is a candidate iff it is in the outline, is a `Function` and its name starts with `Test` |
| Symbols.GroupName | src/fakeTests.ts:87-91 | the group is `""` iff no candidate ends in `Suite`, else the name of the first one that does |
| Symbols.GroupNameIsFirstSuiteFunction | src/fakeTests.ts:61-63 | the group, read off the raw outline, is the first `Test…Suite` function, or `""` iff there is none |
| Symbols.SortByName | src/fakeTests.ts:93 | the sorted list is a permutation of the input, ordered by name |
| Discovery.TestNodes | src/fakeTests.ts:94-102 | one test per sorted symbol, in order, with the id, label, description and file that `DiscoveryFacts.FileTestFields` states |
| Discovery.FileSuite | src/fakeTests.ts:85-110 | the suite of one `_test.go` file; its id and label are stated by `DiscoveryFacts.FileSuiteTitle`, its tests by `DiscoveryFacts.FileTestsSortedPermutation` and `DiscoveryFacts.FileTestFields` |
| Discovery.EntryNodes | src/fakeTests.ts:71-111 | what one listing entry contributes; `DiscoveryFacts.EntryNodesPruned` states when it is one suite and when nothing |
| Discovery.WalkEntries | src/fakeTests.ts:70-112 | the children `walk` appends for a listing, entry by entry; `Discovery.Walk` is proved equal to it, and `DiscoveryFacts.WalkEntriesCount` counts it |
| Discovery.Discovered | src/fakeTests.ts:118-120 | the `root`/`Root` suite over a folder's listing; `DiscoveryFacts.DiscoveredTestsWellNamed` states what its tests are |
| Discovery.LoadedSuite | src/fakeTests.ts:45-54 | the discovered first file-scheme folder, or else the fake suite; `Discovery.LoadFakeTests` is proved to return it |
| Discovery.Walk | src/fakeTests.ts:68-114 | `walk` appends to the given suite's children exactly the nodes of the listing's entries, in listing order, and changes nothing else |
| Discovery.FirstFileFolder | src/fakeTests.ts:46 | the folder chosen is the first with scheme `file`, and there is none iff no folder has that scheme |
| Discovery.LoadFakeTests | src/fakeTests.ts:45-54 | loading discovers the first file-scheme folder under a `root` suite, or falls back to the fake suite |
| DiscoveryFacts.EntryNodesPruned | src/fakeTests.ts:73-85 | a directory yields one suite (id `parentId_name`, label `name`, non-empty children) iff a test file lies below it; a file yields its file suite iff its name ends in `_test.go` |
| DiscoveryFacts.WalkEntriesCount | src/fakeTests.ts:70-112 | a listing yields one node per entry holding a test file |
| DiscoveryFacts.FileSuiteTitle | src/fakeTests.ts:103-110 | a file suite has the joined path as id and the group, or else the file name, as label |
| DiscoveryFacts.FileTestsSortedPermutation | src/fakeTests.ts:92-94 | a file suite's tests are exactly the candidates not ending in `Suite` (same names and multiplicities), sorted by name |
| DiscoveryFacts.FileTestFields | src/fakeTests.ts:94-101 | every test has id `parentId_(group or file)_name`, the group as description and the joined path as file; its name starts with `Test` and does not end in `Suite` |
| DiscoveryFacts.DiscoveredTestsWellNamed | src/fakeTests.ts:118-120 | every test anywhere in a discovered tree is a `Test…` function that is not a suite wrapper, and knows its file |
| RunEngine.DiscoveredTestArgs | src/fakeTests.ts:165 | a discovered test's argument list anchors its own name and targets the directory its file was found in |
| RunEngine.GoTestArgs | src/fakeTests.ts:165 | `test -v -run ^(label)$ dirname(file)`; `RunEngine.DiscoveredTestArgs` states its value for every discovered test |
| RunEngine.FirstWithId | src/fakeTests.ts:134-144 | the first node with the id, or none iff no node has it |
| RunEngine.FindNode | src/fakeTests.ts:134-144 | `findNode`: the node itself on a match, else the first match among its children; `RunEngine.FindNodeIsFirstInPreOrder` proves it is the first pre-order match |
| RunEngine.FindIn | src/fakeTests.ts:138-141 | the loop over the children: the first child subtree with a match wins; `RunEngine.FindInIsFirstInPreOrder` proves it is the first match of the children's pre-order listing |
| RunEngine.FindNodeIsFirstInPreOrder | src/fakeTests.ts:134-144 | `findNode` returns the first node of the pre-order listing with the id, and nothing iff no node of the tree has it |
| RunEngine.RunSteps | src/fakeTests.ts:146-236 | the events and spawns of running one node; `RunFacts.StartOrderIsPreOrder`, `RunFacts.SpawnsFollowTests` and `RunFacts.RunStepsOnlyNodeEvents` state their order and kind |
| RunEngine.RunAllSteps | src/fakeTests.ts:155-157 | the children run one after the other; `RunEngine.RunAllStepsConcat` states that it distributes over concatenation |
| RunEngine.RunNode | src/fakeTests.ts:146-236 | the trace grows by exactly the steps of running the node, with cwd the first file-scheme folder's path |
| RunEngine.FakeRunSteps | src/fakeTests.ts:122-132 | each requested id looked up in the fake suite, in request order; `RunFacts.FakeRunUnknownIds`, `RunFacts.FakeRunNested` and `Adapter.AdapterRunMatchesFakeRun` state its value |
| RunEngine.RunFakeTests | src/fakeTests.ts:122-132 | the trace grows by the steps of each requested id found in the fake suite, in request order |
| RunFacts.StartOrderIsPreOrder | src/fakeTests.ts:151-163 | every node below the one run is announced `running` exactly once, in pre-order |
| RunFacts.SpawnsFollowTests | src/fakeTests.ts:163-174 | one `go test` process per test below the node, in pre-order, each with that test's arguments |
| RunFacts.RunStepsOnlyNodeEvents | src/fakeTests.ts:151-163 | only suite and test events are fired and none is a failure; the node's `running` event comes first and its `completed`/`passed` event last |
| RunFacts.FakeTestSuiteShape | src/fakeTests.ts:10-43 | the fake suite lists `root, nested, test1, test2, test3, test4` in pre-order, and its tests are `test1` to `test4` |
| RunFacts.FakeRunUnknownIds | src/fakeTests.ts:126-131 | ids not in the fake suite produce nothing |
| RunFacts.FakeRunNested | src/fakeTests.ts:122-132 | running `nested` produces its eight steps, both tests run in directory `.` |
| Adapter.LastWithId | src/adapter.ts:78 | the last node with the id, or none iff no node has it |
| Adapter.Indexed | src/adapter.ts:77-84 | the map after `set(node.id, node)` for every node in order; `Adapter.IndexedLookup` and `Adapter.IndexedSelfKeyed` state its keys and values |
| Adapter.IndexedConcat | src/adapter.ts:80-82 | indexing two listings one after the other is indexing their concatenation |
| Adapter.IndexedLookup | src/adapter.ts:77-84 | an id is in the index iff it was before or a node has it; it maps to the last node in pre-order with that id |
| Adapter.IndexedSelfKeyed | src/adapter.ts:78 | every entry of the index is stored under its own id |
| Adapter.FirstIsLastWhenDistinct | src/adapter.ts:78 | without duplicate ids, the first and the last node with an id coincide |
| Adapter.LoadedLookup | src/adapter.ts:59 | after a load of a tree with distinct ids, the index finds what `findNode` finds in the tree, and nothing iff it finds nothing |
| Adapter.RequestedUnknownIds | src/adapter.ts:58-63 | ids missing from the index produce no steps |
| Adapter.RequestedSteps | src/adapter.ts:58-63 | each requested id found in the index, run in request order; `Adapter.RequestedUnknownIds`, `Adapter.RequestedStepsOnlyNodeEvents` and `Adapter.AdapterRunMatchesFakeRun` state its value |
| Adapter.RequestedStepsOnlyNodeEvents | src/adapter.ts:58-63 | between the run brackets only suite and test events occur, none a failure |
| Adapter.RunIsBracketed | src/adapter.ts:56-67 | a run starts with the one `started` event carrying the requested ids and ends with the one `finished` event, with only node events between |
| Adapter.FakeTestSuiteDistinctIds | src/fakeTests.ts:10-43 | the fake suite's ids are distinct |
| Adapter.AdapterRunMatchesFakeRun | src/adapter.ts:58-63 | with the fake suite loaded, the adapter's run produces exactly what `runFakeTests` produces for the same ids |
| Adapter.ExampleAdapter.constructor | src/adapter.ts:25-36 | the three emitters are registered for disposal in order; the index and both event logs start empty |
| Adapter.ExampleAdapter.CollectNodesById | src/adapter.ts:77-84 | the index becomes the old one with every node of the tree set under its id, in pre-order |
| Adapter.ExampleAdapter.Load | src/adapter.ts:38-50 | `started` then `finished` carrying the loaded suite; the index is rebuilt from scratch, holds exactly the loaded tree's ids, each under its own id. If loading rejects, `load` throws that error after `started` alone and the index keeps its old contents |
| Adapter.ExampleAdapter.Run | src/adapter.ts:52-69 | the trace grows by `started`, the steps of each requested id found in the index in request order, then `finished` |
| Adapter.ExampleAdapter.Cancel | src/adapter.ts:86-89 | always throws `Method not implemented.` |
| Adapter.ExampleAdapter.Dispose | src/adapter.ts:91-97 | throws `cancel`'s error and changes nothing |
| Scenarios.PlainFileScenario | src/fakeTests.ts:85-110 | `TestBeta, helperFunc, TestAlpha` yields a suite labelled by the file, holding `TestAlpha` then `TestBeta` with empty description |
| Scenarios.GroupedFileScenario | src/fakeTests.ts:87-101 | `TestMySuite, TestA, TestB` yields a suite labelled `TestMySuite` holding `TestA` and `TestB`, each described by `TestMySuite` |
| DuplicateIds.FileHasNamedTest | src/fakeTests.ts:92-101 | a grouped test file whose outline has the test function `name` holds a test with id `parentId_group_name`, whatever the file is called |
| DuplicateIds.SameGroupInOneListing | src/fakeTests.ts:70-112 | two test files anywhere in one directory listing, with the same non-empty group and a common test function, make the listing's ids not distinct, whatever the other entries are |
| DuplicateIds.DuplicatesInSubdirectory | src/fakeTests.ts:73-83 | duplicate ids below a sub-directory are duplicate ids of the listing that holds it |
| DuplicateIds.DuplicatesInDiscovered | src/fakeTests.ts:118-120 | duplicate ids in the workspace folder's listing are duplicate ids of the discovered tree |
| Scenarios.GroupedFilesCollide | src/fakeTests.ts:94-101 | two copies of the `TestMySuite, TestA, TestB` file directly under the workspace folder give a tree whose ids are not distinct |
| Scenarios.GroupedFilesCollideInSubdirectory | src/fakeTests.ts:73-101 | the same two files inside a sub-directory also give a tree whose ids are not distinct |

## Left out

- File system access (`fs.readdir`, `fs.stat`): the directory tree is an input `Entry` tree in listing order; `walk`'s `dir` argument only feeds the path strings.
- The Go outline provider: each file entry carries the symbols it would report, in its order.
- Process I/O: `cp.spawn` is recorded as a `Launch` step. Echoing its output and logging are left out. Every test is reported `passed`, as in the code, whose result parsing is commented out.
- VS Code APIs, `Log` and the `tests`/`testStates`/`autorun` event accessors: emitters are modelled as event sequences, and the workspace folders as a parameter.
- Concurrency: each call is modelled as running to completion. Within one call the code awaits each step in turn, so that is faithful. Calls that overlap are not modelled. For example, a `load` while `run` awaits `runNode` (src/adapter.ts:58-61) rebuilds the index, and the remaining requested ids are then resolved against the new index.
- Failing processes: no `error` listener is attached to the process spawned at src/fakeTests.ts:171, and the output echo is awaited. A `go` binary that cannot be started, or a failing stream, is not modelled. Every spawn is a `Launch` step followed by `passed`.
- Failing loads: the file system and the outline provider cannot fail in the `Entry` model. Their rejection reaches `load` as its `failure` input, and `Adapter.ExampleAdapter.Load` models what `load` then does. `runFakeTests` and `runNode` do not read the file system.
- Symbols.SortByName: `localeCompare` is modelled as ordinal character order; locale-specific collation is not modelled.
- Text.Join, Text.Dirname: model single-component `/` joins and `dirname` without Node's normalisation (no `..`/`.` resolution, no trailing-slash stripping).
- Adapter.ExampleAdapter.Dispose: the loop that releases the emitters and resets `disposables` is not modelled, because `cancel` always throws before it is reached.
- Trees are values: nodes are not shared or aliased, so `walk`'s in-place `push` onto a fresh suite is modelled as building that suite's child list, and the index stores node values.
