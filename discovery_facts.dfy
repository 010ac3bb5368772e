/**
 * What discovery guarantees about the tree it builds: which entries
 * become suites (pruning), the shape and ids of a file's suite, and the
 * names of every test in the tree.
 */
module DiscoveryFacts {
  import opened Text
  import opened TestTree
  import opened Symbols
  import opened Discovery

  /** An entry is, or holds somewhere below it, a `_test.go` file. */
  predicate HasTestFile(e: Entry)
    decreases e
  {
    match e
    case File(name, _) => EndsWith(name, TestFileSuffix)
    case Dir(_, entries) => exists k :: 0 <= k < |entries| && HasTestFile(entries[k])
  }

  /** How many entries of a listing hold a test file. */
  function CountWithTestFiles(entries: seq<Entry>): nat {
    if entries == [] then 0
    else CountWithTestFiles(entries[..|entries| - 1]) + (if HasTestFile(entries[|entries| - 1]) then 1 else 0)
  }

  lemma {:induction false} CountWithTestFilesPositive(entries: seq<Entry>)
    ensures CountWithTestFiles(entries) > 0 <==> exists k :: 0 <= k < |entries| && HasTestFile(entries[k])
    decreases |entries|
  {
    if entries != [] {
      var init := entries[..|entries| - 1];
      CountWithTestFilesPositive(init);
      if exists k :: 0 <= k < |init| && HasTestFile(init[k]) {
        var k :| 0 <= k < |init| && HasTestFile(init[k]);
        assert entries[k] == init[k];
      }
      if exists k :: 0 <= k < |entries| && HasTestFile(entries[k]) {
        var k :| 0 <= k < |entries| && HasTestFile(entries[k]);
        if k < |init| { assert init[k] == entries[k]; }
      }
    }
  }

  /**
   * Pruning: a directory entry yields one suite, with id
   * `parentId + "_" + name` and title `name`, exactly when some `_test.go`
   * file lies below it, and nothing otherwise; a file entry yields one
   * suite exactly when its name ends in `_test.go`, even if it holds no
   * tests.
   */
  lemma {:induction false} EntryNodesPruned(dir: string, parentId: string, e: Entry)
    ensures |EntryNodes(dir, parentId, e)| == if HasTestFile(e) then 1 else 0
    ensures e.Dir? && HasTestFile(e) ==>
              var s := EntryNodes(dir, parentId, e)[0];
              s.Suite? && s.id == parentId + "_" + e.name && s.title == e.name && |s.children| > 0
    ensures e.File? && HasTestFile(e) ==> EntryNodes(dir, parentId, e)[0] == FileSuite(dir, parentId, e.name, e.symbols)
    decreases e, 1
  {
    match e
    case File(_, _) =>
    case Dir(name, entries) =>
      WalkEntriesCount(Join(dir, name), parentId + "_" + name, entries);
      CountWithTestFilesPositive(entries);
  }

  /** A directory's suite has one child per entry of its listing that holds a test file. */
  lemma {:induction false} WalkEntriesCount(dir: string, parentId: string, entries: seq<Entry>)
    ensures |WalkEntries(dir, parentId, entries)| == CountWithTestFiles(entries)
    decreases entries, 0
  {
    if entries != [] {
      WalkEntriesCount(dir, parentId, entries[..|entries| - 1]);
      EntryNodesPruned(dir, parentId, entries[|entries| - 1]);
    }
  }

  /** The outline symbols a file's tests stand for (all are functions). */
  function AsSymbols(tests: seq<Node>): seq<Symbol> {
    seq(|tests|, i requires 0 <= i < |tests| => Symbol(Function, tests[i].title))
  }

  /**
   * The suite of one `_test.go` file has the file's path as id and, as
   * title, the group name or else the file name.
   */
  lemma FileSuiteTitle(dir: string, parentId: string, file: string, symbols: seq<Symbol>)
    ensures FileSuite(dir, parentId, file, symbols).Suite?
    ensures FileSuite(dir, parentId, file, symbols).id == Join(dir, file)
    ensures var group := GroupName(TestFunctions(symbols));
            FileSuite(dir, parentId, file, symbols).title == if group != "" then group else file
  {
  }

  /**
   * A file suite's tests are exactly its test functions that do not end
   * in `Suite` (same names, same multiplicities), ordered by name.
   */
  lemma FileTestsSortedPermutation(dir: string, parentId: string, file: string, symbols: seq<Symbol>)
    ensures multiset(AsSymbols(FileSuite(dir, parentId, file, symbols).children))
            == multiset(Filter(TestFunctions(symbols), IsPlainTest))
    ensures var tests := FileSuite(dir, parentId, file, symbols).children;
            forall i, j :: 0 <= i < j < |tests| ==> Le(tests[i].title, tests[j].title)
  {
    var candidates := TestFunctions(symbols);
    var group := GroupName(candidates);
    var sorted := SortByName(Filter(candidates, IsPlainTest));
    var children := FileSuite(dir, parentId, file, symbols).children;
    assert children == TestNodes(parentId, group, Join(dir, file), file, sorted);
    SortedTestsArePlainFunctions(symbols, sorted);
    forall i | 0 <= i < |sorted|
      ensures AsSymbols(children)[i] == sorted[i]
    {
      assert children[i].title == sorted[i].name;
      assert sorted[i] in sorted;
    }
    assert AsSymbols(children) == sorted;
  }

  /**
   * Each test of a file suite is a plain test function carrying the group
   * as description, the file's path, and the id
   * `parentId + "_" + (group or file) + "_" + name`, where `parentId` is
   * the id of the enclosing directory suite, not of the file suite.
   */
  lemma FileTestFields(dir: string, parentId: string, file: string, symbols: seq<Symbol>)
    ensures var group := GroupName(TestFunctions(symbols));
            forall t :: t in FileSuite(dir, parentId, file, symbols).children ==>
              && t.Test?
              && t.id == parentId + "_" + (if group != "" then group else file) + "_" + t.title
              && t.description == Some(group)
              && t.file == Some(Join(dir, file))
              && StartsWith(t.title, TestPrefix)
              && !EndsWith(t.title, SuiteSuffix)
  {
    var candidates := TestFunctions(symbols);
    var group := GroupName(candidates);
    var sorted := SortByName(Filter(candidates, IsPlainTest));
    var path := Join(dir, file);
    var children := FileSuite(dir, parentId, file, symbols).children;
    assert children == TestNodes(parentId, group, path, file, sorted);
    SortedTestsArePlainFunctions(symbols, sorted);
    forall t | t in children
      ensures t.Test? && t.id == parentId + "_" + (if group != "" then group else file) + "_" + t.title
      ensures t.description == Some(group) && t.file == Some(path)
      ensures StartsWith(t.title, TestPrefix) && !EndsWith(t.title, SuiteSuffix)
    {
      var i :| 0 <= i < |children| && children[i] == t;
      assert t.title == sorted[i].name;
      assert sorted[i] in sorted && IsTestFunction(sorted[i]) && IsPlainTest(sorted[i]);
    }
  }

  /** The sorted tests of a file are plain test functions. */
  lemma SortedTestsArePlainFunctions(symbols: seq<Symbol>, sorted: seq<Symbol>)
    requires sorted == SortByName(Filter(TestFunctions(symbols), IsPlainTest))
    ensures forall x :: x in sorted ==> IsTestFunction(x) && IsPlainTest(x)
  {
    var candidates := TestFunctions(symbols);
    var plain := Filter(candidates, IsPlainTest);
    FilterMembers(candidates, IsPlainTest);
    forall x | x in sorted
      ensures x in plain
    {
      assert x in multiset(sorted);
    }
  }

  /** Every test node among `s` is named like a Go test function and is not a suite wrapper. */
  predicate WellNamedTests(s: seq<Node>) {
    forall t :: t in s && t.Test? ==> StartsWith(t.title, TestPrefix) && !EndsWith(t.title, SuiteSuffix) && t.file.Some?
  }

  lemma LeafTestsFlatten(tests: seq<Node>)
    requires forall t :: t in tests ==> t.Test?
    ensures FlattenAll(tests) == tests
  {
    if tests != [] {
      assert tests[0] in tests;
      assert forall t :: t in tests[1..] ==> t in tests;
      LeafTestsFlatten(tests[1..]);
      assert Flatten(tests[0]) == [tests[0]];
    }
  }

  /**
   * Anywhere in a discovered tree, a test is a function named `Test...`
   * that does not end in `Suite`, and it knows its file.
   */
  lemma {:induction false} EntryTestsWellNamed(dir: string, parentId: string, e: Entry)
    ensures WellNamedTests(FlattenAll(EntryNodes(dir, parentId, e)))
    decreases e, 1
  {
    var nodes := EntryNodes(dir, parentId, e);
    match e
    case File(name, symbols) =>
      if nodes != [] {
        var s := FileSuite(dir, parentId, name, symbols);
        FileTestFields(dir, parentId, name, symbols);
        LeafTestsFlatten(s.children);
        assert FlattenAll(nodes) == [s] + s.children + FlattenAll([]);
      }
    case Dir(name, entries) =>
      var id := parentId + "_" + name;
      WalkEntriesTestsWellNamed(Join(dir, name), id, entries);
      if nodes != [] {
        assert FlattenAll(nodes) == [nodes[0]] + FlattenAll(WalkEntries(Join(dir, name), id, entries)) + FlattenAll([]);
      }
  }

  lemma {:induction false} WalkEntriesTestsWellNamed(dir: string, parentId: string, entries: seq<Entry>)
    ensures WellNamedTests(FlattenAll(WalkEntries(dir, parentId, entries)))
    decreases entries, 0
  {
    if entries != [] {
      var init := entries[..|entries| - 1];
      WalkEntriesTestsWellNamed(dir, parentId, init);
      EntryTestsWellNamed(dir, parentId, entries[|entries| - 1]);
      FlattenAllConcat(WalkEntries(dir, parentId, init), EntryNodes(dir, parentId, entries[|entries| - 1]));
    }
  }

  /** The whole tree discovered under a workspace folder has only well-named tests. */
  lemma DiscoveredTestsWellNamed(root: string, entries: seq<Entry>)
    ensures WellNamedTests(Flatten(Discovered(root, entries)))
  {
    WalkEntriesTestsWellNamed(root, "root", entries);
  }
}
