/**
 * Concrete workspaces and what discovery makes of them.
 */
module Scenarios {
  import opened Text
  import opened TestTree
  import opened Symbols
  import opened Discovery
  import opened DiscoveryFacts
  import opened RunEngine
  import opened Adapter
  import opened DuplicateIds

  // ---- small evaluation steps ----

  lemma FilterStep(s: seq<Symbol>, p: Symbol -> bool)
    requires s != []
    ensures Filter(s, p) == (if p(s[0]) then [s[0]] else []) + Filter(s[1..], p)
  {
  }

  lemma Filter2(a: Symbol, b: Symbol, p: Symbol -> bool)
    ensures Filter([a, b], p) == (if p(a) then [a] else []) + (if p(b) then [b] else [])
  {
    FilterStep([a, b], p);
    assert [a, b][1..] == [b];
    FilterStep([b], p);
    assert [b][1..] == [];
  }

  lemma Filter3(a: Symbol, b: Symbol, c: Symbol, p: Symbol -> bool)
    ensures Filter([a, b, c], p) == (if p(a) then [a] else []) + (if p(b) then [b] else []) + (if p(c) then [c] else [])
  {
    var x, y, z := (if p(a) then [a] else []), (if p(b) then [b] else []), (if p(c) then [c] else []);
    FilterStep([a, b, c], p);
    assert [a, b, c][1..] == [b, c];
    Filter2(b, c, p);
    assert Filter([a, b, c], p) == x + (y + z);
    AppendAssoc(x, y, z);
  }

  lemma Sort2(x: Symbol, y: Symbol)
    ensures SortByName([x, y]) == if Le(x.name, y.name) then [x, y] else [y, x]
  {
    assert [x, y][1..] == [y];
    assert SortByName([y]) == [y];
  }

  /** A shared prefix does not change the order of two names. */
  lemma {:induction false} LeAfterPrefix(p: string, a: string, b: string)
    ensures Le(p + a, p + b) == Le(a, b)
    decreases |p|
  {
    if p == [] {
      assert p + a == a && p + b == b;
    } else {
      assert (p + a)[0] == p[0] && (p + b)[0] == p[0];
      assert (p + a)[1..] == p[1..] + a && (p + b)[1..] == p[1..] + b;
      LeAfterPrefix(p[1..], a, b);
    }
  }

  /** The suite of a file whose group and sorted tests are known. */
  lemma FileSuiteOf(dir: string, parentId: string, file: string, symbols: seq<Symbol>, group: string, tests: seq<Symbol>)
    requires GroupName(TestFunctions(symbols)) == group
    requires SortByName(Filter(TestFunctions(symbols), IsPlainTest)) == tests
    ensures FileSuite(dir, parentId, file, symbols).title == if group != "" then group else file
    ensures |FileSuite(dir, parentId, file, symbols).children| == |tests|
    ensures forall i :: 0 <= i < |tests| ==>
              && FileSuite(dir, parentId, file, symbols).children[i].title == tests[i].name
              && FileSuite(dir, parentId, file, symbols).children[i].description == Some(group)
  {
  }

  // ---- a plain test file ----

  const Alpha := Symbol(Function, "TestAlpha")
  const Beta := Symbol(Function, "TestBeta")
  const Helper := Symbol(Function, "helperFunc")

  lemma AlphaBeforeBeta()
    ensures Le(Alpha.name, Beta.name) && !Le(Beta.name, Alpha.name)
  {
    assert Alpha.name == "Test" + "Alpha" && Beta.name == "Test" + "Beta";
    LeAfterPrefix("Test", "Alpha", "Beta");
    LeAfterPrefix("Test", "Beta", "Alpha");
  }

  lemma PlainCandidates()
    ensures TestFunctions([Beta, Helper, Alpha]) == [Beta, Alpha]
  {
    PlainNames();
    Filter3(Beta, Helper, Alpha, IsTestFunction);
  }

  lemma PlainNames()
    ensures !IsTestFunction(Helper) && IsTestFunction(Alpha) && IsTestFunction(Beta)
    ensures !IsSuiteName(Alpha) && !IsSuiteName(Beta)
  {
    assert Helper.name[0] != 'T';
    assert Alpha.name[|Alpha.name| - 1] != 'e';
    assert Beta.name[|Beta.name| - 1] != 'e';
  }

  lemma PlainGroupAndOrder()
    ensures GroupName([Beta, Alpha]) == ""
    ensures SortByName(Filter([Beta, Alpha], IsPlainTest)) == [Alpha, Beta]
  {
    PlainNames();
    Filter2(Beta, Alpha, IsSuiteName);
    Filter2(Beta, Alpha, IsPlainTest);
    AlphaBeforeBeta();
    Sort2(Beta, Alpha);
  }

  /**
   * A `_test.go` file declaring `TestBeta`, `helperFunc` and `TestAlpha`:
   * its suite is titled by the file name and holds `TestAlpha` then
   * `TestBeta`, with an empty group as description; the helper is not a
   * test.
   */
  lemma PlainFileScenario(dir: string, parentId: string, file: string)
    ensures var s := FileSuite(dir, parentId, file, [Beta, Helper, Alpha]);
            && s.title == file
            && |s.children| == 2
            && s.children[0].title == "TestAlpha" && s.children[1].title == "TestBeta"
            && s.children[0].description == Some("") && s.children[1].description == Some("")
  {
    PlainCandidates();
    PlainGroupAndOrder();
    FileSuiteOf(dir, parentId, file, [Beta, Helper, Alpha], "", [Alpha, Beta]);
  }

  // ---- a file grouped under a suite function ----

  const MySuite := Symbol(Function, "TestMySuite")
  const TA := Symbol(Function, "TestA")
  const TB := Symbol(Function, "TestB")

  lemma GroupedTestFunctions()
    ensures IsTestFunction(MySuite) && IsTestFunction(TA) && IsTestFunction(TB)
  {
  }

  lemma GroupedCandidates()
    ensures TestFunctions([MySuite, TA, TB]) == [MySuite, TA, TB]
  {
    GroupedTestFunctions();
    Filter3(MySuite, TA, TB, IsTestFunction);
  }

  lemma GroupedSuiteNames()
    ensures IsSuiteName(MySuite) && !IsSuiteName(TA) && !IsSuiteName(TB)
  {
    assert TA.name[|TA.name| - 1] != 'e';
    assert TB.name[|TB.name| - 1] != 'e';
  }

  lemma GroupedName()
    ensures GroupName([MySuite, TA, TB]) == "TestMySuite"
  {
    GroupedSuiteNames();
    Filter3(MySuite, TA, TB, IsSuiteName);
  }

  lemma TABeforeTB()
    ensures Le(TA.name, TB.name)
  {
    assert TA.name == "Test" + "A" && TB.name == "Test" + "B";
    LeAfterPrefix("Test", "A", "B");
  }

  lemma GroupedSorted()
    ensures SortByName(Filter([MySuite, TA, TB], IsPlainTest)) == [TA, TB]
  {
    GroupedSuiteNames();
    Filter3(MySuite, TA, TB, IsPlainTest);
    TABeforeTB();
    Sort2(TA, TB);
  }

  /**
   * A file with `TestMySuite`, `TestA` and `TestB`: the suite is titled
   * `TestMySuite`, holds only `TestA` and `TestB`, and each of them
   * carries `TestMySuite` as its description.
   */
  lemma GroupedFileScenario(dir: string, parentId: string, file: string)
    ensures var s := FileSuite(dir, parentId, file, [MySuite, TA, TB]);
            && s.title == "TestMySuite"
            && |s.children| == 2
            && s.children[0].title == "TestA" && s.children[1].title == "TestB"
            && s.children[0].description == Some("TestMySuite") && s.children[1].description == Some("TestMySuite")
  {
    GroupedCandidates();
    GroupedName();
    GroupedSorted();
    FileSuiteOf(dir, parentId, file, [MySuite, TA, TB], "TestMySuite", [TA, TB]);
  }

  // ---- two files of one directory with the same group ----

  /** Two copies of the `TestMySuite` file directly under the workspace folder collide on `root_TestMySuite_TestA`. */
  lemma GroupedFilesCollide(root: string, fileA: string, fileB: string)
    requires EndsWith(fileA, TestFileSuffix) && EndsWith(fileB, TestFileSuffix)
    ensures !DistinctIds(Flatten(Discovered(root, [File(fileA, [MySuite, TA, TB]), File(fileB, [MySuite, TA, TB])])))
  {
    var entries := [File(fileA, [MySuite, TA, TB]), File(fileB, [MySuite, TA, TB])];
    GroupedCandidates();
    GroupedName();
    GroupedTestFunctions();
    GroupedSuiteNames();
    SameGroupInOneListing(root, "root", entries, 0, 1, TA.name);
    DuplicatesInDiscovered(root, entries);
  }

  /** The same two files one directory further down collide as well. */
  lemma GroupedFilesCollideInSubdirectory(root: string, sub: string, fileA: string, fileB: string)
    requires EndsWith(fileA, TestFileSuffix) && EndsWith(fileB, TestFileSuffix)
    ensures !DistinctIds(Flatten(Discovered(root, [Dir(sub, [File(fileA, [MySuite, TA, TB]), File(fileB, [MySuite, TA, TB])])])))
  {
    var files := [File(fileA, [MySuite, TA, TB]), File(fileB, [MySuite, TA, TB])];
    GroupedCandidates();
    GroupedName();
    GroupedTestFunctions();
    GroupedSuiteNames();
    SameGroupInOneListing(Join(root, sub), "root" + "_" + sub, files, 0, 1, TA.name);
    DuplicatesInSubdirectory(root, "root", [Dir(sub, files)], 0);
    DuplicatesInDiscovered(root, [Dir(sub, files)]);
  }
}
