/**
 * Test discovery (src/fakeTests.ts: `walk`, `discoverTests`,
 * `loadFakeTests`, `fakeTestSuite`). The file system is given as a tree
 * of entries in listing order, each `_test.go` file already paired with
 * the symbols the Go outline reports for it.
 */
module Discovery {
  import opened Text
  import opened TestTree
  import opened Symbols

  /** A directory listing entry: a sub-directory with its own entries, or a file with its outline symbols. */
  datatype Entry =
    | Dir(name: string, entries: seq<Entry>)
    | File(name: string, symbols: seq<Symbol>)

  /** A workspace folder: its URI scheme, its path, and the entries found under that path. */
  datatype WorkspaceFolder = WorkspaceFolder(scheme: string, path: string, entries: seq<Entry>)

  const TestFileSuffix := "_test.go"

  /** The suite built when there is no file-scheme workspace folder. */
  const FakeTestSuite: Node :=
    Suite("root", "Fake", [
      Suite("nested", "Nested suite", [
        Test("test1", "Test #1", None, None),
        Test("test2", "Test #2", None, None)
      ]),
      Test("test3", "Test #3", None, None),
      Test("test4", "Test #4", None, None)
    ])

  /** The test nodes of one file, one per symbol of `tests`, in that order. */
  function TestNodes(parentId: string, group: string, path: string, file: string, tests: seq<Symbol>): seq<Node> {
    seq(|tests|, i requires 0 <= i < |tests| =>
      Test(parentId + "_" + (if |group| > 0 then group else file) + "_" + tests[i].name,
           tests[i].name, Some(group), Some(path)))
  }

  /**
   * The suite `walk` appends for the `_test.go` file `file` in directory
   * `dir`, whose enclosing directory suite has id `parentId`.
   */
  function FileSuite(dir: string, parentId: string, file: string, symbols: seq<Symbol>): Node {
    var candidates := TestFunctions(symbols);
    var group := GroupName(candidates);
    var tests := SortByName(Filter(candidates, IsPlainTest));
    var path := Join(dir, file);
    Suite(path, if |group| > 0 then group else file, TestNodes(parentId, group, path, file, tests))
  }

  /** What one listing entry contributes to the children of the directory suite `parentId`. */
  function EntryNodes(dir: string, parentId: string, e: Entry): seq<Node>
    decreases e
  {
    match e
    case Dir(name, entries) =>
      var id := parentId + "_" + name;
      var children := WalkEntries(Join(dir, name), id, entries);
      if |children| > 0 then [Suite(id, name, children)] else []
    case File(name, symbols) =>
      if EndsWith(name, TestFileSuffix) then [FileSuite(dir, parentId, name, symbols)] else []
  }

  /** The children `walk` appends for a whole listing, entry by entry. */
  function WalkEntries(dir: string, parentId: string, entries: seq<Entry>): seq<Node>
    decreases entries
  {
    if entries == [] then []
    else WalkEntries(dir, parentId, entries[..|entries| - 1]) + EntryNodes(dir, parentId, entries[|entries| - 1])
  }

  /**
   * `walk(dir, fileList)`: appends to the children of the suite `fileList`
   * one node per directory (if it holds a test file somewhere below) and
   * one per `_test.go` file of the listing `entries` of `dir`.
   */
  method Walk(dir: string, fileList: Node, entries: seq<Entry>) returns (r: Node)
    requires fileList.Suite?
    ensures r == fileList.(children := fileList.children + WalkEntries(dir, fileList.id, entries))
    decreases entries
  {
    var children := fileList.children;
    var i := 0;
    while i < |entries|
      invariant 0 <= i <= |entries|
      invariant children == fileList.children + WalkEntries(dir, fileList.id, entries[..i])
    {
      WalkEntriesSnoc(dir, fileList.id, entries, i);
      var added: seq<Node>;
      match entries[i] {
        case Dir(name, sub) =>
          var child := Suite(fileList.id + "_" + name, name, []);
          child := Walk(Join(dir, name), child, sub);
          assert child.children == WalkEntries(Join(dir, name), fileList.id + "_" + name, sub);
          added := if |child.children| > 0 then [child] else [];
          EntryNodesOfDir(dir, fileList.id, name, sub);
        case File(name, symbols) =>
          added := if EndsWith(name, TestFileSuffix) then [FileSuite(dir, fileList.id, name, symbols)] else [];
          EntryNodesOfFile(dir, fileList.id, name, symbols);
      }
      assert added == EntryNodes(dir, fileList.id, entries[i]);
      children := children + added;
      i := i + 1;
    }
    assert entries[..i] == entries;
    r := fileList.(children := children);
  }

  lemma EntryNodesOfDir(dir: string, parentId: string, name: string, sub: seq<Entry>)
    ensures var children := WalkEntries(Join(dir, name), parentId + "_" + name, sub);
            EntryNodes(dir, parentId, Dir(name, sub)) ==
              if |children| > 0 then [Suite(parentId + "_" + name, name, children)] else []
  {
  }

  lemma EntryNodesOfFile(dir: string, parentId: string, name: string, symbols: seq<Symbol>)
    ensures EntryNodes(dir, parentId, File(name, symbols)) ==
              if EndsWith(name, TestFileSuffix) then [FileSuite(dir, parentId, name, symbols)] else []
  {
  }

  lemma WalkEntriesSnoc(dir: string, parentId: string, entries: seq<Entry>, i: nat)
    requires i < |entries|
    ensures WalkEntries(dir, parentId, entries[..i + 1]) == WalkEntries(dir, parentId, entries[..i]) + EntryNodes(dir, parentId, entries[i])
  {
    assert entries[..i + 1][..i] == entries[..i];
  }

  /** `discoverTests`: the tree of a whole workspace folder under the root suite. */
  function Discovered(root: string, entries: seq<Entry>): Node {
    Suite("root", "Root", WalkEntries(root, "root", entries))
  }

  /** The first workspace folder whose URI scheme is `file`, if any. */
  function FirstFileFolder(folders: seq<WorkspaceFolder>): (r: Option<WorkspaceFolder>)
    ensures r.None? <==> forall k :: 0 <= k < |folders| ==> folders[k].scheme != "file"
    ensures r.Some? ==> exists k :: 0 <= k < |folders| && folders[k] == r.value && r.value.scheme == "file"
                                    && forall j :: 0 <= j < k ==> folders[j].scheme != "file"
  {
    if folders == [] then None
    else if folders[0].scheme == "file" then Some(folders[0])
    else
      var r := FirstFileFolder(folders[1..]);
      assert forall j :: 0 < j < |folders| ==> folders[j] == folders[1..][j - 1];
      r
  }

  /** What `loadFakeTests` yields for the given workspace folders. */
  function LoadedSuite(folders: seq<WorkspaceFolder>): Node {
    match FirstFileFolder(folders)
    case None => FakeTestSuite
    case Some(folder) => Discovered(folder.path, folder.entries)
  }

  /**
   * `loadFakeTests`: discovers the first file-scheme workspace folder, or
   * falls back to the built-in fake suite when there is none.
   */
  method LoadFakeTests(folders: seq<WorkspaceFolder>) returns (suite: Node)
    ensures suite == LoadedSuite(folders)
    ensures suite.Suite? && suite.id == "root"
  {
    var folder := FirstFileFolder(folders);
    if folder.Some? {
      suite := Walk(folder.value.path, Suite("root", "Root", []), folder.value.entries);
    } else {
      suite := FakeTestSuite;
    }
  }
}
