/**
 * Discovery does not give unique ids. A test id is
 * `parentId + "_" + group + "_" + name`, where `parentId` is the id of the
 * enclosing directory suite. So two test files of one directory whose
 * tests share a group and a name get two tests with the same id. This
 * holds whatever else the directory lists, and in any directory of the
 * workspace.
 */
module DuplicateIds {
  import opened Text
  import opened TestTree
  import opened Symbols
  import opened Discovery
  import opened DiscoveryFacts
  import opened Adapter
  import opened RunEngine

  /** Walking two listings one after the other walks their concatenation. */
  lemma {:induction false} WalkEntriesConcat(dir: string, parentId: string, a: seq<Entry>, b: seq<Entry>)
    ensures WalkEntries(dir, parentId, a + b) == WalkEntries(dir, parentId, a) + WalkEntries(dir, parentId, b)
    decreases |b|
  {
    if b == [] {
      assert a + b == a;
    } else {
      var front := b[..|b| - 1];
      assert (a + b)[..|a + b| - 1] == a + front;
      assert (a + b)[|a + b| - 1] == b[|b| - 1];
      WalkEntriesConcat(dir, parentId, a, front);
    }
  }

  /** The nodes of a listing are those of the entries before `k`, of entry `k`, then of the entries after it. */
  lemma WalkEntriesAround(dir: string, parentId: string, entries: seq<Entry>, k: nat)
    requires k < |entries|
    ensures WalkEntries(dir, parentId, entries)
            == WalkEntries(dir, parentId, entries[..k]) + EntryNodes(dir, parentId, entries[k])
               + WalkEntries(dir, parentId, entries[k + 1..])
  {
    assert entries == entries[..k + 1] + entries[k + 1..];
    WalkEntriesConcat(dir, parentId, entries[..k + 1], entries[k + 1..]);
    WalkEntriesSnoc(dir, parentId, entries, k);
  }

  /** Every sibling appears in the pre-order listing of the siblings. */
  lemma {:induction false} InFlattenAll(ns: seq<Node>, x: Node)
    requires x in ns
    ensures x in FlattenAll(ns)
    decreases |ns|
  {
    if ns[0] != x {
      InFlattenAll(ns[1..], x);
    }
  }

  /** So does every child of a sibling suite. */
  lemma {:induction false} ChildInFlattenAll(ns: seq<Node>, n: Node, x: Node)
    requires n in ns && n.Suite? && x in n.children
    ensures x in FlattenAll(ns)
    decreases |ns|
  {
    if ns[0] == n {
      InFlattenAll(n.children, x);
    } else {
      ChildInFlattenAll(ns[1..], n, x);
    }
  }

  /** Two nodes with one id, one on each side of a concatenation, make its ids not distinct. */
  lemma NotDistinctAcross(p: seq<Node>, q: seq<Node>, x: Node, y: Node)
    requires x in p && y in q && x.id == y.id
    ensures !DistinctIds(p + q)
  {
    var i :| 0 <= i < |p| && p[i] == x;
    var j :| 0 <= j < |q| && q[j] == y;
    assert (p + q)[i] == x && (p + q)[|p| + j] == y;
  }

  /** A listing with distinct ids has distinct ids in every contiguous part. */
  lemma DistinctInfix(p: seq<Node>, m: seq<Node>, q: seq<Node>)
    ensures DistinctIds(p + m + q) ==> DistinctIds(m)
  {
    if DistinctIds(p + m + q) {
      forall i, j | 0 <= i < j < |m|
        ensures m[i].id != m[j].id
      {
        assert (p + m + q)[|p| + i] == m[i] && (p + m + q)[|p| + j] == m[j];
      }
    }
  }

  /** Tests that stand for `plain` and are named `prefix + title` include one named `prefix + x.name` for each `x` of `plain`. */
  lemma NamedChild(children: seq<Node>, plain: seq<Symbol>, x: Symbol, prefix: string)
    requires multiset(AsSymbols(children)) == multiset(plain) && x in plain
    requires forall t :: t in children ==> t.id == prefix + t.title
    ensures exists t :: t in children && t.id == prefix + x.name
  {
    assert x in multiset(AsSymbols(children));
    var k :| 0 <= k < |children| && AsSymbols(children)[k] == x;
    assert children[k] in children && children[k].title == x.name;
  }

  /**
   * A grouped test file whose outline has the plain test function `name`
   * holds a test with id `parentId + "_" + group + "_" + name`. The file
   * name plays no part in it.
   */
  lemma FileHasNamedTest(dir: string, parentId: string, file: string, symbols: seq<Symbol>, name: string)
    requires Symbol(Function, name) in symbols
    requires StartsWith(name, TestPrefix) && !EndsWith(name, SuiteSuffix)
    requires GroupName(TestFunctions(symbols)) != ""
    ensures exists t :: t in FileSuite(dir, parentId, file, symbols).children
                        && t.id == parentId + "_" + GroupName(TestFunctions(symbols)) + "_" + name
  {
    var x := Symbol(Function, name);
    var candidates := TestFunctions(symbols);
    var group := GroupName(candidates);
    FilterMembers(candidates, IsPlainTest);
    assert x in Filter(candidates, IsPlainTest);
    var children := FileSuite(dir, parentId, file, symbols).children;
    FileTestsSortedPermutation(dir, parentId, file, symbols);
    FileTestFields(dir, parentId, file, symbols);
    NamedChild(children, Filter(candidates, IsPlainTest), x, parentId + "_" + group + "_");
  }

  /** Two sibling suites, the second after the first, with children of one id give duplicate ids. */
  lemma SiblingChildrenCollide(before: seq<Node>, fa: Node, fb: Node, rest: seq<Node>, ta: Node, tb: Node)
    requires fa in before && fa.Suite? && ta in fa.children
    requires fb.Suite? && tb in fb.children && ta.id == tb.id
    ensures !DistinctIds(FlattenAll(before + ([fb] + rest)))
  {
    ChildInFlattenAll(before, fa, ta);
    ChildInFlattenAll([fb] + rest, fb, tb);
    FlattenAllConcat(before, [fb] + rest);
    NotDistinctAcross(FlattenAll(before), FlattenAll([fb] + rest), ta, tb);
  }

  /** A suite whose descendants have duplicate ids, anywhere among siblings, gives duplicate ids. */
  lemma DuplicatesBelowSibling(before: seq<Node>, s: Node, after: seq<Node>)
    requires s.Suite? && !DistinctIds(FlattenAll(s.children))
    ensures !DistinctIds(FlattenAll(before + [s] + after))
  {
    var p, c, q := FlattenAll(before), FlattenAll(s.children), FlattenAll(after);
    FlattenAllConcat(before + [s], after);
    FlattenAllConcat(before, [s]);
    assert [s][1..] == [];
    assert FlattenAll([s]) == [s] + c;
    assert FlattenAll(before + [s] + after) == p + ([s] + c) + q;
    DistinctInfix(p, [s] + c, q);
    assert [s] + c + [] == [s] + c;
    DistinctInfix([s], c, []);
  }

  /** A test file of a listing contributes its file suite at its place among the listing's nodes. */
  lemma TestFileInListing(dir: string, parentId: string, entries: seq<Entry>, k: nat)
    requires k < |entries| && entries[k].File? && EndsWith(entries[k].name, TestFileSuffix)
    ensures WalkEntries(dir, parentId, entries)
            == WalkEntries(dir, parentId, entries[..k])
               + ([FileSuite(dir, parentId, entries[k].name, entries[k].symbols)] + WalkEntries(dir, parentId, entries[k + 1..]))
  {
    var f := FileSuite(dir, parentId, entries[k].name, entries[k].symbols);
    EntryNodesOfFile(dir, parentId, entries[k].name, entries[k].symbols);
    assert EntryNodes(dir, parentId, entries[k]) == [f];
    WalkEntriesAround(dir, parentId, entries, k);
    AppendAssoc(WalkEntries(dir, parentId, entries[..k]), [f], WalkEntries(dir, parentId, entries[k + 1..]));
  }

  /**
   * Two test files of one directory listing (entries `i < j`) with the
   * same non-empty group, whose outlines both have the test function
   * `name`, give a listing whose pre-order ids are not distinct. The other
   * entries of the listing do not matter.
   */
  lemma SameGroupInOneListing(dir: string, parentId: string, entries: seq<Entry>, i: nat, j: nat, name: string)
    requires i < j < |entries|
    requires entries[i].File? && EndsWith(entries[i].name, TestFileSuffix)
    requires entries[j].File? && EndsWith(entries[j].name, TestFileSuffix)
    requires GroupName(TestFunctions(entries[i].symbols)) != ""
    requires GroupName(TestFunctions(entries[i].symbols)) == GroupName(TestFunctions(entries[j].symbols))
    requires Symbol(Function, name) in entries[i].symbols && Symbol(Function, name) in entries[j].symbols
    requires StartsWith(name, TestPrefix) && !EndsWith(name, SuiteSuffix)
    ensures !DistinctIds(FlattenAll(WalkEntries(dir, parentId, entries)))
  {
    var a, b := entries[i], entries[j];
    var fa := FileSuite(dir, parentId, a.name, a.symbols);
    var fb := FileSuite(dir, parentId, b.name, b.symbols);
    FileHasNamedTest(dir, parentId, a.name, a.symbols, name);
    FileHasNamedTest(dir, parentId, b.name, b.symbols, name);
    var ta :| ta in fa.children && ta.id == parentId + "_" + GroupName(TestFunctions(a.symbols)) + "_" + name;
    var tb :| tb in fb.children && tb.id == parentId + "_" + GroupName(TestFunctions(b.symbols)) + "_" + name;
    TestFileInListing(dir, parentId, entries, j);
    assert entries[..j][i] == a;
    TestFileInListing(dir, parentId, entries[..j], i);
    assert fa in WalkEntries(dir, parentId, entries[..j]) by {
      var x, y := WalkEntries(dir, parentId, entries[..j][..i]), WalkEntries(dir, parentId, entries[..j][i + 1..]);
      assert (x + ([fa] + y))[|x|] == fa;
    }
    FileSuiteTitle(dir, parentId, a.name, a.symbols);
    FileSuiteTitle(dir, parentId, b.name, b.symbols);
    SiblingChildrenCollide(WalkEntries(dir, parentId, entries[..j]), fa, fb, WalkEntries(dir, parentId, entries[j + 1..]), ta, tb);
  }

  /** A sub-directory holding a test file contributes its suite at its place among the listing's nodes. */
  lemma SubdirectoryInListing(dir: string, parentId: string, entries: seq<Entry>, k: nat)
    requires k < |entries| && entries[k].Dir?
    requires WalkEntries(Join(dir, entries[k].name), parentId + "_" + entries[k].name, entries[k].entries) != []
    ensures WalkEntries(dir, parentId, entries)
            == WalkEntries(dir, parentId, entries[..k])
               + [Suite(parentId + "_" + entries[k].name, entries[k].name,
                        WalkEntries(Join(dir, entries[k].name), parentId + "_" + entries[k].name, entries[k].entries))]
               + WalkEntries(dir, parentId, entries[k + 1..])
  {
    EntryNodesOfDir(dir, parentId, entries[k].name, entries[k].entries);
    WalkEntriesAround(dir, parentId, entries, k);
  }

  /** Duplicate ids below a sub-directory are duplicate ids of the listing that holds it. */
  lemma DuplicatesInSubdirectory(dir: string, parentId: string, entries: seq<Entry>, k: nat)
    requires k < |entries| && entries[k].Dir?
    requires !DistinctIds(FlattenAll(WalkEntries(Join(dir, entries[k].name), parentId + "_" + entries[k].name,
                                                 entries[k].entries)))
    ensures !DistinctIds(FlattenAll(WalkEntries(dir, parentId, entries)))
  {
    var e := entries[k];
    var id := parentId + "_" + e.name;
    var sub := WalkEntries(Join(dir, e.name), id, e.entries);
    assert sub != [] by {
      assert FlattenAll(sub) != [];
    }
    SubdirectoryInListing(dir, parentId, entries, k);
    DuplicatesBelowSibling(WalkEntries(dir, parentId, entries[..k]), Suite(id, e.name, sub), WalkEntries(dir, parentId, entries[k + 1..]));
  }

  /** Duplicate ids among the workspace folder's nodes are duplicate ids of the discovered tree. */
  lemma DuplicatesInDiscovered(root: string, entries: seq<Entry>)
    requires !DistinctIds(FlattenAll(WalkEntries(root, "root", entries)))
    ensures !DistinctIds(Flatten(Discovered(root, entries)))
  {
    var tree := Discovered(root, entries);
    var below := FlattenAll(WalkEntries(root, "root", entries));
    assert Flatten(tree) == [tree] + below + [];
    DistinctInfix([tree], below, []);
  }
}
