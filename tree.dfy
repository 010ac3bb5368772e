/**
 * The test hierarchy shared by discovery, the run engine and the adapter:
 * a suite (`TestSuiteInfo`) with ordered children, or a leaf test
 * (`TestInfo`), and its pre-order listing.
 */
module TestTree {

  datatype Option<+T> = None | Some(value: T)

  /**
   * `TestSuiteInfo | TestInfo`. The display `label` of the original is
   * called `title` here (`label` is a Dafny keyword). A test's `description` and `file` are
   * optional: the built-in fake suite leaves both out.
   */
  datatype Node =
    | Suite(id: string, title: string, children: seq<Node>)
    | Test(id: string, title: string, description: Option<string>, file: Option<string>)

  /** All nodes of the tree rooted at `n`, in pre-order (parent before children, children left to right). */
  function Flatten(n: Node): (r: seq<Node>)
    ensures |r| >= 1 && r[0] == n
    decreases n
  {
    match n
    case Test(_, _, _, _) => [n]
    case Suite(_, _, children) => [n] + FlattenAll(children)
  }

  /** Pre-order listings of a sequence of sibling trees, concatenated. */
  function FlattenAll(children: seq<Node>): seq<Node>
    decreases children
  {
    if children == [] then [] else Flatten(children[0]) + FlattenAll(children[1..])
  }

  lemma {:induction false} FlattenAllConcat(a: seq<Node>, b: seq<Node>)
    ensures FlattenAll(a + b) == FlattenAll(a) + FlattenAll(b)
    decreases |a|
  {
    if a == [] {
      assert a + b == b;
    } else {
      assert (a + b)[0] == a[0];
      assert (a + b)[1..] == a[1..] + b;
      FlattenAllConcat(a[1..], b);
    }
  }

  /** Appending one more child appends its pre-order listing. */
  lemma FlattenAllSnoc(children: seq<Node>, child: Node)
    ensures FlattenAll(children + [child]) == FlattenAll(children) + Flatten(child)
  {
    FlattenAllConcat(children, [child]);
    assert FlattenAll([child]) == Flatten(child) + FlattenAll([]);
  }

  /** The ids of a sequence of nodes, in order. */
  function Ids(s: seq<Node>): (r: seq<string>)
    ensures |r| == |s| && forall k :: 0 <= k < |s| ==> r[k] == s[k].id
  {
    seq(|s|, k requires 0 <= k < |s| => s[k].id)
  }

  /** The leaf tests of a sequence of nodes, in order. */
  function TestsOf(s: seq<Node>): (r: seq<Node>)
    ensures forall t :: t in r <==> t in s && t.Test?
    ensures |r| <= |s|
  {
    if s == [] then []
    else (if s[0].Test? then [s[0]] else []) + TestsOf(s[1..])
  }

  lemma {:induction false} TestsOfConcat(a: seq<Node>, b: seq<Node>)
    ensures TestsOf(a + b) == TestsOf(a) + TestsOf(b)
    decreases |a|
  {
    if a == [] {
      assert a + b == b;
    } else {
      assert (a + b)[0] == a[0];
      assert (a + b)[1..] == a[1..] + b;
      TestsOfConcat(a[1..], b);
    }
  }
}
