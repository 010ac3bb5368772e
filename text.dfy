/**
 * String and path helpers used by test discovery and by the `go test`
 * invocation: prefix/suffix tests, a `/`-separated join and dirname, and
 * the ordinal string order that stands in for `localeCompare`.
 */
module Text {

  /** `s.startsWith(p)` */
  predicate StartsWith(s: string, p: string) {
    |p| <= |s| && s[..|p|] == p
  }

  /** `s.endsWith(p)` */
  predicate EndsWith(s: string, p: string) {
    |p| <= |s| && s[|s| - |p|..] == p
  }

  /**
   * Ordinal lexicographic order on strings: a proper prefix comes first,
   * otherwise the first differing character decides.
   */
  predicate Le(a: string, b: string)
    decreases |a|
  {
    if a == [] then true
    else if b == [] then false
    else if a[0] != b[0] then a[0] < b[0]
    else Le(a[1..], b[1..])
  }

  lemma {:induction false} LeTotal(a: string, b: string)
    ensures Le(a, b) || Le(b, a)
    decreases |a|
  {
    if a != [] && b != [] && a[0] == b[0] {
      LeTotal(a[1..], b[1..]);
    }
  }

  lemma {:induction false} LeTransitive(a: string, b: string, c: string)
    requires Le(a, b) && Le(b, c)
    ensures Le(a, c)
    decreases |a|
  {
    if a != [] && b != [] && c != [] && a[0] == b[0] && b[0] == c[0] {
      LeTransitive(a[1..], b[1..], c[1..]);
    }
  }

  lemma {:induction false} LeAntisymmetric(a: string, b: string)
    requires Le(a, b) && Le(b, a)
    ensures a == b
    decreases |a|
  {
    if a != [] && b != [] {
      LeAntisymmetric(a[1..], b[1..]);
    }
  }

  /**
   * `path.join(dir, name)` for a single name component with `/` as the
   * separator: no separator is added after an empty or `/`-terminated dir.
   */
  function Join(dir: string, name: string): (p: string)
    ensures EndsWith(p, name)
  {
    if dir == "" then name
    else if dir[|dir| - 1] == '/' then dir + name
    else dir + "/" + name
  }

  /** Index of the last occurrence of `c` in `s`. */
  function LastIndexOf(s: string, c: char): (i: nat)
    requires c in s
    ensures i < |s| && s[i] == c
    ensures forall j :: i < j < |s| ==> s[j] != c
  {
    if s[|s| - 1] == c then |s| - 1 else LastIndexOf(s[..|s| - 1], c)
  }

  /**
   * `path.dirname(p)`: everything before the last `/`, `"/"` when that is
   * the first character, `"."` when there is no `/` at all.
   */
  function Dirname(p: string): (d: string)
    ensures '/' !in p ==> d == "."
    ensures '/' in p ==> d == "/" || (|d| < |p| && p == d + p[|d|..] && p[|d|] == '/')
  {
    if '/' !in p then "."
    else
      var i := LastIndexOf(p, '/');
      if i == 0 then "/" else p[..i]
  }

  /** The directory of a joined path is the directory it was joined onto. */
  lemma DirnameOfJoin(dir: string, name: string)
    requires dir != "" && '/' !in name
    requires dir == "/" || dir[|dir| - 1] != '/'
    ensures Dirname(Join(dir, name)) == dir
  {
    var p := Join(dir, name);
    if dir == "/" {
      assert p == "/" + name;
      assert p[0] == '/';
      assert forall j :: 0 < j < |p| ==> p[j] == name[j - 1];
    } else {
      assert p == dir + "/" + name;
      assert p[|dir|] == '/';
      assert forall j :: |dir| < j < |p| ==> p[j] == name[j - |dir| - 1];
      assert p[..|dir|] == dir;
    }
  }
}
