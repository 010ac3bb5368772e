/**
 * The symbol pipeline applied to one `_test.go` file: keep the test
 * functions the Go outline reports, pick the suite wrapper that names the
 * group, drop `*Suite` functions and order the rest by name
 * (src/fakeTests.ts, `getTestFunctions` and the body of `walk`).
 */
module Symbols {
  import opened Text

  /** The part of `vscode.SymbolKind` the Go outline reports. */
  datatype SymbolKind = Function | Method | Struct | Interface | Variable | Constant | Field | Package

  /** A document symbol as the outline provider returns it: kind and name. */
  datatype Symbol = Symbol(kind: SymbolKind, name: string)

  const TestPrefix := "Test"
  const SuiteSuffix := "Suite"

  /** The filter of `getTestFunctions`: a function whose name starts with `Test`. */
  predicate IsTestFunction(s: Symbol) {
    s.kind == Function && StartsWith(s.name, TestPrefix)
  }

  /** A suite wrapper: a name ending in `Suite`. */
  predicate IsSuiteName(s: Symbol) {
    EndsWith(s.name, SuiteSuffix)
  }

  predicate IsPlainTest(s: Symbol) {
    !IsSuiteName(s)
  }

  /**
   * `Array.prototype.filter`: keeps exactly the elements satisfying `p`,
   * each as often as it occurs (see FilterHead for the order).
   */
  function Filter(s: seq<Symbol>, p: Symbol -> bool): (r: seq<Symbol>)
    ensures forall x :: multiset(r)[x] == if p(x) then multiset(s)[x] else 0
    ensures forall x :: x in r ==> p(x)
  {
    if s == [] then []
    else
      assert s == [s[0]] + s[1..];
      var rest := Filter(s[1..], p);
      if p(s[0]) then [s[0]] + rest else rest
  }

  lemma FilterMembers(s: seq<Symbol>, p: Symbol -> bool)
    ensures forall x :: x in Filter(s, p) <==> x in s && p(x)
  {
    var r := Filter(s, p);
    forall x ensures x in r <==> x in s && p(x) {
      assert x in r <==> multiset(r)[x] > 0;
      assert x in s <==> multiset(s)[x] > 0;
    }
  }

  /**
   * Filtering keeps the original order: the filtered sequence is empty
   * exactly when nothing satisfies `p`, and otherwise starts with the first
   * element that does.
   */
  lemma {:induction false} FilterHead(s: seq<Symbol>, p: Symbol -> bool)
    ensures Filter(s, p) == [] <==> forall k :: 0 <= k < |s| ==> !p(s[k])
    ensures Filter(s, p) != [] ==>
              exists k :: 0 <= k < |s| && s[k] == Filter(s, p)[0] && forall j :: 0 <= j < k ==> !p(s[j])
    decreases |s|
  {
    if s != [] {
      FilterHead(s[1..], p);
      if p(s[0]) {
        assert s[0] == Filter(s, p)[0];
      } else {
        assert Filter(s, p) == Filter(s[1..], p);
        if Filter(s, p) != [] {
          var k :| 0 <= k < |s| - 1 && s[1..][k] == Filter(s, p)[0] && forall j :: 0 <= j < k ==> !p(s[1..][j]);
          assert s[k + 1] == Filter(s, p)[0];
          assert forall j :: 0 <= j < k + 1 ==> !p(s[j]) by {
            forall j | 0 <= j < k + 1 ensures !p(s[j]) {
              if j > 0 { assert s[j] == s[1..][j - 1]; }
            }
          }
        } else {
          assert forall k :: 0 <= k < |s| ==> !p(s[k]) by {
            forall k | 0 <= k < |s| ensures !p(s[k]) {
              if k > 0 { assert s[k] == s[1..][k - 1]; }
            }
          }
        }
      }
    }
  }

  /**
   * Filtering by `p` and then by `q` starts with the first element that
   * satisfies both, and is empty when none does.
   */
  lemma {:induction false} FilterFilterHead(s: seq<Symbol>, p: Symbol -> bool, q: Symbol -> bool)
    ensures Filter(Filter(s, p), q) == [] <==> forall k :: 0 <= k < |s| ==> !(p(s[k]) && q(s[k]))
    ensures Filter(Filter(s, p), q) != [] ==>
              exists k :: 0 <= k < |s| && s[k] == Filter(Filter(s, p), q)[0] && p(s[k]) && q(s[k])
                          && forall j :: 0 <= j < k ==> !(p(s[j]) && q(s[j]))
    decreases |s|
  {
    if s != [] {
      FilterFilterHead(s[1..], p, q);
      var pq := Filter(Filter(s, p), q);
      if p(s[0]) {
        assert Filter(s, p) == [s[0]] + Filter(s[1..], p);
        assert Filter(s, p)[0] == s[0] && Filter(s, p)[1..] == Filter(s[1..], p);
        if q(s[0]) {
          assert pq[0] == s[0];
          return;
        }
        assert pq == Filter(Filter(s[1..], p), q);
      } else {
        assert pq == Filter(Filter(s[1..], p), q);
      }
      if pq != [] {
        var k :| 0 <= k < |s| - 1 && s[1..][k] == pq[0] && p(s[1..][k]) && q(s[1..][k])
                 && forall j :: 0 <= j < k ==> !(p(s[1..][j]) && q(s[1..][j]));
        assert s[k + 1] == pq[0];
        forall j | 0 <= j < k + 1 ensures !(p(s[j]) && q(s[j])) {
          if j > 0 { assert s[j] == s[1..][j - 1]; }
        }
      } else {
        forall k | 0 <= k < |s| ensures !(p(s[k]) && q(s[k])) {
          if k > 0 { assert s[k] == s[1..][k - 1]; }
        }
      }
    }
  }

  /** `getTestFunctions`: the outline's symbols that are test functions, in outline order. */
  function TestFunctions(symbols: seq<Symbol>): (r: seq<Symbol>)
    ensures forall s :: s in r <==> s in symbols && s.kind == Function && StartsWith(s.name, TestPrefix)
  {
    FilterMembers(symbols, IsTestFunction);
    Filter(symbols, IsTestFunction)
  }

  /**
   * The file's group name: the name of the first `*Suite` candidate, or
   * `""` when there is none.
   */
  function GroupName(candidates: seq<Symbol>): (g: string)
    ensures g == "" <==> forall k :: 0 <= k < |candidates| ==> !EndsWith(candidates[k].name, SuiteSuffix)
    ensures g != "" ==> exists k :: 0 <= k < |candidates| && candidates[k].name == g && EndsWith(g, SuiteSuffix)
                                    && forall j :: 0 <= j < k ==> !EndsWith(candidates[j].name, SuiteSuffix)
  {
    var suiteTests := Filter(candidates, IsSuiteName);
    FilterHead(candidates, IsSuiteName);
    if |suiteTests| > 0 then
      assert IsSuiteName(suiteTests[0]);
      suiteTests[0].name
    else ""
  }

  /**
   * The group name read off the outline's own order: it is the first
   * symbol that is a test function and ends in `Suite`.
   */
  lemma GroupNameIsFirstSuiteFunction(symbols: seq<Symbol>)
    ensures GroupName(TestFunctions(symbols)) == "" <==>
              forall k :: 0 <= k < |symbols| ==> !(IsTestFunction(symbols[k]) && IsSuiteName(symbols[k]))
    ensures GroupName(TestFunctions(symbols)) != "" ==>
              exists k :: 0 <= k < |symbols| && symbols[k].name == GroupName(TestFunctions(symbols))
                          && IsTestFunction(symbols[k]) && IsSuiteName(symbols[k])
                          && forall j :: 0 <= j < k ==> !(IsTestFunction(symbols[j]) && IsSuiteName(symbols[j]))
  {
    FilterFilterHead(symbols, IsTestFunction, IsSuiteName);
    var suiteTests := Filter(TestFunctions(symbols), IsSuiteName);
    if suiteTests != [] {
      assert IsSuiteName(suiteTests[0]);
      assert GroupName(TestFunctions(symbols)) == suiteTests[0].name;
    }
  }

  /** Names in non-decreasing ordinal order. */
  predicate SortedByName(s: seq<Symbol>) {
    forall i, j :: 0 <= i < j < |s| ==> Le(s[i].name, s[j].name)
  }

  function Insert(x: Symbol, s: seq<Symbol>): (r: seq<Symbol>)
    requires SortedByName(s)
    ensures SortedByName(r)
    ensures multiset(r) == multiset(s) + multiset{x}
  {
    if s == [] then [x]
    else if Le(x.name, s[0].name) then
      assert forall j :: 0 <= j < |s| ==> Le(x.name, s[j].name) by {
        forall j | 0 <= j < |s| ensures Le(x.name, s[j].name) {
          if j > 0 { LeTransitive(x.name, s[0].name, s[j].name); }
        }
      }
      [x] + s
    else
      var rest := Insert(x, s[1..]);
      assert s == [s[0]] + s[1..];
      var r := [s[0]] + rest;
      assert forall j :: 0 < j < |r| ==> Le(s[0].name, r[j].name) by {
        forall j | 0 < j < |r| ensures Le(s[0].name, r[j].name) {
          assert r[j] == rest[j - 1];
          assert r[j] in multiset(rest);
          if r[j] == x {
            LeTotal(x.name, s[0].name);
          } else {
            assert r[j] in multiset(s[1..]);
            var k :| 0 <= k < |s[1..]| && s[1..][k] == r[j];
            assert s[k + 1] == r[j];
          }
        }
      }
      r
  }

  /**
   * `symbols.sort((a, b) => a.name.localeCompare(b.name))`, with ordinal
   * order for the comparison: a permutation of the input ordered by name.
   */
  function SortByName(s: seq<Symbol>): (r: seq<Symbol>)
    ensures SortedByName(r)
    ensures multiset(r) == multiset(s)
  {
    if s == [] then []
    else
      assert s == [s[0]] + s[1..];
      Insert(s[0], SortByName(s[1..]))
  }
}
