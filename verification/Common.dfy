/** Small vocabulary shared by every module. */
module Common {
  datatype Option<+T> = None | Some(value: T)

  function Min(a: int, b: int): int { if a <= b then a else b }

  function MinR(a: real, b: real): real { if a <= b then a else b }

  function MaxR(a: real, b: real): real { if a >= b then a else b }

  function Pow2(n: nat): nat { if n == 0 then 1 else 2 * Pow2(n - 1) }

  /** The elements of s that satisfy p, in order. */
  function Filter<T>(p: T -> bool, s: seq<T>): seq<T> {
    if s == [] then []
    else Filter(p, s[..|s| - 1]) + (if p(s[|s| - 1]) then [s[|s| - 1]] else [])
  }

  lemma FilterAppend<T>(p: T -> bool, s: seq<T>, x: T)
    ensures Filter(p, s + [x]) == Filter(p, s) + (if p(x) then [x] else [])
  {
    assert (s + [x])[..|s|] == s;
  }

  ghost predicate Distinct<T>(s: seq<T>) {
    forall i, j :: 0 <= i < j < |s| ==> s[i] != s[j]
  }

  predicate Increasing(s: seq<nat>) { forall i, j :: 0 <= i < j < |s| ==> s[i] < s[j] }

  /** Filtering a sequence whose selected elements come in increasing order. */
  lemma {:induction false} FilterIncreasing(p: nat -> bool, s: seq<nat>)
    requires forall i, j :: 0 <= i < j < |s| && p(s[i]) && p(s[j]) ==> s[i] < s[j]
    ensures Increasing(Filter(p, s))
    ensures forall x :: x in Filter(p, s) <==> x in s && p(x)
  {
    if s != [] {
      var s0, x := s[..|s| - 1], s[|s| - 1];
      FilterIncreasing(p, s0);
      assert s == s0 + [x];
      if p(x) {
        forall i | 0 <= i < |Filter(p, s0)| ensures Filter(p, s0)[i] < x {
          assert Filter(p, s0)[i] in s0;
        }
      }
    }
  }

  ghost predicate Contained(a: seq<nat>, b: seq<nat>) { forall i :: 0 <= i < |a| ==> a[i] in b }

  lemma ContainedInit(a: seq<nat>, b: seq<nat>)
    requires Increasing(a) && Increasing(b) && Contained(a, b) && |a| > 0 && |b| > 0
    ensures a[|a| - 1] <= b[|b| - 1]
    ensures a[|a| - 1] == b[|b| - 1] ==> Contained(a[..|a| - 1], b[..|b| - 1])
  {
    forall i | 0 <= i < |a| - 1 && a[|a| - 1] == b[|b| - 1] ensures a[i] in b[..|b| - 1] {
      var k :| 0 <= k < |b| && b[k] == a[i];
      assert b[..|b| - 1][k] == a[i];
    }
  }

  /** An increasing sequence is determined by its elements. */
  lemma {:induction false} IncreasingUnique(a: seq<nat>, b: seq<nat>)
    requires Increasing(a) && Increasing(b) && Contained(a, b) && Contained(b, a)
    ensures a == b
  {
    assert (|b| > 0 ==> b[0] in a) && (|a| > 0 ==> a[0] in b);
    if |a| > 0 && |b| > 0 {
      ContainedInit(a, b);
      ContainedInit(b, a);
      IncreasingUnique(a[..|a| - 1], b[..|b| - 1]);
      assert a == a[..|a| - 1] + [a[|a| - 1]] && b == b[..|b| - 1] + [b[|b| - 1]];
    }
  }
}
