// Sorted id lists, the order in which account rows are locked, and the sizes
// of id sets.
module Ids {

  predicate Ascending(ids: seq<nat>) {
    forall i, j :: 0 <= i < j < |ids| ==> ids[i] < ids[j]
  }

  function ToSet(ids: seq<nat>): set<nat> { set x | x in ids }

  function Below(n: nat): (s: set<nat>)
    ensures forall x: nat :: x in s <==> x < n
  {
    if n == 0 then {} else Below(n - 1) + {n - 1}
  }

  ghost predicate Least(s: set<nat>, m: nat) { m in s && forall x :: x in s ==> m <= x }

  lemma {:induction false} HasLeast(s: set<nat>, k: nat)
    requires k in s
    ensures exists m :: Least(s, m)
    decreases k
  {
    if !Least(s, k) {
      var x :| x in s && x < k;
      HasLeast(s, x);
    }
  }

  /** The ids of a set, each once, in ascending order. */
  function Sorted(s: set<nat>): (ids: seq<nat>)
    ensures Ascending(ids)
    ensures forall x :: x in ids <==> x in s
  {
    if s == {} then []
    else
      assert exists m :: Least(s, m) by {
        var k :| k in s;
        HasLeast(s, k);
      }
      var m :| m in s && forall x :: x in s ==> m <= x;
      [m] + Sorted(s - {m})
  }

  lemma {:induction false} SubsetSize(a: set<nat>, b: set<nat>)
    requires a <= b
    ensures |a| <= |b|
  {
    if a != {} {
      var x :| x in a;
      SubsetSize(a - {x}, b - {x});
    }
  }

  lemma Smaller(a: set<nat>, b: set<nat>)
    requires a < b
    ensures |a| < |b|
  {
    var x :| x in b && x !in a;
    assert a <= b - {x};
    SubsetSize(a, b - {x});
  }

  /** An id above all used ones. */
  lemma {:induction false} Unused(used: set<nat>) returns (n: nat)
    ensures forall x :: x in used ==> x < n
  {
    if used == {} {
      n := 0;
    } else {
      var x :| x in used;
      var m := Unused(used - {x});
      n := if x < m then m else x + 1;
      assert used == (used - {x}) + {x};
    }
  }
}
