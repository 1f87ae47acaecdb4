/** Sparse vectors over concept cells and their running sums (assoc/senses.py:56-66). */
module Vectors {
  import opened Common

  datatype Cell = Cell(number: nat)

  type Vec = map<Cell, real>

  function At(v: Vec, k: Cell): real {
    if k in v then v[k] else 0.0
  }

  function AddVec(a: Vec, b: Vec): Vec {
    map k | k in a.Keys + b.Keys :: At(a, k) + At(b, k)
  }

  /** The sum of the members' vectors, in order. */
  function Total<T>(members: seq<T>, vec: T -> Vec): Vec {
    if members == [] then map[]
    else AddVec(Total(members[..|members| - 1], vec), vec(members[|members| - 1]))
  }

  lemma TotalAppend<T>(members: seq<T>, m: T, vec: T -> Vec)
    ensures Total(members + [m], vec) == AddVec(Total(members, vec), vec(m))
  {
    assert (members + [m])[..|members|] == members;
  }

  lemma TotalOne<T>(m: T, vec: T -> Vec)
    ensures Total([m], vec) == vec(m)
  {
    TotalAppend([], m, vec);
    assert [] + [m] == [m];
    assert AddVec(map[], vec(m)) == vec(m);
  }

  lemma AddVecAssociative(a: Vec, b: Vec, c: Vec)
    ensures AddVec(AddVec(a, b), c) == AddVec(a, AddVec(b, c))
  {
  }

  /** Adding the sum of one group to the sum of another sums both groups. */
  lemma {:induction false} TotalConcat<T>(a: seq<T>, b: seq<T>, vec: T -> Vec)
    ensures Total(a + b, vec) == AddVec(Total(a, vec), Total(b, vec))
  {
    if b == [] {
      assert a + b == a;
      assert AddVec(Total(a, vec), map[]) == Total(a, vec);
    } else {
      var front, last := b[..|b| - 1], b[|b| - 1];
      assert a + b == (a + front) + [last];
      TotalConcat(a, front, vec);
      TotalAppend(a + front, last, vec);
      AddVecAssociative(Total(a, vec), Total(front, vec), vec(last));
    }
  }

  /** In each cell the running sum is the sum of the members' weights there. */
  lemma {:induction false} TotalAt<T>(members: seq<T>, vec: T -> Vec, k: Cell, weight: T -> real)
    requires forall m :: m in members ==> weight(m) == At(vec(m), k)
    ensures At(Total(members, vec), k) == Sum(members, weight)
    ensures k in Total(members, vec) <==> exists m :: m in members && k in vec(m)
  {
    if members != [] {
      var front, last := members[..|members| - 1], members[|members| - 1];
      assert members == front + [last];
      TotalAt(front, vec, k, weight);
    }
  }

  /** The in-place add: one entry of v after the other. */
  method AddInto(acc: Vec, v: Vec) returns (sum: Vec)
    ensures sum == AddVec(acc, v)
  {
    sum := acc;
    var left := v.Keys;
    while left != {}
      invariant left <= v.Keys
      invariant sum.Keys == acc.Keys + (v.Keys - left)
      invariant forall k :: k in sum ==> sum[k] == At(acc, k) + if k in left then 0.0 else At(v, k)
      decreases left
    {
      var k :| k in left;
      sum := sum[k := At(sum, k) + v[k]];
      left := left - {k};
    }
  }
}
