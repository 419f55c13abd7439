/** The numpy and list operations the translation layer relies on, stated over
    Dafny sequences: slicing, indexing with negative wrap-around, flattening in
    C order, the (2, 1, 0) axis transpose, `max`, `arange` and list repetition. */
module NdArrays {
  import opened Wrappers

  function Min(a: int, b: int): int {
    if a <= b then a else b
  }

  /** Python's `s[1:]`: everything after the first entry, empty for an empty sequence. */
  function DropFirst<T>(s: seq<T>): seq<T> {
    if |s| == 0 then [] else s[1..]
  }

  /** Python and numpy indexing `s[i]`: a negative index counts from the end;
      an index outside `-len(s) .. len(s) - 1` raises `IndexError` (here `None`). */
  function NumpyAt<T>(s: seq<T>, i: int): Option<T> {
    if 0 <= i < |s| then Some(s[i])
    else if -|s| <= i < 0 then Some(s[|s| + i])
    else None
  }

  /** numpy's `arange(n)`: `0, 1, ..., n - 1`, empty when `n <= 0`. */
  function Arange(n: int): (r: seq<int>)
    ensures |r| == if n <= 0 then 0 else n
    ensures forall k :: 0 <= k < |r| ==> r[k] == k
  {
    if n <= 0 then [] else seq(n, k => k)
  }

  /** Python's `[x] * n`: `n` copies of `x`, empty when `n <= 0`. */
  function Repeat<T>(x: T, n: int): (r: seq<T>)
    ensures |r| == if n <= 0 then 0 else n
    ensures forall k :: 0 <= k < |r| ==> r[k] == x
  {
    if n <= 0 then [] else seq(n, _ => x)
  }

  /** numpy's `product` of a list of integers (1 for the empty list). */
  function Product(s: seq<int>): int {
    ProductFrom(s, 0)
  }

  function ProductFrom(s: seq<int>, i: nat): int
    decreases |s| - i
  {
    if i >= |s| then 1 else s[i] * ProductFrom(s, i + 1)
  }

  /** The product of a grid of three or more entries is the product of its
      first three entries (the voxels of a three-dimensional grid) times the
      product of the rest. */
  lemma {:induction false} ProductSplitsAtThree(s: seq<int>)
    requires |s| >= 3
    ensures Product(s) == s[0] * s[1] * s[2] * ProductFrom(s, 3)
  {
    var rest := ProductFrom(s, 3);
    assert ProductFrom(s, 2) == s[2] * rest;
    assert ProductFrom(s, 1) == s[1] * (s[2] * rest);
    assert Product(s) == s[0] * (s[1] * (s[2] * rest));
    assert s[0] * (s[1] * (s[2] * rest)) == s[0] * s[1] * s[2] * rest;
  }

  /** The product of a three-entry grid is its number of voxels. */
  lemma ProductOfThree(s: seq<int>)
    requires |s| == 3
    ensures Product(s) == s[0] * s[1] * s[2]
  {
    ProductSplitsAtThree(s);
  }

  /** The concatenation of a sequence of sequences. */
  function Concat<T>(ss: seq<seq<T>>): seq<T> {
    if |ss| == 0 then [] else ss[0] + Concat(ss[1..])
  }

  /** An element is in the concatenation exactly when it is an element of one of the parts. */
  lemma {:induction false} ConcatMembers<T>(ss: seq<seq<T>>, v: T)
    ensures v in Concat(ss) <==> exists i, j :: 0 <= i < |ss| && 0 <= j < |ss[i]| && ss[i][j] == v
  {
    if |ss| > 0 {
      ConcatMembers(ss[1..], v);
      if v in Concat(ss) {
        if v !in ss[0] {
          var i, j :| 0 <= i < |ss[1..]| && 0 <= j < |ss[1..][i]| && ss[1..][i][j] == v;
          assert ss[i + 1][j] == v;
        } else {
          var j :| 0 <= j < |ss[0]| && ss[0][j] == v;
          assert ss[0][j] == v;
        }
      }
      if exists i, j :: 0 <= i < |ss| && 0 <= j < |ss[i]| && ss[i][j] == v {
        var i, j :| 0 <= i < |ss| && 0 <= j < |ss[i]| && ss[i][j] == v;
        if i > 0 {
          assert ss[1..][i - 1][j] == v;
        }
      }
    }
  }

  lemma {:induction false} ConcatLength<T>(ss: seq<seq<T>>, n: nat)
    requires forall i :: 0 <= i < |ss| ==> |ss[i]| == n
    ensures |Concat(ss)| == |ss| * n
  {
    if |ss| > 0 {
      ConcatLength(ss[1..], n);
      assert |ss| * n == n + (|ss| - 1) * n;
    }
  }

  /** A three-dimensional array of shape `(a, b, c)`. */
  predicate HasShape3<T>(g: seq<seq<seq<T>>>, a: nat, b: nat, c: nat) {
    && |g| == a
    && (forall i :: 0 <= i < a ==> |g[i]| == b)
    && (forall i, j :: 0 <= i < a && 0 <= j < b ==> |g[i][j]| == c)
  }

  /** numpy's `reshape(-1)` of a three-dimensional array: its entries in C
      (row-major) order. */
  function Flat3<T>(g: seq<seq<seq<T>>>): seq<T> {
    Concat(seq(|g|, i requires 0 <= i < |g| => Concat(g[i])))
  }

  /** Rows of the outer concatenation in `Flat3`: one flattened plane per index of axis 0. */
  lemma Flat3Planes<T>(g: seq<seq<seq<T>>>, a: nat, b: nat, c: nat, i: nat)
    requires HasShape3(g, a, b, c) && i < a
    ensures |Concat(g[i])| == b * c
  {
    ConcatLength(g[i], c);
  }

  /** Flattening an array of shape `(a, b, c)` gives `a * b * c` entries. */
  lemma Flat3Length<T>(g: seq<seq<seq<T>>>, a: nat, b: nat, c: nat)
    requires HasShape3(g, a, b, c)
    ensures |Flat3(g)| == a * (b * c)
  {
    var rows := seq(|g|, i requires 0 <= i < |g| => Concat(g[i]));
    forall i | 0 <= i < a
      ensures |rows[i]| == b * c
    {
      Flat3Planes(g, a, b, c, i);
    }
    ConcatLength(rows, b * c);
  }

  /** A value occurs in the flattened array exactly when some cell holds it. */
  lemma Flat3Members<T>(g: seq<seq<seq<T>>>, a: nat, b: nat, c: nat, v: T)
    requires HasShape3(g, a, b, c)
    ensures v in Flat3(g) <==>
              exists i, j, k :: 0 <= i < a && 0 <= j < b && 0 <= k < c && g[i][j][k] == v
  {
    var rows := seq(|g|, i requires 0 <= i < |g| => Concat(g[i]));
    ConcatMembers(rows, v);
    if v in Flat3(g) {
      var i, t :| 0 <= i < |rows| && 0 <= t < |rows[i]| && rows[i][t] == v;
      ConcatMembers(g[i], v);
      var j, k :| 0 <= j < |g[i]| && 0 <= k < |g[i][j]| && g[i][j][k] == v;
      assert g[i][j][k] == v;
    }
    if exists i, j, k :: 0 <= i < a && 0 <= j < b && 0 <= k < c && g[i][j][k] == v {
      var i, j, k :| 0 <= i < a && 0 <= j < b && 0 <= k < c && g[i][j][k] == v;
      ConcatMembers(g[i], v);
      assert v in rows[i];
      var t :| 0 <= t < |rows[i]| && rows[i][t] == v;
    }
  }

  /** numpy's `transpose((2, 1, 0))`: axis 0 and axis 2 swap places. */
  function Transpose210<T>(g: seq<seq<seq<T>>>, a: nat, b: nat, c: nat): (r: seq<seq<seq<T>>>)
    requires HasShape3(g, a, b, c)
    ensures HasShape3(r, c, b, a)
    ensures forall i, j, k :: 0 <= i < c && 0 <= j < b && 0 <= k < a ==> r[i][j][k] == g[k][j][i]
  {
    seq(c, i requires 0 <= i < c =>
      seq(b, j requires 0 <= j < b =>
        seq(a, k requires 0 <= k < a => g[k][j][i])))
  }

  /** The (2, 1, 0) transpose is its own inverse. */
  lemma TransposeInvolution<T>(g: seq<seq<seq<T>>>, a: nat, b: nat, c: nat)
    requires HasShape3(g, a, b, c)
    ensures Transpose210(Transpose210(g, a, b, c), c, b, a) == g
  {
    var r := Transpose210(Transpose210(g, a, b, c), c, b, a);
    forall i | 0 <= i < a
      ensures r[i] == g[i]
    {
      forall j | 0 <= j < b
        ensures r[i][j] == g[i][j]
      {
        assert |r[i][j]| == |g[i][j]|;
      }
    }
  }

  /** numpy's `max()` of a non-empty array: the largest entry, which occurs in it. */
  function SeqMax(s: seq<int>): (m: int)
    requires |s| > 0
    ensures m in s
    ensures forall v :: v in s ==> v <= m
  {
    if |s| == 1 then s[0]
    else
      var t := SeqMax(s[1..]);
      assert forall v :: v in s ==> v == s[0] || v in s[1..];
      if s[0] >= t then s[0] else t
  }
}
