/**
 * `sf01`: swap the first two axes of a time-major H x N array and flatten
 * them, so that the N environment instances become contiguous runs of H
 * steps each.  Trailing axes (an observation's pixels) are carried along as
 * the element type T.
 */
module Flatten {

  import opened Common

  /** Every row has n entries. */
  predicate Rect<T>(arr: seq<seq<T>>, n: nat)
  {
    forall t :: 0 <= t < |arr| ==> |arr[t]| == n
  }

  /** `arr.swapaxes(0, 1)` of an H x n array: row j is column j of `arr`. */
  function SwapAxes<T>(arr: seq<seq<T>>, n: nat): seq<seq<T>>
    requires Rect(arr, n)
  {
    seq(n, j requires 0 <= j < n => seq(|arr|, t requires 0 <= t < |arr| => arr[t][j]))
  }

  /** `reshape` of the two leading axes into one: the rows laid end to end. */
  function Concat<T>(rows: seq<seq<T>>): seq<T>
  {
    if rows == [] then [] else Concat(rows[..|rows| - 1]) + rows[|rows| - 1]
  }

  /** Concatenating m rows of h entries gives m*h entries. */
  lemma {:induction false} ConcatLength<T>(rows: seq<seq<T>>, h: nat)
    requires Rect(rows, h)
    ensures |Concat(rows)| == |rows| * h
  {
    if rows != [] {
      var m := |rows|;
      ConcatLength(rows[..m - 1], h);
      assert m * h == (m - 1) * h + h;
    }
  }

  /** Entry i of row j is at j*h + i of the concatenation. */
  lemma {:induction false} ConcatAt<T>(rows: seq<seq<T>>, h: nat, j: nat, i: nat)
    requires Rect(rows, h) && j < |rows| && i < h
    ensures j * h + i < |Concat(rows)| && Concat(rows)[j * h + i] == rows[j][i]
  {
    var m := |rows|;
    var init := rows[..m - 1];
    ConcatLength(rows, h);
    ConcatLength(init, h);
    IndexBound(j, i, h, m);
    if j < m - 1 {
      IndexBound(j, i, h, m - 1);
      ConcatAt(init, h, j, i);
    } else {
      assert j * h + i == |Concat(init)| + i;
    }
  }

  /** `sf01`: the flat array of length H*n. */
  function Sf01<T>(arr: seq<seq<T>>, n: nat): (flat: seq<T>)
    requires Rect(arr, n)
    ensures |flat| == |arr| * n
  {
    ConcatLength(SwapAxes(arr, n), |arr|);
    Concat(SwapAxes(arr, n))
  }

  /** Entry (t, j) of the time-major array lands at j*H + t. */
  lemma Sf01At<T>(arr: seq<seq<T>>, n: nat, t: nat, j: nat)
    requires Rect(arr, n) && t < |arr| && j < n
    ensures Position(j, |arr|, t) < |Sf01(arr, n)|
    ensures Sf01(arr, n)[Position(j, |arr|, t)] == arr[t][j]
  {
    var h := |arr|;
    SwapAxesAt(arr, n, t, j);
    ConcatAt(SwapAxes(arr, n), h, j, t);
  }

  lemma SwapAxesAt<T>(arr: seq<seq<T>>, n: nat, t: nat, j: nat)
    requires Rect(arr, n) && t < |arr| && j < n
    ensures |SwapAxes(arr, n)| == n && Rect(SwapAxes(arr, n), |arr|)
    ensures SwapAxes(arr, n)[j][t] == arr[t][j]
  {
  }

  /** The inverse of `sf01`: rebuild the time-major h x n array from the flat one. */
  function Unsf01<T>(flat: seq<T>, h: nat, n: nat): (arr: seq<seq<T>>)
    requires |flat| == h * n
    ensures |arr| == h && Rect(arr, n)
  {
    seq(h, t requires 0 <= t < h =>
      seq(n, j requires 0 <= j < n => IndexBound(j, t, h, n); flat[j * h + t]))
  }

  /** Flattening and rebuilding gives back the time-major array. */
  lemma Sf01ThenUnsf01<T>(arr: seq<seq<T>>, n: nat)
    requires Rect(arr, n)
    ensures Unsf01(Sf01(arr, n), |arr|, n) == arr
  {
    var back := Unsf01(Sf01(arr, n), |arr|, n);
    forall t | 0 <= t < |arr|
      ensures back[t] == arr[t]
    {
      forall j | 0 <= j < n
        ensures back[t][j] == arr[t][j]
      {
        Sf01At(arr, n, t, j);
      }
    }
  }

  /** Rebuilding and flattening gives back the flat array, so `sf01` is a
      bijection between H x n arrays and arrays of length H*n. */
  lemma Unsf01ThenSf01<T>(flat: seq<T>, h: nat, n: nat)
    requires |flat| == h * n
    ensures Sf01(Unsf01(flat, h, n), n) == flat
  {
    var arr := Unsf01(flat, h, n);
    var again := Sf01(arr, n);
    forall k | 0 <= k < h * n
      ensures again[k] == flat[k]
    {
      Split(k, h, n);
      Sf01At(arr, n, k % h, k / h);
    }
  }
}
