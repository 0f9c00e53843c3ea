/** Small shared vocabulary: an optional value and sequence helpers. */
module Common {

  datatype Option<+T> = None | Some(value: T)

  /** The sum of a sequence of reals, accumulated left to right. */
  function Sum(xs: seq<real>): real
  {
    if xs == [] then 0.0 else Sum(xs[..|xs| - 1]) + xs[|xs| - 1]
  }

  /** Applies `f` to every element, keeping the order. */
  function MapSeq<A, B>(xs: seq<A>, f: A -> B): (ys: seq<B>)
    ensures |ys| == |xs|
    ensures forall i :: 0 <= i < |xs| ==> ys[i] == f(xs[i])
  {
    seq(|xs|, i requires 0 <= i < |xs| => f(xs[i]))
  }

  lemma MapSeqSnoc<A, B>(xs: seq<A>, x: A, f: A -> B)
    ensures MapSeq(xs + [x], f) == MapSeq(xs, f) + [f(x)]
  {
  }

  // Integer facts about row-major positions j * h + i.

  /** The row-major position of entry i of row j, rows of length h. */
  function Position(j: nat, h: nat, i: nat): nat
  {
    j * h + i
  }

  lemma MulMono(a: nat, b: nat, h: nat)
    ensures a <= b ==> a * h <= b * h
  {
    if a <= b {
      assert b * h == a * h + (b - a) * h;
    }
  }

  lemma IndexBound(j: nat, i: nat, h: nat, m: nat)
    requires j < m && i < h
    ensures j * h + i < m * h
  {
    MulMono(j + 1, m, h);
    assert (j + 1) * h == j * h + h;
  }

  lemma Split(k: nat, h: nat, n: nat)
    requires k < h * n
    ensures h > 0 && k / h < n && k == (k / h) * h + k % h && k % h < h
  {
    assert h != 0;
    MulMono(n, k / h, h);
  }

  /** A position j * h + i with i < h determines j and i. */
  lemma PositionUnique(k1: nat, i1: nat, k2: nat, i2: nat, h: nat)
    requires i1 < h && i2 < h && k1 * h + i1 == k2 * h + i2
    ensures k1 == k2 && i1 == i2
  {
    MulMono(k1 + 1, k2, h);
    MulMono(k2 + 1, k1, h);
    assert (k1 + 1) * h == k1 * h + h;
    assert (k2 + 1) * h == k2 * h + h;
  }

  /** No non-zero multiple of k lies strictly between -k and k. */
  lemma MultipleBounds(d: int, k: nat)
    requires k > 0
    ensures d * k + k <= 0 || d * k == 0 || d * k >= k
  {
    if d >= 1 {
      MulMono(1, d, k);
    } else if d <= -1 {
      MulMono(1, -d, k);
      assert (-d) * k == -(d * k);
    }
  }

  /** n = q*k + r with 0 <= r < k fixes n / k and n % k. */
  lemma DivModUnique(n: int, k: nat, q: int, r: int)
    requires k > 0 && 0 <= r < k && n == q * k + r
    ensures n / k == q && n % k == r
  {
    var d := q - n / k;
    assert n == (n / k) * k + n % k;
    assert d * k == q * k - (n / k) * k;
    MultipleBounds(d, k);
  }

  /** Counting one more: n+1 is a multiple of k exactly when the quotient
      goes up by one. */
  lemma DivNext(n: nat, k: nat)
    requires k > 0
    ensures (n + 1) % k == 0 ==> (n + 1) / k == n / k + 1
    ensures (n + 1) % k != 0 ==> (n + 1) / k == n / k
  {
    var q, r := n / k, n % k;
    assert n == q * k + r;
    if r + 1 == k {
      assert n + 1 == (q + 1) * k + 0;
      DivModUnique(n + 1, k, q + 1, 0);
    } else {
      assert n + 1 == q * k + (r + 1);
      DivModUnique(n + 1, k, q, r + 1);
    }
  }
}
