/**
 * The optimisation phase of one update in `learn`: `inds = np.arange(nbatch)`,
 * then for each of `noptepochs` epochs the indices are shuffled in place and
 * cut into `nminibatches` contiguous slices of `nbatch_train` indices, each
 * slice handed to one `train` call.
 *
 * The shuffle's random draw is a parameter: a permutation p, after which
 * position i of `inds` holds what position p[i] held before.
 */
module Minibatch {

  import opened Common

  /** `p` lists each of 0 .. n-1 exactly once. */
  predicate IsPermutation(p: seq<nat>, n: nat)
  {
    && |p| == n
    && (forall i :: 0 <= i < n ==> p[i] < n)
    && (forall i, j :: 0 <= i < j < n ==> p[i] != p[j])
    && (forall v :: 0 <= v < n ==> v in p)
  }

  /** `np.arange(n)`. */
  function Arange(n: nat): (r: seq<nat>)
    ensures IsPermutation(r, n)
  {
    var r := seq(n, i requires 0 <= i < n => i);
    forall v | 0 <= v < n
      ensures v in r
    {
      assert r[v] == v;
    }
    r
  }

  /** `np.random.shuffle(inds)` with its draw given as the permutation p. */
  function Shuffle(inds: seq<nat>, p: seq<nat>): (r: seq<nat>)
    requires |p| == |inds| && forall i :: 0 <= i < |p| ==> p[i] < |inds|
    ensures |r| == |inds|
  {
    seq(|p|, i requires 0 <= i < |p| => inds[p[i]])
  }

  /** Shuffling a permutation by a permutation gives a permutation. */
  lemma ShufflePermutation(inds: seq<nat>, p: seq<nat>, n: nat)
    requires IsPermutation(inds, n) && IsPermutation(p, n)
    ensures IsPermutation(Shuffle(inds, p), n)
  {
    var r := Shuffle(inds, p);
    forall v | 0 <= v < n
      ensures v in r
    {
      assert v in inds;
      var k :| 0 <= k < n && inds[k] == v;
      assert k in p;
      var i :| 0 <= i < n && p[i] == k;
      assert r[i] == v;
    }
  }

  /** The order of `inds` after the shuffles of the given epochs, starting from `arange`. */
  function Order(n: nat, shuffles: seq<seq<nat>>): (r: seq<nat>)
    requires forall e :: 0 <= e < |shuffles| ==> IsPermutation(shuffles[e], n)
    ensures |r| == n
  {
    if shuffles == [] then Arange(n)
    else
      assert IsPermutation(shuffles[|shuffles| - 1], n);
      Shuffle(Order(n, shuffles[..|shuffles| - 1]), shuffles[|shuffles| - 1])
  }

  /** Every epoch's order is a permutation of 0 .. n-1. */
  lemma {:induction false} OrderPermutation(n: nat, shuffles: seq<seq<nat>>)
    requires forall e :: 0 <= e < |shuffles| ==> IsPermutation(shuffles[e], n)
    ensures IsPermutation(Order(n, shuffles), n)
  {
    if shuffles != [] {
      var init := shuffles[..|shuffles| - 1];
      OrderPermutation(n, init);
      ShufflePermutation(Order(n, init), shuffles[|shuffles| - 1], n);
    }
  }

  /** `inds[start:start + b]` with start = k * b. */
  function Slice(inds: seq<nat>, b: nat, k: nat): (r: seq<nat>)
    requires k * b + b <= |inds|
    ensures |r| == b
  {
    inds[k * b .. k * b + b]
  }

  /** The slices for the first `count` values of `start in range(0, nbatch, b)`. */
  function Slices(inds: seq<nat>, b: nat, count: nat): (r: seq<seq<nat>>)
    requires count * b <= |inds|
    ensures |r| == count
  {
    if count == 0 then []
    else
      assert (count - 1) * b + b == count * b;
      Slices(inds, b, count - 1) + [Slice(inds, b, count - 1)]
  }

  /** Some slice holds v. */
  predicate Covered(slices: seq<seq<nat>>, v: nat)
  {
    exists k :: 0 <= k < |slices| && v in slices[k]
  }

  /** Every v < n lies in exactly one slice, at exactly one position, and
      nothing else does. */
  predicate Partitions(slices: seq<seq<nat>>, n: nat)
  {
    && (forall k, i :: 0 <= k < |slices| && 0 <= i < |slices[k]| ==> slices[k][i] < n)
    && (forall v :: 0 <= v < n ==> Covered(slices, v))
    && (forall k1, i1, k2, i2 ::
          (0 <= k1 < |slices| && 0 <= i1 < |slices[k1]| &&
           0 <= k2 < |slices| && 0 <= i2 < |slices[k2]| &&
           slices[k1][i1] == slices[k2][i2]) ==> k1 == k2 && i1 == i2)
  }

  /** Slice k of the first m is `inds[k*b : k*b + b]`. */
  lemma {:induction false} SlicesAt(inds: seq<nat>, b: nat, m: nat, k: nat)
    requires m * b <= |inds| && k < m
    ensures k * b + b <= m * b
    ensures Slices(inds, b, m)[k] == Slice(inds, b, k)
  {
    MulMono(k + 1, m, b);
    assert (k + 1) * b == k * b + b;
    if k < m - 1 {
      assert (m - 1) * b + b == m * b;
      SlicesAt(inds, b, m - 1, k);
    }
  }

  /** Entry i of slice k is entry k*b + i of `inds`. */
  lemma SliceAt(inds: seq<nat>, b: nat, m: nat, k: nat, i: nat)
    requires m * b <= |inds| && k < m && i < b
    ensures k * b + i < m * b
    ensures |Slices(inds, b, m)[k]| == b && Slices(inds, b, m)[k][i] == inds[k * b + i]
  {
    IndexBound(k, i, b, m);
    SlicesAt(inds, b, m, k);
  }

  lemma SlicesInRange(inds: seq<nat>, b: nat, m: nat)
    requires IsPermutation(inds, m * b)
    ensures forall k, i :: 0 <= k < m && 0 <= i < |Slices(inds, b, m)[k]| ==> Slices(inds, b, m)[k][i] < m * b
  {
    var s := Slices(inds, b, m);
    forall k, i | 0 <= k < m && 0 <= i < |s[k]|
      ensures s[k][i] < m * b
    {
      SlicesAt(inds, b, m, k);
      SliceAt(inds, b, m, k, i);
    }
  }

  lemma SlicesCover(inds: seq<nat>, b: nat, m: nat)
    requires IsPermutation(inds, m * b)
    ensures forall v :: 0 <= v < m * b ==> Covered(Slices(inds, b, m), v)
  {
    forall v | 0 <= v < m * b
      ensures Covered(Slices(inds, b, m), v)
    {
      CoverOne(inds, b, m, v);
    }
  }

  lemma CoverOne(inds: seq<nat>, b: nat, m: nat, v: nat)
    requires IsPermutation(inds, m * b) && v < m * b
    ensures Covered(Slices(inds, b, m), v)
  {
    assert v in inds;
    var q :| 0 <= q < |inds| && inds[q] == v;
    var k, i := SlotOf(q, b, m);
    SliceAt(inds, b, m, k, i);
    assert Slices(inds, b, m)[k] in Slices(inds, b, m);
  }

  /** Position q of an m*b-long array is entry i of slice k. */
  lemma SlotOf(q: nat, b: nat, m: nat) returns (k: nat, i: nat)
    requires q < m * b
    ensures k < m && i < b && q == k * b + i
  {
    Split(q, b, m);
    k, i := q / b, q % b;
  }

  lemma SlicesDisjoint(inds: seq<nat>, b: nat, m: nat)
    requires IsPermutation(inds, m * b)
    ensures var s := Slices(inds, b, m);
      forall k1, i1, k2, i2 ::
        (0 <= k1 < m && 0 <= i1 < |s[k1]| && 0 <= k2 < m && 0 <= i2 < |s[k2]| &&
         s[k1][i1] == s[k2][i2]) ==> k1 == k2 && i1 == i2
  {
    var s := Slices(inds, b, m);
    forall k1, i1, k2, i2 |
      0 <= k1 < m && 0 <= i1 < |s[k1]| && 0 <= k2 < m && 0 <= i2 < |s[k2]| && s[k1][i1] == s[k2][i2]
      ensures k1 == k2 && i1 == i2
    {
      DisjointOne(inds, b, m, k1, i1, k2, i2);
    }
  }

  lemma DisjointOne(inds: seq<nat>, b: nat, m: nat, k1: nat, i1: nat, k2: nat, i2: nat)
    requires IsPermutation(inds, m * b)
    requires k1 < m && k2 < m && i1 < |Slices(inds, b, m)[k1]| && i2 < |Slices(inds, b, m)[k2]|
    requires Slices(inds, b, m)[k1][i1] == Slices(inds, b, m)[k2][i2]
    ensures k1 == k2 && i1 == i2
  {
    SlicesAt(inds, b, m, k1);
    SlicesAt(inds, b, m, k2);
    SliceAt(inds, b, m, k1, i1);
    SliceAt(inds, b, m, k2, i2);
    PositionUnique(k1, i1, k2, i2, b);
  }

  /** Cutting a permutation of 0 .. m*b-1 into m slices of b partitions 0 .. m*b-1. */
  lemma SlicesPartition(inds: seq<nat>, b: nat, m: nat)
    requires IsPermutation(inds, m * b)
    ensures Partitions(Slices(inds, b, m), m * b)
  {
    SlicesInRange(inds, b, m);
    SlicesCover(inds, b, m);
    SlicesDisjoint(inds, b, m);
  }

  /** The minibatch loop of one epoch: `for start in range(0, nbatch, b)`
      takes `inds[start:start + b]`. */
  method EpochMinibatches(inds: seq<nat>, b: nat, m: nat) returns (minibatches: seq<seq<nat>>)
    requires 0 < b && |inds| == m * b
    ensures minibatches == Slices(inds, b, m)
  {
    var nbatch := |inds|;
    minibatches := [];
    var start, k := 0, 0;
    while start < nbatch
      invariant 0 <= k <= m && start == k * b
      invariant minibatches == Slices(inds, b, k)
    {
      MulMono(m, k, b);
      MulMono(k + 1, m, b);
      var end := start + b;
      minibatches := minibatches + [inds[start..end]];
      start, k := end, k + 1;
    }
    MulMono(k + 1, m, b);
    assert (k + 1) * b == k * b + b;
  }

  /** What every epoch's minibatches satisfy: m slices of b indices that
      partition 0 .. m*b-1. */
  lemma EpochPartition(n: nat, shuffles: seq<seq<nat>>, b: nat, m: nat)
    requires n == m * b
    requires forall e :: 0 <= e < |shuffles| ==> IsPermutation(shuffles[e], n)
    ensures Partitions(Slices(Order(n, shuffles), b, m), n)
    ensures forall k :: 0 <= k < m ==> |Slices(Order(n, shuffles), b, m)[k]| == b
  {
    OrderPermutation(n, shuffles);
    SlicesPartition(Order(n, shuffles), b, m);
    forall k | 0 <= k < m
      ensures |Slices(Order(n, shuffles), b, m)[k]| == b
    {
      SlicesAt(Order(n, shuffles), b, m, k);
    }
  }

  /** The epoch and minibatch loops of `learn`.  Returns, per epoch, the index
      slices handed to `train`, in call order. */
  method Optimize(nbatch: nat, nminibatches: nat, noptepochs: nat, shuffles: seq<seq<nat>>)
    returns (epochs: seq<seq<seq<nat>>>)
    requires 0 < nbatch && 0 < nminibatches && nbatch % nminibatches == 0
    requires |shuffles| == noptepochs
    requires forall e :: 0 <= e < noptepochs ==> IsPermutation(shuffles[e], nbatch)
    ensures |epochs| == noptepochs
    ensures forall e :: 0 <= e < noptepochs ==>
      epochs[e] == Slices(Order(nbatch, shuffles[..e + 1]), nbatch / nminibatches, nminibatches)
    ensures forall e :: 0 <= e < noptepochs ==>
      |epochs[e]| == nminibatches && Partitions(epochs[e], nbatch)
    ensures forall e, k :: 0 <= e < noptepochs && 0 <= k < nminibatches ==>
      |epochs[e][k]| == nbatch / nminibatches
  {
    var nbatchTrain := nbatch / nminibatches;
    assert nminibatches * nbatchTrain == nbatch;
    var inds := Arange(nbatch);
    epochs := [];
    var e := 0;
    while e < noptepochs
      invariant 0 <= e <= noptepochs
      invariant inds == Order(nbatch, shuffles[..e])
      invariant |epochs| == e
      invariant forall e' :: 0 <= e' < e ==>
        epochs[e'] == Slices(Order(nbatch, shuffles[..e' + 1]), nbatchTrain, nminibatches)
    {
      assert shuffles[..e + 1][..e] == shuffles[..e];
      inds := Shuffle(inds, shuffles[e]);
      var minibatches := EpochMinibatches(inds, nbatchTrain, nminibatches);
      epochs := epochs + [minibatches];
      e := e + 1;
    }
    forall e | 0 <= e < noptepochs
      ensures |epochs[e]| == nminibatches && Partitions(epochs[e], nbatch)
      ensures forall k :: 0 <= k < nminibatches ==> |epochs[e][k]| == nbatchTrain
    {
      EpochPartition(nbatch, shuffles[..e + 1], nbatchTrain, nminibatches);
    }
  }
}
