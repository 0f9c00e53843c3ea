/**
 * Episode statistics kept by `learn`: the rolling buffer `epinfobuf` of the
 * last 100 completed episodes, `safemean` over it, and the single-agent
 * highscore threshold that rises when the rolling mean reward exceeds it.
 */
module Episodes {

  import opened Common

  /** `info['episode']`: the total reward `r` and length `l` of a finished episode. */
  datatype EpisodeInfo = EpisodeInfo(r: real, l: int)

  /** `maxlen` of `epinfobuf`. */
  const MaxLen: nat := 100

  /** The threshold `next_highscore` starts at. */
  const InitialHighscore: int := 5

  /** `highscore_interval`. */
  const HighscoreInterval: int := 1

  // ---------------------------------------------------------------------
  // The bounded deque

  /** `deque.append` on a deque bounded at `maxlen`: when full, the oldest
      entry is dropped. */
  function Append<T>(buf: seq<T>, x: T, maxlen: nat): seq<T>
  {
    if |buf| < maxlen then buf + [x] else (buf + [x])[|buf| + 1 - maxlen..]
  }

  /** `deque.extend(xs)`: the elements of xs appended one at a time. */
  function Extend<T>(buf: seq<T>, xs: seq<T>, maxlen: nat): seq<T>
    decreases |xs|
  {
    if xs == [] then buf else Extend(Append(buf, xs[0], maxlen), xs[1..], maxlen)
  }

  /** The newest `maxlen` entries of s. */
  function Newest<T>(s: seq<T>, maxlen: nat): (r: seq<T>)
    ensures |r| <= maxlen
  {
    if |s| <= maxlen then s else s[|s| - maxlen..]
  }

  lemma NewestOfNewest<T>(s: seq<T>, t: seq<T>, maxlen: nat)
    ensures Newest(Newest(s, maxlen) + t, maxlen) == Newest(s + t, maxlen)
  {
    if |s| > maxlen {
      var s' := Newest(s, maxlen);
      if |s' + t| > maxlen {
        var a, b := (s' + t)[|s' + t| - maxlen..], (s + t)[|s + t| - maxlen..];
        forall k | 0 <= k < maxlen
          ensures a[k] == b[k]
        {
          if k + |s' + t| - maxlen < |s'| {
            assert a[k] == s'[k + |s' + t| - maxlen] == s[|s| - maxlen + k + |s' + t| - maxlen];
          } else {
            assert a[k] == t[k + |s' + t| - maxlen - |s'|];
          }
        }
      } else {
        assert t == [];
        assert s + t == s;
      }
    }
  }

  /** Extending a deque that respects its bound keeps exactly the newest
      `maxlen` entries of the old contents followed by the new ones. */
  lemma {:induction false} ExtendKeepsNewest<T>(buf: seq<T>, xs: seq<T>, maxlen: nat)
    requires |buf| <= maxlen
    ensures Extend(buf, xs, maxlen) == Newest(buf + xs, maxlen)
    decreases |xs|
  {
    if xs == [] {
      assert buf + xs == buf;
    } else {
      var next := Append(buf, xs[0], maxlen);
      assert next == Newest(buf + [xs[0]], maxlen);
      ExtendKeepsNewest(next, xs[1..], maxlen);
      NewestOfNewest(buf + [xs[0]], xs[1..], maxlen);
      assert buf + [xs[0]] + xs[1..] == buf + xs;
    }
  }

  // ---------------------------------------------------------------------
  // safemean

  /** `safemean`: the mean of xs, or None where the source returns NaN for
      an empty list. */
  function SafeMean(xs: seq<real>): (r: Option<real>)
    ensures r.None? <==> xs == []
    ensures r.Some? ==> r.value * (|xs| as real) == Sum(xs)
  {
    if xs == [] then None else Some(Sum(xs) / (|xs| as real))
  }

  lemma {:induction false} SumBounds(xs: seq<real>, lo: real, hi: real)
    requires forall i :: 0 <= i < |xs| ==> lo <= xs[i] <= hi
    ensures (|xs| as real) * lo <= Sum(xs) <= (|xs| as real) * hi
  {
    if xs != [] {
      SumBounds(xs[..|xs| - 1], lo, hi);
    }
  }

  /** The mean lies between any lower and upper bound of the entries. */
  lemma MeanWithinBounds(xs: seq<real>, lo: real, hi: real)
    requires xs != []
    requires forall i :: 0 <= i < |xs| ==> lo <= xs[i] <= hi
    ensures lo <= SafeMean(xs).value <= hi
  {
    SumBounds(xs, lo, hi);
    var n := |xs| as real;
    var m := SafeMean(xs).value;
    assert m * n == Sum(xs);
    assert (m - lo) * n >= 0.0;
    assert (hi - m) * n >= 0.0;
  }

  /** `epinfo['r']`. */
  function Reward(e: EpisodeInfo): real { e.r }

  /** `ep_rew_mean = safemean([epinfo['r'] for epinfo in epinfobuf])`. */
  function MeanReward(buf: seq<EpisodeInfo>): (m: Option<real>)
    ensures m.None? <==> buf == []
    ensures m.Some? ==> m.value * (|buf| as real) == Sum(MapSeq(buf, Reward))
  {
    SafeMean(MapSeq(buf, Reward))
  }

  // ---------------------------------------------------------------------
  // The highscore threshold

  /** The highscore check of one update: in single-snake mode, a rolling mean
      reward above the threshold raises it by `highscore_interval`.  A NaN
      mean (no episodes yet) compares false. */
  function RaiseHighscore(threshold: int, epRewMean: Option<real>, numSnakes: int): (next: int)
    ensures next == threshold || next == threshold + HighscoreInterval
    ensures next != threshold <==> epRewMean.Some? && epRewMean.value > threshold as real && numSnakes == 1
  {
    if epRewMean.Some? && epRewMean.value > threshold as real && numSnakes == 1
    then threshold + HighscoreInterval
    else threshold
  }

  /** The threshold after a run of updates with the given rolling means. */
  function HighscoreAfter(threshold: int, means: seq<Option<real>>, numSnakes: int): int
  {
    if means == [] then threshold
    else RaiseHighscore(HighscoreAfter(threshold, means[..|means| - 1], numSnakes), means[|means| - 1], numSnakes)
  }

  /** Over any run the threshold never decreases, rises by at most one per
      update, and never moves when more than one snake plays. */
  lemma {:induction false} HighscoreMonotone(threshold: int, means: seq<Option<real>>, numSnakes: int, j: nat)
    requires j <= |means|
    ensures HighscoreAfter(threshold, means[..j], numSnakes) <= HighscoreAfter(threshold, means, numSnakes)
    ensures HighscoreAfter(threshold, means, numSnakes)
         <= HighscoreAfter(threshold, means[..j], numSnakes) + (|means| - j) * HighscoreInterval
    ensures numSnakes != 1 ==> HighscoreAfter(threshold, means, numSnakes) == threshold
  {
    if means != [] {
      var init := means[..|means| - 1];
      if j == |means| {
        assert means[..j] == means;
        HighscoreMonotone(threshold, init, numSnakes, 0);
      } else {
        assert means[..j] == init[..j];
        HighscoreMonotone(threshold, init, numSnakes, j);
      }
    } else {
      assert means[..j] == means;
    }
  }
}
