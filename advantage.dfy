/**
 * Generalized advantage estimation as computed at the end of a rollout
 * (`Runner.run`, the backward loop over `reversed(range(nsteps))`).
 *
 * A trajectory is time-major: row t holds the N per-environment entries of
 * step t.  Arithmetic is over exact reals; the source's float32 rounding is
 * not modelled.
 */
module Advantage {

  /** What the estimator consumes: H rows of rewards, value estimates and the
      done flags recorded BEFORE each step, plus the bootstrap value of the
      observation after the last step and the done flags after the last step. */
  datatype Trajectory = Trajectory(
    rewards: seq<seq<real>>,
    values: seq<seq<real>>,
    dones: seq<seq<bool>>,
    lastValues: seq<real>,
    lastDones: seq<bool>)

  /** The horizon H. */
  function Steps(tr: Trajectory): nat { |tr.rewards| }

  /** The number N of parallel environment instances. */
  function Envs(tr: Trajectory): nat { |tr.lastValues| }

  /** Every array has shape H x N (the numpy arrays of the source are rectangular). */
  predicate Shaped(tr: Trajectory)
  {
    && |tr.values| == |tr.rewards|
    && |tr.dones| == |tr.rewards|
    && |tr.lastDones| == |tr.lastValues|
    && (forall t :: 0 <= t < |tr.rewards| ==> |tr.rewards[t]| == |tr.lastValues|)
    && (forall t :: 0 <= t < |tr.values| ==> |tr.values[t]| == |tr.lastValues|)
    && (forall t :: 0 <= t < |tr.dones| ==> |tr.dones[t]| == |tr.lastValues|)
  }

  /** `1.0 - done` for a boolean done flag. */
  function NonTerminal(done: bool): real
  {
    1.0 - (if done then 1.0 else 0.0)
  }

  /** `nextnonterminal` at step t: taken from the final done flags for the
      last step, otherwise from the flags recorded for step t+1. */
  function NextNonTerminal(tr: Trajectory, t: nat, n: nat): real
    requires Shaped(tr) && t < Steps(tr) && n < Envs(tr)
  {
    if t == Steps(tr) - 1 then NonTerminal(tr.lastDones[n]) else NonTerminal(tr.dones[t + 1][n])
  }

  /** `nextvalues` at step t: the bootstrap value for the last step,
      otherwise the value estimate of step t+1. */
  function NextValue(tr: Trajectory, t: nat, n: nat): real
    requires Shaped(tr) && t < Steps(tr) && n < Envs(tr)
  {
    if t == Steps(tr) - 1 then tr.lastValues[n] else tr.values[t + 1][n]
  }

  /** `delta = rewards + gamma * nextvalues * nextnonterminal - values`. */
  function TdError(reward: real, value: real, nextValue: real, nextNonTerminal: real, gamma: real): real
  {
    reward + gamma * nextValue * nextNonTerminal - value
  }

  /** `delta + gamma * lam * nextnonterminal * lastgaelam`. */
  function GaeUpdate(delta: real, nextNonTerminal: real, lastgaelam: real, gamma: real, lam: real): real
  {
    delta + gamma * lam * nextNonTerminal * lastgaelam
  }

  /** The one-step temporal-difference error `delta`. */
  function Delta(tr: Trajectory, gamma: real, t: nat, n: nat): real
    requires Shaped(tr) && t < Steps(tr) && n < Envs(tr)
  {
    TdError(tr.rewards[t][n], tr.values[t][n], NextValue(tr, t, n), NextNonTerminal(tr, t, n), gamma)
  }

  /** The accumulator `lastgaelam` for environment n once steps H-1 down to t
      have been processed; at t == H it is the initial 0. */
  function Gae(tr: Trajectory, gamma: real, lam: real, t: nat, n: nat): real
    requires Shaped(tr) && t <= Steps(tr) && n < Envs(tr)
    decreases Steps(tr) - t
  {
    if t == Steps(tr) then 0.0
    else GaeUpdate(Delta(tr, gamma, t, n), NextNonTerminal(tr, t, n), Gae(tr, gamma, lam, t + 1, n), gamma, lam)
  }

  /** Row t of the advantages (`mb_advs[t]`). */
  function AdvantageRow(tr: Trajectory, gamma: real, lam: real, t: nat): (row: seq<real>)
    requires Shaped(tr) && t <= Steps(tr)
  {
    seq(Envs(tr), n requires 0 <= n < Envs(tr) => Gae(tr, gamma, lam, t, n))
  }

  /** `mb_advs`, the H x N advantages. */
  function Advantages(tr: Trajectory, gamma: real, lam: real): seq<seq<real>>
    requires Shaped(tr)
  {
    seq(Steps(tr), t requires 0 <= t < Steps(tr) => AdvantageRow(tr, gamma, lam, t))
  }

  /** `mb_returns = mb_advs + mb_values`. */
  function Returns(tr: Trajectory, gamma: real, lam: real): seq<seq<real>>
    requires Shaped(tr)
  {
    seq(Steps(tr), t requires 0 <= t < Steps(tr) =>
      seq(Envs(tr), n requires 0 <= n < Envs(tr) => Gae(tr, gamma, lam, t, n) + tr.values[t][n]))
  }

  /** The backward loop of `Runner.run`: `mb_advs` starts as zeros, the
      accumulator `lastgaelam` starts at 0, and for t = H-1 down to 0 the row
      `delta + gamma * lam * nextnonterminal * lastgaelam` is stored in
      `mb_advs[t]`. */
  method BackwardPass(tr: Trajectory, gamma: real, lam: real) returns (advs: seq<seq<real>>)
    requires Shaped(tr)
    ensures advs == Advantages(tr, gamma, lam)
  {
    var h, nenv := |tr.rewards|, |tr.lastValues|;
    var zeros := seq(nenv, _ => 0.0);
    var mbAdvs := new seq<real>[h](_ => zeros);
    var lastgaelam := zeros;
    var t := h;
    assert zeros == AdvantageRow(tr, gamma, lam, h);
    while t > 0
      invariant 0 <= t <= h
      invariant lastgaelam == AdvantageRow(tr, gamma, lam, t)
      invariant forall k :: t <= k < h ==> mbAdvs[k] == AdvantageRow(tr, gamma, lam, k)
    {
      t := t - 1;
      lastgaelam := BackwardStep(tr, gamma, lam, t, lastgaelam);
      mbAdvs[t] := lastgaelam;
    }
    advs := mbAdvs[..];
    forall k | 0 <= k < h
      ensures advs[k] == Advantages(tr, gamma, lam)[k]
    {
      assert advs[k] == mbAdvs[k];
    }
  }

  /** The advantage estimation of `Runner.run`: the backward loop gives
      `mb_advs`, and the returns are advantages plus values, entry by entry. */
  method ComputeGae(tr: Trajectory, gamma: real, lam: real) returns (advs: seq<seq<real>>, rets: seq<seq<real>>)
    requires Shaped(tr)
    ensures advs == Advantages(tr, gamma, lam)
    ensures |rets| == Steps(tr)
    ensures forall t :: 0 <= t < Steps(tr) ==> |rets[t]| == Envs(tr)
    ensures forall t, n :: 0 <= t < Steps(tr) && 0 <= n < Envs(tr) ==> rets[t][n] == advs[t][n] + tr.values[t][n]
    ensures rets == Returns(tr, gamma, lam)
  {
    var h, nenv := |tr.rewards|, |tr.lastValues|;
    advs := BackwardPass(tr, gamma, lam);
    rets := seq(h, k requires 0 <= k < h =>
      seq(nenv, n requires 0 <= n < nenv => advs[k][n] + tr.values[k][n]));
    forall k | 0 <= k < h
      ensures rets[k] == Returns(tr, gamma, lam)[k]
    {
      assert advs[k] == AdvantageRow(tr, gamma, lam, k);
    }
  }


  /** One iteration of the backward loop: from `lastgaelam` after step t+1,
      compute `nextnonterminal`, `nextvalues` and `delta` of step t and the
      new `lastgaelam`. */
  method BackwardStep(tr: Trajectory, gamma: real, lam: real, t: nat, lastgaelam: seq<real>) returns (row: seq<real>)
    requires Shaped(tr) && t < Steps(tr)
    requires lastgaelam == AdvantageRow(tr, gamma, lam, t + 1)
    ensures row == AdvantageRow(tr, gamma, lam, t)
  {
    var h, nenv := |tr.rewards|, |tr.lastValues|;
    var nextnonterminal: seq<real>;
    var nextvalues: seq<real>;
    if t == h - 1 {
      nextnonterminal := seq(nenv, n requires 0 <= n < nenv => NonTerminal(tr.lastDones[n]));
      nextvalues := tr.lastValues;
    } else {
      nextnonterminal := seq(nenv, n requires 0 <= n < nenv => NonTerminal(tr.dones[t + 1][n]));
      nextvalues := tr.values[t + 1];
    }
    assert |nextnonterminal| == |nextvalues| == nenv;
    assert forall n :: 0 <= n < nenv ==> nextnonterminal[n] == NextNonTerminal(tr, t, n);
    assert forall n :: 0 <= n < nenv ==> nextvalues[n] == NextValue(tr, t, n);
    var delta := seq(nenv, n requires 0 <= n < nenv =>
      TdError(tr.rewards[t][n], tr.values[t][n], nextvalues[n], nextnonterminal[n], gamma));
    row := seq(nenv, n requires 0 <= n < nenv =>
      GaeUpdate(delta[n], nextnonterminal[n], lastgaelam[n], gamma, lam));
    forall n | 0 <= n < nenv
      ensures row[n] == Gae(tr, gamma, lam, t, n)
    {
      assert delta[n] == Delta(tr, gamma, t, n);
      assert lastgaelam[n] == Gae(tr, gamma, lam, t + 1, n);
    }
  }

  // ---------------------------------------------------------------------
  // Properties of the recurrence

  /** A last step whose episode terminated has no bootstrap: its advantage is
      reward minus value. */
  lemma TerminatedLastStep(tr: Trajectory, gamma: real, lam: real, n: nat)
    requires Shaped(tr) && Steps(tr) > 0 && n < Envs(tr)
    requires tr.lastDones[n]
    ensures Gae(tr, gamma, lam, Steps(tr) - 1, n) == tr.rewards[Steps(tr) - 1][n] - tr.values[Steps(tr) - 1][n]
  {
  }

  /** With gamma = 0 every advantage is reward minus value, whatever lambda is. */
  lemma NoDiscount(tr: Trajectory, lam: real, t: nat, n: nat)
    requires Shaped(tr) && t < Steps(tr) && n < Envs(tr)
    ensures Gae(tr, 0.0, lam, t, n) == tr.rewards[t][n] - tr.values[t][n]
  {
  }

  /** With lambda = 0 every advantage is that step's one-step TD error. */
  lemma OneStep(tr: Trajectory, gamma: real, t: nat, n: nat)
    requires Shaped(tr) && t < Steps(tr) && n < Envs(tr)
    ensures Gae(tr, gamma, 0.0, t, n) == Delta(tr, gamma, t, n)
  {
  }

  /** A worked rollout with H = 4, N = 2 and no terminations, with the exact
      values the backward recurrence gives for gamma = 0.99, lambda = 0.95. */
  lemma WorkedExample()
    ensures var tr := Trajectory(
              [[1.0, 0.0], [0.0, 1.0], [1.0, 1.0], [0.0, 0.0]],
              [[0.5, 0.5], [0.4, 0.6], [0.3, 0.3], [0.2, 0.2]],
              [[false, false], [false, false], [false, false], [false, false]],
              [0.1, 0.1], [false, false]);
            Shaped(tr) &&
            Advantages(tr, 0.99, 0.95)
              == [[1.509422723882375, 1.459822723882375], [0.65223043475, 1.45223043475],
                  [0.8030095, 0.8030095], [-0.101, -0.101]]
  {
    var tr := Trajectory(
      [[1.0, 0.0], [0.0, 1.0], [1.0, 1.0], [0.0, 0.0]],
      [[0.5, 0.5], [0.4, 0.6], [0.3, 0.3], [0.2, 0.2]],
      [[false, false], [false, false], [false, false], [false, false]],
      [0.1, 0.1], [false, false]);
    assert Shaped(tr);
    var g, l := 0.99, 0.95;
    assert Gae(tr, g, l, 4, 0) == 0.0 && Gae(tr, g, l, 4, 1) == 0.0;
    assert Gae(tr, g, l, 3, 0) == -0.101;
    assert Gae(tr, g, l, 3, 1) == -0.101;
    assert Gae(tr, g, l, 2, 0) == 0.8030095;
    assert Gae(tr, g, l, 2, 1) == 0.8030095;
    assert Gae(tr, g, l, 1, 0) == 0.65223043475;
    assert Gae(tr, g, l, 1, 1) == 1.45223043475;
    assert Gae(tr, g, l, 0, 0) == 1.509422723882375;
    assert Gae(tr, g, l, 0, 1) == 1.459822723882375;
    assert AdvantageRow(tr, g, l, 0) == [1.509422723882375, 1.459822723882375];
    assert AdvantageRow(tr, g, l, 1) == [0.65223043475, 1.45223043475];
    assert AdvantageRow(tr, g, l, 2) == [0.8030095, 0.8030095];
    assert AdvantageRow(tr, g, l, 3) == [-0.101, -0.101];
  }

  // ---------------------------------------------------------------------
  // An independent, forward definition: the advantage at step t is the sum
  // of the TD errors delta_k for k = t .. H-1, each weighted by the product
  // of the factors gamma * lam * nextnonterminal of the steps t .. k-1.
  // It is stated for one environment over two plain sequences: the factors
  // c and the TD errors d of steps 0 .. H-1.

  /** The factor `gamma * lam * nextnonterminal` of each step, for environment n. */
  function Factors(tr: Trajectory, gamma: real, lam: real, n: nat): (c: seq<real>)
    requires Shaped(tr) && n < Envs(tr)
    ensures |c| == Steps(tr)
  {
    seq(Steps(tr), t requires 0 <= t < Steps(tr) => gamma * lam * NextNonTerminal(tr, t, n))
  }

  /** The TD error of each step, for environment n. */
  function Deltas(tr: Trajectory, gamma: real, n: nat): (d: seq<real>)
    requires Shaped(tr) && n < Envs(tr)
    ensures |d| == Steps(tr)
  {
    seq(Steps(tr), t requires 0 <= t < Steps(tr) => Delta(tr, gamma, t, n))
  }

  /** The product of c[j] for t <= j < k. */
  function Weight(c: seq<real>, t: nat, k: nat): real
    requires t <= k <= |c|
    decreases k - t
  {
    if k == t then 1.0 else Weight(c, t, k - 1) * c[k - 1]
  }

  /** The sum of Weight(c, t, k) * d[k] for t <= k < m. */
  function WeightedSum(c: seq<real>, d: seq<real>, t: nat, m: nat): real
    requires |c| == |d| && t <= m <= |d|
    decreases m - t
  {
    if m == t then 0.0 else WeightedSum(c, d, t, m - 1) + Weight(c, t, m - 1) * d[m - 1]
  }

  lemma MulAssoc(a: real, b: real, c: real)
    ensures (a * b) * c == a * (b * c)
  {
  }

  lemma Regroup(x: real, c: real, s: real, w: real, e: real)
    ensures (x + c * s) + (c * w) * e == x + c * (s + w * e)
  {
    MulAssoc(c, w, e);
  }

  lemma {:induction false} WeightShift(c: seq<real>, t: nat, k: nat)
    requires t < k <= |c|
    ensures Weight(c, t, k) == c[t] * Weight(c, t + 1, k)
    decreases k - t
  {
    if k > t + 1 {
      WeightShift(c, t, k - 1);
      MulAssoc(c[t], Weight(c, t + 1, k - 1), c[k - 1]);
    }
  }

  lemma {:induction false} WeightedSumShift(c: seq<real>, d: seq<real>, t: nat, m: nat)
    requires |c| == |d| && t < m <= |d|
    ensures WeightedSum(c, d, t, m) == d[t] + c[t] * WeightedSum(c, d, t + 1, m)
    decreases m - t
  {
    if m > t + 1 {
      WeightedSumShift(c, d, t, m - 1);
      WeightShift(c, t, m - 1);
      Regroup(d[t], c[t], WeightedSum(c, d, t + 1, m - 1), Weight(c, t + 1, m - 1), d[m - 1]);
    }
  }

  /** Any g that satisfies the backward recurrence g[k] = d[k] + c[k] * g[k+1]
      from k = t on, and ends at g[H] = 0, is the forward weighted sum. */
  lemma {:induction false} BackwardIsForward(c: seq<real>, d: seq<real>, g: seq<real>, t: nat)
    requires |c| == |d| && |g| == |d| + 1 && t <= |d| && g[|d|] == 0.0
    requires forall k :: t <= k < |d| ==> g[k] == d[k] + c[k] * g[k + 1]
    ensures g[t] == WeightedSum(c, d, t, |d|)
    decreases |d| - t
  {
    if t < |d| {
      BackwardIsForward(c, d, g, t + 1);
      WeightedSumShift(c, d, t, |d|);
    }
  }

  /** The backward recurrence of `Runner.run` equals the forward weighted sum
      of TD errors, for every step t and environment n. */
  lemma GaeIsWeightedSum(tr: Trajectory, gamma: real, lam: real, t: nat, n: nat)
    requires Shaped(tr) && t <= Steps(tr) && n < Envs(tr)
    ensures Gae(tr, gamma, lam, t, n)
         == WeightedSum(Factors(tr, gamma, lam, n), Deltas(tr, gamma, n), t, Steps(tr))
  {
    var h := Steps(tr);
    var c, d := Factors(tr, gamma, lam, n), Deltas(tr, gamma, n);
    var g := seq(h + 1, k requires 0 <= k <= h => Gae(tr, gamma, lam, k, n));
    forall k | 0 <= k < h
      ensures g[k] == d[k] + c[k] * g[k + 1]
    {
      assert c[k] == gamma * lam * NextNonTerminal(tr, k, n);
      assert d[k] == Delta(tr, gamma, k, n);
    }
    BackwardIsForward(c, d, g, t);
  }
}
