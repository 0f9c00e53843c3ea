/**
 * The multi-agent rollout of `Runner.run`: for H steps the primary policy
 * (and the opponent, when one is configured) choose actions for all N
 * environment instances, the joint actions step the vectorised environment,
 * and the primary's view of every step is recorded; afterwards the
 * advantages are estimated and every array is flattened with `sf01`.
 *
 * The policies are fixed functions while a rollout runs; their sampling is
 * determined by a draw number.  The model counts its steps, and the primary
 * and the opponent take their draws from two disjoint streams.  The
 * environment is a function of the joint actions it has been stepped with
 * since its reset.
 */
module Rollout {

  import opened Common
  import opened Advantage
  import opened Flatten
  import opened Episodes

  /** The observation of one agent in one environment instance. */
  type Obs = seq<int>

  /** The recurrent state a policy threads through its steps. */
  datatype PolicyState = Stateless | Memory(cells: seq<real>)

  /** What `model.step` returns for a batch of N observations. */
  datatype PolicyOutput = PolicyOutput(
    actions: seq<int>,
    values: seq<real>,
    state: PolicyState,
    neglogpacs: seq<real>)

  /** A policy with fixed parameters: `step` (sampling, so it takes a draw
      number) and `value`. */
  datatype Policy = Policy(
    step: (nat, seq<Obs>, PolicyState, seq<bool>) -> PolicyOutput,
    value: (seq<Obs>, PolicyState, seq<bool>) -> seq<real>)

  /** The pair [primary action, opponent action] sent for one instance. */
  datatype JointAction = JointAction(primary: int, opponent: int)

  /** The second action sent when no opponent is configured. */
  const Placeholder: int := 1

  /** What `env.step` returns; the observation has already been split into
      the primary's and the opponent's channels. */
  datatype EnvOutput = EnvOutput(
    primaryObs: seq<Obs>,
    opponentObs: seq<Obs>,
    rewards: seq<real>,
    dones: seq<bool>,
    infos: seq<Option<EpisodeInfo>>)

  /** The policy answers every batch with N actions, values and neglogpacs. */
  ghost predicate PolicyConforms(p: Policy, n: nat)
  {
    && (forall d, o, s, ds :: |p.step(d, o, s, ds).actions| == n
                              && |p.step(d, o, s, ds).values| == n
                              && |p.step(d, o, s, ds).neglogpacs| == n)
    && (forall o, s, ds :: |p.value(o, s, ds)| == n)
  }

  predicate OutputShaped(e: EnvOutput, n: nat)
  {
    |e.primaryObs| == n && |e.opponentObs| == n && |e.rewards| == n && |e.dones| == n
  }

  /** The environment answers every history with N entries of each kind. */
  ghost predicate EnvConforms(dynamics: seq<seq<JointAction>> -> EnvOutput, n: nat)
  {
    forall h :: OutputShaped(dynamics(h), n)
  }

  // ---------------------------------------------------------------------
  // Joint actions (`multi_step`)

  function Primary(j: JointAction): int { j.primary }

  function Opponent(j: JointAction): int { j.opponent }

  /** `full_actions`: entry i pairs the primary's action i with the
      placeholder, or with the opponent's action i when there is one. */
  function Pair(actions: seq<int>, opponentActions: Option<seq<int>>): seq<JointAction>
    requires opponentActions.Some? ==> |actions| <= |opponentActions.value|
  {
    if actions == [] then []
    else
      var i := |actions| - 1;
      var second := if opponentActions.None? then Placeholder else opponentActions.value[i];
      Pair(actions[..i], opponentActions) + [JointAction(actions[i], second)]
  }

  /** The joint actions split back into the two agents' actions: the first
      components are the primary's actions unchanged, the second ones are
      all the placeholder or the opponent's actions in order. */
  lemma {:induction false} PairProjections(actions: seq<int>, opponentActions: Option<seq<int>>)
    requires opponentActions.Some? ==> |actions| <= |opponentActions.value|
    ensures |Pair(actions, opponentActions)| == |actions|
    ensures MapSeq(Pair(actions, opponentActions), Primary) == actions
    ensures MapSeq(Pair(actions, opponentActions), Opponent)
         == if opponentActions.None? then seq(|actions|, _ => Placeholder)
            else opponentActions.value[..|actions|]
  {
    if actions != [] {
      var i := |actions| - 1;
      PairProjections(actions[..i], opponentActions);
      var full := Pair(actions, opponentActions);
      assert full == Pair(actions[..i], opponentActions) + [full[i]];
      MapSeqSnoc(Pair(actions[..i], opponentActions), full[i], Primary);
      MapSeqSnoc(Pair(actions[..i], opponentActions), full[i], Opponent);
      assert actions == actions[..i] + [actions[i]];
      if opponentActions.Some? {
        var o := opponentActions.value;
        assert o[..|actions|] == o[..i] + [o[i]];
      } else {
        assert seq(|actions|, _ => Placeholder) == seq(i, _ => Placeholder) + [Placeholder];
      }
    }
  }

  /** The pairing loop of `multi_step`. */
  method PairActions(actions: seq<int>, opponentActions: Option<seq<int>>) returns (full: seq<JointAction>)
    requires opponentActions.Some? ==> |actions| <= |opponentActions.value|
    ensures full == Pair(actions, opponentActions)
  {
    full := [];
    var i := 0;
    while i < |actions|
      invariant 0 <= i <= |actions|
      invariant full == Pair(actions[..i], opponentActions)
    {
      var a := actions[i];
      if opponentActions.None? {
        full := full + [JointAction(a, Placeholder)];
      } else {
        full := full + [JointAction(a, opponentActions.value[i])];
      }
      assert actions[..i + 1][..i] == actions[..i];
      i := i + 1;
    }
    assert actions[..i] == actions;
  }

  /** The two models sample independently: at the model's k-th step the
      primary samples with draw 2k and the opponent with draw 2k + 1. */
  function PrimaryDraw(k: nat): nat { 2 * k }

  function OpponentDraw(k: nat): nat { 2 * k + 1 }

  /** No draw of the primary is ever a draw of the opponent, so the two
      models' samples are never tied to each other. */
  lemma DrawsDisjoint(j: nat, k: nat)
    ensures PrimaryDraw(j) != OpponentDraw(k)
    ensures j != k ==> PrimaryDraw(j) != PrimaryDraw(k) && OpponentDraw(j) != OpponentDraw(k)
  {
  }

  /** The opponent's actions for a step, if an opponent is configured. */
  function OpponentActions(opponent: Option<Policy>, draw: nat, obs: seq<Obs>, states: PolicyState, dones: seq<bool>): Option<seq<int>>
  {
    if opponent.None? then None else Some(opponent.value.step(draw, obs, states, dones).actions)
  }

  // ---------------------------------------------------------------------
  // Completed episodes

  /** The `info['episode']` entries present in `infos`, in order. */
  function EpisodesOf(infos: seq<Option<EpisodeInfo>>): seq<EpisodeInfo>
  {
    if infos == [] then []
    else
      var last := infos[|infos| - 1];
      EpisodesOf(infos[..|infos| - 1]) + (if last.Some? then [last.value] else [])
  }

  /** Collecting over two runs of infos is collecting over each in turn:
      every episode present is kept, however many equal ones there are, in
      the order of the infos. */
  lemma {:induction false} EpisodesOfAppend(a: seq<Option<EpisodeInfo>>, b: seq<Option<EpisodeInfo>>)
    ensures EpisodesOf(a + b) == EpisodesOf(a) + EpisodesOf(b)
    decreases |b|
  {
    if b != [] {
      var init := b[..|b| - 1];
      assert (a + b)[..|a + b| - 1] == a + init;
      EpisodesOfAppend(a, init);
    } else {
      assert a + b == a;
    }
  }

  /** An episode is collected exactly when some info carries it, and no
      more entries are collected than there are infos. */
  lemma {:induction false} EpisodesOfMembers(infos: seq<Option<EpisodeInfo>>, e: EpisodeInfo)
    ensures e in EpisodesOf(infos) <==> Some(e) in infos
    ensures |EpisodesOf(infos)| <= |infos|
  {
    if infos != [] {
      var init := infos[..|infos| - 1];
      EpisodesOfMembers(init, e);
      assert infos == init + [infos[|infos| - 1]];
    }
  }

  /** The loop `for info in infos: ... epinfos.append(maybeepinfo)`. */
  method AppendEpisodes(epinfos: seq<EpisodeInfo>, infos: seq<Option<EpisodeInfo>>) returns (result: seq<EpisodeInfo>)
    ensures result == epinfos + EpisodesOf(infos)
  {
    result := epinfos;
    var i := 0;
    while i < |infos|
      invariant 0 <= i <= |infos|
      invariant result == epinfos + EpisodesOf(infos[..i])
    {
      var info := infos[i];
      if info.Some? {
        result := result + [info.value];
      }
      assert infos[..i + 1][..i] == infos[..i];
      i := i + 1;
    }
    assert infos[..i] == infos;
  }

  // ---------------------------------------------------------------------
  // The vectorised environment

  class VecEnv {
    const numEnvs: nat
    /** The output after the given joint actions since the reset; the
        output for the empty history is the reset observation. */
    const dynamics: seq<seq<JointAction>> -> EnvOutput
    var history: seq<seq<JointAction>>

    constructor(numEnvs: nat, dynamics: seq<seq<JointAction>> -> EnvOutput)
      ensures this.numEnvs == numEnvs && this.dynamics == dynamics && history == []
    {
      this.numEnvs := numEnvs;
      this.dynamics := dynamics;
      history := [];
    }

    method Reset() returns (out: EnvOutput)
      modifies this
      ensures history == [] && out == dynamics([])
    {
      history := [];
      out := dynamics(history);
    }

    method Step(actions: seq<JointAction>) returns (out: EnvOutput)
      modifies this
      ensures history == old(history) + [actions] && out == dynamics(history)
    {
      history := history + [actions];
      out := dynamics(history);
    }
  }

  // ---------------------------------------------------------------------
  // MultiModel

  class MultiModel {
    const nenv: nat
    /** The primary model, whose parameters training replaces. */
    var main: Policy
    /** `opponent_model`, whose parameters a load replaces. */
    var opponent: Option<Policy>
    var fullActions: seq<JointAction>
    /** How many sampling steps have been taken. */
    var draws: nat

    ghost predicate Valid()
      reads this
    {
      PolicyConforms(main, nenv) && (opponent.Some? ==> PolicyConforms(opponent.value, nenv))
    }

    constructor(nenv: nat, main: Policy, opponent: Option<Policy>)
      requires PolicyConforms(main, nenv) && (opponent.Some? ==> PolicyConforms(opponent.value, nenv))
      ensures Valid()
      ensures this.nenv == nenv && this.main == main && this.opponent == opponent
      ensures fullActions == [] && draws == 0
    {
      this.nenv := nenv;
      this.main := main;
      this.opponent := opponent;
      fullActions := [];
      draws := 0;
    }

    /** `multi_step`: the primary's step is returned unchanged, and the joint
        actions pair it with the opponent's actions (computed from the
        opponent's observations but the primary's states and dones) or with
        the placeholder. */
    method MultiStep(obs: seq<Obs>, opponentObs: seq<Obs>, states: PolicyState, dones: seq<bool>)
      returns (out: PolicyOutput)
      requires Valid()
      modifies this
      ensures Valid() && main == old(main) && opponent == old(opponent)
      ensures out == main.step(PrimaryDraw(old(draws)), obs, states, dones)
      ensures fullActions == Pair(out.actions, OpponentActions(opponent, OpponentDraw(old(draws)), opponentObs, states, dones))
      ensures draws == old(draws) + 1
    {
      out := main.step(PrimaryDraw(draws), obs, states, dones);
      var opponentActions: Option<seq<int>> := None;
      if opponent.Some? {
        var opponentOut := opponent.value.step(OpponentDraw(draws), opponentObs, states, dones);
        opponentActions := Some(opponentOut.actions);
      }
      fullActions := PairActions(out.actions, opponentActions);
      draws := draws + 1;
    }

    /** `opponent_model.load`: the opponent's parameters are replaced. */
    method LoadOpponent(p: Policy)
      requires Valid() && opponent.Some? && PolicyConforms(p, nenv)
      modifies this
      ensures Valid() && main == old(main) && opponent == Some(p)
      ensures fullActions == old(fullActions) && draws == old(draws)
    {
      opponent := Some(p);
    }

    /** The primary's parameters after training. */
    method SetMain(p: Policy)
      requires Valid() && PolicyConforms(p, nenv)
      modifies this
      ensures Valid() && main == p && opponent == old(opponent)
      ensures fullActions == old(fullActions) && draws == old(draws)
    {
      main := p;
    }
  }

  // ---------------------------------------------------------------------
  // The rollout as a function of the world

  /** Everything a rollout depends on that it does not change. */
  datatype World = World(
    nenv: nat,
    main: Policy,
    opponent: Option<Policy>,
    dynamics: seq<seq<JointAction>> -> EnvOutput)

  ghost predicate Conforms(w: World)
  {
    && PolicyConforms(w.main, w.nenv)
    && (w.opponent.Some? ==> PolicyConforms(w.opponent.value, w.nenv))
    && EnvConforms(w.dynamics, w.nenv)
  }

  /** What a rollout changes: the environment's history, the draw counter,
      and the runner's observations, recurrent state and done flags. */
  datatype Snap = Snap(
    history: seq<seq<JointAction>>,
    draws: nat,
    primaryObs: seq<Obs>,
    opponentObs: seq<Obs>,
    states: PolicyState,
    dones: seq<bool>)

  predicate SnapShaped(s: Snap, n: nat)
  {
    |s.primaryObs| == n && |s.opponentObs| == n && |s.dones| == n
  }

  /** One step as recorded: the observation, actions, values and neglogpacs
      of the primary, the done flags held BEFORE the step, the rewards the
      step produced, and the episodes it completed. */
  datatype StepRecord = StepRecord(
    obs: seq<Obs>,
    actions: seq<int>,
    values: seq<real>,
    neglogpacs: seq<real>,
    dones: seq<bool>,
    rewards: seq<real>,
    episodes: seq<EpisodeInfo>)

  predicate RecordShaped(r: StepRecord, n: nat)
  {
    && |r.obs| == n && |r.actions| == n && |r.values| == n
    && |r.neglogpacs| == n && |r.dones| == n && |r.rewards| == n
  }

  /** One iteration of the loop in `run`. */
  function StepOnce(w: World, s: Snap): (r: (Snap, StepRecord))
    requires Conforms(w) && SnapShaped(s, w.nenv)
    ensures SnapShaped(r.0, w.nenv) && RecordShaped(r.1, w.nenv)
  {
    var out := w.main.step(PrimaryDraw(s.draws), s.primaryObs, s.states, s.dones);
    var full := Pair(out.actions, OpponentActions(w.opponent, OpponentDraw(s.draws), s.opponentObs, s.states, s.dones));
    var h := s.history + [full];
    var e := w.dynamics(h);
    assert OutputShaped(e, w.nenv);
    (Snap(h, s.draws + 1, e.primaryObs, e.opponentObs, out.state, e.dones),
     StepRecord(s.primaryObs, out.actions, out.values, out.neglogpacs, s.dones, e.rewards, EpisodesOf(e.infos)))
  }

  /** The state and the records after k steps. */
  function Collect(w: World, s: Snap, k: nat): (r: (Snap, seq<StepRecord>))
    requires Conforms(w) && SnapShaped(s, w.nenv)
    ensures SnapShaped(r.0, w.nenv) && |r.1| == k
    ensures forall t :: 0 <= t < k ==> RecordShaped(r.1[t], w.nenv)
  {
    if k == 0 then (s, [])
    else
      var prev := Collect(w, s, k - 1);
      var next := StepOnce(w, prev.0);
      (next.0, prev.1 + [next.1])
  }

  /** The records of a shorter rollout are a prefix of a longer one's. */
  lemma {:induction false} CollectPrefix(w: World, s: Snap, k: nat, j: nat)
    requires Conforms(w) && SnapShaped(s, w.nenv) && j <= k
    ensures Collect(w, s, k).1[..j] == Collect(w, s, j).1
  {
    if j < k {
      CollectPrefix(w, s, k - 1, j);
      assert Collect(w, s, k).1[..j] == Collect(w, s, k - 1).1[..j];
    }
  }

  /** Alignment of what is recorded at step t: the done flags are those held
      before the step (the previous rollout's final flags at t = 0), while
      the rewards and the done flags held after it are the environment's
      answer to step t's joint actions. */
  lemma RecordAlignment(w: World, s: Snap, k: nat, t: nat)
    requires Conforms(w) && SnapShaped(s, w.nenv) && t < k
    ensures Collect(w, s, k).1[t].dones == Collect(w, s, t).0.dones
    ensures t == 0 ==> Collect(w, s, k).1[t].dones == s.dones
    ensures Collect(w, s, k).1[t].rewards == w.dynamics(Collect(w, s, t + 1).0.history).rewards
    ensures Collect(w, s, t + 1).0.dones == w.dynamics(Collect(w, s, t + 1).0.history).dones
  {
    CollectPrefix(w, s, k, t + 1);
    assert Collect(w, s, k).1[t] == Collect(w, s, k).1[..t + 1][t];
  }

  // ---------------------------------------------------------------------
  // The batch a rollout returns

  /** What `run` returns: the six flattened arrays of length H*N, the
      recurrent state the rollout started from, and the completed episodes. */
  datatype Batch = Batch(
    obs: seq<Obs>,
    rets: seq<real>,
    masks: seq<bool>,
    actions: seq<int>,
    values: seq<real>,
    neglogpacs: seq<real>,
    states: PolicyState,
    epinfos: seq<EpisodeInfo>)

  function ObsOf(r: StepRecord): seq<Obs> { r.obs }
  function ActionsOf(r: StepRecord): seq<int> { r.actions }
  function ValuesOf(r: StepRecord): seq<real> { r.values }
  function NeglogpacsOf(r: StepRecord): seq<real> { r.neglogpacs }
  function DonesOf(r: StepRecord): seq<bool> { r.dones }
  function RewardsOf(r: StepRecord): seq<real> { r.rewards }
  function EpisodesRecorded(r: StepRecord): seq<EpisodeInfo> { r.episodes }

  predicate AllShaped(recs: seq<StepRecord>, n: nat)
  {
    forall t :: 0 <= t < |recs| ==> RecordShaped(recs[t], n)
  }

  /** The trajectory the advantage estimator sees: the recorded rows, and
      the primary's value of the final observation with the final dones. */
  function TrajectoryOf(recs: seq<StepRecord>, lastValues: seq<real>, lastDones: seq<bool>): (tr: Trajectory)
    requires AllShaped(recs, |lastValues|) && |lastDones| == |lastValues|
    ensures Shaped(tr) && Steps(tr) == |recs| && Envs(tr) == |lastValues|
  {
    Trajectory(MapSeq(recs, RewardsOf), MapSeq(recs, ValuesOf), MapSeq(recs, DonesOf), lastValues, lastDones)
  }

  /** The end of `run`: estimate advantages, then flatten every array. */
  function Assemble(w: World, start: PolicyState, last: Snap, recs: seq<StepRecord>, gamma: real, lam: real): (b: Batch)
    requires Conforms(w) && SnapShaped(last, w.nenv) && AllShaped(recs, w.nenv)
    ensures var size := |recs| * w.nenv;
      && |b.obs| == size && |b.rets| == size && |b.masks| == size
      && |b.actions| == size && |b.values| == size && |b.neglogpacs| == size
  {
    var n := w.nenv;
    var tr := TrajectoryOf(recs, w.main.value(last.primaryObs, last.states, last.dones), last.dones);
    Batch(
      Sf01(MapSeq(recs, ObsOf), n),
      Sf01(Returns(tr, gamma, lam), n),
      Sf01(MapSeq(recs, DonesOf), n),
      Sf01(MapSeq(recs, ActionsOf), n),
      Sf01(MapSeq(recs, ValuesOf), n),
      Sf01(MapSeq(recs, NeglogpacsOf), n),
      start,
      Concat(MapSeq(recs, EpisodesRecorded)))
  }

  /** Entry n*H + t of the batch is environment n at step t: the observation,
      action, value and neglogp of that step, the done flags held before it,
      and the return `advantage + value` estimated for it. */
  lemma BatchAt(w: World, s: Snap, k: nat, gamma: real, lam: real, t: nat, n: nat)
    requires Conforms(w) && SnapShaped(s, w.nenv) && t < k && n < w.nenv
    ensures var c := Collect(w, s, k);
      var b := Assemble(w, s.states, c.0, c.1, gamma, lam);
      var tr := TrajectoryOf(c.1, w.main.value(c.0.primaryObs, c.0.states, c.0.dones), c.0.dones);
      && Position(n, k, t) < |b.obs|
      && b.obs[Position(n, k, t)] == c.1[t].obs[n]
      && b.actions[Position(n, k, t)] == c.1[t].actions[n]
      && b.masks[Position(n, k, t)] == Collect(w, s, t).0.dones[n]
      && b.rets[Position(n, k, t)] == Gae(tr, gamma, lam, t, n) + c.1[t].values[n]
      && b.values[Position(n, k, t)] == c.1[t].values[n]
      && b.neglogpacs[Position(n, k, t)] == c.1[t].neglogpacs[n]
  {
    var c := Collect(w, s, k);
    var tr := TrajectoryOf(c.1, w.main.value(c.0.primaryObs, c.0.states, c.0.dones), c.0.dones);
    Sf01At(MapSeq(c.1, ObsOf), w.nenv, t, n);
    Sf01At(MapSeq(c.1, ActionsOf), w.nenv, t, n);
    Sf01At(MapSeq(c.1, DonesOf), w.nenv, t, n);
    Sf01At(MapSeq(c.1, ValuesOf), w.nenv, t, n);
    Sf01At(MapSeq(c.1, NeglogpacsOf), w.nenv, t, n);
    Sf01At(Returns(tr, gamma, lam), w.nenv, t, n);
    RecordAlignment(w, s, k, t);
  }

  // ---------------------------------------------------------------------
  // Runner

  class Runner {
    const env: VecEnv
    const model: MultiModel
    const nsteps: nat
    const gamma: real
    const lam: real
    const nenv: nat
    var primaryObs: seq<Obs>
    var opponentObs: seq<Obs>
    var states: PolicyState
    var dones: seq<bool>

    ghost predicate Valid()
      reads this, env, model
    {
      && env.numEnvs == nenv && model.nenv == nenv
      && model.Valid()
      && EnvConforms(env.dynamics, nenv)
      && |primaryObs| == nenv && |opponentObs| == nenv && |dones| == nenv
    }

    /** The fixed parts of the rollout. */
    function WorldOf(): World
      reads this, env, model
    {
      World(nenv, model.main, model.opponent, env.dynamics)
    }

    /** The parts the rollout changes. */
    function RolloutState(): Snap
      reads this, env, model
    {
      Snap(env.history, model.draws, primaryObs, opponentObs, states, dones)
    }

    /** `Runner.__init__`: reset the environment, start from the policy's
        initial state and all done flags false. */
    constructor(env: VecEnv, main: Policy, opponent: Option<Policy>, initialState: PolicyState,
                nsteps: nat, gamma: real, lam: real)
      requires EnvConforms(env.dynamics, env.numEnvs)
      requires PolicyConforms(main, env.numEnvs)
      requires opponent.Some? ==> PolicyConforms(opponent.value, env.numEnvs)
      modifies env
      ensures Valid() && fresh(model)
      ensures this.env == env && nenv == env.numEnvs && this.nsteps == nsteps
      ensures this.gamma == gamma && this.lam == lam
      ensures model.main == main && model.opponent == opponent && model.draws == 0
      ensures env.history == []
      ensures primaryObs == env.dynamics([]).primaryObs && opponentObs == env.dynamics([]).opponentObs
      ensures states == initialState && dones == seq(env.numEnvs, _ => false)
    {
      this.env := env;
      this.model := new MultiModel(env.numEnvs, main, opponent);
      this.nsteps := nsteps;
      this.gamma := gamma;
      this.lam := lam;
      this.nenv := env.numEnvs;
      var out := env.Reset();
      assert OutputShaped(out, env.numEnvs);
      primaryObs := out.primaryObs;
      opponentObs := out.opponentObs;
      states := initialState;
      dones := seq(env.numEnvs, _ => false);
    }

    /** One iteration of the loop in `run`: step both policies, step the
        environment with the joint actions, record the primary's view, and
        append the completed episodes to `epinfos`. */
    method Advance(epinfos: seq<EpisodeInfo>) returns (record: StepRecord, epinfos': seq<EpisodeInfo>)
      requires Valid()
      modifies this, env, model
      ensures Valid() && WorldOf() == old(WorldOf())
      ensures (RolloutState(), record) == StepOnce(old(WorldOf()), old(RolloutState()))
      ensures epinfos' == epinfos + record.episodes
    {
      var out := model.MultiStep(primaryObs, opponentObs, states, dones);
      states := out.state;
      var stepObs, stepDones := primaryObs, dones;
      var envOut := env.Step(model.fullActions);
      assert OutputShaped(envOut, nenv);
      primaryObs, opponentObs, dones := envOut.primaryObs, envOut.opponentObs, envOut.dones;
      epinfos' := AppendEpisodes(epinfos, envOut.infos);
      record := StepRecord(stepObs, out.actions, out.values, out.neglogpacs, stepDones,
                           envOut.rewards, EpisodesOf(envOut.infos));
    }

    /** The recording loop of `run`: H calls of `Advance`, collecting the
        records and the finished episodes in order. */
    method CollectSteps() returns (records: seq<StepRecord>, epinfos: seq<EpisodeInfo>)
      requires Valid()
      modifies this, env, model
      ensures Valid() && WorldOf() == old(WorldOf())
      ensures Collect(old(WorldOf()), old(RolloutState()), nsteps) == (RolloutState(), records)
      ensures epinfos == Concat(MapSeq(records, EpisodesRecorded))
    {
      ghost var w := WorldOf();
      ghost var s0 := RolloutState();
      records, epinfos := [], [];
      var t := 0;
      while t < nsteps
        invariant 0 <= t <= nsteps
        invariant Valid() && WorldOf() == w
        invariant Collect(w, s0, t) == (RolloutState(), records)
        invariant epinfos == Concat(MapSeq(records, EpisodesRecorded))
      {
        var record;
        record, epinfos := Advance(epinfos);
        MapSeqSnoc(records, record, EpisodesRecorded);
        assert (MapSeq(records, EpisodesRecorded) + [record.episodes])[..|records|] == MapSeq(records, EpisodesRecorded);
        records := records + [record];
        t := t + 1;
      }
    }

    /** `run`: H steps of recording, then the advantage estimate and the
        flattening; the runner's new state and the batch are those of the
        rollout function `Collect` followed by `Assemble`. */
    method Run() returns (batch: Batch)
      requires Valid()
      modifies this, env, model
      ensures Valid() && WorldOf() == old(WorldOf())
      ensures var c := Collect(old(WorldOf()), old(RolloutState()), nsteps);
        && RolloutState() == c.0
        && batch == Assemble(old(WorldOf()), old(states), c.0, c.1, gamma, lam)
    {
      var mbStates := states;
      var records, epinfos := CollectSteps();
      var lastValues := model.main.value(primaryObs, states, dones);
      var tr := TrajectoryOf(records, lastValues, dones);
      var advs, rets := ComputeGae(tr, gamma, lam);
      batch := Batch(
        Sf01(MapSeq(records, ObsOf), nenv),
        Sf01(rets, nenv),
        Sf01(MapSeq(records, DonesOf), nenv),
        Sf01(MapSeq(records, ActionsOf), nenv),
        Sf01(MapSeq(records, ValuesOf), nenv),
        Sf01(MapSeq(records, NeglogpacsOf), nenv),
        mbStates,
        epinfos);
    }
  }
}
