/**
 * The self-play training loop `learn`: before each update the opponent
 * loads a snapshot drawn from the opponent pool, the runner collects a
 * rollout, the completed episodes enter the rolling buffer, the primary
 * takes one gradient step per minibatch, every `opponent_save_interval`
 * updates the primary is saved into the pool, and in single-snake mode the
 * highscore threshold rises when the rolling mean reward exceeds it.
 *
 * The primary's parameters are identified by the number of gradient steps
 * taken so far; `policyOf` gives the policy those parameters compute.
 */
module SelfPlay {

  import opened Common
  import opened Episodes
  import opened OpponentPool
  import opened Minibatch
  import opened Flatten
  import opened Rollout

  /** The bookkeeping state of `learn`. */
  class Learner {
    /** `max_saved_opponents`. */
    const capacity: nat
    /** `opponent_save_interval`. */
    const saveInterval: nat
    /** `Config.NUM_SNAKES`. */
    const numSnakes: int

    var opponentIdx: int
    var numOpponents: int
    var opponentFiles: map<int, Snapshot>
    var nextHighscore: int
    var epinfobuf: seq<EpisodeInfo>
    /** The primary's parameters: the gradient steps taken so far. */
    var gradientSteps: nat
    /** What `highscore_model.pkl` holds, once written. */
    var highscoreFile: Option<Snapshot>

    function PoolOf(): Pool
      reads this
    {
      Pool(opponentIdx, numOpponents, opponentFiles)
    }

    ghost predicate Valid()
      reads this
    {
      && capacity > 0 && saveInterval > 0
      && Inv(PoolOf(), capacity)
      && (forall i :: i in opponentFiles ==> opponentFiles[i] <= gradientSteps)
      && |epinfobuf| <= MaxLen
      && nextHighscore >= InitialHighscore
    }

    /** The set-up of `learn`: an empty buffer, the initial threshold, and
        the untrained primary saved at slot 0. */
    constructor(capacity: nat, saveInterval: nat, numSnakes: int)
      requires capacity > 0 && saveInterval > 0
      ensures Valid()
      ensures this.capacity == capacity && this.saveInterval == saveInterval && this.numSnakes == numSnakes
      ensures PoolOf() == Initial(0, capacity)
      ensures nextHighscore == InitialHighscore && epinfobuf == []
      ensures gradientSteps == 0 && highscoreFile == None
    {
      this.capacity := capacity;
      this.saveInterval := saveInterval;
      this.numSnakes := numSnakes;
      epinfobuf := [];
      nextHighscore := InitialHighscore;
      gradientSteps := 0;
      highscoreFile := None;
      opponentIdx := 0;
      numOpponents := 0;
      opponentFiles := map[];
      new;
      opponentFiles := opponentFiles[opponentIdx := gradientSteps];
      opponentIdx := (opponentIdx + 1) % capacity;
      numOpponents := numOpponents + 1;
      InitialInv(0, capacity);
    }

    /** The opponent file at the drawn slot; any draw in
        [0, max(num_opponents - 1, 0)] names a written slot, and what it
        holds is a past (or the current) version of the primary. */
    method SampleOpponent(draw: int) returns (s: Snapshot)
      requires Valid() && 0 <= draw <= SampleBound(PoolOf())
      ensures draw in opponentFiles && s == opponentFiles[draw]
      ensures draw < numOpponents && draw < capacity
      ensures s <= gradientSteps
    {
      SampleIsWritten(PoolOf(), capacity, draw);
      s := opponentFiles[draw];
    }

    /** `epinfobuf.extend(epinfos)`: the newest 100 episodes are kept. */
    method RecordEpisodes(epinfos: seq<EpisodeInfo>)
      requires Valid()
      modifies this
      ensures Valid()
      ensures epinfobuf == Newest(old(epinfobuf) + epinfos, MaxLen)
      ensures PoolOf() == old(PoolOf()) && nextHighscore == old(nextHighscore)
      ensures gradientSteps == old(gradientSteps) && highscoreFile == old(highscoreFile)
    {
      ExtendKeepsNewest(epinfobuf, epinfos, MaxLen);
      epinfobuf := Extend(epinfobuf, epinfos, MaxLen);
    }

    /** `model.train` on one minibatch: one gradient step. */
    method TrainStep()
      requires Valid()
      modifies this
      ensures Valid()
      ensures gradientSteps == old(gradientSteps) + 1
      ensures PoolOf() == old(PoolOf()) && nextHighscore == old(nextHighscore)
      ensures epinfobuf == old(epinfobuf) && highscoreFile == old(highscoreFile)
    {
      gradientSteps := gradientSteps + 1;
    }

    /** The save into the pool: the primary is written at `opponent_idx`,
        the count grows if the slot was new, and the cursor wraps. */
    method SaveOpponent()
      requires Valid()
      modifies this
      ensures Valid()
      ensures PoolOf() == Save(old(PoolOf()), gradientSteps, capacity)
      ensures gradientSteps == old(gradientSteps) && nextHighscore == old(nextHighscore)
      ensures epinfobuf == old(epinfobuf) && highscoreFile == old(highscoreFile)
    {
      SaveInv(PoolOf(), gradientSteps, capacity);
      opponentFiles := opponentFiles[opponentIdx := gradientSteps];
      opponentIdx := opponentIdx + 1;
      numOpponents := Max(opponentIdx, numOpponents);
      opponentIdx := opponentIdx % capacity;
    }

    /** The highscore check: a rolling mean above the threshold in
        single-snake mode saves the primary and raises the threshold. */
    method CheckHighscore(epRewMean: Option<real>)
      requires Valid()
      modifies this
      ensures Valid()
      ensures nextHighscore == RaiseHighscore(old(nextHighscore), epRewMean, numSnakes)
      ensures highscoreFile == if nextHighscore != old(nextHighscore) then Some(gradientSteps) else old(highscoreFile)
      ensures PoolOf() == old(PoolOf()) && gradientSteps == old(gradientSteps) && epinfobuf == old(epinfobuf)
    {
      if epRewMean.Some? && epRewMean.value > nextHighscore as real && numSnakes == 1 {
        nextHighscore := nextHighscore + HighscoreInterval;
        highscoreFile := Some(gradientSteps);
      }
    }
  }

  /** `constfn(val)`: the schedule that ignores the fraction of training
      left and always gives `val`. */
  function ConstFn(val: real): (f: real -> real)
    ensures forall frac :: f(frac) == val
  {
    _ => val
  }

  /** The snapshots saved over a run: save j+1 happens after
      (j+1) * `stepsPerSave` gradient steps. */
  function SaveSchedule(count: nat, stepsPerSave: nat): (s: seq<Snapshot>)
    ensures |s| == count
  {
    if count == 0 then [] else SaveSchedule(count - 1, stepsPerSave) + [count * stepsPerSave]
  }

  /** Number of updates `total_timesteps // nbatch`. */
  function Updates(totalTimesteps: nat, nbatch: nat): (n: nat)
    requires nbatch > 0
    ensures n * nbatch <= totalTimesteps < n * nbatch + nbatch
  {
    totalTimesteps / nbatch
  }

  /** The training schedule the source asserts and the shuffles it draws. */
  predicate ShufflesFit(shuffles: seq<seq<seq<nat>>>, nupdates: nat, noptepochs: nat, nbatch: nat)
  {
    && |shuffles| == nupdates
    && forall u :: 0 <= u < nupdates ==>
         |shuffles[u]| == noptepochs && forall e :: 0 <= e < noptepochs ==> IsPermutation(shuffles[u][e], nbatch)
  }

  /** The gradient steps of one update: `noptepochs` epochs of
      `nminibatches` minibatches each. */
  method TrainEpochs(learner: Learner, epochs: seq<seq<seq<nat>>>, nminibatches: nat)
    requires learner.Valid()
    requires forall e :: 0 <= e < |epochs| ==> |epochs[e]| == nminibatches
    modifies learner
    ensures learner.Valid()
    ensures learner.gradientSteps == old(learner.gradientSteps) + |epochs| * nminibatches
    ensures learner.PoolOf() == old(learner.PoolOf()) && learner.nextHighscore == old(learner.nextHighscore)
    ensures learner.epinfobuf == old(learner.epinfobuf) && learner.highscoreFile == old(learner.highscoreFile)
  {
    var e := 0;
    while e < |epochs|
      invariant 0 <= e <= |epochs| && learner.Valid()
      invariant learner.gradientSteps == old(learner.gradientSteps) + e * nminibatches
      invariant learner.PoolOf() == old(learner.PoolOf()) && learner.nextHighscore == old(learner.nextHighscore)
      invariant learner.epinfobuf == old(learner.epinfobuf) && learner.highscoreFile == old(learner.highscoreFile)
    {
      var k := 0;
      while k < |epochs[e]|
        invariant 0 <= k <= |epochs[e]| && learner.Valid()
        invariant learner.gradientSteps == old(learner.gradientSteps) + e * nminibatches + k
        invariant learner.PoolOf() == old(learner.PoolOf()) && learner.nextHighscore == old(learner.nextHighscore)
        invariant learner.epinfobuf == old(learner.epinfobuf) && learner.highscoreFile == old(learner.highscoreFile)
      {
        learner.TrainStep();
        k := k + 1;
      }
      assert (e + 1) * nminibatches == e * nminibatches + nminibatches;
      e := e + 1;
    }
  }

  /** Saves in order: `Saves` over a schedule one longer is one more save. */
  lemma ScheduleStep(update: nat, interval: nat, perUpdate: nat, p: Pool, k: nat)
    requires update >= 1 && interval > 0 && k > 0
    ensures var before := Saves(p, SaveSchedule((update - 1) / interval, interval * perUpdate), k);
      Saves(p, SaveSchedule(update / interval, interval * perUpdate), k)
        == if update % interval == 0 then Save(before, update * perUpdate, k) else before
  {
    DivNext(update - 1, interval);
    if update % interval == 0 {
      var q := update / interval;
      DivModUnique(update, interval, q, 0);
      assert q * (interval * perUpdate) == (q * interval) * perUpdate;
      var sched := SaveSchedule(q, interval * perUpdate);
      assert sched[..|sched| - 1] == SaveSchedule(q - 1, interval * perUpdate);
    }
  }

  /** The bookkeeping of one iteration of `learn`, on plain values: the
      gradient-step count and the pool after update `update` have the form
      the loop keeps for the next update. */
  lemma PoolAfterUpdate(update: nat, interval: nat, perUpdate: nat, k: nat, numSnakes: int,
                        before: Pool, after: Pool, steps: nat)
    requires update >= 1 && interval > 0 && k > 0
    requires steps == update * perUpdate
    requires numSnakes > 1 ==> before == Saves(Initial(0, k), SaveSchedule((update - 1) / interval, interval * perUpdate), k)
    requires after == if update % interval == 0 && numSnakes > 1 then Save(before, steps, k) else before
    ensures numSnakes > 1 ==> after == Saves(Initial(0, k), SaveSchedule(update / interval, interval * perUpdate), k)
  {
    ScheduleStep(update, interval, perUpdate, Initial(0, k), k);
  }

  /** The opponent's load before an update: with more than one snake a slot
      is drawn from [0, max(num_opponents - 1, 0)] and the opponent model
      loads that file. */
  method LoadSampledOpponent(runner: Runner, learner: Learner, policyOf: Snapshot -> Policy, draw: nat)
    requires runner.Valid() && learner.Valid()
    requires forall s :: PolicyConforms(policyOf(s), runner.nenv)
    requires runner.model.opponent.Some? <==> learner.numSnakes > 1
    modifies runner.model
    ensures runner.Valid() && runner.RolloutState() == old(runner.RolloutState())
    ensures runner.model.main == old(runner.model.main)
    ensures runner.model.opponent.Some? <==> learner.numSnakes > 1
    ensures learner.numSnakes > 1 ==>
      var i := SampleSlot(learner.PoolOf(), draw);
      i in learner.opponentFiles && runner.model.opponent == Some(policyOf(learner.opponentFiles[i]))
  {
    if runner.model.opponent.Some? {
      var selected := learner.SampleOpponent(SampleSlot(learner.PoolOf(), draw));
      runner.model.LoadOpponent(policyOf(selected));
    }
  }

  /** The first half of an update: load the sampled opponent, collect a
      rollout, and record its finished episodes in `epinfobuf`. */
  method PlayRollout(runner: Runner, learner: Learner, policyOf: Snapshot -> Policy, draw: nat)
    requires runner.Valid() && learner.Valid()
    requires forall s :: PolicyConforms(policyOf(s), runner.nenv)
    requires runner.model.opponent.Some? <==> learner.numSnakes > 1
    modifies runner, runner.env, runner.model, learner
    ensures runner.Valid() && learner.Valid()
    ensures runner.model.main == old(runner.model.main)
    ensures runner.model.opponent.Some? <==> learner.numSnakes > 1
    ensures learner.numSnakes > 1 ==>
      var i := SampleSlot(old(learner.PoolOf()), draw);
      i in old(learner.opponentFiles) && runner.model.opponent == Some(policyOf(old(learner.opponentFiles)[i]))
    ensures var c := Collect(World(runner.nenv, old(runner.model.main), runner.model.opponent, runner.env.dynamics),
                             old(runner.RolloutState()), runner.nsteps);
      && runner.RolloutState() == c.0
      && learner.epinfobuf == Newest(old(learner.epinfobuf) + Concat(MapSeq(c.1, EpisodesRecorded)), MaxLen)
    ensures learner.PoolOf() == old(learner.PoolOf()) && learner.nextHighscore == old(learner.nextHighscore)
    ensures learner.gradientSteps == old(learner.gradientSteps) && learner.highscoreFile == old(learner.highscoreFile)
  {
    LoadSampledOpponent(runner, learner, policyOf, draw);
    var batch := runner.Run();
    learner.RecordEpisodes(batch.epinfos);
  }

  /** The optimisation phase of an update: one gradient step per minibatch,
      after which the primary plays with the new parameters. */
  method Train(runner: Runner, learner: Learner, policyOf: Snapshot -> Policy,
               nminibatches: nat, noptepochs: nat, shuffles: seq<seq<nat>>)
    requires runner.Valid() && learner.Valid()
    requires runner.nenv * runner.nsteps > 0 && nminibatches > 0
    requires (runner.nenv * runner.nsteps) % nminibatches == 0
    requires |shuffles| == noptepochs
    requires forall e :: 0 <= e < noptepochs ==> IsPermutation(shuffles[e], runner.nenv * runner.nsteps)
    requires forall s :: PolicyConforms(policyOf(s), runner.nenv)
    modifies runner.model, learner
    ensures runner.Valid() && learner.Valid()
    ensures runner.RolloutState() == old(runner.RolloutState()) && runner.model.opponent == old(runner.model.opponent)
    ensures runner.model.main == policyOf(learner.gradientSteps)
    ensures learner.gradientSteps == old(learner.gradientSteps) + noptepochs * nminibatches
    ensures learner.PoolOf() == old(learner.PoolOf()) && learner.nextHighscore == old(learner.nextHighscore)
    ensures learner.epinfobuf == old(learner.epinfobuf) && learner.highscoreFile == old(learner.highscoreFile)
  {
    var epochs := Optimize(runner.nenv * runner.nsteps, nminibatches, noptepochs, shuffles);
    TrainEpochs(learner, epochs, nminibatches);
    runner.model.SetMain(policyOf(learner.gradientSteps));
  }

  /** The bookkeeping at the end of an update: the periodic save into the
      pool when an opponent plays, then the highscore check. */
  method Bookkeep(learner: Learner, update: nat, hasOpponent: bool, epRewMean: Option<real>)
    requires learner.Valid()
    modifies learner
    ensures learner.Valid()
    ensures learner.PoolOf()
         == if update % learner.saveInterval == 0 && hasOpponent
            then Save(old(learner.PoolOf()), learner.gradientSteps, learner.capacity)
            else old(learner.PoolOf())
    ensures learner.nextHighscore == RaiseHighscore(old(learner.nextHighscore), epRewMean, learner.numSnakes)
    ensures learner.highscoreFile
         == if learner.nextHighscore != old(learner.nextHighscore) then Some(learner.gradientSteps) else old(learner.highscoreFile)
    ensures learner.gradientSteps == old(learner.gradientSteps) && learner.epinfobuf == old(learner.epinfobuf)
  {
    if update % learner.saveInterval == 0 && hasOpponent {
      learner.SaveOpponent();
    }
    learner.CheckHighscore(epRewMean);
  }

  /** The second half of an update: train on the batch, then the periodic
      save and the highscore check. */
  method FinishUpdate(runner: Runner, learner: Learner, update: nat, policyOf: Snapshot -> Policy,
                      nminibatches: nat, noptepochs: nat, shuffles: seq<seq<nat>>)
    requires runner.Valid() && learner.Valid()
    requires runner.nenv * runner.nsteps > 0 && nminibatches > 0
    requires (runner.nenv * runner.nsteps) % nminibatches == 0
    requires |shuffles| == noptepochs
    requires forall e :: 0 <= e < noptepochs ==> IsPermutation(shuffles[e], runner.nenv * runner.nsteps)
    requires forall s :: PolicyConforms(policyOf(s), runner.nenv)
    modifies runner.model, learner
    ensures runner.Valid() && learner.Valid()
    ensures runner.RolloutState() == old(runner.RolloutState()) && runner.model.opponent == old(runner.model.opponent)
    ensures runner.model.main == policyOf(learner.gradientSteps)
    ensures learner.gradientSteps == old(learner.gradientSteps) + noptepochs * nminibatches
    ensures learner.epinfobuf == old(learner.epinfobuf)
    ensures learner.PoolOf()
         == if update % learner.saveInterval == 0 && runner.model.opponent.Some?
            then Save(old(learner.PoolOf()), learner.gradientSteps, learner.capacity)
            else old(learner.PoolOf())
    ensures learner.nextHighscore == RaiseHighscore(old(learner.nextHighscore), MeanReward(learner.epinfobuf), learner.numSnakes)
    ensures learner.highscoreFile
         == if learner.nextHighscore != old(learner.nextHighscore) then Some(learner.gradientSteps) else old(learner.highscoreFile)
  {
    Train(runner, learner, policyOf, nminibatches, noptepochs, shuffles);
    var epRewMean := MeanReward(learner.epinfobuf);
    Bookkeep(learner, update, runner.model.opponent.Some?, epRewMean);
  }

  /** One iteration of the loop in `learn`. */
  method Update(runner: Runner, learner: Learner, update: nat, policyOf: Snapshot -> Policy,
                nminibatches: nat, noptepochs: nat, draw: nat, shuffles: seq<seq<nat>>)
    requires runner.Valid() && learner.Valid()
    requires runner.nenv * runner.nsteps > 0 && nminibatches > 0
    requires (runner.nenv * runner.nsteps) % nminibatches == 0
    requires |shuffles| == noptepochs
    requires forall e :: 0 <= e < noptepochs ==> IsPermutation(shuffles[e], runner.nenv * runner.nsteps)
    requires forall s :: PolicyConforms(policyOf(s), runner.nenv)
    requires runner.model.main == policyOf(learner.gradientSteps)
    requires runner.model.opponent.Some? <==> learner.numSnakes > 1
    modifies runner, runner.env, runner.model, learner
    ensures runner.Valid() && learner.Valid()
    ensures runner.model.main == policyOf(learner.gradientSteps)
    ensures runner.model.opponent.Some? <==> learner.numSnakes > 1
    ensures learner.gradientSteps == old(learner.gradientSteps) + noptepochs * nminibatches
    ensures learner.PoolOf()
         == if update % learner.saveInterval == 0 && learner.numSnakes > 1
            then Save(old(learner.PoolOf()), learner.gradientSteps, learner.capacity)
            else old(learner.PoolOf())
    ensures learner.numSnakes > 1 ==>
      var i := SampleSlot(old(learner.PoolOf()), draw);
      i in old(learner.opponentFiles) && runner.model.opponent == Some(policyOf(old(learner.opponentFiles)[i]))
    ensures var c := Collect(World(runner.nenv, old(runner.model.main), runner.model.opponent, runner.env.dynamics),
                             old(runner.RolloutState()), runner.nsteps);
      && runner.RolloutState() == c.0
      && learner.epinfobuf == Newest(old(learner.epinfobuf) + Concat(MapSeq(c.1, EpisodesRecorded)), MaxLen)
    ensures learner.nextHighscore == RaiseHighscore(old(learner.nextHighscore), MeanReward(learner.epinfobuf), learner.numSnakes)
    ensures learner.highscoreFile
         == if learner.nextHighscore != old(learner.nextHighscore) then Some(learner.gradientSteps) else old(learner.highscoreFile)
  {
    PlayRollout(runner, learner, policyOf, draw);
    FinishUpdate(runner, learner, update, policyOf, nminibatches, noptepochs, shuffles);
  }

  /** The state of `learn` after `done` updates: the primary has taken
      `done * perUpdate` gradient steps and plays as the runner's main policy;
      with more than one snake the pool holds the initial save and one save
      every interval, and the opponent plays `opponentAt`, a past version of
      the primary; otherwise the pool and the threshold are as set up. */
  ghost predicate Progress(runner: Runner, learner: Learner, policyOf: Snapshot -> Policy, done: nat, perUpdate: nat,
                           opponentAt: Snapshot)
    reads runner, runner.env, runner.model, learner
  {
    && runner.Valid() && learner.Valid()
    && runner.model.main == policyOf(learner.gradientSteps)
    && (runner.model.opponent.Some? <==> learner.numSnakes > 1)
    && learner.gradientSteps == done * perUpdate
    && (learner.numSnakes <= 1 ==> learner.PoolOf() == Initial(0, learner.capacity))
    && (learner.numSnakes > 1 ==> learner.PoolOf() == Saves(Initial(0, learner.capacity),
          SaveSchedule(done / learner.saveInterval, learner.saveInterval * perUpdate), learner.capacity))
    && (learner.numSnakes != 1 ==> learner.nextHighscore == InitialHighscore)
    && (runner.model.opponent.Some? ==>
          opponentAt <= learner.gradientSteps && runner.model.opponent == Some(policyOf(opponentAt)))
  }

  /** What one update leaves behind is the state of `learn` one update on:
      the facts an update establishes, stated over the pool `before` it, the
      snapshot `loaded` it loaded and the threshold `threshold` it started from. */
  lemma ProgressAfter(runner: Runner, learner: Learner, policyOf: Snapshot -> Policy, update: nat, perUpdate: nat,
                      before: Pool, loaded: Snapshot, threshold: int)
    requires update >= 1 && runner.Valid() && learner.Valid()
    requires runner.model.main == policyOf(learner.gradientSteps)
    requires runner.model.opponent.Some? <==> learner.numSnakes > 1
    requires learner.gradientSteps == update * perUpdate
    requires learner.numSnakes <= 1 ==> before == Initial(0, learner.capacity)
    requires learner.numSnakes > 1 ==> before == Saves(Initial(0, learner.capacity),
      SaveSchedule((update - 1) / learner.saveInterval, learner.saveInterval * perUpdate), learner.capacity)
    requires learner.PoolOf()
          == if update % learner.saveInterval == 0 && learner.numSnakes > 1
             then Save(before, learner.gradientSteps, learner.capacity)
             else before
    requires learner.numSnakes != 1 ==> threshold == InitialHighscore
    requires learner.nextHighscore == RaiseHighscore(threshold, MeanReward(learner.epinfobuf), learner.numSnakes)
    requires learner.numSnakes > 1 ==> loaded <= learner.gradientSteps && runner.model.opponent == Some(policyOf(loaded))
    ensures Progress(runner, learner, policyOf, update, perUpdate, loaded)
  {
    PoolAfterUpdate(update, learner.saveInterval, perUpdate, learner.capacity, learner.numSnakes,
                    before, learner.PoolOf(), learner.gradientSteps);
  }

  /** Update number `update` of `learn` carries its state from
      `update - 1` updates to `update`. */
  method Iteration(runner: Runner, learner: Learner, update: nat, policyOf: Snapshot -> Policy,
                   nminibatches: nat, noptepochs: nat, draw: nat, shuffles: seq<seq<nat>>, ghost opponentAt: Snapshot)
    returns (ghost loaded: Snapshot)
    requires update >= 1 && Progress(runner, learner, policyOf, update - 1, noptepochs * nminibatches, opponentAt)
    requires runner.nenv * runner.nsteps > 0 && nminibatches > 0
    requires (runner.nenv * runner.nsteps) % nminibatches == 0
    requires |shuffles| == noptepochs
    requires forall e :: 0 <= e < noptepochs ==> IsPermutation(shuffles[e], runner.nenv * runner.nsteps)
    requires forall s :: PolicyConforms(policyOf(s), runner.nenv)
    modifies runner, runner.env, runner.model, learner
    ensures Progress(runner, learner, policyOf, update, noptepochs * nminibatches, loaded)
  {
    var perUpdate: nat := noptepochs * nminibatches;
    assert (update - 1) * perUpdate + perUpdate == update * perUpdate;
    ghost var before := learner.PoolOf();
    ghost var threshold := learner.nextHighscore;
    SampleIsWritten(before, learner.capacity, SampleSlot(before, draw));
    loaded := learner.opponentFiles[SampleSlot(before, draw)];
    assert loaded <= learner.gradientSteps;
    Update(runner, learner, update, policyOf, nminibatches, noptepochs, draw, shuffles);
    assert learner.numSnakes > 1 ==> runner.model.opponent == Some(policyOf(loaded));
    ProgressAfter(runner, learner, policyOf, update, perUpdate, before, loaded, threshold);
  }

  /** `learn`: `nupdates` updates of sampling an opponent, collecting a
      rollout, training and bookkeeping, then the final save.  The draws
      that `randint` would make are `draws`, reduced into its range. */
  method Learn(env: VecEnv, policyOf: Snapshot -> Policy, initialState: PolicyState,
               nsteps: nat, totalTimesteps: nat, gamma: real, lam: real,
               nminibatches: nat, noptepochs: nat,
               numSnakes: int, capacity: nat, saveInterval: nat,
               draws: seq<nat>, shuffles: seq<seq<seq<nat>>>)
    returns (learner: Learner, finalSave: Snapshot)
    requires env.numEnvs > 0 && nsteps > 0 && nminibatches > 0 && capacity > 0 && saveInterval > 0
    requires EnvConforms(env.dynamics, env.numEnvs)
    requires forall s :: PolicyConforms(policyOf(s), env.numEnvs)
    requires Updates(totalTimesteps, env.numEnvs * nsteps) > 0 ==> (env.numEnvs * nsteps) % nminibatches == 0
    requires |draws| == Updates(totalTimesteps, env.numEnvs * nsteps)
    requires ShufflesFit(shuffles, Updates(totalTimesteps, env.numEnvs * nsteps), noptepochs, env.numEnvs * nsteps)
    modifies env
    ensures fresh(learner) && learner.Valid()
    ensures learner.gradientSteps == Updates(totalTimesteps, env.numEnvs * nsteps) * (noptepochs * nminibatches)
    ensures finalSave == learner.gradientSteps
    ensures numSnakes <= 1 ==> learner.PoolOf() == Initial(0, capacity)
    ensures numSnakes > 1 ==> learner.PoolOf() == Saves(Initial(0, capacity),
      SaveSchedule(Updates(totalTimesteps, env.numEnvs * nsteps) / saveInterval, saveInterval * (noptepochs * nminibatches)), capacity)
    ensures numSnakes != 1 ==> learner.nextHighscore == InitialHighscore
  {
    var nbatch := env.numEnvs * nsteps;
    var perUpdate := noptepochs * nminibatches;
    var nupdates := totalTimesteps / nbatch;
    var opponent: Option<Policy> := if numSnakes > 1 then Some(policyOf(0)) else None;
    var runner := new Runner(env, policyOf(0), opponent, initialState, nsteps, gamma, lam);
    learner := new Learner(capacity, saveInterval, numSnakes);
    var done := 0;
    ghost var opponentAt: Snapshot := 0;
    while done < nupdates
      invariant done <= nupdates
      invariant fresh(runner.model) && runner.env == env && runner.nenv * runner.nsteps == nbatch
      invariant learner.capacity == capacity && learner.saveInterval == saveInterval && learner.numSnakes == numSnakes
      invariant Progress(runner, learner, policyOf, done, perUpdate, opponentAt)
    {
      var update := done + 1;
      opponentAt := Iteration(runner, learner, update, policyOf, nminibatches, noptepochs,
                              draws[done], shuffles[done], opponentAt);
      done := update;
    }
    finalSave := learner.gradientSteps;
  }
}
