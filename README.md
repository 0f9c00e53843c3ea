# Self-play PPO bookkeeping, modelled in Dafny

This project models the training-loop core of a self-play PPO trainer for a
two-snake grid game (`ppo_multi_agent.py`). The neural networks and the game
environment are treated as opaque collaborators. The model covers:

- **Joint actions** (`MultiModel.multi_step`): each primary action is paired
  with the opponent's action, or with the placeholder action `1` when no
  opponent is configured. The primary's step is returned unchanged.
- **The rollout** (`Runner.run`), modelled as a class over a vectorised
  environment class:
  - for H steps it records the primary's observation, action, value and
    neglogp, together with the done flags held *before* each environment
    step;
  - it collects every `info['episode']` in order;
  - it bootstraps from the primary's value of the final observation.
- **Generalised advantage estimation**: the backward `lastgaelam` loop over
  exact reals, proved equal to
  - a recursive specification, and
  - an independent forward definition (a weighted sum of TD errors).
- **`sf01`**: the swap-and-flatten from time-major H×N to the flat order
  `n*H + t`, with its inverse.
- **Minibatches**: the index array is shuffled in place once per epoch. Its
  `nbatch_train`-sized slices partition `[0, nbatch)` in every epoch.
- **The opponent pool**:
  - a ring of at most K = `max_saved_opponents` files;
  - a write cursor `opponent_idx` and a count `num_opponents`;
  - sampling uniformly from `[0, max(num_opponents-1, 0)]`;
  - a save every `opponent_save_interval` updates.
- **The rolling episode buffer** (a deque bounded at 100), `safemean`, and
  the single-snake **highscore threshold**.
- **`learn`** as a whole: its update loop over a `Learner` class that holds
  the counters, the pool files, the threshold and the buffer.

How the collaborators and randomness are represented:

- **Policies.** A policy is a pair of functions `step` and `value`. Its
  sampling is fixed by a draw number. The model counts rollout steps; at
  step k the primary samples with draw 2k and the opponent with draw 2k+1,
  so the two agents never share a draw.
- **Primary parameters.** The primary's parameters are identified by the
  number of gradient steps taken. `policyOf` maps them to a policy.
- **Environment.** The environment is a function from the joint actions
  stepped since the reset to its next output. Its output for the empty
  history is the reset observation.
- **Random choices.** `random.randint` becomes a draw passed in and reduced
  into its range. `np.random.shuffle` becomes a permutation passed in.

Modules, one per file:

- `common.dfy`: `Option`, `Sum`, `MapSeq`, and integer facts about positions
  and division.
- `advantage.dfy`: GAE (`Trajectory`, `Gae`, `ComputeGae`) and its
  properties.
- `flatten.dfy`: `sf01` and its inverse.
- `minibatch.dfy`: permutations, the per-epoch slices, and `Optimize`.
- `episodes.dfy`: the bounded deque, `safemean` and the highscore
  threshold.
- `opponent_pool.dfy`: the pool as a value, its transitions and
  invariants.
- `rollout.dfy`: joint actions, the `VecEnv`, `MultiModel` and `Runner`
  classes, the rollout specification `Collect`/`Assemble`, and `Run`.
- `selfplay.dfy`: the `Learner` class, one update, and `Learn`.

## Model

| member | source | states |
|---|---|---|
| `Advantage.ComputeGae` | ppo_multi_agent.py:189-203 | The backward loop stores in row t exactly the advantage of the recursive specification `Gae` for every environment. The returns are advantage plus value entry by entry, so `returns[t][n] == advs[t][n] + values[t][n]`. |
| `Advantage.BackwardPass` | ppo_multi_agent.py:189-202 | Filling `mb_advs` backwards from zeros stores in every row t the advantage row of the recursive specification `Gae`. |
| `Advantage.BackwardStep` | ppo_multi_agent.py:192-202 | One iteration of the backward loop turns the advantage row of step t+1 into that of step t. It takes `nextnonterminal` and `nextvalues` from the final flags and bootstrap values at the last step, and from step t+1 otherwise. |
| `Advantage.TerminatedLastStep` | ppo_multi_agent.py:195-197 | When the episode ended at the last step (`self.dones[n]`), that step's advantage is reward minus value: there is no bootstrap. |
| `Advantage.NoDiscount` | ppo_multi_agent.py:201-202 | With gamma = 0 every advantage is reward minus value, whatever lambda is. |
| `Advantage.OneStep` | ppo_multi_agent.py:201-202 | With lambda = 0 every advantage is that step's one-step TD error `delta`. |
| `Advantage.WorkedExample` | ppo_multi_agent.py:194-202 | The H = 4, N = 2 rollout with gamma = 0.99 and lambda = 0.95 gives the exact advantage table by hand calculation. |
| `Advantage.GaeIsWeightedSum` | ppo_multi_agent.py:194-202 | The backward recurrence equals the forward sum over k >= t of delta_k, weighted by the product of `gamma*lam*nextnonterminal` over the steps t..k-1. |
| `Advantage.WeightedSumShift` | ppo_multi_agent.py:202 | The forward sum from t is delta_t plus step t's factor times the sum from t+1: the recurrence `lastgaelam` unrolls. |
| `Flatten.Sf01` | ppo_multi_agent.py:207-212 | `sf01` of an H x N array has H*N entries. |
| `Flatten.Sf01At` | ppo_multi_agent.py:207-212 | Entry (t, n) of the time-major array lands at flat position n*H + t. |
| `Flatten.Sf01ThenUnsf01` | ppo_multi_agent.py:207-212 | Rebuilding the H x N array from the flat one gives back the original. |
| `Flatten.Unsf01ThenSf01` | ppo_multi_agent.py:207-212 | Flattening a rebuilt array gives back the flat one, so `sf01` is a bijection. |
| `Flatten.ConcatAt` | ppo_multi_agent.py:212 | The reshape puts entry i of row j at j*h + i. |
| `Minibatch.Arange` | ppo_multi_agent.py:292 | `np.arange(nbatch)` is a permutation of `[0, nbatch)`. |
| `Minibatch.ShufflePermutation` | ppo_multi_agent.py:294 | Shuffling a permutation of `[0, nbatch)` in place leaves a permutation. |
| `Minibatch.OrderPermutation` | ppo_multi_agent.py:292-294 | After any number of epochs' shuffles the index array is still a permutation. |
| `Minibatch.SlicesPartition` | ppo_multi_agent.py:295-297 | The `nminibatches` slices of a permutation partition `[0, nbatch)`: every index is in range, and each lies in exactly one slice at exactly one position. |
| `Minibatch.EpochMinibatches` | ppo_multi_agent.py:295-297 | The loop over `start` in `range(0, nbatch, nbatch_train)` yields exactly the `nminibatches` consecutive slices `inds[start:start+nbatch_train]`. |
| `Minibatch.EpochPartition` | ppo_multi_agent.py:292-297 | In every epoch the minibatches of the cumulatively shuffled index array partition `[0, nbatch)`. |
| `Minibatch.Optimize` | ppo_multi_agent.py:282-299 | `noptepochs` epochs, each of `nminibatches` minibatches of `nbatch // nminibatches` indices, and each epoch a partition of `[0, nbatch)`. So `train` runs `noptepochs * nminibatches` times. |
| `Episodes.ExtendKeepsNewest` | ppo_multi_agent.py:289 | Extending a deque bounded at maxlen, one append at a time, keeps exactly the newest maxlen entries of old contents followed by new ones. |
| `Episodes.SafeMean` | ppo_multi_agent.py:352-353 | `safemean` is undefined (NaN) exactly for the empty list. Otherwise it is a value whose product with the length is the sum. |
| `Episodes.MeanWithinBounds` | ppo_multi_agent.py:352-353 | The mean of a non-empty list lies between any lower and upper bound of its entries. |
| `Episodes.MeanReward` | ppo_multi_agent.py:305 | The rolling mean reward is undefined (NaN) exactly when the buffer is empty. Otherwise its product with the buffer's length is the sum of the episodes' rewards. |
| `Episodes.RaiseHighscore` | ppo_multi_agent.py:343-345 | The threshold moves, and then by exactly `highscore_interval`, iff the rolling mean is defined, above it, and one snake plays. |
| `Episodes.HighscoreMonotone` | ppo_multi_agent.py:343-345 | Over any run of updates the threshold never decreases and rises by at most one interval per update. With more than one snake it never moves. |
| `OpponentPool.InitialInv` | ppo_multi_agent.py:268-273 | The initial save establishes the pool invariant and agrees with the source's `opponent_idx = 1` whenever K >= 2. |
| `OpponentPool.Save` | ppo_multi_agent.py:310-314 | A save writes the snapshot into the cursor's slot, leaves every other slot as it was, adds that slot to the written ones, moves the cursor to a slot below K, and never shrinks the count. |
| `OpponentPool.SaveInv` | ppo_multi_agent.py:307-314 | A save keeps the invariant: cursor below K, count between 1 and K, and exactly the counted slots written. |
| `OpponentPool.SampleSlot` | ppo_multi_agent.py:278 | The reduced draw lies in `[0, max(num_opponents-1, 0)]`, the range `randint` draws from. |
| `OpponentPool.SampleIsWritten` | ppo_multi_agent.py:278 | Every index `randint(0, max(num_opponents-1, 0))` can return is a written slot below K and below `num_opponents`. |
| `OpponentPool.ClosedForm` | ppo_multi_agent.py:271-273 | After n snapshots the cursor is n mod K and min(n, K) slots are counted. Each of the newest min(n, K) snapshots is in slot (its number mod K). |
| `OpponentPool.SaveNewest` | ppo_multi_agent.py:310-314 | One save moves the closed form from n snapshots to n + 1. |
| `OpponentPool.Wraparound` | ppo_multi_agent.py:310-314 | After K + 1 snapshots all K slots are counted, and slot 0, written first, holds the (K+1)-th snapshot. |
| `OpponentPool.SingleSlotAsWritten` | ppo_multi_agent.py:271-273 | As written, with K = 1 the first save goes to slot 1 and is never overwritten. `num_opponents` stays 2 and the invariant fails. |
| `Rollout.PairProjections` | ppo_multi_agent.py:33-44 | The joint actions split back into the two agents' actions. The first components are the primary's actions unchanged. The second ones are all the placeholder `1`, or the opponent's actions in order. |
| `Rollout.PairActions` | ppo_multi_agent.py:35-42 | The pairing loop builds the joint-action list of the specification. |
| `Rollout.DrawsDisjoint` | ppo_multi_agent.py:33-39 | The primary's and the opponent's draws never coincide, and neither agent reuses a draw at a later step. |
| `Rollout.MultiModel.constructor` | ppo_multi_agent.py:27-49 | The model plays the given primary and the given opponent (or none), no joint actions are recorded yet, and no draws are taken. |
| `Rollout.MultiModel.MultiStep` | ppo_multi_agent.py:30-46 | Returns the primary's step, sampled with the primary's draw, unchanged. Sets `full_actions` to the pairing with the opponent's actions, sampled with the opponent's own draw from the opponent's observations but the primary's states and dones. Advances the draw counter. |
| `Rollout.MultiModel.LoadOpponent` | ppo_multi_agent.py:280 | The opponent plays the loaded parameters from now on. The primary, the last joint actions and the draw counter are unchanged. |
| `Rollout.MultiModel.SetMain` | ppo_multi_agent.py:299 | The primary plays its trained parameters from now on. The opponent, the last joint actions and the draw counter are unchanged. |
| `Rollout.EpisodesOfMembers` | ppo_multi_agent.py:176-179 | An episode is collected exactly when some info carries one, and never more entries than infos. |
| `Rollout.EpisodesOfAppend` | ppo_multi_agent.py:176-179 | Collecting over two runs of infos is collecting over each in turn, so every episode present is kept, equal ones included, in the order of the infos. |
| `Rollout.AppendEpisodes` | ppo_multi_agent.py:176-179 | The loop over `infos` appends the episodes present, in order. |
| `Rollout.StepOnce` | ppo_multi_agent.py:166-181 | One rollout step keeps all N-wide shapes of the observations, dones and the record. |
| `Rollout.Collect` | ppo_multi_agent.py:165-181 | k steps give k records, each N wide. |
| `Rollout.CollectPrefix` | ppo_multi_agent.py:165-181 | The records of a shorter rollout are a prefix of a longer one's. |
| `Rollout.RecordAlignment` | ppo_multi_agent.py:166-173 | Step t records the done flags held before it, so `mb_dones[0]` is the previous rollout's final flags. Its rewards and the flags after it are the environment's answer to step t's joint actions, so `mb_dones[t+1]` is step t's done output. |
| `Rollout.Assemble` | ppo_multi_agent.py:183-205 | Each of the six returned arrays has H*N entries. |
| `Rollout.BatchAt` | ppo_multi_agent.py:183-205 | Batch entry n*H + t is environment n at step t in all six arrays: its observation, action, value and neglogp, the dones held before step t, and the return advantage plus value. |
| `Rollout.Runner.Advance` | ppo_multi_agent.py:166-181 | One loop iteration changes the runner, the model and the environment exactly as `StepOnce` specifies, and appends that step's episodes. |
| `Rollout.Runner.CollectSteps` | ppo_multi_agent.py:165-181 | The H-step recording loop leaves the runner in the state `Collect` specifies. It returns `Collect`'s records and every finished episode in order. |
| `Rollout.Runner.Run` | ppo_multi_agent.py:161-205 | The runner's new state is that of the rollout specification `Collect` over `nsteps` steps, and the batch is its `Assemble`. Both policies and the environment's dynamics are unchanged. The environment's history grows by the H joint-action steps `Collect` records. |
| `Rollout.Runner.constructor` | ppo_multi_agent.py:142-155 | The environment is reset, the observations are the reset's, the state is the initial state, and all done flags are false. |
| `SelfPlay.Learner.constructor` | ppo_multi_agent.py:259-273 | Starts with an empty buffer and threshold 5, and the untrained primary saved at slot 0. |
| `SelfPlay.Learner.SampleOpponent` | ppo_multi_agent.py:277-280 | The drawn slot holds a file, and that file is a past or current version of the primary. |
| `SelfPlay.Learner.TrainStep` | ppo_multi_agent.py:299 | One `train` call is one gradient step. The pool, the threshold, the buffer and the highscore file are unchanged. |
| `SelfPlay.Learner.RecordEpisodes` | ppo_multi_agent.py:289 | The buffer becomes the newest 100 of its old contents followed by the new episodes. |
| `SelfPlay.Learner.SaveOpponent` | ppo_multi_agent.py:307-314 | The pool moves by exactly one `Save` of the current primary. |
| `SelfPlay.Learner.CheckHighscore` | ppo_multi_agent.py:343-346 | The threshold moves as `RaiseHighscore`. When it rises, the highscore file receives the current primary. |
| `SelfPlay.Updates` | ppo_multi_agent.py:275 | `nupdates` is the number of whole batches in `total_timesteps`: `nupdates * nbatch <= total_timesteps < (nupdates + 1) * nbatch`. |
| `SelfPlay.ConstFn` | ppo_multi_agent.py:214-217 | `constfn(val)` gives `val` at every fraction of training left. |
| `SelfPlay.TrainEpochs` | ppo_multi_agent.py:293-299 | One gradient step per minibatch, so `noptepochs * nminibatches` per update. Nothing else changes. |
| `SelfPlay.ScheduleStep` | ppo_multi_agent.py:307 | Update u adds a save exactly when u is a multiple of `opponent_save_interval`. |
| `SelfPlay.PoolAfterUpdate` | ppo_multi_agent.py:307-314 | If the pool before update u holds the saves of every earlier multiple of the interval, then after update u's conditional save it holds those up to u. |
| `SelfPlay.LoadSampledOpponent` | ppo_multi_agent.py:277-280 | With more than one snake, the opponent plays the file in the slot the draw selects from the pool. The primary and the rollout state are unchanged. |
| `SelfPlay.PlayRollout` | ppo_multi_agent.py:277-289 | The opponent is the sampled file; the runner's new state is `Collect` over `nsteps` steps against it; the buffer becomes the newest 100 of its old contents followed by the rollout's episodes. The pool, the threshold, the gradient steps and the highscore file are unchanged. |
| `SelfPlay.Train` | ppo_multi_agent.py:292-299 | Training takes `noptepochs * nminibatches` gradient steps and the primary then plays the trained parameters. The opponent, the rollout state and the rest of the learner are unchanged. |
| `SelfPlay.Bookkeep` | ppo_multi_agent.py:305-346 | The pool moves by one `Save` of the current primary exactly when the update is a multiple of the interval and an opponent plays. The threshold moves as `RaiseHighscore`. The highscore file receives the current primary exactly when the threshold moved. |
| `SelfPlay.FinishUpdate` | ppo_multi_agent.py:292-346 | Training followed by the bookkeeping: the gradient steps, the primary, the pool, the threshold and the highscore file as `Train` and `Bookkeep` state, with the threshold checked against the mean of the updated buffer. |
| `SelfPlay.Update` | ppo_multi_agent.py:276-346 | With more than one snake, the opponent plays the file in the slot the draw selects from the pool before the update. The runner's new state is `Collect` over `nsteps` steps with the old primary and that opponent. The buffer becomes the newest 100 of its old contents followed by the rollout's episodes. The update takes `noptepochs * nminibatches` gradient steps, after which the primary plays the trained parameters. It saves into the pool exactly on multiples of the interval when an opponent plays. It moves the threshold as `RaiseHighscore` on the new rolling mean, and writes the highscore file with the current primary exactly when the threshold moved. |
| `SelfPlay.ProgressAfter` | ppo_multi_agent.py:276-346 | The facts one update establishes carry the state of `learn` from u - 1 updates to u, including an opponent that is a past or current version of the primary. |
| `SelfPlay.Iteration` | ppo_multi_agent.py:276-346 | Update u carries the state of `learn` from u - 1 updates to u: u times `noptepochs * nminibatches` gradient steps, the pool of all saves so far, the opponent a past or current version of the primary, and the threshold unchanged unless one snake plays. |
| `SelfPlay.Learn` | ppo_multi_agent.py:257-348 | After `nupdates` updates: the primary has taken `nupdates * noptepochs * nminibatches` steps; the pool is the initial save followed by one save every interval; the threshold is unchanged unless one snake plays. Throughout the loop the opponent is a past or current version of the primary. |

## Left out

- The TensorFlow `Model` class (PPO loss, gradients, clipping, Adam) and
  joblib save/load are opaque. `train` is one gradient step; `save`/`load`
  copy a parameter snapshot.
- Advantage normalisation, explained variance, fps and wall-clock times, and
  the `frac` learning-rate/clip-range schedule are float numerics and time.
  Only `constfn` is modelled.
- float32 rounding: all arithmetic is over exact reals.
- Logging, its cadence, checkpoint directories and `print` are I/O.
- `use_multi_agent_obs` channel slicing (numpy image plumbing): the
  environment's output carries the two agents' observations already split.
- `random.randint` and `np.random.shuffle` are parameters: a draw reduced
  modulo the range size, and a permutation per epoch.
- `baseline_file` loading (dead code: the name is always `None`), and
  `env.close`.
- `policies.py`, `enjoy_snake.py` and `envs/__init__.py`: network
  construction, an interactive viewer, and environment registration.
- `SelfPlay.Learner.constructor`: requires `max_saved_opponents > 0` and
  `opponent_save_interval > 0`. The source accepts K = 0 whenever no periodic
  save happens (always with one snake), since it reduces modulo K only at
  ppo_multi_agent.py:314; the model's pool invariant needs a slot.
- `SelfPlay.Learn`: requires `max_saved_opponents > 0` (see the line above),
  and `nminibatches > 0`, `num_envs > 0`, `nsteps > 0` and
  `opponent_save_interval > 0`. These replace the ZeroDivisionError paths of
  `nbatch // nminibatches` at ppo_multi_agent.py:234, `total_timesteps //
  nbatch` at ppo_multi_agent.py:275 and `update % opponent_save_interval` at
  ppo_multi_agent.py:307 (raised in the first update, with any number of
  snakes).
- Training receives no batch data: `train` is one gradient step, so the
  minibatch gather `arr[mbinds]` at ppo_multi_agent.py:298 is not modelled.
  Only the batch's episodes reach the learner; the flattened arrays are
  specified by `Rollout.BatchAt` but not consumed.
- `SelfPlay.Learner.constructor`: with K = 1 it sets the cursor to `1 % K = 0`,
  where ppo_multi_agent.py:272 leaves it at 1 (see Findings). For K >= 2 the
  two agree.
- `SelfPlay.Learn`: uses the same corrected initial cursor, so with K = 1 its
  pool is the corrected one and not the source's.
- `SelfPlay.Update`, `SelfPlay.Learn`: the assertion `nbatch % nminibatches
  == 0` at ppo_multi_agent.py:282 is a precondition, so the AssertionError
  path is not modelled.
- `SelfPlay.Learn`: the opponent model's initial parameters are taken to be the
  untrained primary's. The source's freshly initialised weights are never
  used, since the first update loads slot 0 before any rollout.

## Findings

| source | as written | input that shows it | evidently intended | confidence | as-written member | corrected member |
|---|---|---|---|---|---|---|
| ppo_multi_agent.py:272 | After the initial save, `opponent_idx` becomes 1 without the `% max_saved_opponents` every later save applies. | `max_saved_opponents = 1`, two snakes, one save: file 1 is written, `num_opponents` becomes 2 > K, and file 1 is never overwritten, so half of all later draws load that stale first snapshot. | At most K opponent files, with the cursor always below K. | medium; not executed | `OpponentPool.SingleSlotAsWritten` | `OpponentPool.Initial` (invariant proved in `OpponentPool.InitialInv` and `OpponentPool.ClosedForm`; identical to the source for K >= 2) |
