# Multi-armed bandit simulator: a Dafny model

This project models the bookkeeping and decision logic of the multi-armed bandit simulator in
`UpperConfidenceBound.py`. That logic has four parts:

- **The reward ledger.** `BanditRewardsLog` keeps a record per arm: pull count, reward sum and
  squared-reward sum. It also keeps the global totals and the history of rewards in pull order.
- **The agents.** An agent is epsilon-greedy, UCB1, UCB1-Tuned or UCB1-Normal. It must have arms
  bound before it acts, otherwise `NoBanditsError` is raised. The UCB agents also need a one-way
  initialisation step before they act.
- **The selection rules.**
  - The greedy argmax scores an unpulled arm as 0.
  - The UCB agents take the argmax of their index, with the first arm in list order winning a tie.
  - UCB1-Normal forces a pull of any arm below the threshold `max(3, ceil(8 ln N))`.
- **The harness.** `compare_agents` runs each agent up to an iteration budget.
  `run_comparison_ucb` counts which strategy wins each of 1000 comparisons.

The Dafny modules:

- `Wrappers` (`wrappers.dfy`): the Option, Result and Outcome datatypes that stand in for the
  source's exceptions.
- `Arms` (`arms.dfy`): the Normal and Bernoulli arms and one pull.
- `Random` (`random.dfy`): numpy's `uniform` and `choice`, as nondeterministic choices.
- `Ledger` (`ledger.dfy`): the `Record` datatype and the `RewardsLog` class. The class's fields are
  the source's and its methods update them in place. A ghost `history` of (arm, reward) pairs is
  the specification the fields are tied to.
- `Selection` (`selection.dfy`): argmax, the greedy estimates, the exploration rate, the three UCB
  indices and the UCB1-Normal threshold, all as pure functions.
- `Agents` (`agents.dfy`): one `Agent` class tagged by a `Strategy` value. It stands in for the
  source's hierarchy `Agent` / `EpsilonGreedyAgent` / `UCBAgent` / `UCB1Agent` / `UCB1TunedAgent`
  / `UCB1NormalAgent`.
- `Harness` (`harness.dfy`): `compare_agents` without the plot, `get_agents` and
  `run_comparison_ucb`.

Other modelling choices:

- An arm is identified by its index in the bound list, not by a `uuid4`.
- Rewards are `real`s.
- numpy's `sqrt` and `log` are the two functions of a `MathLib` value that every agent holds. The
  index formulas are written out exactly around them, so the argmax and tie-break rules are proved
  without floating-point reasoning.

## Model

| member | source | states |
|---|---|---|
| `Arms.FirstAllowedIndex` | UpperConfidenceBound.py:38-47 | the sample a Normal arm returns is the first one in the batch inside every bound that is set; the position equals the batch length exactly when no sample is allowed, the case in which the source indexes an empty array |
| `Arms.Pull` | UpperConfidenceBound.py:32-64 | a pull of a truncated Normal arm lies within its bounds; a Bernoulli pull is 0 or 1, always 0 when p = 0 and always 1 when p = 1 |
| `Arms.UnboundedTakesFirstSample` | UpperConfidenceBound.py:41-47 | an arm with no bounds returns the first sample of its batch |
| `Random.Uniform` | UpperConfidenceBound.py:139 | the draw lies in [0, 1) |
| `Random.Choice` | UpperConfidenceBound.py:122-123 | the draw is a valid position in the list chosen from |
| `Ledger.RewardsLog.constructor` | UpperConfidenceBound.py:72-76 | a new ledger has no history, zero totals and no rewards |
| `Ledger.RewardsLog.RecordAction` | UpperConfidenceBound.py:78-84 | `total_actions` rises by 1, `total_rewards` by r, `r` is appended to `all_rewards`, the recorded arm's record gains one pull, r and r²; every other arm's record is unchanged; the ledger invariant (totals and records equal the aggregates of the history) is kept |
| `Ledger.RewardsLog.Get` | UpperConfidenceBound.py:86-87 | the record of an arm is the aggregate of exactly the pulls recorded for that arm; it never fails, even for an arm never recorded |
| `Ledger.PullsNeverDecrease` | UpperConfidenceBound.py:78-84 | recording more pulls never lowers the pull count of any arm |
| `Ledger.NeverPulledIsZero` | UpperConfidenceBound.py:76-87 | an arm reads as the zero record (0 actions, 0 reward, 0 squared reward) exactly when it was never recorded |
| `Ledger.AggregateIsSumOfPulls` | UpperConfidenceBound.py:78-84 | each arm's record equals the count, sum and sum of squares of the rewards recorded for that arm |
| `Ledger.LedgerTotals` | UpperConfidenceBound.py:72-84 | the per-arm records add up to the totals: their pull counts to the number of records, their reward sums to the sum of `all_rewards`, their squared sums to its sum of squares |
| `Ledger.LogTotalsAreRecordSums` | UpperConfidenceBound.py:72-84 | on a consistent ledger whose pulls are all of arms below k, the stored records of arms 0 .. k-1 add up to `total_actions`, `total_rewards` and the squared sum of `all_rewards` |
| `Selection.ArgMax` | UpperConfidenceBound.py:134 | `np.argmax`: the result holds a maximal estimate and every earlier position holds a strictly smaller one (first-in-list tie-break) |
| `Selection.GreedyEstimate` | UpperConfidenceBound.py:127-132 | the estimate of an unpulled arm is 0; otherwise it times the pull count is the reward sum (the sample mean) |
| `Selection.GreedyPicksStrictlyBest` | UpperConfidenceBound.py:125-134 | once every arm is pulled, the greedy choice is the arm with the strictly highest sample mean |
| `Selection.EffectiveEpsilonAsWritten` | UpperConfidenceBound.py:137 | the source's `self.epsilon or 1 / (1 + total_actions)`: a configured epsilon other than 0 is used as is; a missing epsilon and an epsilon of 0 both get the adaptive rate 1 / (1 + total pulls), in (0, 1] |
| `Selection.EffectiveEpsilon` | UpperConfidenceBound.py:137 | a configured epsilon is used as is; without one the rate is 1 / (1 + total pulls), in (0, 1] |
| `Selection.ZeroEpsilonExploresAsWritten` | UpperConfidenceBound.py:137 | as written, epsilon = 0 is replaced by the adaptive rate, which is positive and is 1 on a fresh ledger; the corrected rate is 0 |
| `Selection.Index` | UpperConfidenceBound.py:195-265 | an arm's UCB index is a number exactly when the arm has enough pulls for the formula's divisions (1 for UCB1 and UCB1-Tuned, 2 for UCB1-Normal). Below that, the source divides by zero: with no pulls the record still holds Python integers and the division raises; at one pull UCB1-Normal's `/ (n - 1)` at line 262 divides a numpy value and gives NaN |
| `Selection.Indices` | UpperConfidenceBound.py:170-172 | the list of indices, one per arm in list order, consists of numbers exactly when every arm has enough pulls |
| `Selection.FirstBelow` | UpperConfidenceBound.py:278-280 | the first arm with fewer than m pulls, or the list length when there is none: where `np.argmax` stops when UCB1-Normal's list holds NaN, because NaN counts as the maximum and the first one wins |
| `Selection.UCB1EqualCountsRankByMean` | UpperConfidenceBound.py:195-202 | two arms with the same pull count have the same UCB1 bonus, so UCB1 ranks them by sample mean |
| `Selection.Ceil` | UpperConfidenceBound.py:271 | `np.ceil`: the smallest integer not below x |
| `Selection.SampleThreshold` | UpperConfidenceBound.py:271 | the UCB1-Normal threshold is exactly `max(3, ceil(8 ln N))`: an integer that is at least 3 and at least 8 ln N, and below the larger of the two plus 1, so no smaller integer meets both bounds |
| `Agents.Agent.constructor` | UpperConfidenceBound.py:91-93 | a new agent has a fresh empty ledger, no arms bound and is not initialised |
| `Agents.Agent.Bandits` | UpperConfidenceBound.py:95-99 | reading the arms fails with NoBandits exactly when nothing or an empty list is bound, and otherwise yields the bound list |
| `Agents.Agent.SetBandits` | UpperConfidenceBound.py:101-103 | the bound list is replaced; the ledger and the initialised flag are untouched |
| `Agents.Agent.CurrentBestBandit` | UpperConfidenceBound.py:170-172 | `_get_current_best_bandit` of both families: NoBandits when no arms are bound; epsilon-greedy picks the first arm with a maximal sample-mean estimate (lines 125-134); a UCB agent fails with a division by zero exactly when some arm has never been pulled. Otherwise, when every index is a number it picks the first arm with a maximal index; when UCB1-Normal has an arm with a single pull, that index is NaN (lines 262, 280) and it picks the first such arm |
| `Agents.Agent.ChooseBandit` | UpperConfidenceBound.py:136-145 | epsilon-greedy fails exactly when no arms are bound; its choice is a bound arm, and when the exploration rate is 0 or below it is the greedy argmax |
| `Agents.Agent.BanditWithInsufficientData` | UpperConfidenceBound.py:267-276 | fails exactly when no arms are bound; a returned arm is below the threshold; None is returned exactly when every bound arm meets the threshold |
| `Agents.Agent.SelectBandit` | UpperConfidenceBound.py:282-288 | a UCB agent that is not initialised is refused; otherwise unbound arms give NoBandits; an initialised UCB agent with arms bound that is not ready (UCB1 or UCB1-Tuned with an arm never pulled, lines 200 and 227) gets ZeroDivision; a choice is made exactly when the agent is ready; UCB1-Normal picks an arm below the threshold when there is one and otherwise the index argmax, so it never divides by zero (an arm with fewer than 2 pulls is always below the threshold of at least 3) |
| `Agents.Agent.TakeAction` | UpperConfidenceBound.py:174-181 | on success exactly one (arm, reward) pair is appended to the ledger, with the arm the strategy permits in the prior state and a reward the arm can yield; on failure the ledger is unchanged, and an initialised UCB agent with arms bound that was not ready fails with ZeroDivision; success happens exactly when the agent was ready, and readiness is kept |
| `Agents.Agent.TakeActions` | UpperConfidenceBound.py:109-111 | n successful actions add exactly n records (none when n ≤ 0), extending the history, and each new entry is a pull of a bound arm with a reward that arm can yield; it fails, changing nothing, exactly when n > 0 and the agent is not ready |
| `Agents.Agent.PullRepeatedly` | UpperConfidenceBound.py:245-248 | the inner loop of the initialisation step: `reps` entries are appended, all for arm i, with rewards arm i can yield; arm i's pull count rises by `reps` and every other arm's is unchanged |
| `Agents.Agent.Initialise` | UpperConfidenceBound.py:185-193 | once initialised, a call is a no-op on the ledger; otherwise it fails with NoBandits when no arms are bound, or pulls every bound arm exactly once (twice for UCB1-Normal, lines 245-249) and adds nothing for other arms. The new entries are pulls of the bound arms with rewards those arms can yield, in list order (an arm's entries come before those of every later arm). It sets the flag and leaves the agent ready to act |
| `Harness.RunAgent` | UpperConfidenceBound.py:304-310 | one agent's turn: bound to the arms, it ends with `max(iterations, actions taken after initialisation)` actions, and its history extends the one before with pulls of those arms, with rewards they can yield; it cannot fail for an uninitialised agent and a non-empty arm list |
| `Harness.CompareAgents` | UpperConfidenceBound.py:297-310 | every agent ends bound to the arms with `max(iterations, actions after initialisation)` actions, a negative remainder running no step, and a history that extends its old one with pulls of the arms with rewards they can yield; agents that start uninitialised with a non-empty arm list always succeed; with no arms bound it succeeds only if every agent had already taken at least `iterations` actions |
| `Harness.GetAgents` | UpperConfidenceBound.py:324-331 | four fresh, distinct agents with empty ledgers, in the order epsilon-greedy (adaptive rate), UCB1, UCB1-Tuned, UCB1-Normal |
| `Harness.RunTrial` | UpperConfidenceBound.py:337-345 | one comparison succeeds exactly when the arm list is non-empty. It then returns, in get_agents' order, each agent's total reward, which is the sum of the rewards in its history. Each history is `max(1000, initialisation pulls)` pulls of the arms, with rewards they can yield |
| `Harness.TrialOfAgents` | UpperConfidenceBound.py:337-345 | four agents that were fresh before compare_agents, in get_agents' order, leave histories and total rewards as described for RunTrial |
| `Harness.NoPayoutSumsToZero` | UpperConfidenceBound.py:60-64 | a history of pulls of Bernoulli arms with p = 0 has total reward 0 |
| `Harness.NoPayoutFirstStrategyWins` | UpperConfidenceBound.py:342-346 | when no arm pays, all four totals are 0 and `np.argmax` credits the trial to the first agent, the epsilon-greedy one |
| `Harness.NoPayoutTally` | UpperConfidenceBound.py:339-346 | when no arm pays, every trial is won by strategy 0 and none by the others |
| `Harness.TallyStep` | UpperConfidenceBound.py:346 | crediting one trial to a strategy keeps each win count equal to the number of trials that strategy won, and the sum of the counts equal to the number of trials |
| `Harness.SumIncrement` | UpperConfidenceBound.py:346 | adding one win to one strategy adds one to the sum of the win counts |
| `Harness.RunComparisonUCB` | UpperConfidenceBound.py:334-348 | succeeds exactly when the arm list is non-empty. It then returns four win counts that sum to the 1000 trials, where count s is the number of trials whose winner is s. Each trial's winner is the `np.argmax` (first maximal position) of that trial's four total rewards, and each total is the sum of a history as described for RunTrial. With arms that never pay, the result is `[1000, 0, 0, 0]` |

## Findings

| source | as written | input that shows it | evidently intended | confidence | as-written member | corrected member |
|---|---|---|---|---|---|---|
| UpperConfidenceBound.py:137 | `epsilon = self.epsilon or 1 / (1 + total_actions)` also discards an epsilon of 0.0, because 0.0 is falsy | `EpsilonGreedyAgent(epsilon=0.0)` on a fresh ledger: the rate becomes 1, so every step explores a random arm | only a missing epsilon (`None`, per the docstring) takes the adaptive rate, so epsilon = 0 never explores | medium, not executed | `Selection.ZeroEpsilonExploresAsWritten` | `Selection.EffectiveEpsilon` |

`Selection.EffectiveEpsilonAsWritten` is the source's expression. The agents use the corrected
`Selection.EffectiveEpsilon`. With it, `Agents.Agent.ChooseBandit` proves that a rate of 0 always
picks the greedy argmax. This is the purely exploitative behaviour that a configured epsilon of 0
is meant to give.

## Left out

- The reward distributions are not modelled. numpy's Normal and binomial draws, `uniform` and
  `choice` are nondeterministic choices (`Random`, `Arms.Pull`).
- A truncated Normal arm can draw a batch with no sample inside its bounds. The source then
  indexes an empty array. `Arms.FirstAllowedIndex` models that case, but `Arms.Pull` only draws
  batches that contain an allowed sample. Its precondition `Pullable` therefore asks for a
  non-empty truncation interval, and for a Bernoulli `p` in [0, 1], which numpy requires.
- `Agents.Agent.SetBandits` requires the bound arms to be pullable in that sense. The source's
  setter accepts any list.
- Floating point is not modelled: rewards and sums are exact reals. numpy's `sqrt` and `log` are
  left abstract (`Selection.MathLib`), so NaN or infinity from `log(0)` or from the square root of
  a negative number is not captured. The only NaN the model covers is UCB1-Normal's index of an
  arm with one pull (`Agents.Agent.CurrentBestBandit`). There it states the arm `np.argmax` picks,
  not the NaN value itself.
- `__getitem__` on the `defaultdict` inserts a zero record for an arm it has not seen. The model
  returns the zero record without storing it, because the insertion cannot be seen through the
  ledger's interface.
- Arm identity is the position in the bound list. If an agent is rebound to a different list, it
  keeps its records by position, whereas the source keys them by each arm's `uuid4`.
- `Harness.CompareAgents` requires distinct agents with distinct ledgers. The source also accepts
  the same agent listed twice; that aliasing is not modelled.
- `Harness.CompareAgents` does not say which error a failing run raises. It states only when a run
  must succeed, and that with no arms bound it fails whenever some agent still has actions to take.
- Harness.RunTrial: states each history's length, arms and rewards. It does not state that each
  pull was the one the agent's strategy admits. `Agents.Agent.TakeAction` states that for a single
  step, but it is not carried through the loop of `TakeActions`.
- `Harness.RunComparisonUCB` does not state which error it fails with (NoBanditsError in the
  source). It states only that it fails exactly when the arm list is empty.
- Agents.Agent.ChooseBandit: uses the corrected exploration rate `Selection.EffectiveEpsilon`
  (see Findings), not line 137 as written. For a configured epsilon of 0 it therefore always
  exploits, where the source explores with the adaptive rate.
- The `logger.info` calls, the matplotlib plotting in `compare_agents`, the `__repr__` methods,
  the `__main__` driver and `PolicyEvaluation.py` are not modelled. They are display only, and
  `PolicyEvaluation.py` is a floating-point convergence loop over a grid-world environment that
  is not part of this model.
- The source raises a plain `Exception` when a UCB agent acts before initialisation. The model
  names that error `Uninitialised`.
