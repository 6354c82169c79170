# Adaptive branching with a DQN agent — a Dafny model

This project models the decision and update rules of `dynamic-branching/DQN_batch.py`,
a program that couples a CPLEX branch-and-bound search with a deep-Q-network agent.
At every branching node the solver's branch callback reports the node's normalized
optimality gap, waits for a strategy id from the agent, and then either branches on a
variable it selects itself (most-fractional or random rule) or sets the solver's
variable-selection mode. The environment turns each answer into a reward, and the agent
learns from a replay memory with a soft-updated target network.

Modules:

- `Wrappers` (`wrappers.dfy`): `Option`.
- `Branching` (`branching.dfy`): the branch callback `BranchCB.__call__`. It covers the
  most-fractional selection (a method with a loop, proved against the predicate
  `IsMostFractional`), the random rule's candidate list and choice, the dispatch from
  action id to a `Strategy`, the solver mode that follows, and the two child requests.
  It also holds the callback object with its decision-record log and counters, and a
  `Solver` object holding the `variableselect` parameter.
- `Environment` (`environment.dfy`): `CustomEnv.reset` and `CustomEnv.step`, with the
  reward rule.
- `Agent` (`agent.dfy`): class `DQN`. It covers exploration decay with a floor, the
  bounded FIFO replay memory, the replay guard, the per-sample Bellman targets, and the
  Polyak update of the target weights.

The solver's and the network library's answers are parameters. The solver's reply
after an action is a `Message` (`Done` or `Ready(gap)`). The networks are the function
values `net(weights, state)` and `train(weights, states, targets)`. The random draws are
inputs: the coin and the sampled action of `get_action`, the position `np.random.choice`
picks, and the positions `random.sample` picks.

In these places the model follows the code:

- Reward. The code assigns 100 on a strict decrease of the gap, but the `if`/`else`
  that follows always overwrites it. So the reward is 0 when the gap grows and 1
  otherwise. `Environment.Reward` is that rule. `Environment.SpecifiedReward` is the
  mutually exclusive rule (100 / 0 / 1) that the comparisons suggest. `RewardDiffersOnDecrease` proves the
  two rules differ exactly when the gap strictly decreases.
- Unrecognized action ids leave the solver mode unchanged. The code has no fallback to
  the automatic mode.
- The most-fractional rule with no infeasible variable yields -1, not "no decision".
  The code would then branch on `x[-1]`. The model instead requires an infeasible
  variable before it branches for id 0.
- The behaviour and target networks come from two separate `create_model` calls.
  They start from independent weights, not identical ones.
- The mode strategies write `variableselect` on the module-level model object created
  in the main block (line 448). `init_cplex_model` binds and solves a local model of
  the same name (line 198). The `Solver` object models the parameter that is written.
  Whether the running search reads it is not part of this model.

## Model

| member | source | states |
|---|---|---|
| `Branching.FracDist` | dynamic-branching/DQN_batch.py:99-101 | the distance to the nearest integer lies in [0, 0.5] and is the smaller of the fractional part and one minus it |
| `Branching.MostFractional` | dynamic-branching/DQN_batch.py:86-106 | the result is -1 iff no variable is infeasible; otherwise it is an infeasible index of maximal distance, maximal \|obj\| among equal distances, and the last index on a full tie |
| `Branching.MostFractionalExample` | dynamic-branching/DQN_batch.py:95-106 | x = [0.5, 0.9, 0.1], all infeasible, obj = [1, 5, 2] selects index 0 |
| `Branching.InfeasibleFrom` | dynamic-branching/DQN_batch.py:109 | the candidate list is exactly the infeasible indices, strictly increasing |
| `Branching.RandomChoice` | dynamic-branching/DQN_batch.py:108-114 | the early return happens iff no variable is infeasible; otherwise the choice is the drawn candidate, an infeasible index, so the `bestj < 0` return is unreachable |
| `Branching.StrategyOf` | dynamic-branching/DQN_batch.py:95-127 | id 0 is the most-fractional rule, id 1 the random rule, ids 2-6 and 99 set a mode in [-1, 4] (0 exactly for 99), and every other id is unrecognized |
| `Branching.NextMode` | dynamic-branching/DQN_batch.py:116-127 | an id outside 2-6 and 99 leaves the solver's variable-selection mode unchanged |
| `Branching.ModeTable` | dynamic-branching/DQN_batch.py:116-127 | ids 2, 3, 4, 5, 6 and 99 set the mode to -1, 1, 2, 3, 4 and 0; ids 0, 1 and 7 keep it |
| `Branching.Children` | dynamic-branching/DQN_batch.py:130-138 | both children carry the node's objective and parent id; a variable strategy gives each child one bound change, a mode strategy gives none |
| `Branching.ChildrenPartition` | dynamic-branching/DQN_batch.py:131-135 | the down child bounds the chosen variable above at floor(x_j) and the up child below at floor(x_j)+1; every integer value is admitted by exactly one child, a fractional x_j by neither, and a mode split admits everything in both |
| `Branching.Gap` | dynamic-branching/DQN_batch.py:148 | gap times the incumbent equals objective minus incumbent |
| `Branching.Solver.constructor` | dynamic-branching/DQN_batch.py:127 | the variable-selection parameter starts at the automatic value 0 |
| `Branching.BranchCallback.constructor` | dynamic-branching/DQN_batch.py:56-60 | the callback starts from the given log and starts with zero counters |
| `Branching.BranchCallback.Call` | dynamic-branching/DQN_batch.py:61-152 | counts the call; sets the mode as dispatched; returns early iff the random rule has no candidate, changing no log or report count; otherwise branches on the rule's variable with the specified children, appends the decision record with the gap, and flushes on every 500th report |
| `Environment.Reward` | dynamic-branching/DQN_batch.py:306-312 | the reward is 0 iff the gap increased and 1 otherwise, never 100 |
| `Environment.SpecifiedReward` | dynamic-branching/DQN_batch.py:306-312 | the rule the comparisons suggest: 100 iff decreased, 0 iff increased, 1 iff unchanged |
| `Environment.RewardDiffersOnDecrease` | dynamic-branching/DQN_batch.py:306-312 | the code's reward differs from the mutually exclusive rule exactly on a strict decrease, where it gives 1 instead of 100 |
| `Environment.CustomEnv.constructor` | dynamic-branching/DQN_batch.py:277-289 | the environment starts with no gap, not done, and data -1 |
| `Environment.CustomEnv.Reset` | dynamic-branching/DQN_batch.py:320-333 | on "done" the episode is marked done and the old state is returned; otherwise the new gap becomes the state and done is cleared |
| `Environment.CustomEnv.Step` | dynamic-branching/DQN_batch.py:290-318 | stores the action; on "done" it gives reward 0 and leaves both states unchanged; otherwise the old state becomes the last state, the new gap the state, and the reward is Reward(last, new) |
| `Environment.RewardExamples` | dynamic-branching/DQN_batch.py:306-312 | gap 0.2 to 0.1 rewards 1, 0.1 to 0.2 rewards 0, and an unchanged gap rewards 1 |
| `Agent.Decayed` | dynamic-branching/DQN_batch.py:366-367 | one decay step gives at least the floor 0.01, at most the previous rate when that was above the floor, at least the rate times 0.99999, and is either the floor or the rate times 0.99999, hence max(0.01, rate * 0.99999) |
| `Agent.ExplorationMonotone` | dynamic-branching/DQN_batch.py:341-343 | starting at or above the floor, the rate after n calls is at most the rate after m <= n calls and never below 0.01 |
| `Agent.Argmax` | dynamic-branching/DQN_batch.py:372 | the index of the first maximal action value |
| `Agent.Max` | dynamic-branching/DQN_batch.py:393 | the largest next-state value, an element of the vector |
| `Agent.KeepNewest` | dynamic-branching/DQN_batch.py:338 | a bounded deque holds min(length, 500000) entries |
| `Agent.Push` | dynamic-branching/DQN_batch.py:374-375 | one append keeps the newest 500000 entries of memory followed by the new transition |
| `Agent.PushAllKeepsNewest` | dynamic-branching/DQN_batch.py:338 | after any sequence of appends the memory is the newest at most 500000 transitions, in arrival order |
| `Agent.BellmanTarget` | dynamic-branching/DQN_batch.py:388-394 | the target has one entry per action; it equals the target network's prediction except at the taken action, which is the reward when done and reward + 0.99 * max(next prediction) otherwise |
| `Agent.BuildTargets` | dynamic-branching/DQN_batch.py:385-396 | one target per sample, in sample order, each the Bellman target of its transition |
| `Agent.SelectDistinctIsSubMultiset` | dynamic-branching/DQN_batch.py:380 | entries taken at distinct memory positions form a sub-multiset of the memory |
| `Agent.SampleWithoutReplacement` | dynamic-branching/DQN_batch.py:380 | a batch of 32 distinct positions, as `random.sample` draws it, has 32 entries, none more often than in the memory |
| `Agent.Blend` | dynamic-branching/DQN_batch.py:413-414 | the blended target has one weight per target weight |
| `Agent.BlendIsConvex` | dynamic-branching/DQN_batch.py:410-415 | each blended weight lies between the behaviour and the target weight, and its distance to the behaviour weight is (1 - tau) times the old distance |
| `Agent.BlendFixedPoint` | dynamic-branching/DQN_batch.py:410-415 | when the target weights equal the behaviour weights the update leaves them unchanged |
| `Agent.BlendExample` | dynamic-branching/DQN_batch.py:346 | with tau = 0.125, behaviour weight 1 and target weight 0 the new target weight is 0.125 |
| `Agent.DQN.constructor` | dynamic-branching/DQN_batch.py:336-351 | the rate starts at 1.0, memory and loss history empty, fit count 0, each network with its own initial weights |
| `Agent.DQN.GetAction` | dynamic-branching/DQN_batch.py:365-372 | the rate is decayed first, so it never increases and stays at or above 0.01; the action is the sampled one when the coin is below the new rate, and otherwise the argmax of the behaviour network's values; nothing else changes |
| `Agent.DQN.Remember` | dynamic-branching/DQN_batch.py:374-375 | the transition is pushed onto the bounded memory; nothing else changes |
| `Agent.DQN.Replay` | dynamic-branching/DQN_batch.py:377-402 | below 32 transitions nothing changes; otherwise the behaviour weights become those fitted to the batch's Bellman targets, the loss is appended, the fit count grows by one, and the dump happens on every 500th fit |
| `Agent.DQN.TargetTrain` | dynamic-branching/DQN_batch.py:410-415 | every target weight becomes tau * w_i + (1 - tau) * t_i; the length is kept and nothing else changes |

## Left out

- `init_cplex_model` (instance data, solver parameters, model construction, `solve`) is a call into the solver and is not modelled.
- The socket and thread rendezvous between the search and the agent is I/O and concurrency. This covers `send`/`recv`, the `threading.Thread` starts, `create_client_socket`, the socket setup of the main block, and the `cplex_m_global.data` hand-off. The model passes the exchanged values as parameters instead.
- Keras network construction, prediction, `fit` and `save_model` are library calls. They appear only as the function values `net` and `train`.
- Plotting, the CSV dumps, console output, `bcolors`, and the counter-only `NodeCB` and `MIPInfoCB` are I/O or trivial. Each 500-count dump is modelled only as a returned flag.
- `get_branch_type` is read but never used (line 64). It is not modelled.
- Random draws are inputs, not an RNG. The model does not capture their distribution.
- Floating point is modelled as `real`. Rounding of the gap, the decay, the Bellman targets and the blend is not captured.
- Network weights are one flat `seq<real>`. The source stores one array per layer and applies the blend element by element.
- States are a single `real`. The source uses a one-element array.
- The epoch loop of the main block is training glue and is not modelled. It runs at most 5000 steps per epoch and keeps the best mean reward so far.
- Branching.BranchCallback.Call: requires an infeasible variable when the id is 0. With none, the source branches on `x[-1]`, Python's last element, and this case is not modelled.
- Branching.Gap: requires a nonzero incumbent, which the source divides by.
- Environment.CustomEnv.Step: requires a gap from before when the solver answers with a node. The source would fail indexing its initial -1.
- Agent.DQN.Remember: requires an action in [0, 7), the range `get_action` produces. In the source, `target[action] = ...` in `replay` (lines 390 and 394) fails only for an action of 7 or more or below -7, and only when that transition is sampled; an action in [-7, -1] silently overwrites entry action + 7.
