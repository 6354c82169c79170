/**
 * The search-episode environment (CustomEnv in dynamic-branching/DQN_batch.py):
 * `step` hands the agent's action to the blocked branch callback and turns
 * the solver's answer (the next node's gap, or "done") into an observation
 * and a reward; `reset` starts an episode.
 */
module Environment {

  /** Size of the discrete action space. */
  const NumActions: nat := 7

  /** What the solver side answers: overall completion, or the next
      branching node with its normalized optimality gap. */
  datatype Message = Done | Ready(gap: real)

  /** The environment's state: unset (the -1 it starts with) or a gap. */
  datatype Observation = Unset | Gap(value: real)

  /** The reward of a step that moved the gap from `last` to `cur`, as the
      code computes it: the strict-decrease reward of 100 is always
      overwritten by the following if/else, so only an increase is
      distinguished. */
  function Reward(last: real, cur: real): (r: int)
    ensures r == 0 <==> cur > last
    ensures r == 1 <==> cur <= last
    ensures r != 100
  {
    if cur > last then 0 else 1
  }

  /** The mutually exclusive rule the three comparisons suggest: 100 on a strict
      decrease, 0 on an increase, 1 when unchanged. */
  function SpecifiedReward(last: real, cur: real): (r: int)
    ensures r == 100 <==> cur < last
    ensures r == 0 <==> cur > last
    ensures r == 1 <==> cur == last
  {
    if cur < last then 100 else if cur > last then 0 else 1
  }

  /** The two rules agree except on a strict decrease of the gap. */
  lemma RewardDiffersOnDecrease(last: real, cur: real)
    ensures Reward(last, cur) != SpecifiedReward(last, cur) <==> cur < last
    ensures cur < last ==> Reward(last, cur) == 1 && SpecifiedReward(last, cur) == 100
  {
  }

  class CustomEnv {
    var state: Observation
    var lastState: Observation
    var done: bool
    /** The last action handed to the solver side. */
    var data: int

    constructor ()
      ensures state == Unset && lastState == Unset && !done && data == -1
    {
      state := Unset;
      lastState := Unset;
      done := false;
      data := -1;
    }

    /** `reset`: `reply` is the solver's first message of the new episode. */
    method Reset(reply: Message) returns (obs: Observation)
      modifies this
      ensures lastState == old(lastState) && data == old(data)
      ensures reply.Done? ==> done && state == old(state) && obs == state
      ensures reply.Ready? ==> !done && state == Gap(reply.gap) && obs == state
    {
      if reply.Done? {
        done := true;
        return state;
      }
      state := Gap(reply.gap);
      done := false;
      obs := state;
    }

    /** `step`: `reply` is what the solver side sends back after `action`.
        Comparing gaps needs a gap from before, which the code takes for
        granted (it indexes the previous state). */
    method Step(action: int, reply: Message) returns (next: Observation, reward: int, isDone: bool)
      requires reply.Ready? ==> state.Gap?
      modifies this
      ensures data == action
      ensures reply.Done? ==>
        done && isDone && reward == 0 && next == state &&
        state == old(state) && lastState == old(lastState)
      ensures reply.Ready? ==>
        lastState == old(state) && state == Gap(reply.gap) && next == state &&
        done == old(done) && isDone == done &&
        reward == Reward(old(state).value, reply.gap)
    {
      data := action;
      if reply.Done? {
        done := true;
        reward := 0;
        return state, reward, done;
      }
      lastState := state;
      state := Gap(reply.gap);
      if state.value < lastState.value {
        reward := 100;
      }
      if state.value > lastState.value {
        reward := 0;
      } else {
        reward := 1;
      }
      next, isDone := state, done;
    }
  }

  /** The reward examples: 0.2 -> 0.1 earns 1 (not 100), 0.1 -> 0.2 earns 0,
      and an unchanged gap earns 1. */
  method RewardExamples() returns (down: int, up: int, same: int)
    ensures down == 1 && up == 0 && same == 1
  {
    var env := new CustomEnv();
    var obs := env.Reset(Ready(0.2));
    var next, isDone;
    next, down, isDone := env.Step(0, Ready(0.1));
    next, up, isDone := env.Step(0, Ready(0.2));
    next, same, isDone := env.Step(0, Ready(0.2));
  }
}
