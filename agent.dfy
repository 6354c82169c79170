/**
 * The learning agent (class DQN in dynamic-branching/DQN_batch.py): an
 * epsilon-greedy policy with multiplicative decay and a floor, a bounded
 * FIFO replay memory, the per-sample Bellman targets of a replay step, and
 * the Polyak (soft) update of the target network's weights.
 *
 * The networks are functions of their weights: `net(weights, state)` is the
 * vector of action values, and `train(weights, states, targets)` is what one
 * call of fit returns (the new weights and the loss).
 */
module Agent {
  import Environment

  /** maxlen of the replay deque, 5 * 10**5. */
  const Capacity: nat := 500000
  const BatchSize: nat := 32
  const Gamma: real := 0.99
  const ExplorationStart: real := 1.0
  const ExplorationMin: real := 0.01
  const ExplorationDecay: real := 0.99999
  const Tau: real := 0.125
  /** The loss history is dumped every this many fits. */
  const DumpPeriod: nat := 500

  type QNetwork = (seq<real>, real) -> seq<real>
  type Trainer = (seq<real>, seq<real>, seq<seq<real>>) -> (seq<real>, real)

  datatype Transition = Transition(state: real, action: int, reward: int, newState: real, done: bool)

  // ---------------------------------------------------------------- exploration

  /** The exploration rate after one call of get_action. */
  function Decayed(eps: real): (r: real)
    ensures r >= ExplorationMin
    ensures eps >= ExplorationMin ==> r <= eps
    ensures r == ExplorationMin || r == eps * ExplorationDecay
    ensures r >= eps * ExplorationDecay
  {
    var e := eps * ExplorationDecay;
    if ExplorationMin > e then ExplorationMin else e
  }

  /** The exploration rate after n calls of get_action. */
  function DecayedN(eps: real, n: nat): real
  {
    if n == 0 then eps else Decayed(DecayedN(eps, n - 1))
  }

  /** Over any sequence of calls the rate never increases and never falls
      below the floor. */
  lemma {:induction false} ExplorationMonotone(eps: real, m: nat, n: nat)
    requires ExplorationMin <= eps && m <= n
    ensures ExplorationMin <= DecayedN(eps, n) <= DecayedN(eps, m) <= eps
  {
    if m < n {
      ExplorationMonotone(eps, m, n - 1);
    } else if n > 0 {
      ExplorationMonotone(eps, n - 1, n - 1);
    }
  }

  /** The first index of a maximal entry, as argmax returns it. */
  function Argmax(s: seq<real>): (k: nat)
    requires |s| > 0
    ensures k < |s|
    ensures forall i :: 0 <= i < |s| ==> s[i] <= s[k]
    ensures forall i :: 0 <= i < k ==> s[i] < s[k]
  {
    if |s| == 1 then 0
    else
      var k := Argmax(s[..|s| - 1]);
      if s[|s| - 1] > s[k] then |s| - 1 else k
  }

  function Max(s: seq<real>): (m: real)
    requires |s| > 0
    ensures m in s && forall i :: 0 <= i < |s| ==> s[i] <= m
  {
    s[Argmax(s)]
  }

  // ---------------------------------------------------------------- memory

  /** The newest Capacity entries of s, in order (all of s when it is shorter). */
  function KeepNewest(s: seq<Transition>): (r: seq<Transition>)
    ensures |r| == if |s| <= Capacity then |s| else Capacity
  {
    if |s| <= Capacity then s else s[|s| - Capacity..]
  }

  /** Appending to the bounded deque: the transition goes to the back and
      the oldest entry is dropped only when the memory is full. */
  function Push(memory: seq<Transition>, t: Transition): (r: seq<Transition>)
    requires |memory| <= Capacity
    ensures r == KeepNewest(memory + [t])
  {
    if |memory| < Capacity then memory + [t] else memory[1..] + [t]
  }

  function PushAll(memory: seq<Transition>, ts: seq<Transition>): seq<Transition>
    requires |memory| <= Capacity
    decreases |ts|
  {
    if ts == [] then memory else PushAll(Push(memory, ts[0]), ts[1..])
  }

  lemma KeepNewestAppend(a: seq<Transition>, b: seq<Transition>)
    ensures KeepNewest(KeepNewest(a) + b) == KeepNewest(a + b)
  {
  }

  /** After any sequence of appends the memory holds the newest transitions
      in arrival order, at most Capacity of them. */
  lemma {:induction false} PushAllKeepsNewest(memory: seq<Transition>, ts: seq<Transition>)
    requires |memory| <= Capacity
    ensures PushAll(memory, ts) == KeepNewest(memory + ts)
    ensures |PushAll(memory, ts)| <= Capacity
    decreases |ts|
  {
    if ts == [] {
      assert memory + ts == memory;
    } else {
      var m' := Push(memory, ts[0]);
      PushAllKeepsNewest(m', ts[1..]);
      KeepNewestAppend(memory + [ts[0]], ts[1..]);
      assert memory + [ts[0]] + ts[1..] == memory + ts;
    }
  }

  // ---------------------------------------------------------------- replay targets

  /** The target vector of one sample: the target network's values for its
      state, with the taken action's entry replaced by the reward, plus the
      discounted best next value when the episode goes on. */
  function BellmanTarget(pred: seq<real>, nextPred: seq<real>, t: Transition): (r: seq<real>)
    requires 0 <= t.action < |pred| && |nextPred| > 0
    ensures |r| == |pred|
    ensures forall i :: 0 <= i < |r| && i != t.action ==> r[i] == pred[i]
    ensures r[t.action] == if t.done then t.reward as real else t.reward as real + Gamma * Max(nextPred)
  {
    pred[t.action := if t.done then t.reward as real else t.reward as real + Max(nextPred) * Gamma]
  }

  ghost predicate OutputsActions(net: QNetwork)
  {
    forall w, s :: |net(w, s)| == Environment.NumActions
  }

  predicate ActionsInRange(samples: seq<Transition>)
  {
    forall k :: 0 <= k < |samples| ==> 0 <= samples[k].action < Environment.NumActions
  }

  /** The loop of replay that builds one target vector per sample. */
  method BuildTargets(net: QNetwork, targetWeights: seq<real>, samples: seq<Transition>)
    returns (targets: seq<seq<real>>)
    requires OutputsActions(net) && ActionsInRange(samples)
    ensures |targets| == |samples|
    ensures forall k :: 0 <= k < |samples| ==>
      targets[k] == BellmanTarget(net(targetWeights, samples[k].state), net(targetWeights, samples[k].newState), samples[k])
  {
    targets := [];
    for k := 0 to |samples|
      invariant |targets| == k
      invariant forall i :: 0 <= i < k ==>
        targets[i] == BellmanTarget(net(targetWeights, samples[i].state), net(targetWeights, samples[i].newState), samples[i])
    {
      var t := samples[k];
      var target := net(targetWeights, t.state);
      if t.done {
        target := target[t.action := t.reward as real];
      } else {
        var qFuture := Max(net(targetWeights, t.newState));
        target := target[t.action := t.reward as real + qFuture * Gamma];
      }
      targets := targets + [target];
    }
  }

  /** The target vectors of a batch (what BuildTargets computes). */
  function Targets(net: QNetwork, targetWeights: seq<real>, samples: seq<Transition>): seq<seq<real>>
    requires OutputsActions(net) && ActionsInRange(samples)
  {
    seq(|samples|, k requires 0 <= k < |samples| =>
      BellmanTarget(net(targetWeights, samples[k].state), net(targetWeights, samples[k].newState), samples[k]))
  }

  function States(samples: seq<Transition>): seq<real>
  {
    seq(|samples|, k requires 0 <= k < |samples| => samples[k].state)
  }

  /** `picks` are BatchSize distinct positions in a memory of length n, as
      random.sample draws them. */
  predicate IsSample(picks: seq<nat>, n: nat)
  {
    |picks| == BatchSize &&
    (forall k :: 0 <= k < |picks| ==> picks[k] < n) &&
    Distinct(picks)
  }

  function Select(memory: seq<Transition>, picks: seq<nat>): seq<Transition>
    requires forall k :: 0 <= k < |picks| ==> picks[k] < |memory|
  {
    seq(|picks|, k requires 0 <= k < |picks| => memory[picks[k]])
  }

  predicate Distinct(picks: seq<nat>)
  {
    forall k, l :: 0 <= k < l < |picks| ==> picks[k] != picks[l]
  }

  /** The position q of a memory once the entry at p is removed. */
  function Shift(q: nat, p: nat): nat
    requires q != p
  {
    if q < p then q else q - 1
  }

  /** Entries taken at distinct positions form a sub-multiset of the memory. */
  lemma {:induction false} SelectDistinctIsSubMultiset(memory: seq<Transition>, picks: seq<nat>)
    requires forall k :: 0 <= k < |picks| ==> picks[k] < |memory|
    requires Distinct(picks)
    ensures multiset(Select(memory, picks)) <= multiset(memory)
    decreases |picks|
  {
    if picks != [] {
      var n := |picks| - 1;
      var p := picks[n];
      var rest := picks[..n];
      var mem' := memory[..p] + memory[p + 1..];
      var rest' := seq(n, k requires 0 <= k < n => Shift(rest[k], p));
      forall k | 0 <= k < n
        ensures rest'[k] < |mem'| && mem'[rest'[k]] == memory[rest[k]]
      {
        assert rest[k] == picks[k] && picks[k] != p;
      }
      assert Distinct(rest') by {
        forall k, l | 0 <= k < l < n ensures rest'[k] != rest'[l] {
          assert picks[k] != picks[l] && picks[k] != p && picks[l] != p;
        }
      }
      SelectDistinctIsSubMultiset(mem', rest');
      assert Select(mem', rest') == Select(memory, rest);
      assert Select(memory, picks) == Select(memory, rest) + [memory[p]];
      assert memory == memory[..p] + [memory[p]] + memory[p + 1..];
      assert multiset(memory) == multiset(mem') + multiset{memory[p]};
    }
  }

  /** A batch drawn as random.sample draws it is taken without replacement:
      it holds BatchSize entries, each no more often than the memory does. */
  lemma SampleWithoutReplacement(memory: seq<Transition>, picks: seq<nat>)
    requires IsSample(picks, |memory|)
    ensures |Select(memory, picks)| == BatchSize
    ensures multiset(Select(memory, picks)) <= multiset(memory)
  {
    SelectDistinctIsSubMultiset(memory, picks);
  }

  // ---------------------------------------------------------------- soft update

  /** The Polyak blend of behaviour weights w into target weights t. */
  function Blend(w: seq<real>, t: seq<real>, tau: real): (r: seq<real>)
    requires |w| == |t|
    ensures |r| == |t|
  {
    seq(|t|, i requires 0 <= i < |t| => w[i] * tau + t[i] * (1.0 - tau))
  }

  /** Each blended weight lies between the behaviour and the target weight,
      and its distance to the behaviour weight shrinks by the factor 1 - tau. */
  lemma BlendIsConvex(w: seq<real>, t: seq<real>, tau: real, i: nat)
    requires |w| == |t| && i < |t| && 0.0 <= tau <= 1.0
    ensures (w[i] <= Blend(w, t, tau)[i] <= t[i]) || (t[i] <= Blend(w, t, tau)[i] <= w[i])
    ensures Blend(w, t, tau)[i] - w[i] == (1.0 - tau) * (t[i] - w[i])
  {
    var b := Blend(w, t, tau)[i];
    var c, d := 1.0 - tau, t[i] - w[i];
    assert b - w[i] == c * d;
    assert 0.0 <= c <= 1.0;
    if d >= 0.0 {
      assert 0.0 <= c * d <= d;
    } else {
      assert d <= c * d <= 0.0;
    }
  }

  /** Target weights already equal to the behaviour weights stay unchanged. */
  lemma BlendFixedPoint(w: seq<real>, tau: real)
    ensures Blend(w, w, tau) == w
  {
  }

  /** Behaviour weight 1, target weight 0 and tau = 0.125 give 0.125. */
  lemma BlendExample()
    ensures Blend([1.0], [0.0], Tau) == [0.125]
  {
  }

  // ---------------------------------------------------------------- the agent

  class DQN {
    var explorationMax: real
    var memory: seq<Transition>
    var weights: seq<real>
    var targetWeights: seq<real>
    var lossHistory: seq<real>
    var fitCount: nat
    const net: QNetwork
    const train: Trainer

    ghost predicate Valid()
      reads this
    {
      ExplorationMin <= explorationMax <= ExplorationStart &&
      |memory| <= Capacity && ActionsInRange(memory) &&
      |targetWeights| == |weights| &&
      OutputsActions(net) &&
      (forall w, xs, ts :: |train(w, xs, ts).0| == |w|)
    }

    /** Both networks come from create_model, each with its own initial weights. */
    constructor (net: QNetwork, train: Trainer, initWeights: seq<real>, initTargetWeights: seq<real>)
      requires OutputsActions(net) && forall w, xs, ts :: |train(w, xs, ts).0| == |w|
      requires |initTargetWeights| == |initWeights|
      ensures Valid()
      ensures this.net == net && this.train == train
      ensures explorationMax == ExplorationStart && memory == [] && lossHistory == [] && fitCount == 0
      ensures weights == initWeights && targetWeights == initTargetWeights
    {
      this.net := net;
      this.train := train;
      explorationMax := ExplorationStart;
      memory := [];
      weights := initWeights;
      targetWeights := initTargetWeights;
      lossHistory := [];
      fitCount := 0;
    }

    /** `get_action`: `coin` is the uniform draw compared with the rate and
        `sampled` the action drawn from the action space. */
    method GetAction(state: real, coin: real, sampled: int) returns (action: int)
      requires Valid() && 0 <= sampled < Environment.NumActions
      modifies this
      ensures Valid()
      ensures explorationMax == Decayed(old(explorationMax))
      ensures ExplorationMin <= explorationMax <= old(explorationMax)
      ensures coin < explorationMax ==> action == sampled
      ensures coin >= explorationMax ==> action == Argmax(net(weights, state))
      ensures 0 <= action < Environment.NumActions
      ensures memory == old(memory) && weights == old(weights) && targetWeights == old(targetWeights)
      ensures lossHistory == old(lossHistory) && fitCount == old(fitCount)
    {
      explorationMax := explorationMax * ExplorationDecay;
      explorationMax := if ExplorationMin > explorationMax then ExplorationMin else explorationMax;
      if coin < explorationMax {
        return sampled;
      }
      var qValues := net(weights, state);
      action := Argmax(qValues);
    }

    /** `remember`: append one transition to the bounded memory. */
    method Remember(state: real, action: int, reward: int, newState: real, done: bool)
      requires Valid() && 0 <= action < Environment.NumActions
      modifies this
      ensures Valid()
      ensures memory == Push(old(memory), Transition(state, action, reward, newState, done))
      ensures explorationMax == old(explorationMax) && weights == old(weights)
      ensures targetWeights == old(targetWeights)
      ensures lossHistory == old(lossHistory) && fitCount == old(fitCount)
    {
      memory := Push(memory, Transition(state, action, reward, newState, done));
    }

    /** `replay`: nothing happens below one batch of memory; otherwise one
        fit of the behaviour network on the Bellman targets of the sampled
        batch. `dumped` tells whether the loss history is dumped. */
    method Replay(picks: seq<nat>) returns (fitted: bool, dumped: bool)
      requires Valid()
      requires |memory| >= BatchSize ==> IsSample(picks, |memory|)
      modifies this
      ensures Valid()
      ensures fitted <==> |old(memory)| >= BatchSize
      ensures !fitted ==>
        weights == old(weights) && lossHistory == old(lossHistory) && fitCount == old(fitCount) && !dumped
      ensures fitted ==>
        var samples := Select(old(memory), picks);
        var result := train(old(weights), States(samples), Targets(net, old(targetWeights), samples));
        weights == result.0 && lossHistory == old(lossHistory) + [result.1] &&
        fitCount == old(fitCount) + 1 && dumped == (fitCount % DumpPeriod == 0)
      ensures memory == old(memory) && targetWeights == old(targetWeights)
      ensures explorationMax == old(explorationMax)
    {
      if |memory| < BatchSize {
        return false, false;
      }
      var samples := Select(memory, picks);
      var targets := BuildTargets(net, targetWeights, samples);
      assert targets == Targets(net, targetWeights, samples);
      var result := train(weights, States(samples), targets);
      weights := result.0;
      lossHistory := lossHistory + [result.1];
      fitCount := fitCount + 1;
      fitted := true;
      dumped := fitCount % DumpPeriod == 0;
    }

    /** `target_train`: blend every target weight toward the behaviour weight. */
    method TargetTrain()
      requires Valid()
      modifies this
      ensures Valid()
      ensures targetWeights == Blend(old(weights), old(targetWeights), Tau)
      ensures weights == old(weights) && memory == old(memory) && explorationMax == old(explorationMax)
      ensures lossHistory == old(lossHistory) && fitCount == old(fitCount)
    {
      var w := weights;
      var tw := targetWeights;
      for i := 0 to |tw|
        invariant |tw| == |targetWeights|
        invariant forall k :: 0 <= k < i ==> tw[k] == w[k] * Tau + targetWeights[k] * (1.0 - Tau)
        invariant forall k :: i <= k < |tw| ==> tw[k] == targetWeights[k]
      {
        tw := tw[i := w[i] * Tau + tw[i] * (1.0 - Tau)];
      }
      targetWeights := tw;
    }
  }
}
