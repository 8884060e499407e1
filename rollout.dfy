/**
 * One rollout: a genome drives the environment for at most MAX_STEPS steps,
 * stopping after the first step that reports `done`, and the rewards of the
 * steps taken are summed into the genome's fitness.
 *
 * The environment (the OpenAIGym wrapper around the Marvin simulation) is not
 * part of this model. It is represented by its hidden state, of a type `S`
 * chosen by the caller, together with two total functions: what it shows as
 * the current observation and what one step does with an action. The neural
 * network's forward pass (NeuralNet.getOutput) is a function of the weights
 * and the observation.
 */
module Rollout {

  type Weights = seq<real>
  type Observation = seq<real>
  type Action = seq<real>

  /** What the environment reports for one step (the `observation, reward,
      done, info` tuple without the opaque `info`), together with its new
      hidden state. */
  datatype Transition<S> = Transition(next: S, observation: Observation, reward: real, done: bool)

  /** The environment as the training loop uses it: `getObservation` and the
      pair `setAction` / `getAction`. */
  datatype Gym<!S> = Gym(observe: S -> Observation, step: (S, Action) -> Transition<S>)

  /** The forward pass of a genome: deterministic in its weights and the
      observation. */
  type Policy = (Weights, Observation) -> Action

  /** The number of iterations of `for _ in range(n)`: none when n <= 0. */
  function Budget(n: int): nat
  {
    if n > 0 then n else 0
  }

  /** The steps a genome with weights `w` takes from hidden state `s` and
      observation `obs` with `budget` iterations left: one more step while the
      budget lasts, and none after a step that reports `done`. */
  function Episode<S>(gym: Gym<S>, policy: Policy, w: Weights, s: S, obs: Observation, budget: nat): seq<Transition<S>>
    decreases budget
  {
    if budget == 0 then []
    else
      var t := gym.step(s, policy(w, obs));
      if t.done then [t] else [t] + Episode(gym, policy, w, t.next, t.observation, budget - 1)
  }

  /** The episode of one rollout, which starts from whatever the environment
      currently shows (the loop asks for the observation, it does not reset). */
  function RolloutEpisode<S>(gym: Gym<S>, policy: Policy, w: Weights, s: S, maxSteps: int): seq<Transition<S>>
  {
    Episode(gym, policy, w, s, gym.observe(s), Budget(maxSteps))
  }

  /** The sum of the rewards of the steps taken. */
  function TotalReward<S>(steps: seq<Transition<S>>): real
  {
    if steps == [] then 0.0 else steps[0].reward + TotalReward(steps[1..])
  }

  /** The hidden state the environment is left in after the steps taken. */
  function FinalState<S>(s: S, steps: seq<Transition<S>>): S
  {
    if steps == [] then s else steps[|steps| - 1].next
  }

  /** What a rollout with `budget` iterations left yields, computed step by
      step: the rewards of the steps taken, summed, and the hidden state after
      the last one. */
  function Play<S>(gym: Gym<S>, policy: Policy, w: Weights, s: S, obs: Observation, budget: nat): (real, S)
    decreases budget
  {
    if budget == 0 then (0.0, s)
    else
      var t := gym.step(s, policy(w, obs));
      if t.done then (t.reward, t.next)
      else
        var (rest, last) := Play(gym, policy, w, t.next, t.observation, budget - 1);
        (t.reward + rest, last)
  }

  /** The fitness a genome earns from the state the environment is in, and
      the state it leaves the environment in. */
  function Outcome<S>(gym: Gym<S>, policy: Policy, w: Weights, s: S, maxSteps: int): (real, S)
  {
    Play(gym, policy, w, s, gym.observe(s), Budget(maxSteps))
  }

  /** The step-by-step outcome agrees with the episode: its fitness is the
      summed reward of the episode's steps and its state the one after the
      episode's last step. */
  lemma {:induction false} PlayIsEpisode<S>(gym: Gym<S>, policy: Policy, w: Weights, s: S, obs: Observation, budget: nat)
    ensures var ep := Episode(gym, policy, w, s, obs, budget);
      Play(gym, policy, w, s, obs, budget) == (TotalReward(ep), FinalState(s, ep))
    decreases budget
  {
    if budget > 0 {
      var t := gym.step(s, policy(w, obs));
      if !t.done {
        var rest := Episode(gym, policy, w, t.next, t.observation, budget - 1);
        PlayIsEpisode(gym, policy, w, t.next, t.observation, budget - 1);
        assert ([t] + rest)[1..] == rest;
      }
    }
  }

  /** The same, for a whole rollout. */
  lemma OutcomeIsEpisode<S>(gym: Gym<S>, policy: Policy, w: Weights, s: S, maxSteps: int)
    ensures var ep := RolloutEpisode(gym, policy, w, s, maxSteps);
      Outcome(gym, policy, w, s, maxSteps) == (TotalReward(ep), FinalState(s, ep))
  {
    PlayIsEpisode(gym, policy, w, s, gym.observe(s), Budget(maxSteps));
  }

  /** The shape of every episode: it never exceeds the step cap, only its
      last step may report `done`, and it ends before the cap only because
      its last step reported `done`. */
  lemma {:induction false} EpisodeShape<S>(gym: Gym<S>, policy: Policy, w: Weights, s: S, obs: Observation, budget: nat)
    ensures var ep := Episode(gym, policy, w, s, obs, budget);
      && |ep| <= budget
      && (forall k :: 0 <= k < |ep| - 1 ==> !ep[k].done)
      && (|ep| < budget ==> |ep| > 0 && ep[|ep| - 1].done)
    decreases budget
  {
    if budget > 0 {
      var t := gym.step(s, policy(w, obs));
      if !t.done {
        var rest := Episode(gym, policy, w, t.next, t.observation, budget - 1);
        EpisodeShape(gym, policy, w, t.next, t.observation, budget - 1);
        assert Episode(gym, policy, w, s, obs, budget) == [t] + rest;
        assert forall k :: 1 <= k < |rest| + 1 ==> ([t] + rest)[k] == rest[k - 1];
      }
    }
  }

  /** An environment that never reports `done` during the episode is stepped
      exactly as many times as the cap allows. */
  lemma NeverDoneRunsToCap<S>(gym: Gym<S>, policy: Policy, w: Weights, s: S, obs: Observation, budget: nat)
    requires var ep := Episode(gym, policy, w, s, obs, budget);
      forall k :: 0 <= k < |ep| ==> !ep[k].done
    ensures |Episode(gym, policy, w, s, obs, budget)| == budget
  {
    EpisodeShape(gym, policy, w, s, obs, budget);
  }

  /** With a step cap that is not positive the genome takes no step: its
      fitness is 0 and the environment is left as it was. */
  lemma ZeroStepCap<S>(gym: Gym<S>, policy: Policy, w: Weights, s: S, maxSteps: int)
    requires maxSteps <= 0
    ensures RolloutEpisode(gym, policy, w, s, maxSteps) == []
    ensures Outcome(gym, policy, w, s, maxSteps) == (0.0, s)
  {
  }

  /** A first step that reports `done` ends the rollout: the episode is that
      one step and the fitness its reward alone. */
  lemma DoneOnFirstStep<S>(gym: Gym<S>, policy: Policy, w: Weights, s: S, maxSteps: int)
    requires maxSteps >= 1
    requires gym.step(s, policy(w, gym.observe(s))).done
    ensures var first := gym.step(s, policy(w, gym.observe(s)));
      && RolloutEpisode(gym, policy, w, s, maxSteps) == [first]
      && Outcome(gym, policy, w, s, maxSteps) == (first.reward, first.next)
  {
  }

  /**
   * The inner loop of the training controller for one genome: read the
   * current observation, then up to `maxSteps` times ask the genome for an
   * action, step the environment and add the reward, leaving the loop right
   * after the first step that reports `done`. Returns the fitness and the
   * hidden state the environment is left in.
   */
  method Run<S>(gym: Gym<S>, policy: Policy, w: Weights, s0: S, maxSteps: int) returns (total: real, s: S)
    ensures (total, s) == Outcome(gym, policy, w, s0, maxSteps)
  {
    var budget := Budget(maxSteps);
    s := s0;
    var observation := gym.observe(s0);
    total := 0.0;
    var step := 0;
    while step < budget
      invariant 0 <= step <= budget
      invariant var (rest, last) := Play(gym, policy, w, s, observation, budget - step);
        (total + rest, last) == Outcome(gym, policy, w, s0, maxSteps)
    {
      var t := gym.step(s, policy(w, observation));
      total := total + t.reward;
      s, observation := t.next, t.observation;
      step := step + 1;
      if t.done {
        break;
      }
    }
  }
}
