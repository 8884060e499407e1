/**
 * The generation loop of the training controller: every genome of the
 * population is rolled out once, in order, and its fitness written onto it;
 * the minimum, sum and maximum are folded as the genomes go by; a copy of
 * the first genome with the greatest fitness is appended to the archive of
 * best networks; the population is then bred from that copy.
 */
module Training {
  import opened Wrappers
  import opened Rollout
  import opened Fitness
  import opened Settings

  /** A genome: its weights never change once it exists (breeding makes new
      genomes), while its fitness is overwritten by every rollout. */
  class NeuralNet {
    const weights: Weights
    var fitness: real

    constructor (weights: Weights, fitness: real)
      ensures this.weights == weights && this.fitness == fitness
    {
      this.weights := weights;
      this.fitness := fitness;
    }

    /** `copy.deepcopy`: a new genome, equal now and independent afterwards. */
    method Copy() returns (c: NeuralNet)
      ensures fresh(c) && c.weights == weights && c.fitness == fitness
    {
      c := new NeuralNet(weights, fitness);
    }
  }

  /** The weights of child number `i` bred from the elite's weights at the
      given mutation rate, standing for Population.createNewGeneration and
      its random draws. */
  type Breeder = (Weights, real, nat) -> Weights

  /** The statistics reported for one generation. */
  datatype GenStats = GenStats(minFit: real, avgFit: real, maxFit: real)

  /** Why a generation cannot finish: the division of the fitness sum by an
      empty population, or breeding from no best genome. */
  datatype Fault = EmptyPopulation | NoWinner

  datatype GenResult = Next(stats: GenStats) | Stopped(fault: Fault)

  /** How the generation loop ends: after all its iterations, or at the
      first generation that cannot finish. */
  datatype Finish = Completed | Aborted(generation: nat, fault: Fault)

  /** No network occurs twice: each one differs from all those before it. */
  ghost predicate Distinct(nets: seq<NeuralNet?>)
  {
    nets == [] || (Distinct(nets[..|nets| - 1]) && nets[|nets| - 1] !in nets[..|nets| - 1])
  }

  /** A network of a distinct sequence differs from every one before it. */
  lemma {:induction false} DistinctBefore(nets: seq<NeuralNet?>, i: nat)
    requires Distinct(nets) && i < |nets|
    ensures forall k :: 0 <= k < i ==> nets[k] != nets[i]
  {
    var n := |nets| - 1;
    if i < n {
      DistinctBefore(nets[..n], i);
    }
  }

  /** Appending a network that is not there yet keeps a sequence distinct. */
  lemma DistinctAppend(nets: seq<NeuralNet?>, nn: NeuralNet?)
    requires Distinct(nets) && nn !in nets
    ensures Distinct(nets + [nn])
  {
    assert (nets + [nn])[..|nets|] == nets;
  }

  /** The state of a training run: the environment, the population and the
      archive of the best network of each generation. */
  class Trainer<S> {
    const gym: Gym<S>
    const policy: Policy
    const config: Config
    var env: S
    var population: seq<NeuralNet>
    var archive: seq<NeuralNet?>

    /** Genomes of the population are distinct objects, and no archived
        network is one of them. */
    ghost predicate Valid()
      reads this
    {
      && Distinct(population)
      && (forall k :: 0 <= k < |archive| ==> archive[k] !in population)
    }

    /** A population of POPULATION_COUNT new genomes (none when the count is
        not positive), genome `i` with weights `spawn(i)`, and an empty
        archive. */
    constructor (gym: Gym<S>, policy: Policy, config: Config, env: S, spawn: nat -> Weights)
      ensures Valid()
      ensures this.gym == gym && this.policy == policy && this.config == config && this.env == env
      ensures |population| == Budget(config.populationCount)
      ensures forall i :: 0 <= i < |population| ==> fresh(population[i]) && population[i].weights == spawn(i)
      ensures archive == []
    {
      var nets: seq<NeuralNet> := [];
      while |nets| < Budget(config.populationCount)
        invariant |nets| <= Budget(config.populationCount)
        invariant Distinct(nets)
        invariant forall i :: 0 <= i < |nets| ==> fresh(nets[i]) && nets[i].weights == spawn(i)
      {
        var nn := new NeuralNet(spawn(|nets|), 0.0);
        DistinctAppend(nets, nn);
        nets := nets + [nn];
      }
      this.gym := gym;
      this.policy := policy;
      this.config := config;
      this.env := env;
      population := nets;
      archive := [];
    }

    /** The fitnesses the genomes `nets` earn when rolled out one after the
        other from hidden state `s`, each from the state the previous one
        left, together with the state after the last one. */
    ghost function Scores(nets: seq<NeuralNet>, s: S): (r: (seq<real>, S))
      ensures |r.0| == |nets|
    {
      if nets == [] then ([], s)
      else
        var (fits, mid) := Scores(nets[..|nets| - 1], s);
        var (x, after) := Outcome(gym, policy, nets[|nets| - 1].weights, mid, config.maxSteps);
        (fits + [x], after)
    }

    /** One more genome: its rollout starts where the others left the
        environment. */
    lemma ScoresNext(nets: seq<NeuralNet>, i: nat, s: S)
      requires i < |nets|
      ensures var (fits, mid) := Scores(nets[..i], s);
        var (x, after) := Outcome(gym, policy, nets[i].weights, mid, config.maxSteps);
        Scores(nets[..i + 1], s) == (fits + [x], after)
    {
      assert nets[..i + 1][..i] == nets[..i];
    }

    /** Genome k's fitness is what its own rollout earns, starting in the
        state the rollouts of genomes 0 to k - 1 left behind. */
    lemma {:induction false} ScoresInOrder(nets: seq<NeuralNet>, s: S, k: nat)
      requires k < |nets|
      ensures var before := Scores(nets[..k], s).1;
        Scores(nets, s).0[k] == Outcome(gym, policy, nets[k].weights, before, config.maxSteps).0
    {
      var n := |nets| - 1;
      if k < n {
        ScoresInOrder(nets[..n], s, k);
        assert nets[..n][..k] == nets[..k];
      } else {
        assert nets[..k] == nets[..n];
      }
    }

    /** The rollout of genome i from hidden state `state`: its reward
        becomes its fitness, and no other genome changes. */
    method ScoreGenome(nets: seq<NeuralNet>, i: nat, state: S) returns (s: S)
      requires i < |nets| && Distinct(nets)
      modifies nets[i]
      ensures (nets[i].fitness, s) == Outcome(gym, policy, nets[i].weights, state, config.maxSteps)
      ensures forall k :: 0 <= k < i ==> nets[k].fitness == old(nets[k].fitness)
    {
      DistinctBefore(nets, i);
      var total;
      total, s := Run(gym, policy, nets[i].weights, state, config.maxSteps);
      nets[i].fitness := total;
    }

    /** Genome i's fitness folded into the accumulators: the minimum, the
        sum, and, only on a fitness above the maximum so far, the new maximum
        and a copy of the genome, which is none of the genomes `nets`. */
    static method Record(nn: NeuralNet, i: nat, minFit: real, sumFit: real, maxFit: real, best: NeuralNet?,
                         ghost bestIndex: Option<nat>, ghost nets: seq<NeuralNet>)
      returns (lo: real, sum: real, hi: real, top: NeuralNet?, ghost topIndex: Option<nat>)
      ensures Tally(lo, sum, hi, topIndex) == Step(Tally(minFit, sumFit, maxFit, bestIndex), i, nn.fitness)
      ensures nn.fitness > maxFit ==> top != null && top !in nets && top.weights == nn.weights && top.fitness == nn.fitness
      ensures nn.fitness <= maxFit ==> top == best
      ensures forall k :: 0 <= k < |nets| ==> nets[k].fitness == old(nets[k].fitness)
      ensures best != null ==> best.fitness == old(best.fitness)
    {
      lo, sum, hi, top, topIndex := minFit, sumFit, maxFit, best, bestIndex;
      if nn.fitness < lo {
        lo := nn.fitness;
      }
      sum := sum + nn.fitness;
      if nn.fitness > hi {
        hi := nn.fitness;
        top := nn.Copy();
        topIndex := Some(i);
      }
    }

    /**
     * One iteration of the loop over the population, for genome i: roll it
     * out from the state the earlier genomes left, write its fitness onto
     * it, and fold that fitness into the accumulators. The loop's invariant
     * for genomes 0 to i - 1 holds for genomes 0 to i afterwards.
     */
    method EvaluateOne(nets: seq<NeuralNet>, i: nat, ghost start: S, state: S, ghost fits: seq<real>,
                       minFit: real, sumFit: real, maxFit: real, best: NeuralNet?, ghost bestIndex: Option<nat>)
      returns (after: S, ghost fits': seq<real>, lo: real, sum: real, hi: real, top: NeuralNet?, ghost topIndex: Option<nat>)
      requires Distinct(nets) && i < |nets| && |fits| == i
      requires Scores(nets[..i], start) == (fits, state)
      requires Tally(minFit, sumFit, maxFit, bestIndex) == Fold(fits)
      requires best == null <==> bestIndex.None?
      requires forall k :: 0 <= k < i ==> nets[k].fitness == fits[k]
      requires best != null ==> best !in nets && best.weights == nets[bestIndex.value].weights && best.fitness == fits[bestIndex.value]
      modifies nets[i]
      ensures |fits'| == i + 1 && Scores(nets[..i + 1], start) == (fits', after)
      ensures forall k :: 0 <= k < i + 1 ==> nets[k].fitness == fits'[k]
      ensures Tally(lo, sum, hi, topIndex) == Fold(fits')
      ensures top == null <==> topIndex.None?
      ensures top != null ==> top !in nets && top.weights == nets[topIndex.value].weights && top.fitness == fits'[topIndex.value]
    {
      ScoresNext(nets, i, start);
      label before:
      after := ScoreGenome(nets, i, state);
      var nn := nets[i];
      FoldAppend(fits, nn.fitness);
      label scored:
      lo, sum, hi, top, topIndex := Record(nn, i, minFit, sumFit, maxFit, best, bestIndex, nets);
      fits' := fits + [nn.fitness];
      forall k | 0 <= k < i + 1
        ensures nets[k].fitness == fits'[k]
      {
        assert nets[k].fitness == old@scored(nets[k].fitness);
        if k < i {
          assert old@scored(nets[k].fitness) == old@before(nets[k].fitness);
        }
      }
    }

    /**
     * One pass over the population: roll every genome out in order, write
     * its fitness onto it, and fold the minimum, the sum and the maximum,
     * copying a genome whenever its fitness beats the maximum so far.
     */
    method EvaluateGeneration() returns (minFit: real, sumFit: real, maxFit: real, best: NeuralNet?, ghost fits: seq<real>)
      requires Valid()
      modifies this, population
      ensures Valid() && population == old(population) && archive == old(archive)
      ensures (fits, env) == Scores(population, old(env))
      ensures forall i :: 0 <= i < |population| ==> population[i].fitness == fits[i]
      ensures Fold(fits) == Tally(minFit, sumFit, maxFit, Fold(fits).best)
      ensures best == null <==> Fold(fits).best.None?
      ensures best != null ==>
        && best !in population
        && best.weights == population[Fold(fits).best.value].weights
        && best.fitness == fits[Fold(fits).best.value]
    {
      var nets := population;
      ghost var start := env;
      fits := [];
      ghost var bestIndex: Option<nat> := None;
      var state := env;
      minFit, sumFit, maxFit, best := MinSentinel, 0.0, MaxSentinel, null;
      var i := 0;
      while i < |nets|
        modifies nets
        invariant 0 <= i <= |nets| && |fits| == i
        invariant Scores(nets[..i], start) == (fits, state)
        invariant forall k :: 0 <= k < i ==> nets[k].fitness == fits[k]
        invariant Tally(minFit, sumFit, maxFit, bestIndex) == Fold(fits)
        invariant best == null <==> bestIndex.None?
        invariant best != null ==> best !in nets && best.weights == nets[bestIndex.value].weights && best.fitness == fits[bestIndex.value]
      {
        state, fits, minFit, sumFit, maxFit, best, bestIndex := EvaluateOne(nets, i, start, state, fits, minFit, sumFit, maxFit, best, bestIndex);
        i := i + 1;
      }
      assert nets[..i] == nets;
      env := state;
    }

    /** `createNewGeneration`: the population is replaced by as many new
        genomes, each bred from the elite. */
    method Reproduce(elite: NeuralNet, breed: Breeder)
      requires Valid()
      modifies this`population
      ensures Valid()
      ensures |population| == |old(population)|
      ensures forall i :: 0 <= i < |population| ==>
        && fresh(population[i])
        && population[i].weights == breed(elite.weights, config.mutationRate, i)
        && population[i].fitness == 0.0
    {
      var size := |population|;
      var children: seq<NeuralNet> := [];
      while |children| < size
        invariant |children| <= size
        invariant Distinct(children)
        invariant forall i :: 0 <= i < |children| ==>
          && fresh(children[i])
          && children[i].weights == breed(elite.weights, config.mutationRate, i)
          && children[i].fitness == 0.0
      {
        var child := new NeuralNet(breed(elite.weights, config.mutationRate, |children|), 0.0);
        DistinctAppend(children, child);
        children := children + [child];
      }
      population := children;
    }

    /**
     * One iteration of the generation loop: evaluate the population, append
     * the copy of its best genome (or None) to the archive, divide the sum
     * by the population count, and breed the next population from the copy.
     */
    method RunGeneration(breed: Breeder) returns (r: GenResult, ghost fits: seq<real>)
      requires Valid()
      modifies this, population
      ensures Valid()
      ensures (fits, env) == Scores(old(population), old(env))
      ensures forall i :: 0 <= i < |old(population)| ==> old(population)[i].fitness == fits[i]
      ensures |archive| == |old(archive)| + 1 && archive == old(archive) + [archive[|old(archive)|]]
      ensures forall k :: 0 <= k < |old(archive)| && archive[k] != null ==> archive[k].fitness == old(archive[k].fitness)
      ensures var best := archive[|old(archive)|];
        && (best == null <==> Fold(fits).best.None?)
        && (best != null ==>
              && best.weights == old(population)[Fold(fits).best.value].weights
              && best.fitness == fits[Fold(fits).best.value] == Fold(fits).maxFit)
      ensures r == Stopped(EmptyPopulation) <==> fits == []
      ensures r == Stopped(NoWinner) <==> fits != [] && Fold(fits).best.None?
      ensures r.Next? ==> r.stats == GenStats(Fold(fits).minFit, Fold(fits).sumFit / |fits| as real, Fold(fits).maxFit)
      ensures |population| == |old(population)|
      ensures r.Next? ==>
        var best := archive[|old(archive)|];
        && best != null
        && forall i :: 0 <= i < |population| ==>
             fresh(population[i]) && population[i].weights == breed(best.weights, config.mutationRate, i)
      ensures r.Stopped? ==> population == old(population) && archive[|old(archive)|] == null
      ensures r == Stopped(EmptyPopulation) <==> |old(population)| == 0
      ensures r == Stopped(NoWinner) ==>
        |population| > 0 && forall i :: 0 <= i < |population| ==> population[i].fitness <= MaxSentinel
    {
      var minFit, sumFit, maxFit, best;
      minFit, sumFit, maxFit, best, fits := EvaluateGeneration();
      FoldBestIsFirstMaximum(fits);
      archive := archive + [best];
      if |population| == 0 {
        r := Stopped(EmptyPopulation);
        return;
      }
      var avgFit := sumFit / |population| as real;
      if best == null {
        r := Stopped(NoWinner);
        return;
      }
      Reproduce(best, breed);
      r := Next(GenStats(minFit, avgFit, maxFit));
    }

    /**
     * The generation loop: MAX_GENERATIONS iterations of RunGeneration,
     * collecting the reported statistics, stopping at the first generation
     * that cannot finish. `lastStart` is the environment state that
     * generation's rollouts started from.
     */
    method Train(breed: Breeder) returns (finish: Finish, reports: seq<GenStats>, ghost lastStart: S)
      requires Valid()
      modifies this, population
      ensures Valid()
      ensures |population| == |old(population)|
      ensures |archive| >= |old(archive)| && archive[..|old(archive)|] == old(archive)
      ensures forall k :: 0 <= k < |old(archive)| && archive[k] != null ==> archive[k].fitness == old(archive[k].fitness)
      ensures finish.Completed? ==> |reports| == Budget(config.maxGenerations) && |archive| == |old(archive)| + |reports|
      ensures finish.Aborted? ==>
        && finish.generation < Budget(config.maxGenerations)
        && |reports| == finish.generation && |archive| == |old(archive)| + |reports| + 1
      ensures forall k :: |old(archive)| <= k < |old(archive)| + |reports| ==>
        archive[k] != null && archive[k].fitness == reports[k - |old(archive)|].maxFit
      ensures finish.Aborted? ==>
        && archive[|archive| - 1] == null
        && (finish.fault == EmptyPopulation <==> |population| == 0)
      ensures |old(population)| == 0 && Budget(config.maxGenerations) > 0 ==> finish == Aborted(0, EmptyPopulation)
      ensures finish.Aborted? && finish.fault == NoWinner ==>
        |population| > 0 && forall i :: 0 <= i < |population| ==> population[i].fitness <= MaxSentinel
      ensures finish.Aborted? ==>
        && env == Scores(population, lastStart).1
        && forall i :: 0 <= i < |population| ==> population[i].fitness == Scores(population, lastStart).0[i]
      ensures finish.Aborted? && finish.generation == 0 ==> population == old(population) && lastStart == old(env)
    {
      reports := [];
      var generation := 0;
      while generation < Budget(config.maxGenerations)
        invariant Valid()
        invariant generation == |reports| <= Budget(config.maxGenerations)
        invariant |population| == |old(population)|
        invariant |old(population)| == 0 ==> generation == 0
        invariant population == old(population) || forall i :: 0 <= i < |population| ==> fresh(population[i])
        invariant |archive| == |old(archive)| + generation && archive[..|old(archive)|] == old(archive)
        invariant forall k :: 0 <= k < |old(archive)| && archive[k] != null ==> archive[k].fitness == old(archive[k].fitness)
        invariant forall k :: |old(archive)| <= k < |old(archive)| + |reports| ==>
          archive[k] != null && archive[k].fitness == reports[k - |old(archive)|].maxFit
        invariant generation == 0 ==> population == old(population) && env == old(env)
      {
        ghost var s0 := env;
        ghost var fits;
        var r;
        r, fits := RunGeneration(breed);
        if r.Stopped? {
          return Aborted(generation, r.fault), reports, s0;
        }
        reports := reports + [r.stats];
        generation := generation + 1;
      }
      finish := Completed;
      lastStart := env;
    }
  }
}
