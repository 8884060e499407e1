# Walking Marvin: the training loop, modelled in Dafny

Walking Marvin trains a population of neural networks ("genomes") to walk a
simulated robot by neuro-evolution. The core of `marvin/marvin.py`, modelled
here, has three parts:

- `global_values` overrides five training settings with command-line flags.
- The rollout evaluator runs one genome's episode.
- The generation loop of `main` does the following for each generation:
  - it rolls out every genome in population order and writes its fitness onto it;
  - it folds the minimum, the sum and the maximum of the fitnesses, starting from the sentinels 1000000 and -1000000;
  - it deep-copies every genome that beats the running maximum; the copy kept at the end is of the first genome with the greatest fitness;
  - it appends that copy (or `None`) to the archive of best networks, divides the sum by the population count, and breeds the next population from the copy.

The project has four modules:

- `Settings` (settings.dfy) holds the `Config` record and its `Override` function. It also has a `Globals` class whose fields are the module globals. Its constructor runs the module body, debug reassignments included. `GlobalValues` is the flag override.
- `Rollout` (rollout.dfy) models one rollout. The environment is its hidden state `S` plus two total functions: what it shows and what one step does. The genome's forward pass is a function of the weights and the observation.
  - `Episode` is the trace of steps a rollout takes.
  - `Play` is the step-by-step outcome, and `Outcome` is `Play` over a whole rollout.
  - `Run` is the loop itself, proved equal to `Outcome`.
- `Fitness` (fitness.dfy) is the fold of the statistics over one generation's fitnesses: `Step`, `Fold`, and the reference sum `Sum`. Lemmas say what the fold computes.
- `Training` (training.dfy) holds the classes:
  - `NeuralNet` has constant weights and a mutable `fitness`.
  - `Trainer` holds the environment state, the population and the archive, with one method per level of the loop: genome, generation, training run.
  - `Scores` is the fitness each genome earns when the genomes are rolled out one after another. Each rollout starts from the environment state the previous one left; see the assumption about `getObservation` under "## Left out".

In these points the model follows what the code does:

- A rollout starts from the environment's current observation, and `main` calls no reset. Under the assumption about `getObservation` stated under "## Left out", evaluations within a generation depend on one another through the environment state.
- No check rejects a population size or step cap that is not positive. `range(n)` then runs no iteration, and an empty population makes the average a division by zero. The model reports that case as the `EmptyPopulation` fault.
- The archive receives `None` when no fitness exceeds -1000000. Breeding from `None` is assumed to fail, and the model reports it as the `NoWinner` fault.

## Model

| member | source | states |
|---|---|---|
| Settings.Globals.constructor | marvin/marvin.py:91-93 | After the module body the settings are the declared values of lines 46-51 with the debug reassignments applied: "Marvin-v0", 1000 steps, 5 generations, 2 genomes, rate 0.042 |
| Settings.Globals.GlobalValues | marvin/marvin.py:53-73 | The new settings are exactly `Override` of the old settings by the flags |
| Settings.OverrideSettingwise | marvin/marvin.py:63-72 | For each of the five settings: a set flag (name not None, number not zero) gives the flag's value, and an unset flag keeps the old value |
| Settings.OverrideIdempotent | marvin/marvin.py:63-72 | Applying the same flags a second time changes nothing |
| Settings.NoFlagsKeepSettings | marvin/marvin.py:63-72 | Flags none of which is set leave any settings unchanged |
| Settings.Override | marvin/marvin.py:63-72 | No contract of its own. Its definition models the five `if` statements of `global_values`: a name that is not None and a number that is not zero replace the setting |
| Settings.Configure | marvin/marvin.py:91-101 | Lines 100-101 of `main`: the settings are the defaults (debug values included) overridden by the flags when a flags object is given, and exactly the defaults when the flags object sets nothing. The `None` case only skips the override; `main(None)` fails later (see "## Left out") |
| Rollout.Episode | marvin/marvin.py:125-132 | No contract of its own. Its definition models the step loop as a trace: one step per iteration while the cap lasts, the action from the forward pass on the latest observation, and no step after one reporting `done` |
| Rollout.Play | marvin/marvin.py:125-132 | No contract of its own. Its definition models the same loop as the running reward and the environment state it leaves |
| Rollout.Outcome | marvin/marvin.py:122-133 | No contract of its own. Its definition models one rollout: `Play` from the environment's current observation with `range(MAX_STEPS)` iterations, giving the genome's fitness |
| Rollout.Run | marvin/marvin.py:122-133 | The loop's summed reward and final environment state are exactly `Outcome`: one step per iteration up to the cap, stopping after the first `done` |
| Rollout.PlayIsEpisode | marvin/marvin.py:125-132 | The step-by-step outcome equals the summed rewards of the episode's steps, and the state after its last step |
| Rollout.OutcomeIsEpisode | marvin/marvin.py:122-133 | The same for a whole rollout, which starts from the current observation without a reset |
| Rollout.EpisodeShape | marvin/marvin.py:125-132 | An episode never exceeds the step cap, only its last step may report `done`, and it ends before the cap only because its last step reported `done` |
| Rollout.NeverDoneRunsToCap | marvin/marvin.py:125-132 | An environment that never reports `done` is stepped exactly as many times as the cap |
| Rollout.ZeroStepCap | marvin/marvin.py:125 | A cap that is not positive takes no step, gives fitness 0 and leaves the environment unchanged |
| Rollout.DoneOnFirstStep | marvin/marvin.py:129-132 | A first step reporting `done` ends the rollout: the episode is that step and the fitness its reward |
| Fitness.Step | marvin/marvin.py:134-138 | No contract of its own. Its definition models one iteration of the statistics: the minimum, the added fitness, and a new maximum and best genome only on a strictly greater fitness |
| Fitness.Fold | marvin/marvin.py:116-138 | Folds `Step` over a generation's fitnesses from the sentinels of lines 117-118. Its contract states that the chosen genome, when there is one, is an index into the population |
| Fitness.FoldMinIsMinimum | marvin/marvin.py:134 | Starting from 1000000 (line 117), `min_fit` is at most the sentinel and every fitness, and equals the sentinel or one of them |
| Fitness.FoldMaxIsMaximum | marvin/marvin.py:136-137 | Starting from -1000000 (line 118), `max_fit` is at least the sentinel and every fitness, and equals the sentinel or one of them |
| Fitness.FoldBestIsFirstMaximum | marvin/marvin.py:136-138 | The chosen genome is the first in population order whose fitness equals `max_fit`: all before it are strictly lower and none after is higher. There is none exactly when no fitness exceeds -1000000 |
| Fitness.FoldSumIsSum | marvin/marvin.py:135 | The running sum is the sum of all fitnesses |
| Fitness.AverageWithinExtremes | marvin/marvin.py:141 | For a non-empty population the reported average lies between the reported minimum and maximum |
| Training.NeuralNet.Copy | marvin/marvin.py:138 | The copy is a new object with the same weights and fitness |
| Training.Trainer.constructor | marvin/marvin.py:103-106 | The population has POPULATION_COUNT distinct new genomes (none when the count is not positive), and the archive is empty |
| Training.Trainer.Scores | marvin/marvin.py:121-133 | Gives one fitness per genome (its contract). Its definition models the inner loops: genomes rolled out in population order, each from the environment state the previous rollout left |
| Training.Trainer.ScoresInOrder | marvin/marvin.py:121-133 | Genome k's fitness is what its own rollout earns from the state the rollouts of genomes 0 to k - 1 left |
| Training.Trainer.ScoreGenome | marvin/marvin.py:122-133 | Genome i's fitness and the new environment state are its rollout's `Outcome`, and no genome before it changes |
| Training.Trainer.Record | marvin/marvin.py:134-138 | The accumulators advance by one `Step` of the fold. Only a fitness strictly above the maximum installs a new best, which is a copy of the genome and not one of the genomes |
| Training.Trainer.EvaluateOne | marvin/marvin.py:121-138 | One iteration carries the loop invariant for genomes 0 to i - 1 over to genomes 0 to i: scores, fitnesses written, fold, best copy |
| Training.Trainer.EvaluateGeneration | marvin/marvin.py:116-138 | Every genome's fitness is its score in population order, and the environment ends where the last rollout left it. The accumulators are the fold of the scores, and the best is a copy of the fold's chosen genome, or null when the fold chose none |
| Training.Trainer.Reproduce | marvin/marvin.py:142 | The population is replaced by as many new distinct genomes, each bred from the elite |
| Training.Trainer.RunGeneration | marvin/marvin.py:116-142 | Exactly one entry is appended to the archive: the copy of the first maximum, with fitness `max_fit`, or null. Older entries are unchanged. The result is `EmptyPopulation` exactly for an empty population and `NoWinner` exactly when no fitness exceeds -1000000, and when it stops the new entry is null and the population is unchanged; after a `NoWinner` stop the population is non-empty and no fitness in it exceeds -1000000. Otherwise the statistics are the fold's minimum, sum divided by the population count, and maximum, and the next population is bred from the copy |
| Training.Trainer.Train | marvin/marvin.py:115-142 | After MAX_GENERATIONS generations the archive has grown by one entry per generation. Each report's `max_fit` is the fitness of that generation's archived copy, and earlier archive entries keep their fitness. When it stops early, the last archive entry is null and the fault is `EmptyPopulation` exactly when the population is empty. An empty population with at least one generation to run stops at generation 0 with `EmptyPopulation`, and a `NoWinner` stop leaves a non-empty population in which no fitness exceeds -1000000. A stop always follows a real rollout of the population it leaves: every genome's fitness, and the environment state, are `Scores` of that population from the state the stopping generation started in; a stop at generation 0 is of the original population from the original state. Which generations are rolled out, and what they report, is stated one generation at a time by RunGeneration (see "## Left out") |

## Left out

- The OpenAI Gym backend, the Marvin environment and rendering (lines 102, 126-127). They are external simulation and display, so the environment is a hidden state with two total functions.
- `NeuralNet.getOutput` (line 128) lives in an unseen library. It is a function parameter `Policy` of the weights and the observation.
- `Population.createNewGeneration` and its random mutation (line 142) live in an unseen library. They are a `Breeder` parameter that gives child i's weights. Children start with fitness 0.0, an arbitrary stand-in; no contract depends on it.
- `Population(...)` and the initial random weights (line 104) are a `spawn` parameter. `Population` is assumed to create `max(0, POPULATION_COUNT)` genomes, and `getPopulationCount()` (line 141) is assumed to equal the population's length.
- `Generation().getBestNeuralNets()` (lines 103, 106) is assumed to start empty.
- `print_stats` and log-file creation (lines 75-88, 143) are console and file I/O. The statistics are returned as reports instead.
- `MarvinFlags` parsing (lines 42, 156-157) is an unseen library. Flags are plain values.
- `main(None)`: the guard of line 100 lets `None` through, but line 109 then calls `flg.getFlagLoad()` on it, which raises before any training. `Configure` models the `None` case only up to line 101, and the training loop is modelled only for a flags object. The `flg.getFlagWalk()` call of line 126 is left out with rendering.
- Pickle load and save, and the replay and video paths (lines 109-112, 145-149), are persistence I/O that calls undefined names.
- Floating-point rounding: rewards, fitnesses and the average are reals. Python's mixing of integer and float sentinels is not modelled.
- Division by a zero population count raises in Python, and `createNewGeneration(None)` is assumed to raise. The model stops the training loop with a `Fault` instead, after appending the archive entry as the code does.
- `getObservation` (line 123) lives in an unseen library. It is assumed to read the environment's observation without changing its state. An adapter that resets the environment there is the special case of a `Gym` whose hidden state returns to the start at the end of each episode.
- `createNewGeneration` is assumed not to modify the elite and not to reuse it as a member of the new population; `Reproduce` makes every child a new genome.
- `Breeder` takes the elite's weights, the mutation rate and the child's index, and no generation number or random seed. Two generations with equal elite weights therefore breed identical children in the model, whereas the source draws new random mutations each time.
- Training.Trainer.EvaluateGeneration: states that the best copy is not one of the genomes. It does not state that the copy is newly allocated.
- Training.Trainer.Train: states the archive growth, that each report's `max_fit` is the fitness of that generation's archive entry, and what holds when the loop stops early, including that the stopping generation's population was rolled out. It does not state that the archive entries are copies of the genomes of the generation they were archived in, that each report holds that generation's rollout statistics, or that each generation is bred from the previous one's archived copy. A loop that appended made-up networks and matching reports for the generations that complete would satisfy Train's contract. RunGeneration states all three facts for one generation, and Train runs it once per generation.
