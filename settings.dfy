/**
 * The five training settings that live in module globals, their default
 * values, and how the command-line flags override them (`global_values`).
 */
module Settings {
  import opened Wrappers

  /** The values the flag parser reports. An unset name is absent; an unset
      number is 0 (0.0 for the mutation rate). */
  datatype Flags = Flags(name: Option<string>, move: int, gen: int, pop: int, rate: real)

  /** GAME_NAME, MAX_STEPS, MAX_GENERATIONS, POPULATION_COUNT, MUTATION_RATE. */
  datatype Config = Config(gameName: string, maxSteps: int, maxGenerations: int, populationCount: int, mutationRate: real)

  /** Flags that leave every setting alone. */
  const NoFlags := Flags(None, 0, 0, 0, 0.0)

  /** The settings as the module body leaves them at import time: the
      declared values, then the debug reassignments of the step cap, the
      generation count and the population size. */
  const Defaults := Config("Marvin-v0", 1000, 5, 2, 0.042)

  /** Each setting takes its flag's value when that flag is set (a name that
      is not None, a number that is not zero) and keeps its value otherwise. */
  function Override(c: Config, f: Flags): Config
  {
    Config(
      if f.name.Some? then f.name.value else c.gameName,
      if f.move != 0 then f.move else c.maxSteps,
      if f.gen != 0 then f.gen else c.maxGenerations,
      if f.pop != 0 then f.pop else c.populationCount,
      if f.rate != 0.0 then f.rate else c.mutationRate)
  }

  /** Setting by setting: a set flag wins, an unset one keeps the old value. */
  lemma OverrideSettingwise(c: Config, f: Flags)
    ensures var r := Override(c, f);
      && (f.name.Some? ==> r.gameName == f.name.value) && (f.name.None? ==> r.gameName == c.gameName)
      && (f.move != 0 ==> r.maxSteps == f.move) && (f.move == 0 ==> r.maxSteps == c.maxSteps)
      && (f.gen != 0 ==> r.maxGenerations == f.gen) && (f.gen == 0 ==> r.maxGenerations == c.maxGenerations)
      && (f.pop != 0 ==> r.populationCount == f.pop) && (f.pop == 0 ==> r.populationCount == c.populationCount)
      && (f.rate != 0.0 ==> r.mutationRate == f.rate) && (f.rate == 0.0 ==> r.mutationRate == c.mutationRate)
  {
  }

  /** Applying the same flags twice changes nothing more. */
  lemma OverrideIdempotent(c: Config, f: Flags)
    ensures Override(Override(c, f), f) == Override(c, f)
  {
  }

  /** Flags none of which is set leave any settings exactly as they were. */
  lemma NoFlagsKeepSettings(c: Config)
    ensures Override(c, NoFlags) == c
  {
  }

  /** The module globals holding the settings. */
  class Globals {
    var gameName: string
    var maxSteps: int
    var maxGenerations: int
    var populationCount: int
    var mutationRate: real

    function Current(): Config
      reads this
    {
      Config(gameName, maxSteps, maxGenerations, populationCount, mutationRate)
    }

    /** The module body: the declared values, then the debug reassignments. */
    constructor ()
      ensures Current() == Defaults
    {
      gameName := "Marvin-v0";
      maxSteps := 1000;
      maxGenerations := 100;
      populationCount := 420;
      mutationRate := 0.042;
      new;
      maxSteps := 1000;
      maxGenerations := 5;
      populationCount := 2;
    }

    /** `global_values`: reassign each global whose flag is set. */
    method GlobalValues(flg: Flags)
      modifies this
      ensures Current() == Override(old(Current()), flg)
    {
      if flg.name.Some? {
        gameName := flg.name.value;
      }
      if flg.move != 0 {
        maxSteps := flg.move;
      }
      if flg.gen != 0 {
        maxGenerations := flg.gen;
      }
      if flg.pop != 0 {
        populationCount := flg.pop;
      }
      if flg.rate != 0.0 {
        mutationRate := flg.rate;
      }
    }
  }

  /** The start of `main`: the settings the module body leaves, overridden
      by the flags when there are any. Absent flags and flags none of which
      is set both leave the defaults, debug values included. */
  method Configure(flg: Option<Flags>) returns (g: Globals)
    ensures fresh(g)
    ensures g.Current() == if flg.Some? then Override(Defaults, flg.value) else Defaults
    ensures flg == None || flg == Some(NoFlags) ==> g.Current() == Defaults
  {
    g := new Globals();
    if flg.Some? {
      g.GlobalValues(flg.value);
      NoFlagsKeepSettings(Defaults);
    }
  }
}
