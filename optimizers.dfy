/**
 * The bookkeeping every optimizer shares (src/optimizers/traits.rs): the
 * global best position, kept by a strict-improvement rule, and the export
 * of the recorded trajectory, the run summary and the run configuration as
 * the values handed to the JSON serialiser.
 */
module Optimizers {
  import opened Wrappers
  import opened ParamValues
  import opened PsoParticle

  /**
   * What the optimizer uses of the benchmark `Problem`: its name, its
   * dimension, its objective (lower is better) and its evaluation counter
   * `cnt()`. The memoizing `f` and the uncached `f_no_memo` are assumed to
   * compute the same pure function, differing only in the cache and the
   * counter, so both are `fitness` here.
   */
  datatype Problem = Problem(name: string, dim: nat, fitness: seq<real> -> real, evaluations: nat)

  /** One recorded iteration: the global best fitness and a copy of every particle. */
  type LogEntry = (real, seq<ParticleRecord>)

  /** The JSON object `{"fitness", "vel", "pos"}` exported for one particle. */
  datatype ParticleExport = ParticleExport(fitness: real, vel: seq<real>, pos: seq<real>)

  /** The JSON object `{"global_best_fitness", "particles"}` exported for one iteration. */
  datatype IterationExport = IterationExport(globalBestFitness: real, particles: seq<ParticleExport>)

  /** The JSON object `{"global_best_fitness": [...], "evaluation_count"}` of the summary. */
  datatype SummaryExport = SummaryExport(globalBestFitness: seq<real>, evaluationCount: nat)

  /**
   * The JSON object `{"problem": {"name", "dim"}, "method": {"name", "parameters"}}`
   * of the configuration; `optimizer` holds the object under "method".
   */
  datatype ProblemConfig = ProblemConfig(name: string, dim: nat)
  datatype MethodConfig = MethodConfig(name: string, parameters: map<string, JsonNumber>)
  datatype ConfigExport = ConfigExport(problem: ProblemConfig, optimizer: MethodConfig)

  // ---------------------------------------------------------------------
  // The global-best rule as a function, and what repeated updates give
  // ---------------------------------------------------------------------

  /**
   * The global best after offering `pos` against the current best `gb`:
   * the better of the two, and on a tie the one already held.
   */
  function Improved(f: seq<real> -> real, gb: seq<real>, pos: seq<real>): (r: seq<real>)
    ensures f(r) <= f(gb) && f(r) <= f(pos)
    ensures r == gb || r == pos
    ensures f(pos) == f(gb) ==> r == gb
  {
    if f(pos) < f(gb) then pos else gb
  }

  /** The global best after offering the candidates one after the other, starting from `gb`. */
  function BestAfter(f: seq<real> -> real, gb: seq<real>, cands: seq<seq<real>>): seq<real>
    decreases |cands|
  {
    if cands == [] then gb
    else Improved(f, BestAfter(f, gb, cands[..|cands| - 1]), cands[|cands| - 1])
  }

  /**
   * One more `update_global_best_pos` call after a series of them is one
   * more step of `BestAfter`, so `BestAfter` is what a series of calls
   * leaves in the global best.
   */
  lemma BestAfterStep(f: seq<real> -> real, gb: seq<real>, cands: seq<seq<real>>, pos: seq<real>)
    ensures BestAfter(f, gb, cands + [pos]) == Improved(f, BestAfter(f, gb, cands), pos)
  {
    assert (cands + [pos])[..|cands|] == cands;
  }

  /**
   * `r` is the lowest-fitness position among `gb` and `cands`, and the
   * earliest one on ties: `gb` itself unless some candidate is strictly
   * better, otherwise the first candidate of the lowest fitness.
   */
  ghost predicate IsEarliestMinimum(f: seq<real> -> real, gb: seq<real>, cands: seq<seq<real>>, r: seq<real>) {
    (r == gb && forall i :: 0 <= i < |cands| ==> f(gb) <= f(cands[i]))
    || (exists k :: 0 <= k < |cands| && r == cands[k] && f(r) < f(gb)
         && (forall j :: 0 <= j < k ==> f(r) < f(cands[j]))
         && (forall j :: k < j < |cands| ==> f(r) <= f(cands[j])))
  }

  /** Repeated updates keep a position at least as good as the start and as every candidate. */
  lemma {:induction false} BestAfterIsLowest(f: seq<real> -> real, gb: seq<real>, cands: seq<seq<real>>)
    ensures f(BestAfter(f, gb, cands)) <= f(gb)
    ensures forall i :: 0 <= i < |cands| ==> f(BestAfter(f, gb, cands)) <= f(cands[i])
    decreases |cands|
  {
    if cands != [] {
      var init := cands[..|cands| - 1];
      BestAfterIsLowest(f, gb, init);
      forall i | 0 <= i < |cands| - 1
        ensures f(BestAfter(f, gb, cands)) <= f(cands[i])
      {
        assert cands[i] == init[i];
      }
    }
  }

  /** The fitness of the global best never rises from one update to a later one. */
  lemma {:induction false} BestAfterMonotone(f: seq<real> -> real, gb: seq<real>, cands: seq<seq<real>>, i: nat, j: nat)
    requires i <= j <= |cands|
    ensures f(BestAfter(f, gb, cands[..j])) <= f(BestAfter(f, gb, cands[..i]))
    decreases j - i
  {
    if i < j {
      BestAfterMonotone(f, gb, cands, i, j - 1);
      assert cands[..j][..j - 1] == cands[..j - 1];
    }
  }

  /** Repeated updates end on the earliest lowest-fitness position offered. */
  lemma {:induction false} BestAfterEarliest(f: seq<real> -> real, gb: seq<real>, cands: seq<seq<real>>)
    ensures IsEarliestMinimum(f, gb, cands, BestAfter(f, gb, cands))
    decreases |cands|
  {
    if cands != [] {
      var n := |cands|;
      var init := cands[..n - 1];
      var prev := BestAfter(f, gb, init);
      var c := cands[n - 1];
      BestAfterEarliest(f, gb, init);
      BestAfterIsLowest(f, gb, init);
      assert forall i :: 0 <= i < n - 1 ==> cands[i] == init[i];
      if f(c) < f(prev) {
        assert BestAfter(f, gb, cands) == c;
        assert forall j :: 0 <= j < n - 1 ==> f(c) < f(cands[j]);
      } else {
        assert BestAfter(f, gb, cands) == prev;
        if prev == gb && forall i :: 0 <= i < n - 1 ==> f(gb) <= f(init[i]) {
          assert forall i :: 0 <= i < n ==> f(gb) <= f(cands[i]);
        } else {
          var k :| 0 <= k < n - 1 && prev == init[k] && f(prev) < f(gb)
                   && (forall j :: 0 <= j < k ==> f(prev) < f(init[j]))
                   && (forall j :: k < j < n - 1 ==> f(prev) <= f(init[j]));
          assert prev == cands[k];
          assert forall j :: k < j < n ==> f(prev) <= f(cands[j]);
        }
      }
    }
  }

  /** The earliest minimum is a single position, so `BestAfter` is characterised by it. */
  lemma EarliestMinimumUnique(f: seq<real> -> real, gb: seq<real>, cands: seq<seq<real>>, r: seq<real>, s: seq<real>)
    requires IsEarliestMinimum(f, gb, cands, r)
    requires IsEarliestMinimum(f, gb, cands, s)
    ensures r == s
  {
  }

  /** The state an optimizer shares with every other kind: the parts traits.rs reads and writes. */
  class Optimizer {
    const name: string
    var problem: Problem
    var particles: seq<Particle>
    var globalBest: Option<seq<real>>
    var data: seq<LogEntry>

    /**
     * The state after a run. Building the swarm and recording the log
     * (`run`, `init`, `add_data`) belong to the concrete optimizers and
     * are not part of this model, so the recorded state is given.
     */
    constructor (name: string, problem: Problem, particles: seq<Particle>,
                 globalBest: Option<seq<real>>, data: seq<LogEntry>)
      ensures this.name == name && this.particles == particles
      ensures this.globalBest == globalBest && this.data == data
      ensures this.problem.name == problem.name && this.problem.dim == problem.dim
      ensures this.problem.fitness == problem.fitness && this.problem.evaluations == problem.evaluations
    {
      this.name := name;
      this.problem := problem;
      this.particles := particles;
      this.globalBest := globalBest;
      this.data := data;
    }

    function Fitness(pos: seq<real>): real
      reads this
    {
      problem.fitness(pos)
    }

    function OptionGlobalBestPos(): Option<seq<real>>
      reads this
    {
      globalBest
    }

    /**
     * `global_best_pos()`, declared without a body; modelled as an unwrap,
     * like the particle's `best_pos()`, so a global best must already exist.
     */
    function GlobalBestPos(): (gb: seq<real>)
      reads this
      requires OptionGlobalBestPos().Some?
      ensures OptionGlobalBestPos() == Some(gb)
    {
      globalBest.value
    }

    /** `set_global_best_pos`, declared without a body; modelled as a plain assignment. */
    method SetGlobalBestPos(pos: seq<real>)
      modifies this`globalBest
      ensures OptionGlobalBestPos() == Some(pos)
    {
      globalBest := Some(pos);
    }

    /**
     * `update_global_best_pos`: take `pos` as the global best only when it
     * is strictly fitter; on a tie or a worse candidate keep the old one.
     * Nothing but the global best changes.
     */
    method UpdateGlobalBestPos(pos: seq<real>)
      requires OptionGlobalBestPos().Some?
      modifies this`globalBest
      ensures OptionGlobalBestPos().Some?
      ensures GlobalBestPos() == Improved(problem.fitness, old(GlobalBestPos()), pos)
      ensures Fitness(GlobalBestPos()) <= old(Fitness(GlobalBestPos()))
      ensures Fitness(GlobalBestPos()) <= Fitness(pos)
      ensures Fitness(pos) < old(Fitness(GlobalBestPos())) ==> GlobalBestPos() == pos
      ensures Fitness(pos) >= old(Fitness(GlobalBestPos())) ==> globalBest == old(globalBest)
      ensures particles == old(particles) && data == old(data)
    {
      var gb := GlobalBestPos();
      if Fitness(pos) < Fitness(gb) {
        SetGlobalBestPos(pos);
      }
    }

    /**
     * `save_data`: one record per recorded iteration, in order, each with
     * that iteration's global best fitness and one entry per particle of
     * its snapshot, in order, with the particle's fitness (evaluated
     * without the cache), velocity and position.
     */
    method SaveData() returns (records: seq<IterationExport>)
      ensures |records| == |data|
      ensures forall t :: 0 <= t < |data| ==>
        records[t].globalBestFitness == data[t].0 && |records[t].particles| == |data[t].1|
      ensures forall t, i :: 0 <= t < |data| && 0 <= i < |data[t].1| ==>
        records[t].particles[i] == ParticleExport(Fitness(data[t].1[i].pos), data[t].1[i].vel, data[t].1[i].pos)
    {
      records := [];
      for t := 0 to |data|
        invariant |records| == t
        invariant forall s :: 0 <= s < t ==>
          records[s].globalBestFitness == data[s].0 && |records[s].particles| == |data[s].1|
        invariant forall s, i :: 0 <= s < t && 0 <= i < |data[s].1| ==>
          records[s].particles[i] == ParticleExport(Fitness(data[s].1[i].pos), data[s].1[i].vel, data[s].1[i].pos)
      {
        var snapshot := data[t].1;
        var iterData: seq<ParticleExport> := [];
        for i := 0 to |snapshot|
          invariant |iterData| == i
          invariant forall j :: 0 <= j < i ==>
            iterData[j] == ParticleExport(Fitness(snapshot[j].pos), snapshot[j].vel, snapshot[j].pos)
        {
          var pos := snapshot[i].pos;
          iterData := iterData + [ParticleExport(Fitness(pos), snapshot[i].vel, pos)];
        }
        records := records + [IterationExport(data[t].0, iterData)];
      }
    }

    /**
     * `save_config`: the problem's name and dimension under "problem", the
     * optimizer's name and every given parameter, serialised, under "method".
     */
    function SaveConfig(parameters: map<string, ParamValue>): (config: ConfigExport)
      reads this
      ensures config.problem.name == problem.name && config.problem.dim == problem.dim
      ensures config.optimizer.name == name
      ensures config.optimizer.parameters.Keys == parameters.Keys
      ensures forall k :: k in parameters ==> Deserialize(config.optimizer.parameters[k]) == parameters[k]
    {
      var serialised := map k | k in parameters :: Serialize(parameters[k]);
      assert forall k :: k in parameters ==> Deserialize(serialised[k]) == parameters[k] by {
        forall k | k in parameters {
          SerializeRoundTrip(parameters[k]);
        }
      }
      ConfigExport(ProblemConfig(problem.name, problem.dim), MethodConfig(name, serialised))
    }

    /**
     * `save_summary`: the global best fitness of every recorded iteration,
     * in order, and the problem's evaluation count.
     */
    method SaveSummary() returns (summary: SummaryExport)
      ensures |summary.globalBestFitness| == |data|
      ensures forall t :: 0 <= t < |data| ==> summary.globalBestFitness[t] == data[t].0
      ensures summary.evaluationCount == problem.evaluations
    {
      var progress: seq<real> := [];
      for t := 0 to |data|
        invariant |progress| == t
        invariant forall s :: 0 <= s < t ==> progress[s] == data[s].0
      {
        progress := progress + [data[t].0];
      }
      summary := SummaryExport(progress, problem.evaluations);
    }
  }
}
