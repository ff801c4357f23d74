/** One simulated annealer (src/abm/agent.rs): the state an agent carries, the step
    `iterate` takes, and what repeated steps guarantee. */
module Agents {
  import opened Utilities

  /** The temperature `update_temperature` sets when the agent is at iteration number
      `iterationNumber`; under the `None` schedule it keeps `previous`. */
  function ScheduledTemperature(schedule: TemperatureSchedule, iterationNumber: nat, previous: real): real
    requires iterationNumber >= 1
  {
    match schedule
    case Triki(initialTemperature, _) => initialTemperature / iterationNumber as real
    case Cauchy(initialTemperature) => initialTemperature / iterationNumber as real
    case Geometric(initialTemperature) => initialTemperature / iterationNumber as real
    case None => previous
  }

  /** Closed form of the temperature an agent holds after `done` calls to `iterate`:
      0 before the first call and always under `None`, else initial / done. */
  function TemperatureAfter(schedule: TemperatureSchedule, done: nat): real {
    if done == 0 || schedule.None? then 0.0 else schedule.initialTemperature / done as real
  }

  /** For a positive initial temperature every cooling schedule strictly cools, and the
      temperature stays positive. */
  lemma TemperatureCools(schedule: TemperatureSchedule, j: nat, k: nat)
    requires !schedule.None? && schedule.initialTemperature > 0.0
    requires 1 <= j < k
    ensures 0.0 < TemperatureAfter(schedule, k) < TemperatureAfter(schedule, j)
  {
    var t0 := schedule.initialTemperature;
    var tj, tk := t0 / j as real, t0 / k as real;
    assert tj * j as real == t0 && tk * k as real == t0;
    assert 0.0 < tk;
    assert tk * j as real < tk * k as real;
    assert (tj - tk) * j as real > 0.0;
  }

  /** The fields of an agent that `iterate` changes. */
  datatype AgentState<S> = AgentState(
    iterationNumber: nat,
    temperature: real,
    currentSolution: S,
    bestQualitySoFar: real,
    bestSolutionSoFar: S)

  /** A new agent: counter 1, temperature 0, current and best both the initial solution. */
  function NewAgentState<S>(p: Problem<S>, initialSolution: S): AgentState<S> {
    AgentState(1, 0.0, initialSolution, p.qualityScalar(initialSolution), initialSolution)
  }

  /** What holds of an agent from construction on: the counter is at least 1, the
      temperature is the schedule's value for the iterations done, the cached best
      quality is the best solution's quality, and current is no better than best. */
  ghost predicate ValidState<S>(p: Problem<S>, params: Parameters, a: AgentState<S>) {
    && a.iterationNumber >= 1
    && a.temperature == TemperatureAfter(params.temperatureSchedule, a.iterationNumber - 1)
    && a.bestQualitySoFar == p.qualityScalar(a.bestSolutionSoFar)
    && p.qualityScalar(a.currentSolution) <= p.qualityScalar(a.bestSolutionSoFar)
  }

  lemma NewAgentIsValid<S>(p: Problem<S>, params: Parameters, initialSolution: S)
    ensures ValidState(p, params, NewAgentState(p, initialSolution))
  {
  }

  /** The candidate: a clone of current with move operator 0 applied at temperature 1.0. */
  function Candidate<S>(p: Problem<S>, current: S, moveDraws: seq<real>): S {
    p.applyMoveOperator(current, 0, 1.0, moveDraws)
  }

  /** Whether a candidate that is not better replaces current: the outcome of
      `random_unit_draw() < exp(delta / temperature)`, with the draw uniform on [0, 1].
      At temperature 0 the exponent is -infinity (probability 0) or NaN (delta 0), and no
      draw is below either. A positive exponent gives a probability above 1, which every
      draw is below. Otherwise the probability lies in (0, 1] and `acceptWorse` is the
      draw's outcome. */
  function AcceptsNotBetter(delta: real, temperature: real, acceptWorse: bool): bool {
    if temperature == 0.0 then false
    else if delta / temperature > 0.0 then true
    else acceptWorse
  }

  /** The Metropolis acceptance at the given temperature: a strictly better candidate
      always, one that is not better only as `AcceptsNotBetter` decides. */
  function Accepted<S>(p: Problem<S>, current: S, candidate: S, temperature: real, acceptWorse: bool): S {
    if Better(p, candidate, current) then candidate
    else if AcceptsNotBetter(Delta(p, candidate, current), temperature, acceptWorse) then candidate
    else current
  }

  /** One `iterate`: new temperature, candidate, acceptance, best-so-far update, counter. */
  function Step<S>(p: Problem<S>, params: Parameters, a: AgentState<S>, d: Draws): AgentState<S>
    requires a.iterationNumber >= 1
  {
    var temperature := ScheduledTemperature(params.temperatureSchedule, a.iterationNumber, a.temperature);
    var candidate := Candidate(p, a.currentSolution, d.moveDraws);
    var current := Accepted(p, a.currentSolution, candidate, temperature, d.acceptWorse);
    if Better(p, current, a.bestSolutionSoFar) then
      AgentState(a.iterationNumber + 1, temperature, current, p.qualityScalar(current), current)
    else
      AgentState(a.iterationNumber + 1, temperature, current, a.bestQualitySoFar, a.bestSolutionSoFar)
  }

  /** What one `iterate` promises, stated against the state before it. A candidate that
      is not better has a non-positive delta, and at temperature 0 it is never taken. */
  lemma StepFacts<S>(p: Problem<S>, params: Parameters, a: AgentState<S>, d: Draws)
    requires ValidState(p, params, a)
    ensures var r := Step(p, params, a, d);
      var candidate := Candidate(p, a.currentSolution, d.moveDraws);
      var delta := Delta(p, candidate, a.currentSolution);
      && ValidState(p, params, r)
      && r.iterationNumber == a.iterationNumber + 1
      && r.temperature == TemperatureAfter(params.temperatureSchedule, a.iterationNumber)
      && (Better(p, candidate, a.currentSolution) ==> r.currentSolution == candidate)
      && (!Better(p, candidate, a.currentSolution) ==>
            && delta <= 0.0
            && r.currentSolution ==
                 if AcceptsNotBetter(delta, r.temperature, d.acceptWorse) then candidate else a.currentSolution)
      && (!Better(p, candidate, a.currentSolution) && r.temperature == 0.0 ==>
            r.currentSolution == a.currentSolution)
      && (Better(p, r.currentSolution, a.bestSolutionSoFar) <==> r.bestSolutionSoFar != a.bestSolutionSoFar)
      && (r.bestSolutionSoFar == a.bestSolutionSoFar || r.bestSolutionSoFar == r.currentSolution)
      && p.qualityScalar(r.bestSolutionSoFar) >= p.qualityScalar(a.bestSolutionSoFar)
  {
  }

  /** `|ds|` successive calls to `iterate`; the counter rises by one per call. */
  function Run<S>(p: Problem<S>, params: Parameters, a: AgentState<S>, ds: seq<Draws>): (r: AgentState<S>)
    requires a.iterationNumber >= 1
    ensures r.iterationNumber == a.iterationNumber + |ds|
    decreases |ds|
  {
    if ds == [] then a
    else Step(p, params, Run(p, params, a, ds[..|ds| - 1]), ds[|ds| - 1])
  }

  /** Every call to `iterate` keeps the agent invariant. */
  lemma {:induction false} RunPreservesValid<S>(p: Problem<S>, params: Parameters, a: AgentState<S>, ds: seq<Draws>)
    requires ValidState(p, params, a)
    ensures ValidState(p, params, Run(p, params, a, ds))
    decreases |ds|
  {
    if ds != [] {
      RunPreservesValid(p, params, a, ds[..|ds| - 1]);
      StepFacts(p, params, Run(p, params, a, ds[..|ds| - 1]), ds[|ds| - 1]);
    }
  }

  /** The best quality found so far never decreases: after `ds` it is at least what it was
      after any prefix of `ds`. */
  lemma {:induction false} RunBestMonotone<S>(p: Problem<S>, params: Parameters, a: AgentState<S>, ds: seq<Draws>, k: nat)
    requires a.iterationNumber >= 1
    requires k <= |ds|
    ensures p.qualityScalar(Run(p, params, a, ds[..k]).bestSolutionSoFar)
         <= p.qualityScalar(Run(p, params, a, ds).bestSolutionSoFar)
    decreases |ds|
  {
    if k < |ds| {
      var prefix := ds[..|ds| - 1];
      assert prefix[..k] == ds[..k];
      RunBestMonotone(p, params, a, prefix, k);
    } else {
      assert ds[..k] == ds;
    }
  }

  /** The best solution so far is at least as good as every solution the agent has held
      as current, at every point of the run. */
  lemma RunBestDominatesVisited<S>(p: Problem<S>, params: Parameters, a: AgentState<S>, ds: seq<Draws>, k: nat)
    requires ValidState(p, params, a)
    requires k <= |ds|
    ensures p.qualityScalar(Run(p, params, a, ds[..k]).currentSolution)
         <= p.qualityScalar(Run(p, params, a, ds).bestSolutionSoFar)
  {
    RunPreservesValid(p, params, a, ds[..k]);
    RunBestMonotone(p, params, a, ds, k);
  }

  /** The best solution so far is never fabricated: it is the initial best or a solution
      the agent held as current after one of its iterations. */
  lemma {:induction false} RunBestWasVisited<S>(p: Problem<S>, params: Parameters, a: AgentState<S>, ds: seq<Draws>)
    requires a.iterationNumber >= 1
    ensures var best := Run(p, params, a, ds).bestSolutionSoFar;
      || best == a.bestSolutionSoFar
      || exists k :: 1 <= k <= |ds| && best == Run(p, params, a, ds[..k]).currentSolution
    decreases |ds|
  {
    if ds != [] {
      var n := |ds|;
      var prefix := ds[..n - 1];
      var b := Run(p, params, a, prefix);
      var best := Run(p, params, a, ds).bestSolutionSoFar;
      assert ds[..n] == ds;
      if best != b.bestSolutionSoFar {
        assert best == Run(p, params, a, ds[..n]).currentSolution;
      } else {
        RunBestWasVisited(p, params, a, prefix);
        if best != a.bestSolutionSoFar {
          var k :| 1 <= k <= |prefix| && best == Run(p, params, a, prefix[..k]).currentSolution;
          assert prefix[..k] == ds[..k];
        }
      }
    }
  }

  /** An agent built from `initialSolution` and iterated `|ds|` times: its counter is
      1 + |ds|, the temperature of its last iteration is initial / |ds| (0 under `None`),
      and its best is at least as good as the initial solution and as its current one. */
  lemma {:induction false} FreshAgentRun<S>(p: Problem<S>, params: Parameters, initialSolution: S, ds: seq<Draws>)
    ensures var r := Run(p, params, NewAgentState(p, initialSolution), ds);
      && r.iterationNumber == 1 + |ds|
      && r.temperature == TemperatureAfter(params.temperatureSchedule, |ds|)
      && r.bestQualitySoFar == p.qualityScalar(r.bestSolutionSoFar)
      && p.qualityScalar(r.bestSolutionSoFar) >= p.qualityScalar(initialSolution)
      && p.qualityScalar(r.currentSolution) <= p.qualityScalar(r.bestSolutionSoFar)
  {
    var a := NewAgentState(p, initialSolution);
    RunPreservesValid(p, params, a, ds);
    RunBestMonotone(p, params, a, ds, 0);
    assert ds[..0] == [];
  }

  /** A schedule under which the temperature is 0 at every iteration: `None`, which never
      updates the 0 set at construction, or an initial temperature of 0. */
  predicate ColdSchedule(schedule: TemperatureSchedule) {
    schedule.None? || schedule.initialTemperature == 0.0
  }

  /** Under a cold schedule the agent is a strict hill-climber: its current solution never
      gets worse, however the draws fall. */
  lemma {:induction false} ColdAgentNeverWorsens<S>(p: Problem<S>, params: Parameters, a: AgentState<S>, ds: seq<Draws>)
    requires ValidState(p, params, a) && ColdSchedule(params.temperatureSchedule)
    ensures p.qualityScalar(Run(p, params, a, ds).currentSolution) >= p.qualityScalar(a.currentSolution)
    decreases |ds|
  {
    if ds != [] {
      var prefix := ds[..|ds| - 1];
      var b := Run(p, params, a, prefix);
      ColdAgentNeverWorsens(p, params, a, prefix);
      RunPreservesValid(p, params, a, prefix);
      StepFacts(p, params, b, ds[|ds| - 1]);
    }
  }

  /** An agent. `lastOperation` and `currentSolutionQuality` are set at construction
      and never written again, hence constants. */
  class Agent<S> {
    const parameters: Parameters
    const problem: Problem<S>
    const lastOperation: nat
    const currentSolutionQuality: real
    var iterationNumber: nat
    var temperature: real
    var currentSolution: S
    var bestQualitySoFar: real
    var bestSolutionSoFar: S

    ghost function View(): AgentState<S>
      reads this
    {
      AgentState(iterationNumber, temperature, currentSolution, bestQualitySoFar, bestSolutionSoFar)
    }

    ghost predicate Valid()
      reads this
    {
      ValidState(problem, parameters, View())
    }

    /** `Agent::new`, with the solution the problem generated passed in. */
    constructor (parameters: Parameters, problem: Problem<S>, initialSolution: S)
      ensures Valid()
      ensures View() == NewAgentState(problem, initialSolution)
      ensures this.parameters == parameters && this.problem == problem
      ensures lastOperation == 0 && currentSolutionQuality == problem.qualityScalar(initialSolution)
    {
      this.parameters := parameters;
      this.problem := problem;
      iterationNumber := 1;
      lastOperation := 0;
      temperature := 0.0;
      currentSolutionQuality := problem.qualityScalar(initialSolution);
      bestQualitySoFar := problem.qualityScalar(initialSolution);
      bestSolutionSoFar := initialSolution;
      currentSolution := initialSolution;
    }

    /** The derived `Clone`: a new agent with every field equal to `other`'s. */
    constructor Clone(other: Agent<S>)
      ensures View() == other.View()
      ensures parameters == other.parameters && problem == other.problem
      ensures lastOperation == other.lastOperation
      ensures currentSolutionQuality == other.currentSolutionQuality
    {
      parameters := other.parameters;
      problem := other.problem;
      lastOperation := other.lastOperation;
      currentSolutionQuality := other.currentSolutionQuality;
      iterationNumber := other.iterationNumber;
      temperature := other.temperature;
      currentSolution := other.currentSolution;
      bestQualitySoFar := other.bestQualitySoFar;
      bestSolutionSoFar := other.bestSolutionSoFar;
    }

    method Iterate(draws: Draws)
      requires Valid()
      modifies this
      ensures Valid()
      ensures View() == Step(problem, parameters, old(View()), draws)
    {
      UpdateTemperature();

      var candidate := GenerateCandidateSolution(draws.moveDraws);

      if Better(problem, candidate, currentSolution) {
        currentSolution := candidate;
      } else {
        var delta := Delta(problem, candidate, currentSolution);
        if AcceptsNotBetter(delta, temperature, draws.acceptWorse) {
          currentSolution := candidate;
        }
      }

      UpdateLearning();

      if Better(problem, currentSolution, bestSolutionSoFar) {
        bestSolutionSoFar := currentSolution;
        bestQualitySoFar := problem.qualityScalar(bestSolutionSoFar);
      }

      iterationNumber := iterationNumber + 1;
      StepFacts(problem, parameters, old(View()), draws);
    }

    /** Returns a copy of the best solution so far; changes nothing. */
    method GetBestSolutionSoFar() returns (best: S)
      requires Valid()
      ensures best == bestSolutionSoFar
      ensures problem.qualityScalar(best) == bestQualitySoFar
      ensures problem.qualityScalar(currentSolution) <= problem.qualityScalar(best)
    {
      best := bestSolutionSoFar;
    }

    /** Clones current and applies move operator 0 at the fixed temperature 1.0, not the
        agent's temperature; current itself is left alone. */
    method GenerateCandidateSolution(moveDraws: seq<real>) returns (candidate: S)
      ensures candidate == problem.applyMoveOperator(currentSolution, 0, 1.0, moveDraws)
    {
      candidate := problem.applyMoveOperator(currentSolution, 0, 1.0, moveDraws);
    }

    /** The learning hook: every variant is a no-op. */
    method UpdateLearning()
      ensures View() == old(View())
    {
      match parameters.operationalLearning {
        case Multinomial(_, _) =>
        case Markov(_, _) =>
        case HiddenMarkov(_, _, _) =>
        case None =>
      }
    }

    method UpdateTemperature()
      requires iterationNumber >= 1
      modifies this`temperature
      ensures temperature == ScheduledTemperature(parameters.temperatureSchedule, iterationNumber, old(temperature))
    {
      match parameters.temperatureSchedule {
        case Triki(initialTemperature, _) =>
          temperature := initialTemperature / iterationNumber as real;
        case Cauchy(initialTemperature) =>
          temperature := initialTemperature / iterationNumber as real;
        case Geometric(initialTemperature) =>
          temperature := initialTemperature / iterationNumber as real;
        case None =>
      }
    }
  }
}
