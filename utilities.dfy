/** The configuration record and the Solution capability set that the agent-based
    search engine is generic over (src/utilities/parameters.rs, src/utilities/solution.rs).
    Every f64 of the source is a `real` here and every usize or u64 a `nat`. */
module Utilities {

  /** The cooling schedule variants. Every variant with an initial temperature cools as
      initial_temperature / iteration_number; Triki's `delta` is carried but never read. */
  datatype TemperatureSchedule =
    | Triki(initialTemperature: real, delta: real)
    | Cauchy(initialTemperature: real)
    | Geometric(initialTemperature: real)
    | None

  /** The operational-learning variants; the engine only dispatches on them. (The
      Multinomial vector is `initial_learning_matrix` in the source; Dafny needs a
      distinct name because the Markov field of that name is a matrix.) */
  datatype OperationalLearning =
    | Multinomial(learningRate: real, initialLearningWeights: seq<real>)
    | Markov(learningRate: real, initialLearningMatrix: seq<seq<real>>)
    | HiddenMarkov(learningRate: real, initialTransitionMatrix: seq<seq<real>>,
                   initialEmissionMatrix: seq<seq<real>>)
    | None

  /** The communication-style variants; no team operation consults them. */
  datatype CommunicationStyle =
    | ConstantFrequency(frequency: real)
    | RegularInterval(interval: nat)
    | ScheduledMeetings(times: seq<nat>)
    | None

  /** The configuration shared, read-only, by every cohort, team and agent. */
  datatype Parameters = Parameters(
    numberOfTeams: nat,
    numberOfAgents: nat,
    numberOfIterations: nat,
    temperatureSchedule: TemperatureSchedule,
    operationalLearning: OperationalLearning,
    communication: CommunicationStyle,
    selfBias: real,
    qualityBias: real,
    satisficingFraction: real)

  /** The Solution capability set of a problem type S: the quality scalar projection and
      the move operator. `applyMoveOperator(s, moveIndex, temperature, draws)` is the
      solution `s` after the move, where `draws` are the random numbers the operator
      consumes. The problem types order and subtract solutions by quality scalar alone. */
  datatype Problem<!S> = Problem(
    qualityScalar: S -> real,
    applyMoveOperator: (S, nat, real, seq<real>) -> S)

  /** `a > b` in the Solution ordering: a strictly higher quality scalar. */
  predicate Better<S>(p: Problem<S>, a: S, b: S) {
    p.qualityScalar(a) > p.qualityScalar(b)
  }

  /** `a - b` for solutions: the difference of their quality scalars. */
  function Delta<S>(p: Problem<S>, a: S, b: S): real {
    p.qualityScalar(a) - p.qualityScalar(b)
  }

  /** The random numbers one agent consumes in one `iterate`: those drawn by the move
      operator, and whether the unit draw falls below `exp(delta / temperature)` when that
      probability lies in (0, 1]. */
  datatype Draws = Draws(moveDraws: seq<real>, acceptWorse: bool)
}
