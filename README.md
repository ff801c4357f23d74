# CISAT agent-based search engine, modelled in Dafny

CISAT-rs simulates design teams as simulated annealers. This project models its
agent-based engine (`src/abm/`), which has three nested levels:

- **Agent** (`agents.dfy`, module `Agents`): one annealer.
  - It is built with counter 1, temperature 0, and current and best-so-far set to the
    same initial solution.
  - Each `iterate` takes these steps in order:
    - it recomputes the temperature as `initial_temperature / iteration_number`;
    - it builds a candidate by applying move operator 0 at temperature 1.0 to a clone of
      current;
    - it accepts a strictly better candidate. A candidate that is not better is accepted
      only when a unit draw falls below `exp(delta / temperature)`, which never happens at
      temperature 0;
    - it runs a no-op learning hook;
    - it replaces best-so-far only on strict improvement;
    - it increments the counter.
- **Team** (`teams.dfy`, module `Teams`): a fixed vector of agents. `iterate` advances each
  agent once, in index order. `solve` runs `number_of_iterations` rounds.
  `pull_best_solution` folds over the agents' bests.
- **Cohort** (`cohorts.dfy`, module `Cohorts`): a vector of teams. `solve` and `iterate`
  fan out to every team. `get_best_solution_so_far` takes the maximum over the team bests
  and returns its quality scalar.

`utilities.dfy` (module `Utilities`) holds the `Parameters` record and its enumerations.
It also holds the Solution capability set the engine is generic over, as the record
`Problem<S>`, which has two fields:
- `qualityScalar`, the quality scalar projection;
- `applyMoveOperator`, the move operator.

Solutions are ordered and subtracted by quality scalar alone, as the problem types do.

Agents, teams and cohorts are classes whose methods update fields in place. Each class has
a ghost view, and each method is proved against a pure specification of the same
operation:
- `Step` and `Run` for agents;
- `TeamStep` and `TeamRun` for teams;
- `CohortBestQuality` for the cohort query.

The lemmas prove what the engine promises about those specifications.

Randomness is not modelled. Each source of it becomes an input instead:
- the random numbers the move operator consumes are a `seq<real>`;
- the outcome of the Metropolis test `random_unit_draw() < exp(delta / temperature)` is a
  boolean `acceptWorse`. The model decides the two cases where no draw is needed:
  - at temperature 0 the exponent is -infinity or NaN, so the test always fails;
  - a positive exponent gives a probability above 1, so the test always passes;
- the initial solution each agent generates is a constructor argument.

These inputs are packed in `Draws`. A team takes one `Draws` per agent per round.

Where the code and its documentation disagree, the model follows the code:
- `pull_best_solution` keeps the *least* agent best, although its comment promises the
  best. This is a finding (see below).
- `Cohort::new` builds `number_of_agents` teams, not `number_of_teams`.
- `get_best_solution_so_far` on a cohort only reads teams `0 .. number_of_teams`, and it
  panics unless `1 <= number_of_teams <= number_of_agents`. The command-line front end
  with its default flags (10 teams, 3 agents; `src/main.rs:21-29`) builds 3 teams. Its
  first query, after one round (`src/main.rs:170-171`), reads past the end of the team
  list. Both divergences are findings.
- The cohort's "parallel" `solve` runs the teams sequentially, in list order.
- Triki's `delta` is never read. Every schedule with an initial temperature cools as
  `initial / k`.
- `current_solution_quality` and `last_operation` are written only at construction. They
  are `const` fields here.

## Model

| member | source | states |
|---|---|---|
| Agents.TemperatureCools | src/abm/agent.rs:110-130 | for a positive initial temperature under Triki, Cauchy or Geometric, the temperature after k iterations is positive and strictly below the temperature after any j < k (k >= 1, so never a division by zero) |
| Agents.NewAgentIsValid | src/abm/agent.rs:42-54 | a freshly built agent satisfies the agent invariant (counter >= 1, scheduled temperature, cached best quality equals best's quality, current <= best) |
| Agents.StepFacts | src/abm/agent.rs:56-84 | one `iterate` keeps the agent invariant and raises the counter by 1. It sets the temperature to the schedule's value for the old counter. A strictly better candidate is always accepted. A candidate that is not better has delta <= 0. It is accepted exactly when the acceptance test passes, and never at temperature 0; otherwise current is unchanged. Best is replaced exactly when the new current is strictly better than it, and then by that current. Best quality never drops |
| Agents.Run | src/abm/agent.rs:83 | after any number of `iterate` calls the counter has risen by exactly that number |
| Agents.RunPreservesValid | src/abm/agent.rs:48-50 | the agent invariant (current <= best, cached best quality agrees with best) holds after every sequence of iterations |
| Agents.RunBestMonotone | src/abm/agent.rs:77-80 | best quality after a run is at least best quality after any prefix of it |
| Agents.RunBestDominatesVisited | src/abm/agent.rs:64-80 | every solution the agent held as current at any point of a run is no better than its final best |
| Agents.RunBestWasVisited | src/abm/agent.rs:77-79 | the final best is the initial best or a solution that was current after one of the iterations |
| Agents.ColdAgentNeverWorsens | src/abm/agent.rs:64-72 | under the `None` schedule (temperature stays at the 0 set at line 47) or an initial temperature of 0, the current solution never gets worse over any run: the agent is a strict hill-climber |
| Agents.FreshAgentRun | src/abm/agent.rs:42-84 | a new agent iterated n times has counter 1 + n and temperature initial / n (0 under None or when n = 0). Its best is no worse than the initial solution and no worse than its current solution |
| Agents.Agent.constructor | src/abm/agent.rs:42-54 | `Agent::new`: counter 1, last operation 0, temperature 0, current and best both the initial solution, both cached qualities equal to its quality |
| Agents.Agent.Clone | src/abm/agent.rs:11 | the derived clone has every field equal to the original's |
| Agents.Agent.Iterate | src/abm/agent.rs:56-84 | the new state is `Step` of the old state and the draws, and the agent invariant is kept |
| Agents.Agent.GetBestSolutionSoFar | src/abm/agent.rs:86-88 | returns the best solution, whose quality is the cached best quality and is at least current's, and changes nothing |
| Agents.Agent.GenerateCandidateSolution | src/abm/agent.rs:93-97 | the candidate is move operator 0 applied at temperature 1.0 to current, and current is left unchanged |
| Agents.Agent.UpdateLearning | src/abm/agent.rs:100-107 | every learning variant leaves the agent unchanged |
| Agents.Agent.UpdateTemperature | src/abm/agent.rs:110-130 | Triki, Cauchy and Geometric set initial / counter, ignoring Triki's delta; None keeps the temperature; nothing else changes |
| Teams.TeamRun | src/abm/team.rs:32-36 | after r rounds every agent's counter has risen by exactly r and the roster length is unchanged |
| Teams.TeamRunIsAgentwise | src/abm/team.rs:39-43 | agents do not interact: after any rounds agent i is where iterating it alone on its own draws leaves it |
| Teams.TeamRunKeepsAgents | src/abm/team.rs:32-43 | after `solve` every agent is valid, its counter rose by the number of rounds, its temperature is the schedule's value for its iterations, and its best quality did not drop |
| Teams.TeamRunKeepsAgent | src/abm/team.rs:32-43 | the same for one agent: valid after the rounds, with best quality no lower than before |
| Teams.SmallestBestIsLeast | src/abm/team.rs:46-54 | the as-written reduction returns a member of the agent bests, no greater than any of them, and the earliest such member (every earlier best is strictly greater) |
| Teams.LargestBestIsGreatest | src/abm/team.rs:45 | the intended reduction returns a member of the agent bests, no less than any of them, and the earliest such member |
| Teams.PullBestMissesTheBest | src/abm/team.rs:49-50 | whenever two agent bests differ in quality, the as-written reduction returns a solution strictly worse than the team's best |
| Teams.PullBestExample | src/abm/team.rs:46-54 | with bests of quality 1 and 2 the as-written reduction returns 1, the intended one 2 |
| Teams.Team.constructor | src/abm/team.rs:20-29 | `Team::new` yields exactly `number_of_agents` distinct, valid agents, agent i in its initial state for solution i |
| Teams.Team.NewRoster | src/abm/team.rs:21-24 | a vector of `number_of_agents` clones of a first agent, then slots 1.. overwritten by freshly built agents. Slot 0 keeps the first agent, and every slot is distinct and valid |
| Teams.Team.CloneFill | src/abm/team.rs:21 | `vec![agent; n]` holds n distinct agents, all equal in value to the given one: n - 1 fresh clones, then the agent itself in the last slot |
| Teams.Team.Iterate | src/abm/team.rs:39-43 | every agent takes exactly one `Step` with its own draws, and the roster is unchanged |
| Teams.Team.Solve | src/abm/team.rs:32-36 | the agents end in `TeamRun` of their old states over `number_of_iterations` rounds |
| Teams.Team.PullBestSolution | src/abm/team.rs:46-54 | requires a non-empty roster, returns the as-written reduction over the agent bests, and changes nothing |
| Teams.Team.GetBestSolutionSoFar | src/abm/cohort.rs:58 | the team best the cohort reads is the intended reduction over the agent bests, and nothing changes |
| Cohorts.CohortBestQualityIsMax | src/abm/cohort.rs:57-63 | the reported scalar is the quality of one of the queried team bests, and at least the quality of every one of them |
| Cohorts.CohortBestQualityIsAgentMax | src/abm/cohort.rs:57-63 | corollary, resting on the team best being the maximum over its agents (see "Left out"): the reported scalar is the best quality of some agent of the queried teams and at least that of every agent of them |
| Cohorts.ReducesTeamBests | src/abm/cohort.rs:57-63 | collecting the first n team bests and taking the greatest gives the cohort's reported quality |
| Cohorts.Cohort.constructor | src/abm/cohort.rs:34-43 | `Cohort::new` keeps the parameters and builds `number_of_agents` valid teams with disjoint footprints, every agent in its initial state |
| Cohorts.Cohort.Intended | src/abm/cohort.rs:33-43 | the evidently intended `Cohort::new` builds `number_of_teams` valid teams with disjoint footprints, every agent in its initial state |
| Cohorts.Cohort.ViewsOfNewTeams | src/abm/cohort.rs:36-38 | every agent of freshly built teams is in its initial state |
| Cohorts.Cohort.NewTeams | src/abm/cohort.rs:36-38 | mapping `T::new` over a range of `count` indices yields that many fresh, valid, disjoint teams, each freshly built |
| Cohorts.Cohort.Iterate | src/abm/cohort.rs:51-53 | every team takes exactly one `TeamStep` with its own draws |
| Cohorts.Cohort.IterateTeam | src/abm/cohort.rs:52 | iterating team t steps that team and leaves every other team unchanged |
| Cohorts.Cohort.Solve | src/abm/cohort.rs:46-48 | every team ends in `TeamRun` of its old state, one team after another |
| Cohorts.Cohort.SolveTeam | src/abm/cohort.rs:47 | solving team t runs that team and leaves every other team unchanged |
| Cohorts.Cohort.GetBestSolutionSoFar | src/abm/cohort.rs:56-64 | requires `1 <= number_of_teams <=` the team count (otherwise the source panics) and returns the quality of the greatest team best among teams `0 .. number_of_teams` only |
| Cohorts.Cohort.GetBestSolutionOverAllTeams | src/abm/cohort.rs:55-64 | the evidently intended query: the quality of the greatest team best over the whole team list, for any non-empty list |
| Cohorts.Cohort.BestOfFirstTeams | src/abm/cohort.rs:57-63 | mapping, collecting and taking the maximum over teams `0 .. n` gives the quality of the greatest of their team bests |
| Cohorts.Cohort.TeamBestOf | src/abm/cohort.rs:58 | the value read for team t is that team's intended best |
| Cohorts.DefaultRunCannotBeQueried | src/main.rs:21-29 | with the front end's default flags, the cohort holds 3 teams after a round, fewer than the 10 the query reads, so the query's precondition fails |
| Cohorts.DefaultRunCanBeQueriedAsIntended | src/abm/cohort.rs:36 | the same run with the intended constructor holds 10 teams, and the query can be made |

## Left out

- The acceptance probability `exp(delta / temperature)` is not computed. A probability in (0, 1] is compared with the draw through a boolean input. Temperature 0 and a positive exponent are decided in the model, as described above.
- `random_unit_draw`, the move operator's own randomness and `generate_initial_solution` are inputs, not computations.
- Every `f64` is a `real`: NaN and infinite qualities and rounding are not modelled. Every `usize` and `u64` is a `nat`, so overflow of the iteration counter is not modelled.
- `NUMBER_OF_MOVE_OPERATORS`, `NUMBER_OF_OBJECTIVES` and `Solution::new` are not used by the engine and are not modelled.
- Teams.Team.GetBestSolutionSoFar: the body of the trait method the cohort calls is not in the repository. It is modelled as the documented maximum over the agent bests.
- Team communication (`CommunicationStyle`) and the self and quality biases and satisficing fraction are carried in `Parameters` but never read by the engine.
- `Parameters::load_from_file` is unimplemented in the source.
- Teams.Team.NewRoster: with `number_of_agents == 0` the source still builds one agent and drops it. The model builds none, because the dropped agent is never visible.
- Cohorts.Cohort.GetBestSolutionSoFar: also requires `number_of_agents >= 1`. For a cohort built by `Cohort::new` this follows from the team-count bound. For a cohort of empty teams the team method has no body in the repository to model.
- Cohorts.Cohort.GetBestSolutionSoFar: Rust's `max` returns the last of equal maxima and the model's reduction the first. The two have the same quality scalar, which is all the query returns.
- Concurrency: `rayon` is imported but unused, so there is none to model.
- `src/main.rs` (command line, progress bars, timing) is not part of this model beyond the configuration its default flags build. The Ackley and structure problems, the examples and the superseded copies `src/agent.rs` and `src/team.rs` are not part of this model.

## Findings

| source | as written | input that shows it | evidently intended | confidence | as-written member | corrected member |
|---|---|---|---|---|---|---|
| src/abm/team.rs:49 | `pull_best_solution` replaces the pick when the pick is greater than the next best, so it returns the least agent best | two agents whose bests have quality 1 and 2: the result has quality 1 | return the greatest agent best, as the comment at line 45 says | not executed | Teams.PullBestMissesTheBest | Teams.LargestBestIsGreatest |
| src/abm/cohort.rs:36 | `Cohort::new` builds one team per index in `0 .. number_of_agents` | the front end's default flags (10 teams, 3 agents): 3 teams are built | build `number_of_teams` teams | not executed | Cohorts.DefaultRunCannotBeQueried | Cohorts.Cohort.Intended |
| src/abm/cohort.rs:57 | the query reads teams `0 .. number_of_teams` from a list of `number_of_agents` teams and panics when that range runs past the end | the front end's default flags: the first query after one round reads index 3 of a 3-team list | reduce over the whole team list | not executed | Cohorts.Cohort.GetBestSolutionSoFar | Cohorts.Cohort.GetBestSolutionOverAllTeams |
