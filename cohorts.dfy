/** A cohort of independent teams (src/abm/cohort.rs): construction, the fan-out of
    `solve` and `iterate` to every team, and the max-reduction over team bests. */
module Cohorts {
  import opened Utilities
  import opened Agents
  import opened Teams

  /** The quality `get_best_solution_so_far` reports for the given teams: the quality of
      the greatest of their team bests. */
  function CohortBestQuality<S>(p: Problem<S>, teams: seq<seq<AgentState<S>>>): real
    requires |teams| > 0 && forall t :: 0 <= t < |teams| ==> |teams[t]| > 0
  {
    p.qualityScalar(LargestBest(p, seq(|teams|, t requires 0 <= t < |teams| => TeamBest(p, teams[t]))))
  }

  /** What the reduction itself computes: the reported quality is that of one of the
      given team bests, and no team best has a greater quality. */
  lemma CohortBestQualityIsMax<S>(p: Problem<S>, teams: seq<seq<AgentState<S>>>)
    requires |teams| > 0 && forall t :: 0 <= t < |teams| ==> |teams[t]| > 0
    ensures var r := CohortBestQuality(p, teams);
      && (exists t :: 0 <= t < |teams| && r == p.qualityScalar(TeamBest(p, teams[t])))
      && (forall t :: 0 <= t < |teams| ==> p.qualityScalar(TeamBest(p, teams[t])) <= r)
  {
    var teamBests := seq(|teams|, t requires 0 <= t < |teams| => TeamBest(p, teams[t]));
    LargestBestIsGreatest(p, teamBests);
    var t :| 0 <= t < |teamBests| && teamBests[t] == LargestBest(p, teamBests);
    assert forall u :: 0 <= u < |teams| ==> teamBests[u] == TeamBest(p, teams[u]);
  }

  /** Corollary for the team best modelled as the maximum over its agents: the reported
      quality is that of some agent's best in one of the given teams, and no agent of
      those teams has a better best. */
  lemma CohortBestQualityIsAgentMax<S>(p: Problem<S>, teams: seq<seq<AgentState<S>>>)
    requires |teams| > 0 && forall t :: 0 <= t < |teams| ==> |teams[t]| > 0
    ensures var r := CohortBestQuality(p, teams);
      && (exists t, i :: 0 <= t < |teams| && 0 <= i < |teams[t]| &&
            r == p.qualityScalar(teams[t][i].bestSolutionSoFar))
      && (forall t, i :: 0 <= t < |teams| && 0 <= i < |teams[t]| ==>
            p.qualityScalar(teams[t][i].bestSolutionSoFar) <= r)
  {
    var r := CohortBestQuality(p, teams);
    CohortBestQualityIsMax(p, teams);
    forall u | 0 <= u < |teams| {
      LargestBestIsGreatest(p, BestsOf(teams[u]));
    }
    var t :| 0 <= t < |teams| && r == p.qualityScalar(TeamBest(p, teams[t]));
    var i :| 0 <= i < |teams[t]| && BestsOf(teams[t])[i] == TeamBest(p, teams[t]);
    assert r == p.qualityScalar(teams[t][i].bestSolutionSoFar);
    forall u, j | 0 <= u < |teams| && 0 <= j < |teams[u]|
      ensures p.qualityScalar(teams[u][j].bestSolutionSoFar) <= r
    {
      assert BestsOf(teams[u])[j] == teams[u][j].bestSolutionSoFar;
    }
  }

  /** Collecting the first `n` team bests and reducing them gives the cohort's quality. */
  lemma ReducesTeamBests<S>(p: Problem<S>, bests: seq<S>, teams: seq<seq<AgentState<S>>>, n: nat)
    requires 1 <= n == |bests| <= |teams|
    requires forall t :: 0 <= t < |teams| ==> |teams[t]| > 0
    requires forall t :: 0 <= t < n ==> bests[t] == TeamBest(p, teams[t])
    ensures p.qualityScalar(LargestBest(p, bests)) == CohortBestQuality(p, teams[..n])
  {
    var prefix := teams[..n];
    assert bests == seq(|prefix|, t requires 0 <= t < |prefix| => TeamBest(p, prefix[t]));
  }

  /** A team as `Team::new` leaves it: valid, sharing the cohort's configuration, and
      agent `i` in its initial state for `solutions[i]`. */
  ghost predicate InitialTeam<S>(team: Team<S>, parameters: Parameters, problem: Problem<S>, solutions: seq<S>)
    reads team, team.Repr
  {
    && team.Valid()
    && team.parameters == parameters && team.problem == problem
    && |solutions| == parameters.numberOfAgents
    && forall i :: 0 <= i < parameters.numberOfAgents ==> team.Views()[i] == NewAgentState(problem, solutions[i])
  }

  /** A cohort. Its teams are distinct objects with disjoint footprints. */
  class Cohort<S> {
    const parameters: Parameters
    const problem: Problem<S>
    var teamList: seq<Team<S>>
    ghost var Repr: set<object>

    ghost predicate Valid()
      reads this, Repr
    {
      && this in Repr
      && (forall t :: 0 <= t < |teamList| ==>
            teamList[t] in Repr && teamList[t].Repr <= Repr && this !in teamList[t].Repr)
      && (forall t, u :: 0 <= t < u < |teamList| ==> teamList[t].Repr !! teamList[u].Repr)
      && (forall t :: 0 <= t < |teamList| ==>
            && teamList[t].Valid()
            && teamList[t].parameters == parameters
            && teamList[t].problem == problem)
    }

    /** The agents' states, team by team. */
    ghost function Views(): (views: seq<seq<AgentState<S>>>)
      requires Valid()
      reads this, Repr
      ensures |views| == |teamList|
      ensures forall t :: 0 <= t < |views| ==> views[t] == teamList[t].Views()
    {
      var teams, footprint := teamList, Repr;
      seq(|teams|, t requires 0 <= t < |teams| && teams[t] in footprint && teams[t].Repr <= footprint && teams[t].Valid()
                     reads footprint => teams[t].Views())
    }

    /** `Cohort::new`: one freshly built team per index in 0 .. numberOfAgents (the source
        ranges over the agent count, not the team count). `initialSolutions[t][i]` is the
        solution generated for agent slot `i` of team `t`. */
    constructor (parameters: Parameters, problem: Problem<S>, initialSolutions: seq<seq<S>>)
      requires |initialSolutions| == parameters.numberOfAgents
      requires forall t :: 0 <= t < |initialSolutions| ==> |initialSolutions[t]| == parameters.numberOfAgents
      ensures Valid() && fresh(Repr)
      ensures this.parameters == parameters && this.problem == problem
      ensures |teamList| == parameters.numberOfAgents
      ensures forall t, i :: 0 <= t < |teamList| && 0 <= i < parameters.numberOfAgents ==>
        Views()[t][i] == NewAgentState(problem, initialSolutions[t][i])
    {
      var teams, repr := NewTeams(parameters, problem, initialSolutions, parameters.numberOfAgents);
      this.parameters := parameters;
      this.problem := problem;
      teamList := teams;
      Repr := {this} + repr;
      new;
      ViewsOfNewTeams(initialSolutions);
    }

    /** The evidently intended `Cohort::new`: one freshly built team per index in
        0 .. numberOfTeams. */
    constructor Intended(parameters: Parameters, problem: Problem<S>, initialSolutions: seq<seq<S>>)
      requires |initialSolutions| == parameters.numberOfTeams
      requires forall t :: 0 <= t < |initialSolutions| ==> |initialSolutions[t]| == parameters.numberOfAgents
      ensures Valid() && fresh(Repr)
      ensures this.parameters == parameters && this.problem == problem
      ensures |teamList| == parameters.numberOfTeams
      ensures forall t, i :: 0 <= t < |teamList| && 0 <= i < parameters.numberOfAgents ==>
        Views()[t][i] == NewAgentState(problem, initialSolutions[t][i])
    {
      var teams, repr := NewTeams(parameters, problem, initialSolutions, parameters.numberOfTeams);
      this.parameters := parameters;
      this.problem := problem;
      teamList := teams;
      Repr := {this} + repr;
      new;
      ViewsOfNewTeams(initialSolutions);
    }

    /** Unfolds `InitialTeam` for every team of a valid cohort. */
    lemma ViewsOfNewTeams(initialSolutions: seq<seq<S>>)
      requires Valid() && |initialSolutions| == |teamList|
      requires forall t :: 0 <= t < |initialSolutions| ==> |initialSolutions[t]| == parameters.numberOfAgents
      requires forall t :: 0 <= t < |teamList| ==>
        InitialTeam(teamList[t], parameters, problem, initialSolutions[t])
      ensures forall t, i :: 0 <= t < |teamList| && 0 <= i < parameters.numberOfAgents ==>
        Views()[t][i] == NewAgentState(problem, initialSolutions[t][i])
    {
    }

    /** The teams the map over 0 .. count collects, with `repr` the union of their
        footprints. */
    static method NewTeams(parameters: Parameters, problem: Problem<S>, initialSolutions: seq<seq<S>>, count: nat)
      returns (teams: seq<Team<S>>, ghost repr: set<object>)
      requires |initialSolutions| == count
      requires forall t :: 0 <= t < count ==> |initialSolutions[t]| == parameters.numberOfAgents
      ensures |teams| == count && fresh(repr)
      ensures forall u :: 0 <= u < count ==> teams[u] in repr && teams[u].Repr <= repr
      ensures forall u, v :: 0 <= u < v < count ==> teams[u].Repr !! teams[v].Repr
      ensures forall u :: 0 <= u < count ==> InitialTeam(teams[u], parameters, problem, initialSolutions[u])
    {
      teams := [];
      repr := {};
      for t := 0 to count
        invariant |teams| == t
        invariant fresh(repr)
        invariant forall u :: 0 <= u < t ==> teams[u] in repr && teams[u].Repr <= repr
        invariant forall u, v :: 0 <= u < v < t ==> teams[u].Repr !! teams[v].Repr
        invariant forall u :: 0 <= u < t ==> InitialTeam(teams[u], parameters, problem, initialSolutions[u])
      {
        var team := new Team(parameters, problem, initialSolutions[t]);
        teams := teams + [team];
        repr := repr + team.Repr;
      }
    }

    /** One round of every team, in list order; `draws[t]` are team `t`'s draws. */
    method Iterate(draws: seq<seq<Draws>>)
      requires Valid() && |draws| == |teamList|
      requires forall t :: 0 <= t < |draws| ==> |draws[t]| == parameters.numberOfAgents
      modifies Repr
      ensures Valid() && Repr == old(Repr) && teamList == old(teamList)
      ensures forall t :: 0 <= t < |teamList| ==>
        Views()[t] == TeamStep(problem, parameters, old(Views())[t], draws[t])
    {
      ghost var before := Views();
      for t := 0 to |teamList|
        invariant Valid() && Repr == old(Repr) && teamList == old(teamList)
        invariant forall u :: 0 <= u < t ==>
          teamList[u].Views() == TeamStep(problem, parameters, before[u], draws[u])
        invariant forall u :: t <= u < |teamList| ==> teamList[u].Views() == before[u]
      {
        IterateTeam(t, draws[t]);
      }
    }

    /** The closure `Iterate` applies to team `t`: it touches that team alone. */
    method IterateTeam(t: nat, draws: seq<Draws>)
      requires Valid() && t < |teamList| && |draws| == parameters.numberOfAgents
      modifies teamList[t].Repr
      ensures Valid()
      ensures teamList[t].Views() == TeamStep(problem, parameters, old(teamList[t].Views()), draws)
      ensures forall u :: 0 <= u < |teamList| && u != t ==> teamList[u].Views() == old(teamList[u].Views())
    {
      teamList[t].Iterate(draws);
    }

    /** `solve` on every team, in list order; `rounds[t]` are team `t`'s rounds. */
    method Solve(rounds: seq<seq<seq<Draws>>>)
      requires Valid() && |rounds| == |teamList|
      requires forall t :: 0 <= t < |rounds| ==>
        |rounds[t]| == parameters.numberOfIterations && Rectangular(rounds[t], parameters.numberOfAgents)
      modifies Repr
      ensures Valid() && Repr == old(Repr) && teamList == old(teamList)
      ensures forall t :: 0 <= t < |teamList| ==>
        Views()[t] == TeamRun(problem, parameters, old(Views())[t], rounds[t])
    {
      ghost var before := Views();
      for t := 0 to |teamList|
        invariant Valid() && Repr == old(Repr) && teamList == old(teamList)
        invariant forall u :: 0 <= u < t ==>
          teamList[u].Views() == TeamRun(problem, parameters, before[u], rounds[u])
        invariant forall u :: t <= u < |teamList| ==> teamList[u].Views() == before[u]
      {
        SolveTeam(t, rounds[t]);
      }
    }

    /** The closure `Solve` applies to team `t`: it touches that team alone. */
    method SolveTeam(t: nat, rounds: seq<seq<Draws>>)
      requires Valid() && t < |teamList|
      requires |rounds| == parameters.numberOfIterations && Rectangular(rounds, parameters.numberOfAgents)
      modifies teamList[t].Repr
      ensures Valid()
      ensures teamList[t].Views() == TeamRun(problem, parameters, old(teamList[t].Views()), rounds)
      ensures forall u :: 0 <= u < |teamList| && u != t ==> teamList[u].Views() == old(teamList[u].Views())
    {
      teamList[t].Solve(rounds);
    }

    /** The quality of the greatest team best among teams 0 .. numberOfTeams-1; teams
        beyond are never looked at. Panics in the source unless
        1 <= numberOfTeams <= |teamList|; the teams hold numberOfAgents agents each, at
        least one whenever a cohort built by `Cohort::new` meets that bound. Changes
        nothing. */
    method GetBestSolutionSoFar() returns (quality: real)
      requires Valid()
      requires 1 <= parameters.numberOfTeams <= |teamList| && parameters.numberOfAgents >= 1
      ensures quality == CohortBestQuality(problem, Views()[..parameters.numberOfTeams])
    {
      quality := BestOfFirstTeams(parameters.numberOfTeams);
    }

    /** The evidently intended query: the quality of the greatest team best over the whole
        team list, defined whenever there is a team. Changes nothing. */
    method GetBestSolutionOverAllTeams() returns (quality: real)
      requires Valid() && |teamList| >= 1 && parameters.numberOfAgents >= 1
      ensures quality == CohortBestQuality(problem, Views())
    {
      quality := BestOfFirstTeams(|teamList|);
      assert Views()[..|teamList|] == Views();
    }

    /** The map, collect and max over teams 0 .. n-1. Changes nothing. */
    method BestOfFirstTeams(n: nat) returns (quality: real)
      requires Valid() && 1 <= n <= |teamList| && parameters.numberOfAgents >= 1
      ensures quality == CohortBestQuality(problem, Views()[..n])
    {
      ghost var views := Views();
      var bests: seq<S> := [];
      for t := 0 to n
        invariant |bests| == t
        invariant forall u :: 0 <= u < t ==> bests[u] == TeamBest(problem, views[u])
      {
        var best := TeamBestOf(t);
        bests := bests + [best];
      }
      quality := problem.qualityScalar(LargestBest(problem, bests));
      ReducesTeamBests(problem, bests, views, n);
    }

    /** The closure `GetBestSolutionSoFar` applies to team `t`. Changes nothing. */
    method TeamBestOf(t: nat) returns (best: S)
      requires Valid() && t < |teamList| && parameters.numberOfAgents >= 1
      ensures best == TeamBest(problem, Views()[t])
    {
      best := teamList[t].GetBestSolutionSoFar();
    }
  }

  /** The configuration the command-line front end builds from its default flags:
      10 teams of 3 agents, 100 iterations, a geometric schedule from 10 and Markov
      learning at rate 0.05. */
  function DefaultParameters(): Parameters {
    Parameters(10, 3, 100, Geometric(10.0), Markov(0.05, []), CommunicationStyle.None, 1.0, 1.0, 0.5)
  }

  /** One round of draws for `teams` teams of `agents` agents, none accepting a worse
      candidate. */
  function QuietRound(teams: nat, agents: nat): (draws: seq<seq<Draws>>)
    ensures |draws| == teams && forall t :: 0 <= t < teams ==> |draws[t]| == agents
  {
    seq(teams, _ => seq(agents, _ => Draws([], false)))
  }

  /** The front end's sequential path with its default flags builds the cohort, iterates
      it once and queries it. The cohort holds 3 teams, fewer than the 10 the query reads,
      so the query's precondition fails: the source indexes past the end of the list. */
  method DefaultRunCannotBeQueried<S>(problem: Problem<S>, initialSolution: S) returns (queryable: bool)
    ensures !queryable
  {
    var parameters := DefaultParameters();
    var solutions := seq(3, _ => seq(3, _ => initialSolution));
    var cohort := new Cohort(parameters, problem, solutions);
    cohort.Iterate(QuietRound(3, 3));
    queryable := 1 <= cohort.parameters.numberOfTeams <= |cohort.teamList|;
  }

  /** The same run with the intended constructor holds 10 teams, so the query's
      precondition holds and the query can be made. */
  method DefaultRunCanBeQueriedAsIntended<S>(problem: Problem<S>, initialSolution: S) returns (queryable: bool)
    ensures queryable
  {
    var parameters := DefaultParameters();
    var solutions := seq(10, _ => seq(3, _ => initialSolution));
    var cohort := new Cohort.Intended(parameters, problem, solutions);
    cohort.Iterate(QuietRound(10, 3));
    queryable := 1 <= cohort.parameters.numberOfTeams <= |cohort.teamList|;
    var quality := cohort.GetBestSolutionSoFar();
  }
}
