/** A team of agents (src/abm/team.rs): a fixed roster that is advanced one round at a
    time, and the reductions over the agents' best solutions. */
module Teams {
  import opened Utilities
  import opened Agents

  /** Every agent of a roster satisfies the agent invariant. */
  ghost predicate AllValid<S>(p: Problem<S>, params: Parameters, views: seq<AgentState<S>>) {
    forall i :: 0 <= i < |views| ==> ValidState(p, params, views[i])
  }

  /** Every agent of a roster has a counter of at least 1, which `iterate` needs. */
  ghost predicate Started<S>(views: seq<AgentState<S>>) {
    forall i :: 0 <= i < |views| ==> views[i].iterationNumber >= 1
  }

  /** One round: every agent iterates once with its own draws. */
  function TeamStep<S>(p: Problem<S>, params: Parameters, views: seq<AgentState<S>>, draws: seq<Draws>): (r: seq<AgentState<S>>)
    requires Started(views) && |draws| == |views|
  {
    seq(|views|, i requires 0 <= i < |views| => Step(p, params, views[i], draws[i]))
  }

  /** The shape of the draws for `|rounds|` rounds of a team of `n` agents. */
  ghost predicate Rectangular(rounds: seq<seq<Draws>>, n: nat) {
    forall r :: 0 <= r < |rounds| ==> |rounds[r]| == n
  }

  /** `|rounds|` successive rounds; every agent's counter rises by exactly `|rounds|`. */
  function TeamRun<S>(p: Problem<S>, params: Parameters, views: seq<AgentState<S>>, rounds: seq<seq<Draws>>): (r: seq<AgentState<S>>)
    requires Started(views) && Rectangular(rounds, |views|)
    ensures |r| == |views|
    ensures forall i :: 0 <= i < |r| ==> r[i].iterationNumber == views[i].iterationNumber + |rounds|
    decreases |rounds|
  {
    if rounds == [] then views
    else TeamStep(p, params, TeamRun(p, params, views, rounds[..|rounds| - 1]), rounds[|rounds| - 1])
  }

  /** The draws agent `i` receives over a sequence of rounds. */
  function Column(rounds: seq<seq<Draws>>, i: nat): (c: seq<Draws>)
    requires forall r :: 0 <= r < |rounds| ==> i < |rounds[r]|
  {
    seq(|rounds|, r requires 0 <= r < |rounds| => rounds[r][i])
  }

  /** Agents do not read one another: after any number of rounds each agent is exactly
      where iterating it alone on its own draws would have left it. */
  lemma {:induction false} TeamRunIsAgentwise<S>(p: Problem<S>, params: Parameters, views: seq<AgentState<S>>, rounds: seq<seq<Draws>>, i: nat)
    requires Started(views) && Rectangular(rounds, |views|)
    requires i < |views|
    ensures TeamRun(p, params, views, rounds)[i] == Run(p, params, views[i], Column(rounds, i))
    decreases |rounds|
  {
    if rounds != [] {
      var n := |rounds|;
      TeamRunIsAgentwise(p, params, views, rounds[..n - 1], i);
      assert Column(rounds, i)[..n - 1] == Column(rounds[..n - 1], i);
    }
  }

  /** After `solve` with `|rounds|` rounds: every agent is still valid, its counter rose by
      `|rounds|`, its temperature is the schedule's for its iterations, and its best
      quality did not decrease. */
  lemma TeamRunKeepsAgents<S>(p: Problem<S>, params: Parameters, views: seq<AgentState<S>>, rounds: seq<seq<Draws>>)
    requires AllValid(p, params, views) && Rectangular(rounds, |views|)
    ensures Started(views)
    ensures var r := TeamRun(p, params, views, rounds);
      && AllValid(p, params, r)
      && forall i :: 0 <= i < |views| ==>
           && r[i].iterationNumber == views[i].iterationNumber + |rounds|
           && r[i].temperature == TemperatureAfter(params.temperatureSchedule, views[i].iterationNumber - 1 + |rounds|)
           && p.qualityScalar(r[i].bestSolutionSoFar) >= p.qualityScalar(views[i].bestSolutionSoFar)
  {
    forall i | 0 <= i < |views| {
      TeamRunKeepsAgent(p, params, views, rounds, i);
    }
  }

  /** `TeamRunKeepsAgents` for agent `i` alone. */
  lemma {:induction false} TeamRunKeepsAgent<S>(p: Problem<S>, params: Parameters, views: seq<AgentState<S>>, rounds: seq<seq<Draws>>, i: nat)
    requires AllValid(p, params, views) && Rectangular(rounds, |views|) && i < |views|
    ensures Started(views)
    ensures var r := TeamRun(p, params, views, rounds);
      && ValidState(p, params, r[i])
      && p.qualityScalar(r[i].bestSolutionSoFar) >= p.qualityScalar(views[i].bestSolutionSoFar)
  {
    var c := Column(rounds, i);
    TeamRunIsAgentwise(p, params, views, rounds, i);
    RunPreservesValid(p, params, views[i], c);
    RunBestMonotone(p, params, views[i], c, 0);
    assert c[..0] == [];
  }

  /** The best-so-far solutions of a roster, in agent order. */
  function BestsOf<S>(views: seq<AgentState<S>>): (bests: seq<S>)
    ensures |bests| == |views|
    ensures forall i :: 0 <= i < |views| ==> bests[i] == views[i].bestSolutionSoFar
  {
    seq(|views|, i requires 0 <= i < |views| => views[i].bestSolutionSoFar)
  }

  /** The reduction `pull_best_solution` performs, as written: start from the first and
      replace the pick whenever the pick is better than the next. */
  function SmallestBest<S>(p: Problem<S>, sols: seq<S>): S
    requires |sols| > 0
    decreases |sols|
  {
    if |sols| == 1 then sols[0]
    else
      var pick := SmallestBest(p, sols[..|sols| - 1]);
      if Better(p, pick, sols[|sols| - 1]) then sols[|sols| - 1] else pick
  }

  /** The as-written reduction yields the earliest solution of LEAST quality. */
  lemma {:induction false} SmallestBestIsLeast<S>(p: Problem<S>, sols: seq<S>)
    requires |sols| > 0
    ensures var r := SmallestBest(p, sols);
      && (forall i :: 0 <= i < |sols| ==> p.qualityScalar(r) <= p.qualityScalar(sols[i]))
      && (exists i :: 0 <= i < |sols| && sols[i] == r &&
                      (forall j :: 0 <= j < i ==> p.qualityScalar(r) < p.qualityScalar(sols[j])))
    decreases |sols|
  {
    var n := |sols|;
    if n > 1 {
      var init := sols[..n - 1];
      assert forall j :: 0 <= j < n - 1 ==> init[j] == sols[j];
      SmallestBestIsLeast(p, init);
      var pick := SmallestBest(p, init);
      var k :| 0 <= k < n - 1 && init[k] == pick &&
               (forall j :: 0 <= j < k ==> p.qualityScalar(pick) < p.qualityScalar(init[j]));
      if Better(p, pick, sols[n - 1]) {
        assert forall j :: 0 <= j < n - 1 ==> p.qualityScalar(sols[n - 1]) < p.qualityScalar(init[j]);
      } else {
        assert sols[k] == pick;
      }
    } else {
      assert sols[0] == SmallestBest(p, sols);
    }
  }

  /** The intended reduction: replace the pick whenever the next is better. */
  function LargestBest<S>(p: Problem<S>, sols: seq<S>): S
    requires |sols| > 0
    decreases |sols|
  {
    if |sols| == 1 then sols[0]
    else
      var pick := LargestBest(p, sols[..|sols| - 1]);
      if Better(p, sols[|sols| - 1], pick) then sols[|sols| - 1] else pick
  }

  /** The intended reduction yields the earliest solution of GREATEST quality. */
  lemma {:induction false} LargestBestIsGreatest<S>(p: Problem<S>, sols: seq<S>)
    requires |sols| > 0
    ensures var r := LargestBest(p, sols);
      && (forall i :: 0 <= i < |sols| ==> p.qualityScalar(sols[i]) <= p.qualityScalar(r))
      && (exists i :: 0 <= i < |sols| && sols[i] == r &&
                      (forall j :: 0 <= j < i ==> p.qualityScalar(sols[j]) < p.qualityScalar(r)))
    decreases |sols|
  {
    var n := |sols|;
    if n > 1 {
      var init := sols[..n - 1];
      assert forall j :: 0 <= j < n - 1 ==> init[j] == sols[j];
      LargestBestIsGreatest(p, init);
      var pick := LargestBest(p, init);
      var k :| 0 <= k < n - 1 && init[k] == pick &&
               (forall j :: 0 <= j < k ==> p.qualityScalar(init[j]) < p.qualityScalar(pick));
      if Better(p, sols[n - 1], pick) {
        assert forall j :: 0 <= j < n - 1 ==> p.qualityScalar(init[j]) < p.qualityScalar(sols[n - 1]);
      } else {
        assert sols[k] == pick;
      }
    } else {
      assert sols[0] == LargestBest(p, sols);
    }
  }

  /** One more loop turn of the as-written reduction. */
  lemma SmallestBestSnoc<S>(p: Problem<S>, sols: seq<S>, i: nat)
    requires 0 < i < |sols|
    ensures SmallestBest(p, sols[..i + 1]) ==
      var pick := SmallestBest(p, sols[..i]);
      if Better(p, pick, sols[i]) then sols[i] else pick
  {
    assert sols[..i + 1][..i] == sols[..i];
  }

  /** One more loop turn of the intended reduction. */
  lemma LargestBestSnoc<S>(p: Problem<S>, sols: seq<S>, i: nat)
    requires 0 < i < |sols|
    ensures LargestBest(p, sols[..i + 1]) ==
      var pick := LargestBest(p, sols[..i]);
      if Better(p, sols[i], pick) then sols[i] else pick
  {
    assert sols[..i + 1][..i] == sols[..i];
  }

  /** The reduction as written misses the best: whenever two bests differ in quality,
      it returns one strictly worse than the team's best. */
  lemma {:induction false} PullBestMissesTheBest<S>(p: Problem<S>, sols: seq<S>, i: nat, j: nat)
    requires i < |sols| && j < |sols|
    requires Better(p, sols[i], sols[j])
    ensures Better(p, LargestBest(p, sols), SmallestBest(p, sols))
  {
    SmallestBestIsLeast(p, sols);
    LargestBestIsGreatest(p, sols);
  }

  /** A two-agent witness: with bests of quality 1 and 2, the as-written reduction picks
      the one of quality 1. */
  lemma PullBestExample(p: Problem<real>)
    requires forall x :: p.qualityScalar(x) == x
    ensures SmallestBest(p, [1.0, 2.0]) == 1.0
    ensures LargestBest(p, [1.0, 2.0]) == 2.0
  {
  }

  /** The best solution of a team: the earliest agent best of greatest quality. */
  function TeamBest<S>(p: Problem<S>, views: seq<AgentState<S>>): (r: S)
    requires |views| > 0
  {
    LargestBest(p, BestsOf(views))
  }

  /** A team. Its agents are distinct objects, one per agent slot. */
  class Team<S> {
    const parameters: Parameters
    const problem: Problem<S>
    var agentList: seq<Agent<S>>
    ghost var Repr: set<object>

    ghost predicate Valid()
      reads this, Repr
    {
      && this in Repr
      && |agentList| == parameters.numberOfAgents
      && (forall i :: 0 <= i < |agentList| ==> agentList[i] in Repr)
      && (forall i, j :: 0 <= i < j < |agentList| ==> agentList[i] != agentList[j])
      && (forall i :: 0 <= i < |agentList| ==>
            && agentList[i].Valid()
            && agentList[i].parameters == parameters
            && agentList[i].problem == problem)
    }

    /** The agents' states, in agent order. */
    ghost function Views(): (views: seq<AgentState<S>>)
      requires Valid()
      reads this, Repr
      ensures |views| == |agentList| == parameters.numberOfAgents
      ensures AllValid(problem, parameters, views) && Started(views)
      ensures forall i :: 0 <= i < |views| ==> views[i] == agentList[i].View()
    {
      var agents := agentList;
      seq(|agents|, i requires 0 <= i < |agents| reads agents => agents[i].View())
    }

    /** `Team::new`: builds one agent, fills the vector with it and its clones, then
        overwrites slots 1.. with freshly built agents. `initialSolutions[i]` is the
        solution generated for the agent built for slot `i`. */
    constructor (parameters: Parameters, problem: Problem<S>, initialSolutions: seq<S>)
      requires |initialSolutions| == parameters.numberOfAgents
      ensures Valid() && fresh(Repr)
      ensures this.parameters == parameters && this.problem == problem
      ensures Views() == seq(parameters.numberOfAgents,
        i requires 0 <= i < parameters.numberOfAgents => NewAgentState(problem, initialSolutions[i]))
    {
      var agents := NewRoster(parameters, problem, initialSolutions);
      this.parameters := parameters;
      this.problem := problem;
      agentList := agents;
      Repr := {this} + set j | 0 <= j < |agents| :: agents[j];
    }

    /** The agents `Team::new` leaves in its vector, slot by slot. */
    static method NewRoster(parameters: Parameters, problem: Problem<S>, initialSolutions: seq<S>)
      returns (agents: seq<Agent<S>>)
      requires |initialSolutions| == parameters.numberOfAgents
      ensures |agents| == parameters.numberOfAgents
      ensures forall j :: 0 <= j < |agents| ==> fresh(agents[j])
      ensures forall j, k :: 0 <= j < k < |agents| ==> agents[j] != agents[k]
      ensures forall j :: 0 <= j < |agents| ==>
        && agents[j].Valid()
        && agents[j].parameters == parameters && agents[j].problem == problem
        && agents[j].View() == NewAgentState(problem, initialSolutions[j])
    {
      var n := parameters.numberOfAgents;
      agents := [];
      if n > 0 {
        var first := new Agent(parameters, problem, initialSolutions[0]);
        agents := CloneFill(first, n);
        for i := 1 to n
          invariant |agents| == n
          invariant forall j :: 0 <= j < n ==> fresh(agents[j])
          invariant forall j, k :: 0 <= j < k < n ==> agents[j] != agents[k]
          invariant forall j :: 0 <= j < n ==>
            && agents[j].Valid()
            && agents[j].parameters == parameters && agents[j].problem == problem
          invariant forall j :: 0 <= j < n ==>
            agents[j].View() == NewAgentState(problem, initialSolutions[if j < i then j else 0])
        {
          var agent := new Agent(parameters, problem, initialSolutions[i]);
          agents := agents[i := agent];
        }
      }
    }

    /** `vec![first; n]`: n - 1 fresh clones of `first`, then `first` itself moved into
        the last slot. */
    static method CloneFill(first: Agent<S>, n: nat) returns (agents: seq<Agent<S>>)
      requires first.Valid() && n > 0
      ensures |agents| == n && agents[n - 1] == first
      ensures forall j :: 0 <= j < n - 1 ==> fresh(agents[j])
      ensures forall j, k :: 0 <= j < k < n ==> agents[j] != agents[k]
      ensures forall j :: 0 <= j < n ==>
        && agents[j].Valid() && agents[j].View() == first.View()
        && agents[j].parameters == first.parameters && agents[j].problem == first.problem
    {
      agents := [];
      while |agents| < n - 1
        invariant |agents| <= n - 1
        invariant forall j :: 0 <= j < |agents| ==> fresh(agents[j])
        invariant forall j, k :: 0 <= j < k < |agents| ==> agents[j] != agents[k]
        invariant forall j :: 0 <= j < |agents| ==>
          && agents[j].Valid() && agents[j].View() == first.View()
          && agents[j].parameters == first.parameters && agents[j].problem == first.problem
      {
        var copy := new Agent.Clone(first);
        agents := agents + [copy];
      }
      agents := agents + [first];
    }

    /** One round: iterates agents 0 .. numberOfAgents-1 once each, in index order. */
    method Iterate(draws: seq<Draws>)
      requires Valid() && |draws| == |agentList|
      modifies Repr
      ensures Valid() && Repr == old(Repr) && agentList == old(agentList)
      ensures Views() == TeamStep(problem, parameters, old(Views()), draws)
    {
      ghost var before := Views();
      for i := 0 to parameters.numberOfAgents
        invariant Valid() && Repr == old(Repr) && agentList == old(agentList)
        invariant forall j :: 0 <= j < i ==> agentList[j].View() == Step(problem, parameters, before[j], draws[j])
        invariant forall j :: i <= j < |agentList| ==> agentList[j].View() == before[j]
      {
        agentList[i].Iterate(draws[i]);
      }
    }

    /** `numberOfIterations` rounds; `rounds[r][i]` are agent `i`'s draws in round `r`. */
    method Solve(rounds: seq<seq<Draws>>)
      requires Valid() && |rounds| == parameters.numberOfIterations
      requires Rectangular(rounds, |agentList|)
      modifies Repr
      ensures Valid() && Repr == old(Repr) && agentList == old(agentList)
      ensures Views() == TeamRun(problem, parameters, old(Views()), rounds)
    {
      ghost var before := Views();
      for r := 0 to parameters.numberOfIterations
        invariant Valid() && Repr == old(Repr) && agentList == old(agentList)
        invariant Views() == TeamRun(problem, parameters, before, rounds[..r])
      {
        assert rounds[..r + 1][..r] == rounds[..r];
        Iterate(rounds[r]);
      }
      assert rounds[..|rounds|] == rounds;
    }

    /** `pull_best_solution` as written: a copy of the earliest agent best of LEAST
        quality (the loop replaces the pick when the pick is greater). Changes nothing. */
    method PullBestSolution() returns (best: S)
      requires Valid() && |agentList| > 0
      ensures best == SmallestBest(problem, BestsOf(Views()))
    {
      ghost var bests := BestsOf(Views());
      assert forall j :: 0 <= j < |agentList| ==> bests[j] == agentList[j].bestSolutionSoFar;
      best := agentList[0].bestSolutionSoFar;
      assert bests[..1] == [bests[0]];
      for i := 1 to |agentList|
        invariant best == SmallestBest(problem, bests[..i])
      {
        var next := agentList[i].bestSolutionSoFar;
        assert next == bests[i];
        SmallestBestSnoc(problem, bests, i);
        if Better(problem, best, next) {
          best := next;
        }
      }
      assert bests[..|agentList|] == bests;
    }

    /** The team's best solution so far, as documented: a copy of the earliest agent best
        of GREATEST quality. Changes nothing. */
    method GetBestSolutionSoFar() returns (best: S)
      requires Valid() && |agentList| > 0
      ensures best == TeamBest(problem, Views())
    {
      ghost var bests := BestsOf(Views());
      assert forall j :: 0 <= j < |agentList| ==> bests[j] == agentList[j].bestSolutionSoFar;
      best := agentList[0].bestSolutionSoFar;
      assert bests[..1] == [bests[0]];
      for i := 1 to |agentList|
        invariant best == LargestBest(problem, bests[..i])
      {
        var next := agentList[i].bestSolutionSoFar;
        assert next == bests[i];
        LargestBestSnoc(problem, bests, i);
        if Better(problem, next, best) {
          best := next;
        }
      }
      assert bests[..|agentList|] == bests;
    }
  }
}
