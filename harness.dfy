/** The comparison harness: several agents run against one shared list of arms, and the
    repeated comparison that counts which strategy collects the most reward. */
module Harness {
  import opened Wrappers
  import opened Arms
  import opened Ledger
  import opened Selection
  import opened Agents

  /** Number of comparisons run_comparison_ucb repeats. */
  const Trials: nat := 1000
  /** Iteration budget of each of those comparisons. */
  const Iterations: nat := 1000

  /** The strategies of get_agents, in its order. */
  const Lineup: seq<Strategy> := [EpsilonGreedy(None), UCB1, UCB1Tuned, UCB1Normal]

  /** The pulls compare_agents' initialisation step adds for an agent. */
  function InitPullsFor(strategy: Strategy, initialised: bool, k: nat): (n: nat)
  {
    if strategy.IsUCB() && !initialised then InitialPulls(strategy) * k else 0
  }

  function MaxInt(x: int, y: int): (m: int)
  {
    if x >= y then x else y
  }

  /** Distinct agents with distinct ledgers. */
  ghost predicate Separate(agents: seq<Agent>)
    reads set a | a in agents
  {
    forall i, j :: 0 <= i < j < |agents| ==> agents[i] != agents[j] && agents[i].rewardsLog != agents[j].rewardsLog
  }

  /** In separate agents, agent i shares neither itself nor its ledger with any other. */
  lemma SeparateAt(agents: seq<Agent>, i: nat)
    requires Separate(agents) && i < |agents|
    ensures forall j :: 0 <= j < |agents| && j != i ==>
      agents[j] != agents[i] && agents[j].rewardsLog != agents[i].rewardsLog
  {
  }

  ghost predicate AllValid(agents: seq<Agent>)
    reads set a | a in agents, set a | a in agents :: a.rewardsLog
  {
    forall i :: 0 <= i < |agents| ==> agents[i].Valid()
  }

  /** An agent after its turn in compare_agents: bound to the arms, with
      max(iterations, pulls before + its initialisation pulls) actions, and a history that
      extends the one before with pulls of the arms. */
  ghost predicate RanOn(agent: Agent, bandits: seq<Arm>, iterations: int, before: seq<Entry>, wasInitialised: bool)
    reads agent, agent.rewardsLog
  {
    && agent.bandits == Some(bandits)
    && agent.rewardsLog.totalActions ==
         MaxInt(iterations, |before| + InitPullsFor(agent.strategy, wasInitialised, |bandits|))
    && before <= agent.rewardsLog.history
    && PulledFrom(bandits, agent.rewardsLog.history, |before|)
  }

  /** One agent's turn in compare_agents. */
  method RunAgent(agent: Agent, bandits: seq<Arm>, iterations: int) returns (res: Outcome<AgentError>)
    requires AllPullable(bandits) && agent.Valid()
    modifies agent, agent.rewardsLog
    ensures agent.Valid()
    ensures res.Pass? ==> RanOn(agent, bandits, iterations, old(agent.rewardsLog.history), old(agent.initialised))
    ensures bandits != [] && !old(agent.initialised) ==> res.Pass?
    ensures bandits == [] && res.Pass? ==> iterations <= old(agent.rewardsLog.totalActions)
  {
    agent.SetBandits(Some(bandits));
    if agent.strategy.IsUCB() {
      var r := agent.Initialise();
      if r.Fail? {
        return r;
      }
    }
    var n := iterations - agent.rewardsLog.totalActions;
    res := agent.TakeActions(n);
  }

  /** compare_agents without the plot: each agent is bound to the arms, initialised if it is
      a UCB agent, and then takes the actions that remain of the iteration budget. An agent
      that already took more actions than the budget takes none. */
  method CompareAgents(agents: seq<Agent>, bandits: seq<Arm>, iterations: int) returns (res: Outcome<AgentError>)
    requires AllPullable(bandits)
    requires Separate(agents) && AllValid(agents)
    modifies set a | a in agents, set a | a in agents :: a.rewardsLog
    ensures AllValid(agents)
    ensures res.Pass? ==> forall i :: 0 <= i < |agents| ==>
      RanOn(agents[i], bandits, iterations, old(agents[i].rewardsLog.history), old(agents[i].initialised))
    ensures bandits != [] && (forall i :: 0 <= i < |agents| ==> !old(agents[i].initialised)) ==> res.Pass?
    ensures bandits == [] && res.Pass? ==> forall i :: 0 <= i < |agents| ==> iterations <= old(agents[i].rewardsLog.totalActions)
  {
    for i := 0 to |agents|
      invariant AllValid(agents)
      invariant forall j :: 0 <= j < i ==>
        RanOn(agents[j], bandits, iterations, old(agents[j].rewardsLog.history), old(agents[j].initialised))
      invariant forall j :: i <= j < |agents| ==>
        && agents[j].rewardsLog.history == old(agents[j].rewardsLog.history)
        && agents[j].rewardsLog.totalActions == old(agents[j].rewardsLog.totalActions)
        && agents[j].initialised == old(agents[j].initialised)
      invariant bandits == [] ==> forall j :: 0 <= j < i ==> iterations <= old(agents[j].rewardsLog.totalActions)
    {
      var agent := agents[i];
      SeparateAt(agents, i);
      res := RunAgent(agent, bandits, iterations);
      if res.Fail? {
        return;
      }
    }
    return Pass;
  }

  /** get_agents: one fresh agent per strategy, epsilon-greedy with the adaptive rate. */
  method GetAgents(math: MathLib) returns (agents: seq<Agent>)
    ensures |agents| == 4
    ensures forall i :: 0 <= i < 4 ==> agents[i].strategy == Lineup[i]
    ensures forall i :: 0 <= i < 4 ==>
      && fresh(agents[i]) && fresh(agents[i].rewardsLog)
      && !agents[i].initialised && agents[i].rewardsLog.history == []
    ensures Separate(agents) && AllValid(agents)
  {
    var greedy := new Agent(EpsilonGreedy(None), math);
    var ucb1 := new Agent(UCB1, math);
    var tuned := new Agent(UCB1Tuned, math);
    var normal := new Agent(UCB1Normal, math);
    agents := [greedy, ucb1, tuned, normal];
  }

  function SumNat(s: seq<nat>): (total: nat)
  {
    if s == [] then 0 else s[0] + SumNat(s[1..])
  }

  /** Adding one win to one strategy adds one to the total of the win counts. */
  lemma {:induction false} SumIncrement(s: seq<nat>, w: nat)
    requires w < |s|
    ensures SumNat(s[w := s[w] + 1]) == SumNat(s) + 1
  {
    if w > 0 {
      SumIncrement(s[1..], w - 1);
      assert s[w := s[w] + 1][1..] == s[1..][w - 1 := s[w] + 1];
    } else {
      assert s[0 := s[0] + 1][1..] == s[1..];
    }
  }

  /** The number of trials in winners that strategy s won. */
  function Wins(winners: seq<nat>, s: nat): (n: nat)
    ensures n <= |winners|
  {
    if winners == [] then 0
    else Wins(winners[..|winners| - 1], s) + (if winners[|winners| - 1] == s then 1 else 0)
  }

  /** Crediting one more trial to strategy w keeps the win counts equal to the tally of
      the winners and their sum equal to the number of trials. */
  lemma TallyStep(winCount: seq<nat>, winners: seq<nat>, w: nat)
    requires |winCount| == 4 && w < 4 && SumNat(winCount) == |winners|
    requires forall s :: 0 <= s < 4 ==> winCount[s] == Wins(winners, s)
    ensures SumNat(winCount[w := winCount[w] + 1]) == |winners + [w]|
    ensures forall s :: 0 <= s < 4 ==> winCount[w := winCount[w] + 1][s] == Wins(winners + [w], s)
  {
    SumIncrement(winCount, w);
    assert (winners + [w])[..|winners|] == winners;
  }

  /** What one comparison leaves behind, for each strategy in get_agents' order: a history
      of pulls of the arms with rewards they can yield, as long as compare_agents makes it
      on a fresh agent, and the total reward of that history. */
  ghost predicate TrialRun(bandits: seq<Arm>, histories: seq<seq<Entry>>, totals: seq<real>)
  {
    && |histories| == 4 && |totals| == 4
    && forall i :: 0 <= i < 4 ==>
         && |histories[i]| == MaxInt(Iterations, InitPullsFor(Lineup[i], false, |bandits|))
         && PulledFrom(bandits, histories[i], 0)
         && totals[i] == Sum(RewardsOf(histories[i]))
  }

  /** Every arm is a Bernoulli arm with p = 0: no pull ever pays. */
  predicate NeverPays(bandits: seq<Arm>)
  {
    forall i :: 0 <= i < |bandits| ==> bandits[i] == Bernoulli(0.0)
  }

  /** A history of pulls of arms that never pay has total reward 0. */
  lemma {:induction false} NoPayoutSumsToZero(bandits: seq<Arm>, h: seq<Entry>)
    requires NeverPays(bandits) && PulledFrom(bandits, h, 0)
    ensures Sum(RewardsOf(h)) == 0.0
  {
    if h != [] {
      var init, e := h[..|h| - 1], h[|h| - 1];
      assert h == init + [e];
      NoPayoutSumsToZero(bandits, init);
      RewardsOfAppend(init, e);
      SumAppend(RewardsOf(init), e.reward);
    }
  }

  /** When no arm pays, all four agents end a comparison with total reward 0, and the tie
      goes to the first agent in list order, the epsilon-greedy one. */
  lemma NoPayoutFirstStrategyWins(bandits: seq<Arm>, histories: seq<seq<Entry>>, totals: seq<real>)
    requires NeverPays(bandits) && TrialRun(bandits, histories, totals)
    ensures ArgMax(totals) == 0
  {
    forall i | 0 <= i < 4
      ensures totals[i] == 0.0
    {
      NoPayoutSumsToZero(bandits, histories[i]);
    }
    var w := ArgMax(totals);
    assert totals[0] == totals[w];
  }

  /** Each of the trials so far left histories and totals as TrialRun says, and was won by
      the first agent with the highest total. */
  ghost predicate TrialsRun(bandits: seq<Arm>, histories: seq<seq<seq<Entry>>>,
                            totals: seq<seq<real>>, winners: seq<nat>)
  {
    && |histories| == |totals| == |winners|
    && forall t :: 0 <= t < |winners| ==>
         TrialRun(bandits, histories[t], totals[t]) && winners[t] == ArgMax(totals[t])
  }

  lemma TrialsRunExtend(bandits: seq<Arm>, histories: seq<seq<seq<Entry>>>, totals: seq<seq<real>>,
                        winners: seq<nat>, run: seq<seq<Entry>>, total: seq<real>)
    requires TrialsRun(bandits, histories, totals, winners) && TrialRun(bandits, run, total)
    ensures TrialsRun(bandits, histories + [run], totals + [total], winners + [ArgMax(total)])
  {
  }

  /** When no arm pays, every trial is credited to the epsilon-greedy agent. */
  lemma {:induction false} NoPayoutTally(bandits: seq<Arm>, histories: seq<seq<seq<Entry>>>,
                                         totals: seq<seq<real>>, winners: seq<nat>)
    requires NeverPays(bandits) && TrialsRun(bandits, histories, totals, winners)
    ensures Wins(winners, 0) == |winners|
    ensures forall s :: 0 < s < 4 ==> Wins(winners, s) == 0
  {
    if winners != [] {
      var n := |winners| - 1;
      NoPayoutFirstStrategyWins(bandits, histories[n], totals[n]);
      NoPayoutTally(bandits, histories[..n], totals[..n], winners[..n]);
    }
  }

  /** The four agents of a comparison, fresh before it and in get_agents' order, leave
      behind what TrialRun describes. */
  lemma TrialOfAgents(bandits: seq<Arm>, agents: seq<Agent>)
    requires |agents| == 4
    requires forall i :: 0 <= i < 4 ==>
      && agents[i].Valid() && agents[i].strategy == Lineup[i]
      && RanOn(agents[i], bandits, Iterations, [], false)
    ensures TrialRun(bandits,
      [agents[0].rewardsLog.history, agents[1].rewardsLog.history,
       agents[2].rewardsLog.history, agents[3].rewardsLog.history],
      [agents[0].rewardsLog.totalRewards, agents[1].rewardsLog.totalRewards,
       agents[2].rewardsLog.totalRewards, agents[3].rewardsLog.totalRewards])
  {
  }

  /** One comparison of run_comparison_ucb: four fresh agents run Iterations steps on the
      arms; the result is their total rewards in get_agents' order, and the ghost output
      their histories. */
  method RunTrial(bandits: seq<Arm>, math: MathLib)
    returns (res: Result<seq<real>, AgentError>, ghost histories: seq<seq<Entry>>)
    requires AllPullable(bandits)
    ensures res.Success? <==> bandits != []
    ensures res.Success? ==> TrialRun(bandits, histories, res.value)
  {
    var agents := GetAgents(math);
    var r := CompareAgents(agents, bandits, Iterations);
    if r.Fail? {
      return Failure(r.error), [];
    }
    TrialOfAgents(bandits, agents);
    histories := [agents[0].rewardsLog.history, agents[1].rewardsLog.history,
                  agents[2].rewardsLog.history, agents[3].rewardsLog.history];
    res := Success([agents[0].rewardsLog.totalRewards, agents[1].rewardsLog.totalRewards,
                    agents[2].rewardsLog.totalRewards, agents[3].rewardsLog.totalRewards]);
  }

  /** run_comparison_ucb: Trials fresh comparisons of the four strategies over Iterations
      steps each; each comparison's win goes to the agent with the highest total reward,
      the first one in list order on a tie. The ghost outputs are the histories and the
      four total rewards of every trial and the strategy credited with it. */
  method RunComparisonUCB(bandits: seq<Arm>, math: MathLib)
    returns (res: Result<seq<nat>, AgentError>, ghost histories: seq<seq<seq<Entry>>>,
             ghost totals: seq<seq<real>>, ghost winners: seq<nat>)
    requires AllPullable(bandits)
    ensures res.Success? <==> bandits != []
    ensures res.Success? ==> |res.value| == 4 && SumNat(res.value) == Trials
    ensures res.Success? ==> |winners| == Trials && TrialsRun(bandits, histories, totals, winners)
    ensures res.Success? ==> forall s :: 0 <= s < 4 ==> res.value[s] == Wins(winners, s)
    ensures res.Success? && NeverPays(bandits) ==> res.value == [Trials, 0, 0, 0]
  {
    var winCount: seq<nat> := [0, 0, 0, 0];
    histories, totals, winners := [], [], [];
    for trial := 0 to Trials
      invariant |winCount| == 4 && SumNat(winCount) == trial
      invariant |winners| == trial && TrialsRun(bandits, histories, totals, winners)
      invariant forall s :: 0 <= s < 4 ==> winCount[s] == Wins(winners, s)
      invariant bandits == [] ==> trial == 0
    {
      ghost var run;
      var r;
      r, run := RunTrial(bandits, math);
      if r.Failure? {
        return Failure(r.error), histories, totals, winners;
      }
      var winner := ArgMax(r.value);
      TallyStep(winCount, winners, winner);
      TrialsRunExtend(bandits, histories, totals, winners, run, r.value);
      winCount := winCount[winner := winCount[winner] + 1];
      histories, totals, winners := histories + [run], totals + [r.value], winners + [winner];
    }
    if NeverPays(bandits) {
      NoPayoutTally(bandits, histories, totals, winners);
    }
    return Success(winCount), histories, totals, winners;
  }
}
