/** The agents: a bound list of arms, a private ledger, and one of the four strategies.
    The source's class hierarchy (Agent, EpsilonGreedyAgent, UCBAgent and its three
    subclasses) is one class here, tagged by its Strategy. */
module Agents {
  import opened Wrappers
  import opened Arms
  import opened Ledger
  import opened Selection
  import Random

  datatype AgentError =
    | NoBandits       // NoBanditsError: no arms bound, or an empty list bound
    | Uninitialised   // a UCB agent acting before its initialisation step
    | ZeroDivision    // a UCB index computed for an arm never pulled

  /** How many times the initialisation step pulls each arm. */
  function InitialPulls(strategy: Strategy): (n: nat)
  {
    if strategy.UCB1Normal? then 2 else 1
  }

  /** Every entry of the history h from position lo on is a pull of one of the arms, with
      a reward that arm can yield. */
  predicate PulledFrom(arms: seq<Arm>, h: seq<Entry>, lo: nat)
  {
    forall j :: lo <= j < |h| ==> h[j].arm < |arms| && CanYield(arms[h[j].arm], h[j].reward)
  }

  class Agent {
    const strategy: Strategy
    const math: MathLib
    const rewardsLog: RewardsLog
    var bandits: Option<seq<Arm>>
    /** Meaningful for the UCB strategies only; set once by Initialise. */
    var initialised: bool

    ghost predicate Valid()
      reads this, rewardsLog
    {
      rewardsLog.Valid() && (bandits.Some? ==> AllPullable(bandits.value))
    }

    constructor (strategy: Strategy, math: MathLib)
      ensures Valid() && fresh(rewardsLog)
      ensures this.strategy == strategy && this.math == math
      ensures bandits == None && !initialised && rewardsLog.history == []
    {
      this.strategy := strategy;
      this.math := math;
      rewardsLog := new RewardsLog();
      bandits := None;
      initialised := false;
    }

    /** The bound arms; NoBandits when nothing or an empty list is bound. */
    function Bandits(): (r: Result<seq<Arm>, AgentError>)
      reads this
      ensures r.Failure? <==> bandits.None? || bandits.value == []
      ensures r.Failure? ==> r.error == NoBandits
      ensures r.Success? ==> bandits == Some(r.value)
    {
      if bandits.None? || bandits.value == [] then Failure(NoBandits) else Success(bandits.value)
    }

    /** The bound list, or no arms when nothing is bound. */
    function BoundArms(): (arms: seq<Arm>)
      reads this
    {
      if bandits.Some? then bandits.value else []
    }

    method SetBandits(val: Option<seq<Arm>>)
      requires Valid()
      requires val.Some? ==> AllPullable(val.value)
      modifies this
      ensures Valid()
      ensures bandits == val && initialised == old(initialised)
    {
      bandits := val;
    }

    /** The ledger records of arms 0 .. k-1. */
    function Records(k: nat): (recs: seq<Record>)
      reads this, rewardsLog
      requires Valid()
      ensures |recs| == k
      ensures forall i :: 0 <= i < k ==> recs[i] == Aggregate(rewardsLog.history, i)
    {
      var record := rewardsLog.record;
      seq(k, i requires 0 <= i < k => Lookup(record, i))
    }

    /** The arm with the best estimate, the first one in list order on a tie: the sample
        mean for epsilon-greedy, the strategy's index for the UCB agents. A UCB index of an
        arm never pulled raises; a UCB1-Normal index at one pull is NaN, which np.argmax
        takes as the maximum, so the first such arm is chosen. */
    function CurrentBestBandit(): (r: Result<nat, AgentError>)
      reads this, rewardsLog
      requires Valid()
      ensures Bandits().Failure? ==> r == Failure(NoBandits)
      ensures Bandits().Success? && !strategy.IsUCB() ==>
        r.Success? && IsFirstMax(GreedyEstimates(Records(|bandits.value|)), r.value)
      ensures Bandits().Success? && strategy.IsUCB() ==>
        var recs := Records(|bandits.value|);
        var indices := Indices(strategy, math, recs, rewardsLog.totalActions);
        && (r.Failure? <==> exists i :: 0 <= i < |recs| && recs[i].actions == 0)
        && (r.Failure? ==> r.error == ZeroDivision)
        && (r.Success? ==> r.value < |recs|)
        && (r.Success? && indices.Some? ==> IsFirstMax(indices.value, r.value))
        && (r.Success? && indices.None? ==>
              && recs[r.value].actions < MinSamples(strategy)
              && forall j :: 0 <= j < r.value ==> recs[j].actions >= MinSamples(strategy))
      ensures r.Success? ==> r.value < |bandits.value|
    {
      match Bandits()
      case Failure(e) => Failure(e)
      case Success(arms) =>
        var recs := Records(|arms|);
        if !strategy.IsUCB() then
          Success(ArgMax(GreedyEstimates(recs)))
        else if FirstBelow(recs, 1) < |recs| then
          Failure(ZeroDivision)
        else
          match Indices(strategy, math, recs, rewardsLog.totalActions)
          case None => Success(FirstBelow(recs, MinSamples(strategy)))
          case Some(estimates) => Success(ArgMax(estimates))
    }

    /** Arm i is below UCB1-Normal's minimum-sample threshold. */
    ghost predicate Insufficient(i: nat)
      reads this, rewardsLog
      requires Valid()
    {
      (rewardsLog.Get(i).actions as real) < SampleThreshold(math, rewardsLog.totalActions)
    }

    /** The choices the agent's strategy permits in the current state. */
    ghost predicate Admissible(choice: nat)
      reads this, rewardsLog
      requires Valid() && Bandits().Success?
    {
      var k := |bandits.value|;
      && choice < k
      && match strategy
         case EpsilonGreedy(epsilon) =>
           EffectiveEpsilon(epsilon, rewardsLog.totalActions) <= 0.0 ==> CurrentBestBandit() == Success(choice)
         case UCB1Normal =>
           if exists i :: 0 <= i < k && Insufficient(i) then Insufficient(choice)
           else CurrentBestBandit() == Success(choice)
         case _ =>
           CurrentBestBandit() == Success(choice)
    }

    /** take_action cannot fail: arms are bound and, for the UCB agents, the agent is
        initialised and UCB1 / UCB1-Tuned have pulled every arm at least once. */
    ghost predicate Ready()
      reads this, rewardsLog
      requires Valid()
    {
      && (strategy.IsUCB() ==> initialised)
      && Bandits().Success?
      && ((strategy.UCB1? || strategy.UCB1Tuned?) ==>
            forall i :: 0 <= i < |bandits.value| ==> rewardsLog.Get(i).actions >= 1)
    }

    /** Epsilon-greedy's choice: with probability epsilon a uniformly random arm, otherwise
        the current best one. */
    method ChooseBandit() returns (r: Result<nat, AgentError>)
      requires Valid() && strategy.EpsilonGreedy?
      ensures r.Failure? <==> Bandits().Failure?
      ensures r.Failure? ==> r.error == NoBandits
      ensures r.Success? ==> Admissible(r.value)
    {
      var epsilon := EffectiveEpsilon(strategy.epsilon, rewardsLog.totalActions);
      var p := Random.Uniform();
      if p < epsilon {
        match Bandits()
        case Failure(e) =>
          return Failure(e);
        case Success(arms) =>
          var i := Random.Choice(|arms|);
          return Success(i);
      } else {
        r := CurrentBestBandit();
      }
    }

    /** UCB1-Normal's forced exploration: a random arm among those below the sample
        threshold, or None when every arm meets it. */
    method BanditWithInsufficientData() returns (r: Result<Option<nat>, AgentError>)
      requires Valid() && strategy.UCB1Normal?
      ensures r.Failure? <==> Bandits().Failure?
      ensures r.Failure? ==> r.error == NoBandits
      ensures r.Success? && r.value.Some? ==> r.value.value < |bandits.value| && Insufficient(r.value.value)
      ensures r.Success? ==>
        (r.value.None? <==> forall i :: 0 <= i < |bandits.value| ==> !Insufficient(i))
    {
      match Bandits()
      case Failure(e) =>
        return Failure(e);
      case Success(arms) =>
        var threshold := SampleThreshold(math, rewardsLog.totalActions);
        var res: seq<nat> := [];
        for i := 0 to |arms|
          invariant forall j :: 0 <= j < |res| ==> res[j] < i && Insufficient(res[j])
          invariant forall j :: 0 <= j < i && Insufficient(j) ==> j in res
        {
          if (rewardsLog.Get(i).actions as real) < threshold {
            res := res + [i];
          }
        }
        if res != [] {
          var pick := Random.Choice(|res|);
          assert Insufficient(res[pick]);
          return Success(Some(res[pick]));
        }
        return Success(None);
    }

    /** The selection part of take_action: the UCB agents refuse to act before their
        initialisation step; UCB1-Normal first forces a pull of an arm below its sample
        threshold; otherwise the strategy's rule picks the arm. */
    method SelectBandit() returns (choice: Result<nat, AgentError>)
      requires Valid()
      ensures strategy.IsUCB() && !initialised ==> choice == Failure(Uninitialised)
      ensures (!strategy.IsUCB() || initialised) && Bandits().Failure? ==> choice == Failure(NoBandits)
      ensures strategy.IsUCB() && initialised && Bandits().Success? && !Ready() ==>
        choice == Failure(ZeroDivision)
      ensures choice.Success? <==> Ready()
      ensures choice.Success? ==> Bandits().Success? && Admissible(choice.value)
    {
      if strategy.IsUCB() && !initialised {
        return Failure(Uninitialised);
      }
      if strategy.EpsilonGreedy? {
        choice := ChooseBandit();
      } else if strategy.UCB1Normal? {
        var insufficient := BanditWithInsufficientData();
        if insufficient.Failure? {
          choice := Failure(insufficient.error);
        } else if insufficient.value.Some? {
          choice := Success(insufficient.value.value);
        } else {
          var recs := Records(|bandits.value|);
          forall i | 0 <= i < |recs| ensures recs[i].actions >= 2 {
            assert !Insufficient(i);
            assert rewardsLog.Get(i) == recs[i];
          }
          choice := CurrentBestBandit();
        }
      } else {
        choice := CurrentBestBandit();
        if Bandits().Success? {
          var recs := Records(|bandits.value|);
          if choice.Failure? {
            var i :| 0 <= i < |recs| && recs[i].actions == 0;
            assert rewardsLog.Get(i) == recs[i];
          } else {
            forall i | 0 <= i < |bandits.value| ensures rewardsLog.Get(i).actions >= 1 {
              assert rewardsLog.Get(i) == recs[i];
            }
          }
        }
      }
    }

    method TakeAction() returns (res: Result<real, AgentError>)
      requires Valid()
      modifies rewardsLog
      ensures Valid()
      ensures strategy.IsUCB() && !initialised ==> res == Failure(Uninitialised)
      ensures (!strategy.IsUCB() || initialised) && Bandits().Failure? ==> res == Failure(NoBandits)
      ensures strategy.IsUCB() && initialised && Bandits().Success? && !old(Ready()) ==>
        res == Failure(ZeroDivision)
      ensures res.Success? <==> old(Ready())
      ensures res.Failure? ==> rewardsLog.history == old(rewardsLog.history)
      ensures res.Success? ==>
        && |rewardsLog.history| == |old(rewardsLog.history)| + 1
        && rewardsLog.history == old(rewardsLog.history) + [Entry(rewardsLog.history[|rewardsLog.history| - 1].arm, res.value)]
      ensures res.Success? ==>
        var e := rewardsLog.history[|rewardsLog.history| - 1];
        && old(Admissible(e.arm))
        && CanYield(bandits.value[e.arm], res.value)
      ensures old(Ready()) ==> Ready()
    {
      var choice := SelectBandit();
      if choice.Failure? {
        return Failure(choice.error);
      }
      var arm := choice.value;
      var reward := Pull(bandits.value[arm]);
      rewardsLog.RecordAction(arm, reward);
      assert old(Admissible(arm));
      forall a: nat ensures rewardsLog.Get(a).actions >= old(rewardsLog.Get(a).actions) {
        if a != arm {
          assert rewardsLog.Get(a) == old(rewardsLog.Get(a));
        }
      }
      return Success(reward);
    }

    /** take_actions(n): n actions in sequence; a count of zero or below takes none. */
    method TakeActions(n: int) returns (res: Outcome<AgentError>)
      requires Valid()
      modifies rewardsLog
      ensures Valid()
      ensures res.Pass? <==> n <= 0 || old(Ready())
      ensures res.Fail? ==> rewardsLog.history == old(rewardsLog.history)
      ensures res.Pass? ==>
        && rewardsLog.totalActions == old(rewardsLog.totalActions) + (if n < 0 then 0 else n)
        && |rewardsLog.history| == |old(rewardsLog.history)| + (if n < 0 then 0 else n)
        && old(rewardsLog.history) <= rewardsLog.history
      ensures PulledFrom(BoundArms(), rewardsLog.history, |old(rewardsLog.history)|)
      ensures old(Ready()) ==> Ready()
    {
      var count := if n < 0 then 0 else n;
      for i := 0 to count
        invariant Valid()
        invariant |rewardsLog.history| == |old(rewardsLog.history)| + i
        invariant old(rewardsLog.history) <= rewardsLog.history
        invariant PulledFrom(BoundArms(), rewardsLog.history, |old(rewardsLog.history)|)
        invariant Ready() == old(Ready())
        invariant i > 0 ==> old(Ready())
      {
        var r := TakeAction();
        if r.Failure? {
          return Fail(r.error);
        }
      }
      return Pass;
    }

    /** The initialisation step of the UCB agents: a no-op once done; otherwise every bound
        arm is pulled InitialPulls(strategy) times, in list order, and the agent is marked
        initialised. */
    /** reps pulls of the bound arm i in a row, each recorded in the ledger. */
    method PullRepeatedly(i: nat, reps: nat)
      requires Valid() && bandits.Some? && i < |bandits.value|
      modifies rewardsLog
      ensures Valid()
      ensures old(rewardsLog.history) <= rewardsLog.history
      ensures |rewardsLog.history| == |old(rewardsLog.history)| + reps
      ensures forall p :: |old(rewardsLog.history)| <= p < |rewardsLog.history| ==>
        rewardsLog.history[p].arm == i && CanYield(bandits.value[i], rewardsLog.history[p].reward)
      ensures forall a: nat :: rewardsLog.Get(a).actions == old(rewardsLog.Get(a).actions) + (if a == i then reps else 0)
    {
      for j := 0 to reps
        invariant Valid()
        invariant old(rewardsLog.history) <= rewardsLog.history
        invariant |rewardsLog.history| == |old(rewardsLog.history)| + j
        invariant forall p :: |old(rewardsLog.history)| <= p < |rewardsLog.history| ==>
          rewardsLog.history[p].arm == i && CanYield(bandits.value[i], rewardsLog.history[p].reward)
        invariant forall a: nat :: rewardsLog.Get(a).actions == old(rewardsLog.Get(a).actions) + (if a == i then j else 0)
      {
        var reward := Pull(bandits.value[i]);
        rewardsLog.RecordAction(i, reward);
      }
    }

    method Initialise() returns (res: Outcome<AgentError>)
      requires Valid() && strategy.IsUCB()
      modifies this, rewardsLog
      ensures Valid()
      ensures bandits == old(bandits)
      ensures old(initialised) ==> res.Pass? && initialised && rewardsLog.history == old(rewardsLog.history)
      ensures !old(initialised) && Bandits().Failure? ==>
        res == Fail(NoBandits) && !initialised && rewardsLog.history == old(rewardsLog.history)
      ensures !old(initialised) && Bandits().Success? ==>
        && res.Pass? && initialised
        && |rewardsLog.history| == |old(rewardsLog.history)| + InitialPulls(strategy) * |bandits.value|
        && old(rewardsLog.history) <= rewardsLog.history
        && (forall a: nat :: rewardsLog.Get(a).actions ==
              old(rewardsLog.Get(a).actions) + (if a < |bandits.value| then InitialPulls(strategy) else 0))
        && PulledFrom(bandits.value, rewardsLog.history, |old(rewardsLog.history)|)
        && (forall j1, j2 :: |old(rewardsLog.history)| <= j1 <= j2 < |rewardsLog.history| ==>
              rewardsLog.history[j1].arm <= rewardsLog.history[j2].arm)
        && Ready()
    {
      if initialised {
        return Pass;
      }
      if Bandits().Failure? {
        return Fail(NoBandits);
      }
      var arms := bandits.value;
      var reps := InitialPulls(strategy);
      for i := 0 to |arms|
        invariant Valid() && bandits == Some(arms) && !initialised
        invariant |rewardsLog.history| == |old(rewardsLog.history)| + reps * i
        invariant old(rewardsLog.history) <= rewardsLog.history
        invariant forall a: nat :: rewardsLog.Get(a).actions == old(rewardsLog.Get(a).actions) + (if a < i then reps else 0)
        invariant PulledFrom(arms, rewardsLog.history, |old(rewardsLog.history)|)
        invariant forall p :: |old(rewardsLog.history)| <= p < |rewardsLog.history| ==> rewardsLog.history[p].arm < i
        invariant forall j1, j2 :: |old(rewardsLog.history)| <= j1 <= j2 < |rewardsLog.history| ==>
          rewardsLog.history[j1].arm <= rewardsLog.history[j2].arm
      {
        PullRepeatedly(i, reps);
      }
      initialised := true;
      return Pass;
    }
  }
}
