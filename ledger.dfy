/** The reward ledger every agent owns: one record per arm plus global totals and the
    history of rewards in pull order. Arms are identified by their index in the bound list. */
module Ledger {

  /** Per-arm aggregate: pull count, reward sum and squared-reward sum. */
  datatype Record = Record(actions: nat, reward: real, rewardSquared: real) {

    /** The record after one more pull that returned r. */
    function Add(r: real): (next: Record)
    {
      Record(actions + 1, reward + r, rewardSquared + Square(r))
    }

    function Plus(other: Record): (sum: Record)
    {
      Record(actions + other.actions, reward + other.reward, rewardSquared + other.rewardSquared)
    }
  }

  /** The record of an arm that was never pulled. */
  const Zero := Record(0, 0.0, 0.0)

  /** One recorded pull. */
  datatype Entry = Entry(arm: nat, reward: real)

  function Sum(s: seq<real>): (total: real)
  {
    if s == [] then 0.0 else Sum(s[..|s| - 1]) + s[|s| - 1]
  }

  function Square(x: real): (sq: real)
  {
    x * x
  }

  function SumOfSquares(s: seq<real>): (total: real)
  {
    if s == [] then 0.0 else SumOfSquares(s[..|s| - 1]) + Square(s[|s| - 1])
  }

  function RewardsOf(h: seq<Entry>): (rewards: seq<real>)
  {
    seq(|h|, i requires 0 <= i < |h| => h[i].reward)
  }

  /** The rewards recorded for arm a, in pull order. */
  function PullsOf(h: seq<Entry>, a: nat): (pulls: seq<real>)
  {
    if h == [] then []
    else PullsOf(h[..|h| - 1], a) + (if h[|h| - 1].arm == a then [h[|h| - 1].reward] else [])
  }

  /** The record the ledger keeps for arm a after the pulls h: each pull folded in with Add. */
  ghost function Aggregate(h: seq<Entry>, a: nat): (rec: Record)
  {
    if h == [] then Zero
    else
      var prev := Aggregate(h[..|h| - 1], a);
      if h[|h| - 1].arm == a then prev.Add(h[|h| - 1].reward) else prev
  }

  /** The records of arms 0 .. k-1 added up. */
  ghost function SumRecords(h: seq<Entry>, k: nat): (sum: Record)
  {
    if k == 0 then Zero else SumRecords(h, k - 1).Plus(Aggregate(h, k - 1))
  }

  /** The lookup of the record map, where a missing arm reads as the zero record. */
  function Lookup(record: map<nat, Record>, a: nat): (rec: Record)
  {
    if a in record then record[a] else Zero
  }

  lemma AggregateAppend(h: seq<Entry>, e: Entry, a: nat)
    ensures Aggregate(h + [e], a) == if e.arm == a then Aggregate(h, a).Add(e.reward) else Aggregate(h, a)
  {
  }

  lemma SumAppend(s: seq<real>, x: real)
    ensures Sum(s + [x]) == Sum(s) + x
    ensures SumOfSquares(s + [x]) == SumOfSquares(s) + Square(x)
  {
  }

  /** Recording more pulls never lowers the pull count of any arm. */
  lemma {:induction false} PullsNeverDecrease(h: seq<Entry>, longer: seq<Entry>, a: nat)
    requires h <= longer
    ensures Aggregate(h, a).actions <= Aggregate(longer, a).actions
    decreases |longer|
  {
    if |longer| > |h| {
      var init := longer[..|longer| - 1];
      assert h <= init;
      PullsNeverDecrease(h, init, a);
    } else {
      assert h == longer;
    }
  }

  /** Adding one pull of an arm below k adds that pull to the sum of the first k records;
      a pull of any other arm leaves it alone. */
  lemma {:induction false} SumRecordsAppend(h: seq<Entry>, e: Entry, k: nat)
    ensures SumRecords(h + [e], k) == if e.arm < k then SumRecords(h, k).Add(e.reward) else SumRecords(h, k)
  {
    if k > 0 {
      SumRecordsAppend(h, e, k - 1);
      AggregateAppend(h, e, k - 1);
    }
  }

  /** Ledger consistency: when every pull is of an arm below k, the records of arms
      0 .. k-1 add up to the global totals (pull count, reward sum, squared-reward sum). */
  lemma {:induction false} LedgerTotals(h: seq<Entry>, k: nat)
    requires forall i :: 0 <= i < |h| ==> h[i].arm < k
    ensures SumRecords(h, k).actions == |h|
    ensures SumRecords(h, k).reward == Sum(RewardsOf(h))
    ensures SumRecords(h, k).rewardSquared == SumOfSquares(RewardsOf(h))
  {
    if h == [] {
      SumRecordsZero(k);
    } else {
      var init, e := h[..|h| - 1], h[|h| - 1];
      assert h == init + [e];
      LedgerTotals(init, k);
      LedgerTotalsStep(init, e, k);
    }
  }

  lemma LedgerTotalsStep(init: seq<Entry>, e: Entry, k: nat)
    requires e.arm < k
    requires SumRecords(init, k).actions == |init|
    requires SumRecords(init, k).reward == Sum(RewardsOf(init))
    requires SumRecords(init, k).rewardSquared == SumOfSquares(RewardsOf(init))
    ensures SumRecords(init + [e], k).actions == |init| + 1
    ensures SumRecords(init + [e], k).reward == Sum(RewardsOf(init + [e]))
    ensures SumRecords(init + [e], k).rewardSquared == SumOfSquares(RewardsOf(init + [e]))
  {
    SumRecordsAppend(init, e, k);
    RewardsOfAppend(init, e);
    SumAppend(RewardsOf(init), e.reward);
  }

  lemma RewardsOfAppend(h: seq<Entry>, e: Entry)
    ensures RewardsOf(h + [e]) == RewardsOf(h) + [e.reward]
  {
  }

  lemma {:induction false} SumRecordsZero(k: nat)
    ensures SumRecords([], k) == Zero
  {
    if k > 0 {
      SumRecordsZero(k - 1);
    }
  }

  /** Each arm's record is exactly the count, sum and sum of squares of the rewards
      recorded for that arm. */
  lemma {:induction false} AggregateIsSumOfPulls(h: seq<Entry>, a: nat)
    ensures Aggregate(h, a) == Record(|PullsOf(h, a)|, Sum(PullsOf(h, a)), SumOfSquares(PullsOf(h, a)))
  {
    if h != [] {
      var init, e := h[..|h| - 1], h[|h| - 1];
      AggregateIsSumOfPulls(init, a);
      if e.arm == a {
        SumAppend(PullsOf(init, a), e.reward);
      } else {
        assert PullsOf(h, a) == PullsOf(init, a);
      }
    }
  }

  /** An arm that was never pulled reads as the zero record, and only such an arm has a
      pull count of zero. */
  lemma {:induction false} NeverPulledIsZero(h: seq<Entry>, a: nat)
    ensures Aggregate(h, a).actions == 0 <==> forall i :: 0 <= i < |h| ==> h[i].arm != a
    ensures Aggregate(h, a).actions == 0 ==> Aggregate(h, a) == Zero
  {
    if h != [] {
      var init := h[..|h| - 1];
      NeverPulledIsZero(init, a);
      assert forall i :: 0 <= i < |init| ==> init[i] == h[i];
    }
  }

  /** The ledger of one agent (BanditRewardsLog). */
  class RewardsLog {
    var totalActions: nat
    var totalRewards: real
    var allRewards: seq<real>
    var record: map<nat, Record>
    /** Every recorded pull, in call order. */
    ghost var history: seq<Entry>

    ghost predicate Valid()
      reads this
    {
      && totalActions == |history|
      && allRewards == RewardsOf(history)
      && totalRewards == Sum(allRewards)
      && forall a: nat :: Lookup(record, a) == Aggregate(history, a)
    }

    constructor ()
      ensures Valid()
      ensures history == [] && totalActions == 0 && totalRewards == 0.0 && allRewards == []
    {
      totalActions := 0;
      totalRewards := 0.0;
      allRewards := [];
      record := map[];
      history := [];
    }

    /** The record of an arm; an arm never recorded reads as the zero record. */
    function Get(arm: nat): (r: Record)
      reads this
      requires Valid()
      ensures r == Aggregate(history, arm)
    {
      Lookup(record, arm)
    }

    method RecordAction(arm: nat, reward: real)
      requires Valid()
      modifies this
      ensures Valid()
      ensures history == old(history) + [Entry(arm, reward)]
      ensures totalActions == old(totalActions) + 1
      ensures totalRewards == old(totalRewards) + reward
      ensures allRewards == old(allRewards) + [reward]
      ensures Get(arm) == old(Get(arm)).Add(reward)
      ensures forall a: nat :: a != arm ==> Get(a) == old(Get(a))
    {
      var e := Entry(arm, reward);
      forall a: nat {
        AggregateAppend(history, e, a);
      }
      SumAppend(allRewards, reward);
      assert RewardsOf(history + [e]) == RewardsOf(history) + [reward];
      totalActions := totalActions + 1;
      totalRewards := totalRewards + reward;
      allRewards := allRewards + [reward];
      record := record[arm := Lookup(record, arm).Add(reward)];
      history := history + [e];
    }
  }
  /** The entries of the record map for arms 0 .. k-1 added up. */
  function SumLookups(record: map<nat, Record>, k: nat): (sum: Record)
  {
    if k == 0 then Zero else SumLookups(record, k - 1).Plus(Lookup(record, k - 1))
  }

  /** The ledger's own fields agree with its records: when every pull is of an arm below k,
      the per-arm records of arms 0 .. k-1 add up to total_actions, total_rewards and the
      squared sum of all_rewards. */
  lemma LogTotalsAreRecordSums(log: RewardsLog, k: nat)
    requires log.Valid()
    requires forall i :: 0 <= i < |log.history| ==> log.history[i].arm < k
    ensures SumLookups(log.record, k).actions == log.totalActions
    ensures SumLookups(log.record, k).reward == log.totalRewards
    ensures SumLookups(log.record, k).rewardSquared == SumOfSquares(log.allRewards)
  {
    LookupsAreAggregates(log, k);
    LedgerTotals(log.history, k);
  }

  lemma {:induction false} LookupsAreAggregates(log: RewardsLog, k: nat)
    requires log.Valid()
    ensures SumLookups(log.record, k) == SumRecords(log.history, k)
  {
    if k > 0 {
      LookupsAreAggregates(log, k - 1);
    }
  }
}
