/** The decision rules of the agents: argmax with first-in-list tie-break, the
    epsilon-greedy estimates and exploration rate, the three UCB indices and the
    UCB1-Normal minimum-sample threshold. The square root and the natural logarithm are
    numpy's floating-point routines; they are not modelled and enter as the two
    functions of a MathLib value. */
module Selection {
  import opened Wrappers
  import opened Ledger

  /** The decision strategy of an agent. */
  datatype Strategy = EpsilonGreedy(epsilon: Option<real>) | UCB1 | UCB1Tuned | UCB1Normal
  {
    predicate IsUCB()
    {
      !EpsilonGreedy?
    }
  }

  /** numpy's sqrt and log, left abstract. */
  datatype MathLib = MathLib(sqrt: real -> real, log: real -> real)

  /** Position i holds a maximal element and no element before it reaches that maximum:
      numpy's argmax. */
  predicate IsFirstMax(xs: seq<real>, i: nat)
  {
    && i < |xs|
    && (forall j :: 0 <= j < |xs| ==> xs[j] <= xs[i])
    && (forall j :: 0 <= j < i ==> xs[j] < xs[i])
  }

  function ArgMax(xs: seq<real>): (i: nat)
    requires xs != []
    ensures IsFirstMax(xs, i)
  {
    if |xs| == 1 then 0
    else
      var j := ArgMax(xs[..|xs| - 1]);
      if xs[|xs| - 1] > xs[j] then |xs| - 1 else j
  }

  /** The epsilon-greedy estimate of an arm: its sample mean, or 0 for an arm never pulled. */
  function GreedyEstimate(rec: Record): (e: real)
    ensures rec.actions == 0 ==> e == 0.0
    ensures rec.actions > 0 ==> e * (rec.actions as real) == rec.reward
  {
    if rec.actions == 0 then 0.0 else SampleMean(rec)
  }

  function GreedyEstimates(recs: seq<Record>): (es: seq<real>)
  {
    seq(|recs|, i requires 0 <= i < |recs| => GreedyEstimate(recs[i]))
  }

  /** Primed with one pull per arm, the greedy choice is the arm with the strictly
      highest sample mean. */
  lemma GreedyPicksStrictlyBest(recs: seq<Record>, b: nat)
    requires b < |recs|
    requires forall i :: 0 <= i < |recs| ==> recs[i].actions > 0
    requires forall i :: 0 <= i < |recs| && i != b ==> SampleMean(recs[i]) < SampleMean(recs[b])
    ensures ArgMax(GreedyEstimates(recs)) == b
  {
    var es := GreedyEstimates(recs);
    var i := ArgMax(es);
    assert es[b] <= es[i];
  }

  /** The exploration rate as written in the source: `self.epsilon or 1 / (1 + total_actions)`.
      Python's `or` also discards an epsilon of 0.0, which is falsy. */
  function EffectiveEpsilonAsWritten(epsilon: Option<real>, totalActions: nat): (eps: real)
    ensures epsilon.Some? && epsilon.value != 0.0 ==> eps == epsilon.value
    ensures epsilon.None? || epsilon == Some(0.0) ==>
      0.0 < eps <= 1.0 && eps * ((1 + totalActions) as real) == 1.0
  {
    if epsilon.Some? && epsilon.value != 0.0 then epsilon.value else 1.0 / ((1 + totalActions) as real)
  }

  /** The exploration rate as intended: the configured epsilon, or 1 / (1 + total pulls)
      when none is configured. */
  function EffectiveEpsilon(epsilon: Option<real>, totalActions: nat): (eps: real)
    ensures epsilon.Some? ==> eps == epsilon.value
    ensures epsilon.None? ==> 0.0 < eps <= 1.0 && eps * ((1 + totalActions) as real) == 1.0
  {
    match epsilon
    case Some(e) => e
    case None => 1.0 / ((1 + totalActions) as real)
  }

  /** As written, an agent configured with epsilon 0 still explores: on a fresh ledger its
      exploration rate is 1, so every draw of uniform(0, 1) explores. */
  lemma ZeroEpsilonExploresAsWritten(totalActions: nat)
    ensures EffectiveEpsilonAsWritten(Some(0.0), totalActions) > 0.0
    ensures EffectiveEpsilonAsWritten(Some(0.0), 0) == 1.0
    ensures EffectiveEpsilon(Some(0.0), totalActions) == 0.0
  {
  }

  function Min(x: real, y: real): (m: real)
  {
    if x <= y then x else y
  }

  function Max(x: real, y: real): (m: real)
  {
    if x >= y then x else y
  }

  function SampleMean(rec: Record): (mean: real)
    requires rec.actions > 0
  {
    rec.reward / (rec.actions as real)
  }

  /** UCB1: sample mean + sqrt(2 ln N / n). */
  function UCB1Index(math: MathLib, rec: Record, total: nat): (index: real)
    requires rec.actions > 0
  {
    var n := rec.actions as real;
    SampleMean(rec) + math.sqrt(2.0 * math.log(total as real) / n)
  }

  /** UCB1-Tuned: sample mean + sqrt(min(V, 1/4) ln N / n), with the variance bound
      V = sum of squares / n - mean^2 + sqrt(2 ln N / n). */
  function UCB1TunedIndex(math: MathLib, rec: Record, total: nat): (index: real)
    requires rec.actions > 0
  {
    var n := rec.actions as real;
    var mean := SampleMean(rec);
    var v := rec.rewardSquared / n - mean * mean + math.sqrt(2.0 * math.log(total as real) / n);
    mean + math.sqrt(Min(v, 0.25) * math.log(total as real) / n)
  }

  /** UCB1-Normal: sample mean + sqrt(16 SV ln(N - 1) / n), with the sample variance
      SV = (sum of squares - n mean^2) / (n - 1). */
  function UCB1NormalIndex(math: MathLib, rec: Record, total: nat): (index: real)
    requires rec.actions > 1
  {
    var n := rec.actions as real;
    var mean := SampleMean(rec);
    var variance := (rec.rewardSquared - n * mean * mean) / (n - 1.0);
    mean + math.sqrt(16.0 * variance * math.log((total as real) - 1.0) / n)
  }

  /** The fewest pulls an arm needs before the strategy's index is a number. Below it the
      source divides by zero: with no pulls the record still holds Python's integer zeros
      and the division raises; UCB1-Normal's sample variance also divides by n - 1, which
      at one pull is a numpy division by zero that yields NaN instead of raising. */
  function MinSamples(strategy: Strategy): (n: nat)
  {
    match strategy
    case EpsilonGreedy(_) => 0
    case UCB1 => 1
    case UCB1Tuned => 1
    case UCB1Normal => 2
  }

  /** The index of one arm, or None where the source divides by zero (raising, or giving
      NaN for UCB1-Normal at one pull). */
  function Index(strategy: Strategy, math: MathLib, rec: Record, total: nat): (r: Option<real>)
    requires strategy.IsUCB()
    ensures r.Some? <==> rec.actions >= MinSamples(strategy)
  {
    if rec.actions < MinSamples(strategy) then None
    else
      match strategy
      case UCB1 => Some(UCB1Index(math, rec, total))
      case UCB1Tuned => Some(UCB1TunedIndex(math, rec, total))
      case UCB1Normal => Some(UCB1NormalIndex(math, rec, total))
  }

  /** The index of every arm in list order, or None when some arm's index is not a number. */
  function Indices(strategy: Strategy, math: MathLib, recs: seq<Record>, total: nat): (r: Option<seq<real>>)
    requires strategy.IsUCB()
    ensures r.Some? <==> forall i :: 0 <= i < |recs| ==> recs[i].actions >= MinSamples(strategy)
    ensures r.Some? ==> |r.value| == |recs|
    ensures r.Some? ==> forall i :: 0 <= i < |recs| ==> Some(r.value[i]) == Index(strategy, math, recs[i], total)
  {
    if forall i :: 0 <= i < |recs| ==> recs[i].actions >= MinSamples(strategy) then
      Some(seq(|recs|, i requires 0 <= i < |recs| && recs[i].actions >= MinSamples(strategy) =>
        Index(strategy, math, recs[i], total).value))
    else None
  }

  /** The position of the first arm with fewer than m pulls, or |recs| when there is none.
      With m = MinSamples(UCB1Normal) this is where np.argmax stops: NaN compares as the
      maximum and the first NaN wins. */
  function FirstBelow(recs: seq<Record>, m: nat): (i: nat)
    ensures i <= |recs|
    ensures i < |recs| ==> recs[i].actions < m
    ensures forall j :: 0 <= j < i ==> recs[j].actions >= m
  {
    if recs == [] then 0
    else if recs[0].actions < m then 0
    else 1 + FirstBelow(recs[1..], m)
  }

  /** At equal pull counts the UCB1 exploration bonus is the same for both arms, so UCB1
      ranks them by sample mean. */
  lemma UCB1EqualCountsRankByMean(math: MathLib, r1: Record, r2: Record, total: nat)
    requires r1.actions == r2.actions > 0
    ensures UCB1Index(math, r1, total) < UCB1Index(math, r2, total) <==> SampleMean(r1) < SampleMean(r2)
  {
  }

  /** The smallest integer not below x (numpy's ceil). */
  function Ceil(x: real): (c: int)
    ensures x <= c as real < x + 1.0
  {
    -((-x).Floor)
  }

  /** UCB1-Normal's minimum-sample threshold max(3, ceil(8 ln N)). */
  function SampleThreshold(math: MathLib, total: nat): (t: real)
    ensures t >= 3.0
    ensures t >= 8.0 * math.log(total as real)
    ensures t == t.Floor as real
    ensures t < Max(3.0, 8.0 * math.log(total as real)) + 1.0
  {
    Max(3.0, Ceil(8.0 * math.log(total as real)) as real)
  }
}
