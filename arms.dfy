/** Reward sources ("bandits"): a Normal arm, optionally truncated to bounds, and a Bernoulli arm. */
module Arms {
  import opened Wrappers

  /** Number of candidate samples a Normal arm draws on each pull. */
  const BatchSize: nat := 10

  datatype Arm =
    | Normal(m: real, sigma: real, lowerBound: Option<real>, upperBound: Option<real>)
    | Bernoulli(p: real)

  /** A sample a Normal arm may return: inside every bound that is set. */
  predicate Allowed(arm: Arm, x: real)
    requires arm.Normal?
  {
    && (arm.lowerBound.None? || x >= arm.lowerBound.value)
    && (arm.upperBound.None? || x <= arm.upperBound.value)
  }

  /** Position of the sample a Normal arm returns from one batch of candidates: the first
      allowed one. It is |batch| when no candidate is allowed, the case in which the
      source indexes an empty array. */
  function FirstAllowedIndex(arm: Arm, batch: seq<real>): (i: nat)
    requires arm.Normal?
    ensures i <= |batch|
    ensures i < |batch| ==> Allowed(arm, batch[i])
    ensures forall j :: 0 <= j < i ==> !Allowed(arm, batch[j])
  {
    if batch == [] then 0
    else if Allowed(arm, batch[0]) then 0
    else 1 + FirstAllowedIndex(arm, batch[1..])
  }

  /** An arm whose pull cannot fail: a truncation interval that is not empty, or a
      success probability numpy's binomial draw accepts. */
  predicate Pullable(arm: Arm)
  {
    match arm
    case Normal(_, _, lo, hi) => lo.None? || hi.None? || lo.value <= hi.value
    case Bernoulli(p) => 0.0 <= p <= 1.0
  }

  predicate AllPullable(arms: seq<Arm>)
  {
    forall i :: 0 <= i < |arms| ==> Pullable(arms[i])
  }

  /** The rewards one pull of the arm can return. */
  predicate CanYield(arm: Arm, r: real)
  {
    match arm
    case Normal(_, _, _, _) => Allowed(arm, r)
    case Bernoulli(p) =>
      && (r == 0.0 || r == 1.0)
      && (p == 0.0 ==> r == 0.0)
      && (p == 1.0 ==> r == 1.0)
  }

  /** One pull of the arm. The random draws are nondeterministic choices: for a Normal arm
      a batch of candidates of which at least one is allowed, for a Bernoulli arm the
      outcome of the trial. */
  method Pull(arm: Arm) returns (reward: real)
    requires Pullable(arm)
    ensures CanYield(arm, reward)
  {
    match arm
    case Normal(m, _, lo, hi) =>
      var w := if lo.Some? then lo.value else if hi.Some? then hi.value else m;
      var sample := seq(BatchSize, _ => w);
      assert Allowed(arm, sample[0]);
      assert FirstAllowedIndex(arm, sample) == 0;
      var batch: seq<real> :| |batch| == BatchSize && FirstAllowedIndex(arm, batch) < |batch|;
      reward := batch[FirstAllowedIndex(arm, batch)];
    case Bernoulli(p) =>
      var pick := p == 1.0;
      assert (p == 0.0 ==> !pick) && (p == 1.0 ==> pick);
      var success: bool :| (p == 0.0 ==> !success) && (p == 1.0 ==> success);
      reward := if success then 1.0 else 0.0;
  }

  /** An unbounded Normal arm returns the first candidate of its batch. */
  lemma UnboundedTakesFirstSample(arm: Arm, batch: seq<real>)
    requires arm.Normal? && arm.lowerBound.None? && arm.upperBound.None?
    requires batch != []
    ensures FirstAllowedIndex(arm, batch) == 0
  {
  }
}
