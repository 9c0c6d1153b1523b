/** The random draws the agents make, as nondeterministic choices. */
module Random {

  /** A draw of numpy's uniform(0, 1). */
  method Uniform() returns (p: real)
    ensures 0.0 <= p < 1.0
  {
    p :| 0.0 <= p < 1.0;
  }

  /** A draw of numpy's random choice among n items: the position of the item chosen. */
  method Choice(n: nat) returns (i: nat)
    requires n > 0
    ensures i < n
  {
    i :| i < n;
  }
}
