/**
 * The random source behind every `rand.Int(rand.Reader, big.NewInt(2))` call.
 * Entropy itself is not modelled: the caller supplies the sequence of draw
 * results, each a bit or a failure, and the source hands them out in order.
 * A draw past the end of the sequence fails (the source is exhausted).
 */
module Entropy {
  import opened Wrappers

  /** The value of a successful draw: rand.Int with bound 2 yields 0 or 1. */
  type Bit = x: int | 0 <= x < 2

  /** The result of the k-th draw. */
  function DrawAt(draws: seq<Option<Bit>>, k: nat): Option<Bit>
  {
    if k < |draws| then draws[k] else None
  }

  /**
   * How many of the n draws starting at `start` succeed before the first
   * failure (n when none of them fails).
   */
  function FirstFailure(draws: seq<Option<Bit>>, start: nat, n: nat): (k: nat)
    ensures k <= n
    ensures forall j :: start <= j < start + k ==> DrawAt(draws, j).Some?
    ensures k < n ==> DrawAt(draws, start + k).None?
    decreases n
  {
    if n == 0 || DrawAt(draws, start).None? then 0
    else 1 + FirstFailure(draws, start + 1, n - 1)
  }

  /** The n draws starting at `start` all succeed. */
  predicate Succeed(draws: seq<Option<Bit>>, start: nat, n: nat)
  {
    forall j :: start <= j < start + n ==> DrawAt(draws, j).Some?
  }

  /** No draw fails exactly when the first failure lies past the end. */
  lemma FirstFailureNone(draws: seq<Option<Bit>>, start: nat, n: nat)
    ensures FirstFailure(draws, start, n) == n <==> Succeed(draws, start, n)
  {
    var k := FirstFailure(draws, start, n);
    if k < n {
      assert DrawAt(draws, start + k).None?;
    }
  }

  /** The values of n draws from `start`, all of which succeed. */
  function DrawValues(draws: seq<Option<Bit>>, start: nat, n: nat): seq<int>
    requires Succeed(draws, start, n)
  {
    seq(n, i requires 0 <= i < n => DrawAt(draws, start + i).value)
  }

  /**
   * `out` is what a loop of |out| draws from `start` leaves in a zeroed slice:
   * the successful draws before the first failure, zeros after it; `ok` says
   * whether all draws succeeded, `used` is where the cursor stands (the
   * failing draw is consumed too).
   */
  ghost predicate Filled(draws: seq<Option<Bit>>, start: nat, out: seq<int>, ok: bool, used: nat)
  {
    var k := FirstFailure(draws, start, |out|);
    && ok == (k == |out|)
    && used == start + (if ok then k else k + 1)
    && (forall i :: 0 <= i < k ==> DrawAt(draws, start + i) == Some(out[i]))
    && (forall i :: k <= i < |out| ==> out[i] == 0)
  }

  /** A complete fill holds exactly the drawn values, and only bits. */
  lemma FilledValues(draws: seq<Option<Bit>>, start: nat, out: seq<int>, used: nat)
    requires Filled(draws, start, out, true, used)
    ensures Succeed(draws, start, |out|)
    ensures out == DrawValues(draws, start, |out|)
    ensures forall i :: 0 <= i < |out| ==> out[i] == 0 || out[i] == 1
  {
    FirstFailureNone(draws, start, |out|);
    var v := DrawValues(draws, start, |out|);
    forall i | 0 <= i < |out| ensures out[i] == v[i] {
      assert DrawAt(draws, start + i) == Some(out[i]);
    }
  }

  /** The process-wide random reader: a fixed sequence of draw results and a cursor. */
  class Source {
    const draws: seq<Option<Bit>>
    var used: nat

    constructor (draws: seq<Option<Bit>>)
      ensures this.draws == draws && used == 0
    {
      this.draws := draws;
      used := 0;
    }

    /** One call of rand.Int(rand.Reader, 2): the next draw result; the cursor always advances. */
    method Next() returns (d: Option<Bit>)
      modifies this`used
      ensures d == DrawAt(draws, old(used))
      ensures used == old(used) + 1
    {
      d := DrawAt(draws, used);
      used := used + 1;
    }
  }
}
