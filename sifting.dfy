/**
 * Basis sifting, the heart of BB84: which positions of a run survive into the
 * shared key. Bit and basis sequences are Go `[]int` / `[]Basis` values; a
 * basis is 0 (Z, computational) or 1 (X, Hadamard), but nothing here depends
 * on that.
 */
module Sifting {

  /** The positions, in increasing order, at which Alice and Bob chose the same basis. */
  function MatchingIndices(a: seq<int>, b: seq<int>): (r: seq<nat>)
    requires |a| == |b|
    ensures |r| <= |a|
    ensures forall k :: 0 <= k < |r| ==> r[k] < |a| && a[r[k]] == b[r[k]]
    ensures forall k, l :: 0 <= k < l < |r| ==> r[k] < r[l]
    decreases |a|
  {
    if |a| == 0 then []
    else
      var n := |a| - 1;
      MatchingIndices(a[..n], b[..n]) + (if a[n] == b[n] then [n] else [])
  }

  /** Every position at which the bases agree is listed, and only those. */
  lemma {:induction false} MatchingIndicesExact(a: seq<int>, b: seq<int>, i: nat)
    requires |a| == |b| && i < |a|
    ensures i in MatchingIndices(a, b) <==> a[i] == b[i]
    decreases |a|
  {
    var n := |a| - 1;
    if i < n {
      MatchingIndicesExact(a[..n], b[..n], i);
    }
  }

  /**
   * The sifted key: Alice's bits at the matching-basis positions, in position
   * order, built the way generateSharedKey appends them.
   */
  function Sift(bits: seq<int>, a: seq<int>, b: seq<int>): (key: seq<int>)
    requires |bits| == |a| == |b|
    ensures |key| + MismatchCount(a, b) == |a|
    decreases |a|
  {
    if |a| == 0 then []
    else
      var n := |a| - 1;
      Sift(bits[..n], a[..n], b[..n]) + (if a[n] == b[n] then [bits[n]] else [])
  }

  /** Extending the run by position i appends Alice's bit exactly when the bases match there. */
  lemma SiftStep(bits: seq<int>, a: seq<int>, b: seq<int>, i: nat)
    requires |bits| == |a| == |b| && i < |a|
    ensures Sift(bits[..i + 1], a[..i + 1], b[..i + 1])
         == Sift(bits[..i], a[..i], b[..i]) + (if a[i] == b[i] then [bits[i]] else [])
  {
    assert bits[..i + 1][..i] == bits[..i];
    assert a[..i + 1][..i] == a[..i];
    assert b[..i + 1][..i] == b[..i];
  }

  /** The k-th key bit is Alice's bit at the k-th matching position. */
  lemma {:induction false} SiftSelects(bits: seq<int>, a: seq<int>, b: seq<int>)
    requires |bits| == |a| == |b|
    ensures |Sift(bits, a, b)| == |MatchingIndices(a, b)|
    ensures forall k :: 0 <= k < |Sift(bits, a, b)| ==>
      Sift(bits, a, b)[k] == bits[MatchingIndices(a, b)[k]]
    decreases |a|
  {
    MatchesAndMismatches(a, b);
    if |a| > 0 {
      var n := |a| - 1;
      SiftSelects(bits[..n], a[..n], b[..n]);
    }
  }

  /** A key sifted from bits is made of bits. */
  lemma SiftKeepsBits(bits: seq<int>, a: seq<int>, b: seq<int>)
    requires |bits| == |a| == |b|
    requires forall i :: 0 <= i < |bits| ==> bits[i] == 0 || bits[i] == 1
    ensures forall k :: 0 <= k < |Sift(bits, a, b)| ==> Sift(bits, a, b)[k] == 0 || Sift(bits, a, b)[k] == 1
  {
    SiftSelects(bits, a, b);
  }

  /** The number of positions at which the bases differ: the fresh draws transmission takes. */
  function MismatchCount(a: seq<int>, b: seq<int>): (m: nat)
    requires |a| == |b|
    ensures m <= |a|
    decreases |a|
  {
    if |a| == 0 then 0
    else
      var n := |a| - 1;
      MismatchCount(a[..n], b[..n]) + (if a[n] == b[n] then 0 else 1)
  }

  /** Every position either matches or mismatches. */
  lemma {:induction false} MatchesAndMismatches(a: seq<int>, b: seq<int>)
    requires |a| == |b|
    ensures |MatchingIndices(a, b)| + MismatchCount(a, b) == |a|
    decreases |a|
  {
    if |a| > 0 {
      var n := |a| - 1;
      MatchesAndMismatches(a[..n], b[..n]);
    }
  }

  /** Extending both basis prefixes by one position adds one mismatch exactly when the bases differ there. */
  lemma MismatchStep(a: seq<int>, b: seq<int>, i: nat)
    requires |a| == |b| && i < |a|
    ensures MismatchCount(a[..i + 1], b[..i + 1])
         == MismatchCount(a[..i], b[..i]) + (if a[i] == b[i] then 0 else 1)
  {
    assert a[..i + 1][..i] == a[..i];
    assert b[..i + 1][..i] == b[..i];
  }

  /** Mismatches in a prefix never exceed those of the whole run. */
  lemma {:induction false} MismatchPrefix(a: seq<int>, b: seq<int>, i: nat)
    requires |a| == |b| && i <= |a|
    ensures MismatchCount(a[..i], b[..i]) <= MismatchCount(a, b)
    decreases |a| - i
  {
    if i == |a| {
      assert a[..i] == a && b[..i] == b;
    } else {
      MismatchPrefix(a, b, i + 1);
      MismatchStep(a, b, i);
    }
  }

  /**
   * The error count of calculateErrorRate: the matching-basis positions at
   * which Bob's channel outcome differs from Alice's bit.
   */
  function Disagreements(bits: seq<int>, outcomes: seq<int>, a: seq<int>, b: seq<int>): (e: nat)
    requires |bits| == |outcomes| == |a| == |b|
    ensures e + MismatchCount(a, b) <= |a|
    decreases |a|
  {
    if |a| == 0 then 0
    else
      var n := |a| - 1;
      Disagreements(bits[..n], outcomes[..n], a[..n], b[..n])
        + (if a[n] == b[n] && bits[n] != outcomes[n] then 1 else 0)
  }

  /** Extending the run by position i adds one disagreement exactly when the bases match there and the outcome differs. */
  lemma DisagreementsStep(bits: seq<int>, outcomes: seq<int>, a: seq<int>, b: seq<int>, i: nat)
    requires |bits| == |outcomes| == |a| == |b| && i < |a|
    ensures Disagreements(bits[..i + 1], outcomes[..i + 1], a[..i + 1], b[..i + 1])
         == Disagreements(bits[..i], outcomes[..i], a[..i], b[..i])
            + (if a[i] == b[i] && bits[i] != outcomes[i] then 1 else 0)
  {
    assert bits[..i + 1][..i] == bits[..i];
    assert outcomes[..i + 1][..i] == outcomes[..i];
    assert a[..i + 1][..i] == a[..i];
    assert b[..i + 1][..i] == b[..i];
  }

  /**
   * The quantum bit error rate: the share of matching-basis positions at
   * which Bob's outcome differs from Alice's bit, 0 when no basis matches.
   */
  function ErrorRate(errors: nat, total: nat): (rate: real)
    requires errors <= total
    ensures 0.0 <= rate <= 1.0
    ensures rate == 0.0 <==> errors == 0
    ensures rate == 1.0 <==> total > 0 && errors == total
  {
    if total == 0 then 0.0 else errors as real / total as real
  }

  /** There are no disagreements exactly when the outcomes equal Alice's bits at every matching position. */
  lemma {:induction false} NoDisagreements(bits: seq<int>, outcomes: seq<int>, a: seq<int>, b: seq<int>)
    requires |bits| == |outcomes| == |a| == |b|
    ensures Disagreements(bits, outcomes, a, b) == 0
        <==> forall i :: 0 <= i < |a| && a[i] == b[i] ==> outcomes[i] == bits[i]
    decreases |a|
  {
    if |a| > 0 {
      var n := |a| - 1;
      NoDisagreements(bits[..n], outcomes[..n], a[..n], b[..n]);
    }
  }
}
