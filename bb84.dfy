/**
 * The BB84 sifting simulator: Alice draws bits and bases, Bob draws bases,
 * the simulated quantum channel carries Alice's bit where the bases agree and
 * a fresh random bit where they do not, and the shared key is Alice's bits at
 * the agreeing positions. Bases are 0 (Z) and 1 (X).
 */
module Protocol {
  import opened Wrappers
  import opened Entropy
  import opened Sifting
  import opened Channel

  /** The errors generateRandomBits and generateRandomBases return. */
  datatype DrawError = RandomBitFailed | RandomBasisFailed

  /** The errors RunProtocol returns, one per generation step. */
  datatype RunError = AliceBitsFailed | AliceBasesFailed | BobBasesFailed

  /**
   * The loop shared by generateRandomBits and generateRandomBases: a zeroed
   * slice of n entries filled draw by draw, stopping at the first failed draw.
   */
  method DrawArray(src: Source, n: nat) returns (a: array<int>, ok: bool)
    modifies src
    ensures fresh(a) && a.Length == n
    ensures Filled(src.draws, old(src.used), a[..], ok, src.used)
  {
    a := new int[n](_ => 0);
    var i := 0;
    while i < n
      invariant 0 <= i <= n
      invariant src.used == old(src.used) + i
      invariant forall j :: old(src.used) <= j < old(src.used) + i ==> DrawAt(src.draws, j).Some?
      invariant forall j :: 0 <= j < i ==> DrawAt(src.draws, old(src.used) + j) == Some(a[j])
      invariant forall j :: i <= j < n ==> a[j] == 0
    {
      var d := src.Next();
      if d.None? {
        assert FirstFailure(src.draws, old(src.used), n) == i;
        return a, false;
      }
      a[i] := d.value;
      i := i + 1;
    }
    assert FirstFailure(src.draws, old(src.used), n) == n;
    ok := true;
  }

  /** Alice or Bob: a name, and the bits and bases the party has drawn. */
  class Participant {
    var bits: array<int>
    var bases: array<int>
    const name: string

    constructor (name: string)
      ensures this.name == name && bits.Length == 0 && bases.Length == 0
    {
      this.name := name;
      bits := new int[0];
      bases := new int[0];
    }

    /** generateRandomBits: n random bits, or an error at the first failed draw. */
    method GenerateRandomBits(src: Source, n: nat) returns (err: Option<DrawError>)
      modifies this`bits, src
      ensures fresh(bits) && bits.Length == n
      ensures err.Some? ==> Filled(src.draws, old(src.used), bits[..], false, src.used)
      ensures err.None? <==> Succeed(src.draws, old(src.used), n)
      ensures err.None? ==> src.used == old(src.used) + n && bits[..] == DrawValues(src.draws, old(src.used), n)
      ensures err.Some? ==> err == Some(RandomBitFailed)
    {
      var a, ok := DrawArray(src, n);
      bits := a;
      FirstFailureNone(src.draws, old(src.used), n);
      if !ok {
        return Some(RandomBitFailed);
      }
      FilledValues(src.draws, old(src.used), bits[..], src.used);
      return None;
    }

    /** generateRandomBases: n random bases, or an error at the first failed draw. */
    method GenerateRandomBases(src: Source, n: nat) returns (err: Option<DrawError>)
      modifies this`bases, src
      ensures fresh(bases) && bases.Length == n
      ensures err.Some? ==> Filled(src.draws, old(src.used), bases[..], false, src.used)
      ensures err.None? <==> Succeed(src.draws, old(src.used), n)
      ensures err.None? ==> src.used == old(src.used) + n && bases[..] == DrawValues(src.draws, old(src.used), n)
      ensures err.Some? ==> err == Some(RandomBasisFailed)
    {
      var a, ok := DrawArray(src, n);
      bases := a;
      FirstFailureNone(src.draws, old(src.used), n);
      if !ok {
        return Some(RandomBasisFailed);
      }
      FilledValues(src.draws, old(src.used), bases[..], src.used);
      return None;
    }
  }

  /**
   * The channel outcome at position j: Alice's bit where the bases agree;
   * where they differ, the next fresh draw after those taken for the
   * mismatches before j.
   */
  ghost predicate OutcomeAt(bits: seq<int>, a: seq<int>, b: seq<int>, outcomes: seq<int>,
                            draws: seq<Option<Bit>>, start: nat, j: nat)
    requires |bits| == |a| == |b| == |outcomes| && j < |a|
  {
    if a[j] == b[j] then outcomes[j] == bits[j]
    else DrawAt(draws, start + MismatchCount(a[..j], b[..j])) == Some(outcomes[j])
  }

  /** The first i channel positions follow the transmission law. */
  ghost predicate TransmittedUpTo(bits: seq<int>, a: seq<int>, b: seq<int>, outcomes: seq<int>,
                                  draws: seq<Option<Bit>>, start: nat, i: nat)
    requires |bits| == |a| == |b| == |outcomes| && i <= |a|
  {
    forall j :: 0 <= j < i ==> OutcomeAt(bits, a, b, outcomes, draws, start, j)
  }

  /** The whole channel follows the transmission law, its fresh draws taken from `start` on. */
  ghost predicate ChannelLaw(bits: seq<int>, a: seq<int>, b: seq<int>, outcomes: seq<int>,
                             draws: seq<Option<Bit>>, start: nat)
    requires |bits| == |a| == |b|
  {
    |outcomes| == |a| && TransmittedUpTo(bits, a, b, outcomes, draws, start, |a|)
  }

  /** Writing the lawful outcome v at position i extends the lawful prefix by one. */
  lemma TransmitStep(bits: seq<int>, a: seq<int>, b: seq<int>, outcomes: seq<int>,
                     draws: seq<Option<Bit>>, start: nat, i: nat, v: int)
    requires |bits| == |a| == |b| == |outcomes| && i < |a|
    requires TransmittedUpTo(bits, a, b, outcomes, draws, start, i)
    requires if a[i] == b[i] then v == bits[i]
             else DrawAt(draws, start + MismatchCount(a[..i], b[..i])) == Some(v)
    ensures TransmittedUpTo(bits, a, b, outcomes[i := v], draws, start, i + 1)
  {
    var after := outcomes[i := v];
    forall j | 0 <= j < i + 1 ensures OutcomeAt(bits, a, b, after, draws, start, j) {
      if j < i {
        assert OutcomeAt(bits, a, b, outcomes, draws, start, j);
      }
    }
  }

  /** Under the transmission law Bob's outcome is Alice's bit at every matching position, and a bit everywhere when Alice's are. */
  lemma ChannelLawAgrees(bits: seq<int>, a: seq<int>, b: seq<int>, outcomes: seq<int>,
                         draws: seq<Option<Bit>>, start: nat)
    requires |bits| == |a| == |b| && ChannelLaw(bits, a, b, outcomes, draws, start)
    ensures forall i :: 0 <= i < |a| && a[i] == b[i] ==> outcomes[i] == bits[i]
    ensures Disagreements(bits, outcomes, a, b) == 0
    ensures (forall i :: 0 <= i < |a| ==> bits[i] == 0 || bits[i] == 1)
        ==> forall i :: 0 <= i < |a| ==> outcomes[i] == 0 || outcomes[i] == 1
  {
    forall i | 0 <= i < |a| ensures a[i] == b[i] ==> outcomes[i] == bits[i] {
      assert OutcomeAt(bits, a, b, outcomes, draws, start, i);
    }
    NoDisagreements(bits, outcomes, a, b);
    forall i | 0 <= i < |a| && a[i] != b[i] ensures outcomes[i] == 0 || outcomes[i] == 1 {
      assert OutcomeAt(bits, a, b, outcomes, draws, start, i);
    }
  }

  /**
   * The failure RunProtocol reports for the draws from `s`: the first of the
   * three generation steps (N draws each, in order) that meets a failed draw.
   */
  function RunFailure(draws: seq<Option<Bit>>, s: nat, n: nat): Option<RunError>
  {
    if !Succeed(draws, s, n) then Some(AliceBitsFailed)
    else if !Succeed(draws, s + n, n) then Some(AliceBasesFailed)
    else if !Succeed(draws, s + 2 * n, n) then Some(BobBasesFailed)
    else None
  }

  /**
   * The draws simulateQuantumTransmission takes after successful generation
   * succeed too (the Go code ignores their error and would dereference nil).
   */
  ghost predicate NoiseAvailable(draws: seq<Option<Bit>>, s: nat, n: nat)
  {
    RunFailure(draws, s, n).None? ==>
      Succeed(draws, s + 3 * n,
                   MismatchCount(DrawValues(draws, s + n, n), DrawValues(draws, s + 2 * n, n)))
  }

  /** BB84Protocol: the two parties, the bit count, the channel, the sifted key and (backend) the secure channel. */
  class BB84Protocol {
    const alice: Participant
    const bob: Participant
    const numberOfBits: nat
    var sharedKey: seq<int>
    var quantumChannel: array<int>
    var secureChannel: SecureChannel?

    ghost predicate Valid()
    {
      alice != bob
    }

    /** Both parties hold at least numberOfBits bits and bases, so every index the steps read exists. */
    ghost predicate Generated()
      reads alice`bits, alice`bases, bob`bases
    {
      alice.bits.Length >= numberOfBits && alice.bases.Length >= numberOfBits
      && bob.bases.Length >= numberOfBits
    }

    ghost function AliceBits(): seq<int>
      reads alice`bits, alice.bits
      requires alice.bits.Length >= numberOfBits
    {
      alice.bits[..numberOfBits]
    }

    ghost function AliceBases(): seq<int>
      reads alice`bases, alice.bases
      requires alice.bases.Length >= numberOfBits
    {
      alice.bases[..numberOfBits]
    }

    ghost function BobBases(): seq<int>
      reads bob`bases, bob.bases
      requires bob.bases.Length >= numberOfBits
    {
      bob.bases[..numberOfBits]
    }

    ghost function Outcomes(): seq<int>
      reads this`quantumChannel, quantumChannel
      requires quantumChannel.Length >= numberOfBits
    {
      quantumChannel[..numberOfBits]
    }

    /** Bob's outcome equals Alice's bit at every position where the bases agree. */
    ghost predicate ChannelAgrees()
      reads alice`bits, alice`bases, bob`bases, this`quantumChannel
      reads alice.bits, alice.bases, bob.bases, quantumChannel
      requires Generated() && quantumChannel.Length >= numberOfBits
    {
      forall i :: 0 <= i < numberOfBits && AliceBases()[i] == BobBases()[i] ==>
        Outcomes()[i] == AliceBits()[i]
    }

    /**
     * The state a successful run leaves, for the draws from `s`: Alice's bits,
     * Alice's bases and Bob's bases are the three blocks of N draws in that
     * order, the channel follows the transmission law with its fresh draws
     * after them, and the shared key is the sifted key.
     */
    ghost predicate Completed(draws: seq<Option<Bit>>, s: nat)
      reads this, alice, bob, alice.bits, alice.bases, bob.bases, quantumChannel
    {
      var n := numberOfBits;
      && alice.bits.Length == n && alice.bases.Length == n && bob.bases.Length == n
      && quantumChannel.Length == n
      && RunFailure(draws, s, n).None?
      && AliceBits() == DrawValues(draws, s, n)
      && AliceBases() == DrawValues(draws, s + n, n)
      && BobBases() == DrawValues(draws, s + 2 * n, n)
      && ChannelLaw(AliceBits(), AliceBases(), BobBases(), quantumChannel[..], draws, s + 3 * n)
      && sharedKey == Sift(AliceBits(), AliceBases(), BobBases())
    }

    /** NewBB84Protocol: Alice and Bob with nothing drawn yet. */
    constructor (bits: nat)
      ensures Valid() && numberOfBits == bits
      ensures fresh(alice) && fresh(bob) && alice.name == "Alice" && bob.name == "Bob"
      ensures alice.bits.Length == 0 && alice.bases.Length == 0 && bob.bits.Length == 0 && bob.bases.Length == 0
      ensures sharedKey == [] && quantumChannel.Length == 0 && secureChannel == null
    {
      alice := new Participant("Alice");
      bob := new Participant("Bob");
      numberOfBits := bits;
      sharedKey := [];
      quantumChannel := new int[0];
      secureChannel := null;
    }

    /**
     * simulateQuantumTransmission: a fresh channel of numberOfBits outcomes,
     * Alice's bit where the bases agree, the next draw where they differ.
     */
    method SimulateQuantumTransmission(src: Source)
      requires Generated()
      requires Succeed(src.draws, src.used, MismatchCount(AliceBases(), BobBases()))
      modifies this`quantumChannel, src
      ensures fresh(quantumChannel)
      ensures ChannelLaw(AliceBits(), AliceBases(), BobBases(), quantumChannel[..], src.draws, old(src.used))
      ensures src.used == old(src.used) + MismatchCount(AliceBases(), BobBases())
      ensures ChannelAgrees()
    {
      ghost var bits, a, b := AliceBits(), AliceBases(), BobBases();
      ghost var start := src.used;
      ghost var m := MismatchCount(a, b);
      var channel := new int[numberOfBits](_ => 0);
      var i := 0;
      while i < numberOfBits
        invariant 0 <= i <= numberOfBits
        invariant src.used == start + MismatchCount(a[..i], b[..i])
        invariant TransmittedUpTo(bits, a, b, channel[..], src.draws, start, i)
      {
        ghost var before := channel[..];
        MismatchStep(a, b, i);
        if alice.bases[i] == bob.bases[i] {
          channel[i] := alice.bits[i];
        } else {
          MismatchPrefix(a, b, i + 1);
          assert start <= src.used < start + m;
          var d := src.Next();
          channel[i] := d.value;
        }
        TransmitStep(bits, a, b, before, src.draws, start, i, channel[i]);
        assert channel[..] == before[i := channel[i]];
        i := i + 1;
      }
      assert a[..numberOfBits] == a && b[..numberOfBits] == b;
      quantumChannel := channel;
      ChannelLawAgrees(bits, a, b, channel[..], src.draws, start);
      assert AliceBits() == bits && AliceBases() == a && BobBases() == b;
      assert Outcomes() == channel[..];
    }

    /** generateSharedKey: append Alice's bit at every position where the bases agree. */
    method GenerateSharedKey()
      requires Generated()
      modifies this`sharedKey
      ensures sharedKey == Sift(AliceBits(), AliceBases(), BobBases())
      ensures |sharedKey| + MismatchCount(AliceBases(), BobBases()) == numberOfBits
    {
      ghost var bits, a, b := AliceBits(), AliceBases(), BobBases();
      sharedKey := [];
      for i := 0 to numberOfBits
        invariant sharedKey == Sift(bits[..i], a[..i], b[..i])
      {
        SiftStep(bits, a, b, i);
        if alice.bases[i] == bob.bases[i] {
          sharedKey := sharedKey + [alice.bits[i]];
        }
      }
      assert bits[..numberOfBits] == bits && a[..numberOfBits] == a && b[..numberOfBits] == b;
    }

    /**
     * calculateErrorRate: count the matching-basis positions (total) and those
     * at which the channel differs from Alice's bit (errors); the rate is
     * errors / total, or 0 when no basis matches.
     */
    method CalculateErrorRate() returns (rate: real)
      requires Generated() && quantumChannel.Length >= numberOfBits
      ensures Disagreements(AliceBits(), Outcomes(), AliceBases(), BobBases())
              <= |Sift(AliceBits(), AliceBases(), BobBases())|
      ensures rate == ErrorRate(Disagreements(AliceBits(), Outcomes(), AliceBases(), BobBases()),
                                |Sift(AliceBits(), AliceBases(), BobBases())|)
      ensures rate == 0.0 <==> ChannelAgrees()
    {
      ghost var bits, outcomes, a, b := AliceBits(), Outcomes(), AliceBases(), BobBases();
      var errors, total := 0, 0;
      for i := 0 to numberOfBits
        invariant total + MismatchCount(a[..i], b[..i]) == i
        invariant errors == Disagreements(bits[..i], outcomes[..i], a[..i], b[..i])
      {
        MismatchStep(a, b, i);
        DisagreementsStep(bits, outcomes, a, b, i);
        if alice.bases[i] == bob.bases[i] {
          total := total + 1;
          if alice.bits[i] != quantumChannel[i] {
            errors := errors + 1;
          }
        }
      }
      assert bits[..numberOfBits] == bits && outcomes[..numberOfBits] == outcomes;
      assert a[..numberOfBits] == a && b[..numberOfBits] == b;
      NoDisagreements(bits, outcomes, a, b);
      if total == 0 {
        return 0.0;
      }
      return errors as real / total as real;
    }

    /**
     * What a drawing phase that stopped with error e leaves, for the draws
     * from s: the parties of the steps before e hold their N draws, the party
     * of step e holds the partly filled N-entry slice of that step, and the
     * arrays of the steps after e are those the parties held before (given
     * as aliceBases0 and bobBases0).
     */
    ghost predicate FailureState(e: RunError, draws: seq<Option<Bit>>, s: nat, used: nat,
                                 aliceBases0: array<int>, bobBases0: array<int>)
      reads alice`bits, alice`bases, bob`bases, alice.bits, alice.bases, bob.bases
    {
      var n := numberOfBits;
      match e
      case AliceBitsFailed =>
        && alice.bits.Length == n && Filled(draws, s, alice.bits[..], false, used)
        && alice.bases == aliceBases0 && bob.bases == bobBases0
      case AliceBasesFailed =>
        && Succeed(draws, s, n) && alice.bits[..] == DrawValues(draws, s, n)
        && alice.bases.Length == n && Filled(draws, s + n, alice.bases[..], false, used)
        && bob.bases == bobBases0
      case BobBasesFailed =>
        && Succeed(draws, s, n) && alice.bits[..] == DrawValues(draws, s, n)
        && Succeed(draws, s + n, n) && alice.bases[..] == DrawValues(draws, s + n, n)
        && bob.bases.Length == n && Filled(draws, s + 2 * n, bob.bases[..], false, used)
    }

    /**
     * The drawing phase of runProtocol: Alice's bits, Alice's bases and Bob's
     * bases, in that order, each of numberOfBits draws; the first failed step
     * stops the phase with its error.
     */
    method DrawInputs(src: Source) returns (err: Option<RunError>)
      requires Valid()
      modifies alice, bob, src
      ensures err == RunFailure(src.draws, old(src.used), numberOfBits)
      ensures bob.bits == old(bob.bits)
      ensures err.Some? ==> FailureState(err.value, src.draws, old(src.used), src.used, old(alice.bases), old(bob.bases))
      ensures err.None? ==>
        && alice.bits.Length == numberOfBits && alice.bases.Length == numberOfBits
        && bob.bases.Length == numberOfBits
        && AliceBits() == DrawValues(src.draws, old(src.used), numberOfBits)
        && AliceBases() == DrawValues(src.draws, old(src.used) + numberOfBits, numberOfBits)
        && BobBases() == DrawValues(src.draws, old(src.used) + 2 * numberOfBits, numberOfBits)
        && src.used == old(src.used) + 3 * numberOfBits
    {
      ghost var s, n := src.used, numberOfBits;
      var e := alice.GenerateRandomBits(src, numberOfBits);
      if e.Some? {
        return Some(AliceBitsFailed);
      }
      assert AliceBits() == DrawValues(src.draws, s, n);
      ghost var s1 := src.used;
      assert s1 == s + n && Succeed(src.draws, s, n);
      e := alice.GenerateRandomBases(src, numberOfBits);
      if e.Some? {
        return Some(AliceBasesFailed);
      }
      assert AliceBases() == DrawValues(src.draws, s1, n);
      ghost var s2 := src.used;
      assert s2 == s + 2 * n && Succeed(src.draws, s + n, n);
      e := bob.GenerateRandomBases(src, numberOfBits);
      if e.Some? {
        return Some(BobBasesFailed);
      }
      assert BobBases() == DrawValues(src.draws, s2, n);
      assert RunFailure(src.draws, s, n).None?;
      err := None;
    }

    /**
     * RunProtocol (main.go): the drawing phase, then transmission and
     * sifting; a failed draw returns its error before transmission and
     * sifting run. On success the run is Completed.
     */
    method RunProtocol(src: Source) returns (err: Option<RunError>)
      requires Valid()
      requires NoiseAvailable(src.draws, src.used, numberOfBits)
      modifies this`sharedKey, this`quantumChannel, alice, bob, src
      ensures Valid()
      ensures err == RunFailure(src.draws, old(src.used), numberOfBits)
      ensures bob.bits == old(bob.bits)
      ensures err.Some? ==> sharedKey == old(sharedKey) && quantumChannel == old(quantumChannel)
      ensures err.Some? ==> FailureState(err.value, src.draws, old(src.used), src.used, old(alice.bases), old(bob.bases))
      ensures err.None? ==> Completed(src.draws, old(src.used))
      ensures err.None? ==> ChannelAgrees()
      ensures err.None? ==> src.used == old(src.used) + 3 * numberOfBits + MismatchCount(AliceBases(), BobBases())
    {
      err := DrawInputs(src);
      if err.Some? {
        return;
      }
      ghost var bits, a, b := AliceBits(), AliceBases(), BobBases();
      SimulateQuantumTransmission(src);
      GenerateSharedKey();
      assert AliceBits() == bits && AliceBases() == a && BobBases() == b;
    }

    /**
     * RunProtocol (backend): the same run; on success it also opens a
     * SecureChannel over the sifted key with an empty log, on failure no
     * channel is built and the previous one stays.
     */
    method RunProtocolWithChannel(src: Source) returns (err: Option<RunError>)
      requires Valid()
      requires NoiseAvailable(src.draws, src.used, numberOfBits)
      modifies this, alice, bob, src
      ensures Valid()
      ensures err == RunFailure(src.draws, old(src.used), numberOfBits)
      ensures bob.bits == old(bob.bits)
      ensures err.Some? ==> secureChannel == old(secureChannel) && sharedKey == old(sharedKey)
                            && quantumChannel == old(quantumChannel)
      ensures err.Some? ==> FailureState(err.value, src.draws, old(src.used), src.used, old(alice.bases), old(bob.bases))
      ensures err.None? ==> Completed(src.draws, old(src.used))
      ensures err.None? ==> ChannelAgrees()
      ensures err.None? ==> src.used == old(src.used) + 3 * numberOfBits + MismatchCount(AliceBases(), BobBases())
      ensures err.None? ==> fresh(secureChannel) && secureChannel.sharedKey == sharedKey
                            && secureChannel.messages == []
    {
      err := RunProtocol(src);
      if err.None? {
        secureChannel := new SecureChannel(sharedKey);
      }
    }
  }
}
