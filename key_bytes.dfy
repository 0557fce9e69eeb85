/**
 * Key expansion and the keyed transform: convertKeyToBytes packs the sifted
 * bit key into bytes, most significant bit first, and xorBytes XORs a message
 * with that byte key repeated cyclically.
 */
module KeyBytes {

  /** Whether key position k holds a 1; positions past the end are padding and read as 0. */
  predicate IsOne(key: seq<int>, k: int)
  {
    0 <= k < |key| && key[k] == 1
  }

  /** The byte mask of bit position r counted from the most significant end. */
  function BitMask(r: nat): bv8
    requires r < 8
  {
    if r == 0 then 0x80 else if r == 1 then 0x40 else if r == 2 then 0x20 else if r == 3 then 0x10
    else if r == 4 then 0x08 else if r == 5 then 0x04 else if r == 6 then 0x02 else 0x01
  }

  /** The Go code computes the mask of position r as `1 << (7 - r)`. */
  method ShiftMask(r: nat) returns (mask: bv8)
    requires r < 8
    ensures mask == BitMask(r)
  {
    mask := 1 << (7 - r);
  }

  /** A byte is determined by its eight bits. */
  lemma ByteExtensionality(x: bv8, y: bv8)
    requires forall s :: 0 <= s < 8 ==> (x & BitMask(s) != 0 <==> y & BitMask(s) != 0)
    ensures x == y
  {
    assert x & 0x80 != 0 <==> y & 0x80 != 0 by { assert BitMask(0) == 0x80; }
    assert x & 0x40 != 0 <==> y & 0x40 != 0 by { assert BitMask(1) == 0x40; }
    assert x & 0x20 != 0 <==> y & 0x20 != 0 by { assert BitMask(2) == 0x20; }
    assert x & 0x10 != 0 <==> y & 0x10 != 0 by { assert BitMask(3) == 0x10; }
    assert x & 0x08 != 0 <==> y & 0x08 != 0 by { assert BitMask(4) == 0x08; }
    assert x & 0x04 != 0 <==> y & 0x04 != 0 by { assert BitMask(5) == 0x04; }
    assert x & 0x02 != 0 <==> y & 0x02 != 0 by { assert BitMask(6) == 0x02; }
    assert x & 0x01 != 0 <==> y & 0x01 != 0 by { assert BitMask(7) == 0x01; }
  }

  function Flag(key: seq<int>, k: int, r: nat): bv8
    requires r < 8
  {
    if IsOne(key, k) then BitMask(r) else 0
  }

  /** Byte j of the packed key: key positions 8j .. 8j+7, most significant bit first. */
  function PackedByte(key: seq<int>, j: nat): bv8
  {
    Flag(key, 8 * j, 0) | Flag(key, 8 * j + 1, 1) | Flag(key, 8 * j + 2, 2) | Flag(key, 8 * j + 3, 3)
    | Flag(key, 8 * j + 4, 4) | Flag(key, 8 * j + 5, 5) | Flag(key, 8 * j + 6, 6) | Flag(key, 8 * j + 7, 7)
  }

  /** The packed key: one byte per started group of eight bits. */
  function Pack(key: seq<int>): seq<bv8>
  {
    seq((|key| + 7) / 8, j requires 0 <= j => PackedByte(key, j))
  }

  /** Bit k of a byte string, most significant bit of byte 0 first. */
  predicate BitOf(bytes: seq<bv8>, k: nat)
    requires k < 8 * |bytes|
  {
    bytes[k / 8] & BitMask(k % 8) != 0
  }

  /** Only the mask of position r meets the mask of position s. */
  lemma MasksMeet(r: nat, s: nat)
    requires r < 8 && s < 8
    ensures BitMask(r) & BitMask(s) != 0 <==> r == s
  {
  }

  lemma FlagMeets(key: seq<int>, k: int, r: nat, s: nat)
    requires r < 8 && s < 8
    ensures Flag(key, k, r) & BitMask(s) != 0 <==> IsOne(key, k) && r == s
  {
    MasksMeet(r, s);
  }

  /** A packed byte has bit r set exactly when key position 8j + r holds a 1. */
  lemma PackedByteBit(key: seq<int>, j: nat, r: nat)
    requires r < 8
    ensures PackedByte(key, j) & BitMask(r) != 0 <==> IsOne(key, 8 * j + r)
  {
    var m := BitMask(r);
    FlagMeets(key, 8 * j, 0, r);
    FlagMeets(key, 8 * j + 1, 1, r);
    FlagMeets(key, 8 * j + 2, 2, r);
    FlagMeets(key, 8 * j + 3, 3, r);
    FlagMeets(key, 8 * j + 4, 4, r);
    FlagMeets(key, 8 * j + 5, 5, r);
    FlagMeets(key, 8 * j + 6, 6, r);
    FlagMeets(key, 8 * j + 7, 7, r);
    var f0, f1, f2, f3 := Flag(key, 8 * j, 0), Flag(key, 8 * j + 1, 1), Flag(key, 8 * j + 2, 2), Flag(key, 8 * j + 3, 3);
    var f4, f5, f6, f7 := Flag(key, 8 * j + 4, 4), Flag(key, 8 * j + 5, 5), Flag(key, 8 * j + 6, 6), Flag(key, 8 * j + 7, 7);
    assert (f0 | f1 | f2 | f3 | f4 | f5 | f6 | f7) & m
        == (f0 & m) | (f1 & m) | (f2 & m) | (f3 & m) | (f4 & m) | (f5 & m) | (f6 & m) | (f7 & m);
  }

  /**
   * The layout law of the packed key: it has (|key| + 7) / 8 bytes, and bit k
   * (most significant first) is set exactly when key[k] == 1; in particular
   * every padding bit past the end of the key is 0.
   */
  lemma PackLayout(key: seq<int>, k: nat)
    requires k < 8 * |Pack(key)|
    ensures |Pack(key)| == (|key| + 7) / 8
    ensures BitOf(Pack(key), k) <==> IsOne(key, k)
    ensures k >= |key| ==> !BitOf(Pack(key), k)
  {
    PackedByteBit(key, k / 8, k % 8);
  }

  /** The packed key is empty exactly when the bit key is. */
  lemma PackEmpty(key: seq<int>)
    ensures |Pack(key)| == 0 <==> |key| == 0
  {
  }

  /** Reading back the first n bits of a byte string as 0/1 values. */
  function Unpack(bytes: seq<bv8>, n: nat): (bits: seq<int>)
    requires n <= 8 * |bytes|
  {
    seq(n, k requires 0 <= k < n => if BitOf(bytes, k) then 1 else 0)
  }

  /** Packing loses nothing: a key of 0/1 values is read back from its packed bytes. */
  lemma UnpackPack(key: seq<int>)
    requires forall i :: 0 <= i < |key| ==> key[i] == 0 || key[i] == 1
    ensures |key| <= 8 * |Pack(key)|
    ensures Unpack(Pack(key), |key|) == key
  {
    forall k | 0 <= k < |key| ensures Unpack(Pack(key), |key|)[k] == key[k] {
      PackLayout(key, k);
    }
  }

  /** ORing in the mask of position r sets bit r and leaves the other bits as they were. */
  lemma SetBitMeets(y: bv8, r: nat, s: nat)
    requires r < 8 && s < 8
    ensures (y | BitMask(r)) & BitMask(s) != 0 <==> y & BitMask(s) != 0 || s == r
  {
    var m := BitMask(s);
    assert (y | BitMask(r)) & m == (y & m) | (BitMask(r) & m);
    MasksMeet(r, s);
  }

  /** Bit s of byte j is key position i exactly when j is i's byte and s its offset. */
  lemma Position(i: nat, j: nat, s: nat)
    requires s < 8
    ensures 8 * j + s == i <==> j == i / 8 && s == i % 8
  {
  }

  /** The bytes carry, bit for bit, the key's positions (most significant bit first). */
  ghost predicate CarriesBits(bytes: seq<bv8>, key: seq<int>)
  {
    forall j, s :: 0 <= j < |bytes| && 0 <= s < 8 ==>
      (bytes[j] & BitMask(s) != 0 <==> IsOne(key, 8 * j + s))
  }

  /** Byte strings of the packed length that carry the key's bits are the packed key. */
  lemma CarriesBitsIsPack(bytes: seq<bv8>, key: seq<int>)
    requires |bytes| == (|key| + 7) / 8 && CarriesBits(bytes, key)
    ensures bytes == Pack(key)
  {
    forall j | 0 <= j < |bytes| ensures bytes[j] == PackedByte(key, j) {
      forall s | 0 <= s < 8 ensures bytes[j] & BitMask(s) != 0 <==> PackedByte(key, j) & BitMask(s) != 0 {
        PackedByteBit(key, j, s);
      }
      ByteExtensionality(bytes[j], PackedByte(key, j));
    }
  }

  /** ORing the mask of position i into byte i / 8 extends the carried key by key[i] == 1. */
  lemma SetBitCarries(bytes: seq<bv8>, key: seq<int>, i: nat)
    requires i < |key| && key[i] == 1 && i / 8 < |bytes| && CarriesBits(bytes, key[..i])
    ensures CarriesBits(bytes[i / 8 := bytes[i / 8] | BitMask(i % 8)], key[..i + 1])
  {
    var after := bytes[i / 8 := bytes[i / 8] | BitMask(i % 8)];
    forall j, s | 0 <= j < |after| && 0 <= s < 8
      ensures after[j] & BitMask(s) != 0 <==> IsOne(key[..i + 1], 8 * j + s)
    {
      Position(i, j, s);
      assert IsOne(key[..i + 1], 8 * j + s) <==> IsOne(key[..i], 8 * j + s) || 8 * j + s == i;
      if j == i / 8 {
        SetBitMeets(bytes[j], i % 8, s);
      } else {
        assert after[j] == bytes[j];
      }
    }
  }

  /** A zero bit of the key leaves the carried bits as they are. */
  lemma ZeroBitCarries(bytes: seq<bv8>, key: seq<int>, i: nat)
    requires i < |key| && key[i] != 1 && CarriesBits(bytes, key[..i])
    ensures CarriesBits(bytes, key[..i + 1])
  {
    forall j, s | 0 <= j < |bytes| && 0 <= s < 8
      ensures bytes[j] & BitMask(s) != 0 <==> IsOne(key[..i + 1], 8 * j + s)
    {
      assert IsOne(key[..i + 1], 8 * j + s) == IsOne(key[..i], 8 * j + s);
    }
  }

  /** convertKeyToBytes: OR each 1 bit of the key into a zeroed byte buffer. */
  method ConvertKeyToBytes(key: seq<int>) returns (bytes: seq<bv8>)
    ensures bytes == Pack(key)
  {
    var byteLen := (|key| + 7) / 8;
    var buf := new bv8[byteLen](_ => 0);
    for i := 0 to |key|
      invariant CarriesBits(buf[..], key[..i])
    {
      if key[i] == 1 {
        assert i / 8 < byteLen;
        var mask := ShiftMask(i % 8);
        SetBitCarries(buf[..], key, i);
        buf[i / 8] := buf[i / 8] | mask;
      } else {
        ZeroBitCarries(buf[..], key, i);
      }
    }
    assert key[..|key|] == key;
    CarriesBitsIsPack(buf[..], key);
    bytes := buf[..];
  }

  /** The Go division by len(b) needs a non-empty key whenever there is something to transform. */
  predicate KeyCovers(keyLength: nat, messageLength: nat)
  {
    messageLength == 0 || keyLength > 0
  }

  /** The repeating-key transform: byte i of a is XORed with byte i mod |b| of b. */
  function Xor(a: seq<bv8>, b: seq<bv8>): (r: seq<bv8>)
    requires KeyCovers(|b|, |a|)
  {
    seq(|a|, i requires 0 <= i < |a| => a[i] ^ b[i % |b|])
  }

  /** The transform is its own inverse under the same key. */
  lemma XorSelfInverse(a: seq<bv8>, b: seq<bv8>)
    requires KeyCovers(|b|, |a|)
    ensures Xor(Xor(a, b), b) == a
  {
    var c := Xor(a, b);
    forall i | 0 <= i < |a| ensures Xor(c, b)[i] == a[i] {
      assert c[i] == a[i] ^ b[i % |b|];
    }
  }

  /** xorBytes: fill a result slice of len(a) with a[i] ^ b[i % len(b)]. */
  method XorBytes(a: seq<bv8>, b: seq<bv8>) returns (result: seq<bv8>)
    requires KeyCovers(|b|, |a|)
    ensures |result| == |a|
    ensures forall i :: 0 <= i < |a| ==> result[i] ^ b[i % |b|] == a[i]
    ensures result == Xor(a, b)
  {
    var buf := new bv8[|a|](_ => 0);
    for i := 0 to |a|
      invariant forall k :: 0 <= k < i ==> buf[k] == a[k] ^ b[k % |b|]
    {
      buf[i] := a[i] ^ b[i % |b|];
    }
    result := buf[..];
  }

  /** The worked example: key bits 1,0,1,1 pack to 0xB0, and the byte 'A' (0x41) becomes 0xF1. */
  lemma PackExample()
    ensures Pack([1, 0, 1, 1]) == [0xB0]
    ensures Xor([0x41], Pack([1, 0, 1, 1])) == [0xF1]
  {
    var key := [1, 0, 1, 1];
    assert IsOne(key, 0) && !IsOne(key, 1) && IsOne(key, 2) && IsOne(key, 3);
    assert forall k :: 4 <= k ==> !IsOne(key, k);
    assert PackedByte(key, 0) == 0xB0;
  }
}
