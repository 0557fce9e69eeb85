/**
 * The keyed channel between Alice and Bob: messages are transformed with the
 * packed shared key, carried as base64 text, and logged in send order.
 */
module Channel {
  import opened Wrappers
  import opened KeyBytes

  /** A logged message: base64 ciphertext and the sender's name. */
  datatype Message = Message(ciphertext: string, sender: string)

  /**
   * The text encoding of ciphertext bytes (base64 with the standard alphabet
   * in the Go code). It is a parameter of the model; decoding may fail.
   */
  datatype Codec = Codec(encode: seq<bv8> -> string, decode: string -> Option<seq<bv8>>)

  /** Decoding undoes encoding, as section 4 of RFC 4648 guarantees for base64. */
  ghost predicate Inverts(codec: Codec)
  {
    forall bytes :: codec.decode(codec.encode(bytes)) == Some(bytes)
  }

  /** The failure DecryptMessage reports when the ciphertext does not decode. */
  datatype DecryptError = MalformedCiphertext

  /** The ciphertext text EncryptMessage produces for a plaintext under a bit key. */
  function Ciphertext(codec: Codec, key: seq<int>, plaintext: seq<bv8>): string
    requires KeyCovers(|key|, |plaintext|)
  {
    codec.encode(Xor(plaintext, Pack(key)))
  }

  /** DecryptMessage runs without the divide-by-zero panic: what decodes is empty or the key is not. */
  predicate CanDecrypt(codec: Codec, key: seq<int>, ciphertext: string)
  {
    match codec.decode(ciphertext)
    case None => true
    case Some(bytes) => KeyCovers(|key|, |bytes|)
  }

  /** The plaintext DecryptMessage recovers from a ciphertext text, or None when it does not decode. */
  function Plaintext(codec: Codec, key: seq<int>, ciphertext: string): Option<seq<bv8>>
    requires CanDecrypt(codec, key, ciphertext)
  {
    match codec.decode(ciphertext)
    case None => None
    case Some(bytes) => Some(Xor(bytes, Pack(key)))
  }

  /** Decryption undoes encryption under the same key, for every plaintext the key covers. */
  lemma RoundTrip(codec: Codec, key: seq<int>, plaintext: seq<bv8>)
    requires Inverts(codec)
    requires KeyCovers(|key|, |plaintext|)
    ensures CanDecrypt(codec, key, Ciphertext(codec, key, plaintext))
    ensures Plaintext(codec, key, Ciphertext(codec, key, plaintext)) == Some(plaintext)
  {
    var bytes := Xor(plaintext, Pack(key));
    assert codec.decode(codec.encode(bytes)) == Some(bytes);
    XorSelfInverse(plaintext, Pack(key));
  }

  /** The same plaintext under the same key always gives the same ciphertext: no nonce is mixed in. */
  lemma SameCiphertext(codec: Codec, key: seq<int>, p: seq<bv8>, q: seq<bv8>)
    requires Inverts(codec)
    requires KeyCovers(|key|, |p|) && KeyCovers(|key|, |q|)
    ensures Ciphertext(codec, key, p) == Ciphertext(codec, key, q) <==> p == q
  {
    if Ciphertext(codec, key, p) == Ciphertext(codec, key, q) {
      RoundTrip(codec, key, p);
      RoundTrip(codec, key, q);
    }
  }

  /** SecureChannel: a shared bit key and the append-only log of sent messages. */
  class SecureChannel {
    const sharedKey: seq<int>
    var messages: seq<Message>

    /** NewSecureChannel: the channel starts with an empty log. */
    constructor (key: seq<int>)
      ensures sharedKey == key && messages == []
    {
      sharedKey := key;
      messages := [];
    }

    /**
     * EncryptMessage: transform the plaintext with the packed key, encode it,
     * and append exactly one message to the log; earlier entries stay as they are.
     */
    method EncryptMessage(codec: Codec, plaintext: seq<bv8>, sender: string) returns (msg: Message)
      requires KeyCovers(|sharedKey|, |plaintext|)
      modifies this`messages
      ensures msg == Message(Ciphertext(codec, sharedKey, plaintext), sender)
      ensures messages == old(messages) + [msg]
      ensures |messages| == |old(messages)| + 1 && messages[..|old(messages)|] == old(messages)
    {
      var keyBytes := ConvertKeyToBytes(sharedKey);
      var cipherBytes := XorBytes(plaintext, keyBytes);
      var ciphertext := codec.encode(cipherBytes);
      msg := Message(ciphertext, sender);
      messages := messages + [msg];
    }

    /**
     * DecryptMessage: decode the ciphertext and transform it back with the packed
     * key; a ciphertext that does not decode yields an empty plaintext and an
     * error. The log is not touched.
     */
    method DecryptMessage(codec: Codec, msg: Message) returns (plaintext: seq<bv8>, err: Option<DecryptError>)
      requires CanDecrypt(codec, sharedKey, msg.ciphertext)
      ensures err.None? <==> codec.decode(msg.ciphertext).Some?
      ensures err.Some? ==> err == Some(MalformedCiphertext) && plaintext == []
      ensures err.None? ==> Plaintext(codec, sharedKey, msg.ciphertext) == Some(plaintext)
      ensures err.None? ==> |plaintext| == |codec.decode(msg.ciphertext).value|
    {
      var keyBytes := ConvertKeyToBytes(sharedKey);
      var decoded := codec.decode(msg.ciphertext);
      if decoded.None? {
        return [], Some(MalformedCiphertext);
      }
      plaintext := XorBytes(decoded.value, keyBytes);
      err := None;
    }
  }
}
