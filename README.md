# BB84 key sifting and the keyed secure channel

This project models the core of Q-Chat, a BB84 quantum key distribution simulator written in Go, and proves properties of the model. The core is `main.go`. `backend/bb84.go` repeats the same functions under exported field names, except `calculateErrorRate` and `main`, which it does not have; its RunProtocol also opens a SecureChannel.

- **Drawing.** Alice draws `numberOfBits` random bits and as many random bases. Bob draws as many bases.
- **Transmission.** The simulated quantum channel carries Alice's bit wherever the two bases agree. Wherever they differ it carries a fresh random bit.
- **Sifting.** The shared key is Alice's bits at the agreeing positions, in order.
- **Error rate.** This is the share of agreeing positions at which the channel differs from Alice's bit.
- **Messages.** They are XORed with the shared key packed into bytes (most significant bit first, key repeated cyclically). They are then carried as base64 text and logged in send order.

Modules:

- `Wrappers` (wrappers.dfy): `Option`.
- `Entropy` (entropy.dfy): the random reader behind every `rand.Int(rand.Reader, big.NewInt(2))` call.
  - The caller supplies the sequence of draw results, each a bit or a failure.
  - A `Source` object hands the results out in order.
  - `Filled` describes what a draw loop leaves in a zeroed slice, including when it stops at a failure.
- `Sifting` (sifting.dfy): pure definitions of the run's outcome and the lemmas about them.
  - `MatchingIndices`, `Sift` (the sifted key), `MismatchCount` (the fresh draws transmission needs), `Disagreements` and `ErrorRate`.
- `KeyBytes` (key_bytes.dfy): `convertKeyToBytes` and `xorBytes` as array loops, proved against the functions `Pack` and `Xor`.
  - Packing is stated bit by bit (`PackLayout`) and is shown to lose nothing (`UnpackPack`).
  - The XOR transform is its own inverse.
- `Channel` (secure_channel.dfy): `SecureChannel` as a class with an append-only message log.
  - The base64 codec is a parameter, a pair of functions (`Codec`).
  - `Inverts` is its decode-after-encode law (section 4 of RFC 4648).
- `Protocol` (bb84.dfy): `Participant` and `BB84Protocol` as classes whose methods update their fields and arrays in place, as the Go code does.
  - `RunProtocol` reports exactly the first failing generation step (`RunFailure`).
  - On success it leaves the `Completed` state. In that state Alice's bits and both parties' bases are consecutive blocks of draws, the channel follows the transmission law, and the shared key is `Sift` of the run.
  - Consequently Bob's outcome equals Alice's bit at every agreeing position, and the error rate of a completed run is 0 (`ChannelAgrees`, with `CalculateErrorRate`'s `rate == 0.0 <==> ChannelAgrees()`).

## Model

| member | source | states |
|---|---|---|
| Entropy.FirstFailure | main.go:66-70 | The number of successful draws before the first failure: at most n. Every draw before it succeeds, and the draw at it fails. |
| Entropy.FirstFailureNone | main.go:66-73 | A loop of n draws runs to completion exactly when all n draws succeed. |
| Entropy.FilledValues | main.go:65-73 | A draw loop that ran to completion leaves exactly the n drawn values, each 0 or 1. |
| Entropy.Source.constructor | main.go:67 | The reader starts at the first draw result. |
| Entropy.Source.Next | main.go:67-68 | One `rand.Int` call returns the result at the cursor (a failure past the end), and the cursor advances by one. |
| Sifting.MatchingIndices | main.go:109-113 | The positions where Alice's and Bob's bases agree: strictly increasing, in range, and each a match. |
| Sifting.MatchingIndicesExact | main.go:110 | A position is listed if and only if the two bases agree there. |
| Sifting.Sift | main.go:107-114 | The sifted key's length plus the number of mismatched positions is the run length. |
| Sifting.SiftSelects | main.go:107-114 | The k-th key bit is Alice's bit at the k-th matching position. The key has one bit per match. |
| Sifting.SiftKeepsBits | main.go:111 | A key sifted from 0/1 bits holds only 0/1 values. |
| Sifting.MismatchCount | main.go:96-101 | The number of fresh draws transmission takes is at most the run length. |
| Sifting.MatchesAndMismatches | main.go:94-103 | Matching positions plus mismatching positions make up the whole run. |
| Sifting.MismatchPrefix | main.go:94-103 | The draws taken before any position never exceed those of the whole run. |
| Sifting.Disagreements | main.go:121-128 | The number of erroneous matching positions, plus the mismatches, is at most the run length, so it never exceeds the matching positions. |
| Sifting.NoDisagreements | main.go:121-128 | There are no errors if and only if the outcome equals Alice's bit at every matching position. |
| Sifting.ErrorRate | main.go:130-133 | The rate lies in [0, 1]. It is 0 exactly when there are no errors (also when no basis matches). It is 1 exactly when every matching position is in error. |
| KeyBytes.ShiftMask | main.go:143 | `1 << (7 - r)` is the mask of bit position r counted from the most significant end. |
| KeyBytes.PackedByteBit | main.go:141-145 | Bit r of packed byte j is set exactly when key position 8j + r holds a 1. |
| KeyBytes.PackLayout | main.go:137-147 | The packed key has (n + 7) / 8 bytes. Bit k is set exactly when key[k] == 1, so every padding bit is 0. |
| KeyBytes.PackEmpty | main.go:138 | The packed key is empty exactly when the bit key is. |
| KeyBytes.UnpackPack | main.go:137-147 | Reading back the first n bits of the packed bytes gives back a 0/1 key. |
| KeyBytes.ConvertKeyToBytes | main.go:137-147 | Setting each 1 bit in a zeroed buffer yields exactly the packed key. |
| KeyBytes.XorSelfInverse | main.go:150-156 | Transforming twice with the same key gives back the input. |
| KeyBytes.XorBytes | main.go:150-156 | The result has len(a) bytes. XORing byte i again with key byte i mod len(b) gives back a[i]. The result is the repeating-key transform. |
| KeyBytes.PackExample | main.go:137-156 | Key 1,0,1,1 packs to 0xB0, and byte 0x41 transforms to 0xF1. |
| Channel.RoundTrip | main.go:159-186 | Decryption undoes encryption with the same key for any plaintext the key covers, given a codec whose decoding inverts its encoding. |
| Channel.SameCiphertext | main.go:159-164 | Encryption is deterministic and injective: two plaintexts share a ciphertext exactly when they are equal. |
| Channel.SecureChannel.constructor | main.go:56-61 | The channel keeps the given key and starts with an empty message log. |
| Channel.SecureChannel.EncryptMessage | main.go:159-173 | The message holds the encoded transform and the sender. The log gains exactly that message at its end, and earlier entries are unchanged. |
| Channel.SecureChannel.DecryptMessage | main.go:176-186 | Decryption fails (empty plaintext) exactly when the ciphertext does not decode. Otherwise the plaintext is the transform of the decoded bytes, with their length. |
| Protocol.DrawArray | main.go:65-73 | The fresh slice of n entries holds the draws before the first failure and zeros after it. The cursor stands just past the failing draw. |
| Protocol.Participant.constructor | main.go:49-50 | A named party with no bits or bases yet. |
| Protocol.Participant.GenerateRandomBits | main.go:64-74 | Returns an error exactly when one of the n draws fails, leaving the partly filled slice. Otherwise the bits are the n draws and the cursor advances by n. |
| Protocol.Participant.GenerateRandomBases | main.go:77-87 | The same for the bases, with its own error. |
| Protocol.ChannelLawAgrees | main.go:94-103 | Under the transmission law, Bob's outcome is Alice's bit at every matching position. The disagreement count is 0, and outcomes are bits when Alice's are. |
| Protocol.BB84Protocol.constructor | main.go:47-53 | Alice and Bob are distinct fresh parties with nothing drawn, and the channel and key are empty. |
| Protocol.BB84Protocol.DrawInputs | main.go:190-201 | Alice's bits, Alice's bases and Bob's bases are consecutive blocks of N draws. The error is that of the first block containing a failed draw. After a failure the steps before it hold their N draws, the failing party holds the partly filled N-entry slice of its step, and the arrays of the steps after it are those held before (`FailureState`). Bob's bits are never touched. |
| Protocol.BB84Protocol.SimulateQuantumTransmission | main.go:90-104 | A fresh channel follows the transmission law: Alice's bit at matches, the next fresh draw at mismatches. The cursor advances by the mismatch count, and Bob agrees with Alice at every match. |
| Protocol.BB84Protocol.GenerateSharedKey | main.go:107-114 | The shared key is the sifted key. Its length plus the mismatch count is N. |
| Protocol.BB84Protocol.CalculateErrorRate | main.go:117-134 | The rate is ErrorRate(errors, matches) of the run. It is 0 exactly when Bob agrees with Alice at every matching position. |
| Protocol.BB84Protocol.RunProtocol | main.go:189-210 | The returned error is the first failing generation step. A failure leaves key and channel untouched and the parties in `FailureState` (the failing party with its partly filled N-entry slice). Success leaves the run Completed (draw blocks, transmission law, sifted key), with Bob agreeing at every match. |
| Protocol.BB84Protocol.RunProtocolWithChannel | backend/bb84.go:114-130 | The same run, with the same error, failure state (key, quantum channel, and parties with the failing party's N-entry slice) and success state (Completed, Bob agreeing at every match, cursor advanced by 3N plus the mismatches). On success it also opens a fresh SecureChannel over the sifted key with an empty log. On failure the previous SecureChannel stays. |

## Left out

- main() (main.go:212-271) is a demonstration with fixed messages that prints its results. It is not modelled; its steps are the modelled operations in sequence.
- Error texts: the formatted `fmt.Errorf` messages are not modelled. Errors are modelled as tags: `DrawError`, `RunError` and `DecryptError`.
- The distribution of the random bits is not modelled: the draw results are an arbitrary sequence supplied by the caller.
- Base64 is not implemented. `Codec` is a parameter, and its round-trip law `Inverts` is a requirement of the lemmas that need it.
- Go `string` to and from `[]byte`: plaintexts are modelled as the byte sequences the conversion yields.
- `float64`: the error rate is an exact `real`, without floating-point rounding.
- Negative `numberOfBits`: `make` panics in Go, so the model takes a `nat`.
- Protocol.BB84Protocol.SimulateQuantumTransmission: requires the fresh draws it takes to succeed. The Go code ignores that error and would dereference a nil `*big.Int`.
- Protocol.BB84Protocol.RunProtocol: requires `NoiseAvailable` for the same reason.
- Protocol.BB84Protocol.SimulateQuantumTransmission: fills a local array and stores it in `quantumChannel` at the end. The Go code stores the fresh slice first; nothing observes the difference.
- KeyBytes.XorBytes: requires a non-empty key whenever the message is non-empty (`KeyCovers`). The Go code divides by `len(b)` and would panic.
- Channel.SecureChannel.EncryptMessage: has the same `KeyCovers` requirement.
- Channel.SecureChannel.DecryptMessage: requires `CanDecrypt`, the same condition on the decoded bytes.
- Protocol.BB84Protocol.SimulateQuantumTransmission: requires both bases arrays and Alice's bits to hold at least N entries (`Generated`), as RunProtocol guarantees. The Go code indexes the bases at every position below N and Alice's bits only at matching positions, so it also runs when Alice's bits are shorter but never indexed there; the model does not cover that case.
- Protocol.BB84Protocol.GenerateSharedKey: has the same `Generated` requirement, for the same reason: the Go code reads Alice's bits only at matching positions.
- Protocol.BB84Protocol.CalculateErrorRate: requires `Generated` and a channel of at least N entries, as RunProtocol guarantees. The Go code reads Alice's bits and the channel only at matching positions, so with no matching position it returns 0 even for shorter arrays; the model does not cover that case.
- Participants are stored by value in Go. In the model they are two distinct objects that the protocol holds (`Valid`).
- The exported field names and JSON tags of backend/bb84.go do not matter here. Both files share one model; main.go's RunProtocol never sets `secureChannel`.
