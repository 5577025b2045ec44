/** Bytes, digests and the incremental hash every backend relies on.

    SHA-2 is not modelled. A `Hasher` is any checkpointed hash: restoring a
    checkpoint and feeding it more bytes gives the checkpoint of all the bytes,
    and a checkpoint knows how many bytes it has taken. */
module Hashing {
  type byte = x: int | 0 <= x < 256
  type Bytes = seq<byte>
  type Digest = string
  type Checkpoint = Bytes

  datatype Hasher = Hasher(
    start: Checkpoint,
    feed: (Checkpoint, Bytes) -> Checkpoint,
    count: Checkpoint -> nat,
    sum: Checkpoint -> Digest)
  {
    /** What Go's SHA-2 implementations promise of Write, MarshalBinary,
        UnmarshalBinary and the trailing byte count of a checkpoint. */
    ghost predicate Lawful() {
      && (forall c, a, b :: feed(feed(c, a), b) == feed(c, a + b))
      && (forall c :: feed(c, []) == c)
      && count(start) == 0
      && (forall c, a :: count(feed(c, a)) == count(c) + |a|)
    }

    function Of(data: Bytes): Checkpoint { feed(start, data) }

    function DigestOf(data: Bytes): Digest { sum(Of(data)) }
  }

  /** The concatenation of a list of byte strings, in order. */
  function Flatten(parts: seq<Bytes>): Bytes {
    if parts == [] then [] else Flatten(parts[..|parts| - 1]) + parts[|parts| - 1]
  }

  lemma FlattenSnoc(parts: seq<Bytes>, last: Bytes)
    ensures Flatten(parts + [last]) == Flatten(parts) + last
  {
    assert (parts + [last])[..|parts|] == parts;
  }

  predicate LowerHex(s: string) {
    forall i | 0 <= i < |s| :: '0' <= s[i] <= '9' || 'a' <= s[i] <= 'f'
  }

  /** The hex digits of a digest of each supported algorithm. */
  function HexLength(algorithm: string): nat {
    if algorithm == "sha256" then 64
    else if algorithm == "sha384" then 96
    else if algorithm == "sha512" then 128
    else 0
  }

  predicate ValidParts(algorithm: string, encoded: string) {
    HexLength(algorithm) != 0 && |encoded| == HexLength(algorithm) && LowerHex(encoded)
  }

  /** What Sanitize accepts: a supported algorithm, a colon and its hex digits.
      An accepted digest is in lower case already, so Sanitize returns it as it is. */
  predicate ValidDigest(d: Digest) {
    |d| > 7 && d[6] == ':' && ValidParts(d[..6], d[7..])
  }
}
