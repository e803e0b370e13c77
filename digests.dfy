/**
 * Content digests as the registry writes them: "sha256:" followed by the
 * `%x` rendering of the SHA-256 sum of the payload.  The hash itself is a
 * foreign call and enters the model as a parameter that returns 32 bytes.
 */
module Digests {
  import opened Optional
  import opened Bytes
  import opened Hex

  const Algorithm: string := "sha256:"

  /** Length of a rendered digest: the prefix and two digits per hash byte. */
  const DigestLength: nat := 7 + 64

  function ZeroSum(data: seq<byte>): seq<byte> {
    seq(32, i => 0)
  }

  /** A hash function with SHA-256's output width. */
  type HashFn = f: seq<byte> -> seq<byte> | forall data :: |f(data)| == 32 witness ZeroSum

  /** The shape every digest key has: the prefix and 64 lower-case hex digits. */
  predicate IsDigest(d: string) {
    |d| == DigestLength && d[..7] == Algorithm &&
    forall i :: 7 <= i < |d| ==> IsHexChar(d[i])
  }

  /** `fmt.Sprintf("sha256:%x", h.Sum(nil))` after `h.Write(data)`. */
  function DigestOf(hash: HashFn, data: seq<byte>): (d: string)
    ensures IsDigest(d)
  {
    Algorithm + ToHex(hash(data))
  }

  /** Partner of DigestOf: recovers the hash bytes from a well-formed digest. */
  function ParseDigest(d: string): (r: Option<seq<byte>>)
    ensures r.Some? ==> |r.value| == (|d| - 7) / 2
  {
    if |d| >= 7 && d[..7] == Algorithm then FromHex(d[7..]) else None
  }

  lemma ParseDigestOf(hash: HashFn, data: seq<byte>)
    ensures ParseDigest(DigestOf(hash, data)) == Some(hash(data))
  {
    var d := DigestOf(hash, data);
    assert d[7..] == ToHex(hash(data));
    FromHexToHex(hash(data));
  }

  /** Two payloads share a digest exactly when they share a hash. */
  lemma DigestOfInjective(hash: HashFn, a: seq<byte>, b: seq<byte>)
    ensures DigestOf(hash, a) == DigestOf(hash, b) <==> hash(a) == hash(b)
  {
    if DigestOf(hash, a) == DigestOf(hash, b) {
      ParseDigestOf(hash, a);
      ParseDigestOf(hash, b);
    }
  }

  /** A digest is a single path segment. */
  lemma DigestHasNoSlash(d: string)
    requires IsDigest(d)
    ensures '/' !in d
  {
  }
}
