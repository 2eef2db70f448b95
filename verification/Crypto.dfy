/** Blobs, their hashes, and the curve backend (ceremony/backend.go).

    SHA-256 and gnark's verifier are libraries, so a Backend carries them as
    function values; what is assumed of them is a predicate that the theorems
    needing it require.  */
module Crypto {
  import opened Basics

  type byte = b: int | 0 <= b < 256

  /** A serialized MPC state: ReadFrom undoes WriteTo, so the bytes are the blob. */
  datatype Blob = Blob(content: seq<byte>)

  /** At least the four bytes a blob's name uses. The length is left open: a fixed
      length would contradict collision freedom over unboundedly many blobs.  */
  type Digest = d: seq<byte> | 4 <= |d| witness [0, 0, 0, 0]

  datatype Backend = Backend(
    curveName: string,
    hash: Blob -> Digest,
    stepOK: (Blob, Blob) -> bool,
    challenge: Blob -> Option<Digest>)
  {
    /** The hex form in which the transcript records a blob's hash. */
    function Sha(b: Blob): string {
      Hex(hash(b))
    }

    ghost predicate CollisionFree() {
      forall a, b :: hash(a) == hash(b) ==> a == b
    }

    /** A verified step embeds the hash of its predecessor. */
    ghost predicate Binding() {
      forall prev, next :: stepOK(prev, next) ==> challenge(next) == Some(hash(prev))
    }

    /** Each blob of the path is a verified step from the one before it. */
    ghost predicate Linked(path: seq<Blob>) {
      forall i :: 0 < i < |path| ==> stepOK(path[i - 1], path[i])
    }

    /** `to` follows from `from` by zero or more verified steps. */
    ghost predicate Reach(from: Blob, to: Blob) {
      exists path :: IsPath(path, from, to)
    }

    ghost predicate IsPath(path: seq<Blob>, from: Blob, to: Blob) {
      |path| > 0 && path[0] == from && path[|path| - 1] == to && Linked(path)
    }

    lemma SameSha(a: Blob, b: Blob)
      requires CollisionFree() && Sha(a) == Sha(b)
      ensures a == b
    {
      HexInvertible(hash(a));
      HexInvertible(hash(b));
    }

    lemma ReachSelf(a: Blob)
      ensures Reach(a, a)
    {
      assert IsPath([a], a, a);
    }

    /** Nothing verified leads to a blob that embeds no challenge. */
    lemma ReachUnchallenged(a: Blob, b: Blob)
      requires Binding() && challenge(b) == None
      ensures Reach(a, b) <==> a == b
    {
      if a == b {
        ReachSelf(a);
      }
      if Reach(a, b) {
        var path :| IsPath(path, a, b);
        if |path| > 1 {
          LastEmbeds(path, a, b);
        }
      }
    }

    lemma LastEmbeds(path: seq<Blob>, from: Blob, to: Blob)
      requires Binding() && IsPath(path, from, to) && |path| > 1
      ensures challenge(to) == Some(hash(path[|path| - 2]))
    {
      assert stepOK(path[|path| - 2], path[|path| - 1]);
    }

    /** The head determines its history: verified paths that leave the same
        unchallenged blob and end in the same blob are the same path.  */
    lemma {:induction false} HeadDeterminesHistory(p: seq<Blob>, q: seq<Blob>, init: Blob, head: Blob)
      requires CollisionFree() && Binding() && challenge(init) == None
      requires IsPath(p, init, head) && IsPath(q, init, head)
      ensures p == q
      decreases |p|
    {
      var m, n := |p| - 1, |q| - 1;
      assert m > 0 ==> stepOK(p[m - 1], p[m]);
      assert n > 0 ==> stepOK(q[n - 1], q[n]);
      if m > 0 && n > 0 {
        assert p[m - 1] == q[n - 1];
        HeadDeterminesHistory(p[..m], q[..n], init, p[m - 1]);
        assert p == p[..m] + [head] && q == q[..n] + [head];
      } else {
        assert p == [init] && q == [init];
      }
    }
  }

  /** The assumptions can be met together, by a backend with a verified step. */
  lemma AssumptionsAreConsistent() returns (be: Backend, init: Blob, next: Blob)
    ensures be.CollisionFree() && be.Binding()
    ensures be.challenge(init) == None && be.stepOK(init, next)
  {
    var hash: Blob -> Digest := (b: Blob) => [0, 0, 0, 0] + b.content;
    var challenge: Blob -> Option<Digest> := (b: Blob) => if |b.content| < 4 then None else Some(b.content);
    be := Backend("", hash, (p: Blob, n: Blob) => n.content == hash(p), challenge);
    init, next := Blob([]), Blob([0, 0, 0, 0]);
    forall a, b | be.hash(a) == be.hash(b) ensures a == b {
      assert a.content == be.hash(a)[4..] && b.content == be.hash(b)[4..];
    }
  }

  function HexDigit(n: int): char
    requires 0 <= n < 16
  {
    if n < 10 then ('0' as int + n) as char else ('a' as int + n - 10) as char
  }

  function HexValue(c: char): int {
    if '0' <= c <= '9' then c as int - '0' as int else c as int - 'a' as int + 10
  }

  function Hex(bytes: seq<byte>): string {
    if bytes == [] then "" else [HexDigit(bytes[0] / 16), HexDigit(bytes[0] % 16)] + Hex(bytes[1..])
  }

  function Unhex(s: string): seq<int> {
    if |s| < 2 then [] else [HexValue(s[0]) * 16 + HexValue(s[1])] + Unhex(s[2..])
  }

  lemma {:induction false} HexInvertible(bytes: seq<byte>)
    ensures Unhex(Hex(bytes)) == bytes
  {
    if bytes != [] {
      HexInvertible(bytes[1..]);
      assert Hex(bytes)[2..] == Hex(bytes[1..]);
    }
  }
}
