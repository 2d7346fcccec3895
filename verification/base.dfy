/** Values shared by every protocol: optional values, bytes and an injective hash. */
module Base {

  datatype Option<+T> = None | Some(value: T)

  newtype byte = x: int | 0 <= x < 256

  type Bytes = seq<byte>

  /** SHA-256 as a free constructor: two digests are equal exactly when their inputs are.
      The upload chain hashes a seed naming the size, then each previous link with a chunk digest. */
  datatype Digest =
    | Sha256(content: Bytes)
    | ChainSeed(size: nat)
    | ChainNext(previous: Digest, chunk: Digest)

  /** What a helper request reports: an answer, a refusal code, or a process that stopped first. */
  datatype Reply = Done | Refused(code: string) | Stopped

  function Min(a: int, b: int): int { if a < b then a else b }

  function Max(a: int, b: int): int { if a < b then b else a }

  /** All pieces of a transfer or a stream, in order. */
  function Concat(pieces: seq<Bytes>): Bytes {
    if pieces == [] then [] else Concat(pieces[..|pieces| - 1]) + pieces[|pieces| - 1]
  }

  lemma ConcatSnoc(pieces: seq<Bytes>, piece: Bytes)
    ensures Concat(pieces + [piece]) == Concat(pieces) + piece
  {
    assert (pieces + [piece])[..|pieces|] == pieces;
  }

  lemma {:induction false} ConcatAppend(left: seq<Bytes>, right: seq<Bytes>)
    ensures Concat(left + right) == Concat(left) + Concat(right)
    decreases |right|
  {
    if right == [] {
      assert left + right == left;
    } else {
      var front := right[..|right| - 1];
      ConcatAppend(left, front);
      assert (left + right)[..|left + right| - 1] == left + front;
    }
  }

  predicate Least(all: set<nat>, k: nat) { k in all && forall j :: j in all ==> k <= j }

  /** The n smallest numbers of a set, in order. */
  function Smallest(all: set<nat>, n: nat): (r: seq<nat>)
    ensures forall i :: 0 <= i < |r| ==> r[i] in all
  {
    if all == {} || n == 0 then []
    else
      SmallestExists(all);
      var least :| Least(all, least);
      [least] + Smallest(all - {least}, n - 1)
  }

  lemma {:induction false} SmallestFirst(all: set<nat>, n: nat)
    ensures var r := Smallest(all, n);
      && |r| == Min(n, |all|) && (forall i, j :: 0 <= i < j < |r| ==> r[i] < r[j])
      && (forall i, k :: 0 <= i < |r| && k in all && k < r[i] ==> k in r)
      && (n >= |all| ==> forall k :: k in all ==> k in r)
  {
    if all != {} && n > 0 {
      var least := Smallest(all, n)[0];
      SmallestFirst(all - {least}, n - 1);
    }
  }

  /** A set of numbers in order. */
  function InOrder(all: set<nat>): (r: seq<nat>)
    ensures (forall k :: k in r <==> k in all) && forall i, j :: 0 <= i < j < |r| ==> r[i] < r[j]
  {
    SmallestFirst(all, |all|);
    Smallest(all, |all|)
  }

  lemma {:induction false} SmallestExists(all: set<nat>)
    requires all != {}
    ensures exists least :: Least(all, least)
  {
    var one :| one in all;
    var others := all - {one};
    assert all == others + {one};
    if others == {} {
      assert Least(all, one);
    } else {
      SmallestExists(others);
      var least :| Least(others, least);
      assert Least(all, if one <= least then one else least);
    }
  }

  function Pow256(n: nat): (r: nat)
    ensures r > 0
  {
    if n == 0 then 1 else 256 * Pow256(n - 1)
  }

  /** A number in n bytes, most significant first. */
  function BigEndian(value: nat, n: nat): (b: Bytes)
    ensures |b| == n
  {
    if n == 0 then [] else BigEndian(value / 256, n - 1) + [(value % 256) as byte]
  }

  function FromBigEndian(b: Bytes): nat {
    if b == [] then 0 else 256 * FromBigEndian(b[..|b| - 1]) + b[|b| - 1] as nat
  }

  lemma {:induction false} BigEndianRoundTrip(value: nat, n: nat)
    requires value < Pow256(n)
    ensures FromBigEndian(BigEndian(value, n)) == value
  {
    if n > 0 {
      BigEndianRoundTrip(value / 256, n - 1);
      var b := BigEndian(value, n);
      assert b[..n - 1] == BigEndian(value / 256, n - 1);
    }
  }

  lemma Widths()
    ensures Pow256(2) == 0x1_0000 && Pow256(4) == 0x1_0000_0000 && Pow256(8) == 0x1_0000_0000_0000_0000
  {
    assert Pow256(2) == 256 * Pow256(1) == 0x1_0000 * Pow256(0);
    assert Pow256(4) == 256 * Pow256(3) && Pow256(3) == 256 * Pow256(2);
    assert Pow256(8) == 256 * Pow256(7) && Pow256(7) == 256 * Pow256(6) && Pow256(6) == 256 * Pow256(5);
    assert Pow256(5) == 256 * Pow256(4);
  }

  /** A term to name when a hidden definition is needed. Where a definition would burden proofs that do not need it, a
      predicate states it for every k with Show(k), and only proofs that mention Show see it. */
  predicate Show(k: int) { true }
}
