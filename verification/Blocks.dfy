/** Block hashes, execution payloads and execution heads, shared by both systems. */
module Blocks {

  const MAX_UINT64: nat := 0xFFFF_FFFF_FFFF_FFFF
  const MAX_INT64: nat := 0x7FFF_FFFF_FFFF_FFFF

  type Uint64 = n: nat | n <= MAX_UINT64

  /** Go's uint64 addition of one, which wraps around. */
  function Inc64(a: Uint64): Uint64 {
    if a == MAX_UINT64 then 0 else a + 1
  }

  type Int64 = n: int | -0x8000_0000_0000_0000 <= n <= 0x7FFF_FFFF_FFFF_FFFF

  /** Go's conversions between int64 and uint64. */
  function AsUint64(n: Int64): Uint64 {
    if n < 0 then n + MAX_UINT64 + 1 else n
  }

  function AsInt64(n: Uint64): Int64 {
    if n > MAX_INT64 then n - MAX_UINT64 - 1 else n
  }

  /** EIP-7685 requests; what they say never matters here, only that the block hash commits to them. */
  type Requests = seq<nat>

  /** `sound` is the verdict of executing the transactions on the parent: whether they
      reproduce the roots that the header claims. It is a function of the block. */
  datatype Body = Body(txs: seq<nat>, sound: bool)

  /** A 32-byte hash. A sealed hash is the block it commits to, so two blocks share a hash only
      if they share every committed field, the beacon root (EIP-4788) and the requests
      (EIP-7685) included. `Raw` stands for every string that is not the hash of a block. */
  datatype Hash =
    | Raw(tag: nat)
    | Genesis(chain: nat, genesisTime: Uint64)
    | Sealed(
        parent: Hash, number: Uint64, time: Uint64, beaconRoot: Hash, requests: Requests, feeRecipient: nat,
        random: Hash, body: Body)
  {
    function Number(): Uint64 {
      if Sealed? then number else 0
    }

    function Time(): Uint64 {
      if Sealed? then time else if Genesis? then genesisTime else 0
    }

    /** The header rules for a block and its parent: next number, later time. */
    predicate Extends(p: Hash) {
      Sealed? && parent == p && number == p.Number() + 1 && time > p.Time()
    }

    predicate DescendsFrom(a: Hash)
    {
      Sealed? && (parent == a || parent.DescendsFrom(a))
    }

    predicate OnChainOf(tip: Hash) {
      this == tip || tip.DescendsFrom(this)
    }
  }

  /** engine.ExecutableData without the fields nothing here depends on. All fields are claims:
      `blockHash` need not be the hash of the rest. */
  datatype Payload = Payload(
    parentHash: Hash, number: Uint64, timestamp: Uint64, blockHash: Hash, feeRecipient: nat, random: Hash, body: Body)
  {
    /** The hash Geth computes from the payload and the two values passed beside it. */
    function Seal(beaconRoot: Hash, requests: Requests): Hash {
      Sealed(parentHash, number, timestamp, beaconRoot, requests, feeRecipient, random, body)
    }

    /** The three checks of validatePayload. */
    predicate Succeeds(head: ExecutionHead) {
      number == Inc64(head.height) && parentHash == head.hash && timestamp > head.time
    }
  }

  datatype ExecutionHead = ExecutionHead(height: Uint64, hash: Hash, time: Uint64)

  /** The timestamp of a block built on a head at a given time: that time as uint64, moved past the parent's. */
  function NextTime(head: ExecutionHead, unix: Int64): Uint64 {
    if AsUint64(unix) <= head.time then Inc64(head.time) else AsUint64(unix)
  }

  /** The head read from a header. */
  function HeadOf(h: Hash): ExecutionHead {
    ExecutionHead(h.Number(), h, h.Time())
  }

  /** The head taken over from a finalised payload. */
  function HeadFrom(p: Payload): ExecutionHead {
    ExecutionHead(p.number, p.blockHash, p.timestamp)
  }

  lemma {:induction false} DescentIsWellFounded(a: Hash, h: Hash)
    requires h.DescendsFrom(a)
    ensures a < h
    decreases h
  {
    if h.parent != a {
      DescentIsWellFounded(a, h.parent);
    }
  }

  /** No block descends from itself or from one of its children. */
  lemma NoDescentFromChild(parent: Hash, child: Hash)
    requires child.Sealed? && child.parent == parent
    ensures !parent.DescendsFrom(child) && !child.DescendsFrom(child)
  {
    if parent.DescendsFrom(child) {
      DescentIsWellFounded(child, parent);
    }
    if child.DescendsFrom(child) {
      DescentIsWellFounded(child, child);
    }
  }

  lemma {:induction false} DescentIsTransitive(a: Hash, b: Hash, c: Hash)
    requires b.DescendsFrom(a) && c.DescendsFrom(b)
    ensures c.DescendsFrom(a)
    decreases c
  {
    if c.parent != b {
      DescentIsTransitive(a, b, c.parent);
    }
  }

  /** Converting back gives the number again; and conversion changes nothing in the common range. */
  lemma ConversionsRoundTrip(n: Uint64, i: Int64)
    ensures AsUint64(AsInt64(n)) == n && AsInt64(AsUint64(i)) == i
    ensures n <= MAX_INT64 ==> AsInt64(n) == n
    ensures i >= 0 ==> AsUint64(i) == i
  {
  }
}
