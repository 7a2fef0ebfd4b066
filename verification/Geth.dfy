/** Geth behind the Engine API: the blocks it has accepted and its canonical head. */
module Execution {
  import opened Outcomes
  import opened Blocks

  datatype PayloadStatus = VALID | INVALID | SYNCING

  datatype Attributes = Attributes(timestamp: Uint64, random: Hash, feeRecipient: nat, beaconRoot: Hash)

  datatype PayloadId = PayloadId(parent: Hash, attributes: Attributes)

  datatype ForkchoiceResponse = ForkchoiceResponse(status: PayloadStatus, payloadId: Option<PayloadId>)

  /** What the block builder inside Geth finds to put into a block. */
  datatype Fill = Fill(txs: seq<nat>, requests: Requests)

  datatype Envelope = Envelope(payload: Payload, requests: Requests)

  datatype EngineError = Transport | InvalidAttributes

  datatype Geth = Geth(genesis: Hash, known: set<Hash>, head: Hash)
  {
    /** Every block but the genesis was accepted on top of an accepted parent. */
    ghost predicate Consistent() {
      && genesis.Genesis?
      && genesis in known
      && head in known
      && forall h {:trigger Accepted(h)} :: h in known ==> h == genesis || Accepted(h)
    }

    predicate Accepted(h: Hash) {
      h.Sealed? && h.parent in known && h.Extends(h.parent) && h.body.sound
    }

    /** engine_newPayloadV4. */
    function NewPayload(p: Payload, beaconRoot: Hash, requests: Requests): (Geth, PayloadStatus) {
      var h := p.Seal(beaconRoot, requests);
      if p.blockHash != h then (this, INVALID)
      else if h in known then (this, VALID)
      else if p.parentHash !in known then (this, SYNCING)
      else if h.Extends(p.parentHash) && p.body.sound then (this.(known := known + {h}), VALID)
      else (this, INVALID)
    }

    /** engine_forkchoiceUpdatedV3, with head, safe and finalised block equal as in all callers.
        A client may skip an update to an ancestor of its head (`skip`). */
    function Forkchoice(h: Hash, attributes: Option<Attributes>, skip: bool)
      : (Geth, Result<ForkchoiceResponse, EngineError>)
    {
      if h !in known then
        (this, Ok(ForkchoiceResponse(SYNCING, None)))
      else if skip && head.DescendsFrom(h) then
        (this, Ok(ForkchoiceResponse(VALID, None)))
      else
        (this.(head := h),
         if attributes.None? then Ok(ForkchoiceResponse(VALID, None))
         else if attributes.value.timestamp <= h.Time() || h.Number() == MAX_UINT64 then Err(InvalidAttributes)
         else Ok(ForkchoiceResponse(VALID, Some(PayloadId(h, attributes.value)))))
    }
  }

  /** engine_getPayloadV5 by an engine that honours the attributes it was given. */
  function Build(id: PayloadId, fill: Fill): Envelope {
    var body := Body(fill.txs, true);
    var claim := Payload(
      id.parent, Inc64(id.parent.Number()), id.attributes.timestamp, id.parent, id.attributes.feeRecipient,
      id.attributes.random, body);
    Envelope(claim.(blockHash := claim.Seal(id.attributes.beaconRoot, fill.requests)), fill.requests)
  }

  // The same calls as the clients see them, through a network that may fail.

  function HeaderCall(g: Geth, f: Fault): Result<ExecutionHead, EngineError> {
    if f.Delivered? then Ok(HeadOf(g.head)) else Err(Transport)
  }

  function NewPayloadCall(g: Geth, p: Payload, beaconRoot: Hash, requests: Requests, f: Fault)
    : (Geth, Result<PayloadStatus, EngineError>)
  {
    var (g', status) := g.NewPayload(p, beaconRoot, requests);
    Remote(g, g', Ok(status), Transport, f)
  }

  function ForkchoiceCall(g: Geth, h: Hash, attributes: Option<Attributes>, skip: bool, f: Fault)
    : (Geth, Result<ForkchoiceResponse, EngineError>)
  {
    var (g', reply) := g.Forkchoice(h, attributes, skip);
    Remote(g, g', reply, Transport, f)
  }

  function BuildCall(id: PayloadId, fill: Fill, f: Fault): Result<Envelope, EngineError> {
    if f.Delivered? then Ok(Build(id, fill)) else Err(Transport)
  }

  class Engine {
    var geth: Geth

    constructor (g: Geth)
      ensures geth == g
    {
      geth := g;
    }

    method HeaderByNumber(f: Fault) returns (r: Result<ExecutionHead, EngineError>)
      ensures r == HeaderCall(geth, f)
    {
      if f.Delivered? { r := Ok(HeadOf(geth.head)); } else { r := Err(Transport); }
    }

    method NewPayloadV4(p: Payload, beaconRoot: Hash, requests: Requests, f: Fault)
      returns (r: Result<PayloadStatus, EngineError>)
      modifies this
      ensures (geth, r) == NewPayloadCall(old(geth), p, beaconRoot, requests, f)
    {
      if f.Lost? { return Err(Transport); }
      var (g, status) := geth.NewPayload(p, beaconRoot, requests);
      geth := g;
      r := if f.Delivered? then Ok(status) else Err(Transport);
    }

    method ForkchoiceUpdatedV3(h: Hash, attributes: Option<Attributes>, skip: bool, f: Fault)
      returns (r: Result<ForkchoiceResponse, EngineError>)
      modifies this
      ensures (geth, r) == ForkchoiceCall(old(geth), h, attributes, skip, f)
    {
      if f.Lost? { return Err(Transport); }
      var (g, reply) := geth.Forkchoice(h, attributes, skip);
      geth := g;
      r := if f.Delivered? then reply else Err(Transport);
    }

    method GetPayloadV5(id: PayloadId, fill: Fill, f: Fault) returns (r: Result<Envelope, EngineError>)
      ensures r == BuildCall(id, fill, f)
    {
      if f.Delivered? { r := Ok(Build(id, fill)); } else { r := Err(Transport); }
    }
  }

  lemma NewPayloadKeepsConsistency(g: Geth, p: Payload, beaconRoot: Hash, requests: Requests, f: Fault)
    requires g.Consistent()
    ensures NewPayloadCall(g, p, beaconRoot, requests, f).0.Consistent()
    ensures g.known <= NewPayloadCall(g, p, beaconRoot, requests, f).0.known
    ensures NewPayloadCall(g, p, beaconRoot, requests, f).0.head == g.head
  {
    var (g', _) := NewPayloadCall(g, p, beaconRoot, requests, f);
    forall h | h in g'.known
      ensures h == g'.genesis || g'.Accepted(h)
    {
      assert h in g.known ==> h == g.genesis || g.Accepted(h);
    }
  }

  lemma ForkchoiceKeepsConsistency(g: Geth, h: Hash, attributes: Option<Attributes>, skip: bool, f: Fault)
    requires g.Consistent()
    ensures ForkchoiceCall(g, h, attributes, skip, f).0.Consistent()
    ensures ForkchoiceCall(g, h, attributes, skip, f).0.known == g.known
    ensures ForkchoiceCall(g, h, attributes, skip, f).0.head in {g.head, h}
  {
    var (g', _) := ForkchoiceCall(g, h, attributes, skip, f);
    forall b | b in g'.known
      ensures b == g'.genesis || g'.Accepted(b)
    {
      assert b == g.genesis || g.Accepted(b);
    }
  }

  /** A payload with a known parent is judged, and passes only if its hash is that of its contents,
      it extends its parent and it executes; then, and only then, Geth knows the block. */
  lemma JudgedOnKnownParent(g: Geth, p: Payload, beaconRoot: Hash, requests: Requests)
    requires g.Consistent() && p.parentHash in g.known
    ensures var (g', status) := g.NewPayload(p, beaconRoot, requests);
      && status != SYNCING
      && (status == VALID <==>
          && p.blockHash == p.Seal(beaconRoot, requests)
          && p.blockHash.Extends(p.parentHash)
          && p.body.sound)
      && (status == VALID ==> g' == g.(known := g.known + {p.blockHash}))
      && (status == INVALID ==> g' == g)
  {
    var h := p.Seal(beaconRoot, requests);
    if h in g.known {
      assert g.Accepted(h);
      assert g.known + {h} == g.known;
    }
  }

  /** Below an accepted block all blocks are accepted, and their numbers fall. */
  lemma {:induction false} NumbersFall(g: Geth, a: Hash, tip: Hash)
    requires g.Consistent() && tip in g.known && tip.DescendsFrom(a)
    ensures a in g.known && a.Number() < tip.Number()
    decreases tip
  {
    assert g.Accepted(tip);
    if tip.parent != a {
      NumbersFall(g, a, tip.parent);
    }
  }

  /** The chain of an accepted block has one block for each number. */
  lemma {:induction false} OneBlockPerNumber(g: Geth, a: Hash, b: Hash, tip: Hash)
    requires g.Consistent() && tip in g.known
    requires a.OnChainOf(tip) && b.OnChainOf(tip) && a.Number() == b.Number()
    ensures a == b
    decreases tip
  {
    if a == tip {
      if b != tip {
        NumbersFall(g, b, tip);
      }
    } else if b == tip {
      NumbersFall(g, a, tip);
    } else {
      assert g.Accepted(tip);
      OneBlockPerNumber(g, a, b, tip.parent);
    }
  }
}
