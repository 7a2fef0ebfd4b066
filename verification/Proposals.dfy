/** What proposals can and cannot do: coherence of PrepareProposal with ProcessProposal and
    FinalizeBlock, absence of side effects, and what FinalizeBlock leaves to ProcessProposal. */
module Proposals {
  import opened Outcomes
  import opened Blocks
  import opened Execution
  import opened ConsensusApp
  import opened Agreement

  /** The node holds a head that its Geth has accepted. */
  ghost predicate HoldsHead(s: Node, head: ExecutionHead) {
    && s.cached == Some(head)
    && head == HeadOf(head.hash)
    && s.geth.Consistent()
    && head.hash in s.geth.known
  }

  /** Whatever time CometBFT supplies, a proposal that PrepareProposal returns is accepted by every
      validator with the same head. If no call fails, one is returned exactly below the 64-bit maximum. */
  lemma Coherence(s: Node, head: ExecutionHead, unix: Int64, env: ProposeEnv)
    requires HoldsHead(s, head)
    ensures var (_, r) := PrepareStep(s, unix, env);
      && (r.Ok? ==> Accepts(Some(head), r.value))
      && (env.forkchoice.Delivered? && env.getPayload.Delivered? && !env.skip ==>
            (r.Ok? <==> head.time < MAX_UINT64 && head.height < MAX_UINT64))
  {
  }

  /** ProcessProposal's verdict in numbers: the next height, in 64-bit arithmetic, the head as parent, a later time. */
  lemma AcceptsIff(cached: Option<ExecutionHead>, txs: seq<Tx>)
    ensures Accepts(cached, txs)
            <==> && cached.Some? && HasPayload(txs)
                 && PayloadOf(txs).number == (cached.value.height + 1) % 0x1_0000_0000_0000_0000
                 && PayloadOf(txs).parentHash == cached.value.hash
                 && PayloadOf(txs).timestamp > cached.value.time
  {
  }

  /** Beyond acceptance: every validator that holds the head can finalise the proposal, and then
      holds and has persisted a head that directly extends the old one. */
  lemma ProposalFinalizes(s: Node, other: Node, head: ExecutionHead, unix: Int64, env: ProposeEnv)
    requires HoldsHead(s, head) && HoldsHead(other, head) && other.geth.head == head.hash
    requires PrepareStep(s, unix, env).1.Ok?
    ensures var (end, r) := FinalizeStep(other, PrepareStep(s, unix, env).1.value, CALM);
      && r.Ok?
      && r.value.appHash.Extends(head.hash)
      && HoldsHead(end, HeadOf(r.value.appHash))
      && end.persisted == end.cached
      && end.geth.head == r.value.appHash
  {
    var txs := PrepareStep(s, unix, env).1.value;
    var p := PayloadOf(txs);
    var requests := txs[0].message.requests;
    JudgedOnKnownParent(other.geth, p, head.hash, requests);
    NewPayloadKeepsConsistency(other.geth, p, head.hash, requests, Delivered);
    var g := NewPayloadCall(other.geth, p, head.hash, requests, Delivered).0;
    ForkchoiceKeepsConsistency(g, p.blockHash, None, false, Delivered);
  }

  /** Coherence across a whole network: after any run, with crashes and failures, a running validator accepts what
      another one proposes exactly if both hold the same head; and at the same height they do, if that is
      at least 1 or nothing has been decided yet. */
  lemma CoherenceInRuns(net: Network, events: seq<Event>, i: nat, j: nat, unix: Int64, env: ProposeEnv)
    requires Initial(net) && i < |net.validators| && j < |net.validators|
    requires Run(net, events).validators[i].up && Run(net, events).validators[j].up
    ensures var end := Run(net, events);
      var (v, w) := (end.validators[i], end.validators[j]);
      var (_, r) := PrepareStep(v.node, unix, env);
      && (r.Ok? ==> (Accepts(w.node.cached, r.value) <==> w.node.cached == v.node.cached))
      && (v.height == w.height && (v.height > 0 || end.decided == []) ==> w.node.cached == v.node.cached)
  {
    InitialIsGood(net);
    RunKeeps(net, events);
    ValidatorsAgree(net, events);
    hide Run;
    var end := Run(net, events);
    HoldsDecidedHead(end, end.validators[i]);
    HoldsDecidedHead(end, end.validators[j]);
    ProposalNamesHead(
      end.validators[i].node, end.validators[j].node,
      end.validators[i].node.cached.value, end.validators[j].node.cached.value, unix, env);
  }

  lemma HoldsDecidedHead(net: Network, v: Validator)
    requires Inv(net) && v in net.validators && v.up
    ensures v.node.cached.Some? && HoldsHead(v.node, v.node.cached.value)
  {
    var k: nat :| k <= |net.decided| && GoodAt(net.genesis, net.decided, v, k);
    SettledHeads(net.genesis, net.decided, v.node.geth, k);
  }

  /** A proposal fits exactly the head that it was built on. */
  lemma ProposalNamesHead(
    s: Node, other: Node, head: ExecutionHead, otherHead: ExecutionHead, unix: Int64, env: ProposeEnv)
    requires HoldsHead(s, head) && HoldsHead(other, otherHead)
    ensures var (_, r) := PrepareStep(s, unix, env);
      r.Ok? ==> (Accepts(other.cached, r.value) <==> other.cached == s.cached)
  {
    Coherence(s, head, unix, env);
  }

  // ---------------------------------------------------------------------------------------
  // No side effects
  // ---------------------------------------------------------------------------------------

  datatype ProposalCall = Prepare(unix: Int64, env: ProposeEnv) | Process(txs: seq<Tx>)

  /** A run of proposal calls in any rounds, with ProcessProposal's verdicts in order. */
  function Rounds(s: Node, calls: seq<ProposalCall>): (Node, seq<bool>)
    decreases |calls|
  {
    if calls == [] then (s, []) else
    match calls[0]
    case Prepare(unix, env) => Rounds(PrepareStep(s, unix, env).0, calls[1..])
    case Process(txs) =>
      var (end, verdicts) := Rounds(s, calls[1..]);
      (end, [Accepts(s.cached, txs)] + verdicts)
  }

  function Proposed(calls: seq<ProposalCall>): seq<seq<Tx>>
    decreases |calls|
  {
    if calls == [] then [] else (if calls[0].Process? then [calls[0].txs] else []) + Proposed(calls[1..])
  }

  /** Once the head is set and is Geth's, no number of proposal calls changes anything,
      and each verdict is the one the same proposal gets from the untouched node. */
  lemma {:induction false} NoSideEffects(s: Node, head: ExecutionHead, calls: seq<ProposalCall>)
    requires HoldsHead(s, head) && s.geth.head == head.hash
    ensures var (end, verdicts) := Rounds(s, calls);
      && end == s
      && |verdicts| == |Proposed(calls)|
      && forall i | 0 <= i < |verdicts| :: verdicts[i] == Accepts(s.cached, Proposed(calls)[i])
    decreases |calls|
  {
    if calls != [] {
      if calls[0].Prepare? {
        if head.hash.DescendsFrom(head.hash) {
          DescentIsWellFounded(head.hash, head.hash);
        }
        assert PrepareStep(s, calls[0].unix, calls[0].env).0 == s;
      }
      NoSideEffects(s, head, calls[1..]);
    }
  }

  // ---------------------------------------------------------------------------------------
  // Which error, and when
  // ---------------------------------------------------------------------------------------

  /** Info reports and caches the persisted head exactly if there is one and it can be read; otherwise it reports
      height 0 without an app hash, and the node is unchanged. */
  lemma InfoReportsIff(s: Node, load: Fault)
    ensures var (s', reply) := InfoStep(s, load);
      && (reply.lastBlockAppHash.Some? <==> load.Delivered? && s.persisted.Some?)
      && (load.Delivered? && s.persisted.Some? ==>
            && s' == s.(cached := s.persisted)
            && reply == InfoReply(s.persisted.value.height, Some(s.persisted.value.hash)))
      && (!load.Delivered? || s.persisted.None? ==> s' == s && reply.lastBlockHeight == 0)
  {
  }

  /** Each way in which PrepareProposal fails, for every node; in all other cases it returns a proposal. */
  lemma PrepareErrors(s: Node, unix: Int64, env: ProposeEnv)
    ensures var (_, r) := PrepareStep(s, unix, env);
      var head := if s.cached.Some? then s.cached.value else HeadOf(s.geth.head);
      var read := s.cached.Some? || env.header.Delivered?;
      var told := read && env.forkchoice.Delivered?;
      var known := head.hash in s.geth.known;
      var skipped := env.skip && s.geth.head.DescendsFrom(head.hash);
      var late := NextTime(head, unix) > head.hash.Time() && head.hash.Number() < MAX_UINT64;
      var refused := known && !skipped && !late;
      && (r == Err(HeaderUnavailable) <==> !read)
      && (r == Err(ForkchoiceFailed) <==> read && (!env.forkchoice.Delivered? || refused))
      && (r == Err(BadStatus(SYNCING)) <==> told && !known)
      && (r == Err(NoPayloadId) <==> told && known && skipped)
      && (r == Err(GetPayloadFailed) <==> told && known && !skipped && !refused && !env.getPayload.Delivered?)
      && (r.Ok? <==> told && known && !skipped && !refused && env.getPayload.Delivered?)
  {
  }

  /** Each way in which FinalizeBlock fails, for every node and block. */
  lemma FinalizeErrors(s: Node, txs: seq<Tx>, env: FinalizeEnv)
    ensures var (s', r) := FinalizeStep(s, txs, env);
      && (r == Err(NoTransactions) <==> txs == [])
      && (r == Err(BadJson) <==> txs != [] && txs[0].Malformed?)
      && (r == Err(HeadNotInitialized) <==> txs != [] && txs[0].Json? && s.cached.None?)
      && (r == Err(NilPayload) <==> txs != [] && txs[0].Json? && s.cached.Some? && txs[0].message.payload.None?)
      && (r == Err(NewPayloadFailed) <==> HasPayload(txs) && s.cached.Some? && !env.newPayload.Delivered?)
      && (HasPayload(txs) && s.cached.Some? && env.newPayload.Delivered? ==>
            var invalid :=
              s.geth.NewPayload(PayloadOf(txs), s.cached.value.hash, txs[0].message.requests).1 == INVALID;
            && (r == Err(PayloadInvalid) <==> invalid)
            && (r == Err(ForkchoiceFailed) <==> !invalid && !env.forkchoice.Delivered?)
            && (r == Err(SaveFailed) <==> !invalid && env.forkchoice.Delivered? && !env.save.Delivered?))
      && (r.Err? && r != Err(SaveFailed) ==> s'.cached == s.cached && s'.persisted == s.persisted)
      && (r == Err(SaveFailed) ==>
            && s'.cached == Some(HeadFrom(PayloadOf(txs)))
            && s'.persisted == (if env.save.Lost? then s.persisted else s'.cached))
  {
  }

  // ---------------------------------------------------------------------------------------
  // What FinalizeBlock does not check
  // ---------------------------------------------------------------------------------------

  /** Exactly when FinalizeBlock succeeds: with a head and a payload, three calls that are answered, a hash that is that
      of the contents under the head as beacon root, and a block that Geth knows already, has no parent for yet,
      or finds valid on its parent. */
  lemma FinalizesIff(s: Node, txs: seq<Tx>, env: FinalizeEnv)
    ensures FinalizeStep(s, txs, env).1.Ok?
            <==> && s.cached.Some? && HasPayload(txs)
                 && env.newPayload.Delivered? && env.forkchoice.Delivered? && env.save.Delivered?
                 && var p := PayloadOf(txs);
                 && p.blockHash == p.Seal(s.cached.value.hash, txs[0].message.requests)
                 && (|| p.blockHash in s.geth.known
                     || p.parentHash !in s.geth.known
                     || (p.blockHash.Extends(p.parentHash) && p.body.sound))
  {
  }

  /** In the second of these cases the head moves to a block that Geth does not have, and Geth stays where it is. */
  lemma UnknownParentIsFinalized(s: Node, txs: seq<Tx>, env: FinalizeEnv)
    requires FinalizeStep(s, txs, env).1.Ok?
    requires var p := PayloadOf(txs);
      p.blockHash !in s.geth.known && p.parentHash !in s.geth.known
    ensures var (end, r) := FinalizeStep(s, txs, env);
      end.cached == end.persisted == Some(HeadFrom(PayloadOf(txs))) && end.geth == s.geth
  {
  }

  /** Of a payload that FinalizeBlock finalises, ProcessProposal's checks would have passed exactly
      if its parent is the node's head: the parent check is the one FinalizeBlock relies on others for. */
  lemma FinalizedWithoutRecheck(s: Node, head: ExecutionHead, txs: seq<Tx>, env: FinalizeEnv)
    requires HoldsHead(s, head)
    requires FinalizeStep(s, txs, env).1.Ok?
    ensures HasPayload(txs)
    ensures Accepts(s.cached, txs) <==> PayloadOf(txs).parentHash == head.hash
  {
    var p := PayloadOf(txs);
    if p.parentHash == head.hash {
      JudgedOnKnownParent(s.geth, p, head.hash, txs[0].message.requests);
    }
  }

  /** And others are needed: FinalizeBlock alone will move the head from block 1 to a rival block 1. */
  lemma FinalizeAcceptsRival()
    ensures exists s: Node, head: ExecutionHead, txs: seq<Tx> ::
      && HoldsHead(s, head)
      && s.geth.head == head.hash
      && !Accepts(s.cached, txs)
      && FinalizeStep(s, txs, CALM).1.Ok?
      && FinalizeStep(s, txs, CALM).0.cached.value.height == head.height
      && FinalizeStep(s, txs, CALM).0.cached.value.hash != head.hash
  {
    var root := Genesis(0, 0);
    var first := Sealed(root, 1, 1, root, [], 0, root, Body([], true));
    var g := Geth(root, {root, first}, first);
    assert g.Accepted(first);
    var s := Node(Some(HeadOf(first)), Some(HeadOf(first)), g);
    var claim := Payload(root, 1, 2, root, 0, root, Body([], true));
    var rival := claim.(blockHash := claim.Seal(first, []));
    var txs := [Json(Message(Some(rival), []))];
    assert HoldsHead(s, HeadOf(first));
    assert g.NewPayload(rival, first, []) == (g.(known := g.known + {rival.blockHash}), VALID);
    assert FinalizeStep(s, txs, CALM).1.Ok?;
  }
}
