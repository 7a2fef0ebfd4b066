/** What a built block says: time, fee recipient, randomness, transactions and requests, for both systems. */
module Contents {
  import opened Outcomes
  import opened Blocks
  import opened Execution
  import opened BuildState
  import opened StateManager
  import opened BlockBuilder
  import opened Retrying
  import opened Production
  import opened ConsensusApp
  import opened Agreement

  /** The later of a given time, as uint64, and one second after the head. */
  predicate LaterOf(time: Uint64, unix: Int64, head: ExecutionHead) {
    if 0 <= unix then time == if unix > head.time then unix else head.time + 1
    else time == if unix + 0x1_0000_0000_0000_0000 > head.time then unix + 0x1_0000_0000_0000_0000 else head.time + 1
  }

  /** A payload on a head: the next number, a time that is the given one unless that is not after the head's, the
      head as parent, as randomness and as beacon root, and the hash that commits to all of it. */
  predicate BuiltFor(p: Payload, requests: Requests, head: ExecutionHead, unix: Int64, fee: nat, fill: Fill) {
    && p.parentHash == head.hash
    && p.number == head.height + 1
    && LaterOf(p.timestamp, unix, head)
    && p.feeRecipient == fee
    && p.random == head.hash
    && p.body.txs == fill.txs
    && requests == fill.requests
    && p.blockHash == p.Seal(head.hash, fill.requests)
  }

  /** What PrepareProposal returns, on the cached head or, if there is none, on Geth's. */
  lemma ProposalContents(s: Node, head: ExecutionHead, unix: Int64, env: ProposeEnv)
    requires s.geth.Consistent()
    requires head == (if s.cached.Some? then s.cached.value else HeadOf(s.geth.head)) == HeadOf(head.hash)
    ensures var (s', r) := PrepareStep(s, unix, env);
      r.Ok? ==>
        && |r.value| == 1 && HasPayload(r.value)
        && BuiltFor(PayloadOf(r.value), r.value[0].message.requests, head, unix, 0, env.fill)
        && s'.cached == Some(head)
  {
  }

  /** What GetPayload saves, and any later read returns, on the builder's head or, if there is none, on Geth's. */
  lemma SavedContents(p: Producer, env: ProduceEnv)
    requires InLag(p)
    ensures var (built, r) := GetPayloadStep(p, env.build);
      var head := HeadToBuildOn(p);
      var state := GetStep(built.copies, env.build.clock + env.pause, env.read);
      r.Ok? ==>
        && state.step == StepFinalizeBlock
        && state.executionPayload.PayloadData? && state.requests.RequestsData?
        && var payload := state.executionPayload.payload;
        && BuiltFor(payload, state.requests.requests, head, env.build.unix, p.fee, FetchedFill(env.build.fetch, 0))
        && state.payloadId
           == Some(PayloadId(head.hash, Attributes(payload.timestamp, head.hash, p.fee, head.hash)))
  {
    hide GetPayloadStep, Retry, FetchedFill;
    FinalisedIsBuilt(p, env);
    GetPayloadOutcome(p, env.build);
  }
}
