/** What block production keeps over a whole leadership term, for every pattern of failures. */
module Production {
  import opened Outcomes
  import opened Blocks
  import opened Execution
  import opened BuildState
  import opened RedisClient
  import opened StateManager
  import opened PayloadStore
  import opened BlockBuilder
  import opened Retrying

  // ---------------------------------------------------------------------------------------
  // Retried engine calls
  // ---------------------------------------------------------------------------------------

  lemma {:induction false} StartBuildOutcome(g: Geth, h: Hash, attributes: Attributes, calls: seq<Call>, attempt: nat)
    requires g.Consistent() && h in g.known && attempt <= MAX_ATTEMPTS
    ensures var (g', r) := Retry(g, StartBuild(h, attributes), calls, attempt);
      && g'.Consistent()
      && g'.genesis == g.genesis && g'.known == g.known
      && g'.head in {g.head, h}
      && (r.Ok? ==> && g'.head == h
                    && r.value.id == PayloadId(h, attributes)
                    && attributes.timestamp > h.Time() && h.Number() < MAX_UINT64)
    decreases MAX_ATTEMPTS - attempt
  {
    var c := CallAt(calls, attempt);
    if c.Called? {
      var (g', outcome) := Perform(g, StartBuild(h, attributes), c);
      ForkchoiceKeepsConsistency(g, h, Some(attributes), c.skip, c.fault);
      if outcome.Transient? && attempt < MAX_ATTEMPTS {
        StartBuildOutcome(g', h, attributes, calls, attempt + 1);
      }
    }
  }

  /** However often NewPayload is sent, with replies lost or not, the block is accepted at most once,
      and success means that it was accepted. */
  lemma {:induction false} PushOutcome(
    g: Geth, p: Payload, root: Hash, requests: Requests, calls: seq<Call>, attempt: nat)
    requires g.Consistent() && p.parentHash in g.known && attempt <= MAX_ATTEMPTS
    ensures var (g', r) := Retry(g, Push(p, root, requests), calls, attempt);
      && (g' == g || g' == g.(known := g.known + {p.blockHash}))
      && g'.Consistent()
      && (r.Ok? ==> g'.known == g.known + {p.blockHash}
                    && p.blockHash == p.Seal(root, requests) && p.blockHash.Extends(p.parentHash) && p.body.sound)
    decreases MAX_ATTEMPTS - attempt
  {
    var c := CallAt(calls, attempt);
    if c.Called? {
      var (g', outcome) := Perform(g, Push(p, root, requests), c);
      NewPayloadKeepsConsistency(g, p, root, requests, c.fault);
      JudgedOnKnownParent(g, p, root, requests);
      if outcome.Transient? && attempt < MAX_ATTEMPTS {
        PushOutcome(g', p, root, requests, calls, attempt + 1);
        assert g'.known + {p.blockHash} == g.known + {p.blockHash} || g' == g;
      }
    }
  }

  lemma {:induction false} ChooseOutcome(g: Geth, h: Hash, calls: seq<Call>, attempt: nat)
    requires g.Consistent() && h in g.known && !g.head.DescendsFrom(h) && attempt <= MAX_ATTEMPTS
    ensures var (g', r) := Retry(g, Choose(h), calls, attempt);
      && g'.Consistent()
      && (g' == g || g' == g.(head := h))
      && (r.Ok? ==> g'.head == h)
    decreases MAX_ATTEMPTS - attempt
  {
    var c := CallAt(calls, attempt);
    if c.Called? {
      var (g', outcome) := Perform(g, Choose(h), c);
      ForkchoiceKeepsConsistency(g, h, None, c.skip, c.fault);
      if outcome.Transient? && attempt < MAX_ATTEMPTS {
        if h.DescendsFrom(h) {
          DescentIsWellFounded(h, h);
        }
        ChooseOutcome(g', h, calls, attempt + 1);
      }
    }
  }

  // ---------------------------------------------------------------------------------------
  // Bounded lag
  // ---------------------------------------------------------------------------------------

  /** The builder's head is a block that Geth accepted, and Geth's own head is that block or a child of it. */
  ghost predicate InLag(p: Producer) {
    && p.geth.Consistent()
    && (p.head.Some? ==>
          && p.head.value == HeadOf(p.head.value.hash)
          && p.head.value.hash in p.geth.known
          && (p.geth.head == p.head.value.hash || (p.geth.head.Sealed? && p.geth.head.parent == p.head.value.hash)))
  }

  /** A payload and its requests, as Geth builds them on a head: sealed under the head as beacon root,
      and valid wherever the head is known. */
  predicate BuiltOn(head: ExecutionHead, payload: Payload, requests: Requests) {
    && payload.Succeeds(head)
    && payload.blockHash == payload.Seal(head.hash, requests)
    && payload.blockHash.Extends(head.hash)
    && payload.body.sound
    && payload.body.txs != []
  }

  /** The saved state is the one to finalise, and what it encodes was built on the head. */
  ghost predicate ReadyToFinalize(s: BlockBuildState, head: ExecutionHead) {
    && s.step == StepFinalizeBlock
    && s.payloadId.Some?
    && s.executionPayload.PayloadData?
    && s.requests.RequestsData?
    && BuiltOn(head, s.executionPayload.payload, s.requests.requests)
  }

  /** The state that GetPayload saves: what Geth built on the head for this call. */
  function StateBuilt(p: Producer, head: ExecutionHead, env: BuildEnv): BlockBuildState {
    BuiltState(p, head, env.unix, FetchedFill(env.fetch, 0))
  }

  /** That state has been saved, and it can be finalised on the head. */
  ghost predicate Saved(p: Producer, after: Copies, head: ExecutionHead, env: BuildEnv) {
    && env.save.Delivered?
    && ReadyToFinalize(StateBuilt(p, head, env), head)
    && after == SaveStep(p.copies, StateBuilt(p, head, env), env.clock, env.save).0
  }

  lemma BuildOnOutcome(p: Producer, head: ExecutionHead, env: BuildEnv)
    requires InLag(p) && p.head == Some(head)
    ensures var (p', r) := BuildOn(p, head, env);
      && InLag(p')
      && p'.head == p.head && p'.rows == p.rows && p'.stream == p.stream
      && p'.geth.known == p.geth.known && p'.geth.genesis == p.geth.genesis
      && p'.geth.head in {p.geth.head, head.hash}
      && (r.Ok? ==> Saved(p, p'.copies, head, env))
  {
    hide Retry, FetchedFill;
    var attributes := BuildAttributes(p, head, env.unix);
    StartBuildOutcome(p.geth, head.hash, attributes, env.start, 0);
    var (g, started) := Retry(p.geth, StartBuild(head.hash, attributes), env.start, 0);
    if started.Ok? {
      ReadOnlyRetries(g, Fetch(started.value.id), env.fetch, 0);
    }
  }

  lemma GetPayloadOutcome(p: Producer, env: BuildEnv)
    requires InLag(p)
    ensures var (p', r) := GetPayloadStep(p, env);
      && InLag(p')
      && (p.head.Some? ==> p'.head == p.head)
      && (p.head.None? && p'.head.Some? ==> p'.head == Some(HeadOf(p.geth.head)) && p'.geth.head == p.geth.head)
      && (p.head.None? ==> p'.geth.head == p.geth.head)
      && p'.rows == p.rows && p'.stream == p.stream
      && p'.geth.known == p.geth.known && p'.geth.genesis == p.geth.genesis
      && (r.Ok? ==> p'.head == Some(HeadToBuildOn(p)) && Saved(p, p'.copies, HeadToBuildOn(p), env))
  {
    hide Retry, BuildOn;
    ReadOnlyRetries(p.geth, ReadHeader, env.header, 0);
    if p.head.Some? {
      BuildOnOutcome(p, p.head.value, env);
    } else {
      var (_, read) := Retry(p.geth, ReadHeader, env.header, 0);
      if read.Ok? {
        BuildOnOutcome(p.(head := Some(read.value.head)), read.value.head, env);
      }
    }
  }

  /** The payload finalised is the payload built: if GetPayload succeeds, then whatever Redis held before, whatever
      fails and however much time passes, the state read back is exactly the one that encodes the payload id,
      the payload and the requests of this build, on the builder's head or, if that was unset, on Geth's. */
  lemma FinalisedIsBuilt(p: Producer, env: ProduceEnv)
    requires InLag(p)
    ensures var (built, r) := GetPayloadStep(p, env.build);
      var head := HeadToBuildOn(p);
      r.Ok? ==>
        && built.head == Some(head)
        && GetStep(built.copies, env.build.clock + env.pause, env.read) == StateBuilt(p, head, env.build)
        && ReadyToFinalize(StateBuilt(p, head, env.build), head)
  {
    hide GetPayloadStep, ReadyToFinalize, StateBuilt;
    GetPayloadOutcome(p, env.build);
    if GetPayloadStep(p, env.build).1.Ok? {
      ReadYourSave(
        p.copies, env.build.clock, StateBuilt(p, HeadToBuildOn(p), env.build), env.build.save, env.pause, env.read);
    }
  }

  /** The head that the next build starts from. */
  function HeadToBuildOn(p: Producer): ExecutionHead {
    if p.head.Some? then p.head.value else HeadOf(p.geth.head)
  }

  /** A row that any Geth knowing its parent accepts when a syncer replays it. */
  ghost predicate Replayable(row: Row) {
    && row.payloadData.PayloadData?
    && row.requestsData.DecodeRequests().Some?
    && var payload := row.payloadData.payload;
    && row.hash == payload.blockHash
    && row.number == payload.number
    && row.parentHash == payload.parentHash
    && row.timestamp == AsInt64(payload.timestamp)
    && payload.blockHash == payload.Seal(row.parentHash, row.requestsData.DecodeRequests().value)
    && payload.blockHash.Extends(row.parentHash)
    && payload.body.sound
  }

  /** The engine calls of FinalizeBlock on a payload that validatePayload has passed. */
  lemma PushAndChoose(p: Producer, payload: Payload, requests: Requests, env: PublishEnv)
    requires InLag(p) && p.head.Some? && payload.Succeeds(p.head.value)
    ensures var (g1, pushed) := Retry(p.geth, Push(payload, p.head.value.hash, requests), env.push, 0);
      var (g2, chosen) := Retry(g1, Choose(payload.blockHash), env.choose, 0);
      && InLag(p.(geth := g1))
      && p.geth.known <= g1.known && g1.genesis == p.geth.genesis
      && (pushed.Ok? ==>
            && InLag(p.(geth := g2))
            && p.geth.known <= g2.known && g2.genesis == p.geth.genesis
            && payload.blockHash in g2.known
            && payload.blockHash == payload.Seal(p.head.value.hash, requests)
            && payload.blockHash.Extends(p.head.value.hash)
            && payload.body.sound
            && (chosen.Ok? ==> g2.head == payload.blockHash))
  {
    hide Retry;
    PushOutcome(p.geth, payload, p.head.value.hash, requests, env.push, 0);
    var (g1, pushed) := Retry(p.geth, Push(payload, p.head.value.hash, requests), env.push, 0);
    if pushed.Ok? {
      NoDescentFromSiblings(p.head.value.hash, g1.head, payload.blockHash);
      ChooseOutcome(g1, payload.blockHash, env.choose, 0);
    }
  }

  /** Neither a block nor one of its other children descends from a child of it. */
  lemma NoDescentFromSiblings(parent: Hash, head: Hash, child: Hash)
    requires child.Sealed? && child.parent == parent
    requires head == parent || (head.Sealed? && head.parent == parent)
    ensures !head.DescendsFrom(child)
  {
    NoDescentFromChild(parent, child);
  }

  /** What a move of the head to the block of `row` has done. */
  ghost predicate Moved(p: Producer, p': Producer, row: Row) {
    && p.head.Some? && p'.head == Some(HeadOf(row.hash))
    && Replayable(row)
    && row.hash.Extends(p.head.value.hash)
    && row.parentHash == p.head.value.hash
    && row.number == p.head.value.height + 1
    && p'.geth.head == row.hash
    && (p'.rows == p.rows || p'.rows == p.rows[row.number := row])
    && (WellFormed(p.rows) ==> WellFormed(p'.rows))
    && (p'.stream == p.stream
        || (p.stream < p'.stream && |p'.stream| == |p.stream| + 1
            && p'.stream[|p.stream|] == Published(row.hash, row.payloadData, row.number, p'.stream[|p.stream|].at)
            && p'.rows == p.rows[row.number := row]))
  }

  /** FinalizeBlock on arbitrary strings: it leaves head, rows and stream alone, or moves the head to a child
      that Geth has accepted and chosen. It stores only then, and at most that one row; and it publishes
      only what it has stored. */
  lemma FinalizeOutcome(p: Producer, id: Option<PayloadId>, payloadData: Data, requestsData: Data, env: PublishEnv)
    requires InLag(p)
    ensures var (p', r) := FinishStep(p, id, payloadData, requestsData, env);
      && InLag(p')
      && p.geth.known <= p'.geth.known && p'.geth.genesis == p.geth.genesis
      && (|| (r.Err? && p'.head == p.head && p'.rows == p.rows && p'.stream == p.stream)
          || (payloadData.PayloadData? && Moved(p, p', StoredRow(payloadData.payload, payloadData, requestsData))))
  {
    hide Retry;
    if p.head.Some? && payloadData.PayloadData? && requestsData.DecodeRequests().Some?
       && payloadData.payload.Succeeds(p.head.value) {
      PushAndChoose(p, payloadData.payload, requestsData.DecodeRequests().value, env);
      if WellFormed(p.rows) {
        SaveKeepsKeys(p.rows, StoredRow(payloadData.payload, payloadData, requestsData), env.store);
      }
    }
  }

  /** Errors that come from the outside: a cancelled context, or calls that keep failing. */
  predicate External(e: BuilderError) {
    e in {Context, Exhausted, NotStored, NotPublished}
  }

  lemma {:induction false} BuiltIsNotInvalid(
    g: Geth, head: ExecutionHead, p: Payload, requests: Requests, calls: seq<Call>, attempt: nat)
    requires g.Consistent() && head.hash in g.known && BuiltOn(head, p, requests) && attempt <= MAX_ATTEMPTS
    ensures var (_, r) := Retry(g, Push(p, head.hash, requests), calls, attempt);
      r.Err? ==> External(r.error)
    decreases MAX_ATTEMPTS - attempt
  {
    var c := CallAt(calls, attempt);
    if c.Called? {
      var (g', outcome) := Perform(g, Push(p, head.hash, requests), c);
      NewPayloadKeepsConsistency(g, p, head.hash, requests, c.fault);
      JudgedOnKnownParent(g, p, head.hash, requests);
      if outcome.Transient? && attempt < MAX_ATTEMPTS {
        BuiltIsNotInvalid(g', head, p, requests, calls, attempt + 1);
      }
    }
  }

  lemma {:induction false} ChooseFailsExternally(g: Geth, h: Hash, calls: seq<Call>, attempt: nat)
    requires attempt <= MAX_ATTEMPTS
    ensures var (_, r) := Retry(g, Choose(h), calls, attempt);
      r.Err? ==> External(r.error)
    decreases MAX_ATTEMPTS - attempt
  {
    var c := CallAt(calls, attempt);
    if c.Called? && attempt < MAX_ATTEMPTS {
      ChooseFailsExternally(Perform(g, Choose(h), c).0, h, calls, attempt + 1);
    }
  }

  /** A built block is never turned down: once GetPayload has succeeded, FinalizeBlock decodes, validates and
      pushes what it built, and can fail only for outside reasons. */
  lemma BuiltIsFinalised(p: Producer, env: ProduceEnv)
    requires InLag(p)
    ensures var (_, r) := ProduceStep(p, env);
      GetPayloadStep(p, env.build).1.Ok? && r.Err? ==> External(r.error)
  {
    hide Retry, GetPayloadStep;
    if GetPayloadStep(p, env.build).1.Err? {
      return;
    }
    GetPayloadOutcome(p, env.build);
    FinalisedIsBuilt(p, env);
    var built := GetPayloadStep(p, env.build).0;
    var state := GetStep(built.copies, env.build.clock + env.pause, env.read);
    var payload := state.executionPayload.payload;
    var requests := state.requests.requests;
    BuiltIsNotInvalid(built.geth, built.head.value, payload, requests, env.finish.push, 0);
    ChooseFailsExternally(
      Retry(built.geth, Push(payload, built.head.value.hash, requests), env.finish.push, 0).0,
      payload.blockHash, env.finish.choose, 0);
  }

  /** So the block that produceBlock moves to, and the row it stores for it, are what Geth built in that call. */
  lemma ProducedIsBuilt(p: Producer, env: ProduceEnv)
    requires InLag(p)
    ensures var p' := ProduceStep(p, env).0;
      var state := StateBuilt(p, HeadToBuildOn(p), env.build);
      && (Tip(p') != Tip(p) ==> Tip(p') == state.executionPayload.payload.blockHash)
      && (p'.rows != p.rows ==>
            p'.rows == p.rows[Tip(p').Number() :=
              StoredRow(state.executionPayload.payload, state.executionPayload, state.requests)])
  {
    hide GetPayloadStep, FinishStep, StateBuilt, WellFormed;
    GetPayloadOutcome(p, env.build);
    FinalisedIsBuilt(p, env);
    var (built, r) := GetPayloadStep(p, env.build);
    if r.Ok? {
      var state := StateBuilt(p, HeadToBuildOn(p), env.build);
      FinalizeOutcome(built, state.payloadId, state.executionPayload, state.requests, env.finish);
    }
  }

  // ---------------------------------------------------------------------------------------
  // A whole term
  // ---------------------------------------------------------------------------------------

  datatype TermEvent = Produce(env: ProduceEnv) | Reset(clock: nat, fault: Fault)

  function TermStep(p: Producer, e: TermEvent): Producer {
    match e
    case Produce(env) => ProduceStep(p, env).0
    case Reset(clock, f) => p.(copies := ResetStep(p.copies, clock, f).0)
  }

  function Term(p: Producer, events: seq<TermEvent>): Producer
    decreases |events|
  {
    if events == [] then p else Term(TermStep(p, events[0]), events[1..])
  }

  /** The block that production goes on from. */
  function Tip(p: Producer): Hash {
    if p.head.Some? then p.head.value.hash else p.geth.head
  }

  /** A term may begin anywhere, as long as the store is not ahead of the block it goes on from. */
  ghost predicate TermStart(p: Producer) {
    InLag(p) && WellFormed(p.rows) && forall n <- p.rows :: n <= Tip(p).Number()
  }

  /** A row written in this term: above the start, on the chain of the tip, accepted by Geth, replayable,
      and linked to the row below it if that was written in this term too. */
  ghost predicate TermRow(p0: Producer, p: Producer, n: nat)
    requires n in p.rows
  {
    var row := p.rows[n];
    && n > Tip(p0).Number()
    && Replayable(row)
    && row.hash in p.geth.known
    && row.hash.OnChainOf(Tip(p))
    && (n == Tip(p).Number() ==> row.hash == Tip(p))
    && (n == Tip(p0).Number() + 1 ==> row.parentHash == Tip(p0))
    && (n - 1 in p.rows && n - 1 !in p0.rows ==> row.parentHash == p.rows[n - 1].hash)
  }

  /** A block published in this term is stored, as a row of this term. */
  predicate TermPublished(p0: Producer, p: Producer, e: Published) {
    && e.number in p.rows && e.number !in p0.rows
    && p.rows[e.number].hash == e.hash
    && p.rows[e.number].payloadData == e.data
  }

  /** From position `from` on, block numbers rise strictly along a stream. */
  predicate Rising(stream: seq<Published>, from: nat) {
    forall i, j | from <= i < j < |stream| :: stream[i].number < stream[j].number
  }

  ghost predicate TermInv(p0: Producer, p: Producer) {
    && InLag(p)
    && p0.geth.known <= p.geth.known && p.geth.genesis == p0.geth.genesis
    && WellFormed(p.rows)
    && (p.head.None? ==> p.geth.head == p0.geth.head && p.rows == p0.rows && p0.head.None?)
    && Tip(p0).OnChainOf(Tip(p))
    && Tip(p0).Number() <= Tip(p).Number()
    && (Tip(p0).Number() == Tip(p).Number() ==> Tip(p0) == Tip(p))
    && (forall n <- p.rows :: n <= Tip(p).Number())
    && (forall n <- p0.rows :: n in p.rows && p.rows[n] == p0.rows[n])
    && (forall n <- p.rows | n !in p0.rows :: TermRow(p0, p, n))
    && p0.stream <= p.stream
    && (forall i | |p0.stream| <= i < |p.stream| :: TermPublished(p0, p, p.stream[i]))
    && Rising(p.stream, |p0.stream|)
  }

  /** Building changes neither the tip nor what is stored and published. */
  lemma BuildKeepsTerm(p0: Producer, p: Producer, env: BuildEnv)
    requires TermInv(p0, p)
    ensures var (p', r) := GetPayloadStep(p, env);
      && TermInv(p0, p') && Tip(p') == Tip(p) && p'.rows == p.rows && p'.stream == p.stream
      && (r.Ok? ==> p'.head.Some?)
  {
    hide GetPayloadStep, Replayable, WellFormed;
    GetPayloadOutcome(p, env);
    var p' := GetPayloadStep(p, env).0;
    assert Tip(p') == Tip(p);
    forall n <- p'.rows | n !in p0.rows
      ensures TermRow(p0, p', n)
    {
      assert TermRow(p0, p, n);
    }
  }

  lemma MoveKeepsTerm(p0: Producer, p: Producer, p': Producer, row: Row)
    requires TermInv(p0, p) && Moved(p, p', row)
    requires InLag(p') && p.geth.known <= p'.geth.known && p'.geth.genesis == p.geth.genesis
    ensures TermInv(p0, p')
    ensures forall n <- p.rows :: n < row.number
  {
    hide Replayable, WellFormed;
    if Tip(p0) != Tip(p) {
      DescentIsTransitive(Tip(p0), Tip(p), row.hash);
    }
    forall n <- p'.rows | n !in p0.rows
      ensures TermRow(p0, p', n)
    {
      if n != row.number {
        assert TermRow(p0, p, n);
        if p.rows[n].hash != Tip(p) {
          DescentIsTransitive(p.rows[n].hash, Tip(p), row.hash);
        }
      } else if n - 1 in p.rows && n - 1 !in p0.rows {
        assert TermRow(p0, p, n - 1);
      }
    }
    forall i | |p0.stream| <= i < |p'.stream|
      ensures TermPublished(p0, p', p'.stream[i])
    {
      if i < |p.stream| {
        assert TermPublished(p0, p, p.stream[i]);
        assert p.stream[i].number != row.number;
      }
    }
  }

  /** One produceBlock call: the head, if it was set and changes, moves to a child; the store is unchanged or
      gains one row with a number above all stored ones, that of the new head. */
  lemma ProduceKeepsTerm(p0: Producer, p: Producer, env: ProduceEnv)
    requires TermInv(p0, p)
    ensures var p' := ProduceStep(p, env).0;
      && TermInv(p0, p')
      && (Tip(p') == Tip(p) || Tip(p').Extends(Tip(p)))
      && (Tip(p') == Tip(p) ==> p'.rows == p.rows && p'.stream == p.stream)
      && (p'.rows == p.rows
          || (&& Tip(p').Number() !in p.rows
              && (forall n <- p.rows :: n < Tip(p').Number())
              && Tip(p').Number() in p'.rows
              && p'.rows == p.rows[Tip(p').Number() := p'.rows[Tip(p').Number()]]
              && p'.rows[Tip(p').Number()].hash == Tip(p')))
  {
    hide GetPayloadStep, FinishStep, Replayable, WellFormed;
    BuildKeepsTerm(p0, p, env.build);
    var (built, r) := GetPayloadStep(p, env.build);
    if r.Ok? {
      var state := GetStep(built.copies, env.build.clock + env.pause, env.read);
      FinalizeOutcome(built, state.payloadId, state.executionPayload, state.requests, env.finish);
      var p' := FinishStep(built, state.payloadId, state.executionPayload, state.requests, env.finish).0;
      if state.executionPayload.PayloadData?
         && Moved(built, p', StoredRow(state.executionPayload.payload, state.executionPayload, state.requests)) {
        MoveKeepsTerm(p0, built, p', StoredRow(state.executionPayload.payload, state.executionPayload, state.requests));
      } else {
        StayKeepsTerm(p0, built, p');
      }
    }
  }

  /** Steps that touch at most Geth within its lag, and the build state. */
  lemma StayKeepsTerm(p0: Producer, p: Producer, p': Producer)
    requires TermInv(p0, p) && InLag(p')
    requires p'.head == p.head && p'.rows == p.rows && p'.stream == p.stream
    requires p.geth.known <= p'.geth.known && p'.geth.genesis == p.geth.genesis
    requires p.head.None? ==> p'.geth.head == p.geth.head
    ensures TermInv(p0, p')
  {
    hide Replayable, WellFormed;
    forall n <- p'.rows | n !in p0.rows
      ensures TermRow(p0, p', n)
    {
      assert TermRow(p0, p, n);
    }
  }

  // ---------------------------------------------------------------------------------------
  // Calls that get through within eleven attempts
  // ---------------------------------------------------------------------------------------

  predicate StartsAt(calls: seq<Call>, k: nat) {
    PromptAt(calls, k) && !CallAt(calls, k).skip
  }

  predicate FindsTxs(calls: seq<Call>, k: nat) {
    CallAt(calls, k).Called? && CallAt(calls, k).fill.txs != []
  }

  /** GetPayload when the header is read, the build started and the block fetched at attempts h, s and f of at most
      eleven each: an empty block is skipped and nothing is saved; any other one is saved, if Redis answers. */
  lemma PromptBuild(p: Producer, env: BuildEnv, h: nat, s: nat, f: nat)
    requires InLag(p) && HeadToBuildOn(p).height < MAX_UINT64 && HeadToBuildOn(p).time < MAX_UINT64
    requires p.head.None? ==> PromptAt(env.header, h)
    requires StartsAt(env.start, s)
    requires PromptAt(env.fetch, f)
    ensures var (p', r) := GetPayloadStep(p, env);
      var head := HeadToBuildOn(p);
      && p' == p.(head := Some(head), geth := p.geth.(head := head.hash), copies := p'.copies)
      && if CallAt(env.fetch, f).fill.txs == [] then
           r == Err(if env.interrupted then Context else EmptyBlock) && p'.copies == p.copies
         else
           && r == (if env.save.Delivered? then Ok(()) else Err(StateNotSaved))
           && p'.copies == SaveStep(p.copies, StateBuilt(p, head, env), env.clock, env.save).0
  {
    hide Retry, FetchedFill;
    var head := HeadToBuildOn(p);
    var id := PayloadId(head.hash, BuildAttributes(p, head, env.unix));
    if p.head.None? {
      PromptHeader(p.geth, env.header, h);
    }
    PromptStart(p.geth, head.hash, id.attributes, env.start, s);
    PromptFetch(p.geth.(head := head.hash), id, env.fetch, f);
  }

  /** A head that is read stays the builder's head, whatever fails after it. */
  lemma HeadIsReadOnce(p: Producer, env: BuildEnv, h: nat)
    requires InLag(p) && PromptAt(env.header, h)
    ensures GetPayloadStep(p, env).0.head == Some(HeadToBuildOn(p))
  {
    hide Retry;
    PromptHeader(p.geth, env.header, h);
  }

  /** FinalizeBlock on what Geth built, when it is pushed and chosen at attempts u and c. */
  lemma PromptFinish(
    p: Producer, head: ExecutionHead, id: PayloadId, payload: Payload, requests: Requests, env: PublishEnv, u: nat,
    c: nat)
    requires InLag(p) && p.head == Some(head) && BuiltOn(head, payload, requests)
    requires PromptAt(env.push, u) && PromptAt(env.choose, c)
    ensures var (p', r) := FinishStep(p, Some(id), PayloadData(payload), RequestsData(requests), env);
      var row := StoredRow(payload, PayloadData(payload), RequestsData(requests));
      var (rows, stored) := SaveCall(p.rows, row, env.store);
      && p'.head == Some(HeadFrom(payload)) && p'.geth.head == payload.blockHash
      && p'.rows == rows
      && (r.Ok? <==> stored.Ok? && env.publish.Delivered?)
  {
    hide SaveCall, Retry;
    PromptPush(p.geth, payload, head.hash, requests, env.push, u);
    var known := p.geth.(known := p.geth.known + {payload.blockHash});
    assert Retry(p.geth, Push(payload, head.hash, requests), env.push, 0) == (known, Ok(Done));
    NoDescentFromSiblings(head.hash, p.geth.head, payload.blockHash);
    PromptChoose(known, payload.blockHash, env.choose, c);
    var chosen := known.(head := payload.blockHash);
    assert Retry(known, Choose(payload.blockHash), env.choose, 0) == (chosen, Ok(Done));
    var (rows, stored) := SaveCall(p.rows, StoredRow(payload, PayloadData(payload), RequestsData(requests)), env.store);
    var p' := FinishStep(p, Some(id), PayloadData(payload), RequestsData(requests), env).0;
    assert p'.geth == chosen;
    assert p'.head == Some(HeadFrom(payload));
    assert p'.rows == rows;
  }

  /** The block that a call builds on a head is accepted, chosen and given to the store. */
  ghost predicate Produced(p: Producer, head: ExecutionHead, env: ProduceEnv) {
    var (p', r) := ProduceStep(p, env);
    var state := StateBuilt(p, head, env.build);
    && InLag(p') && p'.head.Some?
    && Tip(p').Extends(head.hash) && p'.geth.head == Tip(p') && Tip(p').Time() == NextTime(head, env.build.unix)
    && state.executionPayload.PayloadData?
    && var row := StoredRow(state.executionPayload.payload, state.executionPayload, state.requests);
    && row.hash == Tip(p') && row.number == Tip(p').Number()
    && p'.rows == SaveCall(p.rows, row, env.finish.store).0
    && (r.Ok? <==> SaveCall(p.rows, row, env.finish.store).1.Ok? && env.finish.publish.Delivered?)
  }

  /** Every engine call of produceBlock is delivered within eleven attempts, none before it cancelled or late, the build
      is not skipped, and transactions are waiting. */
  ghost predicate Prompt(p: Producer, env: ProduceEnv) {
    && (p.head.None? ==> exists k: nat :: PromptAt(env.build.header, k))
    && (exists k: nat :: StartsAt(env.build.start, k))
    && (exists k: nat :: PromptAt(env.build.fetch, k) && FindsTxs(env.build.fetch, k))
    && (exists k: nat :: PromptAt(env.finish.push, k))
    && (exists k: nat :: PromptAt(env.finish.choose, k))
  }

  /** Then the head moves to a new block below the 64-bit maximum, if the build state is saved, whatever happens to the
      later reads and writes; and success is reported exactly if the row is stored and the block published. */
  lemma PromptProduces(p: Producer, env: ProduceEnv)
    requires InLag(p) && HeadToBuildOn(p).height < MAX_UINT64 && HeadToBuildOn(p).time < MAX_UINT64
    requires Prompt(p, env) && env.build.save.Delivered?
    ensures Produced(p, HeadToBuildOn(p), env)
  {
    hide GetPayloadStep, FinishStep, SaveCall, PromptAt, FetchedFill;
    var h: nat :| p.head.None? ==> PromptAt(env.build.header, h);
    var s: nat :| StartsAt(env.build.start, s);
    var f: nat :| PromptAt(env.build.fetch, f) && FindsTxs(env.build.fetch, f);
    var u: nat :| PromptAt(env.finish.push, u);
    var c: nat :| PromptAt(env.finish.choose, c);
    var head := HeadToBuildOn(p);
    PromptBuild(p, env.build, h, s, f);
    FinalisedIsBuilt(p, env);
    GetPayloadOutcome(p, env.build);
    var built := GetPayloadStep(p, env.build).0;
    var state := StateBuilt(p, head, env.build);
    PromptFinish(
      built, head, state.payloadId.value, state.executionPayload.payload, state.requests.requests, env.finish, u, c);
    FinalizeOutcome(built, state.payloadId, state.executionPayload, state.requests, env.finish);
  }

  /** A produceBlock call in which nothing fails, except perhaps the save of the row. */
  function Undisturbed(unix: Int64, fill: Fill, store: Fault): ProduceEnv {
    ProduceEnv(
      BuildEnv(unix, 0, [], [], [Called(Delivered, false, fill, false)], false, Delivered),
      0, Delivered, PublishEnv([], [], store, 0, Delivered))
  }

  /** In particular, such a call moves to a new block whenever there are transactions. */
  lemma UndisturbedProduces(p: Producer, unix: Int64, fill: Fill, store: Fault)
    requires InLag(p)
    requires HeadToBuildOn(p).height < MAX_UINT64 && HeadToBuildOn(p).time < MAX_UINT64 && fill.txs != []
    ensures Produced(p, HeadToBuildOn(p), Undisturbed(unix, fill, store))
  {
    hide Produced;
    var env := Undisturbed(unix, fill, store);
    assert PromptAt([], 0) && StartsAt([], 0);
    assert PromptAt(env.build.fetch, 0) && FindsTxs(env.build.fetch, 0);
    PromptProduces(p, env);
  }

  /** A leadership term of any length: see TermInv for what holds in every state of it. */
  lemma {:induction false} TermKeeps(p0: Producer, p: Producer, events: seq<TermEvent>)
    requires TermInv(p0, p)
    ensures TermInv(p0, Term(p, events))
    decreases |events|
  {
    hide ProduceStep, TermInv;
    if events != [] {
      match events[0] {
        case Produce(env) => ProduceKeepsTerm(p0, p, env);
        case Reset(clock, f) => ResetKeepsTerm(p0, p, clock, f);
      }
      TermKeeps(p0, TermStep(p, events[0]), events[1..]);
    }
  }

  lemma ResetKeepsTerm(p0: Producer, p: Producer, clock: nat, f: Fault)
    requires TermInv(p0, p)
    ensures TermInv(p0, p.(copies := ResetStep(p.copies, clock, f).0))
  {
    StayKeepsTerm(p0, p, p.(copies := ResetStep(p.copies, clock, f).0));
  }

  lemma TermInvAtStart(p: Producer)
    requires TermStart(p)
    ensures TermInv(p, p)
  {
  }

  /** Side effects in order, from any start: everything published in the term is stored, and published once, in
      rising order of numbers; everything stored in the term was accepted by Geth and lies on the chain of the tip;
      adjacent rows of the term are linked; older rows are untouched; and the tip descends from where the term began. */
  lemma SideEffectOrder(p0: Producer, events: seq<TermEvent>)
    requires TermStart(p0)
    ensures var p := Term(p0, events);
      && InLag(p)
      && Tip(p0).OnChainOf(Tip(p))
      && (forall i | |p0.stream| <= i < |p.stream| :: TermPublished(p0, p, p.stream[i]))
      && (forall i, j | |p0.stream| <= i < j < |p.stream| :: p.stream[i].number < p.stream[j].number)
      && (forall n <- p.rows | n !in p0.rows :: p.rows[n].hash in p.geth.known && p.rows[n].hash.OnChainOf(Tip(p)))
      && (forall n <- p.rows | n !in p0.rows && n + 1 in p.rows :: p.rows[n + 1].parentHash == p.rows[n].hash)
      && (forall n <- p0.rows :: n in p.rows && p.rows[n] == p0.rows[n])
  {
    hide Term, Replayable, WellFormed;
    TermInvAtStart(p0);
    TermKeeps(p0, p0, events);
    var p := Term(p0, events);
    forall n <- p.rows | n !in p0.rows
      ensures TermRow(p0, p, n)
      ensures n + 1 in p.rows ==> p.rows[n + 1].parentHash == p.rows[n].hash
    {
      assert TermRow(p0, p, n);
      if n + 1 in p.rows {
        assert n + 1 !in p0.rows;
        assert TermRow(p0, p, n + 1);
      }
    }
  }

  /** Replay validity: a row stored in the term is never judged INVALID by any Geth, and any Geth that
      knows its parent accepts it when it is replayed as the syncer does. */
  lemma StoredRowsReplay(p0: Producer, events: seq<TermEvent>, n: nat, g: Geth)
    requires TermStart(p0) && g.Consistent()
    requires n in Term(p0, events).rows && n !in p0.rows
    ensures var row := Term(p0, events).rows[n];
      && row.payloadData.PayloadData? && row.requestsData.DecodeRequests().Some?
      && var requests := row.requestsData.DecodeRequests().value;
      var (g', status) := g.NewPayload(row.payloadData.payload, row.parentHash, requests);
      && status != INVALID
      && (status == VALID <==> row.parentHash in g.known || row.hash in g.known)
      && (status == VALID ==> row.hash in g'.known)
  {
    TermInvAtStart(p0);
    TermKeeps(p0, p0, events);
    assert TermRow(p0, Term(p0, events), n);
    var row := Term(p0, events).rows[n];
    if row.parentHash in g.known {
      JudgedOnKnownParent(g, row.payloadData.payload, row.parentHash, row.requestsData.DecodeRequests().value);
    }
  }
}
