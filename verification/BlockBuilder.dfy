/** 03-member-nodes/pkg/blockbuilder/builder.go: two-phase block production. */
module BlockBuilder {
  import opened Outcomes
  import opened Blocks
  import opened Execution
  import opened BuildState
  import opened RedisClient
  import opened StateManager
  import opened PayloadStore

  const MAX_ATTEMPTS: nat := 10

  datatype BuilderError =
    | Context
    | Exhausted
    | RefusedStatus(status: PayloadStatus)
    | NoPayloadId
    | Invalid
    | EmptyBlock
    | StateNotSaved
    | MissingPayload
    | BadPayload
    | BadRequests
    | NilHead
    | NotValidated
    | NotStored
    | NotPublished

  /** One attempt of a retried operation: its context is done, or the call goes out. `late` says that the
      backoff's limit on the elapsed time leaves no room for another attempt after it. */
  datatype Call = Cancelled | Called(fault: Fault, skip: bool, fill: Fill, late: bool)

  /** The closures that are passed to retryWithBackoff. */
  datatype Operation =
    | ReadHeader
    | StartBuild(head: Hash, attributes: Attributes)
    | Fetch(id: PayloadId)
    | Push(payload: Payload, beaconRoot: Hash, requests: Requests)
    | Choose(block: Hash)

  datatype Reply = HeaderReply(head: ExecutionHead) | IdReply(id: PayloadId) | EnvelopeReply(envelope: Envelope) | Done

  datatype Attempt = Success(reply: Reply) | Transient | Permanent(error: BuilderError)

  datatype BuildEnv = BuildEnv(
    unix: Int64, clock: nat, header: seq<Call>, start: seq<Call>, fetch: seq<Call>, interrupted: bool, save: Fault)

  datatype PublishEnv = PublishEnv(push: seq<Call>, choose: seq<Call>, store: Fault, at: nat, publish: Fault)

  datatype ProduceEnv = ProduceEnv(build: BuildEnv, pause: nat, read: Fault, finish: PublishEnv)

  /** Everything that producing a block reads and changes. */
  datatype Producer = Producer(
    fee: nat, head: Option<ExecutionHead>, geth: Geth, copies: Copies, rows: Table, stream: seq<Published>)

  // ---------------------------------------------------------------------------------------
  // What each operation does
  // ---------------------------------------------------------------------------------------

  /** Each operation has its own kind of reply. */
  predicate Fits(op: Operation, reply: Reply) {
    match op
    case ReadHeader => reply.HeaderReply?
    case StartBuild(_, _) => reply.IdReply?
    case Fetch(_) => reply.EnvelopeReply?
    case _ => reply.Done?
  }

  function Perform(g: Geth, op: Operation, c: Call): (r: (Geth, Attempt))
    requires c.Called?
    ensures r.1.Success? ==> Fits(op, r.1.reply)
  {
    match op
    case ReadHeader =>
      (match HeaderCall(g, c.fault)
       case Err(_) => (g, Transient)
       case Ok(head) => (g, Success(HeaderReply(head))))
    case StartBuild(head, attributes) =>
      var (g', reply) := ForkchoiceCall(g, head, Some(attributes), c.skip, c.fault);
      (g',
       match reply
       case Err(_) => Transient
       case Ok(response) =>
         if response.status != VALID then Permanent(RefusedStatus(response.status))
         else if response.payloadId.None? then Permanent(NoPayloadId)
         else Success(IdReply(response.payloadId.value)))
    case Fetch(id) =>
      (match BuildCall(id, c.fill, c.fault)
       case Err(_) => (g, Transient)
       case Ok(envelope) => (g, Success(EnvelopeReply(envelope))))
    case Push(payload, beaconRoot, requests) =>
      var (g', status) := NewPayloadCall(g, payload, beaconRoot, requests, c.fault);
      (g', if status.Err? then Transient else if status.value == INVALID then Permanent(Invalid) else Success(Done))
    case Choose(block) =>
      var (g', reply) := ForkchoiceCall(g, block, None, c.skip, c.fault);
      (g', if reply.Err? then Transient else Success(Done))
  }

  /** The call of an attempt; beyond the given ones calls are delivered. */
  function CallAt(calls: seq<Call>, attempt: nat): Call {
    if attempt < |calls| then calls[attempt] else Called(Delivered, false, Fill([], []), false)
  }

  function Retry(g: Geth, op: Operation, calls: seq<Call>, attempt: nat): (r: (Geth, Result<Reply, BuilderError>))
    requires attempt <= MAX_ATTEMPTS
    ensures r.1.Ok? ==> Fits(op, r.1.value)
    decreases MAX_ATTEMPTS - attempt
  {
    var c := CallAt(calls, attempt);
    if c.Cancelled? then (g, Err(Context)) else
    var (g', outcome) := Perform(g, op, c);
    match outcome
    case Success(reply) => (g', Ok(reply))
    case Permanent(error) => (g', Err(error))
    case Transient =>
      if attempt == MAX_ATTEMPTS || c.late then (g', Err(Exhausted)) else Retry(g', op, calls, attempt + 1)
  }

  function BuildAttributes(p: Producer, head: ExecutionHead, unix: Int64): Attributes {
    Attributes(NextTime(head, unix), head.hash, p.fee, head.hash)
  }

  /** What the fetch that is answered first finds in the block. */
  function FetchedFill(calls: seq<Call>, attempt: nat): Fill
    decreases MAX_ATTEMPTS - attempt
  {
    var c := CallAt(calls, attempt);
    if c.Cancelled? then Fill([], [])
    else if c.fault.Delivered? || attempt >= MAX_ATTEMPTS then c.fill
    else FetchedFill(calls, attempt + 1)
  }

  /** The state of a block built on a head at a given time with a given content. */
  function BuiltState(p: Producer, head: ExecutionHead, unix: Int64, fill: Fill): BlockBuildState {
    var id := PayloadId(head.hash, BuildAttributes(p, head, unix));
    var built := Build(id, fill);
    BlockBuildState(StepFinalizeBlock, Some(id), PayloadData(built.payload), RequestsData(built.requests))
  }

  /** GetPayload once the head is set. */
  function BuildOn(p: Producer, head: ExecutionHead, env: BuildEnv): (Producer, Result<(), BuilderError>) {
    var (g, started) := Retry(p.geth, StartBuild(head.hash, BuildAttributes(p, head, env.unix)), env.start, 0);
    var p1 := p.(geth := g);
    if started.Err? then (p1, Err(started.error))
    else
      var (_, fetched) := Retry(g, Fetch(started.value.id), env.fetch, 0);
      if fetched.Err? then (p1, Err(fetched.error))
      else
        var built := fetched.value.envelope;
        if built.payload.body.txs == [] then (p1, Err(if env.interrupted then Context else EmptyBlock))
        else
          var state := BlockBuildState(
            StepFinalizeBlock, Some(started.value.id), PayloadData(built.payload), RequestsData(built.requests));
          var (copies, saved) := SaveStep(p1.copies, state, env.clock, env.save);
          (p1.(copies := copies), if saved then Ok(()) else Err(StateNotSaved))
  }

  function GetPayloadStep(p: Producer, env: BuildEnv): (Producer, Result<(), BuilderError>) {
    if p.head.Some? then BuildOn(p, p.head.value, env) else
    var (_, read) := Retry(p.geth, ReadHeader, env.header, 0);
    if read.Err? then (p, Err(read.error))
    else BuildOn(p.(head := Some(read.value.head)), read.value.head, env)
  }

  function StoredRow(payload: Payload, payloadData: Data, requestsData: Data): Row {
    Row(payload.number, payload.blockHash, payload.parentHash, payloadData, requestsData, AsInt64(payload.timestamp))
  }

  function FinishStep(p: Producer, id: Option<PayloadId>, payloadData: Data, requestsData: Data, env: PublishEnv)
    : (Producer, Result<(), BuilderError>)
  {
    if id.None? || payloadData.Absent? then (p, Err(MissingPayload))
    else if payloadData.DecodePayload().None? then (p, Err(BadPayload))
    else if requestsData.DecodeRequests().None? then (p, Err(BadRequests))
    else if p.head.None? then (p, Err(NilHead))
    else if !payloadData.payload.Succeeds(p.head.value) then (p, Err(NotValidated))
    else
      var payload := payloadData.payload;
      var requests := requestsData.DecodeRequests().value;
      var (g1, pushed) := Retry(p.geth, Push(payload, p.head.value.hash, requests), env.push, 0);
      if pushed.Err? then (p.(geth := g1), Err(pushed.error)) else
      var (g2, chosen) := Retry(g1, Choose(payload.blockHash), env.choose, 0);
      if chosen.Err? then (p.(geth := g2), Err(chosen.error)) else
      var (rows, stored) := SaveCall(p.rows, StoredRow(payload, payloadData, requestsData), env.store);
      var p' := p.(geth := g2, head := Some(HeadFrom(payload)), rows := rows);
      if stored.Err? then (p', Err(NotStored)) else
      var entry := Published(payload.blockHash, payloadData, payload.number, env.at);
      (p'.(stream := if env.publish.Lost? then p.stream else p.stream + [entry]),
       if env.publish.Delivered? then Ok(()) else Err(NotPublished))
  }

  /** main.go's produceBlock: build, read the state back, finalise. */
  function ProduceStep(p: Producer, env: ProduceEnv): (Producer, Result<(), BuilderError>) {
    var (built, r) := GetPayloadStep(p, env.build);
    if r.Err? then (built, r) else
    var state := GetStep(built.copies, env.build.clock + env.pause, env.read);
    FinishStep(built, state.payloadId, state.executionPayload, state.requests, env.finish)
  }

  // ---------------------------------------------------------------------------------------
  // The builder
  // ---------------------------------------------------------------------------------------

  class Builder {
    const stateManager: RedisStateManager
    const engineCl: Engine
    const redisClient: Client
    const payloadStore: Store
    const feeRecipient: nat
    var executionHead: Option<ExecutionHead>

    constructor (stateManager: RedisStateManager, engineCl: Engine, payloadStore: Store, feeRecipient: nat)
      ensures this.stateManager == stateManager && this.engineCl == engineCl && this.payloadStore == payloadStore
      ensures redisClient == stateManager.client && this.feeRecipient == feeRecipient && executionHead == None
    {
      this.stateManager := stateManager;
      this.engineCl := engineCl;
      this.redisClient := stateManager.client;
      this.payloadStore := payloadStore;
      this.feeRecipient := feeRecipient;
      executionHead := None;
    }

    ghost function State(): Producer
      reads this, stateManager, stateManager.client, engineCl, redisClient, payloadStore
    {
      Producer(feeRecipient, executionHead, engineCl.geth, stateManager.State(), payloadStore.rows, redisClient.stream)
    }

    /** One call of the closure that is being retried. */
    method PerformOnce(op: Operation, c: Call) returns (r: Attempt)
      requires c.Called?
      modifies engineCl
      ensures (engineCl.geth, r) == Perform(old(engineCl.geth), op, c)
    {
      match op
      case ReadHeader =>
        var header := engineCl.HeaderByNumber(c.fault);
        r := if header.Err? then Transient else Success(HeaderReply(header.value));
      case StartBuild(head, attributes) =>
        var response := engineCl.ForkchoiceUpdatedV3(head, Some(attributes), c.skip, c.fault);
        if response.Err? {
          return Transient;
        }
        if response.value.status != VALID {
          return Permanent(RefusedStatus(response.value.status));
        }
        if response.value.payloadId.None? {
          return Permanent(NoPayloadId);
        }
        r := Success(IdReply(response.value.payloadId.value));
      case Fetch(id) =>
        var envelope := engineCl.GetPayloadV5(id, c.fill, c.fault);
        r := if envelope.Err? then Transient else Success(EnvelopeReply(envelope.value));
      case Push(payload, beaconRoot, requests) =>
        var status := engineCl.NewPayloadV4(payload, beaconRoot, requests, c.fault);
        if status.Err? {
          return Transient;
        }
        r := if status.value == INVALID then Permanent(Invalid) else Success(Done);
      case Choose(block) =>
        var response := engineCl.ForkchoiceUpdatedV3(block, None, c.skip, c.fault);
        r := if response.Err? then Transient else Success(Done);
    }

    /** Up to ten retries; a permanent error, a cancelled context or the time limit ends them. */
    method RetryWithBackoff(op: Operation, calls: seq<Call>) returns (r: Result<Reply, BuilderError>)
      modifies engineCl
      ensures (engineCl.geth, r) == Retry(old(engineCl.geth), op, calls, 0)
    {
      var attempt := 0;
      while true
        invariant attempt <= MAX_ATTEMPTS
        invariant Retry(engineCl.geth, op, calls, attempt) == Retry(old(engineCl.geth), op, calls, 0)
        decreases MAX_ATTEMPTS - attempt
      {
        var c := CallAt(calls, attempt);
        if c.Cancelled? {
          return Err(Context);
        }
        var outcome := PerformOnce(op, c);
        if outcome.Success? {
          return Ok(outcome.reply);
        }
        if outcome.Permanent? {
          return Err(outcome.error);
        }
        if attempt == MAX_ATTEMPTS || c.late {
          return Err(Exhausted);
        }
        attempt := attempt + 1;
      }
    }

    method SetExecutionHeadFromRpc(calls: seq<Call>) returns (r: Result<(), BuilderError>)
      modifies this, engineCl
      ensures var (g, read) := Retry(old(engineCl.geth), ReadHeader, calls, 0);
        && engineCl.geth == g == old(engineCl.geth)
        && (read.Ok? ==> r.Ok? && executionHead == Some(read.value.head))
        && (read.Err? ==> r == Err(read.error) && executionHead == old(executionHead))
    {
      ReadOnlyRetries(engineCl.geth, ReadHeader, calls, 0);
      var read := RetryWithBackoff(ReadHeader, calls);
      if read.Err? {
        return Err(read.error);
      }
      executionHead := Some(read.value.head);
      r := Ok(());
    }

    method GetPayload(env: BuildEnv) returns (r: Result<(), BuilderError>)
      requires redisClient == stateManager.client
      modifies this, engineCl, stateManager, redisClient`state
      ensures (State(), r) == GetPayloadStep(old(State()), env)
    {
      if executionHead.None? {
        var read := SetExecutionHeadFromRpc(env.header);
        if read.Err? {
          return Err(read.error);
        }
      }
      r := BuildPayload(env);
    }

    method BuildPayload(env: BuildEnv) returns (r: Result<(), BuilderError>)
      requires redisClient == stateManager.client && executionHead.Some?
      modifies engineCl, stateManager, redisClient`state
      ensures (State(), r) == BuildOn(old(State()), executionHead.value, env)
    {
      var ts := AsUint64(env.unix);
      if ts <= executionHead.value.time {
        ts := Inc64(executionHead.value.time);
      }
      var headHash := executionHead.value.hash;
      var attributes := Attributes(ts, headHash, feeRecipient, headHash);
      var started := RetryWithBackoff(StartBuild(headHash, attributes), env.start);
      if started.Err? {
        return Err(started.error);
      }
      ReadOnlyRetries(engineCl.geth, Fetch(started.value.id), env.fetch, 0);
      var fetched := RetryWithBackoff(Fetch(started.value.id), env.fetch);
      if fetched.Err? {
        return Err(fetched.error);
      }
      var built := fetched.value.envelope;
      if |built.payload.body.txs| == 0 {
        return Err(if env.interrupted then Context else EmptyBlock);
      }
      var saved := stateManager.SaveBlockState(
        BlockBuildState(
          StepFinalizeBlock, Some(started.value.id), PayloadData(built.payload), RequestsData(built.requests)),
        env.clock, env.save);
      r := if saved then Ok(()) else Err(StateNotSaved);
    }

    method ValidatePayload(payload: Payload) returns (ok: bool)
      requires executionHead.Some?
      ensures ok <==> payload.Succeeds(executionHead.value)
    {
      if payload.number != Inc64(executionHead.value.height) {
        return false;
      }
      if payload.parentHash != executionHead.value.hash {
        return false;
      }
      ok := payload.timestamp > executionHead.value.time;
    }

    method FinalizeBlock(id: Option<PayloadId>, payloadData: Data, requestsData: Data, env: PublishEnv)
      returns (r: Result<(), BuilderError>)
      requires redisClient == stateManager.client
      modifies this, engineCl, payloadStore, redisClient`stream
      ensures (State(), r) == FinishStep(old(State()), id, payloadData, requestsData, env)
    {
      if id.None? || payloadData.Absent? {
        return Err(MissingPayload);
      }
      var decoded := payloadData.DecodePayload();
      if decoded.None? {
        return Err(BadPayload);
      }
      var requests := requestsData.DecodeRequests();
      if requests.None? {
        return Err(BadRequests);
      }
      if executionHead.None? {
        return Err(NilHead);
      }
      var payload := decoded.value;
      var valid := ValidatePayload(payload);
      if !valid {
        return Err(NotValidated);
      }
      var pushed := RetryWithBackoff(Push(payload, executionHead.value.hash, requests.value), env.push);
      if pushed.Err? {
        return Err(pushed.error);
      }
      var chosen := RetryWithBackoff(Choose(payload.blockHash), env.choose);
      if chosen.Err? {
        return Err(chosen.error);
      }
      executionHead := Some(HeadFrom(payload));
      var stored := payloadStore.SavePayload(StoredRow(payload, payloadData, requestsData), env.store);
      if stored.Err? {
        return Err(NotStored);
      }
      var published := redisClient.PublishBlock(payload.blockHash, payloadData, payload.number, env.at, env.publish);
      if published.Err? {
        return Err(NotPublished);
      }
      r := Ok(());
    }

    method ProduceBlock(env: ProduceEnv) returns (r: Result<(), BuilderError>)
      requires redisClient == stateManager.client
      modifies this, engineCl, stateManager, redisClient`state, redisClient`stream, payloadStore
      ensures (State(), r) == ProduceStep(old(State()), env)
    {
      r := GetPayload(env.build);
      if r.Err? {
        return r;
      }
      var state := stateManager.GetBlockBuildState(env.build.clock + env.pause, env.read);
      r := FinalizeBlock(state.payloadId, state.executionPayload, state.requests, env.finish);
    }
  }

  lemma {:induction false} ReadOnlyRetries(g: Geth, op: Operation, calls: seq<Call>, attempt: nat)
    requires op.ReadHeader? || op.Fetch?
    requires attempt <= MAX_ATTEMPTS
    ensures var (g', r) := Retry(g, op, calls, attempt);
      && g' == g
      && (r.Ok? && op.ReadHeader? ==> r.value == HeaderReply(HeadOf(g.head)))
      && (r.Ok? && op.Fetch? ==> r.value.envelope == Build(op.id, FetchedFill(calls, attempt)))
    decreases MAX_ATTEMPTS - attempt
  {
    var c := CallAt(calls, attempt);
    if c.Called? {
      if attempt < MAX_ATTEMPTS {
        ReadOnlyRetries(g, op, calls, attempt + 1);
      }
    }
  }
}
