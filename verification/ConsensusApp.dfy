/** The CometBFT application of 04-cometbft-consensus/pkg/app/app.go: a cached head,
    a head persisted in the local database, and Geth behind the Engine API. */
module ConsensusApp {
  import opened Outcomes
  import opened Blocks
  import opened Execution

  datatype Message = Message(payload: Option<Payload>, requests: Requests)

  /** A transaction as bytes: the JSON of a message, or bytes that do not decode. */
  datatype Tx = Json(message: Message) | Malformed(tag: nat)

  datatype AppError =
    | HeaderUnavailable
    | ForkchoiceFailed
    | BadStatus(status: PayloadStatus)
    | NoPayloadId
    | GetPayloadFailed
    | NoTransactions
    | BadJson
    | HeadNotInitialized
    | NilPayload
    | NewPayloadFailed
    | PayloadInvalid
    | SaveFailed

  datatype PayloadError = NoHead | BadHeight | BadParent | BadTimestamp

  /** What Info reports: the height, and the app hash unless nothing was loaded. */
  datatype InfoReply = InfoReply(lastBlockHeight: nat, lastBlockAppHash: Option<Hash>)

  datatype FinalizeReply = FinalizeReply(appHash: Hash, txResults: seq<nat>)

  /** Everything a validator's application holds; a crash loses the first field only. */
  datatype Node = Node(cached: Option<ExecutionHead>, persisted: Option<ExecutionHead>, geth: Geth)
  {
    function Crash(): Node {
      this.(cached := None)
    }
  }

  datatype InitEnv = InitEnv(header: Fault, save: Fault)
  datatype ProposeEnv = ProposeEnv(header: Fault, forkchoice: Fault, skip: bool, getPayload: Fault, fill: Fill)
  datatype FinalizeEnv = FinalizeEnv(newPayload: Fault, forkchoice: Fault, skip: bool, save: Fault)

  /** No call fails. */
  const CALM: FinalizeEnv := FinalizeEnv(Delivered, Delivered, false, Delivered)

  // ---------------------------------------------------------------------------------------
  // What each ABCI call does to the node
  // ---------------------------------------------------------------------------------------

  function Save(s: Node, head: ExecutionHead, f: Fault): Node {
    if f.Lost? then s else s.(persisted := Some(head))
  }

  function InfoStep(s: Node, load: Fault): (Node, InfoReply) {
    if load.Delivered? && s.persisted.Some? then
      (s.(cached := s.persisted), InfoReply(s.persisted.value.height, Some(s.persisted.value.hash)))
    else
      (s, InfoReply(0, None))
  }

  function InitChainStep(s: Node, env: InitEnv): (Node, Result<(), AppError>) {
    if !env.header.Delivered? then (s, Err(HeaderUnavailable)) else
    var head := HeadOf(s.geth.head);
    (Save(s.(cached := Some(head)), head, env.save), if env.save.Delivered? then Ok(()) else Err(SaveFailed))
  }

  function ProposalAttributes(head: ExecutionHead, unix: Int64): Attributes {
    Attributes(NextTime(head, unix), head.hash, 0, head.hash)
  }

  function PrepareStep(s: Node, unix: Int64, env: ProposeEnv): (Node, Result<seq<Tx>, AppError>) {
    if s.cached.None? && !env.header.Delivered? then (s, Err(HeaderUnavailable)) else
    var head := if s.cached.None? then HeadOf(s.geth.head) else s.cached.value;
    var (g, reply) := ForkchoiceCall(s.geth, head.hash, Some(ProposalAttributes(head, unix)), env.skip, env.forkchoice);
    var s' := s.(cached := Some(head), geth := g);
    match reply
    case Err(_) => (s', Err(ForkchoiceFailed))
    case Ok(response) =>
      if response.status != VALID then (s', Err(BadStatus(response.status)))
      else if response.payloadId.None? then (s', Err(NoPayloadId))
      else
        match BuildCall(response.payloadId.value, env.fill, env.getPayload)
        case Err(_) => (s', Err(GetPayloadFailed))
        case Ok(built) => (s', Ok([Json(Message(Some(built.payload), built.requests))]))
  }

  /** ProcessProposal's verdict. */
  predicate Accepts(cached: Option<ExecutionHead>, txs: seq<Tx>) {
    && |txs| > 0
    && txs[0].Json?
    && txs[0].message.payload.Some?
    && cached.Some?
    && txs[0].message.payload.value.Succeeds(cached.value)
  }

  function FinalizeStep(s: Node, txs: seq<Tx>, env: FinalizeEnv): (Node, Result<FinalizeReply, AppError>) {
    if |txs| == 0 then (s, Err(NoTransactions))
    else if txs[0].Malformed? then (s, Err(BadJson))
    else if s.cached.None? then (s, Err(HeadNotInitialized))
    else if txs[0].message.payload.None? then (s, Err(NilPayload))
    else
      var p := txs[0].message.payload.value;
      var (g1, judged) := NewPayloadCall(s.geth, p, s.cached.value.hash, txs[0].message.requests, env.newPayload);
      if judged.Err? then (s.(geth := g1), Err(NewPayloadFailed))
      else if judged.value == INVALID then (s.(geth := g1), Err(PayloadInvalid))
      else
        var (g2, chosen) := ForkchoiceCall(g1, p.blockHash, None, env.skip, env.forkchoice);
        if chosen.Err? then (s.(geth := g2), Err(ForkchoiceFailed))
        else
          (Save(s.(cached := Some(HeadFrom(p)), geth := g2), HeadFrom(p), env.save),
           if env.save.Delivered? then Ok(FinalizeReply(p.blockHash, seq(|txs|, _ => 0))) else Err(SaveFailed))
  }

  // ---------------------------------------------------------------------------------------
  // The application
  // ---------------------------------------------------------------------------------------

  /** The one key of the Badger database that the application uses. */
  class HeadDatabase {
    var head: Option<ExecutionHead>

    constructor ()
      ensures head == None
    {
      head := None;
    }
  }

  class GethConsensusApp {
    const db: HeadDatabase
    const engineCl: Engine
    var execHead: Option<ExecutionHead>

    constructor (db: HeadDatabase, engineCl: Engine)
      ensures this.db == db && this.engineCl == engineCl && execHead == None
    {
      this.db := db;
      this.engineCl := engineCl;
      execHead := None;
    }

    ghost function State(): Node
      reads this, db, engineCl
    {
      Node(execHead, db.head, engineCl.geth)
    }

    method LoadExecutionHead(load: Fault) returns (r: Option<ExecutionHead>)
      ensures r == if load.Delivered? then db.head else None
    {
      r := if load.Delivered? then db.head else None;
    }

    method SaveExecutionHead(head: ExecutionHead, f: Fault) returns (ok: bool)
      modifies db
      ensures State() == Save(old(State()), head, f)
      ensures ok == f.Delivered?
    {
      if !f.Lost? {
        db.head := Some(head);
      }
      ok := f.Delivered?;
    }

    method Info(load: Fault) returns (r: InfoReply)
      modifies this
      ensures (State(), r) == InfoStep(old(State()), load)
    {
      var loaded := LoadExecutionHead(load);
      if loaded.None? {
        return InfoReply(0, None);
      }
      execHead := loaded;
      r := InfoReply(loaded.value.height, Some(loaded.value.hash));
    }

    method InitChain(env: InitEnv) returns (r: Result<(), AppError>)
      modifies this, db
      ensures (State(), r) == InitChainStep(old(State()), env)
    {
      var header := engineCl.HeaderByNumber(env.header);
      if header.Err? {
        return Err(HeaderUnavailable);
      }
      execHead := Some(header.value);
      var saved := SaveExecutionHead(header.value, env.save);
      r := if saved then Ok(()) else Err(SaveFailed);
    }

    method BuildBlock(unix: Int64, env: ProposeEnv) returns (r: Result<Envelope, AppError>)
      requires execHead.Some?
      modifies engineCl
      ensures var (s, txs) := PrepareStep(old(State()), unix, env);
        && State() == s
        && (r.Err? ==> txs == Err(r.error))
        && (r.Ok? ==> txs == Ok([Json(Message(Some(r.value.payload), r.value.requests))]))
    {
      var headHash := execHead.value.hash;
      var ts := AsUint64(unix);
      if ts <= execHead.value.time {
        ts := Inc64(execHead.value.time);
      }
      var attributes := Attributes(ts, headHash, 0, headHash);
      var response := engineCl.ForkchoiceUpdatedV3(headHash, Some(attributes), env.skip, env.forkchoice);
      if response.Err? {
        return Err(ForkchoiceFailed);
      }
      if response.value.status != VALID {
        return Err(BadStatus(response.value.status));
      }
      if response.value.payloadId.None? {
        return Err(NoPayloadId);
      }
      var built := engineCl.GetPayloadV5(response.value.payloadId.value, env.fill, env.getPayload);
      if built.Err? {
        return Err(GetPayloadFailed);
      }
      r := Ok(built.value);
    }

    method PrepareProposal(unix: Int64, env: ProposeEnv) returns (r: Result<seq<Tx>, AppError>)
      modifies this, engineCl
      ensures (State(), r) == PrepareStep(old(State()), unix, env)
    {
      if execHead.None? {
        var header := engineCl.HeaderByNumber(env.header);
        if header.Err? {
          return Err(HeaderUnavailable);
        }
        execHead := Some(header.value);
      }
      var built := BuildBlock(unix, env);
      if built.Err? {
        return Err(built.error);
      }
      r := Ok([Json(Message(Some(built.value.payload), built.value.requests))]);
    }

    method ValidatePayload(p: Payload) returns (r: Result<(), PayloadError>)
      ensures r.Ok? <==> execHead.Some? && p.Succeeds(execHead.value)
      ensures r == Err(NoHead) <==> execHead.None?
    {
      if execHead.None? {
        return Err(NoHead);
      }
      if p.number != Inc64(execHead.value.height) {
        return Err(BadHeight);
      }
      if p.parentHash != execHead.value.hash {
        return Err(BadParent);
      }
      if p.timestamp <= execHead.value.time {
        return Err(BadTimestamp);
      }
      r := Ok(());
    }

    method ProcessProposal(txs: seq<Tx>) returns (accept: bool)
      ensures accept <==> Accepts(execHead, txs)
    {
      if |txs| == 0 {
        return false;
      }
      if txs[0].Malformed? || txs[0].message.payload.None? {
        return false;
      }
      var checked := ValidatePayload(txs[0].message.payload.value);
      accept := checked.Ok?;
    }

    method FinalizeBlock(txs: seq<Tx>, env: FinalizeEnv) returns (r: Result<FinalizeReply, AppError>)
      modifies this, db, engineCl
      ensures (State(), r) == FinalizeStep(old(State()), txs, env)
    {
      if |txs| == 0 {
        return Err(NoTransactions);
      }
      if txs[0].Malformed? {
        return Err(BadJson);
      }
      if execHead.None? {
        return Err(HeadNotInitialized);
      }
      if txs[0].message.payload.None? {
        return Err(NilPayload);
      }
      var payload := txs[0].message.payload.value;
      var status := engineCl.NewPayloadV4(payload, execHead.value.hash, txs[0].message.requests, env.newPayload);
      if status.Err? {
        return Err(NewPayloadFailed);
      }
      if status.value == INVALID {
        return Err(PayloadInvalid);
      }
      var chosen := engineCl.ForkchoiceUpdatedV3(payload.blockHash, None, env.skip, env.forkchoice);
      if chosen.Err? {
        return Err(ForkchoiceFailed);
      }
      execHead := Some(HeadFrom(payload));
      var saved := SaveExecutionHead(HeadFrom(payload), env.save);
      if !saved {
        return Err(SaveFailed);
      }
      var results := [];
      for i := 0 to |txs|
        invariant results == seq(i, _ => 0)
      {
        results := results + [0];
      }
      r := Ok(FinalizeReply(payload.blockHash, results));
    }
  }
}
