/** 03-member-nodes/pkg/sync/syncer.go: following a leader's store, block by block. */
module Syncer {
  import opened Outcomes
  import opened Blocks
  import opened Execution
  import opened BuildState
  import opened PayloadStore
  import opened Api

  const PAGE: nat := 100
  const BASE_INTERVAL: nat := 100
  const MAX_BACKOFF: nat := 30_000

  datatype StartEnv = StartEnv(header: Fault, latest: Fault)
  datatype BlockEnv = BlockEnv(newPayload: Fault, forkchoice: Fault, skip: bool, save: Fault)

  /** One batch: the HTTP request, the leader's query, and the calls for each block of the page. */
  datatype BatchEnv = BatchEnv(http: Fault, query: Fault, blocks: seq<BlockEnv>)

  /** Everything one syncer reads and changes. */
  datatype Sync = Sync(lastSynced: Uint64, count: nat, rows: Table, geth: Geth)

  // ---------------------------------------------------------------------------------------
  // What each operation does
  // ---------------------------------------------------------------------------------------

  function StartStep(s: Sync, env: StartEnv): Sync {
    var cursor := if env.header.Delivered? then s.geth.head.Number() else s.lastSynced;
    var latest := LatestCall(s.rows, env.latest);
    s.(lastSynced := if cursor == 0 && latest.Ok? then latest.value.number else cursor)
  }

  function RowOf(b: BlockResponse): Row {
    Row(b.blockNumber, b.blockHash, b.parentHash, b.payloadData, b.requestsData, b.timestamp)
  }

  function ExecuteStep(g: Geth, b: BlockResponse, env: BlockEnv): (Geth, bool) {
    var payload := b.payloadData.DecodePayload();
    var requests := b.requestsData.DecodeRequests();
    if payload.None? || requests.None? then (g, false) else
    var (g1, judged) := NewPayloadCall(g, payload.value, b.parentHash, requests.value, env.newPayload);
    if judged.Err? || judged.value == INVALID then (g1, false) else
    var (g2, chosen) := ForkchoiceCall(g1, payload.value.blockHash, None, env.skip, env.forkchoice);
    (g2, chosen.Ok?)
  }

  function BlockStep(s: Sync, b: BlockResponse, env: BlockEnv): (Sync, bool) {
    var (g, executed) := ExecuteStep(s.geth, b, env);
    if !executed then (s.(geth := g), false) else
    var (rows, saved) := SaveCall(s.rows, RowOf(b), env.save);
    if saved.Err? then (s.(geth := g, rows := rows), false)
    else (Sync(b.blockNumber, s.count + 1, rows, g), true)
  }

  function BlocksStep(s: Sync, blocks: seq<BlockResponse>, envs: seq<BlockEnv>): (Sync, bool)
    decreases |blocks|
  {
    if blocks == [] then (s, true) else
    var env := if envs == [] then BlockEnv(Delivered, Delivered, false, Delivered) else envs[0];
    var (s', ok) := BlockStep(s, blocks[0], env);
    if ok then BlocksStep(s', blocks[1..], if envs == [] then [] else envs[1..]) else (s', false)
  }

  function BatchStep(s: Sync, leader: Table, env: BatchEnv): (Sync, bool) {
    if !env.http.Delivered? then (s, false) else
    match AfterCall(leader, s.lastSynced, PAGE, env.query)
    case Err(_) => (s, false)
    case Ok(rows) => BlocksStep(s, CopyAll(rows), env.blocks)
  }

  function Batches(s: Sync, leader: Table, envs: seq<BatchEnv>): Sync
    decreases |envs|
  {
    if envs == [] then s else Batches(BatchStep(s, leader, envs[0]).0, leader, envs[1..])
  }

  function Pow2(n: nat): (r: nat)
    ensures r >= 1
  {
    if n == 0 then 1 else 2 * Pow2(n - 1)
  }

  function Min(a: nat, b: nat): nat {
    if a <= b then a else b
  }

  /** The delay after the given number of failures in a row, in milliseconds. */
  function Backoff(errors: nat): nat {
    Min(BASE_INTERVAL * Pow2(Min(errors, 8)), MAX_BACKOFF)
  }

  /** The loop until its context is cancelled: the end state and the waits between batches. */
  function LoopStep(s: Sync, leader: Table, batches: seq<BatchEnv>, errors: nat): (Sync, seq<nat>)
    decreases |batches|
  {
    if batches == [] then (s, []) else
    var (s', ok) := BatchStep(s, leader, batches[0]);
    var errors' := if ok then 0 else errors + 1;
    var (end, waits) := LoopStep(s', leader, batches[1..], errors');
    (end, [if ok then BASE_INTERVAL else Backoff(errors')] + waits)
  }

  // ---------------------------------------------------------------------------------------
  // The syncer
  // ---------------------------------------------------------------------------------------

  class BlockSyncer {
    const leader: Server
    const store: Store
    const engine: Engine
    var lastSynced: Uint64
    var syncedCount: nat

    constructor (leader: Server, store: Store, engine: Engine)
      ensures this.leader == leader && this.store == store && this.engine == engine
      ensures lastSynced == 0 && syncedCount == 0
    {
      this.leader := leader;
      this.store := store;
      this.engine := engine;
      lastSynced := 0;
      syncedCount := 0;
    }

    ghost function State(): Sync
      reads this, store, engine
    {
      Sync(lastSynced, syncedCount, store.rows, engine.geth)
    }

    method Start(env: StartEnv)
      modifies this
      ensures State() == StartStep(old(State()), env)
    {
      var header := engine.HeaderByNumber(env.header);
      if header.Ok? {
        lastSynced := header.value.height;
      }
      if lastSynced == 0 {
        var latest := store.GetLatestPayload(env.latest);
        if latest.Ok? {
          lastSynced := latest.value.number;
        }
      }
    }

    method ExecuteBlock(b: BlockResponse, env: BlockEnv) returns (ok: bool)
      modifies engine
      ensures (engine.geth, ok) == ExecuteStep(old(engine.geth), b, env)
    {
      var payload := b.payloadData.DecodePayload();
      if payload.None? {
        return false;
      }
      var requests := b.requestsData.DecodeRequests();
      if requests.None? {
        return false;
      }
      var status := engine.NewPayloadV4(payload.value, b.parentHash, requests.value, env.newPayload);
      if status.Err? {
        return false;
      }
      if status.value == INVALID {
        return false;
      }
      var chosen := engine.ForkchoiceUpdatedV3(payload.value.blockHash, None, env.skip, env.forkchoice);
      ok := chosen.Ok?;
    }

    method SyncBatch(env: BatchEnv) returns (ok: bool)
      modifies this, store, engine
      ensures (State(), ok) == BatchStep(old(State()), old(leader.store.rows), env)
    {
      hide ExecuteStep, ParseUint, Atoi, Digits, FormatUint, Ascending;
      if !env.http.Delivered? {
        return false;
      }
      ParseFormat(lastSynced);
      DefaultTexts();
      var response := leader.HandleGetBlocksAfter(Get, FormatUint(lastSynced), "100", env.query);
      if response.Status? {
        return false;
      }
      var blocks := response.value;
      var envs := env.blocks;
      for i := 0 to |blocks|
        invariant BlocksStep(State(), blocks[i..], envs) == BatchStep(old(State()), old(leader.store.rows), env)
      {
        var block := blocks[i];
        assert blocks[i..][0] == block && blocks[i..][1..] == blocks[i + 1..];
        var now := if envs == [] then BlockEnv(Delivered, Delivered, false, Delivered) else envs[0];
        var executed := ExecuteBlock(block, now);
        if !executed {
          return false;
        }
        var saved := store.SavePayload(RowOf(block), now.save);
        if saved.Err? {
          return false;
        }
        lastSynced := block.blockNumber;
        syncedCount := syncedCount + 1;
        envs := if envs == [] then [] else envs[1..];
      }
      ok := true;
    }

    method Delay(consecutiveErrors: nat) returns (delay: nat)
      ensures delay == Backoff(consecutiveErrors)
    {
      delay := BASE_INTERVAL * Pow2(Min(consecutiveErrors, 8));
      if delay > MAX_BACKOFF {
        delay := MAX_BACKOFF;
      }
    }

    /** One batch for each element of `batches`; then the context is cancelled. */
    method SyncLoop(batches: seq<BatchEnv>) returns (waits: seq<nat>)
      requires leader.store != store
      modifies this, store, engine
      ensures (State(), waits) == LoopStep(old(State()), leader.store.rows, batches, 0)
    {
      hide BatchStep, Backoff;
      var consecutiveErrors := 0;
      waits := [];
      ghost var leaderRows := leader.store.rows;
      ghost var (end, all) := LoopStep(State(), leaderRows, batches, 0);
      assert batches[0..] == batches;
      for i := 0 to |batches|
        invariant leader.store.rows == leaderRows
        invariant LoopStep(State(), leaderRows, batches[i..], consecutiveErrors).0 == end
        invariant waits + LoopStep(State(), leaderRows, batches[i..], consecutiveErrors).1 == all
      {
        assert batches[i..][1..] == batches[i + 1..];
        var ok := SyncBatch(batches[i]);
        if !ok {
          consecutiveErrors := consecutiveErrors + 1;
          var delay := Delay(consecutiveErrors);
          waits := waits + [delay];
        } else {
          consecutiveErrors := 0;
          waits := waits + [BASE_INTERVAL];
        }
      }
      assert batches[|batches|..] == [];
      assert waits == all && State() == end;
    }
  }
}
