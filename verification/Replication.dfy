/** Following a leader: what every reachable state of a syncer has in common, and when it converges. */
module Replication {
  import opened Outcomes
  import opened Blocks
  import opened Execution
  import opened BuildState
  import opened PayloadStore
  import opened Api
  import opened Syncer

  /** The rows a leader stored above some base block, by consecutive numbers. */
  datatype Ledger = Ledger(base: Hash, rows: seq<Row>)
  {
    function Bottom(): nat {
      base.Number()
    }

    function Top(): nat {
      base.Number() + |rows|
    }

    function RowAt(n: nat): Row
      requires Bottom() < n <= Top()
    {
      rows[n - Bottom() - 1]
    }

    function HashAt(n: nat): Hash
      requires Bottom() <= n <= Top()
    {
      if n == Bottom() then base else RowAt(n).hash
    }

    /** Row n carries a payload of block n whose parent is block n - 1. */
    predicate LinkedRow(n: nat)
      requires Bottom() < n <= Top()
    {
      var row := RowAt(n);
      && row.number == n
      && row.parentHash == HashAt(n - 1)
      && row.payloadData.PayloadData?
      && row.payloadData.payload.number == n
      && row.payloadData.payload.blockHash == row.hash
      && row.payloadData.payload.parentHash == row.parentHash
    }

    ghost predicate Linked() {
      Top() <= MAX_INT64 && forall n: nat {:trigger LinkedRow(n)} | Bottom() < n <= Top() :: LinkedRow(n)
    }
  }

  /** The leader's table holds exactly the ledger above its base. */
  ghost predicate Serves(t: Table, l: Ledger) {
    && WellFormed(t)
    && forall n: nat | n > l.Bottom() :: (n in t <==> n <= l.Top()) && (n in t ==> t[n] == l.RowAt(n))
  }

  // ---------------------------------------------------------------------------------------
  // Prefix replication
  // ---------------------------------------------------------------------------------------

  predicate SameRow(t: Table, t': Table, n: nat) {
    (n in t <==> n in t') && (n in t ==> t[n] == t'[n])
  }

  ghost predicate EngineFollows(g: Geth, l: Ledger, n: nat)
    requires l.Bottom() <= n <= l.Top()
  {
    && g.Consistent()
    && l.HashAt(n) in g.known
    && (g.head == l.HashAt(n) || (n < l.Top() && g.head == l.HashAt(n + 1)))
  }

  predicate Extending(l: Ledger, n: nat)
    requires l.Bottom() < n <= l.Top()
  {
    l.HashAt(n).Extends(l.HashAt(n - 1))
  }

  /** From the start state s0 of one sync run: the rows above its cursor and up to the present one are the
      leader's, at most the next one may have been saved too, all others are as they were; Geth stands at
      the cursor or one block further; the blocks passed extend each other; and the count has grown by their number. */
  ghost predicate Replicated(s0: Sync, s: Sync, l: Ledger) {
    && l.Bottom() <= s0.lastSynced <= s.lastSynced <= l.Top()
    && s.count == s0.count + (s.lastSynced - s0.lastSynced)
    && EngineFollows(s.geth, l, s.lastSynced)
    && (forall n: nat {:trigger Extending(l, n)} | s0.lastSynced < n <= s.lastSynced :: Extending(l, n))
    && (forall n: nat | s0.lastSynced < n <= s.lastSynced :: n in s.rows && s.rows[n] == l.RowAt(n))
    && (forall n: nat | n <= s0.lastSynced || n > s.lastSynced + 1 :: SameRow(s0.rows, s.rows, n))
    && (SameRow(s0.rows, s.rows, s.lastSynced + 1)
        || (&& s.lastSynced < l.Top()
            && s.lastSynced + 1 in s.rows
            && s.rows[s.lastSynced + 1] == l.RowAt(s.lastSynced + 1)))
  }

  lemma ExecuteKeeps(g: Geth, l: Ledger, n: nat, env: BlockEnv)
    requires l.Linked() && l.Bottom() <= n < l.Top() && EngineFollows(g, l, n)
    ensures var (g', ok) := ExecuteStep(g, Copy(l.RowAt(n + 1)), env);
      && EngineFollows(g', l, n)
      && (ok ==> EngineFollows(g', l, n + 1) && Extending(l, n + 1))
  {
    assert l.LinkedRow(n + 1);
    var b := Copy(l.RowAt(n + 1));
    var p := b.payloadData.payload;
    var requests := b.requestsData.DecodeRequests();
    if requests.Some? {
      NewPayloadKeepsConsistency(g, p, b.parentHash, requests.value, env.newPayload);
      JudgedOnKnownParent(g, p, b.parentHash, requests.value);
      var (g1, judged) := NewPayloadCall(g, p, b.parentHash, requests.value, env.newPayload);
      if judged.Ok? && judged.value != INVALID {
        ForkchoiceKeepsConsistency(g1, p.blockHash, None, env.skip, env.forkchoice);
        NoDescentFromChild(p.parentHash, p.blockHash);
      }
    }
  }

  /** Exactly when a block is executed: it decodes, both calls are answered, its hash is that of its contents under the
      stored parent hash as beacon root, and Geth knows it, has no parent for it, or finds it valid; and then Geth
      has it and moves to it, unless it has no parent for it. */
  lemma ExecutesIff(g: Geth, b: BlockResponse, env: BlockEnv)
    ensures var (g', ok) := ExecuteStep(g, b, env);
      && (ok <==> && b.payloadData.PayloadData? && (b.requestsData.RequestsData? || b.requestsData.Absent?)
                  && env.newPayload.Delivered? && env.forkchoice.Delivered?
                  && var p := b.payloadData.payload;
                  && p.blockHash == p.Seal(b.parentHash, b.requestsData.DecodeRequests().value)
                  && (|| p.blockHash in g.known
                      || p.parentHash !in g.known
                      || (p.blockHash.Extends(p.parentHash) && p.body.sound)))
      && (ok && !env.skip ==>
            var p := b.payloadData.payload;
            if p.blockHash in g.known || p.parentHash in g.known then
              g' == g.(known := g.known + {p.blockHash}, head := p.blockHash)
            else g' == g)
  {
    if b.payloadData.PayloadData? && b.payloadData.payload.blockHash in g.known {
      assert g.known + {b.payloadData.payload.blockHash} == g.known;
    }
  }

  /** The rows after one block: unchanged, or with the row of that block. */
  lemma RowsKeep(s0: Sync, s: Sync, n: nat, rows: Table)
    requires n == s.lastSynced + 1
    requires rows == s.rows || (n in rows && rows == s.rows[n := rows[n]])
    ensures forall m: nat | m != n && SameRow(s0.rows, s.rows, m) :: SameRow(s0.rows, rows, m)
  {
  }

  lemma SaveChangesOneRow(t: Table, row: Row, f: Fault)
    ensures var (t', r) := SaveCall(t, row, f);
      && (t' == t || t' == t[row.number := row])
      && (r.Ok? ==> t' == t[row.number := row])
  {
  }

  lemma BlockKeeps(s0: Sync, s: Sync, l: Ledger, env: BlockEnv)
    requires l.Linked() && Replicated(s0, s, l) && s.lastSynced < l.Top()
    ensures var (s', ok) := BlockStep(s, Copy(l.RowAt(s.lastSynced + 1)), env);
      && Replicated(s0, s', l)
      && s'.lastSynced == s.lastSynced + if ok then 1 else 0
  {
    var n := s.lastSynced + 1;
    var b := Copy(l.RowAt(n));
    assert l.LinkedRow(n);
    assert RowOf(b) == l.RowAt(n);
    ExecuteKeeps(s.geth, l, s.lastSynced, env);
    SaveChangesOneRow(s.rows, RowOf(b), env.save);
    hide ExecuteStep, EngineFollows, Extending, SaveCall, Copy, RowOf;
    var (s', ok) := BlockStep(s, b, env);
    RowsKeep(s0, s, n, s'.rows);
  }

  lemma {:induction false} BlocksKeep(s0: Sync, s: Sync, l: Ledger, blocks: seq<BlockResponse>, envs: seq<BlockEnv>)
    requires l.Linked() && Replicated(s0, s, l) && s.lastSynced + |blocks| <= l.Top()
    requires forall i | 0 <= i < |blocks| :: blocks[i] == Copy(l.RowAt(s.lastSynced + 1 + i))
    ensures var (s', ok) := BlocksStep(s, blocks, envs);
      && Replicated(s0, s', l)
      && s.lastSynced <= s'.lastSynced
    decreases |blocks|
  {
    if blocks != [] {
      var env := if envs == [] then BlockEnv(Delivered, Delivered, false, Delivered) else envs[0];
      BlockKeeps(s0, s, l, env);
      var (s', ok) := BlockStep(s, blocks[0], env);
      if ok {
        BlocksKeep(s0, s', l, blocks[1..], if envs == [] then [] else envs[1..]);
      }
    }
  }

  /** A page of a contiguous store is the next stretch of the ledger. */
  lemma {:induction false} PageOfLedger(t: Table, l: Ledger, n: nat, limit: nat)
    requires l.Linked() && Serves(t, l) && l.Bottom() <= n <= l.Top()
    ensures var page := Ascending(t, n + 1, limit);
      && n + |page| <= l.Top()
      && forall i | 0 <= i < |page| :: page[i] == l.RowAt(n + 1 + i)
    decreases l.Top() - n
  {
    var page := Ascending(t, n + 1, limit);
    if n < l.Top() {
      if limit > 0 {
        PageOfLedger(t, l, n + 1, limit - 1);
      }
    } else {
      PageRows(t, n + 1, limit);
    }
  }

  lemma BatchKeeps(s0: Sync, s: Sync, t: Table, l: Ledger, env: BatchEnv)
    requires l.Linked() && Serves(t, l) && Replicated(s0, s, l)
    ensures Replicated(s0, BatchStep(s, t, env).0, l)
    ensures s.lastSynced <= BatchStep(s, t, env).0.lastSynced
  {
    PageOfLedger(t, l, s.lastSynced, PAGE);
    var page := Ascending(t, s.lastSynced + 1, PAGE);
    BlocksKeep(s0, s, l, CopyAll(page), env.blocks);
  }

  lemma {:induction false} BatchesReplicate(s0: Sync, s: Sync, t: Table, l: Ledger, envs: seq<BatchEnv>)
    requires l.Linked() && Serves(t, l) && Replicated(s0, s, l)
    ensures Replicated(s0, Batches(s, t, envs), l)
    decreases |envs|
  {
    hide Replicated, Serves, BatchStep;
    if envs != [] {
      BatchKeeps(s0, s, t, l, envs[0]);
      BatchesReplicate(s0, BatchStep(s, t, envs[0]).0, t, l, envs[1..]);
    }
  }

  // Runs: batches of the syncer and saves of the leader, in any order.

  datatype FeedEvent = Batch(env: BatchEnv) | LeaderSaves(row: Row)

  datatype Feed = Feed(sync: Sync, leader: Table, ledger: Ledger)

  /** A leader that extends its chain contiguously; its syncer may be anywhere. */
  function FeedStep(f: Feed, e: FeedEvent): Feed {
    match e
    case Batch(env) => f.(sync := BatchStep(f.sync, f.leader, env).0)
    case LeaderSaves(row) =>
      var longer := f.ledger.(rows := f.ledger.rows + [row]);
      if Upsert(f.leader, row).1.Ok? && longer.LinkedRow(longer.Top()) then
        f.(leader := f.leader[row.number := row], ledger := longer)
      else f
  }

  function FeedRun(f: Feed, events: seq<FeedEvent>): Feed
    decreases |events|
  {
    if events == [] then f else FeedRun(FeedStep(f, events[0]), events[1..])
  }

  ghost predicate FeedInv(s0: Sync, f: Feed) {
    f.ledger.Linked() && Serves(f.leader, f.ledger) && Replicated(s0, f.sync, f.ledger)
  }

  lemma LongerLedger(l: Ledger, row: Row)
    requires l.Linked()
    ensures var longer := l.(rows := l.rows + [row]);
      && (forall n: nat | l.Bottom() < n <= l.Top() :: longer.RowAt(n) == l.RowAt(n))
      && (forall n: nat | l.Bottom() <= n <= l.Top() :: longer.HashAt(n) == l.HashAt(n))
      && (forall n: nat {:trigger longer.LinkedRow(n)} | l.Bottom() < n <= l.Top() :: longer.LinkedRow(n))
  {
    var longer := l.(rows := l.rows + [row]);
    forall n: nat | l.Bottom() < n <= l.Top()
      ensures longer.LinkedRow(n)
    {
      assert l.LinkedRow(n);
    }
  }

  lemma ReplicatedInLonger(s0: Sync, s: Sync, l: Ledger, row: Row)
    requires l.Linked() && Replicated(s0, s, l)
    ensures Replicated(s0, s, l.(rows := l.rows + [row]))
  {
    LongerLedger(l, row);
    var longer := l.(rows := l.rows + [row]);
    forall n: nat | s0.lastSynced < n <= s.lastSynced
      ensures Extending(longer, n)
    {
      assert Extending(l, n);
    }
  }

  lemma ServesLonger(t: Table, l: Ledger, row: Row)
    requires Serves(t, l) && Upsert(t, row).1.Ok? && row.number == l.Top() + 1
    ensures Serves(t[row.number := row], l.(rows := l.rows + [row]))
  {
    SaveKeepsKeys(t, row, Delivered);
  }

  lemma FeedStepKeeps(s0: Sync, f: Feed, e: FeedEvent)
    requires FeedInv(s0, f)
    ensures FeedInv(s0, FeedStep(f, e))
  {
    hide Replicated, Serves;
    match e
    case Batch(env) => BatchKeeps(s0, f.sync, f.leader, f.ledger, env);
    case LeaderSaves(row) =>
      if FeedStep(f, e) != f {
        LongerLedger(f.ledger, row);
        ServesLonger(f.leader, f.ledger, row);
        ReplicatedInLonger(s0, f.sync, f.ledger, row);
      }
  }

  /** Prefix replication: every state of one sync run replicates a prefix of the leader's ledger, for all
      failures of every call and while the leader keeps appending. */
  lemma {:induction false} PrefixReplication(s0: Sync, f: Feed, events: seq<FeedEvent>)
    requires FeedInv(s0, f)
    ensures FeedInv(s0, FeedRun(f, events))
    decreases |events|
  {
    if events != [] {
      FeedStepKeeps(s0, f, events[0]);
      PrefixReplication(s0, FeedStep(f, events[0]), events[1..]);
    }
  }

  /** The number of the latest stored row, if there is a row. */
  ghost predicate LatestAt(t: Table, n: nat) {
    n in t && forall m <- t :: m <= n
  }

  /** When Start puts the cursor at Geth's head, for every outcome of its two reads. A head that is read and is not
      block 0 is the cursor. Otherwise the old cursor stays unless it is 0 or was read to be 0; then the latest
      stored row decides, if it can be read and there is one. */
  lemma StartAtGethHead(s: Sync, env: StartEnv)
    requires WellFormed(s.rows)
    ensures var h := s.geth.head.Number();
      var kept := if env.header.Delivered? then 0 else s.lastSynced;
      StartStep(s, env).lastSynced == h
      <==> || (env.header.Delivered? && h > 0)
           || (kept > 0 && kept == h)
           || ((env.header.Delivered? ==> h == 0) && kept == 0
               && if env.latest.Delivered? && s.rows != map[] then LatestAt(s.rows, h) else h == 0)
  {
    LatestIsMaximum(s.rows, MAX_INT64);
  }

  /** Every block of the ledger extends the one before it. */
  ghost predicate Chained(l: Ledger) {
    forall n: nat {:trigger Extending(l, n)} | l.Bottom() < n <= l.Top() :: Extending(l, n)
  }

  lemma {:induction false} ChainedNumbers(l: Ledger, n: nat)
    requires Chained(l) && l.Bottom() <= n <= l.Top()
    ensures l.HashAt(n).Number() == n
    decreases n
  {
    if n > l.Bottom() {
      ChainedNumbers(l, n - 1);
      assert Extending(l, n);
    }
  }

  /** With Geth's head on the leader's chain, and whatever reads fail, a run starts replicated if its cursor is at the
      head, or one block below it; and on a ledger of proper blocks in no other case. */
  lemma StartReplicates(s: Sync, l: Ledger, env: StartEnv)
    requires l.Bottom() <= s.geth.head.Number() <= l.Top()
    requires s.geth.Consistent() && s.geth.head == l.HashAt(s.geth.head.Number())
    ensures var start := StartStep(s, env);
      && (start.lastSynced == s.geth.head.Number() ==> Replicated(start, start, l))
      && (Chained(l) ==>
            (Replicated(start, start, l)
             <==> || start.lastSynced == s.geth.head.Number()
                  || l.Bottom() <= start.lastSynced == s.geth.head.Number() - 1))
  {
    var n := StartStep(s, env).lastSynced;
    var h := s.geth.head.Number();
    if Chained(l) && l.Bottom() <= n <= l.Top() {
      ChainedNumbers(l, n);
      if n < l.Top() {
        ChainedNumbers(l, n + 1);
      }
      if n + 1 == h {
        assert Extending(l, h);
        assert s.geth.Accepted(s.geth.head);
      }
    }
  }

  // ---------------------------------------------------------------------------------------
  // Convergence
  // ---------------------------------------------------------------------------------------

  /** The leader's rows above a cursor. */
  function Remaining(t: Table, cursor: nat): nat {
    |Between(t, cursor + 1, MAX_INT64)|
  }

  /** A batch passes some of the page's rows, and all of them if it returns without an error. */
  lemma {:induction false} BlocksAdvance(s: Sync, blocks: seq<BlockResponse>, envs: seq<BlockEnv>) returns (k: nat)
    ensures k <= |blocks|
    ensures var (s', ok) := BlocksStep(s, blocks, envs);
      && s'.lastSynced == (if k == 0 then s.lastSynced else blocks[k - 1].blockNumber)
      && s'.count == s.count + k
      && (ok ==> k == |blocks|)
    decreases |blocks|
  {
    k := 0;
    if blocks != [] {
      var env := if envs == [] then BlockEnv(Delivered, Delivered, false, Delivered) else envs[0];
      var (s', ok) := BlockStep(s, blocks[0], env);
      if ok {
        var rest := BlocksAdvance(s', blocks[1..], if envs == [] then [] else envs[1..]);
        k := rest + 1;
      }
    }
  }

  lemma {:induction false} BetweenAt(t: Table, from: nat, upto: nat, k: nat)
    requires WellFormed(t) && k < |Between(t, from, upto)|
    ensures var n := Between(t, from, upto)[k].number;
      from <= n <= upto && |Between(t, n + 1, upto)| == |Between(t, from, upto)| - k - 1
    decreases upto + 1 - from
  {
    if from !in t {
      BetweenAt(t, from + 1, upto, k);
    } else if k > 0 {
      BetweenAt(t, from + 1, upto, k - 1);
    }
  }

  /** Whatever fails, the cursor does not move back and nothing becomes unsynced again;
      a batch without an error passes a full page, or all that is left. */
  lemma BatchAdvances(s: Sync, t: Table, env: BatchEnv)
    requires WellFormed(t)
    ensures var (s', ok) := BatchStep(s, t, env);
      && s.lastSynced <= s'.lastSynced
      && Remaining(t, s'.lastSynced) <= Remaining(t, s.lastSynced)
      && s'.count - s.count == Remaining(t, s.lastSynced) - Remaining(t, s'.lastSynced)
      && (ok ==> Remaining(t, s'.lastSynced) == Remaining(t, s.lastSynced) - Min(100, Remaining(t, s.lastSynced)))
  {
    hide BlocksStep, Ascending, Between, WellFormed;
    if env.http.Delivered? && AfterCall(t, s.lastSynced, PAGE, env.query).Ok? {
      var page := Ascending(t, s.lastSynced + 1, PAGE);
      PageRows(t, s.lastSynced + 1, PAGE);
      PageIsPrefix(t, s.lastSynced + 1, PAGE);
      var k := BlocksAdvance(s, CopyAll(page), env.blocks);
      if k > 0 {
        BetweenAt(t, s.lastSynced + 1, MAX_INT64, k - 1);
        assert page[k - 1] == Between(t, s.lastSynced + 1, MAX_INT64)[k - 1];
      }
    }
  }

  function Successes(s: Sync, t: Table, envs: seq<BatchEnv>): nat
    decreases |envs|
  {
    if envs == [] then 0
    else (if BatchStep(s, t, envs[0]).1 then 1 else 0) + Successes(BatchStep(s, t, envs[0]).0, t, envs[1..])
  }

  /** Against a fixed store, every batch without an error brings the end a page nearer, however many
      failing batches lie between: ceil(r/100) of them pass all r remaining rows. */
  lemma {:induction false} SyncConverges(s: Sync, t: Table, envs: seq<BatchEnv>)
    requires WellFormed(t)
    ensures var end := Batches(s, t, envs);
      && s.lastSynced <= end.lastSynced
      && end.count - s.count == Remaining(t, s.lastSynced) - Remaining(t, end.lastSynced)
      && Remaining(t, end.lastSynced) <= Remaining(t, s.lastSynced)
      && (100 * Successes(s, t, envs) >= Remaining(t, s.lastSynced) ==> Remaining(t, end.lastSynced) == 0)
    decreases |envs|
  {
    if envs != [] {
      BatchAdvances(s, t, envs[0]);
      SyncConverges(BatchStep(s, t, envs[0]).0, t, envs[1..]);
    }
  }

  /** The loop of the syncer runs exactly these batches. */
  lemma {:induction false} LoopRunsBatches(s: Sync, t: Table, envs: seq<BatchEnv>, errors: nat)
    ensures LoopStep(s, t, envs, errors).0 == Batches(s, t, envs)
    ensures |LoopStep(s, t, envs, errors).1| == |envs|
    decreases |envs|
  {
    if envs != [] {
      var (s', ok) := BatchStep(s, t, envs[0]);
      LoopRunsBatches(s', t, envs[1..], if ok then 0 else errors + 1);
    }
  }

  // ---------------------------------------------------------------------------------------
  // A store with a gap
  // ---------------------------------------------------------------------------------------

  /** The rows that are passed are stored, whatever the page looks like. */
  lemma {:induction false} BlocksCopy(s: Sync, t: Table, from: nat, limit: nat, envs: seq<BlockEnv>)
    requires WellFormed(t) && s.lastSynced < from
    requires forall n <- t :: n <= s.lastSynced || n >= from
    ensures var s' := BlocksStep(s, CopyAll(Ascending(t, from, limit)), envs).0;
      && s.lastSynced <= s'.lastSynced
      && (forall n <- t | s.lastSynced < n <= s'.lastSynced :: n in s'.rows && s'.rows[n] == t[n])
      && (forall n <- s.rows | n <= s.lastSynced :: n in s'.rows && s'.rows[n] == s.rows[n])
    decreases MAX_INT64 + 1 - from
  {
    hide ExecuteStep, SaveCall;
    if limit > 0 && from <= MAX_INT64 {
      if from in t {
        var blocks := CopyAll(Ascending(t, from, limit));
        var env := if envs == [] then BlockEnv(Delivered, Delivered, false, Delivered) else envs[0];
        SaveChangesOneRow(s.rows, RowOf(blocks[0]), env.save);
        var (s', ok) := BlockStep(s, blocks[0], env);
        if ok {
          assert RowOf(blocks[0]) == t[from] && t[from].number == from;
          assert SaveCall(s.rows, RowOf(blocks[0]), env.save).1.Ok?;
          assert s'.rows == SaveCall(s.rows, RowOf(blocks[0]), env.save).0;
          assert s'.lastSynced == from && s'.rows == s.rows[from := t[from]];
          assert blocks[1..] == CopyAll(Ascending(t, from + 1, limit - 1));
          BlocksCopy(s', t, from + 1, limit - 1, if envs == [] then [] else envs[1..]);
        }
      } else {
        BlocksCopy(s, t, from + 1, limit, envs);
      }
    }
  }

  /** After any batches the member has a copy of every row between the old cursor and the new one. */
  lemma {:induction false} BatchesCopy(s: Sync, t: Table, envs: seq<BatchEnv>)
    requires WellFormed(t)
    ensures var end := Batches(s, t, envs);
      && s.lastSynced <= end.lastSynced
      && (forall n <- t | s.lastSynced < n <= end.lastSynced :: n in end.rows && end.rows[n] == t[n])
      && (forall n <- s.rows | n <= s.lastSynced :: n in end.rows && end.rows[n] == s.rows[n])
    decreases |envs|
  {
    hide BlocksStep, Ascending, WellFormed;
    if envs != [] {
      BlocksCopy(s, t, s.lastSynced + 1, PAGE, envs[0].blocks);
      BatchesCopy(BatchStep(s, t, envs[0]).0, t, envs[1..]);
    }
  }

  lemma {:induction false} BlocksKeepConsistency(s: Sync, blocks: seq<BlockResponse>, envs: seq<BlockEnv>)
    requires s.geth.Consistent()
    ensures BlocksStep(s, blocks, envs).0.geth.Consistent()
    ensures BlocksStep(s, blocks, envs).0.geth.genesis == s.geth.genesis
    decreases |blocks|
  {
    if blocks != [] {
      var env := if envs == [] then BlockEnv(Delivered, Delivered, false, Delivered) else envs[0];
      var b := blocks[0];
      var payload := b.payloadData.DecodePayload();
      var requests := b.requestsData.DecodeRequests();
      if payload.Some? && requests.Some? {
        NewPayloadKeepsConsistency(s.geth, payload.value, b.parentHash, requests.value, env.newPayload);
        var (g1, _) := NewPayloadCall(s.geth, payload.value, b.parentHash, requests.value, env.newPayload);
        ForkchoiceKeepsConsistency(g1, payload.value.blockHash, None, env.skip, env.forkchoice);
      }
      BlocksKeepConsistency(BlockStep(s, b, env).0, blocks[1..], if envs == [] then [] else envs[1..]);
    }
  }

  /** Whatever rows a syncer is served, Geth stays consistent. */
  lemma {:induction false} BatchesKeepConsistency(s: Sync, t: Table, envs: seq<BatchEnv>)
    requires s.geth.Consistent()
    ensures Batches(s, t, envs).geth.Consistent()
    ensures Batches(s, t, envs).geth.genesis == s.geth.genesis
    decreases |envs|
  {
    if envs != [] {
      if AfterCall(t, s.lastSynced, PAGE, envs[0].query).Ok? {
        BlocksKeepConsistency(s, CopyAll(AfterCall(t, s.lastSynced, PAGE, envs[0].query).value), envs[0].blocks);
      }
      BatchesKeepConsistency(BatchStep(s, t, envs[0]).0, t, envs[1..]);
    }
  }

  lemma {:induction false} BatchesCompose(s: Sync, t: Table, a: seq<BatchEnv>, b: seq<BatchEnv>)
    ensures Batches(s, t, a + b) == Batches(Batches(s, t, a), t, b)
    decreases |a|
  {
    if a == [] {
      assert a + b == b;
    } else {
      assert (a + b)[1..] == a[1..] + b;
      BatchesCompose(BatchStep(s, t, a[0]).0, t, a[1..], b);
    }
  }

  /** Every block that Geth knows has a number below the gap. */
  ghost predicate Below(g: Geth, gap: nat) {
    g.head in g.known && forall h <- g.known :: h.Number() < gap
  }

  /** Above the cursor, each row that carries a payload carries one of its number; the gap has no row. */
  ghost predicate Gapped(t: Table, cursor: nat, gap: nat) {
    && gap !in t
    && forall n <- t | n > cursor :: t[n].payloadData.PayloadData? ==> t[n].payloadData.payload.number == n
  }

  lemma ExecuteStaysBelow(g: Geth, b: BlockResponse, env: BlockEnv, gap: nat)
    requires Below(g, gap)
    requires b.payloadData.PayloadData? ==> b.payloadData.payload.number != gap
    ensures Below(ExecuteStep(g, b, env).0, gap)
  {
  }

  lemma {:induction false} BlocksStayBelow(s: Sync, blocks: seq<BlockResponse>, envs: seq<BlockEnv>, gap: nat)
    requires Below(s.geth, gap)
    requires forall b <- blocks :: b.payloadData.PayloadData? ==> b.payloadData.payload.number != gap
    ensures Below(BlocksStep(s, blocks, envs).0.geth, gap)
    decreases |blocks|
  {
    hide Below, ExecuteStep;
    if blocks != [] {
      var env := if envs == [] then BlockEnv(Delivered, Delivered, false, Delivered) else envs[0];
      assert blocks[0] in blocks;
      ExecuteStaysBelow(s.geth, blocks[0], env, gap);
      forall b <- blocks[1..]
        ensures b.payloadData.PayloadData? ==> b.payloadData.payload.number != gap
      {
        assert b in blocks;
      }
      BlocksStayBelow(BlockStep(s, blocks[0], env).0, blocks[1..], if envs == [] then [] else envs[1..], gap);
    }
  }

  /** A syncer that meets a gap before its Geth knows a block above it: rows and cursor go on, as NewPayload answers
      SYNCING and the forkchoice update to an unknown block is ignored, but Geth stays below the gap forever. */
  lemma {:induction false} GethStaysBelowGap(s: Sync, t: Table, envs: seq<BatchEnv>, gap: nat)
    requires WellFormed(t) && Gapped(t, s.lastSynced, gap) && Below(s.geth, gap)
    ensures Below(Batches(s, t, envs).geth, gap)
    decreases |envs|
  {
    hide Below, BlocksStep, Ascending, Between;
    if envs != [] {
      var page := Ascending(t, s.lastSynced + 1, PAGE);
      PageRows(t, s.lastSynced + 1, PAGE);
      BlocksStayBelow(s, CopyAll(page), envs[0].blocks, gap);
      BatchAdvances(s, t, envs[0]);
      GethStaysBelowGap(BatchStep(s, t, envs[0]).0, t, envs[1..], gap);
    }
  }

  // ---------------------------------------------------------------------------------------
  // Backoff
  // ---------------------------------------------------------------------------------------

  function Total(waits: seq<nat>): nat {
    if waits == [] then 0 else waits[0] + Total(waits[1..])
  }

  /** The sum of the first k backoff delays in closed form. */
  function TotalBackoff(k: nat): nat {
    if k <= 8 then BASE_INTERVAL * (Pow2(k + 1) - 2) else 51_000 + 25_600 * (k - 8)
  }

  lemma PowersOfTwo()
    ensures Pow2(1) == 2 && Pow2(2) == 4 && Pow2(3) == 8 && Pow2(4) == 16
    ensures Pow2(5) == 32 && Pow2(6) == 64 && Pow2(7) == 128 && Pow2(8) == 256 && Pow2(9) == 512
  {
    assert Pow2(2) == 2 * Pow2(1);
    assert Pow2(4) == 2 * Pow2(3) && Pow2(3) == 2 * Pow2(2);
    assert Pow2(6) == 2 * Pow2(5) && Pow2(5) == 2 * Pow2(4);
    assert Pow2(8) == 2 * Pow2(7) && Pow2(7) == 2 * Pow2(6);
  }

  /** Delays run from 200ms to 25.6s: the 30s cap is never reached, and the shift never exceeds 8. */
  lemma BackoffStaysBelowTheCap(errors: nat)
    requires errors > 0
    ensures 200 <= Backoff(errors) <= 25_600 < MAX_BACKOFF
    ensures Backoff(errors) == BASE_INTERVAL * Pow2(Min(errors, 8))
    ensures Backoff(errors) == TotalBackoff(errors) - TotalBackoff(errors - 1)
  {
    PowersOfTwo();
  }

  /** The sum of the delays after failures errors + 1 to errors + k. */
  function Delays(errors: nat, k: nat): nat
    decreases k
  {
    if k == 0 then 0 else Backoff(errors + 1) + Delays(errors + 1, k - 1)
  }

  lemma {:induction false} DelaysClosedForm(errors: nat, k: nat)
    ensures Delays(errors, k) == TotalBackoff(errors + k) - TotalBackoff(errors)
    decreases k
  {
    hide TotalBackoff, Backoff;
    if k > 0 {
      BackoffStaysBelowTheCap(errors + 1);
      DelaysClosedForm(errors + 1, k - 1);
    }
  }

  lemma {:induction false} FailingWaits(s: Sync, t: Table, envs: seq<BatchEnv>, errors: nat)
    requires Successes(s, t, envs) == 0
    ensures Total(LoopStep(s, t, envs, errors).1) == Delays(errors, |envs|)
    decreases |envs|
  {
    hide BatchStep, Backoff;
    if envs != [] {
      var (_, rest) := LoopStep(BatchStep(s, t, envs[0]).0, t, envs[1..], errors + 1);
      assert ([Backoff(errors + 1)] + rest)[1..] == rest;
      FailingWaits(BatchStep(s, t, envs[0]).0, t, envs[1..], errors + 1);
    }
  }

  /** The waits of a loop in which every batch fails sum up to the closed form. */
  lemma BackoffAccumulates(s: Sync, t: Table, envs: seq<BatchEnv>)
    requires Successes(s, t, envs) == 0
    ensures Total(LoopStep(s, t, envs, 0).1) ==
            if |envs| <= 8 then 100 * (Pow2(|envs| + 1) - 2) else 51_000 + 25_600 * (|envs| - 8)
  {
    FailingWaits(s, t, envs, 0);
    DelaysClosedForm(0, |envs|);
    PowersOfTwo();
  }

  // ---------------------------------------------------------------------------------------
  // Waits of a run with good and failing batches
  // ---------------------------------------------------------------------------------------

  /** Batch i of a run returns no error. */
  predicate Good(s: Sync, t: Table, envs: seq<BatchEnv>, i: nat)
    requires i < |envs|
  {
    BatchStep(Batches(s, t, envs[..i]), t, envs[i]).1
  }

  /** How many batches have failed in a row up to batch i, if `earlier` ones have before the run. */
  function FailedInARow(s: Sync, t: Table, envs: seq<BatchEnv>, i: nat, earlier: nat): nat
    requires i < |envs|
  {
    if Good(s, t, envs, i) then 0
    else if i == 0 then earlier + 1
    else FailedInARow(s, t, envs, i - 1, earlier) + 1
  }

  lemma GoodShifts(s: Sync, t: Table, envs: seq<BatchEnv>, i: nat)
    requires 0 < i < |envs|
    ensures Good(s, t, envs, i) == Good(BatchStep(s, t, envs[0]).0, t, envs[1..], i - 1)
  {
    hide BatchStep;
    assert envs[..i][1..] == envs[1..][..i - 1];
  }

  lemma {:induction false} FailedShifts(s: Sync, t: Table, envs: seq<BatchEnv>, i: nat, earlier: nat)
    requires 0 < i < |envs|
    ensures var (s', ok) := BatchStep(s, t, envs[0]);
      FailedInARow(s, t, envs, i, earlier)
      == FailedInARow(s', t, envs[1..], i - 1, if ok then 0 else earlier + 1)
    decreases i
  {
    hide BatchStep, Good;
    GoodShifts(s, t, envs, i);
    if i > 1 {
      FailedShifts(s, t, envs, i - 1, earlier);
    } else {
      FirstGood(s, t, envs);
    }
  }

  lemma FirstGood(s: Sync, t: Table, envs: seq<BatchEnv>)
    requires envs != []
    ensures Good(s, t, envs, 0) == BatchStep(s, t, envs[0]).1
  {
    hide BatchStep;
    assert envs[..0] == [];
  }

  lemma {:induction false} WaitsFrom(s: Sync, t: Table, envs: seq<BatchEnv>, errors: nat, i: nat)
    requires i < |envs|
    ensures var (_, waits) := LoopStep(s, t, envs, errors);
      && |waits| == |envs|
      && waits[i] == if Good(s, t, envs, i) then BASE_INTERVAL else Backoff(FailedInARow(s, t, envs, i, errors))
    decreases |envs|
  {
    hide BatchStep, Good, Backoff;
    LoopRunsBatches(s, t, envs, errors);
    FirstGood(s, t, envs);
    if i > 0 {
      var (s', ok) := BatchStep(s, t, envs[0]);
      GoodShifts(s, t, envs, i);
      FailedShifts(s, t, envs, i, errors);
      WaitsFrom(s', t, envs[1..], if ok then 0 else errors + 1, i - 1);
    }
  }

  /** The wait after each batch of any run: 100ms if it returned no error, otherwise 100ms times two to the number of
      batches that have failed since the last good one, this one included, but at most to the eighth. */
  lemma WaitsByOutcome(s: Sync, t: Table, envs: seq<BatchEnv>, i: nat)
    requires i < |envs|
    ensures var (_, waits) := LoopStep(s, t, envs, 0);
      var failed := FailedInARow(s, t, envs, i, 0);
      && |waits| == |envs|
      && (Good(s, t, envs, i) ==> waits[i] == 100)
      && (!Good(s, t, envs, i) ==>
            waits[i] == 100 * [1, 2, 4, 8, 16, 32, 64, 128, 256][if failed < 8 then failed else 8])
  {
    hide LoopStep, Good;
    WaitsFrom(s, t, envs, 0, i);
    PowersOfTwo();
    if !Good(s, t, envs, i) {
      BackoffStaysBelowTheCap(FailedInARow(s, t, envs, i, 0));
    }
  }
}
