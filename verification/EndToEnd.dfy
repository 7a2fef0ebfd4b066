/** From the leader's builder to the member's Geth: when a member that follows a term reaches its tip. */
module EndToEnd {
  import opened Outcomes
  import opened Blocks
  import opened Execution
  import opened BuildState
  import opened PayloadStore
  import opened Api
  import opened Syncer
  import opened Replication
  import opened BlockBuilder
  import opened Production
  import opened Gaps

  // ---------------------------------------------------------------------------------------
  // What a term serves
  // ---------------------------------------------------------------------------------------

  /** A block of the term's chain, not below where the term began. */
  ghost predicate OnTerm(p0: Producer, p: Producer, base: Hash) {
    base.OnChainOf(Tip(p)) && Tip(p0).Number() <= base.Number()
  }

  lemma TipIsHighest(p0: Producer, p: Producer, base: Hash)
    requires TermInv(p0, p) && OnTerm(p0, p, base)
    ensures base.Number() <= Tip(p).Number()
    ensures base.Number() == Tip(p).Number() ==> base == Tip(p)
  {
    if base != Tip(p) {
      NumbersFall(p.geth, base, Tip(p));
    }
  }

  /** The rows above a block of the term as the ledger that a member follows from there. */
  ghost function TermLedger(base: Hash, p: Producer): Ledger
    requires base.Number() <= Tip(p).Number() && GapFree(p, base.Number())
  {
    Ledger(base, RowsAbove(p.rows, base.Number(), Tip(p).Number()))
  }

  function RowsAbove(t: Table, base: nat, top: nat): (r: seq<Row>)
    requires base <= top && forall n: nat | base < n <= top :: n in t
    ensures |r| == top - base
    ensures forall n: nat | base < n <= top :: r[n - base - 1] == t[n]
  {
    seq(top - base, i requires 0 <= i < top - base => t[base + 1 + i])
  }

  /** The rows of a ledger are the stored rows from its base to the tip. */
  ghost predicate LedgerOf(l: Ledger, p: Producer) {
    l.Top() == Tip(p).Number() && forall n: nat | l.Bottom() < n <= l.Top() :: n in p.rows && l.RowAt(n) == p.rows[n]
  }

  lemma LedgerRows(base: Hash, p: Producer)
    requires base.Number() <= Tip(p).Number() && GapFree(p, base.Number())
    ensures LedgerOf(TermLedger(base, p), p) && TermLedger(base, p).base == base
  {
    hide RowsAbove;
  }

  /** Every row above a block of the term names the block below it on the chain of the tip. */
  lemma RowExtendsChain(p0: Producer, p: Producer, n: nat, below: Hash)
    requires TermStart(p0) && TermInv(p0, p)
    requires n in p.rows && OnTerm(p0, p, below) && n == below.Number() + 1
    ensures p.rows[n].parentHash == below && Replayable(p.rows[n])
    ensures p.rows[n].number == n && p.rows[n].hash.Number() == n && OnTerm(p0, p, p.rows[n].hash)
    ensures p.rows[n].payloadData.PayloadData?
    ensures var payload := p.rows[n].payloadData.payload;
      payload.number == n && payload.blockHash == p.rows[n].hash && payload.parentHash == below
  {
    hide InLag;
    assert TermRow(p0, p, n);
    var h := p.rows[n].hash;
    assert h.Extends(p.rows[n].parentHash);
    assert h.parent.OnChainOf(Tip(p)) by {
      if h != Tip(p) {
        DescentIsTransitive(h.parent, h, Tip(p));
      }
    }
    TipIsAccepted(p0, p);
    OneBlockPerNumber(p.geth, h.parent, below, Tip(p));
  }

  lemma TipIsAccepted(p0: Producer, p: Producer)
    requires TermInv(p0, p)
    ensures p.geth.Consistent() && Tip(p) in p.geth.known
  {
  }

  lemma {:induction false} LedgerIsLinked(p0: Producer, p: Producer, l: Ledger, n: nat)
    requires TermStart(p0) && TermInv(p0, p) && OnTerm(p0, p, l.base)
    requires LedgerOf(l, p) && l.Bottom() <= n <= l.Top()
    ensures OnTerm(p0, p, l.HashAt(n)) && l.HashAt(n).Number() == n
    ensures n > l.Bottom() ==> l.LinkedRow(n) && Replayable(l.RowAt(n))
    decreases n
  {
    hide *;
    if n > l.Bottom() {
      LedgerIsLinked(p0, p, l, n - 1);
      RowOfLedger(l, p, n);
      RowExtendsChain(p0, p, n, l.HashAt(n - 1));
      LedgerRowIsLinked(l, n);
    } else {
      LedgerBottom(l);
    }
  }

  lemma RowOfLedger(l: Ledger, p: Producer, n: nat)
    requires LedgerOf(l, p) && l.Bottom() < n <= l.Top()
    ensures n in p.rows && l.RowAt(n) == p.rows[n]
  {
  }

  lemma LedgerRowIsLinked(l: Ledger, n: nat)
    requires l.Bottom() < n <= l.Top()
    requires var row := l.RowAt(n);
      && row.number == n && row.parentHash == l.HashAt(n - 1) && row.payloadData.PayloadData?
      && row.payloadData.payload.number == n
      && row.payloadData.payload.blockHash == row.hash
      && row.payloadData.payload.parentHash == l.HashAt(n - 1)
    ensures l.LinkedRow(n) && l.HashAt(n) == l.RowAt(n).hash
  {
  }

  lemma LedgerBottom(l: Ledger)
    ensures l.Bottom() == l.base.Number() && l.HashAt(l.Bottom()) == l.base
  {
  }

  lemma TermBounds(p0: Producer, p: Producer)
    requires TermInv(p0, p)
    ensures WellFormed(p.rows)
    ensures forall n <- p.rows :: n <= Tip(p).Number() && n <= MAX_INT64
  {
  }

  lemma LedgerServes(p0: Producer, p: Producer, l: Ledger)
    requires TermStart(p0) && TermInv(p0, p) && OnTerm(p0, p, l.base) && LedgerOf(l, p)
    requires l.Bottom() <= MAX_INT64
    ensures l.Linked() && Serves(p.rows, l) && l.HashAt(l.Top()) == Tip(p)
    ensures forall n: nat {:trigger l.LinkedRow(n)} {:trigger l.RowAt(n)} | l.Bottom() < n <= l.Top() ::
              Replayable(l.RowAt(n))
  {
    hide *;
    TermBounds(p0, p);
    LedgerTop(l, p);
    forall n: nat | l.Bottom() < n <= l.Top()
      ensures l.LinkedRow(n)
      ensures Replayable(l.RowAt(n))
    {
      LedgerIsLinked(p0, p, l, n);
    }
    LedgerIsLinked(p0, p, l, l.Top());
    TipIsHighest(p0, p, l.HashAt(l.Top()));
    AllLinked(l);
    ServesRows(p, l);
  }

  lemma LedgerTop(l: Ledger, p: Producer)
    requires LedgerOf(l, p) && l.Bottom() <= MAX_INT64 && forall n <- p.rows :: n <= MAX_INT64
    ensures l.Bottom() <= l.Top() == Tip(p).Number() <= MAX_INT64
  {
    if l.Bottom() < l.Top() {
      RowOfLedger(l, p, l.Top());
    }
  }

  lemma ServesRows(p: Producer, l: Ledger)
    requires WellFormed(p.rows) && LedgerOf(l, p)
    requires forall n <- p.rows :: n <= Tip(p).Number()
    ensures Serves(p.rows, l)
  {
  }

  lemma MovesStoredIsGapFree(p0: Producer, events: seq<TermEvent>, from: nat)
    requires TermStart(p0) && Numbered(p0.rows) && Tip(p0).Number() <= from
    ensures TermInv(p0, Term(p0, events))
    ensures MovesStored(p0, events, from) <==> GapFree(Term(p0, events), from)
  {
    TermInvAtStart(p0);
    TermKeeps(p0, p0, events);
    GapFreeIffMovesStored(p0, p0, events, from);
  }

  /** Above any block of its chain, a term leaves a store of consecutive rows that ends in the tip if and only if the
      save of every later block it moved to reached the store; and then these rows are linked, and any Geth that
      has the parent accepts them. */
  lemma TermServesLedger(p0: Producer, events: seq<TermEvent>, base: Hash)
    requires TermStart(p0) && Numbered(p0.rows)
    requires OnTerm(p0, Term(p0, events), base) && base.Number() <= MAX_INT64
    ensures var p := Term(p0, events);
      && base.Number() <= Tip(p).Number()
      && (MovesStored(p0, events, base.Number())
          <==> forall n: nat | base.Number() < n <= Tip(p).Number() :: n in p.rows)
      && (MovesStored(p0, events, base.Number()) ==>
            var l := TermLedger(base, p);
            && l.Linked() && Serves(p.rows, l)
            && l.base == base && l.Top() == Tip(p).Number() && l.HashAt(l.Top()) == Tip(p)
            && forall n: nat {:trigger l.LinkedRow(n)} {:trigger l.RowAt(n)} | l.Bottom() < n <= l.Top() ::
                 Replayable(l.RowAt(n)))
  {
    hide Term, MovesStored, Replayable;
    MovesStoredIsGapFree(p0, events, base.Number());
    TipIsHighest(p0, Term(p0, events), base);
    if MovesStored(p0, events, base.Number()) {
      LedgerRows(base, Term(p0, events));
      LedgerServes(p0, Term(p0, events), TermLedger(base, Term(p0, events)));
    }
  }

  lemma AllLinked(l: Ledger)
    requires l.Top() <= MAX_INT64
    requires forall n: nat {:trigger l.LinkedRow(n)} | l.Bottom() < n <= l.Top() :: l.LinkedRow(n)
    ensures l.Linked()
  {
  }

  /** The member's rows are rows of the leader, so no save of it can meet a foreign hash. */
  ghost predicate Agrees(s: Sync, t: Table) {
    forall n <- s.rows :: n in t && s.rows[n] == t[n]
  }

  /** A replayable row is executed and saved when no call fails, whether or not its parent is known. */
  lemma CalmBlockSucceeds(s: Sync, t: Table, row: Row)
    requires WellFormed(t) && Agrees(s, t)
    requires row in t.Values && Replayable(row)
    ensures var (s', ok) := BlockStep(s, Copy(row), BlockEnv(Delivered, Delivered, false, Delivered));
      ok && Agrees(s', t) && s'.lastSynced <= MAX_INT64
  {
    assert RowOf(Copy(row)) == row && t[row.number] == row;
  }

  lemma {:induction false} CalmBlocksSucceed(s: Sync, t: Table, rows: seq<Row>)
    requires WellFormed(t) && Agrees(s, t) && s.lastSynced <= MAX_INT64
    requires forall row <- rows :: row in t.Values && Replayable(row)
    ensures var (s', ok) := BlocksStep(s, CopyAll(rows), []);
      ok && Agrees(s', t) && s'.lastSynced <= MAX_INT64
    decreases |rows|
  {
    hide WellFormed, Replayable, BlockStep;
    if rows != [] {
      assert rows[0] in rows;
      CalmBlockSucceeds(s, t, rows[0]);
      forall row <- rows[1..]
        ensures row in t.Values && Replayable(row)
      {
        assert row in rows;
      }
      assert CopyAll(rows)[1..] == CopyAll(rows[1..]);
      CalmBlocksSucceed(
        BlockStep(s, Copy(rows[0]), BlockEnv(Delivered, Delivered, false, Delivered)).0, t, rows[1..]);
    }
  }

  const CALM_BATCH: BatchEnv := BatchEnv(Delivered, Delivered, [])

  /** Over the store of any term, with gaps or without, a batch without failing calls is a batch without an error
      exactly if the cursor fits the column. */
  lemma CalmBatchSucceeds(p0: Producer, events: seq<TermEvent>, s: Sync)
    requires TermStart(p0) && Tip(p0).Number() <= s.lastSynced && Agrees(s, Term(p0, events).rows)
    ensures var (s', ok) := BatchStep(s, Term(p0, events).rows, CALM_BATCH);
      && (ok <==> s.lastSynced <= MAX_INT64)
      && (ok ==> Agrees(s', Term(p0, events).rows) && s.lastSynced <= s'.lastSynced <= MAX_INT64)
  {
    hide Term, BlocksStep, Ascending, Replayable, WellFormed, InLag;
    TermInvAtStart(p0);
    TermKeeps(p0, p0, events);
    var p := Term(p0, events);
    var page := Ascending(p.rows, s.lastSynced + 1, PAGE);
    PageRows(p.rows, s.lastSynced + 1, PAGE);
    forall row <- page
      ensures row in p.rows.Values && Replayable(row)
    {
      assert TermRow(p0, p, row.number);
    }
    BatchAdvances(s, p.rows, CALM_BATCH);
    if s.lastSynced <= MAX_INT64 {
      CalmBlocksSucceed(s, p.rows, page);
    }
  }

  function CalmBatches(n: nat): seq<BatchEnv> {
    if n == 0 then [] else [CALM_BATCH] + CalmBatches(n - 1)
  }

  /** So there are always enough batches without an error: convergence is not an empty promise. */
  lemma {:induction false} CalmBatchesSucceed(p0: Producer, events: seq<TermEvent>, s: Sync, n: nat)
    requires TermStart(p0) && Tip(p0).Number() <= s.lastSynced <= MAX_INT64 && Agrees(s, Term(p0, events).rows)
    ensures Successes(s, Term(p0, events).rows, CalmBatches(n)) == n
    decreases n
  {
    hide Term, BatchStep, TermStart, Agrees;
    if n > 0 {
      CalmBatchSucceeds(p0, events, s);
      assert CalmBatches(n)[1..] == CalmBatches(n - 1);
      CalmBatchesSucceed(p0, events, BatchStep(s, Term(p0, events).rows, CALM_BATCH).0, n - 1);
    }
  }

  lemma ReplicatedAtBottom(s: Sync, l: Ledger)
    requires s.geth.Consistent() && s.geth.head == l.base && s.lastSynced == l.Bottom()
    ensures Replicated(s, s, l)
  {
  }

  lemma TopRemains(t: Table, l: Ledger, cursor: nat)
    requires l.Linked() && Serves(t, l) && cursor < l.Top() && l.Bottom() < l.Top()
    ensures Remaining(t, cursor) > 0
  {
    BetweenIsExact(t, cursor + 1, MAX_INT64);
    assert t[l.Top()] in Between(t, cursor + 1, MAX_INT64);
  }

  /** A cursor above which nothing remains is at the top. */
  lemma NothingRemains(s0: Sync, s: Sync, t: Table, l: Ledger)
    requires l.Linked() && Serves(t, l) && Replicated(s0, s, l)
    requires Remaining(t, s.lastSynced) == 0
    ensures s.lastSynced == l.Top() && s.geth.head == l.HashAt(l.Top())
    ensures forall n: nat | s0.lastSynced < n <= l.Top() :: n in s.rows && s.rows[n] == l.RowAt(n)
  {
    if s.lastSynced < l.Top() {
      TopRemains(t, l, s.lastSynced);
    }
  }

  // ---------------------------------------------------------------------------------------
  // When a member reaches the tip
  // ---------------------------------------------------------------------------------------

  /** A member whose Geth and cursor stand together at any block of the term. */
  ghost predicate MemberAt(p0: Producer, p: Producer, s: Sync) {
    && s.geth.Consistent()
    && OnTerm(p0, p, s.geth.head)
    && s.lastSynced == s.geth.head.Number()
  }

  /** Built, finalised and stored through any failures; followed through any failures from any block of the term on,
      with ceil(r/100) batches without an error for the r rows that are missing. The member then has every row that
      the leader's term has stored above its start; and if every later block the term moved to was stored, its Geth
      stands exactly at the leader's tip. */
  lemma MemberReachesTip(p0: Producer, events: seq<TermEvent>, s: Sync, envs: seq<BatchEnv>)
    requires TermStart(p0) && Numbered(p0.rows) && MemberAt(p0, Term(p0, events), s)
    requires 100 * Successes(s, Term(p0, events).rows, envs) >= Remaining(Term(p0, events).rows, s.lastSynced)
    ensures var p := Term(p0, events);
      var end := Batches(s, p.rows, envs);
      && (forall n <- p.rows :: n <= end.lastSynced)
      && (forall n <- p.rows | n > s.lastSynced :: n in end.rows && end.rows[n] == p.rows[n])
      && (MovesStored(p0, events, s.lastSynced) ==>
            end.lastSynced == Tip(p).Number() && end.geth.head == Tip(p))
  {
    hide Term, Batches, Successes, Remaining, WellFormed;
    hide TermStart, TermInv, GapFree, TermLedger, Serves, Replicated, Replayable, MovesStored;
    MovesStoredIsGapFree(p0, events, s.lastSynced);
    var p := Term(p0, events);
    TermBounds(p0, p);
    SyncConverges(s, p.rows, envs);
    BatchesCopy(s, p.rows, envs);
    NoneAbove(p.rows, Batches(s, p.rows, envs).lastSynced);
    if MovesStored(p0, events, s.lastSynced) {
      TipIsHighest(p0, p, s.geth.head);
      if s.lastSynced > MAX_INT64 {
        NoGapAboveColumn(p, s.lastSynced);
        BatchesOutOfRange(s, p.rows, envs);
      } else {
        LedgerRows(s.geth.head, p);
        LedgerServes(p0, p, TermLedger(s.geth.head, p));
        var l := TermLedger(s.geth.head, p);
        ReplicatedAtBottom(s, l);
        BatchesReplicate(s, s, p.rows, l, envs);
        NothingRemains(s, Batches(s, p.rows, envs), p.rows, l);
      }
    }
  }

  lemma {:induction false} BatchesOutOfRange(s: Sync, t: Table, envs: seq<BatchEnv>)
    requires s.lastSynced > MAX_INT64
    ensures Batches(s, t, envs) == s
    decreases |envs|
  {
    if envs != [] {
      BatchesOutOfRange(s, t, envs[1..]);
    }
  }

  lemma NoneAbove(t: Table, cursor: nat)
    requires WellFormed(t) && Remaining(t, cursor) == 0
    ensures forall n <- t :: n <= cursor
  {
    BetweenIsExact(t, cursor + 1, MAX_INT64);
  }

  /** And only then: a member whose Geth knows no block above the one it starts from reaches the leader's tip
      if and only if the save of every later block that the term moved to reached the leader's store. Otherwise its
      Geth is left on a block below the tip. */
  lemma MemberReachesTipIff(p0: Producer, events: seq<TermEvent>, s: Sync, envs: seq<BatchEnv>)
    requires TermStart(p0) && Numbered(p0.rows) && MemberAt(p0, Term(p0, events), s)
    requires forall h <- s.geth.known :: h.Number() <= s.lastSynced
    requires 100 * Successes(s, Term(p0, events).rows, envs) >= Remaining(Term(p0, events).rows, s.lastSynced)
    ensures var tip := Tip(Term(p0, events));
      var head := Batches(s, Term(p0, events).rows, envs).geth.head;
      && (head == tip <==> MovesStored(p0, events, s.lastSynced))
      && (head != tip ==> head.Number() < tip.Number())
  {
    hide Term, Batches, Successes, Remaining, WellFormed, TermInv, MovesStored, TermStart;
    MemberReachesTip(p0, events, s, envs);
    MovesStoredIsGapFree(p0, events, s.lastSynced);
    var p := Term(p0, events);
    if !MovesStored(p0, events, s.lastSynced) {
      var gap: nat :| s.lastSynced < gap <= Tip(p).Number() && gap !in p.rows;
      TermIsGapped(p0, p, s.lastSynced, gap);
      GethStaysBelowGap(s, p.rows, envs, gap);
    }
  }

  lemma TermIsGapped(p0: Producer, p: Producer, from: nat, gap: nat)
    requires TermStart(p0) && TermInv(p0, p) && Tip(p0).Number() <= from && gap !in p.rows
    ensures WellFormed(p.rows) && Gapped(p.rows, from, gap)
  {
    hide InLag;
    forall n <- p.rows | n > from
      ensures p.rows[n].payloadData.PayloadData? ==> p.rows[n].payloadData.payload.number == n
    {
      assert TermRow(p0, p, n);
    }
  }
}
