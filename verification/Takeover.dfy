/** A standby that has followed the old leader to its end takes over: both leaders' blocks are one chain. */
module Takeover {
  import opened Outcomes
  import opened Blocks
  import opened Execution
  import opened BuildState
  import opened RedisClient
  import opened StateManager
  import opened PayloadStore
  import LeaderElection
  import Syncer
  import opened Replication
  import opened BlockBuilder
  import opened Production
  import opened LeaderLoop

  // ---------------------------------------------------------------------------------------
  // Standing by
  // ---------------------------------------------------------------------------------------

  /** A round and what the leader that is followed has stored at its time. */
  datatype Shift = Shift(leader: Table, ledger: Ledger, round: Round)

  function Shifts(s: Station, shifts: seq<Shift>): Station
    decreases |shifts|
  {
    if shifts == [] then s else Shifts(RoundStep(s, shifts[0].leader, shifts[0].round), shifts[1..])
  }

  predicate Leads(s: Station, r: Round) {
    Ticks(s.lease, s.leading, s.id, r.turns).1
  }

  predicate NeverLeads(s: Station, shifts: seq<Shift>)
    decreases |shifts|
  {
    shifts != [] ==>
      !Leads(s, shifts[0].round) && NeverLeads(RoundStep(s, shifts[0].leader, shifts[0].round), shifts[1..])
  }

  predicate Grows(l: Ledger, longer: Ledger) {
    l.base == longer.base && l.rows <= longer.rows
  }

  /** The followed leader only appends, and its store is contiguous and linked throughout. */
  ghost predicate Followed(l: Ledger, shifts: seq<Shift>)
    decreases |shifts|
  {
    shifts != [] ==>
      && Grows(l, shifts[0].ledger)
      && shifts[0].ledger.Linked()
      && Serves(shifts[0].leader, shifts[0].ledger)
      && Followed(shifts[0].ledger, shifts[1..])
  }

  /** A node that has just started: no builder head, Geth on the leader's chain, nothing stored above it. */
  ghost predicate Fresh(s: Station, l: Ledger) {
    && !s.syncing
    && s.producer.head.None?
    && WellFormed(s.producer.rows)
    && s.producer.geth.Consistent()
    && l.Linked()
    && l.Bottom() <= s.producer.geth.head.Number() <= l.Top()
    && s.producer.geth.head == l.HashAt(s.producer.geth.head.Number())
    && (s.producer.geth.head.Number() == 0 ==> s.producer.rows == map[])
    && forall n <- s.producer.rows :: n <= s.producer.geth.head.Number()
  }

  /** A syncing standby, from the state s0 in which its sync run began. */
  ghost predicate Standing(s0: Syncer.Sync, s: Station, l: Ledger) {
    && s.syncing
    && s.producer.head.None?
    && WellFormed(s.producer.rows)
    && l.Linked()
    && Replicated(s0, SyncOf(s), l)
    && l.HashAt(s0.lastSynced).Number() == s0.lastSynced
    && forall n <- s0.rows :: n <= s0.lastSynced
  }

  lemma ReplicatedInGrown(s0: Syncer.Sync, s: Syncer.Sync, l: Ledger, longer: Ledger)
    requires l.Linked() && longer.Linked() && Grows(l, longer) && Replicated(s0, s, l)
    ensures Replicated(s0, s, longer)
  {
    forall n: nat | l.Bottom() < n <= l.Top()
      ensures longer.RowAt(n) == l.RowAt(n)
    {
    }
    forall n: nat | s0.lastSynced < n <= s.lastSynced
      ensures Extending(longer, n)
    {
      assert Extending(l, n);
    }
  }

  lemma {:induction false} BlocksKeepTable(s: Syncer.Sync, blocks: seq<Api.BlockResponse>, envs: seq<Syncer.BlockEnv>)
    requires WellFormed(s.rows)
    ensures WellFormed(Syncer.BlocksStep(s, blocks, envs).0.rows)
    decreases |blocks|
  {
    hide WellFormed, Syncer.ExecuteStep;
    if blocks != [] {
      var env := if envs == [] then Syncer.BlockEnv(Delivered, Delivered, false, Delivered) else envs[0];
      SaveKeepsKeys(s.rows, Syncer.RowOf(blocks[0]), env.save);
      BlocksKeepTable(Syncer.BlockStep(s, blocks[0], env).0, blocks[1..], if envs == [] then [] else envs[1..]);
    }
  }

  lemma {:induction false} BatchesKeepTable(s: Syncer.Sync, t: Table, batches: seq<Syncer.BatchEnv>)
    requires WellFormed(s.rows)
    ensures WellFormed(Syncer.Batches(s, t, batches).rows)
    decreases |batches|
  {
    hide WellFormed;
    if batches != [] {
      if AfterCall(t, s.lastSynced, Syncer.PAGE, batches[0].query).Ok? {
        var page := AfterCall(t, s.lastSynced, Syncer.PAGE, batches[0].query).value;
        BlocksKeepTable(s, Api.CopyAll(page), batches[0].blocks);
      }
      BatchesKeepTable(Syncer.BatchStep(s, t, batches[0]).0, t, batches[1..]);
    }
  }

  lemma StandbyKeeps(s0: Syncer.Sync, s: Station, l: Ledger, shift: Shift)
    requires Standing(s0, s, l) && !Leads(s, shift.round)
    requires Grows(l, shift.ledger) && shift.ledger.Linked() && Serves(shift.leader, shift.ledger)
    ensures Standing(s0, RoundStep(s, shift.leader, shift.round), shift.ledger)
  {
    hide WellFormed, Replicated, Serves;
    ReplicatedInGrown(s0, SyncOf(s), l, shift.ledger);
    BatchesReplicate(s0, SyncOf(s), shift.leader, shift.ledger, shift.round.batches);
    BatchesKeepTable(SyncOf(s), shift.leader, shift.round.batches);
    StartInLedger(s0, SyncOf(s), l, shift.ledger);
  }

  /** Growing does not change the block at which the sync run began. */
  lemma StartInLedger(s0: Syncer.Sync, s: Syncer.Sync, l: Ledger, longer: Ledger)
    requires Replicated(s0, s, l) && Grows(l, longer)
    ensures longer.HashAt(s0.lastSynced) == l.HashAt(s0.lastSynced)
  {
  }

  lemma {:induction false} StandbyRun(s0: Syncer.Sync, s: Station, l: Ledger, shifts: seq<Shift>) returns (last: Ledger)
    requires Standing(s0, s, l) && Followed(l, shifts) && NeverLeads(s, shifts)
    ensures Standing(s0, Shifts(s, shifts), last)
    ensures last == if shifts == [] then l else shifts[|shifts| - 1].ledger
    decreases |shifts|
  {
    hide Standing, RoundStep, Leads, Serves;
    last := l;
    if shifts != [] {
      StandbyKeeps(s0, s, l, shifts[0]);
      last := StandbyRun(s0, RoundStep(s, shifts[0].leader, shifts[0].round), shifts[0].ledger, shifts[1..]);
    }
  }

  /** The first round of a standby starts its syncer at Geth's head. */
  lemma FirstRound(s: Station, l: Ledger, shift: Shift) returns (s0: Syncer.Sync)
    requires Fresh(s, l) && !Leads(s, shift.round) && shift.round.start.header.Delivered?
    requires Grows(l, shift.ledger) && shift.ledger.Linked() && Serves(shift.leader, shift.ledger)
    ensures s0 == Syncer.StartStep(SyncOf(s), shift.round.start)
    ensures s0.lastSynced == s.producer.geth.head.Number()
    ensures Standing(s0, RoundStep(s, shift.leader, shift.round), shift.ledger)
  {
    hide WellFormed, Replicated, Serves;
    s0 := Syncer.StartStep(SyncOf(s), shift.round.start);
    StartAtGethHead(SyncOf(s), shift.round.start);
    StartReplicates(SyncOf(s), l, shift.round.start);
    ReplicatedInGrown(s0, s0, l, shift.ledger);
    StartInLedger(s0, s0, l, shift.ledger);
    BatchesReplicate(s0, s0, shift.leader, shift.ledger, shift.round.batches);
    BatchesKeepTable(s0, shift.leader, shift.round.batches);
  }

  // ---------------------------------------------------------------------------------------
  // Taking over
  // ---------------------------------------------------------------------------------------

  predicate AlwaysLeads(s: Station, leader: Table, rounds: seq<Round>)
    decreases |rounds|
  {
    rounds != [] ==> Leads(s, rounds[0]) && AlwaysLeads(RoundStep(s, leader, rounds[0]), leader, rounds[1..])
  }

  /** Rounds of a leader are a leadership term. */
  lemma {:induction false} LeadingKeepsTerm(p0: Producer, s: Station, leader: Table, rounds: seq<Round>)
    requires TermInv(p0, s.producer) && AlwaysLeads(s, leader, rounds)
    ensures TermInv(p0, LoopRounds(s, leader, rounds).producer)
    decreases |rounds|
  {
    hide TermInv, ProduceStep;
    if rounds != [] {
      var r := rounds[0];
      ResetKeepsTerm(p0, s.producer, r.clock, r.reset);
      var p := if s.syncing then ResetCopies(s.producer, r.clock, r.reset) else s.producer;
      ProduceKeepsTerm(p0, p, r.produce);
      ResetKeepsTerm(p0, ProduceStep(p, r.produce).0, r.clock, r.resetAfter);
      LeadingKeepsTerm(p0, RoundStep(s, leader, r), leader, rounds[1..]);
    }
  }

  /** The blocks that were synced in this run are numbered and chained up to the cursor. */
  lemma {:induction false} LedgerIsChain(s0: Syncer.Sync, s: Syncer.Sync, l: Ledger, n: nat)
    requires Replicated(s0, s, l) && s0.lastSynced <= n <= s.lastSynced
    requires l.HashAt(s0.lastSynced).Number() == s0.lastSynced
    ensures l.HashAt(n).Number() == n
    ensures forall m: nat | s0.lastSynced <= m <= n :: l.HashAt(m).OnChainOf(l.HashAt(n))
    decreases n
  {
    if n > s0.lastSynced {
      LedgerIsChain(s0, s, l, n - 1);
      assert Extending(l, n);
      forall m: nat | s0.lastSynced <= m < n
        ensures l.HashAt(m).OnChainOf(l.HashAt(n))
      {
        if m < n - 1 && l.HashAt(m) != l.HashAt(n - 1) {
          DescentIsTransitive(l.HashAt(m), l.HashAt(n - 1), l.HashAt(n));
        }
      }
    }
  }

  /** A standby that has synced everything goes on from the old leader's last block. */
  lemma CaughtUp(s0: Syncer.Sync, s: Station, l: Ledger)
    requires Standing(s0, s, l) && s.lastSynced == l.Top()
    ensures TermStart(s.producer)
    ensures Tip(s.producer) == l.HashAt(l.Top()) && Tip(s.producer).Number() == l.Top()
    ensures forall n: nat | s0.lastSynced < n <= l.Top() ::
      n in s.producer.rows && s.producer.rows[n] == l.RowAt(n) && l.HashAt(n).OnChainOf(Tip(s.producer))
    ensures forall n <- s.producer.rows :: n <= l.Top()
    ensures l.Bottom() <= s0.lastSynced <= l.Top()
  {
    LedgerIsChain(s0, SyncOf(s), l, l.Top());
    forall n <- s.producer.rows
      ensures n <= l.Top()
    {
      assert n > l.Top() ==> SameRow(s0.rows, s.producer.rows, n);
    }
  }

  /** On the chain of an accepted block there is a child of each proper ancestor. */
  lemma {:induction false} ChildOnChain(g: Geth, a: Hash, tip: Hash) returns (child: Hash)
    requires g.Consistent() && tip in g.known && tip.DescendsFrom(a)
    ensures child.OnChainOf(tip) && child.Extends(a)
    decreases tip
  {
    assert g.Accepted(tip) by {
      assert tip.Sealed? && g.genesis.Genesis?;
    }
    child := tip;
    if tip.parent != a {
      child := ChildOnChain(g, a, tip.parent);
      if child != tip.parent {
        DescentIsTransitive(child, tip.parent, tip);
      }
    }
  }

  /** From `start` on, the old ledger and the rows above it are one chain that ends in the tip. */
  ghost predicate OneChain(p: Producer, l: Ledger, start: nat)
    requires l.Bottom() <= start <= l.Top()
  {
    var end := l.HashAt(l.Top());
    && InLag(p)
    && end.OnChainOf(Tip(p))
    && (Tip(p) != end ==> exists child: Hash :: child.Extends(end) && child.OnChainOf(Tip(p)))
    && (forall n: nat | start < n <= l.Top() :: n in p.rows && p.rows[n] == l.RowAt(n))
    && (forall n <- p.rows | n > start :: p.rows[n].hash.OnChainOf(Tip(p)))
    && (l.Top() + 1 in p.rows ==> p.rows[l.Top() + 1].parentHash == end)
  }

  lemma TermIsOneChain(s0: Syncer.Sync, s: Station, l: Ledger, p: Producer)
    requires Standing(s0, s, l) && s.lastSynced == l.Top()
    requires TermInv(s.producer, p)
    ensures OneChain(p, l, s0.lastSynced)
  {
    hide Standing, WellFormed, Replayable, Replicated;
    CaughtUp(s0, s, l);
    var end := l.HashAt(l.Top());
    if Tip(p) != end {
      var child := ChildOnChain(p.geth, end, Tip(p));
    }
    forall n <- p.rows | n > s0.lastSynced
      ensures p.rows[n].hash.OnChainOf(Tip(p))
    {
      if n in s.producer.rows {
        assert n <= l.Top() && l.HashAt(n) == p.rows[n].hash;
        if p.rows[n].hash != end && end != Tip(p) {
          DescentIsTransitive(p.rows[n].hash, end, Tip(p));
        }
      } else {
        assert TermRow(s.producer, p, n);
      }
    }
    if l.Top() + 1 in p.rows {
      assert TermRow(s.producer, p, l.Top() + 1);
    }
  }

  /** Linear takeover. A node with no builder head follows a leader whose store has no gap, through any failures, until
      it has synced all its blocks; then it leads, through any failures. At every later time its tip descends from
      the old leader's last block, by a child of it if it has moved; everything stored since the node began to
      follow, by the old leader or the new, lies on the chain of that tip; and the first row above the old
      leader's names its last block as parent. */
  lemma LinearTakeover(s: Station, l: Ledger, shifts: seq<Shift>, leader: Table, rounds: seq<Round>)
    requires Fresh(s, l) && shifts != [] && shifts[0].round.start.header.Delivered?
    requires Followed(l, shifts) && NeverLeads(s, shifts)
    requires Shifts(s, shifts).lastSynced == shifts[|shifts| - 1].ledger.Top()
    requires AlwaysLeads(Shifts(s, shifts), leader, rounds)
    ensures var last := shifts[|shifts| - 1].ledger;
      var start := s.producer.geth.head.Number();
      && last.Bottom() <= start <= last.Top()
      && OneChain(LoopRounds(Shifts(s, shifts), leader, rounds).producer, last, start)
  {
    hide Fresh, RoundStep, TermInv, WellFormed, Serves, OneChain, Leads;
    var s0 := FirstRound(s, l, shifts[0]);
    var last := StandbyRun(s0, RoundStep(s, shifts[0].leader, shifts[0].round), shifts[0].ledger, shifts[1..]);
    var acquired := Shifts(s, shifts);
    CaughtUp(s0, acquired, last);
    TermInvAtStart(acquired.producer);
    LeadingKeepsTerm(acquired.producer, acquired, leader, rounds);
    TermIsOneChain(s0, acquired, last, LoopRounds(acquired, leader, rounds).producer);
  }
}
