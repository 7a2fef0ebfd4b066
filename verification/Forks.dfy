/** When a takeover goes on from the block that the node has followed, and when it forks. */
module Forks {
  import opened Outcomes
  import opened Blocks
  import opened Execution
  import opened BuildState
  import opened RedisClient
  import opened StateManager
  import opened PayloadStore
  import LeaderElection
  import Api
  import Syncer
  import opened Replication
  import opened BlockBuilder
  import opened Production
  import opened Gaps
  import opened EndToEnd
  import opened LeaderLoop
  import opened Takeover

  /** Whatever the builder last built on: if it goes on, Geth is first moved back to its head. */
  lemma BuildRestoresLag(p: Producer, env: BuildEnv)
    requires p.geth.Consistent()
    requires p.head.Some? ==> p.head.value == HeadOf(p.head.value.hash) && p.head.value.hash in p.geth.known
    ensures var (p', r) := GetPayloadStep(p, env);
      && (r.Ok? ==> InLag(p') && p'.head.Some? && Tip(p') == Tip(p))
      && (r.Err? ==> Tip(p') == Tip(p))
  {
    hide Retry;
    ReadOnlyRetries(p.geth, ReadHeader, env.header, 0);
    var (_, read) := Retry(p.geth, ReadHeader, env.header, 0);
    if p.head.Some? || read.Ok? {
      var head := if p.head.Some? then p.head.value else read.value.head;
      StartBuildOutcome(p.geth, head.hash, BuildAttributes(p, head, env.unix), env.start, 0);
    }
  }

  /** A block produced by any node, in its first term or a later one, with Geth anywhere, extends the block `tip` if
      and only if `tip` is the builder's own head, or that is unset and `tip` is Geth's head. What the node
      has synced in between does not matter: the builder's head is read again only if it is unset. */
  lemma TakeoverExtendsTipIff(p: Producer, env: ProduceEnv, tip: Hash)
    requires p.geth.Consistent()
    requires p.head.Some? ==> p.head.value == HeadOf(p.head.value.hash) && p.head.value.hash in p.geth.known
    ensures Tip(ProduceStep(p, env).0) != Tip(p) ==>
              (Tip(ProduceStep(p, env).0).Extends(tip)
               <==> if p.head.Some? then p.head.value.hash == tip else p.geth.head == tip)
  {
    hide GetPayloadStep, FinishStep, Replayable, WellFormed;
    BuildRestoresLag(p, env.build);
    var (built, r) := GetPayloadStep(p, env.build);
    if r.Ok? {
      var state := GetStep(built.copies, env.build.clock + env.pause, env.read);
      FinalizeOutcome(built, state.payloadId, state.executionPayload, state.requests, env.finish);
    }
  }

  // ---------------------------------------------------------------------------------------
  // A first takeover
  // ---------------------------------------------------------------------------------------

  predicate StandsBy(s: Station, leader: Table, rounds: seq<Round>)
    decreases |rounds|
  {
    rounds != [] ==> !Leads(s, rounds[0]) && StandsBy(RoundStep(s, leader, rounds[0]), leader, rounds[1..])
  }

  /** The batches of all rounds, in order. */
  function AllBatches(rounds: seq<Round>): seq<Syncer.BatchEnv>
    decreases |rounds|
  {
    if rounds == [] then [] else rounds[0].batches + AllBatches(rounds[1..])
  }

  lemma {:induction false} StandbyRounds(s: Station, leader: Table, rounds: seq<Round>)
    requires s.syncing && StandsBy(s, leader, rounds)
    ensures var end := LoopRounds(s, leader, rounds);
      && end.syncing
      && SyncOf(end) == Syncer.Batches(SyncOf(s), leader, AllBatches(rounds))
      && end.producer.head == s.producer.head
    decreases |rounds|
  {
    if rounds != [] {
      StandbyRounds(RoundStep(s, leader, rounds[0]), leader, rounds[1..]);
      BatchesCompose(SyncOf(s), leader, rounds[0].batches, AllBatches(rounds[1..]));
    }
  }

  /** A node that has never led stands by while it follows the rows of a term, until it has passed them all, through any
      failures; then it leads. If it produces a block, this extends the tip of the old leader if and only if the
      save of every block that the term moved to above the node's start reached the store. Otherwise it stands
      at a number that the old leader has used already. */
  lemma FirstTakeoverExtendsIff(p0: Producer, events: seq<TermEvent>, s: Station, rounds: seq<Round>, lead: Round)
    requires TermStart(p0) && Numbered(p0.rows)
    requires s.syncing && s.producer.head.None? && MemberAt(p0, Term(p0, events), SyncOf(s))
    requires forall h <- s.producer.geth.known :: h.Number() <= s.lastSynced
    requires var t := Term(p0, events).rows;
      && StandsBy(s, t, rounds)
      && 100 * Successes(SyncOf(s), t, AllBatches(rounds)) >= Remaining(t, s.lastSynced)
      && Leads(LoopRounds(s, t, rounds), lead)
    ensures var oldLeader := Term(p0, events);
      var acquired := LoopRounds(s, oldLeader.rows, rounds);
      var after := RoundStep(acquired, oldLeader.rows, lead);
      Tip(after.producer) != Tip(acquired.producer) ==>
        && (Tip(after.producer).Extends(Tip(oldLeader)) <==> MovesStored(p0, events, s.lastSynced))
        && (!MovesStored(p0, events, s.lastSynced) ==> Tip(after.producer).Number() <= Tip(oldLeader).Number())
  {
    hide Term, ProduceStep, MovesStored, TermStart, Numbered;
    var t := Term(p0, events).rows;
    StandbyRounds(s, t, rounds);
    var acquired := LoopRounds(s, t, rounds);
    MemberReachesTipIff(p0, events, SyncOf(s), AllBatches(rounds));
    BatchesKeepConsistency(SyncOf(s), t, AllBatches(rounds));
    var p := ResetCopies(acquired.producer, lead.clock, lead.reset);
    TakeoverExtendsTipIff(p, lead.produce, Tip(Term(p0, events)));
    TakeoverExtendsTipIff(p, lead.produce, p.geth.head);
  }

  /** A tick at which nothing fails and nobody interferes. */
  function CalmTurn(now: nat): Turn {
    Turn(now, [], LeaderElection.TickEnv(now, Delivered, [], Delivered))
  }

  /** A round in which all calls of a leader succeed. */
  function CalmLead(now: nat, unix: Int64, fill: Fill): Round {
    Round(
      [CalmTurn(now)], Syncer.StartEnv(Delivered, Delivered), [], now, Delivered, Undisturbed(unix, fill, Delivered),
      Delivered)
  }

  /** It produces a block on the builder's head, if nobody else holds the lease. */
  lemma CalmLeadProduces(s: Station, leader: Table, now: nat, unix: Int64, fill: Fill)
    requires s.lease.Live(now) ==> s.lease.owner == s.id
    requires InLag(s.producer) && fill.txs != []
    requires HeadToBuildOn(s.producer).height < MAX_UINT64 && HeadToBuildOn(s.producer).time < MAX_UINT64
    ensures Leads(s, CalmLead(now, unix, fill))
    ensures var s' := RoundStep(s, leader, CalmLead(now, unix, fill));
      && s'.id == s.id && s'.lease == Held(s.id, now + LeaderElection.LEASE_TTL) && !s'.syncing
      && InLag(s'.producer) && s'.producer.head.Some?
      && Tip(s'.producer).Extends(HeadToBuildOn(s.producer).hash)
      && Tip(s'.producer).Time() == NextTime(HeadToBuildOn(s.producer), unix)
      && s'.producer.geth.head == Tip(s'.producer)
      && s'.leading
      && (s.producer.rows == map[] && Tip(s'.producer).Number() <= MAX_INT64 ==>
            && s'.producer.rows.Keys == {Tip(s'.producer).Number()}
            && s'.producer.rows[Tip(s'.producer).Number()].number == Tip(s'.producer).Number()
            && s'.producer.rows[Tip(s'.producer).Number()].hash == Tip(s'.producer))
  {
    hide ProduceStep, StateBuilt;
    var turns := [CalmTurn(now)];
    assert turns[1..] == [];
    assert Ticks(s.lease, s.leading, s.id, turns) == (Held(s.id, now + LeaderElection.LEASE_TTL), true);
    var p := if s.syncing then ResetCopies(s.producer, now, Delivered) else s.producer;
    UndisturbedProduces(p, unix, fill, Delivered);
  }

  /** Such a fork: the old leader lost the save of block 1 and stored block 2. The node passes all its rows, leads,
      and produces a rival of block 1. */
  lemma FirstTakeoverCanFork()
    returns (p0: Producer, events: seq<TermEvent>, s: Station, rounds: seq<Round>, lead: Round)
    ensures TermStart(p0) && Numbered(p0.rows)
    ensures s.producer.head.None? && MemberAt(p0, Term(p0, events), SyncOf(s))
    ensures var t := Term(p0, events).rows;
      var acquired := LoopRounds(s, t, rounds);
      var tip := Tip(RoundStep(acquired, t, lead).producer);
      && StandsBy(s, t, rounds) && Leads(acquired, lead)
      && Remaining(t, acquired.lastSynced) == 0
      && tip != Tip(acquired.producer)
      && !tip.OnChainOf(Tip(Term(p0, events))) && !Tip(Term(p0, events)).OnChainOf(tip)
  {
    hide Term, Numbered, TermStart, TermInv;
    p0, events := LostSaveLeavesGap();
    var p := Term(p0, events);
    assert Tip(p).parent.DescendsFrom(Tip(p0));
    s, rounds := PassesAll(p0, events);
    var acquired := LoopRounds(s, p.rows, rounds);
    StaysAtStart(p0, events, s, rounds);
    lead := CalmLead(5000, 5, Fill([9], []));
    CalmLeadProduces(acquired, p.rows, 5000, 5, Fill([9], []));
    var after := RoundStep(acquired, p.rows, lead).producer;
    RivalsAreApart(after.geth, Tip(after), Tip(p));
  }

  /** A fresh node at the genesis block follows a term from there and passes all its rows. */
  lemma PassesAll(p0: Producer, events: seq<TermEvent>) returns (s: Station, rounds: seq<Round>)
    requires TermStart(p0) && Numbered(p0.rows)
    requires Tip(p0) == Genesis(0, 0) && Tip(p0).OnChainOf(Tip(Term(p0, events)))
    ensures s == Station(
      0, Free, false,
      Producer(0, None, Geth(Tip(p0), {Tip(p0)}, Tip(p0)), Copies(Missing, FRESH), map[], []), 0, 0, true)
    ensures MemberAt(p0, Term(p0, events), SyncOf(s))
    ensures StandsBy(s, Term(p0, events).rows, rounds)
    ensures SyncOf(LoopRounds(s, Term(p0, events).rows, rounds))
         == Syncer.Batches(SyncOf(s), Term(p0, events).rows, AllBatches(rounds))
    ensures LoopRounds(s, Term(p0, events).rows, rounds).producer.head.None?
    ensures LoopRounds(s, Term(p0, events).rows, rounds).lease == Free
    ensures Remaining(Term(p0, events).rows, LoopRounds(s, Term(p0, events).rows, rounds).lastSynced) == 0
  {
    hide Term, Numbered, TermStart, TermInv, WellFormed;
    var root := Tip(p0);
    var t := Term(p0, events).rows;
    s := Station(
      0, Free, false, Producer(0, None, Geth(root, {root}, root), Copies(Missing, FRESH), map[], []), 0, 0, true);
    TermInvAtStart(p0);
    TermKeeps(p0, p0, events);
    TermBounds(p0, Term(p0, events));
    var n := Remaining(t, 0);
    rounds := [Following(CalmBatches(n))];
    assert rounds[1..] == [];
    assert AllBatches(rounds) == CalmBatches(n);
    StandbyRounds(s, t, rounds);
    CalmBatchesSucceed(p0, events, SyncOf(s), n);
    SyncConverges(SyncOf(s), t, CalmBatches(n));
  }

  /** If block 1 is missing, its Geth is then still at the genesis block. */
  lemma StaysAtStart(p0: Producer, events: seq<TermEvent>, s: Station, rounds: seq<Round>)
    requires TermStart(p0) && Tip(p0) == Genesis(0, 0) && 1 !in Term(p0, events).rows
    requires s.lastSynced == 0 && s.producer.geth == Geth(Tip(p0), {Tip(p0)}, Tip(p0))
    requires SyncOf(LoopRounds(s, Term(p0, events).rows, rounds))
         == Syncer.Batches(SyncOf(s), Term(p0, events).rows, AllBatches(rounds))
    ensures var g := LoopRounds(s, Term(p0, events).rows, rounds).producer.geth;
      g.Consistent() && g.head == Tip(p0)
  {
    hide Term, TermStart, TermInv, WellFormed, LoopRounds;
    var t := Term(p0, events).rows;
    TermInvAtStart(p0);
    TermKeeps(p0, p0, events);
    TermIsGapped(p0, Term(p0, events), 0, 1);
    GethStaysBelowGap(SyncOf(s), t, AllBatches(rounds), 1);
    BatchesKeepConsistency(SyncOf(s), t, AllBatches(rounds));
    var g := LoopRounds(s, t, rounds).producer.geth;
    assert g.head == g.genesis || g.Accepted(g.head);
  }

  /** A block 1 with a later time than the block 1 below a block 2: neither is on the chain of the other. */
  lemma RivalsAreApart(g: Geth, rival: Hash, tip: Hash)
    requires g.Consistent() && rival in g.known && rival.Number() == 1
    requires tip.Sealed? && tip.Number() == 2 && tip.parent.Extends(Genesis(0, 0)) && tip.parent.Time() < rival.Time()
    ensures !rival.OnChainOf(tip) && !tip.OnChainOf(rival)
  {
    assert !tip.parent.DescendsFrom(rival);
    if rival.DescendsFrom(tip) {
      NumbersFall(g, tip, rival);
    }
  }

  /** A round in which no tick comes and the syncer runs. */
  function Following(batches: seq<Syncer.BatchEnv>): Round {
    CalmLead(0, 0, Fill([], [])).(turns := [], batches := batches)
  }

  // ---------------------------------------------------------------------------------------
  // A second takeover
  // ---------------------------------------------------------------------------------------

  /** A round in which another instance takes the expired lease, and the syncer runs one batch. */
  function Superseded(now: nat, rival: nat): Round {
    Following([CALM_BATCH]).(
      turns := [Turn(now, [OtherNx(rival)], LeaderElection.TickEnv(now, Delivered, [], Delivered))])
  }

  /** A block that another leader has built on `parent`, with its row. */
  function NextBlock(parent: Hash, time: Uint64): (Hash, Row)
    requires parent.Number() < MAX_UINT64
  {
    var claim := Payload(parent, parent.Number() + 1, time, parent, 0, parent, Body([8], true));
    var payload := claim.(blockHash := claim.Seal(parent, []));
    (payload.blockHash, StoredRow(payload, PayloadData(payload), RequestsData([])))
  }

  lemma NextBlockIsFollowed(s: Syncer.Sync, leader: Table, parent: Hash, time: Uint64)
    requires s.geth.Consistent() && s.geth.head == parent && s.lastSynced == parent.Number() < MAX_INT64
    requires time > parent.Time()
    requires WellFormed(leader) && parent.Number() + 1 in leader
    requires leader[parent.Number() + 1] == NextBlock(parent, time).1
    requires forall n <- leader :: n <= parent.Number() + 1
    requires forall n <- s.rows :: n <= parent.Number() && s.rows[n].hash != NextBlock(parent, time).0
    ensures var s' := Syncer.BatchStep(s, leader, CALM_BATCH).0;
      && s'.geth.Consistent() && s'.geth.head == NextBlock(parent, time).0
      && parent in s'.geth.known
      && s'.lastSynced == parent.Number() + 1
  {
    var (hash, row) := NextBlock(parent, time);
    var n := parent.Number() + 1;
    PageRows(leader, n + 1, Syncer.PAGE - 1);
    assert Ascending(leader, n, Syncer.PAGE) == [row];
    var b := Api.Copy(row);
    assert Api.CopyAll([row]) == [b];
    var payload := row.payloadData.payload;
    NewPayloadKeepsConsistency(s.geth, payload, parent, [], Delivered);
    JudgedOnKnownParent(s.geth, payload, parent, []);
    var (g1, _) := NewPayloadCall(s.geth, payload, parent, [], Delivered);
    ForkchoiceKeepsConsistency(g1, hash, None, false, Delivered);
    var calm := Syncer.BlockEnv(Delivered, Delivered, false, Delivered);
    assert Syncer.ExecuteStep(s.geth, b, calm) == (g1.(head := hash), true);
    assert SaveCall(s.rows, Syncer.RowOf(b), Delivered).1.Ok?;
    var (s', ok) := Syncer.BlockStep(s, b, calm);
    assert ok && Syncer.BlocksStep(s, [b], []) == (s', true);
  }

  /** The middle round: the node has lost the lease, starts its syncer at its own block and follows the next one. */
  lemma FollowsNext(s: Station, leader: Table, now: nat, rival: nat, time: Uint64)
    requires !s.syncing && InLag(s.producer) && s.producer.head.Some? && s.producer.geth.head == Tip(s.producer)
    requires rival != s.id && !s.lease.Live(now)
    requires var one := Tip(s.producer);
      && 0 < one.Number() < MAX_INT64 && time > one.Time()
      && WellFormed(leader) && one.Number() + 1 in leader
      && leader[one.Number() + 1] == NextBlock(one, time).1
      && (forall n <- leader :: n <= one.Number() + 1)
      && forall n <- s.producer.rows :: n <= one.Number() && s.producer.rows[n].hash != NextBlock(one, time).0
    ensures !Leads(s, Superseded(now, rival))
    ensures var s' := RoundStep(s, leader, Superseded(now, rival));
      && s'.id == s.id && s'.lease == Held(rival, now + LeaderElection.LEASE_TTL) && !s'.leading
      && s'.producer.head == s.producer.head && InLag(s'.producer)
      && s'.producer.geth.head == NextBlock(Tip(s.producer), time).0
  {
    hide Syncer.BatchStep;
    var r := Superseded(now, rival);
    assert r.turns[1..] == [] && r.turns[0].others[1..] == [];
    assert Meanwhile(s.lease, now, LeaderElection.LEASE_TTL, [OtherNx(rival)])
        == (Held(rival, now + LeaderElection.LEASE_TTL), now);
    assert Ticks(s.lease, s.leading, s.id, r.turns) == (Held(rival, now + LeaderElection.LEASE_TTL), false);
    var started := Syncer.StartStep(SyncOf(s), r.start);
    NextBlockIsFollowed(started, leader, Tip(s.producer), time);
    assert r.batches[1..] == [];
    assert Syncer.Batches(started, leader, r.batches) == Syncer.BatchStep(started, leader, CALM_BATCH).0;
  }

  /** So a second takeover can fork: a node leads and produces block 1, is superseded and syncs the block 2 that
      the next leader has built on it, and then leads again and produces a rival of that block 2. */
  lemma SecondTakeoverCanFork() returns (s: Station, leader: Table, rounds: seq<Round>)
    ensures |rounds| == 3 && !s.leading && !s.syncing && s.producer.head.None? && s.lease == Free
    ensures var led := LoopRounds(s, leader, rounds[..1]);
      var followed := LoopRounds(s, leader, rounds[..2]);
      var end := LoopRounds(s, leader, rounds);
      && led.leading && !followed.leading && end.leading
      && 2 in leader && followed.producer.geth.head == leader[2].hash
      && followed.producer.geth.head.Extends(Tip(led.producer))
      && Tip(end.producer).Extends(Tip(led.producer)) && Tip(end.producer) != leader[2].hash
  {
    hide RoundStep, LoopRounds, Leads, Undisturbed, Superseded;
    var root := Genesis(0, 0);
    s := Station(
      1, Free, false, Producer(0, None, Geth(root, {root}, root), Copies(Missing, FRESH), map[], []), 0, 0, false);
    var first, next, last := CalmLead(0, 1, Fill([7], [])), Superseded(5000, 2), CalmLead(10000, 3, Fill([9], []));
    rounds := [first, next, last];
    CalmLeadProduces(s, map[], 0, 1, Fill([7], []));
    var led := RoundStep(s, map[], first);
    var one := Tip(led.producer);
    leader := map[1 := led.producer.rows[1], 2 := NextBlock(one, 2).1];
    assert led == RoundStep(s, leader, first) by {
      LeadIgnoresStore(s, map[], leader, first);
    }
    FollowsNext(led, leader, 5000, 2, 2);
    var followed := RoundStep(led, leader, next);
    CalmLeadProduces(followed, leader, 10000, 3, Fill([9], []));
    ThreeRounds(s, leader, first, next, last);
  }

  lemma LeadIgnoresStore(s: Station, t: Table, t': Table, r: Round)
    requires Leads(s, r)
    ensures RoundStep(s, t, r) == RoundStep(s, t', r)
  {
  }

  lemma ThreeRounds(s: Station, t: Table, a: Round, b: Round, c: Round)
    ensures LoopRounds(s, t, [a, b, c][..1]) == RoundStep(s, t, a)
    ensures LoopRounds(s, t, [a, b, c][..2]) == RoundStep(RoundStep(s, t, a), t, b)
    ensures LoopRounds(s, t, [a, b, c]) == RoundStep(RoundStep(RoundStep(s, t, a), t, b), t, c)
  {
    hide RoundStep;
    assert [a, b, c][..1] == [a] + [] && [a, b, c][..2] == [a] + ([b] + []) && [a, b, c] == [a] + ([b] + ([c] + []));
    var s1 := RoundStep(s, t, a);
    var s2 := RoundStep(s1, t, b);
    RoundFirst(s, t, a, []);
    RoundFirst(s1, t, b, []);
    RoundFirst(s, t, a, [b] + []);
    RoundFirst(s2, t, c, []);
    RoundFirst(s1, t, b, [c] + []);
    RoundFirst(s, t, a, [b] + ([c] + []));
  }

  lemma RoundFirst(s: Station, t: Table, r: Round, rest: seq<Round>)
    ensures LoopRounds(s, t, [r] + rest) == LoopRounds(RoundStep(s, t, r), t, rest)
  {
    hide RoundStep;
    assert ([r] + rest)[1..] == rest;
  }
}
