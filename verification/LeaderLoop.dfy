/** 03-member-nodes/cmd/main.go, runLeaderLoop: the switch between standby and leader that composes
    the lease, the standby syncer and the block builder of one node. */
module LeaderLoop {
  import opened Outcomes
  import opened Blocks
  import opened Execution
  import opened BuildState
  import opened RedisClient
  import opened StateManager
  import opened PayloadStore
  import LeaderElection
  import Syncer
  import opened BlockBuilder

  /** The state of one node. Its builder and its standby syncer drive the same Geth and store. */
  datatype Station = Station(
    id: nat, lease: Lease, leading: bool, producer: Producer, lastSynced: Uint64, count: nat, syncing: bool)

  /** What other instances send from a time on until this one ticks, and the tick. */
  datatype Turn = Turn(from: nat, others: seq<Other>, tick: LeaderElection.TickEnv)

  /** One round of the loop: the election's ticks since the last round, the standby syncer's start and its
      batches while the loop sleeps, the production of a block, and the reset of the build state. */
  datatype Round = Round(
    turns: seq<Turn>, start: Syncer.StartEnv, batches: seq<Syncer.BatchEnv>,
    clock: nat, reset: Fault, produce: ProduceEnv, resetAfter: Fault)

  function SyncOf(s: Station): Syncer.Sync {
    Syncer.Sync(s.lastSynced, s.count, s.producer.rows, s.producer.geth)
  }

  function WithSync(s: Station, sync: Syncer.Sync): Station {
    s.(lastSynced := sync.lastSynced, count := sync.count,
       producer := s.producer.(rows := sync.rows, geth := sync.geth))
  }

  function Ticks(key: Lease, leading: bool, id: nat, turns: seq<Turn>): (Lease, bool)
    decreases |turns|
  {
    if turns == [] then (key, leading) else
    var (othersKey, _) := Meanwhile(key, turns[0].from, LeaderElection.LEASE_TTL, turns[0].others);
    var (key', leading') := LeaderElection.Tick(othersKey, id, turns[0].tick);
    Ticks(key', leading', id, turns[1..])
  }

  /** Following the current leader: the syncer is started once, and then runs by itself. */
  function StandbyStep(s: Station, leader: Table, r: Round): Station {
    var started := if s.syncing then SyncOf(s) else Syncer.StartStep(SyncOf(s), r.start);
    WithSync(s, Syncer.Batches(started, leader, r.batches)).(syncing := true)
  }

  function ResetCopies(p: Producer, clock: nat, f: Fault): Producer {
    p.(copies := ResetStep(p.copies, clock, f).0)
  }

  /** Producing: the syncer is cancelled first; an empty block skips the final reset. */
  function LeadStep(s: Station, r: Round): Station {
    var p := if s.syncing then ResetCopies(s.producer, r.clock, r.reset) else s.producer;
    var (p', result) := ProduceStep(p, r.produce);
    s.(syncing := false, producer := if result == Err(EmptyBlock) then p' else ResetCopies(p', r.clock, r.resetAfter))
  }

  function RoundStep(s: Station, leader: Table, r: Round): Station {
    var (key, leading) := Ticks(s.lease, s.leading, s.id, r.turns);
    var s' := s.(lease := key, leading := leading);
    if leading then LeadStep(s', r) else StandbyStep(s', leader, r)
  }

  /** Rounds against a fixed store of the leader that is followed. */
  function LoopRounds(s: Station, leader: Table, rounds: seq<Round>): Station
    decreases |rounds|
  {
    if rounds == [] then s else LoopRounds(RoundStep(s, leader, rounds[0]), leader, rounds[1..])
  }

  class MemberNodesApp {
    const election: LeaderElection.Election
    const stateManager: RedisStateManager
    const blockBuilder: Builder
    const syncer: Syncer.BlockSyncer
    var syncing: bool

    constructor (election: LeaderElection.Election, blockBuilder: Builder, syncer: Syncer.BlockSyncer)
      ensures this.election == election && this.blockBuilder == blockBuilder && this.syncer == syncer
      ensures stateManager == blockBuilder.stateManager && !syncing
    {
      this.election := election;
      this.stateManager := blockBuilder.stateManager;
      this.blockBuilder := blockBuilder;
      this.syncer := syncer;
      syncing := false;
    }

    /** One Redis, one Geth and one store for all components; the followed leader has its own store. */
    ghost predicate Wired()
    {
      && stateManager == blockBuilder.stateManager
      && election.client == stateManager.client == blockBuilder.redisClient
      && syncer.engine == blockBuilder.engineCl
      && syncer.store == blockBuilder.payloadStore
      && syncer.leader.store != syncer.store
    }

    ghost function Frame(): set<object>
    {
      {this, election, stateManager, stateManager.client, blockBuilder, blockBuilder.engineCl,
       blockBuilder.payloadStore, syncer}
    }

    ghost function State(): Station
      requires Wired()
      reads Frame()
    {
      Station(election.instanceId, election.client.lease, election.isLeader, blockBuilder.State(),
              syncer.lastSynced, syncer.syncedCount, syncing)
    }

    method RunTicks(turns: seq<Turn>)
      requires Wired()
      modifies election, election.client`lease
      ensures var (key, leading) :=
                Ticks(old(election.client.lease), old(election.isLeader), election.instanceId, turns);
        State() == old(State()).(lease := key, leading := leading)
    {
      ghost var s := State();
      for i := 0 to |turns|
        invariant State() == s.(lease := election.client.lease, leading := election.isLeader)
        invariant Ticks(election.client.lease, election.isLeader, election.instanceId, turns[i..])
               == Ticks(s.lease, s.leading, s.id, turns)
      {
        assert turns[i..][1..] == turns[i + 1..];
        var _ := election.client.OthersRun(turns[i].from, LeaderElection.LEASE_TTL, turns[i].others);
        election.TryAcquireOrRenew(turns[i].tick);
      }
      assert turns[|turns|..] == [];
    }

    method Standby(r: Round)
      requires Wired()
      modifies this, syncer, blockBuilder.engineCl, blockBuilder.payloadStore
      ensures State() == StandbyStep(old(State()), syncer.leader.store.rows, r)
    {
      ghost var s := State();
      ghost var leaderRows := syncer.leader.store.rows;
      if !syncing {
        syncing := true;
        syncer.Start(r.start);
      }
      ghost var started := syncer.State();
      for i := 0 to |r.batches|
        invariant syncing
        invariant syncer.leader.store.rows == leaderRows
        invariant State() == WithSync(s, syncer.State()).(syncing := true)
        invariant Syncer.Batches(syncer.State(), leaderRows, r.batches[i..])
               == Syncer.Batches(started, leaderRows, r.batches)
      {
        assert r.batches[i..][1..] == r.batches[i + 1..];
        var _ := syncer.SyncBatch(r.batches[i]);
      }
      assert r.batches[|r.batches|..] == [];
    }

    method Lead(r: Round)
      requires Wired()
      modifies this, stateManager, stateManager.client`state, stateManager.client`stream
      modifies blockBuilder, blockBuilder.engineCl, blockBuilder.payloadStore
      ensures State() == LeadStep(old(State()), r)
      ensures syncer.leader.store.rows == old(syncer.leader.store.rows)
    {
      hide ProduceStep;
      if syncing {
        syncing := false;
        var _ := stateManager.ResetBlockState(r.clock, r.reset);
      }
      ghost var p := blockBuilder.State();
      assert p == if old(syncing) then ResetCopies(old(State()).producer, r.clock, r.reset) else old(State()).producer;
      var result := blockBuilder.ProduceBlock(r.produce);
      assert (blockBuilder.State(), result) == ProduceStep(p, r.produce);
      if result == Err(EmptyBlock) {
        return;
      }
      var _ := stateManager.ResetBlockState(r.clock, r.resetAfter);
    }

    method RunLeaderLoop(first: Round, rounds: seq<Round>)
      requires Wired()
      modifies Frame()
      ensures State() ==
        LoopRounds(old(State()).(producer := ResetCopies(old(State()).producer, first.clock, first.reset)),
               old(syncer.leader.store.rows), rounds)
    {
      ghost var leaderRows := syncer.leader.store.rows;
      var _ := stateManager.ResetBlockState(first.clock, first.reset);
      ghost var s := State();
      for i := 0 to |rounds|
        invariant syncer.leader.store.rows == leaderRows
        invariant LoopRounds(State(), leaderRows, rounds[i..]) == LoopRounds(s, leaderRows, rounds)
      {
        assert rounds[i..][1..] == rounds[i + 1..];
        RunTicks(rounds[i].turns);
        if !election.isLeader {
          Standby(rounds[i]);
        } else {
          Lead(rounds[i]);
        }
      }
      assert rounds[|rounds|..] == [];
    }
  }
}
