/** Rounds of the leader loop: its ticks as runs of the election, and the build state that a leader's round leaves. */
module LeaderRounds {
  import opened Outcomes
  import opened Blocks
  import opened Execution
  import opened BuildState
  import opened RedisClient
  import opened StateManager
  import opened LeaderElection
  import opened BlockBuilder
  import opened Retrying
  import opened Production
  import opened LeaderLoop

  // ---------------------------------------------------------------------------------------
  // The ticks before a round
  // ---------------------------------------------------------------------------------------

  predicate MayRun(c: Cluster, id: nat, others: seq<Other>) {
    forall o <- others | o.OtherDel? :: o.id != id && MayDelete(c, o.id)
  }

  /** The steps of one turn: the other instances, then the tick. */
  function TurnSteps(c: Cluster, id: nat, t: Turn): seq<Step> {
    var c' := Steps(c, Interfere(t.others));
    Interfere(t.others) + Script(id, t.tick, SetNX(c'.lease, id, c'.now, LEASE_TTL).1)
  }

  /** Each turn begins where the one before it ended. */
  predicate InTime(c: Cluster, id: nat, turns: seq<Turn>)
    decreases |turns|
  {
    turns != [] ==>
      && turns[0].from == c.now && MayRun(c, id, turns[0].others)
      && turns[0].tick.now == Steps(c, Interfere(turns[0].others)).now
      && MayRun(c, id, turns[0].tick.others)
      && InTime(Steps(c, TurnSteps(c, id, turns[0])), id, turns[1..])
  }

  /** The turns before a round are a run of the election, for the key as for the flag; so the loop leads only when the
      election lets it, and what holds of all runs of the election holds of it. */
  lemma {:induction false} TurnsRefineSteps(c: Cluster, id: nat, turns: seq<Turn>) returns (steps: seq<Step>)
    requires id in c.nodes && c.nodes[id].phase == Idle && InTime(c, id, turns)
    ensures var end := Steps(c, steps);
      && end.nodes.Keys == c.nodes.Keys && end.nodes[id].phase == Idle
      && (end.lease, end.nodes[id].isLeader) == Ticks(c.lease, c.nodes[id].isLeader, id, turns)
    decreases |turns|
  {
    hide Tick, Script, Next;
    steps := [];
    if turns != [] {
      var t := turns[0];
      InterferenceIsMeanwhile(c, t.others);
      var c' := Steps(c, Interfere(t.others));
      TickRefinesSteps(c', id, t.tick);
      StepsCompose(c, Interfere(t.others), Script(id, t.tick, SetNX(c'.lease, id, c'.now, LEASE_TTL).1));
      var rest := TurnsRefineSteps(Steps(c, TurnSteps(c, id, t)), id, turns[1..]);
      StepsCompose(c, TurnSteps(c, id, t), rest);
      steps := TurnSteps(c, id, t) + rest;
    }
  }

  /** In particular, from any run of the election on: a loop that leads holds the live key, or got its last grant at
      least 5000ms ago. */
  lemma LeadingHoldsLease(c0: Cluster, past: seq<Step>, id: nat, turns: seq<Turn>)
    requires Start(c0)
    requires var c := Steps(c0, past);
      && id in c.nodes && c.nodes[id].phase == Idle && InTime(c, id, turns)
      && Ticks(c.lease, c.nodes[id].isLeader, id, turns).1
    ensures exists steps: seq<Step> ::
      var end := Steps(c0, past + steps);
      && id in end.nodes
      && end.lease == Ticks(Steps(c0, past).lease, Steps(c0, past).nodes[id].isLeader, id, turns).0
      && (end.lease.LiveFor(id, end.now) || end.now >= end.nodes[id].lastGrant + 5000)
  {
    hide Ticks, Next;
    var steps := TurnsRefineSteps(Steps(c0, past), id, turns);
    StepsCompose(c0, past, steps);
    LeaseSafety(c0, past + steps);
    var end := Steps(c0, past + steps);
    assert end.nodes[id].ReadsTrue();
  }

  // ---------------------------------------------------------------------------------------
  // The build state after a leader's round
  // ---------------------------------------------------------------------------------------

  /** Which error FinalizeBlock returns on arbitrary strings before it calls Geth, and that it has done nothing then. */
  lemma FinalizeRefuses(p: Producer, id: Option<PayloadId>, payloadData: Data, requestsData: Data, env: PublishEnv)
    ensures var (p', r) := FinishStep(p, id, payloadData, requestsData, env);
      var missing := id.None? || payloadData.Absent?;
      var decoded := !missing && payloadData.PayloadData? && (requestsData.RequestsData? || requestsData.Absent?);
      && (missing ==> r == Err(MissingPayload))
      && (!missing && !payloadData.PayloadData? ==> r == Err(BadPayload))
      && (!missing && payloadData.PayloadData? && !decoded ==> r == Err(BadRequests))
      && (decoded && p.head.None? ==> r == Err(NilHead))
      && (decoded && p.head.Some? && !payloadData.payload.Succeeds(p.head.value) ==> r == Err(NotValidated))
      && (!decoded || p.head.None? || !payloadData.payload.Succeeds(p.head.value) ==> p' == p)
  {
    hide Retry;
  }

  /** So a build state that has been reset is refused, and nothing is done. */
  lemma ResetStateIsRefused(p: Producer, env: PublishEnv)
    ensures FinishStep(p, FRESH.payloadId, FRESH.executionPayload, FRESH.requests, env) == (p, Err(MissingPayload))
  {
    FinalizeRefuses(p, FRESH.payloadId, FRESH.executionPayload, FRESH.requests, env);
  }

  /** The error of an engine call that does not get through is the error of FinalizeBlock, and only Geth may have
      changed then: the head stays where it was. */
  lemma FinalizeStopsAtEngine(
    p: Producer, head: ExecutionHead, id: PayloadId, payload: Payload, requests: Requests, env: PublishEnv)
    requires p.head == Some(head) && payload.Succeeds(head)
    ensures var (g1, pushed) := Retry(p.geth, Push(payload, head.hash, requests), env.push, 0);
      var (g2, chosen) := Retry(g1, Choose(payload.blockHash), env.choose, 0);
      var (p', r) := FinishStep(p, Some(id), PayloadData(payload), RequestsData(requests), env);
      && (pushed.Err? ==> r == Err(pushed.error) && p' == p.(geth := g1))
      && (pushed.Ok? && chosen.Err? ==> r == Err(chosen.error) && p' == p.(geth := g2))
  {
    hide Retry;
  }

  /** Likewise of GetPayload: only Geth and a head that was read may have changed. */
  lemma GetPayloadStopsAtEngine(p: Producer, env: BuildEnv)
    ensures var (g0, read) := Retry(p.geth, ReadHeader, env.header, 0);
      var head := if p.head.Some? then p.head.value else HeadOf(p.geth.head);
      var start := StartBuild(head.hash, BuildAttributes(p, head, env.unix));
      var (g1, started) := Retry(p.geth, start, env.start, 0);
      var (p', r) := GetPayloadStep(p, env);
      && (p.head.None? && read.Err? ==> r == Err(read.error) && p' == p)
      && ((p.head.Some? || read.Ok?) && started.Err? ==>
            r == Err(started.error) && p' == p.(geth := g1, head := Some(head)))
      && ((p.head.Some? || read.Ok?) && started.Ok? ==>
            var fetched := Retry(g1, Fetch(started.value.id), env.fetch, 0).1;
            fetched.Err? ==> r == Err(fetched.error) && p' == p.(geth := g1, head := Some(head)))
  {
    hide Retry;
    ReadOnlyRetries(p.geth, ReadHeader, env.header, 0);
  }

  /** An empty block leaves the build state as it was. */
  lemma EmptyBlockSavesNothing(p: Producer, env: ProduceEnv)
    ensures var (p', r) := ProduceStep(p, env);
      r == Err(EmptyBlock) ==> p'.copies == p.copies && p'.rows == p.rows && p'.stream == p.stream
  {
    hide Retry;
    var (_, read) := Retry(p.geth, ReadHeader, env.build.header, 0);
    RetryErrors(p.geth, ReadHeader, env.build.header);
    var (built, r) := GetPayloadStep(p, env.build);
    if p.head.Some? || read.Ok? {
      BuildLeavesState(
        if p.head.Some? then p else p.(head := Some(read.value.head)),
        if p.head.Some? then p.head.value else read.value.head, env.build);
    }
    if r.Ok? {
      var state := GetStep(built.copies, env.build.clock + env.pause, env.read);
      FinishIsNotEmpty(built, state.payloadId, state.executionPayload, state.requests, env.finish);
    }
  }

  lemma BuildLeavesState(p: Producer, head: ExecutionHead, env: BuildEnv)
    ensures var (p', r) := BuildOn(p, head, env);
      r == Err(EmptyBlock) ==> p'.copies == p.copies && p'.rows == p.rows && p'.stream == p.stream
  {
  }

  lemma FinishIsNotEmpty(p: Producer, id: Option<PayloadId>, payloadData: Data, requestsData: Data, env: PublishEnv)
    ensures FinishStep(p, id, payloadData, requestsData, env).1 != Err(EmptyBlock)
  {
    hide Retry;
    if p.head.Some? && payloadData.PayloadData? && requestsData.DecodeRequests().Some? {
      var payload := payloadData.payload;
      var push := Push(payload, p.head.value.hash, requestsData.DecodeRequests().value);
      RetryErrors(p.geth, push, env.push);
      RetryErrors(Retry(p.geth, push, env.push, 0).0, Choose(payload.blockHash), env.choose);
    }
  }

  /** What the next read of the build state returns after a round of a leader. After an empty block it is what it was
      before production, which is the reset state if the syncer has just been cancelled. Otherwise it is the reset
      state, unless Redis missed the reset, answers the read, and still serves a state that differs. */
  lemma LeadRoundState(s: Station, r: Round, delay: nat, read: Fault)
    ensures var before := if s.syncing then ResetStep(s.producer.copies, r.clock, r.reset).0 else s.producer.copies;
      var (produced, result) := ProduceStep(s.producer.(copies := before), r.produce);
      var end := LeadStep(s, r);
      && end == s.(syncing := false, producer := produced.(copies := end.producer.copies))
      && if result == Err(EmptyBlock) then end.producer.copies == before
         else
           && end.producer.copies.local == FRESH
           && (GetStep(end.producer.copies, r.clock + delay, read) == FRESH
               <==> || !r.resetAfter.Lost?
                    || !read.Delivered?
                    || !(&& produced.copies.remote.Entry? && r.clock + delay < produced.copies.remote.expiry
                         && produced.copies.remote.text.StateJson?)
                    || produced.copies.remote.text.state == FRESH)
  {
    hide ProduceStep;
    var before := if s.syncing then ResetStep(s.producer.copies, r.clock, r.reset).0 else s.producer.copies;
    var (produced, result) := ProduceStep(s.producer.(copies := before), r.produce);
    EmptyBlockSavesNothing(s.producer.(copies := before), r.produce);
    ReadYourReset(produced.copies, r.clock, r.resetAfter, delay, read);
  }

  /** The stale state of a lost reset is that of the block just built, for exactly five minutes after its save. */
  lemma LostResetServesProduced(s: Station, r: Round, delay: nat)
    requires InLag(s.producer) && !s.syncing && r.resetAfter.Lost?
    requires GetPayloadStep(s.producer, r.produce.build).1.Ok?
    ensures GetStep(LeadStep(s, r).producer.copies, r.clock + delay, Delivered)
         == if r.clock + delay < r.produce.build.clock + 300_000 then
              StateBuilt(s.producer, HeadToBuildOn(s.producer), r.produce.build)
            else FRESH
  {
    hide GetPayloadStep, StateBuilt;
    GetPayloadOutcome(s.producer, r.produce.build);
    var built := GetPayloadStep(s.producer, r.produce.build).0;
    var state := GetStep(built.copies, r.produce.build.clock + r.produce.pause, r.produce.read);
    FinishKeepsCopies(built, state.payloadId, state.executionPayload, state.requests, r.produce.finish);
    FinishIsNotEmpty(built, state.payloadId, state.executionPayload, state.requests, r.produce.finish);
  }

  lemma FinishKeepsCopies(p: Producer, id: Option<PayloadId>, payloadData: Data, requestsData: Data, env: PublishEnv)
    ensures FinishStep(p, id, payloadData, requestsData, env).0.copies == p.copies
  {
    hide Retry;
  }
}
