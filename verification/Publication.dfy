/** Which blocks a builder publishes: exactly those that it has moved to and whose row was acknowledged. */
module Publication {
  import opened Outcomes
  import opened Blocks
  import opened Execution
  import opened BuildState
  import opened RedisClient
  import opened StateManager
  import opened PayloadStore
  import opened BlockBuilder
  import opened Retrying
  import opened Production
  import opened Gaps

  /** The save of the head's row is acknowledged: the number fits, and no other row has the hash. */
  predicate Acknowledged(rows: Table, tip: Hash, store: Fault) {
    && store.Delivered?
    && tip.Number() <= MAX_INT64
    && forall n <- rows | n != tip.Number() :: rows[n].hash != tip
  }

  /** FinalizeBlock on arbitrary strings: the stream grows by one entry, that of the new head, exactly if the head
      has moved, its row was acknowledged and the publication was not lost; and success is reported exactly if
      the publication was acknowledged as well. */
  lemma FinalizePublishes(p: Producer, id: Option<PayloadId>, payloadData: Data, requestsData: Data, env: PublishEnv)
    requires InLag(p)
    ensures var (p', r) := FinishStep(p, id, payloadData, requestsData, env);
      var saved := p'.head != p.head && Acknowledged(p.rows, Tip(p'), env.store);
      && p'.stream == (if saved && !env.publish.Lost? then
                         p.stream + [Published(Tip(p'), payloadData, Tip(p').Number(), env.at)]
                       else p.stream)
      && (r.Ok? <==> saved && env.publish.Delivered?)
      && (r == Err(NotStored) <==> p'.head != p.head && !saved)
      && (r == Err(NotPublished) <==> saved && !env.publish.Delivered?)
  {
    hide Retry;
    if p.head.Some? && payloadData.PayloadData? && requestsData.DecodeRequests().Some? {
      var push := Push(payloadData.payload, p.head.value.hash, requestsData.DecodeRequests().value);
      RetryErrors(p.geth, push, env.push);
      RetryErrors(Retry(p.geth, push, env.push, 0).0, Choose(payloadData.payload.blockHash), env.choose);
    }
    if p.head.Some? && payloadData.PayloadData? && requestsData.DecodeRequests().Some?
       && payloadData.payload.Succeeds(p.head.value) {
      PushAndChoose(p, payloadData.payload, requestsData.DecodeRequests().value, env);
    }
  }

  /** The same of produceBlock, and the entry carries what Geth built in that call. */
  lemma ProducePublishes(p: Producer, env: ProduceEnv)
    requires InLag(p)
    ensures var (p', r) := ProduceStep(p, env);
      var saved := Tip(p') != Tip(p) && Acknowledged(p.rows, Tip(p'), env.finish.store);
      var data := StateBuilt(p, HeadToBuildOn(p), env.build).executionPayload;
      && p'.stream == (if saved && !env.finish.publish.Lost? then
                         p.stream + [Published(Tip(p'), data, Tip(p').Number(), env.finish.at)]
                       else p.stream)
      && (r.Ok? <==> saved && env.finish.publish.Delivered?)
  {
    hide GetPayloadStep, FinishStep, StateBuilt, Acknowledged, Replayable, WellFormed;
    GetPayloadOutcome(p, env.build);
    FinalisedIsBuilt(p, env);
    var (built, r) := GetPayloadStep(p, env.build);
    if r.Ok? {
      var state := StateBuilt(p, HeadToBuildOn(p), env.build);
      FinalizePublishes(built, state.payloadId, state.executionPayload, state.requests, env.finish);
      FinalizeOutcome(built, state.payloadId, state.executionPayload, state.requests, env.finish);
    }
  }

  /** The event moves to a block, its row is acknowledged, and the publication is not lost. */
  predicate Announces(p: Producer, e: TermEvent) {
    && e.Produce?
    && Tip(TermStep(p, e)) != Tip(p)
    && e.env.finish.store.Delivered? && Tip(p).Number() < MAX_INT64
    && !e.env.finish.publish.Lost?
  }

  /** The entries of a term, in order. */
  function Announced(p: Producer, events: seq<TermEvent>): seq<Published>
    decreases |events|
  {
    if events == [] then [] else
    var e := events[0];
    var p' := TermStep(p, e);
    (if Announces(p, e) then
       var data := StateBuilt(p, HeadToBuildOn(p), e.env.build).executionPayload;
       [Published(Tip(p'), data, Tip(p').Number(), e.env.finish.at)]
     else [])
    + Announced(p', events[1..])
  }

  lemma EventPublishes(p0: Producer, p: Producer, e: TermEvent)
    requires TermInv(p0, p) && Numbered(p0.rows)
    ensures TermInv(p0, TermStep(p, e))
    ensures TermStep(p, e).stream == p.stream + Announced(p, [e])
  {
    hide ProduceStep, TermInv, StateBuilt;
    TermInLag(p0, p);
    match e
    case Reset(clock, f) => ResetKeepsTerm(p0, p, clock, f);
    case Produce(env) =>
      ProduceKeepsTerm(p0, p, env);
      ProducePublishes(p, env);
      TermIsNumbered(p0, p);
      TipRows(p0, p);
      assert [e][1..] == [];
  }

  lemma TermInLag(p0: Producer, p: Producer)
    requires TermInv(p0, p)
    ensures InLag(p)
  {
  }

  /** What a term publishes, entry by entry: the blocks it moved to with an acknowledged row and a publication that was
      not lost, in order, and nothing else. */
  lemma {:induction false} TermPublishes(p0: Producer, p: Producer, events: seq<TermEvent>)
    requires TermInv(p0, p) && Numbered(p0.rows)
    ensures Term(p, events).stream == p.stream + Announced(p, events)
    decreases |events|
  {
    hide TermStep, TermInv, Numbered, Announces, StateBuilt;
    if events != [] {
      EventPublishes(p0, p, events[0]);
      assert [events[0]][1..] == [];
      TermPublishes(p0, TermStep(p, events[0]), events[1..]);
    }
  }

  /** Event k moves to the block and announces it. */
  predicate AnnouncedAt(p0: Producer, events: seq<TermEvent>, k: nat, h: Hash)
    requires k < |events|
  {
    Announces(Term(p0, events[..k]), events[k]) && Tip(Term(p0, events[..k + 1])) == h
  }

  lemma AnnouncedFirst(p: Producer, events: seq<TermEvent>, h: Hash)
    requires events != []
    ensures (exists e <- Announced(p, events) :: e.hash == h)
            <==> || (Announces(p, events[0]) && Tip(TermStep(p, events[0])) == h)
                 || exists e <- Announced(TermStep(p, events[0]), events[1..]) :: e.hash == h
  {
    hide Announces, TermStep, StateBuilt;
    var rest := Announced(TermStep(p, events[0]), events[1..]);
    var all := Announced(p, events);
    if Announces(p, events[0]) {
      assert all[1..] == rest && all == [all[0]] + rest;
    } else {
      assert all == rest;
    }
  }

  lemma {:induction false} AnnouncedIff(p: Producer, events: seq<TermEvent>, h: Hash)
    ensures (exists e <- Announced(p, events) :: e.hash == h)
            <==> exists k: nat | k < |events| :: AnnouncedAt(p, events, k, h)
    decreases |events|
  {
    hide Announces, TermStep, StateBuilt;
    if events != [] {
      var p' := TermStep(p, events[0]);
      var rest := events[1..];
      AnnouncedIff(p', rest, h);
      assert events[..0] == [] && events[..1] == [events[0]] && [events[0]][1..] == [];
      assert Term(p, events[..0]) == p && Term(p, events[..1]) == p';
      assert AnnouncedAt(p, events, 0, h) <==> Announces(p, events[0]) && Tip(p') == h by {
        assert events[..0 + 1] == events[..1];
      }
      AnnouncedFirst(p, events, h);
      forall k: nat | k < |rest|
        ensures AnnouncedAt(p, events, k + 1, h) <==> AnnouncedAt(p', rest, k, h)
      {
        assert events[..k + 1][1..] == rest[..k] && events[..k + 2][1..] == rest[..k + 1];
      }
      if k: nat :| k < |events| && AnnouncedAt(p, events, k, h) {
        assert k > 0 ==> AnnouncedAt(p', rest, k - 1, h);
      }
      if k: nat :| k < |rest| && AnnouncedAt(p', rest, k, h) {
        assert AnnouncedAt(p, events, k + 1, h);
      }
    }
  }

  /** A block is published in a term if and only if some event moved to it with an acknowledged row
      and a publication that was not lost. */
  lemma PublishedIff(p0: Producer, events: seq<TermEvent>, h: Hash)
    requires TermStart(p0) && Numbered(p0.rows)
    ensures var stream := Term(p0, events).stream;
      && p0.stream <= stream
      && ((exists e <- stream[|p0.stream|..] :: e.hash == h)
          <==> exists k: nat | k < |events| :: AnnouncedAt(p0, events, k, h))
  {
    hide Term, TermStart, TermInv, Numbered, Announced, AnnouncedAt;
    TermInvAtStart(p0);
    TermPublishes(p0, p0, events);
    AnnouncedIff(p0, events, h);
    assert Term(p0, events).stream[|p0.stream|..] == Announced(p0, events);
  }
}
