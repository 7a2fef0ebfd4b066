/** When a leadership term leaves a gap in the leader's store. */
module Gaps {
  import opened Outcomes
  import opened Blocks
  import opened Execution
  import opened BuildState
  import opened RedisClient
  import opened StateManager
  import opened PayloadStore
  import opened BlockBuilder
  import opened Production

  /** No row above a number is missing, up to the tip. */
  ghost predicate GapFree(p: Producer, from: nat) {
    forall n: nat | from < n <= Tip(p).Number() :: n in p.rows
  }

  /** Every row stands under the number of its block, so no new block meets a stored hash. */
  ghost predicate Numbered(t: Table) {
    forall n <- t :: t[n].hash.Number() == n
  }

  lemma TermIsNumbered(p0: Producer, p: Producer)
    requires TermInv(p0, p) && Numbered(p0.rows)
    ensures Numbered(p.rows)
  {
    hide InLag;
    forall n <- p.rows
      ensures p.rows[n].hash.Number() == n
    {
      assert n !in p0.rows ==> TermRow(p0, p, n);
      assert p.rows[n].number == n;
    }
  }

  /** The block that a produceBlock call has moved to is stored exactly if the save was not lost, its number fits the
      column, and its hash is not yet stored. */
  lemma MoveIsStoredIff(p0: Producer, p: Producer, env: ProduceEnv)
    requires TermInv(p0, p)
    ensures var p' := ProduceStep(p, env).0;
      Tip(p') != Tip(p) ==>
        (Tip(p').Number() in p'.rows
         <==> && !env.finish.store.Lost?
              && Tip(p').Number() <= MAX_INT64
              && forall n <- p.rows :: p.rows[n].hash != Tip(p'))
  {
    hide GetPayloadStep, FinishStep, Replayable, WellFormed, InLag;
    BuildKeepsTerm(p0, p, env.build);
    GetPayloadOutcome(p, env.build);
    var (built, r) := GetPayloadStep(p, env.build);
    if r.Ok? {
      var state := GetStep(built.copies, env.build.clock + env.pause, env.read);
      FinishStores(built, state.payloadId, state.executionPayload, state.requests, env.finish);
    }
  }

  /** The save of FinalizeBlock, once the head has moved. */
  lemma FinishStores(p: Producer, id: Option<PayloadId>, payloadData: Data, requestsData: Data, env: PublishEnv)
    requires InLag(p) && p.head.Some? && forall n <- p.rows :: n <= Tip(p).Number()
    ensures var p' := FinishStep(p, id, payloadData, requestsData, env).0;
      && p'.head.Some?
      && (Tip(p') != Tip(p) ==>
            (Tip(p').Number() in p'.rows
             <==> !env.store.Lost? && Tip(p').Number() <= MAX_INT64 && forall n <- p.rows :: p.rows[n].hash != Tip(p')))
  {
    hide Retry, Replayable;
    FinalizeOutcome(p, id, payloadData, requestsData, env);
  }

  /** Every produceBlock call of the term that moved the head above a number had its save reach a store
      that has a number for it. */
  predicate MovesStored(p: Producer, events: seq<TermEvent>, from: nat)
    decreases |events|
  {
    events != [] ==>
      && (events[0].Produce? && Tip(TermStep(p, events[0])) != Tip(p) && Tip(p).Number() >= from ==>
            !events[0].env.finish.store.Lost? && Tip(p).Number() < MAX_INT64)
      && MovesStored(TermStep(p, events[0]), events[1..], from)
  }

  /** One event: the store stays without a gap exactly if a move is saved. */
  lemma EventKeepsGapFree(p0: Producer, p: Producer, e: TermEvent, from: nat)
    requires TermInv(p0, p) && Numbered(p0.rows)
    ensures TermInv(p0, TermStep(p, e))
    ensures GapFree(TermStep(p, e), from) <==>
      && GapFree(p, from)
      && (e.Produce? && Tip(TermStep(p, e)) != Tip(p) && Tip(p).Number() >= from ==>
            !e.env.finish.store.Lost? && Tip(p).Number() < MAX_INT64)
  {
    hide ProduceStep, TermInv;
    TipRows(p0, p);
    match e
    case Reset(clock, f) => ResetKeepsTerm(p0, p, clock, f);
    case Produce(env) =>
      var p' := ProduceStep(p, env).0;
      ProduceKeepsTerm(p0, p, env);
      MoveIsStoredIff(p0, p, env);
      TermIsNumbered(p0, p);
      if Tip(p') != Tip(p) {
        GapFreeAfterMove(p, p', from);
      }
  }

  lemma GapFreeAfterMove(p: Producer, p': Producer, from: nat)
    requires Tip(p').Number() == Tip(p).Number() + 1
    requires forall n: nat | n <= Tip(p).Number() :: n in p'.rows <==> n in p.rows
    ensures GapFree(p', from) <==> GapFree(p, from) && (Tip(p).Number() >= from ==> Tip(p').Number() in p'.rows)
  {
  }

  /** No number above the range of the column has a row. */
  lemma NoGapAboveColumn(p: Producer, from: nat)
    requires GapFree(p, from) && forall n <- p.rows :: n <= MAX_INT64
    ensures Tip(p).Number() <= from || Tip(p).Number() <= MAX_INT64
  {
    assert Tip(p).Number() > from ==> Tip(p).Number() in p.rows;
  }

  lemma TipRows(p0: Producer, p: Producer)
    requires TermInv(p0, p)
    ensures forall n <- p.rows :: n <= Tip(p).Number()
    ensures Tip(p0).Number() <= Tip(p).Number()
    ensures Tip(p0).Number() == Tip(p).Number() ==> Tip(p0) == Tip(p)
    ensures forall n <- p.rows :: n <= MAX_INT64
  {
  }

  /** A term leaves a store without a gap above any number if and only if every call that moved the head above
      that number had its save reach the store. */
  lemma {:induction false} GapFreeIffMovesStored(p0: Producer, p: Producer, events: seq<TermEvent>, from: nat)
    requires TermInv(p0, p) && Numbered(p0.rows)
    ensures GapFree(Term(p, events), from) <==> GapFree(p, from) && MovesStored(p, events, from)
    decreases |events|
  {
    hide TermStep, TermInv, GapFree, Numbered;
    if events != [] {
      EventKeepsGapFree(p0, p, events[0], from);
      GapFreeIffMovesStored(p0, TermStep(p, events[0]), events[1..], from);
    }
  }

  /** In particular, a term without a lost save has no gap exactly if the numbers of its blocks fit the column. */
  lemma NoLostSaveNoGap(p0: Producer, events: seq<TermEvent>)
    requires TermStart(p0) && Numbered(p0.rows)
    requires forall e <- events | e.Produce? :: !e.env.finish.store.Lost?
    ensures GapFree(Term(p0, events), Tip(p0).Number())
            <==> Tip(Term(p0, events)).Number() <= MAX_INT64 || Tip(Term(p0, events)) == Tip(p0)
  {
    hide Term, TermStart, TermInv, MovesStored, Numbered;
    TermInvAtStart(p0);
    TermKeeps(p0, p0, events);
    TipRows(p0, Term(p0, events));
    GapFreeIffMovesStored(p0, p0, events, Tip(p0).Number());
    if Tip(Term(p0, events)).Number() <= MAX_INT64 {
      NoLostSave(p0, p0, events, Tip(p0).Number());
    } else if GapFree(Term(p0, events), Tip(p0).Number()) {
      NoGapAboveColumn(Term(p0, events), Tip(p0).Number());
    }
  }

  lemma {:induction false} NoLostSave(p0: Producer, p: Producer, events: seq<TermEvent>, from: nat)
    requires TermInv(p0, p)
    requires forall e <- events | e.Produce? :: !e.env.finish.store.Lost?
    requires Tip(Term(p, events)).Number() <= MAX_INT64
    ensures MovesStored(p, events, from)
    ensures Tip(p).Number() <= MAX_INT64
    decreases |events|
  {
    hide ProduceStep, TermInv;
    if events != [] {
      match events[0] {
        case Produce(env) => ProduceKeepsTerm(p0, p, env);
        case Reset(clock, f) => ResetKeepsTerm(p0, p, clock, f);
      }
      assert events[0] in events;
      forall e <- events[1..] | e.Produce?
        ensures !e.env.finish.store.Lost?
      {
        assert e in events;
      }
      NoLostSave(p0, TermStep(p, events[0]), events[1..], from);
    }
  }

  /** And a term in which one is lost can have a gap below a stored row: block 1 is accepted and chosen, its save is
      lost, and block 2 is built on it and stored. */
  lemma LostSaveLeavesGap() returns (p0: Producer, events: seq<TermEvent>)
    ensures TermStart(p0) && Numbered(p0.rows)
    ensures !MovesStored(p0, events, 0)
    ensures var p := Term(p0, events);
      && Tip(p0) == Genesis(0, 0) && Tip(p).Number() == 2 && 1 !in p.rows && 2 in p.rows && p.rows[2].hash == Tip(p)
      && Tip(p).Sealed? && Tip(p).parent.Extends(Tip(p0)) && Tip(p).parent.Time() == 1
  {
    hide ProduceStep, StateBuilt;
    var root := Genesis(0, 0);
    p0 := Producer(0, Some(HeadOf(root)), Geth(root, {root}, root), Copies(Missing, FRESH), map[], []);
    var first := Undisturbed(1, Fill([7], []), Lost);
    UndisturbedProduces(p0, 1, Fill([7], []), Lost);
    var p1 := ProduceStep(p0, first).0;
    var second := Undisturbed(2, Fill([8], []), Delivered);
    UndisturbedProduces(p1, 2, Fill([8], []), Delivered);
    var p2 := ProduceStep(p1, second).0;
    events := [Produce(first), Produce(second)];
    assert events[1..] == [Produce(second)] && events[1..][1..] == [];
    assert Term(p0, events) == Term(p1, events[1..]) == p2;
  }
}
