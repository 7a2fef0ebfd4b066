/** What ProcessProposal does not check, and FinalizeBlock cannot repair: accepted blocks that stop the chain,
    and exactly when it can go on. */
module Halting {
  import opened Outcomes
  import opened Blocks
  import opened Execution
  import opened ConsensusApp
  import opened Agreement
  import opened Proposals

  /** Of an accepted proposal, a validator that holds the head can finalise exactly the one whose hash is that of
      its contents under the head as beacon root, that executes, and whose number has not wrapped around. */
  lemma AcceptedFinalizesIff(s: Node, head: ExecutionHead, txs: seq<Tx>)
    requires HoldsHead(s, head) && Accepts(s.cached, txs)
    ensures HasPayload(txs)
    ensures FinalizeStep(s, txs, CALM).1.Ok?
            <==> && PayloadOf(txs).blockHash == PayloadOf(txs).Seal(head.hash, txs[0].message.requests)
                 && PayloadOf(txs).body.sound
                 && head.height < MAX_UINT64
  {
    JudgedOnKnownParent(s.geth, PayloadOf(txs), head.hash, txs[0].message.requests);
  }

  /** Decided block i + 1 has the hash of its contents and executes. */
  predicate SoundAt(genesis: Hash, decided: seq<seq<Tx>>, i: nat)
    requires AllPayloads(decided) && i < |decided|
  {
    SealedAt(genesis, decided, i) && PayloadOf(decided[i]).body.sound
  }

  /** What Geth has accepted is sound. */
  lemma SettledIsSound(genesis: Hash, decided: seq<seq<Tx>>, g: Geth, k: nat, i: nat)
    requires IsChain(genesis, decided) && i < k <= |decided| && Settled(genesis, decided, g, k)
    ensures SoundAt(genesis, decided, i)
  {
    assert SealedAt(genesis, decided, i);
    assert HeadAt(genesis, decided, i + 1).hash in g.known;
    assert g.Accepted(PayloadOf(decided[i]).blockHash);
  }

  /** All decided blocks but the last one are sound. */
  ghost predicate SoundBeforeLast(net: Network) {
    && AllPayloads(net.decided)
    && forall i: nat {:trigger SoundAt(net.genesis, net.decided, i)} | i + 1 < |net.decided| ::
         SoundAt(net.genesis, net.decided, i)
  }

  lemma DecideKeepsSound(net: Network, e: Event)
    requires Inv(net) && SoundBeforeLast(net)
    ensures SoundBeforeLast(NetworkStep(net, e))
  {
    if e.Decide? && e.v < |net.validators| && CanDecide(net, net.validators[e.v], e.txs) {
      var v := net.validators[e.v];
      assert v in net.validators;
      var k: nat :| k <= |net.decided| && GoodAt(net.genesis, net.decided, v, k);
      HeadsWithMoreDecided(net.genesis, net.decided, e.txs);
      forall i: nat | i < |net.decided|
        ensures SoundAt(net.genesis, net.decided + [e.txs], i)
      {
        SettledIsSound(net.genesis, net.decided, v.node.geth, k, i);
        assert SealedAt(net.genesis, net.decided + [e.txs], i);
      }
    }
  }

  lemma {:induction false} RunKeepsSound(net: Network, events: seq<Event>)
    requires Inv(net) && SoundBeforeLast(net)
    ensures SoundBeforeLast(Run(net, events))
    decreases |events|
  {
    if events != [] {
      DecideKeepsSound(net, events[0]);
      NetworkStepKeeps(net, events[0]);
      RunKeepsSound(NetworkStep(net, events[0]), events[1..]);
    }
  }

  /** The last decided block is one that no Geth accepts. */
  ghost predicate Stuck(net: Network) {
    AllPayloads(net.decided) && net.decided != [] && !SoundAt(net.genesis, net.decided, |net.decided| - 1)
  }

  /** No validator is past the block before the last one. */
  lemma StuckBelowLast(net: Network, v: Validator)
    requires Inv(net) && Stuck(net) && v in net.validators
    ensures v.up ==> v.height < |net.decided| && v.node.cached.Some? && v.node.cached.value.height < |net.decided|
    ensures v.node.persisted.Some? ==> v.node.persisted.value.height < |net.decided|
  {
    var k: nat :| k <= |net.decided| && GoodAt(net.genesis, net.decided, v, k);
    if k == |net.decided| {
      SettledIsSound(net.genesis, net.decided, v.node.geth, k, k - 1);
    }
    SettledHeads(net.genesis, net.decided, v.node.geth, k);
  }

  lemma {:induction false} StuckForever(net: Network, events: seq<Event>)
    requires Inv(net) && Stuck(net)
    ensures Run(net, events).decided == net.decided
    decreases |events|
  {
    if events != [] {
      var e := events[0];
      if e.v < |net.validators| {
        StuckBelowLast(net, net.validators[e.v]);
      }
      assert NetworkStep(net, e).decided == net.decided;
      NetworkStepKeeps(net, e);
      StuckForever(NetworkStep(net, e), events[1..]);
    }
  }

  /** In every run each decided block but the last one is sound. If the last one is not, the chain has halted: in
      every continuation, with any restarts and retries, nothing more is decided and no validator gets to it. */
  lemma UnsoundBlockHalts(net: Network, events: seq<Event>, more: seq<Event>)
    requires Initial(net)
    ensures var mid := Run(net, events);
      var end := Run(mid, more);
      && SoundBeforeLast(mid)
      && (Stuck(mid) ==>
            && end.decided == mid.decided
            && (forall v <- end.validators | v.up :: v.height < |mid.decided|)
            && (forall v <- end.validators | v.node.persisted.Some? :: v.node.persisted.value.height < |mid.decided|))
  {
    InitialIsGood(net);
    RunKeeps(net, events);
    RunKeepsSound(net, events);
    var mid := Run(net, events);
    RunKeeps(mid, more);
    if Stuck(mid) {
      StuckForever(mid, more);
      var end := Run(mid, more);
      forall v <- end.validators
        ensures v.up ==> v.height < |mid.decided|
        ensures v.node.persisted.Some? ==> v.node.persisted.value.height < |mid.decided|
      {
        StuckBelowLast(end, v);
      }
    }
  }

  /** A validator that waits for the last decided block with the head of the block before it finalises it,
      if no call fails, exactly if it is sound. */
  lemma LastFinalizesIffSound(net: Network, events: seq<Event>, v: Validator)
    requires Initial(net)
    requires var end := Run(net, events);
      && v in end.validators && v.up && v.height + 1 == |end.decided|
      && v.node.cached.Some? && v.node.cached.value.height == v.height
    ensures var end := Run(net, events);
      var v' := FinalizeEvent(v, end.decided, CALM);
      (v'.up && v'.height == |end.decided|) <==> !Stuck(end)
  {
    InitialIsGood(net);
    RunKeeps(net, events);
    hide Run, FinalizeStep;
    var end := Run(net, events);
    var k: nat :| k <= |end.decided| && GoodAt(net.genesis, end.decided, v, k);
    SettledHeads(net.genesis, end.decided, v.node.geth, k);
    assert Linked(net.genesis, end.decided, k);
    AcceptedFinalizesIff(v.node, v.node.cached.value, end.decided[k]);
  }

  // ---------------------------------------------------------------------------------------
  // When the chain can go on
  // ---------------------------------------------------------------------------------------

  /** Besides an unsound last block, the ends of two number ranges stop the chain: no timestamp is later than the
      last one, or CometBFT has no further height. */
  ghost predicate CanGoOn(net: Network) {
    && AllPayloads(net.decided)
    && !Stuck(net)
    && HeadAt(net.genesis, net.decided, |net.decided|).time < MAX_UINT64
    && |net.decided| + 1 < MAX_INT64
  }

  /** Who can decide holds the head of the last decided block. */
  lemma BlockedStep(net: Network, e: Event)
    requires Inv(net) && !CanGoOn(net)
    ensures NetworkStep(net, e).decided == net.decided
  {
    if e.v < |net.validators| {
      var v := net.validators[e.v];
      assert v in net.validators;
      var k: nat :| k <= |net.decided| && GoodAt(net.genesis, net.decided, v, k);
      if Stuck(net) {
        StuckBelowLast(net, v);
      }
    }
  }

  lemma {:induction false} BlockedForever(net: Network, events: seq<Event>)
    requires Inv(net) && !CanGoOn(net)
    ensures Run(net, events).decided == net.decided
    decreases |events|
  {
    if events != [] {
      BlockedStep(net, events[0]);
      NetworkStepKeeps(net, events[0]);
      BlockedForever(NetworkStep(net, events[0]), events[1..]);
    }
  }

  lemma {:induction false} RunsCompose(net: Network, a: seq<Event>, b: seq<Event>)
    ensures Run(net, a + b) == Run(Run(net, a), b)
    decreases |a|
  {
    if a == [] {
      assert a + b == b;
    } else {
      assert (a + b)[1..] == a[1..] + b;
      RunsCompose(NetworkStep(net, a[0]), a[1..], b);
    }
  }

  lemma OneEvent(net: Network, e: Event)
    ensures Run(net, [e]) == NetworkStep(net, e)
  {
    assert Run(NetworkStep(net, e), [e][1..]) == NetworkStep(net, e);
  }

  /** The first validator runs, at the height of the head that it holds. */
  ghost predicate Ready(net: Network, k: nat)
  {
    && IsChain(net.genesis, net.decided)
    && k <= |net.decided|
    && net.validators != []
    && GoodAt(net.genesis, net.decided, net.validators[0], k)
    && net.validators[0].up && net.validators[0].height == k
  }

  const CALM_INIT: InitEnv := InitEnv(Delivered, Delivered)

  /** A crash and a calm restart of a validator: it runs with the head of some decided block, which is what its
      Geth stands at if it had to call InitChain. */
  function Restarted(v: Validator): Validator {
    RestartEvent(v.(node := v.node.Crash(), up := false), Delivered, CALM_INIT)
  }

  lemma RestartedHolds(genesis: Hash, decided: seq<seq<Tx>>, v: Validator, k: nat) returns (j: nat)
    requires IsChain(genesis, decided) && k <= |decided| && GoodAt(genesis, decided, v, k)
    ensures j <= |decided| && GoodAt(genesis, decided, Restarted(v), j) && Restarted(v).up
    ensures Restarted(v).node.geth == v.node.geth
    ensures j == 0 <==> k == 0 && v.node.geth.head == genesis
    ensures j == k ==> Restarted(v).height == j
    ensures k > 0 ==> j == k
  {
    j := k;
    SettledHeads(genesis, decided, v.node.geth, k);
    if k == 0 && v.node.geth.head != HeadAt(genesis, decided, 0).hash {
      SettledHeads(genesis, decided, v.node.geth, 1);
      j := 1;
    }
    var down := v.(node := v.node.Crash(), up := false);
    assert GoodAt(genesis, decided, down, k);
    var (informed, reply) := InfoStep(down.node.Crash(), Delivered);
    assert GoodAt(genesis, decided, Restarted(v), j);
  }

  /** After two of them it runs at the height of its head. */
  lemma TwoRestarts(net: Network) returns (events: seq<Event>, k: nat)
    requires Inv(net) && net.validators != []
    ensures Ready(Run(net, events), k) && Run(net, events).decided == net.decided
  {
    var v := net.validators[0];
    assert v in net.validators;
    var j: nat :| j <= |net.decided| && GoodAt(net.genesis, net.decided, v, j);
    k := RestartedHolds(net.genesis, net.decided, v, j);
    k := RestartedHolds(net.genesis, net.decided, Restarted(v), k);
    hide Inv, IsChain, GoodAt, RestartEvent, Run;
    var again := [Crash(0), Restart(0, Delivered, CALM_INIT)];
    events := again + again;
    RestartRun(net);
    RestartRun(Run(net, again));
    RunsCompose(net, again, again);
    assert Run(net, events).validators[0] == Restarted(Restarted(v));
  }

  lemma RestartRun(net: Network)
    requires net.validators != []
    ensures Run(net, [Crash(0), Restart(0, Delivered, CALM_INIT)])
         == net.(validators := net.validators[0 := Restarted(net.validators[0])])
  {
    hide RestartEvent;
    RunsCompose(net, [Crash(0)], [Restart(0, Delivered, CALM_INIT)]);
    OneEvent(net, Crash(0));
    OneEvent(NetworkStep(net, Crash(0)), Restart(0, Delivered, CALM_INIT));
    assert [Crash(0)] + [Restart(0, Delivered, CALM_INIT)] == [Crash(0), Restart(0, Delivered, CALM_INIT)];
  }

  /** From there it finalises block after block, as long as they are sound. */
  lemma FinalizeNext(net: Network, k: nat)
    requires Ready(net, k) && k < |net.decided| && SoundAt(net.genesis, net.decided, k)
    ensures Ready(NetworkStep(net, Finalize(0, CALM)), k + 1)
    ensures NetworkStep(net, Finalize(0, CALM)).decided == net.decided
  {
    var v := net.validators[0];
    SettledHeads(net.genesis, net.decided, v.node.geth, k);
    assert Linked(net.genesis, net.decided, k);
    AcceptedFinalizesIff(v.node, v.node.cached.value, net.decided[k]);
    var j := FinalizeStepKeeps(net.genesis, net.decided, v.node, k, CALM);
  }

  lemma {:induction false} FinalizeAll(net: Network, k: nat) returns (events: seq<Event>)
    requires Ready(net, k)
    requires forall i: nat {:trigger SoundAt(net.genesis, net.decided, i)} | i < |net.decided| ::
               SoundAt(net.genesis, net.decided, i)
    ensures Run(net, events).decided == net.decided && Ready(Run(net, events), |net.decided|)
    decreases |net.decided| - k
  {
    hide GoodAt, SoundAt, FinalizeStep, IsChain;
    if k == |net.decided| {
      events := [];
    } else {
      FinalizeNext(net, k);
      var rest := FinalizeAll(NetworkStep(net, Finalize(0, CALM)), k + 1);
      events := [Finalize(0, CALM)] + rest;
      assert events[1..] == rest;
    }
  }

  /** And at the end it decides what it proposes itself. */
  lemma DecideOneMore(net: Network) returns (e: Event)
    requires Ready(net, |net.decided|) && CanGoOn(net)
    ensures |NetworkStep(net, e).decided| == |net.decided| + 1
  {
    var v := net.validators[0];
    var head := v.node.cached.value;
    SettledHeads(net.genesis, net.decided, v.node.geth, |net.decided|);
    var calm := ProposeEnv(Delivered, Delivered, false, Delivered, Fill([], []));
    Coherence(v.node, head, 0, calm);
    e := Decide(0, PrepareStep(v.node, 0, calm).1.value);
  }

  lemma ChainGoesOn(net: Network) returns (more: seq<Event>)
    requires Inv(net) && SoundBeforeLast(net) && net.validators != [] && CanGoOn(net)
    ensures |Run(net, more).decided| == |net.decided| + 1
  {
    hide Inv, Ready, SoundAt;
    var restarts, k := TwoRestarts(net);
    var ready := Run(net, restarts);
    var finalizes := FinalizeAll(ready, k);
    var top := Run(ready, finalizes);
    var e := DecideOneMore(top);
    OneEvent(top, e);
    more := restarts + (finalizes + [e]);
    RunsCompose(net, restarts, finalizes + [e]);
    RunsCompose(ready, finalizes, [e]);
  }

  /** After any run, with whatever validators down or behind, some continuation decides another block if and only if
      the last decided block is sound and its timestamp and height are not the last ones there are. */
  lemma ChainContinuesIff(net: Network, past: seq<Event>)
    requires Initial(net) && net.validators != []
    ensures var mid := Run(net, past);
      && AllPayloads(mid.decided)
      && ((exists more: seq<Event> :: |Run(mid, more).decided| > |mid.decided|)
          <==> && !Stuck(mid)
               && HeadAt(net.genesis, mid.decided, |mid.decided|).time < MAX_UINT64
               && |mid.decided| + 1 < MAX_INT64)
  {
    InitialIsGood(net);
    RunKeeps(net, past);
    RunKeepsSound(net, past);
    var mid := Run(net, past);
    if CanGoOn(mid) {
      var more := ChainGoesOn(mid);
    } else {
      forall more: seq<Event>
        ensures Run(mid, more).decided == mid.decided
      {
        BlockedForever(mid, more);
      }
    }
  }

  // ---------------------------------------------------------------------------------------
  // Both kinds of halt
  // ---------------------------------------------------------------------------------------

  /** An unsound block is decided: ProcessProposal looks at number, parent and timestamp only. */
  lemma HaltIsReachable() returns (net: Network, events: seq<Event>)
    ensures Initial(net) && Stuck(Run(net, events))
  {
    var root := Genesis(0, 0);
    var v := Validator(Node(None, None, Geth(root, {root}, root)), 0, false, []);
    net := Network(root, [v], []);
    var bad := [Json(Message(Some(Payload(root, 1, 1, Raw(0), 0, root, Body([], false))), []))];
    var start := Restart(0, Delivered, InitEnv(Delivered, Delivered));
    events := [start, Decide(0, bad)];
    var ready := NetworkStep(net, start);
    assert ready.validators[0].node.cached == Some(HeadOf(root));
    var end := NetworkStep(ready, Decide(0, bad));
    assert end.decided == [bad];
    assert events[1..] == [Decide(0, bad)];
    assert Run(net, events) == Run(ready, events[1..]) == Run(end, events[1..][1..]) == end;
  }

  /** And so is a sound one with the last timestamp there is, which every validator finalises:
      after it none is later. */
  lemma LastTimestampIsReachable() returns (net: Network, events: seq<Event>)
    ensures Initial(net) && net.validators != []
    ensures var mid := Run(net, events);
      && !Stuck(mid) && mid.decided != []
      && (forall v <- mid.validators :: v.up && v.height == |mid.decided|)
      && forall more: seq<Event> :: Run(mid, more).decided == mid.decided
  {
    var root := Genesis(0, 0);
    var v := Validator(Node(None, None, Geth(root, {root}, root)), 0, false, []);
    net := Network(root, [v], []);
    var claim := Payload(root, 1, MAX_UINT64, root, 0, root, Body([], true));
    var last := claim.(blockHash := claim.Seal(root, []));
    var txs := [Json(Message(Some(last), []))];
    var start := Restart(0, Delivered, CALM_INIT);
    events := [start, Decide(0, txs), Finalize(0, CALM)];
    var ready := NetworkStep(net, start);
    assert ready.validators[0] == Validator(Node(Some(HeadOf(root)), Some(HeadOf(root)), v.node.geth), 0, true, []);
    var decided := NetworkStep(ready, Decide(0, txs));
    assert decided.decided == [txs];
    assert SealedAt(root, [txs], 0);
    var mid := NetworkStep(decided, Finalize(0, CALM));
    assert mid.validators[0].up && mid.validators[0].height == 1;
    InitialIsGood(net);
    hide NetworkStep, Inv, Initial, SoundAt;
    assert events[1..] == [Decide(0, txs), Finalize(0, CALM)] && events[1..][1..] == [Finalize(0, CALM)];
    OneEvent(decided, Finalize(0, CALM));
    assert Run(net, events) == Run(ready, events[1..]) == Run(decided, events[1..][1..]) == mid;
    RunKeeps(net, events);
    forall more: seq<Event>
      ensures Run(mid, more).decided == mid.decided
    {
      BlockedForever(mid, more);
    }
  }
}
