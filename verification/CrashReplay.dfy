/** Crashes inside FinalizeBlock and the replay that follows. A process that dies before or after a
    call has taken effect leaves what a failed call leaves, so the fault patterns of FinalizeBlock,
    followed by the loss of the cached head, are its crash points. */
module CrashReplay {
  import opened Outcomes
  import opened Blocks
  import opened Execution
  import opened ConsensusApp
  import opened Agreement
  import opened Proposals

  /** Everything agrees on one head: cache, database, and Geth. */
  ghost predicate InStep(s: Node, head: ExecutionHead) {
    HoldsHead(s, head) && s.persisted == s.cached && s.geth.head == head.hash
  }

  /** The decided block at the next height, which an uninterrupted FinalizeBlock finalises. */
  ghost predicate Finalizable(s: Node, txs: seq<Tx>) {
    Accepts(s.cached, txs) && FinalizeStep(s, txs, CALM).1.Ok?
  }

  /** CometBFT's view of a restart in the middle of height `target`: FinalizeBlock dies in every attempt,
      Info is asked, and the block is replayed as long as Info reports a lower height. */
  function Replay(s: Node, txs: seq<Tx>, target: nat, attempts: seq<FinalizeEnv>): (Node, Option<Hash>)
    decreases |attempts|
  {
    if attempts == [] then
      var (end, r) := FinalizeStep(s, txs, CALM);
      (end, if r.Ok? then Some(r.value.appHash) else None)
    else
      var (informed, reply) := InfoStep(FinalizeStep(s, txs, attempts[0]).0.Crash(), Delivered);
      if reply.lastBlockHeight >= target then (informed, reply.lastBlockAppHash)
      else Replay(informed, txs, target, attempts[1..])
  }

  /** The three Geth states that FinalizeBlock can leave behind: untouched, block known, block chosen. */
  ghost predicate Partial(g: Geth, origin: Geth, block: Hash) {
    || g == origin
    || g == origin.(known := origin.known + {block})
    || g == origin.(known := origin.known + {block}, head := block)
  }

  /** From each of them, FinalizeBlock reaches the same end when nothing fails, and one of them otherwise. */
  lemma FinalizeFromPartial(s: Node, head: ExecutionHead, g: Geth, txs: seq<Tx>, env: FinalizeEnv)
    requires InStep(s, head) && Finalizable(s, txs)
    requires Partial(g, s.geth, PayloadOf(txs).blockHash)
    ensures var (good, ok) := FinalizeStep(s, txs, CALM);
      && good.persisted == good.cached == Some(HeadFrom(PayloadOf(txs)))
      && ok.value.appHash == PayloadOf(txs).blockHash
      && FinalizeStep(s.(geth := g), txs, CALM) == (good, ok)
      && good.geth == s.geth.(known := s.geth.known + {PayloadOf(txs).blockHash}, head := PayloadOf(txs).blockHash)
      && var (end, _) := FinalizeStep(s.(geth := g), txs, env);
      && Partial(end.geth, s.geth, PayloadOf(txs).blockHash)
      && (end.persisted == s.persisted || (end.persisted == good.persisted && end.geth == good.geth))
  {
    var p := PayloadOf(txs);
    JudgedOnKnownParent(s.geth, p, head.hash, txs[0].message.requests);
    NoDescentFromChild(head.hash, p.blockHash);
    if p.blockHash in s.geth.known {
      assert s.geth.known + {p.blockHash} == s.geth.known;
    }
    var known := s.geth.(known := s.geth.known + {p.blockHash});
    assert known.NewPayload(p, head.hash, txs[0].message.requests) == (known, VALID);
    var moved := known.(head := p.blockHash);
    assert moved.NewPayload(p, head.hash, txs[0].message.requests) == (moved, VALID);
  }

  lemma {:induction false} ReplayFromPartial(
    s: Node, head: ExecutionHead, g: Geth, txs: seq<Tx>, attempts: seq<FinalizeEnv>)
    requires InStep(s, head) && head.height > 0 && Finalizable(s, txs)
    requires Partial(g, s.geth, PayloadOf(txs).blockHash)
    ensures var (good, r) := FinalizeStep(s, txs, CALM);
      Replay(s.(geth := g), txs, head.height + 1, attempts) == (good, Some(r.value.appHash))
    decreases |attempts|
  {
    FinalizeFromPartial(s, head, g, txs, CALM);
    if attempts != [] {
      FinalizeFromPartial(s, head, g, txs, attempts[0]);
      JudgedOnKnownParent(s.geth, PayloadOf(txs), head.hash, txs[0].message.requests);
      var crashed := FinalizeStep(s.(geth := g), txs, attempts[0]).0.Crash();
      if crashed.persisted == s.persisted {
        assert InfoStep(crashed, Delivered).0 == s.(geth := crashed.geth);
        ReplayFromPartial(s, head, crashed.geth, txs, attempts[1..]);
      }
    }
  }

  /** For heights of 2 and above: however often and wherever FinalizeBlock dies, Info and replay end with
      the cached head, persisted head, Geth and app hash of a run that was never interrupted. */
  lemma CrashesLeaveNoTrace(s: Node, head: ExecutionHead, txs: seq<Tx>, attempts: seq<FinalizeEnv>)
    requires InStep(s, head) && head.height > 0 && Finalizable(s, txs)
    ensures var (good, r) := FinalizeStep(s, txs, CALM);
      Replay(s, txs, head.height + 1, attempts) == (good, Some(r.value.appHash))
  {
    ReplayFromPartial(s, head, s.geth, txs, attempts);
  }

  // ---------------------------------------------------------------------------------------
  // Height 1
  // ---------------------------------------------------------------------------------------

  /** At height 1 a restart that finds height 0 calls InitChain before it replays. */
  function RestartFirst(crashed: Node, txs: seq<Tx>, init: InitEnv, env: FinalizeEnv): (Node, Option<Hash>) {
    var (informed, reply) := InfoStep(crashed.Crash(), Delivered);
    if reply.lastBlockHeight > 0 then (informed, reply.lastBlockAppHash) else
    var (initialised, started) := InitChainStep(informed, init);
    if started.Err? then (initialised, None) else
    var (end, r) := FinalizeStep(initialised, txs, env);
    (end, if r.Ok? then Some(r.value.appHash) else None)
  }

  function RecoverFirst(crashed: Node, txs: seq<Tx>): (Node, Option<Hash>) {
    RestartFirst(crashed, txs, InitEnv(Delivered, Delivered), CALM)
  }

  /** Any number of restarts, each dying in InitChain or in the replay, or getting through and dying then. */
  function Restarts(s: Node, txs: seq<Tx>, attempts: seq<(InitEnv, FinalizeEnv)>): Node
    decreases |attempts|
  {
    if attempts == [] then s.Crash()
    else Restarts(RestartFirst(s, txs, attempts[0].0, attempts[0].1).0, txs, attempts[1..])
  }

  /** What such restarts leave: block 1 finalised and persisted, or the genesis block persisted and Geth
      untouched, or knowing block 1, or moved to it. */
  ghost predicate Remains(c: Node, s: Node, block: ExecutionHead) {
    || (c.persisted == s.persisted && Partial(c.geth, s.geth, block.hash))
    || (c.persisted == Some(block) && c.geth == s.geth.(known := s.geth.known + {block.hash}, head := block.hash))
  }

  lemma RestartRemains(s: Node, head: ExecutionHead, c: Node, txs: seq<Tx>, init: InitEnv, env: FinalizeEnv)
    requires InStep(s, head) && head.hash.Genesis? && Finalizable(s, txs)
    requires Remains(c, s, HeadFrom(PayloadOf(txs)))
    ensures Remains(RestartFirst(c, txs, init, env).0, s, HeadFrom(PayloadOf(txs)))
  {
    var p := PayloadOf(txs);
    JudgedOnKnownParent(s.geth, p, head.hash, txs[0].message.requests);
    assert HeadOf(p.blockHash) == HeadFrom(p);
    if c.persisted == s.persisted {
      FinalizeFromPartial(s, head, c.geth, txs, env);
      var initialised := InitChainStep(InfoStep(c.Crash(), Delivered).0, init).0;
      if c.geth.head == head.hash {
        assert InitChainStep(InfoStep(c.Crash(), Delivered).0, init).1.Ok? ==> initialised == s.(geth := c.geth);
      } else {
        assert c.geth.NewPayload(p, p.blockHash, txs[0].message.requests) == (c.geth, INVALID);
      }
    }
  }

  lemma {:induction false} RestartsRemain(
    s: Node, head: ExecutionHead, c: Node, txs: seq<Tx>, attempts: seq<(InitEnv, FinalizeEnv)>)
    requires InStep(s, head) && head.hash.Genesis? && Finalizable(s, txs)
    requires Remains(c, s, HeadFrom(PayloadOf(txs)))
    ensures Remains(Restarts(c, txs, attempts), s, HeadFrom(PayloadOf(txs)))
    decreases |attempts|
  {
    hide RestartFirst;
    if attempts != [] {
      RestartRemains(s, head, c, txs, attempts[0].0, attempts[0].1);
      RestartsRemain(s, head, RestartFirst(c, txs, attempts[0].0, attempts[0].1).0, txs, attempts[1..]);
    }
  }

  /** The first block, after any number of crashes in FinalizeBlock and InitChain: a restart in which nothing fails
      ends as an uninterrupted run exactly if the crashes left Geth at the genesis block or block 1 persisted.
      Otherwise InitChain adopts block 1 and its replay is refused; but one more restart then succeeds. */
  lemma FirstBlockReplay(
    s: Node, head: ExecutionHead, txs: seq<Tx>, env: FinalizeEnv, attempts: seq<(InitEnv, FinalizeEnv)>)
    requires InStep(s, head) && head.hash.Genesis? && Finalizable(s, txs)
    ensures var (good, r) := FinalizeStep(s, txs, CALM);
      var crashed := Restarts(FinalizeStep(s, txs, env).0, txs, attempts);
      var (end, appHash) := RecoverFirst(crashed, txs);
      && ((end, appHash) == (good, Some(r.value.appHash))
          <==> crashed.geth.head == head.hash || crashed.persisted == good.persisted)
      && (appHash == None || appHash == Some(r.value.appHash))
      && (appHash == None ==> RecoverFirst(end, txs) == (good, Some(r.value.appHash)))
  {
    var p := PayloadOf(txs);
    JudgedOnKnownParent(s.geth, p, head.hash, txs[0].message.requests);
    FinalizeFromPartial(s, head, s.geth, txs, env);
    RestartsRemain(s, head, FinalizeStep(s, txs, env).0, txs, attempts);
    RecoverFromRemains(s, head, Restarts(FinalizeStep(s, txs, env).0, txs, attempts), txs);
  }

  lemma RecoverFromRemains(s: Node, head: ExecutionHead, c: Node, txs: seq<Tx>)
    requires InStep(s, head) && head.hash.Genesis? && Finalizable(s, txs)
    requires Remains(c, s, HeadFrom(PayloadOf(txs)))
    ensures var (good, r) := FinalizeStep(s, txs, CALM);
      var (end, appHash) := RecoverFirst(c, txs);
      && ((end, appHash) == (good, Some(r.value.appHash))
          <==> c.geth.head == head.hash || c.persisted == good.persisted)
      && (appHash == None || appHash == Some(r.value.appHash))
      && (appHash == None ==> RecoverFirst(end, txs) == (good, Some(r.value.appHash)))
  {
    var p := PayloadOf(txs);
    JudgedOnKnownParent(s.geth, p, head.hash, txs[0].message.requests);
    FinalizeFromPartial(s, head, s.geth, txs, CALM);
    if c.persisted == s.persisted {
      FinalizeFromPartial(s, head, c.geth, txs, CALM);
      if c.geth.head == head.hash {
        assert InitChainStep(InfoStep(c.Crash(), Delivered).0, InitEnv(Delivered, Delivered)).0 == s.(geth := c.geth);
      } else {
        assert c.geth.NewPayload(p, p.blockHash, txs[0].message.requests) == (c.geth, INVALID);
        assert HeadOf(p.blockHash) == HeadFrom(p);
      }
    }
  }

  /** The failing case exists: Geth was moved to block 1 and the process died before saving. */
  lemma FirstBlockReplayCanFail()
    ensures exists s: Node, head: ExecutionHead, txs: seq<Tx>, env: FinalizeEnv ::
      && InStep(s, head) && head.hash.Genesis? && Finalizable(s, txs)
      && RecoverFirst(FinalizeStep(s, txs, env).0, txs).1 == None
  {
    var root := Genesis(0, 0);
    var g := Geth(root, {root}, root);
    var s := Node(Some(HeadOf(root)), Some(HeadOf(root)), g);
    var claim := Payload(root, 1, 1, root, 0, root, Body([], true));
    var p := claim.(blockHash := claim.Seal(root, []));
    var txs := [Json(Message(Some(p), []))];
    var env := FinalizeEnv(Delivered, Delivered, false, Lost);
    assert g.NewPayload(p, root, []) == (g.(known := g.known + {p.blockHash}), VALID);
    assert InStep(s, HeadOf(root)) && Finalizable(s, txs);
    FirstBlockReplay(s, HeadOf(root), txs, env, []);
    var crashed := FinalizeStep(s, txs, env).0;
    assert crashed.geth.head == p.blockHash != root;
    assert crashed.persisted == s.persisted;
    assert Restarts(crashed, txs, []) == crashed.Crash();
    assert RecoverFirst(crashed, txs).1 == None;
  }
}
