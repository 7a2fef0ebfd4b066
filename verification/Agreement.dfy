/** Validators around one decided chain: every run, with crashes, restarts and failing calls. */
module Agreement {
  import opened Outcomes
  import opened Blocks
  import opened Execution
  import opened ConsensusApp

  /** A height together with the app hash the application gave CometBFT for it, and the transaction results,
      if it was FinalizeBlock that gave it. */
  datatype Report = Report(height: nat, appHash: Hash, results: Option<seq<nat>>)

  /** `height` is the last height CometBFT considers finalised on this validator. An application
      that fails FinalizeBlock is down until it is restarted, as CometBFT stops there. */
  datatype Validator = Validator(node: Node, height: nat, up: bool, reports: seq<Report>)

  datatype Network = Network(genesis: Hash, validators: seq<Validator>, decided: seq<seq<Tx>>)

  datatype Event =
    | Propose(v: nat, unix: Int64, propose: ProposeEnv)
    | Decide(v: nat, txs: seq<Tx>)
    | Finalize(v: nat, finalize: FinalizeEnv)
    | Crash(v: nat)
    | Restart(v: nat, load: Fault, init: InitEnv)

  // ---------------------------------------------------------------------------------------
  // The decided chain
  // ---------------------------------------------------------------------------------------

  predicate HasPayload(txs: seq<Tx>) {
    |txs| > 0 && txs[0].Json? && txs[0].message.payload.Some?
  }

  function PayloadOf(txs: seq<Tx>): Payload
    requires HasPayload(txs)
  {
    txs[0].message.payload.value
  }

  predicate AllPayloads(decided: seq<seq<Tx>>) {
    forall i | 0 <= i < |decided| :: HasPayload(decided[i])
  }

  /** The execution head that the first k decided blocks lead to. */
  function HeadAt(genesis: Hash, decided: seq<seq<Tx>>, k: nat): ExecutionHead
    requires AllPayloads(decided) && k <= |decided|
  {
    if k == 0 then HeadOf(genesis) else HeadFrom(PayloadOf(decided[k - 1]))
  }

  /** Block i + 1 has its height as number, its predecessor as parent, and a later timestamp. */
  predicate Linked(genesis: Hash, decided: seq<seq<Tx>>, i: nat)
    requires AllPayloads(decided) && i < |decided|
  {
    var p := PayloadOf(decided[i]);
    && p.number == i + 1
    && p.parentHash == HeadAt(genesis, decided, i).hash
    && p.timestamp > HeadAt(genesis, decided, i).time
  }

  /** Number equal to height, linked parents, strictly rising timestamps. */
  ghost predicate IsChain(genesis: Hash, decided: seq<seq<Tx>>) {
    && genesis.Genesis?
    && AllPayloads(decided)
    && |decided| < MAX_INT64
    && forall i: nat {:trigger Linked(genesis, decided, i)} | i < |decided| :: Linked(genesis, decided, i)
  }

  // ---------------------------------------------------------------------------------------
  // Runs
  // ---------------------------------------------------------------------------------------

  function FinalizeEvent(v: Validator, decided: seq<seq<Tx>>, env: FinalizeEnv): Validator {
    if !v.up || v.height >= |decided| then v else
    var (node, r) := FinalizeStep(v.node, decided[v.height], env);
    if r.Ok? then
      var report := Report(v.height + 1, r.value.appHash, Some(r.value.txResults));
      v.(node := node, height := v.height + 1, reports := v.reports + [report])
    else
      v.(node := node, up := false)
  }

  /** CometBFT's handshake: Info decides where replay resumes, height 0 calls InitChain first. */
  function RestartEvent(v: Validator, load: Fault, init: InitEnv): Validator {
    if v.up then v else
    var (informed, reply) := InfoStep(v.node.Crash(), load);
    var reports :=
      if reply.lastBlockAppHash.None? then v.reports
      else v.reports + [Report(reply.lastBlockHeight, reply.lastBlockAppHash.value, None)];
    if reply.lastBlockHeight > 0 then
      Validator(informed, reply.lastBlockHeight, true, reports)
    else
      var (node, r) := InitChainStep(informed, init);
      Validator(node, 0, r.Ok?, reports)
  }

  function ValidatorStep(v: Validator, decided: seq<seq<Tx>>, e: Event): Validator {
    match e
    case Propose(_, unix, env) => if v.up then v.(node := PrepareStep(v.node, unix, env).0) else v
    case Decide(_, _) => v
    case Finalize(_, env) => FinalizeEvent(v, decided, env)
    case Crash(_) => v.(node := v.node.Crash(), up := false)
    case Restart(_, load, init) => RestartEvent(v, load, init)
  }

  /** A block can be decided at the next height only if some correct validator at that height
      accepts the proposal. CometBFT heights are positive int64 numbers. */
  predicate CanDecide(net: Network, v: Validator, txs: seq<Tx>) {
    && v.up
    && v.height == |net.decided|
    && |net.decided| + 1 < MAX_INT64
    && Accepts(v.node.cached, txs)
  }

  function NetworkStep(net: Network, e: Event): (r: Network)
    ensures |r.validators| == |net.validators| && r.genesis == net.genesis
  {
    if e.v >= |net.validators| then net else
    var v := net.validators[e.v];
    if e.Decide? then
      if CanDecide(net, v, e.txs) then net.(decided := net.decided + [e.txs]) else net
    else
      net.(validators := net.validators[e.v := ValidatorStep(v, net.decided, e)])
  }

  function Run(net: Network, events: seq<Event>): (r: Network)
    ensures |r.validators| == |net.validators| && r.genesis == net.genesis
    decreases |events|
  {
    if events == [] then net else Run(NetworkStep(net, events[0]), events[1..])
  }

  /** Fresh applications, each with its own Geth at the common genesis block. */
  ghost predicate Initial(net: Network) {
    && net.decided == []
    && net.genesis.Genesis?
    && forall v <- net.validators ::
         && v == Validator(Node(None, None, v.node.geth), 0, false, [])
         && v.node.geth.Consistent()
         && v.node.geth.genesis == net.genesis
         && v.node.geth.head == net.genesis
  }

  // ---------------------------------------------------------------------------------------
  // The invariant
  // ---------------------------------------------------------------------------------------

  /** Block i + 1 has the hash of its contents, sealed under its predecessor as beacon root. */
  predicate SealedAt(genesis: Hash, decided: seq<seq<Tx>>, i: nat)
    requires AllPayloads(decided) && i < |decided|
  {
    PayloadOf(decided[i]).blockHash
    == PayloadOf(decided[i]).Seal(HeadAt(genesis, decided, i).hash, decided[i][0].message.requests)
  }

  /** Geth has accepted the first k decided blocks, so their hashes are those of their contents,
      each sealed under its parent as beacon root. */
  ghost predicate Settled(genesis: Hash, decided: seq<seq<Tx>>, g: Geth, k: nat)
    requires AllPayloads(decided) && k <= |decided|
  {
    && g.Consistent()
    && g.genesis == genesis
    && (forall i: nat {:trigger HeadAt(genesis, decided, i)} | i <= k :: HeadAt(genesis, decided, i).hash in g.known)
    && (forall i: nat {:trigger SealedAt(genesis, decided, i)} | i < k :: SealedAt(genesis, decided, i))
  }

  /** Geth's head is decided block k or its successor. */
  ghost predicate EngineNear(genesis: Hash, decided: seq<seq<Tx>>, g: Geth, k: nat)
    requires AllPayloads(decided) && k <= |decided|
  {
    && Settled(genesis, decided, g, k)
    && (g.head == HeadAt(genesis, decided, k).hash
        || (k < |decided| && Settled(genesis, decided, g, k + 1) && g.head == HeadAt(genesis, decided, k + 1).hash))
  }

  /** What survives a crash: the persisted head is decided block k, and Geth is near it. */
  ghost predicate Durable(genesis: Hash, decided: seq<seq<Tx>>, s: Node, k: nat)
    requires AllPayloads(decided) && k <= |decided|
  {
    && EngineNear(genesis, decided, s.geth, k)
    && (s.persisted == Some(HeadAt(genesis, decided, k)) || (s.persisted == None && k == 0 && s.geth.head == genesis))
  }

  /** A running validator holds the head of decided block k. Its CometBFT height is k, or it is 0
      because Info found nothing or Geth was ahead when InitChain read its head. */
  ghost predicate GoodAt(genesis: Hash, decided: seq<seq<Tx>>, v: Validator, k: nat)
    requires AllPayloads(decided) && k <= |decided|
  {
    && Durable(genesis, decided, v.node, k)
    && (v.up ==>
          && v.node.cached == v.node.persisted == Some(HeadAt(genesis, decided, k))
          && (v.height == k || v.height == 0))
  }

  ghost predicate GoodReports(genesis: Hash, decided: seq<seq<Tx>>, reports: seq<Report>)
    requires AllPayloads(decided)
  {
    forall r <- reports ::
      && r.height <= |decided|
      && r.appHash == HeadAt(genesis, decided, r.height).hash
      && (r.results.Some? ==> r.height > 0 && OneSuccessEach(r.results.value, decided[r.height - 1]))
  }

  /** One result for each transaction of the block, with code 0. */
  predicate OneSuccessEach(results: seq<nat>, txs: seq<Tx>) {
    |results| == |txs| && forall i | 0 <= i < |results| :: results[i] == 0
  }

  /** What a FinalizeBlock that succeeds returns, for every node, block and failure pattern. */
  lemma FinalizeReplies(s: Node, txs: seq<Tx>, env: FinalizeEnv)
    ensures var (s', r) := FinalizeStep(s, txs, env);
      r.Ok? ==>
        && OneSuccessEach(r.value.txResults, txs)
        && HasPayload(txs) && r.value.appHash == PayloadOf(txs).blockHash
        && s'.cached == s'.persisted == Some(HeadFrom(PayloadOf(txs)))
  {
  }

  ghost predicate Good(genesis: Hash, decided: seq<seq<Tx>>, v: Validator)
    requires AllPayloads(decided)
  {
    && GoodReports(genesis, decided, v.reports)
    && exists k: nat :: k <= |decided| && GoodAt(genesis, decided, v, k)
  }

  ghost predicate Inv(net: Network) {
    && IsChain(net.genesis, net.decided)
    && forall v <- net.validators :: Good(net.genesis, net.decided, v)
  }

  // ---------------------------------------------------------------------------------------
  // Every event keeps it
  // ---------------------------------------------------------------------------------------

  /** On settled blocks, the head taken from the payload is the head read from the header. */
  lemma SettledHeads(genesis: Hash, decided: seq<seq<Tx>>, g: Geth, k: nat)
    requires IsChain(genesis, decided) && k <= |decided| && Settled(genesis, decided, g, k)
    ensures HeadAt(genesis, decided, k) == HeadOf(HeadAt(genesis, decided, k).hash)
    ensures HeadAt(genesis, decided, k).height == k
  {
    if k > 0 {
      assert Linked(genesis, decided, k - 1) && SealedAt(genesis, decided, k - 1);
    }
  }

  lemma SettledWithMore(genesis: Hash, decided: seq<seq<Tx>>, g: Geth, g': Geth, k: nat)
    requires AllPayloads(decided) && k <= |decided| && Settled(genesis, decided, g, k)
    requires g'.Consistent() && g'.genesis == g.genesis && g.known <= g'.known
    ensures Settled(genesis, decided, g', k)
  {
  }

  lemma ProposeKeeps(genesis: Hash, decided: seq<seq<Tx>>, v: Validator, k: nat, e: Event)
    requires e.Propose? && IsChain(genesis, decided) && k <= |decided| && GoodAt(genesis, decided, v, k)
    ensures GoodAt(genesis, decided, ValidatorStep(v, decided, e), k)
    ensures ValidatorStep(v, decided, e).reports == v.reports
  {
    if v.up {
      var g := v.node.geth;
      var head := v.node.cached.value;
      var attributes := Some(ProposalAttributes(head, e.unix));
      var (g', _) := ForkchoiceCall(g, head.hash, attributes, e.propose.skip, e.propose.forkchoice);
      ForkchoiceKeepsConsistency(g, head.hash, attributes, e.propose.skip, e.propose.forkchoice);
      SettledWithMore(genesis, decided, g, g', k);
      if k < |decided| && Settled(genesis, decided, g, k + 1) {
        SettledWithMore(genesis, decided, g, g', k + 1);
      }
    }
  }

  /** A validator that CometBFT believes at height 0 while it already holds a later block
      cannot finalise: the first block was not sealed under the head it would be checked with. */
  lemma StaleReplayFails(genesis: Hash, decided: seq<seq<Tx>>, v: Validator, k: nat, env: FinalizeEnv)
    requires IsChain(genesis, decided) && 0 < k <= |decided| && GoodAt(genesis, decided, v, k)
    requires v.up && v.height == 0
    ensures FinalizeStep(v.node, decided[0], env).1.Err?
    ensures FinalizeStep(v.node, decided[0], env).0 == v.node
  {
    var p := PayloadOf(decided[0]);
    var head := v.node.cached.value.hash;
    assert SealedAt(genesis, decided, 0);
    assert head != genesis by { SettledHeads(genesis, decided, v.node.geth, k); }
    assert v.node.geth.NewPayload(p, head, decided[0][0].message.requests) == (v.node.geth, INVALID);
  }

  lemma PushKeepsSettled(genesis: Hash, decided: seq<seq<Tx>>, g: Geth, k: nat, f: Fault)
    requires IsChain(genesis, decided) && k < |decided| && Settled(genesis, decided, g, k)
    ensures var (g', r) :=
              NewPayloadCall(
                g, PayloadOf(decided[k]), HeadAt(genesis, decided, k).hash, decided[k][0].message.requests, f);
      && Settled(genesis, decided, g', k)
      && g'.head == g.head
      && g.known <= g'.known
      && (r.Ok? && r.value != INVALID ==> Settled(genesis, decided, g', k + 1))
  {
    var p := PayloadOf(decided[k]);
    var root := HeadAt(genesis, decided, k).hash;
    assert Linked(genesis, decided, k);
    NewPayloadKeepsConsistency(g, p, root, decided[k][0].message.requests, f);
    JudgedOnKnownParent(g, p, root, decided[k][0].message.requests);
    SettledWithMore(genesis, decided, g, NewPayloadCall(g, p, root, decided[k][0].message.requests, f).0, k);
  }

  lemma PushKeepsNear(genesis: Hash, decided: seq<seq<Tx>>, g: Geth, k: nat, f: Fault)
    requires IsChain(genesis, decided) && k < |decided| && EngineNear(genesis, decided, g, k)
    ensures var (g', r) :=
              NewPayloadCall(
                g, PayloadOf(decided[k]), HeadAt(genesis, decided, k).hash, decided[k][0].message.requests, f);
      && EngineNear(genesis, decided, g', k)
      && (r.Ok? && r.value != INVALID ==> Settled(genesis, decided, g', k + 1))
  {
    PushKeepsSettled(genesis, decided, g, k, f);
    if Settled(genesis, decided, g, k + 1) {
      var (g', _) :=
        NewPayloadCall(g, PayloadOf(decided[k]), HeadAt(genesis, decided, k).hash, decided[k][0].message.requests, f);
      SettledWithMore(genesis, decided, g, g', k + 1);
    }
  }

  lemma ChooseKeepsNear(genesis: Hash, decided: seq<seq<Tx>>, g: Geth, k: nat, skip: bool, f: Fault)
    requires IsChain(genesis, decided) && k < |decided| && EngineNear(genesis, decided, g, k)
    requires Settled(genesis, decided, g, k + 1)
    ensures var (g', _) := ForkchoiceCall(g, PayloadOf(decided[k]).blockHash, None, skip, f);
      && EngineNear(genesis, decided, g', k)
      && Settled(genesis, decided, g', k + 1)
      && (!f.Lost? ==> EngineNear(genesis, decided, g', k + 1))
  {
    var child := PayloadOf(decided[k]).blockHash;
    var (g', _) := ForkchoiceCall(g, child, None, skip, f);
    assert Linked(genesis, decided, k) && SealedAt(genesis, decided, k);
    ForkchoiceKeepsConsistency(g, child, None, skip, f);
    SettledWithMore(genesis, decided, g, g', k);
    SettledWithMore(genesis, decided, g, g', k + 1);
    NoDescentFromChild(HeadAt(genesis, decided, k).hash, child);
  }

  /** FinalizeBlock on a validator that is where it should be: Geth moves at most to the next
      decided block, and only a persisted head counts as progress. */
  lemma FinalizeStepKeeps(genesis: Hash, decided: seq<seq<Tx>>, s: Node, k: nat, env: FinalizeEnv) returns (j: nat)
    requires IsChain(genesis, decided) && k < |decided| && Durable(genesis, decided, s, k)
    requires s.cached == s.persisted == Some(HeadAt(genesis, decided, k))
    ensures k <= j <= k + 1
    ensures var (s', r) := FinalizeStep(s, decided[k], env);
      && Durable(genesis, decided, s', j)
      && (r.Ok? ==> j == k + 1 && s'.cached == s'.persisted == Some(HeadAt(genesis, decided, k + 1))
                    && r.value.appHash == HeadAt(genesis, decided, k + 1).hash
                    && OneSuccessEach(r.value.txResults, decided[k]))
  {
    var p := PayloadOf(decided[k]);
    var (g1, judged) := NewPayloadCall(s.geth, p, s.cached.value.hash, decided[k][0].message.requests, env.newPayload);
    PushKeepsNear(genesis, decided, s.geth, k, env.newPayload);
    j := k;
    if judged.Ok? && judged.value != INVALID {
      ChooseKeepsNear(genesis, decided, g1, k, env.skip, env.forkchoice);
      if env.forkchoice.Delivered? && !env.save.Lost? {
        j := k + 1;
      }
    }
  }

  lemma FinalizeKeeps(genesis: Hash, decided: seq<seq<Tx>>, v: Validator, k: nat, env: FinalizeEnv) returns (j: nat)
    requires IsChain(genesis, decided) && k <= |decided| && GoodAt(genesis, decided, v, k)
    ensures j <= |decided| && GoodAt(genesis, decided, FinalizeEvent(v, decided, env), j)
    ensures var reports := FinalizeEvent(v, decided, env).reports;
      || reports == v.reports
      || (j > 0 && exists results: seq<nat> ::
            && OneSuccessEach(results, decided[j - 1])
            && reports == v.reports + [Report(j, HeadAt(genesis, decided, j).hash, Some(results))])
  {
    j := k;
    if v.up && v.height < |decided| {
      if v.height != k {
        StaleReplayFails(genesis, decided, v, k, env);
      } else {
        j := FinalizeStepKeeps(genesis, decided, v.node, k, env);
      }
    }
  }

  /** InitChain adopts whatever Geth has: the genesis block, or the block it was last moved to. */
  lemma InitChainKeeps(genesis: Hash, decided: seq<seq<Tx>>, s: Node, k: nat, env: InitEnv) returns (j: nat)
    requires IsChain(genesis, decided) && k <= |decided| && Durable(genesis, decided, s, k)
    ensures k <= j <= |decided|
    ensures var (s', r) := InitChainStep(s, env);
      && Durable(genesis, decided, s', j)
      && (r.Ok? ==> s'.cached == s'.persisted == Some(HeadAt(genesis, decided, j)))
  {
    j := k;
    SettledHeads(genesis, decided, s.geth, k);
    if s.geth.head != HeadAt(genesis, decided, k).hash {
      SettledHeads(genesis, decided, s.geth, k + 1);
      if env.header.Delivered? && !env.save.Lost? {
        j := k + 1;
      }
    }
  }

  lemma RestartKeeps(genesis: Hash, decided: seq<seq<Tx>>, v: Validator, k: nat, load: Fault, init: InitEnv)
    returns (j: nat)
    requires IsChain(genesis, decided) && k <= |decided| && GoodAt(genesis, decided, v, k)
    ensures j <= |decided| && GoodAt(genesis, decided, RestartEvent(v, load, init), j)
    ensures var reports := RestartEvent(v, load, init).reports;
      || reports == v.reports
      || reports == v.reports + [Report(k, HeadAt(genesis, decided, k).hash, None)]
  {
    j := k;
    if !v.up {
      SettledHeads(genesis, decided, v.node.geth, k);
      var (informed, reply) := InfoStep(v.node.Crash(), load);
      assert Durable(genesis, decided, informed, k);
      if reply.lastBlockHeight == 0 {
        j := InitChainKeeps(genesis, decided, informed, k, init);
      }
    }
  }

  lemma ValidatorStepKeeps(genesis: Hash, decided: seq<seq<Tx>>, v: Validator, e: Event)
    requires IsChain(genesis, decided) && Good(genesis, decided, v)
    ensures Good(genesis, decided, ValidatorStep(v, decided, e))
  {
    var k: nat :| k <= |decided| && GoodAt(genesis, decided, v, k);
    var j := k;
    match e {
      case Propose(_, _, _) => ProposeKeeps(genesis, decided, v, k, e);
      case Decide(_, _) =>
      case Finalize(_, env) => j := FinalizeKeeps(genesis, decided, v, k, env);
      case Crash(_) =>
      case Restart(_, load, init) => j := RestartKeeps(genesis, decided, v, k, load, init);
    }
    assert GoodAt(genesis, decided, ValidatorStep(v, decided, e), j);
  }

  lemma HeadsWithMoreDecided(genesis: Hash, decided: seq<seq<Tx>>, txs: seq<Tx>)
    requires AllPayloads(decided) && HasPayload(txs)
    ensures AllPayloads(decided + [txs])
    ensures forall i: nat | i <= |decided| :: HeadAt(genesis, decided + [txs], i) == HeadAt(genesis, decided, i)
    ensures forall i: nat {:trigger Linked(genesis, decided + [txs], i)} | i < |decided| ::
              Linked(genesis, decided, i) ==> Linked(genesis, decided + [txs], i)
    ensures forall i: nat {:trigger SealedAt(genesis, decided + [txs], i)} | i < |decided| ::
              SealedAt(genesis, decided, i) ==> SealedAt(genesis, decided + [txs], i)
  {
  }

  /** An accepted proposal extends the chain. FinalizeBlock never looks; this is where it is checked. */
  lemma DecideKeepsChain(net: Network, v: Validator, txs: seq<Tx>)
    requires IsChain(net.genesis, net.decided) && Good(net.genesis, net.decided, v)
    requires CanDecide(net, v, txs)
    ensures IsChain(net.genesis, net.decided + [txs])
  {
    var k: nat :| k <= |net.decided| && GoodAt(net.genesis, net.decided, v, k);
    SettledHeads(net.genesis, net.decided, v.node.geth, k);
    HeadsWithMoreDecided(net.genesis, net.decided, txs);
  }

  /** Deciding one more block changes nothing for the validators. */
  lemma GoodWithMoreDecided(genesis: Hash, decided: seq<seq<Tx>>, txs: seq<Tx>, v: Validator)
    requires AllPayloads(decided) && HasPayload(txs) && Good(genesis, decided, v)
    ensures AllPayloads(decided + [txs]) && Good(genesis, decided + [txs], v)
  {
    var more := decided + [txs];
    HeadsWithMoreDecided(genesis, decided, txs);
    var k: nat :| k <= |decided| && GoodAt(genesis, decided, v, k);
    assert Settled(genesis, more, v.node.geth, k);
    if k < |decided| && Settled(genesis, decided, v.node.geth, k + 1) {
      assert Settled(genesis, more, v.node.geth, k + 1);
    }
    assert GoodAt(genesis, more, v, k);
  }

  lemma NetworkStepKeeps(net: Network, e: Event)
    requires Inv(net)
    ensures Inv(NetworkStep(net, e))
  {
    if e.v < |net.validators| {
      var v := net.validators[e.v];
      if e.Decide? {
        if CanDecide(net, v, e.txs) {
          DecideKeepsChain(net, v, e.txs);
          forall w <- net.validators
            ensures Good(net.genesis, net.decided + [e.txs], w)
          {
            GoodWithMoreDecided(net.genesis, net.decided, e.txs, w);
          }
        }
      } else {
        ValidatorStepKeeps(net.genesis, net.decided, v, e);
      }
    }
  }

  lemma {:induction false} RunKeeps(net: Network, events: seq<Event>)
    requires Inv(net)
    ensures Inv(Run(net, events))
    decreases |events|
  {
    if events != [] {
      NetworkStepKeeps(net, events[0]);
      RunKeeps(NetworkStep(net, events[0]), events[1..]);
    }
  }

  lemma InitialIsGood(net: Network)
    requires Initial(net)
    ensures Inv(net)
  {
    forall v <- net.validators
      ensures Good(net.genesis, net.decided, v)
    {
      assert GoodAt(net.genesis, net.decided, v, 0);
    }
  }

  // ---------------------------------------------------------------------------------------
  // Agreement
  // ---------------------------------------------------------------------------------------

  /** After any run: the decided payloads form one chain; two running validators at the same height
      hold the same head, which is that of the decided chain at this height, persisted as well, if the height
      is at least 1 or nothing has been decided; and every app hash ever reported, by FinalizeBlock or Info,
      on whichever validator, is that of the decided block of the reported height, with one result of code 0
      for each of its transactions if FinalizeBlock reports it. */
  lemma ValidatorsAgree(net: Network, events: seq<Event>)
    requires Initial(net)
    ensures var end := Run(net, events);
      && IsChain(net.genesis, end.decided)
      && (forall v <- end.validators | v.up && (v.height > 0 || end.decided == []) ::
            && v.height <= |end.decided|
            && v.node.cached == v.node.persisted == Some(HeadAt(net.genesis, end.decided, v.height))
            && v.node.geth.head in
                 {HeadAt(net.genesis, end.decided, v.height).hash,
                  HeadAt(net.genesis, end.decided, if v.height < |end.decided| then v.height + 1 else v.height).hash})
      && (forall v <- end.validators, r <- v.reports ::
            && r.height <= |end.decided|
            && r.appHash == HeadAt(net.genesis, end.decided, r.height).hash
            && (r.results.Some? ==>
                  && r.height > 0
                  && |r.results.value| == |end.decided[r.height - 1]|
                  && forall i | 0 <= i < |r.results.value| :: r.results.value[i] == 0))
  {
    InitialIsGood(net);
    RunKeeps(net, events);
    var end := Run(net, events);
    forall v <- end.validators | v.up && (v.height > 0 || end.decided == [])
      ensures exists k: nat :: k <= |end.decided| && k == v.height && GoodAt(net.genesis, end.decided, v, k)
    {
      assert Good(net.genesis, end.decided, v);
    }
  }
}
