/** How often an engine call of the builder is tried, and what the caller gets. */
module Retrying {
  import opened Outcomes
  import opened Blocks
  import opened Execution
  import opened BlockBuilder

  /** Geth after the first k attempts. */
  function GethAfter(g: Geth, op: Operation, calls: seq<Call>, k: nat): Geth {
    if k == 0 then g else
    var before := GethAfter(g, op, calls, k - 1);
    var c := CallAt(calls, k - 1);
    if c.Called? then Perform(before, op, c).0 else before
  }

  /** Attempt i went out, failed for now, and left time for another one. */
  predicate Retried(g: Geth, op: Operation, calls: seq<Call>, i: nat) {
    var c := CallAt(calls, i);
    c.Called? && !c.late && Perform(GethAfter(g, op, calls, i), op, c).1.Transient?
  }

  lemma {:induction false} RetryReaches(g: Geth, op: Operation, calls: seq<Call>, k: nat)
    requires k <= 10
    requires forall i: nat | i < k :: Retried(g, op, calls, i)
    ensures Retry(g, op, calls, 0) == Retry(GethAfter(g, op, calls, k), op, calls, k)
    decreases k
  {
    if k > 0 {
      RetryReaches(g, op, calls, k - 1);
      assert Retried(g, op, calls, k - 1);
    }
  }

  /** If attempts 0 to k - 1 are retried and k is at most 10, the result is that of attempt k, unless that is retried
      too; after eleven attempts that fail for now there is no further one. */
  lemma RetryEndsAt(g: Geth, op: Operation, calls: seq<Call>, k: nat)
    requires k <= 10
    requires forall i: nat | i < k :: Retried(g, op, calls, i)
    ensures var before := GethAfter(g, op, calls, k);
      var c := CallAt(calls, k);
      if c.Cancelled? then Retry(g, op, calls, 0) == (before, Err(Context))
      else
        var (g', outcome) := Perform(before, op, c);
        match outcome
        case Success(reply) => Retry(g, op, calls, 0) == (g', Ok(reply))
        case Permanent(error) => Retry(g, op, calls, 0) == (g', Err(error))
        case Transient => k == 10 || c.late ==> Retry(g, op, calls, 0) == (g', Err(Exhausted))
  {
    RetryReaches(g, op, calls, k);
  }

  /** Every retried call ends so at one of eleven attempts. */
  lemma RetryEnds(g: Geth, op: Operation, calls: seq<Call>) returns (k: nat)
    ensures k <= 10
    ensures forall i: nat | i < k :: Retried(g, op, calls, i)
    ensures k < 10 ==> !Retried(g, op, calls, k)
  {
    k := 0;
    while k < 10 && Retried(g, op, calls, k)
      invariant k <= 10
      invariant forall i: nat | i < k :: Retried(g, op, calls, i)
    {
      k := k + 1;
    }
  }

  /** What an attempt leads to: it is retried exactly if no reply arrives, or Geth refuses the attributes; it is final
      and unsuccessful exactly if Geth does not know the head to build on, starts no build, or judges a payload
      INVALID. */
  lemma AttemptKinds(g: Geth, op: Operation, c: Call)
    requires c.Called?
    ensures var (_, outcome) := Perform(g, op, c);
      && (outcome.Transient?
          <==> || !c.fault.Delivered?
               || (op.StartBuild? && g.Forkchoice(op.head, Some(op.attributes), c.skip).1.Err?))
      && (c.fault.Delivered? ==>
            && (outcome == Permanent(RefusedStatus(SYNCING)) <==> op.StartBuild? && op.head !in g.known)
            && (outcome == Permanent(NoPayloadId)
                <==> op.StartBuild? && op.head in g.known && c.skip && g.head.DescendsFrom(op.head))
            && (outcome == Permanent(Invalid)
                <==> op.Push? && g.NewPayload(op.payload, op.beaconRoot, op.requests).1 == INVALID))
  {
  }

  /** The errors that an engine call can end with. */
  lemma RetryErrors(g: Geth, op: Operation, calls: seq<Call>)
    ensures var (_, r) := Retry(g, op, calls, 0);
      r.Err? ==> r.error in {Context, Exhausted, NoPayloadId, Invalid} || r.error.RefusedStatus?
  {
    var k := RetryEnds(g, op, calls);
    RetryEndsAt(g, op, calls, k);
  }

  // ---------------------------------------------------------------------------------------
  // Calls that get through
  // ---------------------------------------------------------------------------------------

  /** The first attempt that is delivered is number k of at most eleven, and none before it ends the retries. */
  predicate PromptAt(calls: seq<Call>, k: nat) {
    && k <= 10
    && CallAt(calls, k).Called? && CallAt(calls, k).fault.Delivered?
    && forall i: nat | i < k ::
         CallAt(calls, i).Called? && !CallAt(calls, i).late && !CallAt(calls, i).fault.Delivered?
  }

  lemma PromptIsReached(g: Geth, op: Operation, calls: seq<Call>, k: nat)
    requires PromptAt(calls, k)
    ensures forall i: nat | i < k :: Retried(g, op, calls, i)
  {
    forall i: nat | i < k
      ensures Retried(g, op, calls, i)
    {
      AttemptKinds(GethAfter(g, op, calls, i), op, CallAt(calls, i));
    }
  }

  lemma PromptHeader(g: Geth, calls: seq<Call>, k: nat)
    requires PromptAt(calls, k)
    ensures Retry(g, ReadHeader, calls, 0) == (g, Ok(HeaderReply(HeadOf(g.head))))
  {
    PromptIsReached(g, ReadHeader, calls, k);
    RetryEndsAt(g, ReadHeader, calls, k);
    ReadOnlyRetries(g, ReadHeader, calls, 0);
  }

  /** The content of the block is what the delivered fetch finds. */
  lemma PromptFetch(g: Geth, id: PayloadId, calls: seq<Call>, k: nat)
    requires PromptAt(calls, k)
    ensures Retry(g, Fetch(id), calls, 0) == (g, Ok(EnvelopeReply(Build(id, CallAt(calls, k).fill))))
    ensures FetchedFill(calls, 0) == CallAt(calls, k).fill
  {
    PromptIsReached(g, Fetch(id), calls, k);
    RetryEndsAt(g, Fetch(id), calls, k);
    ReadOnlyRetries(g, Fetch(id), calls, 0);
    FillOfPrompt(calls, k, 0);
  }

  lemma {:induction false} FillOfPrompt(calls: seq<Call>, k: nat, attempt: nat)
    requires PromptAt(calls, k) && attempt <= k
    ensures FetchedFill(calls, attempt) == CallAt(calls, k).fill
    decreases k - attempt
  {
    if attempt < k {
      FillOfPrompt(calls, k, attempt + 1);
    }
  }

  /** As long as Geth is not told to skip the update, every build request leaves it at the head or where it was. */
  lemma {:induction false} GethAfterStarts(g: Geth, h: Hash, attributes: Attributes, calls: seq<Call>, k: nat)
    requires h in g.known
    ensures GethAfter(g, StartBuild(h, attributes), calls, k) in {g, g.(head := h)}
    decreases k
  {
    if k > 0 {
      GethAfterStarts(g, h, attributes, calls, k - 1);
    }
  }

  lemma PromptStart(g: Geth, h: Hash, attributes: Attributes, calls: seq<Call>, k: nat)
    requires PromptAt(calls, k) && !CallAt(calls, k).skip
    requires h in g.known && attributes.timestamp > h.Time() && h.Number() < MAX_UINT64
    ensures Retry(g, StartBuild(h, attributes), calls, 0) == (g.(head := h), Ok(IdReply(PayloadId(h, attributes))))
  {
    PromptIsReached(g, StartBuild(h, attributes), calls, k);
    RetryEndsAt(g, StartBuild(h, attributes), calls, k);
    GethAfterStarts(g, h, attributes, calls, k);
  }

  lemma {:induction false} GethAfterPushes(
    g: Geth, p: Payload, root: Hash, requests: Requests, calls: seq<Call>, k: nat)
    requires p.blockHash == p.Seal(root, requests) && p.blockHash.Extends(p.parentHash) && p.body.sound
    requires p.parentHash in g.known
    ensures GethAfter(g, Push(p, root, requests), calls, k) in {g, g.(known := g.known + {p.blockHash})}
    decreases k
  {
    if k > 0 {
      GethAfterPushes(g, p, root, requests, calls, k - 1);
    }
  }

  lemma PromptPush(g: Geth, p: Payload, root: Hash, requests: Requests, calls: seq<Call>, k: nat)
    requires PromptAt(calls, k)
    requires p.blockHash == p.Seal(root, requests) && p.blockHash.Extends(p.parentHash) && p.body.sound
    requires p.parentHash in g.known
    ensures Retry(g, Push(p, root, requests), calls, 0) == (g.(known := g.known + {p.blockHash}), Ok(Done))
  {
    PromptIsReached(g, Push(p, root, requests), calls, k);
    RetryEndsAt(g, Push(p, root, requests), calls, k);
    GethAfterPushes(g, p, root, requests, calls, k);
    if p.blockHash in g.known {
      assert g.known + {p.blockHash} == g.known;
    }
  }

  lemma {:induction false} GethAfterChoices(g: Geth, h: Hash, calls: seq<Call>, k: nat)
    requires h in g.known
    ensures GethAfter(g, Choose(h), calls, k) in {g, g.(head := h)}
    decreases k
  {
    if k > 0 {
      GethAfterChoices(g, h, calls, k - 1);
    }
  }

  lemma PromptChoose(g: Geth, h: Hash, calls: seq<Call>, k: nat)
    requires PromptAt(calls, k)
    requires h in g.known && !g.head.DescendsFrom(h)
    ensures Retry(g, Choose(h), calls, 0) == (g.(head := h), Ok(Done))
  {
    PromptIsReached(g, Choose(h), calls, k);
    RetryEndsAt(g, Choose(h), calls, k);
    GethAfterChoices(g, h, calls, k);
    if h.DescendsFrom(h) {
      DescentIsWellFounded(h, h);
    }
  }
}
