/** 03-member-nodes/pkg/state/state.go: the build state, kept in Redis with a local fallback. */
module StateManager {
  import opened Outcomes
  import opened BuildState
  import opened RedisClient

  const STATE_TTL: nat := 300_000

  /** The Redis entry and the local copy. */
  datatype Copies = Copies(remote: Entry, local: BlockBuildState)

  function SaveStep(c: Copies, s: BlockBuildState, now: nat, f: Fault): (Copies, bool) {
    (Copies(if f.Lost? then c.remote else Entry(StateJson(s), now + STATE_TTL), if f.Delivered? then s else c.local),
     f.Delivered?)
  }

  function GetStep(c: Copies, now: nat, f: Fault): BlockBuildState {
    if f.Delivered? && c.remote.Entry? && now < c.remote.expiry && c.remote.text.StateJson? then c.remote.text.state
    else c.local
  }

  function ResetStep(c: Copies, now: nat, f: Fault): (Copies, bool) {
    (Copies(if f.Lost? then c.remote else Entry(StateJson(FRESH), now + STATE_TTL), FRESH), f.Delivered?)
  }

  class RedisStateManager {
    const client: Client
    var localState: BlockBuildState

    constructor (client: Client)
      ensures this.client == client && localState == FRESH
    {
      this.client := client;
      localState := FRESH;
    }

    ghost function State(): Copies
      reads this, client
    {
      Copies(client.state, localState)
    }

    method SaveBlockState(s: BlockBuildState, now: nat, f: Fault) returns (ok: bool)
      modifies this, client`state
      ensures (State(), ok) == SaveStep(old(State()), s, now, f)
    {
      var r := client.SetState(StateJson(s), now, STATE_TTL, f);
      if r.Err? {
        return false;
      }
      localState := s;
      ok := true;
    }

    method GetBlockBuildState(now: nat, f: Fault) returns (s: BlockBuildState)
      ensures s == GetStep(State(), now, f)
    {
      var data := client.GetState(now, f);
      if data.Ok? && data.value != EmptyText {
        if data.value.StateJson? {
          return data.value.state;
        }
      }
      s := localState;
    }

    method ResetBlockState(now: nat, f: Fault) returns (ok: bool)
      modifies this, client`state
      ensures (State(), ok) == ResetStep(old(State()), now, f)
    {
      localState := FRESH;
      var r := client.SetState(StateJson(FRESH), now, STATE_TTL, f);
      ok := r.Ok?;
    }
  }

  // ---------------------------------------------------------------------------------------
  // What a read returns
  // ---------------------------------------------------------------------------------------

  /** From any copies, whatever happened to them before: a save that reports success is what the next read
      returns, however long it takes, whether Redis answers it or not, and expired or not. */
  lemma ReadYourSave(c: Copies, now: nat, s: BlockBuildState, saved: Fault, delay: nat, read: Fault)
    ensures var (after, ok) := SaveStep(c, s, now, saved);
      ok ==> GetStep(after, now + delay, read) == s
  {
  }

  /** What cannot be read falls back to the local copy: no answer, no entry, an expired one, or a text that does not
      decode. */
  lemma UnreadableFallsBack(c: Copies, now: nat, f: Fault)
    requires !f.Delivered? || c.remote.Missing? || c.remote.expiry <= now || c.remote.text.EmptyText?
             || c.remote.text.Garbled?
    ensures GetStep(c, now, f) == c.local
  {
  }

  /** A save that reports failure is read back only from Redis, if it got there, and for five minutes; any other read
      returns what it would have returned before. */
  lemma ReadAfterFailedSave(c: Copies, now: nat, s: BlockBuildState, saved: Fault, delay: nat, read: Fault)
    requires !saved.Delivered?
    ensures var (after, ok) := SaveStep(c, s, now, saved);
      && !ok
      && (saved.Lost? ==> after == c)
      && (saved.Unacknowledged? ==>
            GetStep(after, now + delay, read) == if read.Delivered? && delay < 300_000 then s else c.local)
  {
  }

  /** A reset is weaker: the next read returns the reset state exactly if Redis applied the reset, or
      does not serve the older value it still holds, or that value is itself the reset state. */
  lemma ReadYourReset(c: Copies, now: nat, reset: Fault, delay: nat, read: Fault)
    ensures var (after, ok) := ResetStep(c, now, reset);
      && ok == reset.Delivered?
      && (GetStep(after, now + delay, read) == BlockBuildState(StepBuildBlock, None, Absent, Absent)
          <==> || !reset.Lost?
               || !read.Delivered?
               || !(c.remote.Entry? && now + delay < c.remote.expiry && c.remote.text.StateJson?)
               || c.remote.text.state == FRESH)
  {
  }
}
