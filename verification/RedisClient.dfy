/** 03-member-nodes/pkg/redis/client.go: atomic steps on the lease key, the build-state key, and the stream. */
module RedisClient {
  import opened Outcomes
  import opened Blocks
  import opened BuildState

  /** A key that holds an owner until it expires. Times are in milliseconds. */
  datatype Lease = Free | Held(owner: nat, expiry: nat)
  {
    predicate Live(now: nat) {
      Held? && now < expiry
    }

    predicate LiveFor(id: nat, now: nat) {
      Live(now) && owner == id
    }
  }

  function SetNX(key: Lease, id: nat, now: nat, ttl: nat): (Lease, bool) {
    if key.Live(now) then (key, false) else (Held(id, now + ttl), true)
  }

  /** The compare-and-renew script. */
  function RenewIfValue(key: Lease, id: nat, now: nat, ttl: nat): (Lease, bool) {
    if key.LiveFor(id, now) then (Held(id, now + ttl), true) else (key, false)
  }

  /** The compare-and-delete script. */
  function DelIfValue(key: Lease, id: nat, now: nat): (Lease, bool) {
    if key.LiveFor(id, now) then (Free, true) else (key, false)
  }

  /** What the three commands promise: only a key that is free or expired is set, only the holder's own live key is
      renewed or deleted, a grant lasts for its time to live, and a refusal changes nothing. */
  lemma KeyCommands(key: Lease, id: nat, now: nat, ttl: nat)
    ensures SetNX(key, id, now, ttl).1 <==> key.Free? || key.expiry <= now
    ensures RenewIfValue(key, id, now, ttl).1 <==> key.Held? && now < key.expiry && key.owner == id
    ensures DelIfValue(key, id, now).1 <==> key.Held? && now < key.expiry && key.owner == id
    ensures SetNX(key, id, now, ttl).0 == if key.Free? || key.expiry <= now then Held(id, now + ttl) else key
    ensures !RenewIfValue(key, id, now, ttl).1 ==> RenewIfValue(key, id, now, ttl).0 == key
    ensures RenewIfValue(key, id, now, ttl).1 ==> RenewIfValue(key, id, now, ttl).0 == Held(id, now + ttl)
    ensures DelIfValue(key, id, now).0 == if DelIfValue(key, id, now).1 then Free else key
  {
  }

  /** Commands of other instances that reach Redis while this one waits, and the passing of time. */
  datatype Other = Wait(ms: nat) | OtherNx(id: nat) | OtherRenew(id: nat) | OtherDel(id: nat)

  function Meanwhile(key: Lease, now: nat, ttl: nat, others: seq<Other>): (Lease, nat)
    decreases |others|
  {
    if others == [] then (key, now) else
    match others[0]
    case Wait(ms) => Meanwhile(key, now + ms, ttl, others[1..])
    case OtherNx(id) => Meanwhile(SetNX(key, id, now, ttl).0, now, ttl, others[1..])
    case OtherRenew(id) => Meanwhile(RenewIfValue(key, id, now, ttl).0, now, ttl, others[1..])
    case OtherDel(id) => Meanwhile(DelIfValue(key, id, now).0, now, ttl, others[1..])
  }

  datatype RedisError = ConnectionError | KeyNotFound

  /** A value stored with an expiry. */
  datatype Entry = Missing | Entry(text: StateText, expiry: nat)

  function Lookup(e: Entry, now: nat): Result<StateText, RedisError> {
    if e.Entry? && now < e.expiry then Ok(e.text) else Err(KeyNotFound)
  }

  /** A stream entry; `at` is the publisher's clock. */
  datatype Published = Published(hash: Hash, data: Data, number: Uint64, at: nat)

  class Client {
    var lease: Lease
    var state: Entry
    var stream: seq<Published>

    constructor ()
      ensures lease == Free && state == Missing && stream == []
    {
      lease := Free;
      state := Missing;
      stream := [];
    }

    method SetLeaseNX(id: nat, now: nat, ttl: nat, f: Fault) returns (r: Result<bool, RedisError>)
      modifies this`lease
      ensures (lease, r) ==
        Remote(old(lease), SetNX(old(lease), id, now, ttl).0, Ok(SetNX(old(lease), id, now, ttl).1), ConnectionError, f)
    {
      var granted := false;
      if !f.Lost? && !lease.Live(now) {
        lease := Held(id, now + ttl);
        granted := true;
      }
      r := if f.Delivered? then Ok(granted) else Err(ConnectionError);
    }

    method RenewLease(id: nat, now: nat, ttl: nat, f: Fault) returns (r: Result<bool, RedisError>)
      modifies this`lease
      ensures (lease, r) ==
        Remote(old(lease), RenewIfValue(old(lease), id, now, ttl).0, Ok(RenewIfValue(old(lease), id, now, ttl).1),
               ConnectionError, f)
    {
      var renewed := false;
      if !f.Lost? && lease.LiveFor(id, now) {
        lease := Held(id, now + ttl);
        renewed := true;
      }
      r := if f.Delivered? then Ok(renewed) else Err(ConnectionError);
    }

    method DeleteLease(id: nat, now: nat, f: Fault) returns (r: Result<bool, RedisError>)
      modifies this`lease
      ensures (lease, r) ==
        Remote(old(lease), DelIfValue(old(lease), id, now).0, Ok(DelIfValue(old(lease), id, now).1), ConnectionError, f)
    {
      var deleted := false;
      if !f.Lost? && lease.LiveFor(id, now) {
        lease := Free;
        deleted := true;
      }
      r := if f.Delivered? then Ok(deleted) else Err(ConnectionError);
    }

    /** The environment's turn between two commands of this instance. */
    method OthersRun(now: nat, ttl: nat, others: seq<Other>) returns (later: nat)
      modifies this`lease
      ensures (lease, later) == Meanwhile(old(lease), now, ttl, others)
    {
      later := now;
      for i := 0 to |others|
        invariant Meanwhile(lease, later, ttl, others[i..]) == Meanwhile(old(lease), now, ttl, others)
      {
        assert others[i..][1..] == others[i + 1..];
        match others[i]
        case Wait(ms) => later := later + ms;
        case OtherNx(id) => lease := SetNX(lease, id, later, ttl).0;
        case OtherRenew(id) => lease := RenewIfValue(lease, id, later, ttl).0;
        case OtherDel(id) => lease := DelIfValue(lease, id, later).0;
      }
      assert others[|others|..] == [];
    }

    method SetState(text: StateText, now: nat, ttl: nat, f: Fault) returns (r: Result<(), RedisError>)
      modifies this`state
      ensures (state, r) == Remote(old(state), Entry(text, now + ttl), Ok(()), ConnectionError, f)
    {
      if !f.Lost? {
        state := Entry(text, now + ttl);
      }
      r := if f.Delivered? then Ok(()) else Err(ConnectionError);
    }

    method GetState(now: nat, f: Fault) returns (r: Result<StateText, RedisError>)
      ensures r == if f.Delivered? then Lookup(state, now) else Err(ConnectionError)
    {
      if !f.Delivered? {
        return Err(ConnectionError);
      }
      r := if state.Entry? && now < state.expiry then Ok(state.text) else Err(KeyNotFound);
    }

    method PublishBlock(hash: Hash, data: Data, number: Uint64, at: nat, f: Fault)
      returns (r: Result<(), RedisError>)
      modifies this`stream
      ensures (stream, r) ==
        Remote(old(stream), old(stream) + [Published(hash, data, number, at)], Ok(()), ConnectionError, f)
    {
      if !f.Lost? {
        stream := stream + [Published(hash, data, number, at)];
      }
      r := if f.Delivered? then Ok(()) else Err(ConnectionError);
    }
  }
}
