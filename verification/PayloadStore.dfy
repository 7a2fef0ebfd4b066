/** 03-member-nodes/pkg/postgres/store.go: the table of payloads, unique by number and by hash. */
module PayloadStore {
  import opened Outcomes
  import opened Blocks
  import opened BuildState

  datatype Row = Row(
    number: Uint64, hash: Hash, parentHash: Hash, payloadData: Data, requestsData: Data, timestamp: Int64)

  type Table = map<nat, Row>

  datatype StoreError = NoRows | OutOfRange | DuplicateHash | ConnectionFailed

  // ---------------------------------------------------------------------------------------
  // The queries
  // ---------------------------------------------------------------------------------------

  predicate HashTaken(t: Table, p: Row) {
    exists n <- t :: n != p.number && t[n].hash == p.hash
  }

  /** INSERT ... ON CONFLICT (block_number) DO UPDATE. Numbers above the BIGINT range cannot be sent,
      and a hash that stands under another number violates the unique constraint. */
  function Upsert(t: Table, p: Row): (Table, Result<(), StoreError>) {
    if p.number > MAX_INT64 then (t, Err(OutOfRange))
    else if HashTaken(t, p) then (t, Err(DuplicateHash))
    else (t[p.number := p], Ok(()))
  }

  function SaveCall(t: Table, p: Row, f: Fault): (Table, Result<(), StoreError>) {
    var (t', r) := Upsert(t, p);
    Remote(t, t', r, ConnectionFailed, f)
  }

  /** WHERE block_number >= from ORDER BY block_number ASC LIMIT limit: the numbers are tried in order. */
  function Ascending(t: Table, from: nat, limit: nat): seq<Row>
    decreases MAX_INT64 + 1 - from
  {
    if limit == 0 || from > MAX_INT64 then []
    else if from in t then [t[from]] + Ascending(t, from + 1, limit - 1)
    else Ascending(t, from + 1, limit)
  }

  function AfterCall(t: Table, after: Uint64, limit: nat, f: Fault): Result<seq<Row>, StoreError> {
    if after > MAX_INT64 then Err(OutOfRange)
    else if !f.Delivered? then Err(ConnectionFailed)
    else Ok(Ascending(t, after + 1, limit))
  }

  /** ORDER BY block_number DESC LIMIT 1, from a number down. */
  function Latest(t: Table, from: nat): Result<Row, StoreError> {
    if from in t then Ok(t[from]) else if from == 0 then Err(NoRows) else Latest(t, from - 1)
  }

  function LatestCall(t: Table, f: Fault): Result<Row, StoreError> {
    if f.Delivered? then Latest(t, MAX_INT64) else Err(ConnectionFailed)
  }

  function NumberCall(t: Table, number: Uint64, f: Fault): Result<Row, StoreError> {
    if number > MAX_INT64 then Err(OutOfRange)
    else if !f.Delivered? then Err(ConnectionFailed)
    else if number in t then Ok(t[number]) else Err(NoRows)
  }

  /** What the table constraints guarantee. */
  ghost predicate WellFormed(t: Table) {
    && (forall n <- t :: n <= MAX_INT64 && t[n].number == n)
    && (forall m <- t, n <- t | t[m].hash == t[n].hash :: m == n)
  }

  // ---------------------------------------------------------------------------------------
  // The store
  // ---------------------------------------------------------------------------------------

  /** `hashText` is the text of a hash, as it stands in the table and in URLs. */
  class Store {
    const hashText: Hash -> string
    var rows: Table

    constructor (hashText: Hash -> string)
      ensures rows == map[] && this.hashText == hashText
    {
      this.hashText := hashText;
      rows := map[];
    }

    method SavePayload(p: Row, f: Fault) returns (r: Result<(), StoreError>)
      modifies this
      ensures (rows, r) == SaveCall(old(rows), p, f)
    {
      if f.Lost? {
        return Err(ConnectionFailed);
      }
      if p.number > MAX_INT64 {
        return if f.Delivered? then Err(OutOfRange) else Err(ConnectionFailed);
      }
      if HashTaken(rows, p) {
        return if f.Delivered? then Err(DuplicateHash) else Err(ConnectionFailed);
      }
      rows := rows[p.number := p];
      r := if f.Delivered? then Ok(()) else Err(ConnectionFailed);
    }

    method GetPayloadByNumber(number: Uint64, f: Fault) returns (r: Result<Row, StoreError>)
      ensures r == NumberCall(rows, number, f)
    {
      if number > MAX_INT64 {
        return Err(OutOfRange);
      }
      if !f.Delivered? {
        return Err(ConnectionFailed);
      }
      if number !in rows {
        return Err(NoRows);
      }
      r := Ok(rows[number]);
    }

    method GetPayloadByHash(text: string, f: Fault) returns (r: Result<Row, StoreError>)
      ensures r.Ok? ==> r.value in rows.Values && hashText(r.value.hash) == text
      ensures r == Err(NoRows) <==> f.Delivered? && forall n <- rows :: hashText(rows[n].hash) != text
      ensures r.Err? && r.error != NoRows <==> r == Err(ConnectionFailed)
      ensures r == Err(ConnectionFailed) <==> !f.Delivered?
    {
      if !f.Delivered? {
        return Err(ConnectionFailed);
      }
      var left := rows.Keys;
      while left != {}
        invariant left <= rows.Keys
        invariant forall n <- rows.Keys - left :: hashText(rows[n].hash) != text
        decreases |left|
      {
        var n :| n in left;
        if hashText(rows[n].hash) == text {
          return Ok(rows[n]);
        }
        left := left - {n};
      }
      r := Err(NoRows);
    }

    method GetLatestPayload(f: Fault) returns (r: Result<Row, StoreError>)
      ensures r == LatestCall(rows, f)
    {
      if !f.Delivered? {
        return Err(ConnectionFailed);
      }
      r := Latest(rows, MAX_INT64);
    }

    /** The rows that the query selects are fetched one by one and appended. */
    method GetPayloadsAfter(after: Uint64, limit: nat, f: Fault) returns (r: Result<seq<Row>, StoreError>)
      ensures r == AfterCall(rows, after, limit, f)
    {
      if after > MAX_INT64 {
        return Err(OutOfRange);
      }
      if !f.Delivered? {
        return Err(ConnectionFailed);
      }
      var selected := Ascending(rows, after + 1, limit);
      var payloads := [];
      for i := 0 to |selected|
        invariant payloads == selected[..i]
      {
        payloads := payloads + [selected[i]];
      }
      assert selected[..|selected|] == selected;
      r := Ok(payloads);
    }
  }

  // ---------------------------------------------------------------------------------------
  // Two unique keys
  // ---------------------------------------------------------------------------------------

  /** A save keeps both keys unique. It fails and changes nothing exactly if the number is out of range
      or the hash belongs to another number; otherwise it changes the row of its number only. */
  lemma SaveKeepsKeys(t: Table, p: Row, f: Fault)
    requires WellFormed(t)
    ensures var (t', r) := SaveCall(t, p, f);
      && WellFormed(t')
      && (t' == t || t' == t[p.number := p])
      && (r.Ok? ==> p.number in t' && t'[p.number] == p)
      && (f.Delivered? ==>
            (r.Err? <==> p.number > MAX_INT64 || exists n <- t :: n != p.number && t[n].hash == p.hash)
            && (r.Err? ==> t' == t))
  {
  }

  /** Why a save or a query fails: a number outside the column's range is refused before the database is asked, and
      then only the connection, a taken hash or a missing row can be the reason. */
  lemma QueryErrors(t: Table, number: Uint64, limit: nat, row: Row, f: Fault)
    ensures SaveCall(t, row, f).1 == Err(ConnectionFailed) <==> !f.Delivered?
    ensures SaveCall(t, row, f).1 == Err(OutOfRange) <==> f.Delivered? && row.number > MAX_INT64
    ensures SaveCall(t, row, f).1 == Err(DuplicateHash)
            <==> && f.Delivered? && row.number <= MAX_INT64
                 && exists n <- t :: n != row.number && t[n].hash == row.hash
    ensures NumberCall(t, number, f) == Err(OutOfRange) <==> number > MAX_INT64
    ensures NumberCall(t, number, f) == Err(ConnectionFailed) <==> number <= MAX_INT64 && !f.Delivered?
    ensures NumberCall(t, number, f) == Err(NoRows) <==> number <= MAX_INT64 && f.Delivered? && number !in t
    ensures AfterCall(t, number, limit, f) == Err(OutOfRange) <==> number > MAX_INT64
    ensures AfterCall(t, number, limit, f) == Err(ConnectionFailed) <==> number <= MAX_INT64 && !f.Delivered?
    ensures LatestCall(t, f) == Err(ConnectionFailed) ==> !f.Delivered?
    ensures !f.Delivered? ==> LatestCall(t, f) == Err(ConnectionFailed)
  {
    LatestIsNotAConnection(t, MAX_INT64);
  }

  lemma {:induction false} LatestIsNotAConnection(t: Table, from: nat)
    ensures Latest(t, from) != Err(ConnectionFailed)
    decreases from
  {
    if from !in t && from > 0 {
      LatestIsNotAConnection(t, from - 1);
    }
  }

  datatype SaveOp = SaveOp(row: Row, fault: Fault)

  function Saves(t: Table, ops: seq<SaveOp>): Table
    decreases |ops|
  {
    if ops == [] then t else Saves(SaveCall(t, ops[0].row, ops[0].fault).0, ops[1..])
  }

  lemma {:induction false} SavesKeepKeys(t: Table, ops: seq<SaveOp>)
    requires WellFormed(t)
    ensures WellFormed(Saves(t, ops))
    decreases |ops|
  {
    if ops != [] {
      SaveKeepsKeys(t, ops[0].row, ops[0].fault);
      SavesKeepKeys(SaveCall(t, ops[0].row, ops[0].fault).0, ops[1..]);
    }
  }

  lemma {:induction false} LatestIsMaximum(t: Table, from: nat)
    requires forall n <- t :: n <= from
    ensures Latest(t, from).Ok? <==> t != map[]
    ensures Latest(t, from).Ok? ==> exists m <- t :: Latest(t, from).value == t[m] && forall n <- t :: n <= m
  {
    if from !in t && from > 0 {
      LatestIsMaximum(t, from - 1);
    }
    if from !in t && from == 0 {
      assert t.Keys == {};
    }
  }

  // ---------------------------------------------------------------------------------------
  // Paging
  // ---------------------------------------------------------------------------------------

  /** All rows with from <= number <= upto, ascending. */
  function Between(t: Table, from: nat, upto: nat): seq<Row>
    decreases upto + 1 - from
  {
    if from > upto then [] else (if from in t then [t[from]] else []) + Between(t, from + 1, upto)
  }

  /** What Between means: the rows of the range, each exactly once, in ascending order. */
  lemma {:induction false} BetweenIsExact(t: Table, from: nat, upto: nat)
    requires WellFormed(t)
    ensures forall n: nat | from <= n <= upto && n in t :: t[n] in Between(t, from, upto)
    ensures forall row <- Between(t, from, upto) ::
              from <= row.number <= upto && row.number in t && t[row.number] == row
    ensures forall i, j | 0 <= i < j < |Between(t, from, upto)| ::
              Between(t, from, upto)[i].number < Between(t, from, upto)[j].number
    decreases upto + 1 - from
  {
    if from <= upto {
      BetweenIsExact(t, from + 1, upto);
    }
  }

  lemma {:induction false} BetweenSplits(t: Table, from: nat, mid: nat, upto: nat)
    requires from <= mid + 1 && mid <= upto
    ensures Between(t, from, upto) == Between(t, from, mid) + Between(t, mid + 1, upto)
    decreases mid + 1 - from
  {
    if from <= mid {
      BetweenSplits(t, from + 1, mid, upto);
    }
  }

  lemma {:induction false} BetweenUnchanged(t: Table, t': Table, from: nat, upto: nat)
    requires forall n | from <= n <= upto :: (n in t <==> n in t') && (n in t ==> t[n] == t'[n])
    ensures Between(t, from, upto) == Between(t', from, upto)
    decreases upto + 1 - from
  {
    if from <= upto {
      BetweenUnchanged(t, t', from + 1, upto);
    }
  }

  /** The last number of a page, or where it started. */
  function LastOf(page: seq<Row>, cursor: nat): nat {
    if page == [] then cursor else page[|page| - 1].number
  }

  /** A page holds rows of the table, from its start on. */
  lemma {:induction false} PageRows(t: Table, from: nat, limit: nat)
    requires WellFormed(t)
    ensures |Ascending(t, from, limit)| <= limit
    ensures (forall n <- t :: n < from) ==> Ascending(t, from, limit) == []
    ensures forall row <- Ascending(t, from, limit) ::
              from <= row.number <= MAX_INT64 && row.number in t && row == t[row.number]
    decreases MAX_INT64 + 1 - from
  {
    if limit > 0 && from <= MAX_INT64 {
      PageRows(t, from + 1, if from in t then limit - 1 else limit);
    }
  }

  /** A page is a prefix of all rows from its start on, as long as its limit allows. */
  lemma {:induction false} PageIsPrefix(t: Table, from: nat, limit: nat)
    ensures var page := Ascending(t, from, limit);
      && page <= Between(t, from, MAX_INT64)
      && (|page| == limit || page == Between(t, from, MAX_INT64))
    decreases MAX_INT64 + 1 - from
  {
    if limit > 0 && from <= MAX_INT64 {
      PageIsPrefix(t, from + 1, if from in t then limit - 1 else limit);
    }
  }

  /** A page is all rows from its start to its last row. */
  lemma {:induction false} PageIsBetween(t: Table, from: nat, limit: nat)
    requires WellFormed(t) && 0 < from
    ensures var last := LastOf(Ascending(t, from, limit), from - 1);
      from - 1 <= last && Ascending(t, from, limit) == Between(t, from, last)
    decreases MAX_INT64 + 1 - from
  {
    if limit > 0 && from <= MAX_INT64 {
      var page := Ascending(t, from, limit);
      var rest := Ascending(t, from + 1, if from in t then limit - 1 else limit);
      PageIsBetween(t, from + 1, if from in t then limit - 1 else limit);
      if page == [] {
        assert Between(t, from, from - 1) == [];
      } else {
        assert LastOf(page, from - 1) == LastOf(rest, from);
      }
    }
  }

  datatype PagerEvent = Append(row: Row) | Request(limit: int)

  /** A client that asks for rows after the last number seen, while the table grows. */
  datatype Pager = Pager(rows: Table, cursor: nat, seen: seq<Row>)

  /** A writer appends above all stored numbers; a request's limit is clamped as the API does. */
  function PagerStep(p: Pager, e: PagerEvent): Pager {
    match e
    case Append(row) =>
      if forall n <- p.rows :: n < row.number then p.(rows := Upsert(p.rows, row).0) else p
    case Request(limit) =>
      var page := Ascending(p.rows, p.cursor + 1, ClampLimit(limit));
      p.(cursor := LastOf(page, p.cursor), seen := p.seen + page)
  }

  function ClampLimit(limit: int): (r: nat)
    ensures 1 <= r <= 1000
    ensures 1 <= limit <= 1000 ==> r == limit
    ensures limit > 1000 ==> r == 1000
    ensures limit <= 0 ==> r == 100
  {
    if limit <= 0 then 100 else if limit > 1000 then 1000 else limit
  }

  function Paging(p: Pager, events: seq<PagerEvent>): Pager
    decreases |events|
  {
    if events == [] then p else Paging(PagerStep(p, events[0]), events[1..])
  }

  ghost predicate PagerInv(p: Pager, start: nat) {
    && WellFormed(p.rows)
    && start <= p.cursor
    && (p.cursor == start || p.cursor in p.rows)
    && p.seen == Between(p.rows, start + 1, p.cursor)
  }

  lemma PagerStepKeeps(p: Pager, start: nat, e: PagerEvent)
    requires PagerInv(p, start)
    ensures PagerInv(PagerStep(p, e), start)
  {
    var p' := PagerStep(p, e);
    hide Ascending, Between;
    match e
    case Append(row) =>
      SaveKeepsKeys(p.rows, row, Delivered);
      BetweenUnchanged(p.rows, p'.rows, start + 1, p.cursor);
    case Request(limit) =>
      PageRows(p.rows, p.cursor + 1, ClampLimit(limit));
      PageIsBetween(p.rows, p.cursor + 1, ClampLimit(limit));
      BetweenSplits(p.rows, start + 1, p.cursor, p'.cursor);
  }

  lemma {:induction false} PagingKeeps(p: Pager, start: nat, events: seq<PagerEvent>)
    requires PagerInv(p, start)
    ensures PagerInv(Paging(p, events), start)
    decreases |events|
  {
    if events != [] {
      PagerStepKeeps(p, start, events[0]);
      PagingKeeps(PagerStep(p, events[0]), start, events[1..]);
    }
  }

  /** Paging with any limits over a table that grows between requests: what has been seen is every row
      above the start up to the cursor, exactly once, in ascending order, and nothing else. */
  lemma PagingSeesEveryRow(t: Table, start: nat, events: seq<PagerEvent>)
    requires WellFormed(t)
    ensures var end := Paging(Pager(t, start, []), events);
      && (forall n: nat | start < n <= end.cursor && n in end.rows :: end.rows[n] in end.seen)
      && (forall row <- end.seen ::
            start < row.number <= end.cursor && row.number in end.rows && end.rows[row.number] == row)
      && (forall i, j | 0 <= i < j < |end.seen| :: end.seen[i].number < end.seen[j].number)
  {
    PagingKeeps(Pager(t, start, []), start, events);
    var end := Paging(Pager(t, start, []), events);
    BetweenIsExact(end.rows, start + 1, end.cursor);
  }

  /** A request that returns fewer rows than its limit has caught up with the table. */
  lemma ShortPageCatchesUp(t: Table, start: nat, events: seq<PagerEvent>, limit: int)
    requires WellFormed(t) && start <= MAX_INT64
    requires var end := Paging(Pager(t, start, []), events);
      |Ascending(end.rows, end.cursor + 1, ClampLimit(limit))| < ClampLimit(limit)
    ensures var end := PagerStep(Paging(Pager(t, start, []), events), Request(limit));
      end.seen == Between(end.rows, start + 1, MAX_INT64)
  {
    PagingKeeps(Pager(t, start, []), start, events);
    var before := Paging(Pager(t, start, []), events);
    PageIsPrefix(before.rows, before.cursor + 1, ClampLimit(limit));
    BetweenSplits(before.rows, start + 1, before.cursor, MAX_INT64);
  }
}
