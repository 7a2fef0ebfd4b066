/** 03-member-nodes/pkg/api/server.go: query parsing, limit clamping, and the two block handlers. */
module Api {
  import opened Outcomes
  import opened Blocks
  import opened PayloadStore
  import BuildState

  // ---------------------------------------------------------------------------------------
  // Decimal numbers as strconv reads and fmt prints them
  // ---------------------------------------------------------------------------------------

  predicate IsDigit(c: char) {
    '0' <= c <= '9'
  }

  function DigitChar(d: nat): (c: char)
    requires d < 10
    ensures IsDigit(c) && c as int - '0' as int == d
  {
    '0' + d as char
  }

  function FormatUint(n: nat): (s: string)
    ensures s != [] && forall c <- s :: IsDigit(c)
  {
    if n < 10 then [DigitChar(n)] else FormatUint(n / 10) + [DigitChar(n % 10)]
  }

  /** The value of a string of digits. */
  function Digits(s: string): nat
    requires forall c <- s :: IsDigit(c)
  {
    if s == [] then 0
    else
      var last := s[|s| - 1];
      assert IsDigit(last);
      10 * Digits(s[..|s| - 1]) + (last as int - '0' as int)
  }

  /** strconv.ParseUint(s, 10, 64). */
  function ParseUint(s: string): Option<Uint64> {
    if s == [] || exists c <- s :: !IsDigit(c) then None
    else if Digits(s) > MAX_UINT64 then None
    else Some(Digits(s))
  }

  /** strconv.Atoi: an optional sign, then digits, within 64 bits. */
  function Atoi(s: string): Option<int> {
    var negative := s != [] && s[0] == '-';
    var digits := if s != [] && (s[0] == '-' || s[0] == '+') then s[1..] else s;
    if digits == [] || exists c <- digits :: !IsDigit(c) then None
    else
      var value: int := Digits(digits);
      if negative then (if value <= MAX_INT64 + 1 then Some(-value) else None)
      else if value <= MAX_INT64 then Some(value)
      else None
  }

  lemma {:induction false} DigitsOfFormat(n: nat)
    ensures Digits(FormatUint(n)) == n
  {
    var s := FormatUint(n);
    if n < 10 {
      assert s[..0] == [];
    } else {
      DigitsOfFormat(n / 10);
      assert s[..|s| - 1] == FormatUint(n / 10);
    }
  }

  /** What the syncer prints into the URL is what the server parses out of it. */
  lemma ParseFormat(n: Uint64)
    ensures ParseUint(FormatUint(n)) == Some(n)
  {
    DigitsOfFormat(n);
  }

  lemma AtoiFormat(n: nat)
    requires n <= MAX_INT64
    ensures Atoi(FormatUint(n)) == Some(n)
  {
    DigitsOfFormat(n);
    assert IsDigit(FormatUint(n)[0]);
  }

  /** The signs that Atoi accepts, and the only other texts. */
  lemma AtoiSigns(n: nat)
    ensures Atoi("-" + FormatUint(n)) == if n <= MAX_INT64 + 1 then Some(-(n as int)) else None
    ensures Atoi("+" + FormatUint(n)) == if n <= MAX_INT64 then Some(n) else None
    ensures Atoi(FormatUint(n)) == if n <= MAX_INT64 then Some(n) else None
  {
    DigitsOfFormat(n);
    assert ("-" + FormatUint(n))[1..] == FormatUint(n) && ("+" + FormatUint(n))[1..] == FormatUint(n);
    assert IsDigit(FormatUint(n)[0]);
  }

  /** The texts that stand in for missing parameters. */
  lemma DefaultTexts()
    ensures ParseUint("0") == Some(0)
    ensures Atoi("100") == Some(100)
  {
    ParseFormat(0);
    assert FormatUint(0) == "0";
    AtoiFormat(100);
    assert FormatUint(1) == "1" && FormatUint(10) == "10" && FormatUint(100) == "100";
  }

  // ---------------------------------------------------------------------------------------
  // The server
  // ---------------------------------------------------------------------------------------

  datatype HttpMethod = Get | OtherMethod

  /** A JSON body with status 200, or another status. BlockResponse copies a row field by field. */
  datatype HttpReply<+T> = OkBody(value: T) | Status(code: nat)

  datatype BlockResponse = BlockResponse(
    blockNumber: Uint64, blockHash: Hash, parentHash: Hash, payloadData: BuildState.Data, requestsData: BuildState.Data,
    timestamp: Int64)

  function Copy(p: Row): BlockResponse {
    BlockResponse(p.number, p.hash, p.parentHash, p.payloadData, p.requestsData, p.timestamp)
  }

  function CopyAll(rows: seq<Row>): seq<BlockResponse> {
    seq(|rows|, i requires 0 <= i < |rows| => Copy(rows[i]))
  }

  /** A missing parameter is the empty string. */
  function AfterOf(text: string): Option<Uint64> {
    if text == [] then Some(0) else ParseUint(text)
  }

  function LimitOf(text: string): nat {
    if text == [] || Atoi(text).None? then 100 else ClampLimit(Atoi(text).value)
  }

  /** The page size for any limit: itself from 1 to 1000, 1000 above, and 100 when it is missing, not positive or
      not a number. */
  lemma LimitOfText(text: string, n: nat)
    ensures 1 <= LimitOf(text) <= 1000
    ensures LimitOf("") == 100
    ensures Atoi(text).None? ==> LimitOf(text) == 100
    ensures n <= MAX_INT64 ==> LimitOf(FormatUint(n)) == if n == 0 then 100 else if n > 1000 then 1000 else n
    ensures n <= MAX_INT64 ==> LimitOf("-" + FormatUint(n)) == 100
  {
    AtoiSigns(n);
  }

  /** The start of a page for any parameter: 0 when it is missing, the number it prints, and an error otherwise. */
  lemma AfterOfText(text: string, n: Uint64)
    ensures AfterOf("") == Some(0)
    ensures AfterOf(FormatUint(n)) == Some(n)
    ensures (exists c <- text :: !IsDigit(c)) ==> AfterOf(text) == None
  {
    ParseFormat(n);
  }

  predicate HexPrefixed(text: string) {
    |text| > 2 && text[0] == '0' && text[1] == 'x'
  }

  /** Every hash has its own text, which begins with 0x. */
  ghost predicate HashTexts(text: Hash -> string) {
    && (forall h :: HexPrefixed(text(h)))
    && (forall h, h' | text(h) == text(h') :: h == h')
  }

  class Server {
    const store: Store

    constructor (store: Store)
      ensures this.store == store
    {
      this.store := store;
    }

    method HandleGetBlocksAfter(m: HttpMethod, afterText: string, limitText: string, f: Fault)
      returns (r: HttpReply<seq<BlockResponse>>)
      ensures m.OtherMethod? ==> r == Status(405)
      ensures m.Get? && AfterOf(afterText).None? ==> r == Status(400)
      ensures m.Get? && AfterOf(afterText).Some? ==>
        r == match AfterCall(store.rows, AfterOf(afterText).value, LimitOf(limitText), f)
             case Err(_) => Status(500)
             case Ok(rows) => OkBody(CopyAll(rows))
    {
      if m != Get {
        return Status(405);
      }
      var afterStr := afterText;
      if afterStr == "" {
        afterStr := "0";
      }
      var after := ParseUint(afterStr);
      DefaultTexts();
      if after.None? {
        return Status(400);
      }
      var limitStr := limitText;
      if limitStr == "" {
        limitStr := "100";
      }
      var parsed := Atoi(limitStr);
      var limit := 100;
      if parsed.Some? && parsed.value > 0 {
        limit := parsed.value;
      }
      if limit > 1000 {
        limit := 1000;
      }
      var payloads := store.GetPayloadsAfter(after.value, limit, f);
      if payloads.Err? {
        return Status(500);
      }
      var blocks := CopyRows(payloads.value);
      r := OkBody(blocks);
    }

    method CopyRows(rows: seq<Row>) returns (blocks: seq<BlockResponse>)
      ensures blocks == CopyAll(rows)
    {
      blocks := [];
      for i := 0 to |rows|
        invariant blocks == CopyAll(rows[..i])
      {
        var p := rows[i];
        blocks := blocks + [BlockResponse(p.number, p.hash, p.parentHash, p.payloadData, p.requestsData, p.timestamp)];
      }
      assert rows[..|rows|] == rows;
    }

    /** Whatever goes wrong in the database is reported as not found. */
    method HandleGetBlock(m: HttpMethod, path: string, f: Fault) returns (r: HttpReply<BlockResponse>)
      ensures m.OtherMethod? ==> r == Status(405)
      ensures m.Get? && path == "" ==> r == Status(400)
      ensures m.Get? && path != "" && ParseUint(path).Some? ==>
        r == match NumberCall(store.rows, ParseUint(path).value, f)
             case Ok(row) => OkBody(Copy(row))
             case Err(_) => Status(404)
      ensures m.Get? && path != "" && ParseUint(path).None? ==>
        if f.Delivered? && exists n <- store.rows :: store.hashText(store.rows[n].hash) == path then
          exists n <- store.rows :: store.hashText(store.rows[n].hash) == path && r == OkBody(Copy(store.rows[n]))
        else
          r == Status(404)
    {
      if m != Get {
        return Status(405);
      }
      if path == "" {
        return Status(400);
      }
      var number := ParseUint(path);
      var payload;
      if number.Some? {
        payload := store.GetPayloadByNumber(number.value, f);
      } else {
        payload := store.GetPayloadByHash(path, f);
      }
      if payload.Err? {
        return Status(404);
      }
      var p := payload.value;
      r := OkBody(BlockResponse(p.number, p.hash, p.parentHash, p.payloadData, p.requestsData, p.timestamp));
    }
  }

  /** No hash is taken for a number, so in a table with unique keys the decimal number of a row and
      the text of its hash reach the same row, and only that row. */
  lemma BothKeysReachTheRow(t: Table, text: Hash -> string, n: nat, found: Row)
    requires WellFormed(t) && n in t && HashTexts(text)
    requires found in t.Values && text(found.hash) == text(t[n].hash)
    ensures ParseUint(text(t[n].hash)).None?
    ensures ParseUint(FormatUint(n)) == Some(n) && NumberCall(t, n, Delivered) == Ok(t[n])
    ensures found == t[n]
  {
    HexIsNoNumber(text, t[n].hash);
    ParseFormat(n);
  }

  lemma HexIsNoNumber(text: Hash -> string, h: Hash)
    requires HashTexts(text)
    ensures text(h) != "" && ParseUint(text(h)).None?
  {
    assert HexPrefixed(text(h));
    assert text(h)[1] in text(h) && !IsDigit(text(h)[1]);
  }

  /** The method form of the same: the request by number and the request by hash get the same answer. */
  method BothRequests(server: Server, n: nat) returns (a: HttpReply<BlockResponse>, b: HttpReply<BlockResponse>)
    requires WellFormed(server.store.rows) && n in server.store.rows && HashTexts(server.store.hashText)
    ensures a == b == OkBody(Copy(server.store.rows[n]))
  {
    var row := server.store.rows[n];
    HexIsNoNumber(server.store.hashText, row.hash);
    ParseFormat(n);
    a := server.HandleGetBlock(Get, FormatUint(n), Delivered);
    b := server.HandleGetBlock(Get, server.store.hashText(row.hash), Delivered);
  }
}
