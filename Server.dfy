/** The server of the sensor station (server/index.js): it validates each line
    the sensor sends over the serial port, stores it in `sensor_data`, pushes it
    to every open WebSocket client, answers `/api/data` range queries, and purges
    rows older than thirty days. */
module Server {
  import opened Wrappers
  import opened Table

  // ------------------------------------------------------------ validation

  /** A value of the parsed line, as far as `typeof v === 'number'` can tell:
      a JSON number, or anything else (a string, `null`, an object, or
      `undefined` for a missing field). */
  datatype JsValue = Number(n: real) | NotNumber

  /** The two fields the handler takes out of the parsed line. */
  datatype Payload = Payload(temperature: JsValue, humidity: JsValue)

  /** `isValidData`: both values are numbers, the temperature lies in
      [-50, 100] and the humidity in [0, 100], all bounds inclusive. */
  predicate IsValidData(temperature: JsValue, humidity: JsValue)
  {
    temperature.Number? &&
    humidity.Number? &&
    temperature.n >= -50.0 && temperature.n <= 100.0 &&
    humidity.n >= 0.0 && humidity.n <= 100.0
  }

  /** The values of a row are ones `isValidData` accepts. */
  predicate ValidRow(row: Row)
  {
    IsValidData(Number(row.temperature), Number(row.humidity))
  }

  /** The validation rule, both directions: two numbers pass exactly when
      each lies within its inclusive range, and a non-number never passes. */
  lemma ValidDataBounds(temperature: JsValue, humidity: JsValue)
    ensures temperature.NotNumber? || humidity.NotNumber? ==> !IsValidData(temperature, humidity)
    ensures temperature.Number? && humidity.Number? ==>
      (IsValidData(temperature, humidity) <==>
        -50.0 <= temperature.n <= 100.0 && 0.0 <= humidity.n <= 100.0)
  {
  }

  /** The four bounds are themselves accepted, and the out-of-range
      readings 150 degrees, 200 degrees and -5 percent are refused. */
  lemma ValidDataEdges()
    ensures IsValidData(Number(-50.0), Number(0.0))
    ensures IsValidData(Number(100.0), Number(100.0))
    ensures !IsValidData(Number(150.0), Number(50.0))
    ensures !IsValidData(Number(200.0), Number(50.0))
    ensures !IsValidData(Number(23.5), Number(-5.0))
  {
  }

  // ------------------------------------------------------- the line handler

  /** What the `'data'` handler did with one line. The three failures all end
      in the handler's `catch` or early `return`; none of them escapes. */
  datatype Outcome =
    | Stored(row: Row)   // inserted and broadcast
    | ParseError         // JSON.parse threw, or the parsed value is `null`
    | Invalid            // isValidData refused the values
    | InsertFailed       // the awaited INSERT rejected

  /** The broadcast `{timestamp, temperature, humidity}`. */
  datatype Message = Message(timestamp: int, temperature: real, humidity: real)

  /** The message sent for a stored row: its own timestamp and values. */
  function MessageOf(row: Row): (m: Message)
    ensures m.timestamp == row.timestamp
    ensures m.temperature == row.temperature && m.humidity == row.humidity
  {
    Message(row.timestamp, row.temperature, row.humidity)
  }

  /** The outcome of the handler for a line whose `JSON.parse` gave `parsed`,
      arriving at `arrival` milliseconds, when the INSERT succeeds exactly
      if `insertOk`. */
  function Handle(parsed: Option<Payload>, arrival: int, insertOk: bool): (o: Outcome)
    ensures o.Stored? <==>
      parsed.Some? && IsValidData(parsed.value.temperature, parsed.value.humidity) && insertOk
    ensures o == ParseError <==> parsed.None?
    ensures o == Invalid <==>
      parsed.Some? && !IsValidData(parsed.value.temperature, parsed.value.humidity)
    ensures o.Stored? ==> ValidRow(o.row) && o.row.timestamp == arrival
    ensures o.Stored? ==>
      Number(o.row.temperature) == parsed.value.temperature &&
      Number(o.row.humidity) == parsed.value.humidity
  {
    match parsed
    case None => ParseError
    case Some(p) =>
      if !IsValidData(p.temperature, p.humidity) then Invalid
      else if !insertOk then InsertFailed
      else Stored(Row(arrival, p.temperature.n, p.humidity.n))
  }

  /** Three lines end to end: a valid reading arriving at `t` is stored as
      `(t, 23.5, 55.2)`; a line that is not JSON, and a reading of 200
      degrees, store nothing; a valid reading whose insert fails is not
      stored either. */
  lemma HandleScenarios(t: int)
    ensures Handle(Some(Payload(Number(23.5), Number(55.2))), t, true) == Stored(Row(t, 23.5, 55.2))
    ensures Handle(None, t, true) == ParseError
    ensures Handle(Some(Payload(Number(200.0), Number(50.0))), t, true) == Invalid
    ensures Handle(Some(Payload(Number(23.5), Number(55.2))), t, false) == InsertFailed
  {
  }

  /** One WebSocket connection: whether its `readyState` is `OPEN`, and the
      messages sent to it so far. */
  class Client {
    var open: bool
    var outbox: seq<Message>

    constructor (open: bool)
      ensures this.open == open && outbox == []
    {
      this.open := open;
      outbox := [];
    }

    /** `client.send(...)`. */
    method Send(m: Message)
      modifies this
      ensures open == old(open)
      ensures outbox == old(outbox) + [m]
    {
      outbox := outbox + [m];
    }
  }

  // ---------------------------------------------------------- retention

  /** `INTERVAL 30 DAY` in milliseconds. */
  const RetentionMs: int := 30 * 24 * 60 * 60 * 1000

  /** The rows the purge at time `now` keeps: those not matching
      `timestamp < NOW() - INTERVAL 30 DAY`. */
  function Retained(store: seq<Row>, now: int): seq<Row>
  {
    Filter(store, (row: Row) => !(row.timestamp < now - RetentionMs))
  }

  /** The purge keeps a row exactly when it is at most thirty days old. */
  lemma RetainedExactly(store: seq<Row>, now: int, row: Row)
    ensures row in Retained(store, now) <==> row in store && row.timestamp >= now - RetentionMs
  {
    FilterMember(store, (row: Row) => !(row.timestamp < now - RetentionMs), row);
  }

  /** The purge keeps the surviving rows in their table order: purging two
      consecutive blocks of rows purges each block in place. */
  lemma RetainedKeepsOrder(a: seq<Row>, b: seq<Row>, now: int)
    ensures Retained(a + b, now) == Retained(a, now) + Retained(b, now)
  {
    FilterConcat(a, b, (row: Row) => !(row.timestamp < now - RetentionMs));
  }

  /** A second purge at the same time, with no insert in between, removes
      nothing. */
  lemma PurgeTwiceRemovesNothing(store: seq<Row>, now: int)
    ensures Retained(Retained(store, now), now) == Retained(store, now)
  {
    FilterIdempotent(store, (row: Row) => !(row.timestamp < now - RetentionMs));
  }

  // ------------------------------------------------------ the server state

  /** The state the handlers share: the `sensor_data` table and the set of
      WebSocket clients. */
  class Backend {
    var store: seq<Row>
    var clients: set<Client>

    /** Every stored row passed validation. */
    ghost predicate Valid()
      reads this
    {
      forall k :: 0 <= k < |store| ==> ValidRow(store[k])
    }

    /** The server over the rows `sensor_data` already holds, every one of
        them stored by an earlier run of the handler, hence valid. */
    constructor (rows: seq<Row>, clients: set<Client>)
      requires forall k :: 0 <= k < |rows| ==> ValidRow(rows[k])
      ensures Valid()
      ensures store == rows && this.clients == clients
    {
      store := rows;
      this.clients := clients;
    }

    /** The `'data'` handler for one line. `jsonParse` is `JSON.parse` followed
        by taking the two fields (`None` when it throws), `arrival` is
        `new Date()` in milliseconds, and `insertOk` says whether the INSERT
        succeeds. The row is appended and broadcast only after a successful
        insert; every open client gets exactly one message, a closed one none. */
    method Ingest(line: string, jsonParse: string -> Option<Payload>, arrival: int, insertOk: bool)
      returns (outcome: Outcome)
      requires Valid()
      modifies this, clients
      ensures Valid()
      ensures outcome == Handle(jsonParse(line), arrival, insertOk)
      ensures clients == old(clients)
      ensures store == old(store) + (if outcome.Stored? then [outcome.row] else [])
      ensures forall c :: c in clients ==> c.open == old(c.open)
      ensures forall c :: c in clients ==>
        c.outbox == old(c.outbox) + (if outcome.Stored? && c.open then [MessageOf(outcome.row)] else [])
    {
      var parsed := jsonParse(line);
      if parsed.None? {
        return ParseError;
      }
      var timestamp := arrival;
      var data := parsed.value;
      if !IsValidData(data.temperature, data.humidity) {
        return Invalid;
      }
      if !insertOk {
        return InsertFailed;
      }
      var row := Row(timestamp, data.temperature.n, data.humidity.n);
      store := store + [row];
      var message := MessageOf(row);
      var pending := clients;
      while pending != {}
        invariant pending <= clients
        invariant clients == old(clients) && store == old(store) + [row]
        invariant forall c :: c in clients ==> c.open == old(c.open)
        invariant forall c :: c in clients ==>
          c.outbox == old(c.outbox) + (if c !in pending && c.open then [message] else [])
        decreases pending
      {
        var client :| client in pending;
        if client.open {
          client.Send(message);
        }
        pending := pending - {client};
      }
      outcome := Stored(row);
    }

    /** `purgeOldData` at database time `now`; `deleteOk` says whether the
        DELETE succeeds (a failure is only logged). */
    method Purge(now: int, deleteOk: bool)
      requires Valid()
      modifies this
      ensures Valid()
      ensures clients == old(clients)
      ensures store == if deleteOk then Retained(old(store), now) else old(store)
    {
      if deleteOk {
        store := Retained(store, now);
      }
    }
  }

  // ------------------------------------------------------------- /api/data

  /** The query string of a `/api/data` request; `None` is an absent
      parameter. */
  datatype DataQuery = DataQuery(start: Option<string>, end: Option<string>,
                                 limit: Option<string>, offset: Option<string>)

  /** The two 400 answers. */
  datatype DataError = MissingBounds | InvalidDates

  /** The checked parameters the SELECT runs with. */
  datatype Selection = Selection(start: int, end: int, limit: nat, offset: nat)

  /** The answer of `/api/data`: 400, the rows, or 500 when the SELECT fails. */
  datatype Response = BadRequest(error: DataError) | Rows(rows: seq<Row>) | InternalError

  const DefaultLimit: int := 50
  const DefaultOffset: int := 0

  /** The largest magnitude, in milliseconds, a JavaScript `Date` can hold. */
  const MaxTime: int := 8_640_000_000_000_000

  /** `!param`: absent, or the empty string. */
  predicate Falsy(param: Option<string>)
  {
    param.None? || param.value == ""
  }

  /** `new Date(parseInt(text, 10)).getTime()`, with `None` for `NaN`: the
      text does not parse, or the number is outside the `Date` range. */
  function TimeOf(text: string, parseInt: string -> Option<int>): (t: Option<int>)
    ensures t.Some? <==> parseInt(text).Some? && -MaxTime <= parseInt(text).value <= MaxTime
    ensures t.Some? ==> t.value == parseInt(text).value
  {
    match parseInt(text)
    case None => None
    case Some(n) => if -MaxTime <= n <= MaxTime then Some(n) else None
  }

  /** `parseInt(limit, 10)`, where an absent `limit` is the default 50. */
  function RawLimit(limit: Option<string>, parseInt: string -> Option<int>): Option<int>
  {
    match limit
    case None => Some(DefaultLimit)
    case Some(text) => parseInt(text)
  }

  /** `parseInt(offset, 10)`, where an absent `offset` is the default 0. */
  function RawOffset(offset: Option<string>, parseInt: string -> Option<int>): Option<int>
  {
    match offset
    case None => Some(DefaultOffset)
    case Some(text) => parseInt(text)
  }

  /** A limit that is `NaN` or not positive becomes 50; any other is kept. */
  function NormalizeLimit(n: Option<int>): (limit: nat)
    ensures limit >= 1
    ensures n.Some? && n.value >= 1 ==> limit == n.value
    ensures n.None? || n.value <= 0 ==> limit == DefaultLimit
  {
    if n.None? || n.value <= 0 then DefaultLimit else n.value
  }

  /** An offset that is `NaN` or negative becomes 0; any other is kept. */
  function NormalizeOffset(n: Option<int>): (offset: nat)
    ensures n.Some? && n.value >= 0 ==> offset == n.value
    ensures n.None? || n.value < 0 ==> offset == DefaultOffset
  {
    if n.None? || n.value < 0 then DefaultOffset else n.value
  }

  /** The parameter checks of `/api/data`, in the handler's order. */
  function CheckQuery(q: DataQuery, parseInt: string -> Option<int>): (r: Result<Selection, DataError>)
    ensures r == Failure(MissingBounds) <==> Falsy(q.start) || Falsy(q.end)
    ensures (!Falsy(q.start) && !Falsy(q.end) &&
             TimeOf(q.start.value, parseInt).Some? && TimeOf(q.end.value, parseInt).Some?) ==>
            r.Success?
    ensures !Falsy(q.start) && !Falsy(q.end) ==>
      (r == Failure(InvalidDates) <==>
        TimeOf(q.start.value, parseInt).None? || TimeOf(q.end.value, parseInt).None?)
    ensures r.Success? ==>
      !Falsy(q.start) && !Falsy(q.end) &&
      Some(r.value.start) == TimeOf(q.start.value, parseInt) &&
      Some(r.value.end) == TimeOf(q.end.value, parseInt) &&
      r.value.limit >= 1 &&
      r.value.limit == NormalizeLimit(RawLimit(q.limit, parseInt)) &&
      r.value.offset == NormalizeOffset(RawOffset(q.offset, parseInt))
    ensures r.Success? && q.limit.None? ==> r.value.limit == DefaultLimit
    ensures r.Success? && q.offset.None? ==> r.value.offset == DefaultOffset
  {
    if Falsy(q.start) || Falsy(q.end) then Failure(MissingBounds)
    else
      var start := TimeOf(q.start.value, parseInt);
      var end := TimeOf(q.end.value, parseInt);
      if start.None? || end.None? then Failure(InvalidDates)
      else
        var limit := NormalizeLimit(RawLimit(q.limit, parseInt));
        var offset := NormalizeOffset(RawOffset(q.offset, parseInt));
        Success(Selection(start.value, end.value, limit, offset))
  }

  /** The rows `WHERE timestamp BETWEEN start AND end`, in table order. */
  function InRange(store: seq<Row>, sel: Selection): seq<Row>
  {
    Filter(store, (row: Row) => sel.start <= row.timestamp <= sel.end)
  }

  /** The SELECT: `BETWEEN`, then `ORDER BY timestamp DESC`, then `OFFSET`
      and `LIMIT`. */
  function Select(store: seq<Row>, sel: Selection): seq<Row>
  {
    Page(SortDesc(InRange(store, sel)), sel.offset, sel.limit)
  }

  /** `/api/data`. `selectOk` says whether the SELECT succeeds. */
  function GetData(store: seq<Row>, q: DataQuery, parseInt: string -> Option<int>, selectOk: bool): Response
  {
    match CheckQuery(q, parseInt)
    case Failure(e) => BadRequest(e)
    case Success(sel) => if selectOk then Rows(Select(store, sel)) else InternalError
  }

  /** Each result row is a row of the table whose timestamp lies between the
      bounds, both inclusive; the result is newest first and has at most
      `limit` rows: all matching rows after the first `offset` when fewer
      than `limit` remain. */
  lemma SelectSound(store: seq<Row>, sel: Selection)
    ensures var r := Select(store, sel);
      (forall k :: 0 <= k < |r| ==> r[k] in store && sel.start <= r[k].timestamp <= sel.end) &&
      SortedDesc(r) &&
      |r| <= sel.limit &&
      |r| == if sel.offset >= |InRange(store, sel)| then 0
             else if |InRange(store, sel)| - sel.offset < sel.limit then |InRange(store, sel)| - sel.offset
             else sel.limit
  {
    var matching := InRange(store, sel);
    var sorted := SortDesc(matching);
    var r := Select(store, sel);
    SortDescCorrect(matching);
    forall k | 0 <= k < |r|
      ensures r[k] in store && sel.start <= r[k].timestamp <= sel.end
    {
      assert r[k] == sorted[sel.offset + k];
      assert r[k] in multiset(matching);
      FilterMember(store, (row: Row) => sel.start <= row.timestamp <= sel.end, r[k]);
    }
  }

  /** Without an offset and with a limit that all matching rows fit in, the
      SELECT returns every matching row, each as often as the table holds it. */
  lemma SelectComplete(store: seq<Row>, sel: Selection)
    requires sel.offset == 0 && |InRange(store, sel)| <= sel.limit
    ensures multiset(Select(store, sel)) == multiset(InRange(store, sel))
  {
    var sorted := SortDesc(InRange(store, sel));
    SortDescCorrect(InRange(store, sel));
    assert Select(store, sel) == sorted;
  }

  /** A request refused with 400 runs no query: the answer is the same
      whatever the table holds and whether or not the database works. */
  lemma RejectionRunsNoQuery(store: seq<Row>, other: seq<Row>, q: DataQuery,
                             parseInt: string -> Option<int>, selectOk: bool, otherOk: bool)
    requires GetData(store, q, parseInt, selectOk).BadRequest?
    ensures GetData(other, q, parseInt, otherOk) == GetData(store, q, parseInt, selectOk)
  {
  }

  /** `/api/data` answers 400 exactly when `start` or `end` is missing or is
      not a valid time; otherwise it answers with the SELECT's rows, whose
      limit is at least 1, or with 500 when the SELECT fails. */
  lemma GetDataAnswers(store: seq<Row>, q: DataQuery, parseInt: string -> Option<int>, selectOk: bool)
    ensures var r := GetData(store, q, parseInt, selectOk);
      (r.BadRequest? <==>
        Falsy(q.start) || Falsy(q.end) ||
        TimeOf(q.start.value, parseInt).None? || TimeOf(q.end.value, parseInt).None?) &&
      (r.InternalError? <==> !r.BadRequest? && !selectOk) &&
      (r.Rows? ==>
        r.rows == Select(store, Selection(TimeOf(q.start.value, parseInt).value,
                                          TimeOf(q.end.value, parseInt).value,
                                          NormalizeLimit(RawLimit(q.limit, parseInt)),
                                          NormalizeOffset(RawOffset(q.offset, parseInt)))))
  {
  }
}
