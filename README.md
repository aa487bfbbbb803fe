# Sensor station: ingestion, range queries, retention and the live dashboard

A Dafny model of the two logic-bearing parts of a temperature/humidity
station.

- **The server** (`server/index.js`) reads one JSON line per reading from a
  serial-attached sensor. It validates the temperature (-50 to 100) and the
  humidity (0 to 100). It then inserts the reading into the `sensor_data`
  table, stamped with its arrival time. After the insert succeeds it sends
  `{timestamp, temperature, humidity}` to every WebSocket client whose state
  is `OPEN`. `/api/data` returns the rows between two epoch-millisecond
  bounds, newest first, paged by `limit` (default 50) and `offset`
  (default 0). A daily job deletes the rows older than thirty days.
- **The dashboard** (`front/src/App.tsx`) keeps the latest 100 readings it
  receives. It raises an alert when the latest temperature is 26 or above.
  It shows up/down trends comparing the last two readings.

Modules:

- `Wrappers`: `Option` and `Result`.
- `Table`: the table as a `seq<Row>` in insertion order, with the SQL
  operations the server uses. `Filter` is `WHERE`. `SortDesc` is
  `ORDER BY timestamp DESC`. `Page` is `LIMIT ... OFFSET`.
- `Server`: `IsValidData` and `Handle`, the outcome of one line. The class
  `Backend` holds `store` (the table) and `clients` (a set of `Client`
  objects). `Backend.Ingest` is the `'data'` handler and `Backend.Purge` is
  `purgeOldData`. The functions `CheckQuery`, `Select` and `GetData` model
  `/api/data`.
- `Dashboard`: `Window`, the `setData` updater. The class `LiveState` has
  `data` and `alertActive`, and `OnData` updates them. `TrendOf`,
  `TempTrend`, `HumidityTrend` and the trend texts come last.

External effects are parameters:

- `JSON.parse` (with the destructuring of its result) is a function
  `string -> Option<Payload>`. `None` means it threw.
- `parseInt` is a function `string -> Option<int>`. `None` means `NaN`.
- `new Date()` at arrival is an `arrival` argument. MySQL's `NOW()` is a
  `now` argument. `Date.now()` on the dashboard is a `now` argument.
- Whether the INSERT, the DELETE and the SELECT succeed is a `bool`
  argument.
- `.toFixed(1)` formatting is a function `real -> string`.

Three facts of the code shape the model:

- The handler awaits the INSERT inside its `try`, so a failed insert
  broadcasts nothing (server/index.js:72, 89-91).
- `purgeOldData` returns nothing (server/index.js:182-190).
- The dashboard drops a reading only when the updated array has more than
  100 entries (front/src/App.tsx:29-31). So nothing is dropped exactly when
  fewer than 100 readings were kept before
  (`Dashboard.WindowDropsOnlyWhenFull`).

## Model

| member | source | states |
|---|---|---|
| Table.Filter | server/index.js:140 | `WHERE` (the BETWEEN of `Server.InRange` and the DELETE condition of `Server.Retained`): the filtered rows are rows of the table that satisfy the condition, and there are no more of them than table rows |
| Table.FilterMember | server/index.js:140 | a row is in the filtered table iff it is in the table and satisfies the condition |
| Table.FilterConcat | server/index.js:184 | filtering two consecutive blocks gives their filtered blocks in the same order, so relative order is kept |
| Table.FilterKeepsPassing | server/index.js:184 | a filter removes nothing from a table whose rows all pass it |
| Table.FilterIdempotent | server/index.js:184 | filtering twice with one condition equals filtering once |
| Table.InsertNewestFirst | server/index.js:140 | the insertion step of the ORDER BY sort: inserting one row lengthens the sequence by one, and the new head is the row or the old head |
| Table.InsertNewestFirstSorted | server/index.js:140 | inserting into a newest-first sequence keeps it newest first and adds exactly that row (multiset) |
| Table.SortDesc | server/index.js:140 | ORDER BY keeps the number of rows |
| Table.SortDescCorrect | server/index.js:140 | ORDER BY timestamp DESC gives a newest-first permutation of its input |
| Table.Page | server/index.js:140 | LIMIT/OFFSET gives at most `limit` rows, namely the consecutive rows starting at `offset`, and none when `offset` is past the end |
| Server.ValidDataBounds | server/index.js:50-57 | of `Server.IsValidData` (`isValidData`): two numbers are valid iff -50 <= temperature <= 100 and 0 <= humidity <= 100; a non-number is never valid |
| Server.ValidDataEdges | server/index.js:54-55 | all four bounds are inclusive; 150 and 200 degrees, and -5 percent, are refused |
| Server.MessageOf | server/index.js:75-79 | the broadcast message has the stored row's timestamp, temperature and humidity |
| Server.Handle | server/index.js:58-92 | a line is stored iff it parses, passes isValidData and its insert succeeds; a parse failure and a validation failure are told apart; a stored row is valid, has the arrival time as timestamp and has the payload's values |
| Server.HandleScenarios | server/index.js:58-92 | `{23.5, 55.2}` at time t stores `(t, 23.5, 55.2)`; a non-JSON line, a 200-degree reading and a failed insert store nothing |
| Server.Client.constructor | server/index.js:83 | a new client has the given OPEN state and an empty outbox |
| Server.Client.Send | server/index.js:84 | sending appends exactly the message to the client's outbox |
| Server.Backend.constructor | server/index.js:14-38 | the server starts over the rows `sensor_data` already holds (all valid) and the given clients, with the all-rows-valid invariant |
| Server.Backend.Ingest | server/index.js:58-92 | the outcome is Handle's. The table gains exactly the stored row and no existing row changes. Each OPEN client gains exactly that row's message and a closed client gains nothing. Nothing happens on a failure. Every stored row stays valid |
| Server.Backend.Purge | server/index.js:182-190 | a successful DELETE leaves exactly the retained rows; a failed one leaves the table unchanged; the clients and the validity of the rows are kept |
| Server.RetainedExactly | server/index.js:184 | of `Server.Retained`, the DELETE condition: a row survives the purge iff it is in the table and its timestamp is at least now minus 30 days |
| Server.RetainedKeepsOrder | server/index.js:184 | the purge keeps the surviving rows in table order |
| Server.PurgeTwiceRemovesNothing | server/index.js:182-190 | a second purge at the same time, with no insert in between, removes nothing |
| Server.TimeOf | server/index.js:114-122 | a bound is a valid time iff it parses to an integer within the JavaScript Date range, and its value is then that integer |
| Server.NormalizeLimit | server/index.js:127-132 | a NaN or non-positive limit becomes 50 and any other is kept, so the limit is at least 1 |
| Server.NormalizeOffset | server/index.js:128-136 | a NaN or negative offset becomes 0 and any other is kept |
| Server.CheckQuery | server/index.js:105-136 | with `Server.Falsy` (`!start`), `Server.RawLimit` and `Server.RawOffset` (the defaults and `parseInt`): the answer is MissingBounds iff start or end is missing or empty; otherwise it is InvalidDates iff a bound is not a valid time, and a selection when both are; the selection has the parsed bounds and the normalised limit (at least 1) and offset, with an absent limit read as 50 and an absent offset as 0 |
| Server.SelectSound | server/index.js:140-149 | of `Server.Select` over `Server.InRange`: every result row is a table row with start <= timestamp <= end; the result is newest first; it has at most `limit` rows, and fewer only when the rows after `offset` run out |
| Server.SelectComplete | server/index.js:140 | with offset 0 and all matching rows within the limit, the result holds exactly the matching rows (multiset) |
| Server.RejectionRunsNoQuery | server/index.js:107-122 | a 400 answer does not depend on the table or on the database working, so no query is run |
| Server.GetDataAnswers | server/index.js:103-155 | of `Server.GetData`: the endpoint answers 400 iff a bound is missing or invalid, 500 iff the parameters pass but the SELECT fails, and otherwise exactly the SELECT over the parsed bounds and the normalised limit and offset |
| Dashboard.Window | front/src/App.tsx:27-33 | the updated window has at most 100 readings, ends with the new one, and is the last min(100, n + 1) of the n previous readings followed by the new one |
| Dashboard.WindowDropsOnlyWhenFull | front/src/App.tsx:28-32 | the update is exactly `prev + [x]` iff fewer than 100 readings were kept |
| Dashboard.ReplayKeepsLatest | front/src/App.tsx:25-33 | from a window of at most 100, any sequence of readings leaves the latest 100 of all readings, in order |
| Dashboard.LiveState.constructor | front/src/App.tsx:19-20 | the dashboard starts with no readings and no alert |
| Dashboard.LiveState.OnData | front/src/App.tsx:25-41 | the window is updated as Window says; the alert is on iff this reading's temperature is at least 26, whatever came before; the window stays within 100 |
| Dashboard.LatestData | front/src/App.tsx:47 | the latest reading is the last one, or temperature 0 humidity 0 when there is none |
| Dashboard.PreviousData | front/src/App.tsx:48 | the previous reading is the one before the last, or temperature 0 humidity 0 when there are fewer than two |
| Dashboard.TrendOf | front/src/App.tsx:50-63 | the trend is up iff latest > previous, down iff latest < previous, undefined iff they are equal |
| Dashboard.TrendText | front/src/App.tsx:56-64 | a trend text with a non-empty unit is empty iff the trend is undefined |
| Dashboard.TrendsCompareLastTwo | front/src/App.tsx:47-64 | of `Dashboard.TempTrend` and `Dashboard.HumidityTrend`: with two or more readings the trends compare the last two; with one reading they compare it against 0; with none there is no trend |
| Dashboard.SingleReadingTrendsUp | front/src/App.tsx:47-55 | a single reading of 5 degrees shows the temperature going up |
| Dashboard.TrendsIndependent | front/src/App.tsx:50-63 | the temperature trend depends only on temperatures and the humidity trend only on humidities |
| Dashboard.TrendTextsEmptyIffUndefined | front/src/App.tsx:56-64 | of `Dashboard.TempTrendValue` and `Dashboard.HumidityTrendValue`: the temperature and humidity trend texts are empty exactly when their trends are undefined |

## Left out

- Serial port and line splitting (server/index.js:44-49, 201-203): device
  I/O done by the serialport library. The handler's input is one line.
- Concurrency of the async `'data'` handler: lines are processed one at a
  time. Delivery order follows from `Backend.Ingest`'s contract applied once
  per line: each call appends one message after the earlier ones.
- The MySQL pool, the startup connectivity check and `process.exit`
  (server/index.js:14-34). Each statement is reduced to "succeeds or fails".
- Express plumbing (server/index.js:36-41, 195-198): responses are only
  `BadRequest`, `Rows` or `InternalError`. The two 400 messages are the
  reasons `MissingBounds` and `InvalidDates`.
- `node-cron` scheduling (server/index.js:193): `Backend.Purge` takes the
  database time `now`.
- The daily report endpoint (server/index.js:158-179): SQL `GROUP BY`
  with `AVG`, which is floating-point aggregation done by the database.
- The WebSocket connection lifecycle (server/index.js:94-100) only logs.
  Membership of `wss.clients` and the clients' `readyState` are managed by
  the `ws` library, so `Backend.clients` and `Client.open` are set only
  when the objects are created.
- Time representation: timestamps are integer milliseconds throughout. The
  conversion of JavaScript `Date` values to MySQL `DATETIME` (time zone,
  sub-second precision) is not modelled. Neither is the calendar meaning of
  `INTERVAL 30 DAY`, which is taken as 30 times 86,400,000 ms.
- Table.SortDesc: ties between equal timestamps come out in one fixed
  order. SQL leaves that order unspecified, so the model proves only
  "newest first, same rows".
- Server.CheckQuery: the model does not capture a `limit` or `offset` so
  large that JavaScript prints it in exponent notation, which would make
  the SQL text invalid (a 500 answer). `parseInt` is taken to return an
  exact integer.
- Server.Handle: `typeof ... === 'number'` also accepts `NaN` and the
  infinities. JSON never gives `NaN`, but it gives an infinity for a
  number too large for a double (`1e999`). Both infinities fail the range
  checks (server/index.js:54-55), so numbers are `real` and such a line
  ends as `Invalid` either way.
- Logging (`console.log` / `console.error`) is not modelled.
- `front/src/services/websocket.ts` (a reconnecting network client),
  `front/src/services/api.ts` (an axios wrapper), the UI components, the
  PDF report generators and the build configuration are not part of this
  model.
- The magnitude strings built with `Math.abs(...).toFixed(1)`
  (front/src/App.tsx:56, 64) are float formatting. They appear only as an
  abstract `format` function applied to the absolute difference.
