# Animated event logger: client journal and server ingest

The system is a small web page with an animated square plus a Node.js server.

- Each user action on the page (for example play, start, stop, reload, each animation step, a wall hit, leaving the area, close) is *logged* by the browser client. Logging gives the action a sequence number and records it in a local journal kept in `localStorage`. The action is also sent to the server at once on the *instant* channel.
- When the sheet is closed, everything logged since the last confirmed batch is sent in one request on the *batch* channel. The client then shows a table that pairs the server's instant records with its own journal, row by row.
- The server validates each submission and appends it to one NDJSON file per channel (one JSON value per line) through a per-file write queue. It keeps an in-memory index of both files, which it reloads from the files at start-up.

This Dafny project models both cores and proves what they promise.

| file | module | what it holds |
|---|---|---|
| `text.dfy` | `Wrappers`, `JsText` | `Option`/`Result`. The JavaScript string operations the core relies on: `trim`, `String(n)` for integers, `join`, `split(/\r?\n/)`, `filter(Boolean)` on strings. |
| `json.dfy` | `JsValues` | JSON values with JavaScript truthiness, property lookup, `Number(...)`, `Number.isInteger`, `String(...)`, and `JSON.parse`/`JSON.stringify` as a `Codec` that obeys one law. |
| `client.dfy` | `ClientJournal` | The client: journal entries, the counter and cursor as `localStorage` stores them, batch selection, the message list, and the `Client` class. |
| `ingest.dfy` | `Ingest` | Server-side validation: `normalizeString`, `normalizeSeq`, `buildInstantEvent`, `buildBatchEvents`. |
| `append_log.dfy` | `AppendLogs` | The NDJSON files: line serialisation, `loadEvents`, and the write queue as the `AppendLog` class. |
| `server.dfy` | `EventServer` | `handleApi`; each request is a pure step on a `State`, and the `Server` class performs it on its store and its two logs. |
| `results.dfy` | `ResultsView` | `formatServerCell`, `formatLocalCell`, `renderResults`. |
| `exchange.dfy` | `Exchange` | What the server makes of the bodies the client sends. |

Modelling decisions:

- **JSON numbers.** A number in a `JsValue` is a `Decimal`: a real that some power of ten scales to an integer. That is every number JSON text can write, and it keeps the values countable, as the texts are, so a serialiser can be one-to-one. The sanity lemma `JsValues.ThirdIsNotDecimal` checks that the type is narrower than `real`: one third is not in it.
- **JSON.** `JSON.parse` and `JSON.stringify` are two functions in a `Codec` value. The ghost predicate `Lawful(c)` states what the model relies on:
  - parsing a serialisation gives the value back;
  - a serialisation is a single non-empty line that does not start with whitespace;
  - blank text does not parse.
- **Environment.** UUIDs, the clock and the outcome of every file write are parameters.
  - The server's `Env` holds the UUIDs in the order `randomUUID` hands them out, the time snapshot, and the success of the first and second file operation.
  - On the client, each fetch outcome is a `bool`, the local timestamp is a string argument, and `localStorage` is a `Storage` value of three optional keys.
- **Sequential requests.** The server handles one request at a time, so each write queue is empty between requests.
  - An append is submitted to the queue and then settled with its outcome.
  - `AppendLog` keeps a ghost history of everything submitted and how each write settled. Its invariant says the file is its base text plus exactly the writes that succeeded, in submission order.

Behaviours of the code that a reader might not expect, each modelled as the code has it:

- **Unknown GET.** A GET to an unknown `/api/` path gets 404 "Not found", not 405. Only other methods and paths get 405 (`EventServer.Routing`).
- **Falsy payload.** A POST whose body parses to a falsy JSON value (`null`, `0`, `false`, `""`) ends with no response written (`Reply.Silent`).
- **Failed DELETE.** DELETE empties the in-memory store before it truncates the files. If a truncation fails, the store stays empty while the files still hold their records, so a restart brings them back (`EventServer.DeleteOutcome`).
- **Torn last line.** A torn final line, left by a write cut short, is dropped on load only while nothing is appended after it. The next event's line is glued onto the torn one and, if the joined text does not parse, that acknowledged event is lost on reload too (`AppendLogs.TornTailSwallowsNext`). This is why the agreement between store and files (`EventServer.Durable`) assumes files that end at a line break.
- **Oversized batch.** More than 5000 unsent journal entries are rejected whole, every time, so the client's batch cursor cannot move past them (`Exchange.OversizedBatchRejected`).

## Model

| member | source | states |
|---|---|---|
| JsText.TrimMeaning | server.js:147-152 | `trim` gives the stretch `s[i..j]` with only whitespace before `i` and after `j` and no whitespace at either of its ends; it is "" exactly for all-whitespace text |
| JsText.Trim | server.js:151 | `String.prototype.trim` as leading then trailing whitespace removal; `TrimMeaning` states what it leaves |
| JsText.SplitLines | server.js:89 | `split(/\r?\n/)` cuts at each `\n` or `\r\n` and always gives at least one piece; `SplitFirstLine` and `SplitConcat` state how the pieces follow the breaks |
| JsText.NatToString | main.js:110-112 | `String(n)` of a counter is decimal digits with no leading zero whose value is `n` |
| JsText.JoinThenBreak | server.js:337 | `lines.join("\n") + "\n"` puts one line break after every line |
| JsText.SplitConcat | server.js:89 | splitting text that ends at a line break, followed by more text, gives the earlier lines followed by the pieces of what follows |
| JsText.SplitFirstLine | server.js:89 | a line, a line feed and more text split into that line followed by the pieces of the rest |
| JsValues.StringToNumber | main.js:80 | `Number(s)` for text: blank is 0, otherwise an optional sign and a decimal literal or `Infinity`, anything else NaN; `CounterTextRoundTrip` states its round trip |
| JsValues.Display | main.js:296 | `String(v)` for the values a cell shows: integers in decimal, strings as they are, `null` as "null" |
| JsValues.CounterTextRoundTrip | main.js:110-112 | `Number(String(n))` is `n` for every counter |
| JsValues.NumberOfCounter | server.js:155-156 | a counter sent as a number or as its decimal string converts to that integer |
| JsValues.JoinTruthyStrings | main.js:296 | `filter(Boolean).join(" ")` after a non-empty first part puts a single space before each further non-empty part and drops the empty ones |
| ClientJournal.StoredCount | main.js:93-101 | `loadBatchSeq`'s conversion of a stored key; `StoredCountMeaning` states when it is the stored number |
| ClientJournal.InstantPayload | main.js:146-152 | the instant body carries the entry's seq, type, message, local time and extra; `Exchange.InstantAccepted` states what the server makes of it |
| ClientJournal.EntryJson | main.js:221-226 | one batch entry carries the entry's seq, message, type, local time and extra; `Exchange.EntryBlank` states its message lookup |
| ClientJournal.BatchPayload | main.js:219-227 | the batch body `{ events: [...] }` has one entry per selected journal entry; `Exchange.BatchPayloadList` states its order |
| ClientJournal.StoredCountMeaning | main.js:93-101 | the loaded cursor is the stored number when that is an integer above 0, and 0 exactly when it is not |
| ClientJournal.StoredCountRoundTrip | main.js:236-238 | a cursor stored with `String(n)` loads back as `n` |
| ClientJournal.LoadedCounterUnique | main.js:77-91 | at most one value is the least bound of the stored counter and of every journal seq |
| ClientJournal.LoadedCounterAppend | main.js:135-144 | appending an entry whose seq is the counter keeps the counter the loaded one |
| ClientJournal.InitEventSeq | main.js:77-91 | the loaded counter is at least the stored counter when that is an integer above 0 and at least every journal seq, it is the smallest such value, and it is 0 when there is nothing |
| ClientJournal.NewEntry | main.js:137-143 | the entry has the given seq, message and time; a falsy event type or extra becomes null, any other value is kept |
| ClientJournal.Unsent | main.js:215 | the selection is no longer than the journal, and every selected entry is above the cursor |
| ClientJournal.UnsentMembers | main.js:215 | an entry is selected exactly when it is in the journal and its seq is above the cursor |
| ClientJournal.UnsentAppend | main.js:215 | the selection keeps journal order |
| ClientJournal.UnsentIsSuffix | main.js:215 | on an increasing journal, the selection is a suffix of the journal |
| ClientJournal.SentLeavesNothing | main.js:235-236 | moving the cursor to the last sent seq leaves nothing to send |
| ClientJournal.IncreasingAppend | main.js:144 | appending an entry above every seq keeps the journal's seqs strictly increasing |
| ClientJournal.MessageTextShape | main.js:161-162 | a message line reads `#seq message`, or just the message when the seq is 0 |
| ClientJournal.Newest | main.js:164-166 | at most `n` items are kept, and they are the newest ones in order |
| ClientJournal.DropOldest | main.js:164-166 | the trimming loop leaves exactly the newest `MAX_MESSAGES` (8) items |
| ClientJournal.Client.Load | main.js:23-25 | start-up loads the journal, the counter as `initEventSeq` computes it, and the cursor as `loadBatchSeq` computes it |
| ClientJournal.Client.Reload | main.js:23-25 | restarting from what is persisted gives back the same journal, counter and cursor |
| ClientJournal.Client.NextSeq | main.js:109-115 | returns the old counter + 1, the counter becomes that value and is persisted; nothing else changes |
| ClientJournal.Client.PushMessage | main.js:156-167 | the message list gains the entry's text and keeps only the newest 8 |
| ClientJournal.Client.LogEvent | main.js:131-154 | an empty message changes nothing; otherwise exactly one entry, carrying the new counter, is appended and persisted, one instant body is queued, the cursor is unchanged and the journal stays increasing |
| ClientJournal.Client.Record | main.js:144-152 | the entry is appended to the journal and its storage, and its instant body is queued |
| ClientJournal.Client.SendBatchEvents | main.js:214-244 | the batch body holds exactly the entries above the cursor; an empty selection sends nothing, reports 0 and leaves the cursor and storage as they were; on success the cursor becomes the last sent seq, which is above the old cursor, and is persisted; on failure nothing changes |
| ClientJournal.Client.MoveCursor | main.js:236-239 | the cursor is set and persisted so that it reloads to the same value |
| ClientJournal.Client.ClearLogs | main.js:309-318 | the journal, counter, cursor and message list are reset, and the three keys are removed |
| Ingest.NormalizeString | server.js:147-152 | `normalizeString`: the trimmed text of a string value, "" for anything else; `NormalizeStringMeaning` states it |
| Ingest.NormalizeStringMeaning | server.js:147-152 | a string becomes its trimmed form, anything else becomes "" |
| Ingest.NonBlank | server.js:168-169 | `normalizeString(v) \|\| null`: null exactly when the trimmed value is empty |
| Ingest.NormalizeSeq | server.js:154-160 | the converted value when it is an integer of at least 1, otherwise the fallback |
| Ingest.NormalizeSeqKeepsCounter | server.js:154-160 | a positive counter, as a number or a decimal string, is kept |
| Ingest.NormalizeSeqFallsBack | server.js:154-160 | missing, null, fractional or non-positive seqs fall back |
| Ingest.PlainObject | server.js:170-173 | `meta`/`extra` are kept exactly when they are a JSON object, otherwise null |
| Ingest.InstantRecord | server.js:175-185 | the stored record carries the event's id, seq, message, type, client time, meta and server time |
| Ingest.BuildInstantEvent | server.js:162-186 | the error "message is required" exactly when the trimmed message is empty; otherwise every field of the event is its normalised input and the given id and time |
| Ingest.BatchRecord | server.js:220-229 | the stored batch record carries the item's id, batch id, seq, message, local time and server time |
| Ingest.EventList | server.js:189-193 | the list is found exactly when `events` or `items` is an array; when `events` is an array it is used, and `items` only when it is not |
| Ingest.FirstBlank | server.js:206-211 | the index of the first entry whose trimmed message is empty; `FirstBlankNone` and `FirstBlankIsFirst` state it |
| Ingest.BuildItem | server.js:212-229 | one batch item from one entry: its UUID, the batch id, the seq or fallback, the trimmed message, the event type, the local or client time, the extra object and the time snapshot; `BatchItemFields` states each of them |
| Ingest.BuildList | server.js:205-231 | the item loop as a function: the first blank entry's error, or every item; `BuildListLoop` states it |
| Ingest.BuildBatch | server.js:188-232 | `buildBatchEvents` as a function; `BatchAllOrNothing`, `BatchItemFields` and `BatchNamesFirstBlank` state what it decides |
| Ingest.FirstBlankNone | server.js:206-211 | no blank entry is found exactly when no entry is blank |
| Ingest.FirstBlankIsFirst | server.js:206-211 | the blank index found is in range, is blank, and every entry before it has a message |
| Ingest.FirstBlankAt | server.js:206-211 | the first blank entry is the one found |
| Ingest.ItemsUpToNext | server.js:206-230 | each further entry adds its own item at the end, so the items follow the entries in order |
| Ingest.TooManyErrorText | server.js:200-202 | the size error reads "events array exceeds " followed by the limit 5000 |
| Ingest.BuildBatchEvents | server.js:188-232 | the method computes exactly the batch decision `BuildBatch` |
| Ingest.BuildListLoop | server.js:205-231 | the item loop stops at the first blank entry with its error, or builds every item in order |
| Ingest.BatchAllOrNothing | server.js:194-231 | a batch succeeds exactly when the list exists, has 1 to 5000 entries and none is blank; then there is one item per entry, each with a non-empty message and the batch's id |
| Ingest.BatchItemFields | server.js:203-229 | on success item `k` has the `k+1`-th UUID, the batch's id (the first UUID), the client seq or else `start + k`, the trimmed message, the trimmed event type or else null, the local time or else the client time, the extra object or else null, and the shared time snapshot |
| Ingest.BatchNamesFirstBlank | server.js:206-211 | when entry `i` is the first blank one, the result is the error `events[i] message is required` with no items |
| AppendLogs.BatchLinesAreEventLines | server.js:337 | the batch write is the same text as one line per item |
| AppendLogs.TerminatedSerialised | server.js:337 | one batch write carries the same text as appending its items one by one |
| AppendLogs.LoadEvents | server.js:81-99 | the loop returns the values of the non-empty lines that parse, in file order, and nothing for a missing or blank file |
| AppendLogs.Parsed | server.js:91-97 | the values of the lines that parse, in order, at most one per line; `ParsedAppend` and `ParsedSerialised` state it |
| AppendLogs.LoadLines | server.js:86-98 | `loadEvents` on present text: nothing for blank text, otherwise the parsed non-empty lines; `LoadAfterAppend` states the round trip |
| AppendLogs.Loaded | server.js:81-99 | `loadEvents` on a file that may be missing (then nothing); `LoadEvents` is proved equal to it |
| AppendLogs.ParsedAppend | server.js:91-97 | loading lines in two stretches is loading each in turn |
| AppendLogs.ParsedSerialised | server.js:91-97 | parsing serialised values gives them back in order |
| AppendLogs.SplitSerialised | server.js:89 | splitting serialised lines gives the lines back and one empty piece |
| AppendLogs.ParsedBlank | server.js:91-97 | blank lines add nothing |
| AppendLogs.LoadWellTerminated | server.js:86-98 | loading text that ends at a line break reads the lines before the final break |
| AppendLogs.LoadAfterAppend | server.js:86-98 | loading after appending serialised lines to a file that ends at a line break gives the old records followed by exactly the appended ones |
| AppendLogs.LoadAfterBatch | server.js:337-340 | the batch serialisation followed by a reload gives the old records and then the batch items |
| AppendLogs.LoadAfterEvent | server.js:245-247 | one appended event line followed by a reload gives the old records and then the event |
| AppendLogs.TornTailDropped | server.js:89-96 | a truncated final line that does not parse is dropped, and all earlier records are kept |
| AppendLogs.TornTailSwallowsNext | server.js:239-247 | a line appended after a torn final line joins it, and is lost on reload when the joined text does not parse |
| AppendLogs.LoadEmpty | server.js:86-88 | an empty file holds no records |
| AppendLogs.WrittenAllOk | server.js:239-243 | when every write succeeds, the file gains all lines in submission order |
| AppendLogs.WrittenAppend | server.js:239-243 | a failed write does not stop later ones; they land as if it had never been queued |
| AppendLogs.AppendLog.constructor | server.js:234-237 | a log starts with its file's text and an empty queue |
| AppendLogs.AppendLog.Submit | server.js:239-242 | a line goes behind everything already queued, and the file does not change yet |
| AppendLogs.AppendLog.Settle | server.js:240-241 | the oldest queued write settles: on success its line is appended, on failure nothing is, and the queue moves on |
| AppendLogs.AppendLog.Truncate | server.js:357-358 | a successful `writeFile(file, "")` empties the file; a failed one changes nothing |
| EventServer.RouteOf | server.js:271-373 | the handler a method and path select; `Routing` states it |
| EventServer.ParseBody | server.js:249-269 | `parseJsonBody`: 413, 500 or 400 refusals, `{}` for empty text, else the parsed value; `ParseBodyRefusals` states it |
| EventServer.ReadPayload | server.js:307-308 | `if (!payload) return true`: a refusal is answered, a falsy payload gets no response; `ParseBodyOfSerialised` states it |
| EventServer.InstantPostStep | server.js:306-325 | the instant POST as a step; `InstantPostStores` states its outcomes |
| EventServer.StoreInstant | server.js:311-324 | a built event is a 400 on error, else pushed after a successful append, else a 500 |
| EventServer.BatchPostStep | server.js:327-351 | the batch POST as a step; `BatchPostStores` states its outcomes |
| EventServer.DeleteStep | server.js:353-365 | DELETE as a step; `DeleteOutcome` states its outcomes |
| EventServer.Api | server.js:271-373 | `handleApi` as a step; `Routing`, `StoreChangesOnlyAfterWrite` and `DurablePreserved` state it |
| EventServer.ParseBodyOfSerialised | server.js:249-257 | a body holding a serialised value parses back to it, and passes the falsy-payload check exactly when the value is truthy |
| EventServer.ParseBodyRefusals | server.js:249-269 | a body is refused exactly when it is too large (413), unreadable (500) or non-empty text that does not parse (400) |
| EventServer.Routing | server.js:271-373 | only `/api/` paths are handled; there an unknown GET is 404 and any other unmatched method or path is 405 with `Allow: GET, POST, DELETE`; GETs change nothing |
| EventServer.StoreChangesOnlyAfterWrite | server.js:316-349 | the store and the files change only through a successful append answered with 201; a failed append after an accepted body is answered 500 and changes nothing; a 201 means the store grew |
| EventServer.InstantPostStores | server.js:306-325 | a blank message is a 400 that changes nothing; otherwise, after a successful write, exactly one record is pushed with the trimmed message, the client seq or else the store length + 1, and the drawn id, and its line is appended; a failed write is a 500 that changes nothing |
| EventServer.BatchPostStores | server.js:327-351 | a rejected batch is a 400 that changes nothing; an accepted one pushes all its items in order, with fallback seqs from the store length + 1, appends their lines, and reports the batch id and the count; a failed write is a 500 that changes nothing |
| EventServer.DurablePreserved | server.js:306-365 | every request keeps the store equal to what a reload of the files would give, except a DELETE whose truncation fails |
| EventServer.DeleteOutcome | server.js:353-365 | DELETE empties both stores before touching the files; full success empties everything and answers 200; a failure answers 500 with the store empty, and a restart brings back what the untouched files hold |
| EventServer.StartupDurable | server.js:410-415 | the store loaded at start-up agrees with its files when they end at a line break |
| EventServer.Server.constructor | server.js:410-415 | missing files start empty and each store is what `loadEvents` reads from its file |
| EventServer.Server.Append | server.js:239-243 | an append on an idle queue adds the line exactly when the write succeeds, and leaves the queue idle |
| EventServer.Server.HandleInstantPost | server.js:306-325 | the instant POST changes the store and the file exactly as the instant step does |
| EventServer.Server.StoreBuiltInstant | server.js:311-324 | a built event is pushed only after its line has been appended |
| EventServer.Server.HandleBatchPost | server.js:327-351 | the batch POST changes the store and the file exactly as the batch step does |
| EventServer.Server.HandleDelete | server.js:353-365 | DELETE clears the store and then truncates the instant file and then the batch file, stopping at the first failure |
| EventServer.Server.HandleApi | server.js:271-373 | every request changes the store, the files and the reply exactly as `Api` does |
| ResultsView.FormatServerCell | main.js:288-297 | `formatServerCell`: "" for a missing event, else its parts joined; `ServerCellOfRecord` states how a record reads |
| ResultsView.FormatLocalCell | main.js:299-307 | `formatLocalCell`: "" for a missing entry, else its parts joined; `LocalCellShape` states how it reads |
| ResultsView.LocalCellShape | main.js:299-307 | a local cell reads `#seq`, then the local time and the message, each after one space when non-empty |
| ResultsView.ServerCellOfRecord | main.js:288-297 | a stored instant record shows `#seq`, its local server time (or else the ISO time), `client:` and the client time when there is one, and its message |
| ResultsView.RecordCellParts | main.js:292-295 | the four parts of a record's cell are its seq label, its time, its client part and its message |
| ResultsView.RenderResults | main.js:262-286 | there are as many rows as the longer list, none exactly when both are empty; row i pairs server event i with journal entry i |
| ResultsView.RowPadding | main.js:279-280 | in a row past the end of one list, that list's cell is empty |
| Exchange.InstantAccepted | main.js:146-152 | the server rejects a client's instant body exactly when its message is blank; otherwise it keeps the client seq and the trimmed message, and takes the local time as the client time |
| Exchange.BatchPayloadList | main.js:219-227 | the batch body lists one object per selected entry, in order |
| Exchange.EntryBlank | server.js:207-211 | a batch entry from the client is blank exactly when its message is all whitespace |
| Exchange.BatchAccepted | main.js:219-227 | a batch of 1 to 5000 non-blank entries is accepted whole, and every item keeps its entry's seq and trimmed message |
| Exchange.UnsentAccepted | main.js:215-227 | what `sendBatchEvents` selects from a journal of non-blank messages is accepted whole when it has at most 5000 entries, with every seq kept |
| Exchange.OversizedBatchRejected | server.js:200-202 | more than 5000 entries are rejected with the size error, whatever they hold |

## Left out

- Animation, DOM updates, `fetch`, `setControls`, `serveStatic`, MIME lookup, path checks, `listen`: these are I/O and presentation. Only the row and list contents are modelled.
- Promise chaining as real concurrency (`sendQueue`, `writeQueues`): requests are served one at a time and each queue settles in submission order. Interleavings and partial writes within one `appendFile` are not modelled.
- `readRequestBody` and the `MAX_BODY_SIZE` comparison at server.js:106: the body arrives as `Body.Received`, `Body.TooLarge` or `Body.ReadFailed`. Measuring the length in UTF-16 units is not modelled.
- `JSON.parse`/`JSON.stringify` internals: replaced by the `Codec` law.
- `randomUUID`, `Date`, `Intl.DateTimeFormat`: replaced by the `Env` parameters and an opaque `ServerTime`.
- The fetch in `clearLogs` (main.js:320-322) and the `renderResults([], [])` call in it: the DELETE itself is modelled on the server.
- `localStorage` failures (the empty `catch` blocks): storage writes are assumed to succeed.
- `loadLocalEvents` (main.js:64-75) and malformed stored journal entries (null, non-integer seq): the journal is typed, so `Client.Load` takes a parsed journal or none; an unreadable one is `None`.
- JsValues.StringToNumber: does not model hexadecimal, octal or binary literals, or numeric separators. Finite numbers are exact reals, and a JSON number is an exact decimal, so double rounding is not modelled.
- ClientJournal.Client.NextSeq: the counter is an unbounded integer. In the browser it is a double, so `eventSeq += 1` stops changing at 2^53, and a stored counter such as "1e400" reads as `Infinity`. The model proves the counter always grows, which holds only below 2^53.
- JsValues.Display: a non-integer number displays as "", and integers of 1e21 or more are not written in exponent form.
- ClientJournal.Client.SendBatchEvents: the response of `fetch` is a `bool`; the JSON it returns is not read.
- EventServer.Server.HandleApi: the HTTP headers (`Content-Type`, `Content-Length`, `Cache-Control`) are not modelled; a response is its status and its JSON value or text.
