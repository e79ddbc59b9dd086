/** The API part of the HTTP server: routing, body intake, the per-route
    effects on the in-memory store and on the two NDJSON files, and the
    replies. Each request's effect is a pure step on a `State`; the `Server`
    class performs it on its fields and its two append logs. */
module EventServer {
  import opened Wrappers
  import opened JsText
  import opened JsValues
  import opened Ingest
  import opened AppendLogs

  // ---------------------------------------------------------------------
  // Requests and replies
  // ---------------------------------------------------------------------

  /** What reading the request body gave: its text, the size limit tripped,
      or another stream error. */
  datatype Body = Received(text: string) | TooLarge | ReadFailed

  datatype Request = Request(verb: string, path: string, body: Body)

  datatype Response =
    | Json(status: nat, payload: JsValue)
    | Text(status: nat, message: string)
    /** 405 "Method Not Allowed" with an `Allow` header. */
    | NotAllowed(allow: string)
  {
    function Status(): nat {
      match this
      case Json(s, _) => s
      case Text(s, _) => s
      case NotAllowed(_) => 405
    }
  }

  /** `handleApi`'s outcome: not an API request (static serving takes
      over), handled without any response written, or answered. */
  datatype Reply = Unhandled | Silent | Answer(response: Response)

  function ErrorJson(status: nat, message: string): Response {
    Json(status, JObj(map["error" := JStr(message)]))
  }

  const ServerError: Response := Text(500, "Internal server error")
  const NotFound: Response := Text(404, "Not found")
  const AllowedMethods: string := "GET, POST, DELETE"

  /** What the world decides during one request: the UUIDs drawn in order,
      the clock, and how the first and second file operation turn out. */
  datatype Env = Env(ids: seq<string>, time: ServerTime, firstWrite: bool, secondWrite: bool)

  /** Enough UUIDs for the largest batch and its id. */
  predicate Supplied(env: Env) {
    |env.ids| > MAX_BATCH_EVENTS
  }

  /** The in-memory store next to the contents of the two files. */
  datatype State = State(instant: seq<JsValue>, batch: seq<JsValue>, instantFile: string, batchFile: string)

  datatype Step = Step(state: State, reply: Reply)

  /** The store agrees with its files: reloading them gives the store back,
      and each file ends at a line break. */
  predicate Durable(c: Codec, s: State) {
    && WellTerminated(s.instantFile) && WellTerminated(s.batchFile)
    && s.instant == LoadLines(c, s.instantFile)
    && s.batch == LoadLines(c, s.batchFile)
  }

  /** What a restart would load. */
  function Restart(c: Codec, s: State): State {
    s.(instant := LoadLines(c, s.instantFile), batch := LoadLines(c, s.batchFile))
  }

  // ---------------------------------------------------------------------
  // Routing
  // ---------------------------------------------------------------------

  predicate IsApiPath(path: string) {
    |path| >= 5 && path[..5] == "/api/"
  }

  datatype Route =
    | NotApi
    | GetAll | GetInstant | GetBatch | GetHealth | GetUnknown
    | PostInstant | PostBatch
    | DeleteAll
    | Unsupported

  function RouteOf(verb: string, path: string): Route {
    if !IsApiPath(path) then NotApi
    else if verb == "GET" then
      if path == "/api/events" then GetAll
      else if path == "/api/events/instant" then GetInstant
      else if path == "/api/events/batch" then GetBatch
      else if path == "/api/health" then GetHealth
      else GetUnknown
    else if verb == "POST" && path == "/api/events/instant" then PostInstant
    else if verb == "POST" && path == "/api/events/batch" then PostBatch
    else if verb == "DELETE" && path == "/api/events" then DeleteAll
    else Unsupported
  }

  // ---------------------------------------------------------------------
  // Body intake
  // ---------------------------------------------------------------------

  datatype BodyOutcome = Payload(value: JsValue) | Refused(response: Response)

  /** parseJsonBody: an empty body is `{}`, unparsable text is 400, an
      oversized body 413 and any other read error 500. */
  function ParseBody(c: Codec, body: Body): BodyOutcome {
    match body
    case TooLarge => Refused(ErrorJson(413, "Payload too large"))
    case ReadFailed => Refused(ServerError)
    case Received(text) =>
      if text == "" then Payload(JObj(map[]))
      else match c.parse(text)
        case None => Refused(ErrorJson(400, "Invalid JSON payload"))
        case Some(v) => Payload(v)
  }

  datatype Intake = Proceed(payload: JsValue) | Stop(reply: Reply)

  /** The POST handlers' `if (!payload) return true`: a refused body has
      already been answered, and a falsy payload (`null`, `0`, `false`,
      `""`) ends the request with no response written. */
  function ReadPayload(c: Codec, body: Body): Intake {
    match ParseBody(c, body)
    case Refused(response) => Stop(Answer(response))
    case Payload(v) => if Truthy(v) then Proceed(v) else Stop(Silent)
  }

  /** The body a client sends parses back to the value it serialised. */
  lemma ParseBodyOfSerialised(c: Codec, v: JsValue)
    requires Lawful(c)
    ensures ParseBody(c, Received(c.stringify(v))) == Payload(v)
    ensures Truthy(v) <==> ReadPayload(c, Received(c.stringify(v))) == Proceed(v)
  {
    assert OneLine(c.stringify(v));
  }

  /** Which bodies are refused, and with which status. */
  lemma ParseBodyRefusals(c: Codec, body: Body)
    requires Lawful(c)
    ensures ParseBody(c, body).Refused? <==>
              || body.TooLarge? || body.ReadFailed?
              || (body.Received? && body.text != "" && c.parse(body.text).None?)
    ensures ParseBody(c, body).Refused? ==>
              ParseBody(c, body).response.Status() ==
                (if body.TooLarge? then 413 else if body.ReadFailed? then 500 else 400)
    ensures body.Received? && AllWhiteSpace(body.text) && body.text != "" ==>
              ParseBody(c, body) == Refused(ErrorJson(400, "Invalid JSON payload"))
  {
  }

  // ---------------------------------------------------------------------
  // The routes
  // ---------------------------------------------------------------------

  function Listing(s: State, route: Route, time: ServerTime): Response
    requires route.GetAll? || route.GetInstant? || route.GetBatch? || route.GetHealth?
  {
    match route
    case GetAll =>
      Json(200, JObj(map[
        "instant" := JArr(s.instant),
        "batch" := JArr(s.batch),
        "counts" := JObj(map[
          "instant" := JNum(|s.instant| as real),
          "batch" := JNum(|s.batch| as real)]),
        "updatedAt" := JStr(time.iso)]))
    case GetInstant => Json(200, JObj(map["items" := JArr(s.instant)]))
    case GetBatch => Json(200, JObj(map["items" := JArr(s.batch)]))
    case GetHealth => Json(200, JObj(map["status" := JStr("ok")]))
  }

  function CreatedEvent(record: JsValue): Response {
    Json(201, JObj(map["ok" := JBool(true), "event" := record]))
  }

  function CreatedBatch(batchId: string, stored: nat): Response {
    Json(201, JObj(map["ok" := JBool(true), "batchId" := JStr(batchId), "stored" := JNum(stored as real)]))
  }

  /** The stored records of a batch, in order. */
  function Records(items: seq<BatchItem>): (r: seq<JsValue>)
    ensures |r| == |items|
  {
    seq(|items|, k requires 0 <= k < |items| => items[k].ToJson())
  }

  /** POST /api/events/instant: the record is pushed only once its line has
      been appended; a failed append is a 500 and changes nothing. */
  function InstantPostStep(c: Codec, s: State, body: Body, env: Env): Step
    requires Supplied(env)
  {
    match ReadPayload(c, body)
    case Stop(reply) => Step(s, reply)
    case Proceed(p) => StoreInstant(c, s, BuildInstantEvent(p, |s.instant| + 1, env.ids[0], env.time), env)
  }

  /** What happens to a built instant event: an error is a 400; a record is
      appended to the file and, once that has succeeded, pushed. */
  function StoreInstant(c: Codec, s: State, built: Result<InstantEvent>, env: Env): Step {
    match built
    case Failure(e) => Step(s, Answer(ErrorJson(400, e)))
    case Ok(ev) =>
      var record := ev.ToJson();
      if env.firstWrite then
        Step(s.(instant := s.instant + [record], instantFile := s.instantFile + EventLine(c, record)),
             Answer(CreatedEvent(record)))
      else Step(s, Answer(ServerError))
  }

  /** POST /api/events/batch: all items go to the file in one append, and
      are pushed only once it has succeeded. */
  function BatchPostStep(c: Codec, s: State, body: Body, env: Env): Step
    requires Supplied(env)
  {
    match ReadPayload(c, body)
    case Stop(reply) => Step(s, reply)
    case Proceed(p) =>
      match BuildBatch(p, |s.batch| + 1, env.ids, env.time)
      case Failure(e) => Step(s, Answer(ErrorJson(400, e)))
      case Ok(b) =>
        var records := Records(b.items);
        if env.firstWrite then
          Step(s.(batch := s.batch + records, batchFile := s.batchFile + BatchLines(c, records)),
               Answer(CreatedBatch(b.batchId, |b.items|)))
        else Step(s, Answer(ServerError))
  }

  /** DELETE /api/events: both stores are emptied first, then the instant
      file and then the batch file are truncated; a failed truncation is a
      500 and leaves that file (and the one after it) as it was. */
  function DeleteStep(s: State, env: Env): Step {
    var cleared := s.(instant := [], batch := []);
    if !env.firstWrite then Step(cleared, Answer(ServerError))
    else if !env.secondWrite then Step(cleared.(instantFile := ""), Answer(ServerError))
    else Step(cleared.(instantFile := "", batchFile := ""), Answer(Json(200, JObj(map["ok" := JBool(true)]))))
  }

  /** handleApi. */
  function Api(c: Codec, s: State, req: Request, env: Env): Step
    requires Supplied(env)
  {
    var route := RouteOf(req.verb, req.path);
    match route
    case NotApi => Step(s, Unhandled)
    case GetUnknown => Step(s, Answer(NotFound))
    case PostInstant => InstantPostStep(c, s, req.body, env)
    case PostBatch => BatchPostStep(c, s, req.body, env)
    case DeleteAll => DeleteStep(s, env)
    case Unsupported => Step(s, Answer(NotAllowed(AllowedMethods)))
    case _ => Step(s, Answer(Listing(s, route, env.time)))
  }

  // ---------------------------------------------------------------------
  // What handleApi promises
  // ---------------------------------------------------------------------

  /** Only paths under `/api/` are handled; there, an unknown GET is 404 and
      any other method or path that has no handler is 405 with the allowed
      methods; GET requests change nothing. */
  lemma Routing(c: Codec, s: State, req: Request, env: Env)
    requires Supplied(env)
    ensures var r := Api(c, s, req, env);
      r.reply == Unhandled <==> !IsApiPath(req.path)
    ensures var r := Api(c, s, req, env);
      IsApiPath(req.path) && req.verb == "GET"
      && req.path !in {"/api/events", "/api/events/instant", "/api/events/batch", "/api/health"}
      ==> r.reply == Answer(NotFound) && r.reply.response.Status() == 404
    ensures var r := Api(c, s, req, env);
      IsApiPath(req.path) && req.verb != "GET"
      && !(req.verb == "POST" && req.path in {"/api/events/instant", "/api/events/batch"})
      && !(req.verb == "DELETE" && req.path == "/api/events")
      ==> r.reply == Answer(NotAllowed("GET, POST, DELETE")) && r.reply.response.Status() == 405
    ensures var r := Api(c, s, req, env);
      req.verb == "GET" || !IsApiPath(req.path) ==> r.state == s
  {
  }

  /** The stores change only through an append that succeeded, and the
      client is then told 201; a failed append is a 500 and changes nothing.
      Only DELETE empties them. */
  lemma StoreChangesOnlyAfterWrite(c: Codec, s: State, req: Request, env: Env)
    requires Supplied(env)
    ensures var r := Api(c, s, req, env);
      (r.state.instant != s.instant || r.state.batch != s.batch || r.state.instantFile != s.instantFile
       || r.state.batchFile != s.batchFile)
      && RouteOf(req.verb, req.path) != DeleteAll
      ==> env.firstWrite && r.reply.Answer? && r.reply.response.Status() == 201
    ensures var r := Api(c, s, req, env);
      var route := RouteOf(req.verb, req.path);
      (route == PostInstant || route == PostBatch) && !env.firstWrite ==> r.state == s
    ensures var r := Api(c, s, req, env);
      var route := RouteOf(req.verb, req.path);
      var intake := ReadPayload(c, req.body);
      intake.Proceed? && !env.firstWrite
      && (route == PostInstant ==> BuildInstantEvent(intake.payload, |s.instant| + 1, env.ids[0], env.time).Ok?)
      && (route == PostBatch ==> BuildBatch(intake.payload, |s.batch| + 1, env.ids, env.time).Ok?)
      && (route == PostInstant || route == PostBatch)
      ==> r == Step(s, Answer(ServerError)) && r.reply.response.Status() == 500
    ensures var r := Api(c, s, req, env);
      r.reply.Answer? && r.reply.response.Status() == 201 ==>
        && env.firstWrite
        && (RouteOf(req.verb, req.path) == PostInstant ==>
              |r.state.instant| == |s.instant| + 1 && r.state.batch == s.batch)
        && (RouteOf(req.verb, req.path) == PostBatch ==>
              |r.state.batch| > |s.batch| && r.state.instant == s.instant)
  {
    var route := RouteOf(req.verb, req.path);
    if route == PostBatch {
      var intake := ReadPayload(c, req.body);
      if intake.Proceed? {
        BatchAllOrNothing(intake.payload, |s.batch| + 1, env.ids, env.time);
      }
    }
  }

  /** An instant event the client serialised is stored as one record at the
      end of the store, with the trimmed message and the client's seq or,
      failing that, the next position; its line goes to the end of the
      file. A missing message is a 400 that changes nothing. */
  lemma InstantPostStores(c: Codec, s: State, p: JsValue, env: Env)
    requires Lawful(c) && Supplied(env) && Truthy(p)
    ensures var r := InstantPostStep(c, s, Received(c.stringify(p)), env);
      NormalizeString(Get(p, "message")) == "" ==>
        r == Step(s, Answer(ErrorJson(400, "message is required")))
    ensures var r := InstantPostStep(c, s, Received(c.stringify(p)), env);
      NormalizeString(Get(p, "message")) != "" && env.firstWrite ==>
        && |r.state.instant| == |s.instant| + 1
        && r.state.instant[..|s.instant|] == s.instant
        && r.state.batch == s.batch && r.state.batchFile == s.batchFile
        && var record := r.state.instant[|s.instant|];
           && r.state.instantFile == s.instantFile + EventLine(c, record)
           && Get(record, "message") == Some(JStr(NormalizeString(Get(p, "message"))))
           && Get(record, "seq") == Some(JNum(NormalizeSeq(Get(p, "seq"), |s.instant| + 1) as real))
           && Get(record, "id") == Some(JStr(env.ids[0]))
           && r.reply == Answer(CreatedEvent(record))
    ensures var r := InstantPostStep(c, s, Received(c.stringify(p)), env);
      NormalizeString(Get(p, "message")) != "" && !env.firstWrite ==>
        r == Step(s, Answer(ServerError)) && r.reply.response.Status() == 500
  {
    ParseBodyOfSerialised(c, p);
    var built := BuildInstantEvent(p, |s.instant| + 1, env.ids[0], env.time);
    assert InstantPostStep(c, s, Received(c.stringify(p)), env) == StoreInstant(c, s, built, env);
    if built.Ok? && env.firstWrite {
      var ev := built.value;
      var record := ev.ToJson();
      InstantRecord(ev);
      var stored := s.(instant := s.instant + [record], instantFile := s.instantFile + EventLine(c, record));
      assert StoreInstant(c, s, built, env) == Step(stored, Answer(CreatedEvent(record)));
      assert stored.instant[..|s.instant|] == s.instant;
      assert stored.instant[|s.instant|] == record;
    }
  }


  /** A batch the client serialised is stored whole or not at all: on
      success every built item is pushed, in order, behind the existing
      records (the fallback seqs start at the store's length + 1), and the
      file gains the batch's lines; a rejected batch is a 400 that changes
      nothing. */
  lemma BatchPostStores(c: Codec, s: State, p: JsValue, env: Env)
    requires Lawful(c) && Supplied(env) && Truthy(p)
    ensures var r := BatchPostStep(c, s, Received(c.stringify(p)), env);
      var b := BuildBatch(p, |s.batch| + 1, env.ids, env.time);
      b.Failure? ==> r == Step(s, Answer(ErrorJson(400, b.error)))
    ensures var r := BatchPostStep(c, s, Received(c.stringify(p)), env);
      var b := BuildBatch(p, |s.batch| + 1, env.ids, env.time);
      b.Ok? && env.firstWrite ==>
        && r.state.batch == s.batch + Records(b.value.items)
        && |r.state.batch| == |s.batch| + |EventList(p).value|
        && r.state.batchFile == s.batchFile + BatchLines(c, Records(b.value.items))
        && r.state.instant == s.instant && r.state.instantFile == s.instantFile
        && r.reply == Answer(CreatedBatch(env.ids[0], |EventList(p).value|))
    ensures var r := BatchPostStep(c, s, Received(c.stringify(p)), env);
      var b := BuildBatch(p, |s.batch| + 1, env.ids, env.time);
      b.Ok? && !env.firstWrite ==>
        r == Step(s, Answer(ServerError)) && r.reply.response.Status() == 500
  {
    ParseBodyOfSerialised(c, p);
    BatchAllOrNothing(p, |s.batch| + 1, env.ids, env.time);
  }

  /** Every request keeps the store in agreement with its files, except a
      DELETE whose truncation fails. */
  lemma DurablePreserved(c: Codec, s: State, req: Request, env: Env)
    requires Lawful(c) && Supplied(env) && Durable(c, s)
    requires RouteOf(req.verb, req.path) == DeleteAll ==> env.firstWrite && env.secondWrite
    ensures Durable(c, Api(c, s, req, env).state)
  {
    match RouteOf(req.verb, req.path)
    case PostInstant => InstantPostDurable(c, s, req.body, env);
    case PostBatch => BatchPostDurable(c, s, req.body, env);
    case DeleteAll => LoadEmpty(c);
    case _ =>
  }

  /** An instant POST keeps the store in agreement with the instant file. */
  lemma InstantPostDurable(c: Codec, s: State, body: Body, env: Env)
    requires Lawful(c) && Supplied(env) && Durable(c, s)
    ensures Durable(c, InstantPostStep(c, s, body, env).state)
  {
    var intake := ReadPayload(c, body);
    if intake.Proceed? {
      var built := BuildInstantEvent(intake.payload, |s.instant| + 1, env.ids[0], env.time);
      if built.Ok? && env.firstWrite {
        LoadAfterEvent(c, s.instantFile, built.value.ToJson());
      }
    }
  }

  /** A batch POST keeps the store in agreement with the batch file. */
  lemma BatchPostDurable(c: Codec, s: State, body: Body, env: Env)
    requires Lawful(c) && Supplied(env) && Durable(c, s)
    ensures Durable(c, BatchPostStep(c, s, body, env).state)
  {
    var intake := ReadPayload(c, body);
    if intake.Proceed? {
      var built := BuildBatch(intake.payload, |s.batch| + 1, env.ids, env.time);
      if built.Ok? && env.firstWrite {
        BatchAllOrNothing(intake.payload, |s.batch| + 1, env.ids, env.time);
        LoadAfterBatch(c, s.batchFile, Records(built.value.items));
      }
    }
  }

  /** DELETE empties both stores before touching the files. When every
      truncation succeeds everything is empty and the client is told 200;
      when one fails the client is told 500, the store stays empty, and a
      restart brings back whatever the untouched files still hold. */
  lemma DeleteOutcome(c: Codec, s: State, env: Env)
    requires Lawful(c) && Durable(c, s)
    ensures var r := DeleteStep(s, env);
      r.state.instant == [] && r.state.batch == []
    ensures var r := DeleteStep(s, env);
      env.firstWrite && env.secondWrite ==>
        && r.state == State([], [], "", "")
        && r.reply == Answer(Json(200, JObj(map["ok" := JBool(true)])))
        && Durable(c, r.state)
    ensures var r := DeleteStep(s, env);
      !(env.firstWrite && env.secondWrite) ==>
        && r.reply == Answer(ServerError) && r.reply.response.Status() == 500
        && Restart(c, r.state).instant == (if env.firstWrite then [] else s.instant)
        && Restart(c, r.state).batch == s.batch
  {
    LoadEmpty(c);
  }

  /** Start-up: ensureDataFiles creates a missing file empty and the store
      is what loadEvents reads from each; when the files end at a line break
      the store and the files agree from the start. */
  lemma StartupDurable(c: Codec, instantFile: Option<string>, batchFile: Option<string>)
    requires Lawful(c)
    requires WellTerminated(instantFile.GetOr("")) && WellTerminated(batchFile.GetOr(""))
    ensures Durable(c, State(Loaded(c, instantFile), Loaded(c, batchFile), instantFile.GetOr(""), batchFile.GetOr("")))
  {
    LoadEmpty(c);
  }

  // ---------------------------------------------------------------------
  // The running server
  // ---------------------------------------------------------------------

  /** The `store` object and the two files with their write queues. */
  class Server {
    const codec: Codec
    var instant: seq<JsValue>
    var batch: seq<JsValue>
    const instantLog: AppendLog
    const batchLog: AppendLog

    /** Requests are served one at a time, so no write is left queued
        between them. */
    ghost predicate Valid()
      reads this, instantLog, batchLog
    {
      && instantLog != batchLog
      && instantLog.Valid() && batchLog.Valid()
      && instantLog.pending == [] && batchLog.pending == []
    }

    function Snapshot(): State
      reads this, instantLog, batchLog
    {
      State(instant, batch, instantLog.text, batchLog.text)
    }

    /** Start-up: missing files are created empty and each store is loaded
        from its file. */
    constructor (c: Codec, instantFile: Option<string>, batchFile: Option<string>)
      ensures Valid() && codec == c
      ensures Snapshot() == State(Loaded(c, instantFile), Loaded(c, batchFile),
                                  instantFile.GetOr(""), batchFile.GetOr(""))
    {
      codec := c;
      var loadedInstant := LoadEvents(c, instantFile);
      var loadedBatch := LoadEvents(c, batchFile);
      instant := loadedInstant;
      batch := loadedBatch;
      instantLog := new AppendLog(instantFile.GetOr(""));
      batchLog := new AppendLog(batchFile.GetOr(""));
    }

    /** queueAppendLine on an idle queue: the line is queued, then its write
        settles with outcome `ok`. */
    method Append(log: AppendLog, line: string, ok: bool) returns (written: bool)
      requires Valid() && (log == instantLog || log == batchLog)
      modifies log
      ensures Valid() && written == ok
      ensures log.text == old(log.text) + (if ok then line else "")
    {
      log.Submit(line);
      written := log.Settle(ok);
    }

    method HandleInstantPost(body: Body, env: Env) returns (reply: Reply)
      requires Valid() && Supplied(env)
      modifies this, instantLog
      ensures Valid()
      ensures Step(Snapshot(), reply) == InstantPostStep(codec, old(Snapshot()), body, env)
    {
      var intake := ReadPayload(codec, body);
      if intake.Stop? {
        return intake.reply;
      }
      var built := BuildInstantEvent(intake.payload, |instant| + 1, env.ids[0], env.time);
      reply := StoreBuiltInstant(built, env);
    }

    method StoreBuiltInstant(built: Result<InstantEvent>, env: Env) returns (reply: Reply)
      requires Valid()
      modifies this, instantLog
      ensures Valid()
      ensures Step(Snapshot(), reply) == StoreInstant(codec, old(Snapshot()), built, env)
    {
      if built.Failure? {
        return Answer(ErrorJson(400, built.error));
      }
      var record := built.value.ToJson();
      var ok := Append(instantLog, EventLine(codec, record), env.firstWrite);
      if !ok {
        return Answer(ServerError);
      }
      instant := instant + [record];
      reply := Answer(CreatedEvent(record));
    }

    method HandleBatchPost(body: Body, env: Env) returns (reply: Reply)
      requires Valid() && Supplied(env)
      modifies this, batchLog
      ensures Valid()
      ensures Step(Snapshot(), reply) == BatchPostStep(codec, old(Snapshot()), body, env)
    {
      var intake := ReadPayload(codec, body);
      if intake.Stop? {
        return intake.reply;
      }
      var built := BuildBatchEvents(intake.payload, |batch| + 1, env.ids, env.time);
      if built.Failure? {
        return Answer(ErrorJson(400, built.error));
      }
      var records := Records(built.value.items);
      var ok := Append(batchLog, BatchLines(codec, records), env.firstWrite);
      if !ok {
        return Answer(ServerError);
      }
      batch := batch + records;
      reply := Answer(CreatedBatch(built.value.batchId, |built.value.items|));
    }

    method HandleDelete(env: Env) returns (reply: Reply)
      requires Valid()
      modifies this, instantLog, batchLog
      ensures Valid()
      ensures Step(Snapshot(), reply) == DeleteStep(old(Snapshot()), env)
    {
      instant := [];
      batch := [];
      var ok := instantLog.Truncate(env.firstWrite);
      if !ok {
        return Answer(ServerError);
      }
      ok := batchLog.Truncate(env.secondWrite);
      if !ok {
        return Answer(ServerError);
      }
      reply := Answer(Json(200, JObj(map["ok" := JBool(true)])));
    }

    /** handleApi for one request. */
    method HandleApi(req: Request, env: Env) returns (reply: Reply)
      requires Valid() && Supplied(env)
      modifies this, instantLog, batchLog
      ensures Valid()
      ensures Step(Snapshot(), reply) == Api(codec, old(Snapshot()), req, env)
    {
      var route := RouteOf(req.verb, req.path);
      match route
      case NotApi => reply := Unhandled;
      case GetUnknown => reply := Answer(NotFound);
      case PostInstant => reply := HandleInstantPost(req.body, env);
      case PostBatch => reply := HandleBatchPost(req.body, env);
      case DeleteAll => reply := HandleDelete(env);
      case Unsupported => reply := Answer(NotAllowed(AllowedMethods));
      case _ => reply := Answer(Listing(Snapshot(), route, env.time));
    }
  }
}
