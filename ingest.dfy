/** The server's validation of incoming events (server.js): normalising
    strings and seqs, and building the stored record of an instant event or
    of every event of a batch. */
module Ingest {
  import opened Wrappers
  import opened JsText
  import opened JsValues

  /** Largest number of events one batch may carry (MAX_BATCH_EVENTS). */
  const MAX_BATCH_EVENTS: nat := 5000

  /** What getServerTime reports for the moment a request is handled. The
      clock and the time-zone formatter are outside the model, so the four
      values are given. */
  datatype ServerTime = ServerTime(iso: string, local: string, zone: string, ms: int)

  /** The fields `...time` spreads into a stored record. */
  function TimeFields(t: ServerTime): map<string, JsValue> {
    map[
      "serverTime" := JStr(t.iso),
      "serverTimeLocal" := JStr(t.local),
      "serverTimeZone" := JStr(t.zone),
      "serverTimeMs" := JNum(t.ms as real)]
  }

  /** normalizeString: a string is trimmed, anything else (or a missing
      property) becomes "". */
  function NormalizeString(v: Option<JsValue>): string {
    if v.Some? && v.value.JStr? then Trim(v.value.s) else ""
  }

  /** A normalised string is the trimmed text of a string value; it is empty
      exactly when the value is no string or is all whitespace, and it
      neither starts nor ends with whitespace. */
  lemma NormalizeStringMeaning(v: Option<JsValue>)
    ensures var r := NormalizeString(v);
      && (r != "" ==> v.Some? && v.value.JStr? && r == Trim(v.value.s))
      && (r == "" <==> !(v.Some? && v.value.JStr?) || AllWhiteSpace(v.value.s))
      && (r == [] || (!IsWhiteSpace(r[0]) && !IsWhiteSpace(r[|r| - 1])))
  {
    if v.Some? && v.value.JStr? {
      TrimMeaning(v.value.s);
    }
  }

  /** `normalizeString(v) || null`. */
  function NonBlank(v: Option<JsValue>): (r: Option<string>)
    ensures r.None? <==> NormalizeString(v) == ""
    ensures r.Some? ==> r.value == NormalizeString(v)
  {
    var s := NormalizeString(v);
    if s == "" then None else Some(s)
  }

  /** Whether `Number(v)` is an integer of at least 1. */
  predicate IsPositiveInteger(x: Num) {
    IsInteger(x) && x.r >= 1.0
  }

  /** normalizeSeq: `Number(v)` when that is an integer of at least 1,
      otherwise the fallback. */
  function NormalizeSeq(v: Option<JsValue>, fallback: int): (r: int)
    ensures IsPositiveInteger(ToNumber(v)) ==> r >= 1 && ToNumber(v) == Finite(r as real)
    ensures !IsPositiveInteger(ToNumber(v)) ==> r == fallback
  {
    var x := ToNumber(v);
    if IsPositiveInteger(x) then x.r.Floor else fallback
  }

  /** A counter of at least 1, sent as a number or as its decimal text, is
      kept as it is. */
  lemma NormalizeSeqKeepsCounter(n: nat, fallback: int)
    requires n >= 1
    ensures NormalizeSeq(Some(JNum(n as real)), fallback) == n
    ensures NormalizeSeq(Some(JStr(NatToString(n))), fallback) == n
  {
    NumberOfCounter(n);
  }

  /** A missing seq, a null, 0, a negative number and a fraction all give
      the fallback. */
  lemma NormalizeSeqFallsBack(r: Decimal, fallback: int)
    requires r < 1.0 || r.Floor as real != r
    ensures NormalizeSeq(None, fallback) == fallback
    ensures NormalizeSeq(Some(JNull), fallback) == fallback
    ensures NormalizeSeq(Some(JNum(r)), fallback) == fallback
  {
  }

  /** `value && typeof value === "object" && !Array.isArray(value) ? value :
      null`: only a plain object is kept. */
  function PlainObject(v: Option<JsValue>): (r: Option<map<string, JsValue>>)
    ensures r.Some? <==> v.Some? && v.value.JObj?
    ensures r.Some? ==> v == Some(JObj(r.value))
  {
    if v.Some? && v.value.JObj? then Some(v.value.fields) else None
  }

  function OptString(o: Option<string>): JsValue {
    if o.None? then JNull else JStr(o.value)
  }

  function OptObject(o: Option<map<string, JsValue>>): JsValue {
    if o.None? then JNull else JObj(o.value)
  }

  /** The record stored for an instant event. */
  datatype InstantEvent = InstantEvent(
    id: string,
    seqNo: int,
    message: string,
    eventType: Option<string>,
    clientTime: Option<string>,
    meta: Option<map<string, JsValue>>,
    time: ServerTime)
  {
    function ToJson(): JsValue {
      JObj(map[
        "id" := JStr(id),
        "seq" := JNum(seqNo as real),
        "message" := JStr(message),
        "eventType" := OptString(eventType),
        "clientTime" := OptString(clientTime),
        "meta" := OptObject(meta)] + TimeFields(time))
    }
  }

  /** The stored record carries the event's fields under the keys the
      server writes, and the time snapshot next to them. */
  lemma InstantRecord(ev: InstantEvent)
    ensures var j := ev.ToJson();
      && Get(j, "id") == Some(JStr(ev.id))
      && Get(j, "seq") == Some(JNum(ev.seqNo as real))
      && Get(j, "message") == Some(JStr(ev.message))
      && Get(j, "eventType") == Some(OptString(ev.eventType))
      && Get(j, "clientTime") == Some(OptString(ev.clientTime))
      && Get(j, "meta") == Some(OptObject(ev.meta))
      && Get(j, "serverTime") == Some(JStr(ev.time.iso))
      && Get(j, "serverTimeLocal") == Some(JStr(ev.time.local))
  {
    InstantRecordIds(ev);
    InstantRecordRest(ev);
  }

  lemma InstantRecordIds(ev: InstantEvent)
    ensures var j := ev.ToJson();
      && Get(j, "id") == Some(JStr(ev.id))
      && Get(j, "seq") == Some(JNum(ev.seqNo as real))
      && Get(j, "message") == Some(JStr(ev.message))
  {
    assert "id" !in TimeFields(ev.time) && "seq" !in TimeFields(ev.time) && "message" !in TimeFields(ev.time);
  }

  lemma InstantRecordRest(ev: InstantEvent)
    ensures var j := ev.ToJson();
      && Get(j, "eventType") == Some(OptString(ev.eventType))
      && Get(j, "clientTime") == Some(OptString(ev.clientTime))
      && Get(j, "meta") == Some(OptObject(ev.meta))
      && Get(j, "serverTime") == Some(JStr(ev.time.iso))
      && Get(j, "serverTimeLocal") == Some(JStr(ev.time.local))
  {
    var t := TimeFields(ev.time);
    assert "eventType" !in t && "clientTime" !in t && "meta" !in t;
  }

  /** buildInstantEvent: the message is required after trimming; the seq is
      the client's when it is an integer of at least 1, otherwise the
      fallback; `id` stands for the randomUUID drawn and `time` for
      getServerTime. */
  function BuildInstantEvent(payload: JsValue, fallback: int, id: string, time: ServerTime): (r: Result<InstantEvent>)
    ensures r.Failure? <==> NormalizeString(Get(payload, "message")) == ""
    ensures r.Failure? ==> r.error == "message is required"
    ensures r.Ok? ==>
      && r.value.message == NormalizeString(Get(payload, "message")) && r.value.message != ""
      && r.value.seqNo == NormalizeSeq(Get(payload, "seq"), fallback)
      && r.value.eventType == NonBlank(Get(payload, "eventType"))
      && r.value.clientTime == NonBlank(Get(payload, "clientTime"))
      && r.value.meta == PlainObject(Get(payload, "meta"))
      && r.value.id == id && r.value.time == time
  {
    var message := NormalizeString(Get(payload, "message"));
    if message == "" then Failure("message is required")
    else Ok(InstantEvent(
      id,
      NormalizeSeq(Get(payload, "seq"), fallback),
      message,
      NonBlank(Get(payload, "eventType")),
      NonBlank(Get(payload, "clientTime")),
      PlainObject(Get(payload, "meta")),
      time))
  }

  /** One stored batch event. */
  datatype BatchItem = BatchItem(
    id: string,
    batchId: string,
    seqNo: int,
    message: string,
    eventType: Option<string>,
    localTime: Option<string>,
    extra: Option<map<string, JsValue>>,
    time: ServerTime)
  {
    function ToJson(): JsValue {
      JObj(map[
        "id" := JStr(id),
        "batchId" := JStr(batchId),
        "seq" := JNum(seqNo as real),
        "message" := JStr(message),
        "eventType" := OptString(eventType),
        "localTime" := OptString(localTime),
        "extra" := OptObject(extra)] + TimeFields(time))
    }
  }

  /** The stored record of a batch item carries its fields under the keys
      the server writes. */
  lemma BatchRecord(item: BatchItem)
    ensures var j := item.ToJson();
      && Get(j, "id") == Some(JStr(item.id))
      && Get(j, "batchId") == Some(JStr(item.batchId))
      && Get(j, "seq") == Some(JNum(item.seqNo as real))
      && Get(j, "message") == Some(JStr(item.message))
      && Get(j, "localTime") == Some(OptString(item.localTime))
      && Get(j, "serverTime") == Some(JStr(item.time.iso))
  {
    BatchRecordIds(item);
    BatchRecordRest(item);
  }

  lemma BatchRecordIds(item: BatchItem)
    ensures var j := item.ToJson();
      && Get(j, "id") == Some(JStr(item.id))
      && Get(j, "batchId") == Some(JStr(item.batchId))
      && Get(j, "seq") == Some(JNum(item.seqNo as real))
  {
    var t := TimeFields(item.time);
    assert "id" !in t && "batchId" !in t && "seq" !in t;
  }

  lemma BatchRecordRest(item: BatchItem)
    ensures var j := item.ToJson();
      && Get(j, "message") == Some(JStr(item.message))
      && Get(j, "localTime") == Some(OptString(item.localTime))
      && Get(j, "serverTime") == Some(JStr(item.time.iso))
  {
    var t := TimeFields(item.time);
    assert "message" !in t && "localTime" !in t;
  }

  /** A successful batch: its id and its items in request order. */
  datatype Batch = Batch(batchId: string, items: seq<BatchItem>)

  /** `Array.isArray(payload.events) ? payload.events :
      Array.isArray(payload.items) ? payload.items : null`. */
  function EventList(payload: JsValue): (r: Option<seq<JsValue>>)
    ensures r.Some? <==> (Get(payload, "events").Some? && Get(payload, "events").value.JArr?)
                         || (Get(payload, "items").Some? && Get(payload, "items").value.JArr?)
    ensures Get(payload, "events").Some? && Get(payload, "events").value.JArr? ==>
              r == Some(Get(payload, "events").value.items)
    ensures !(Get(payload, "events").Some? && Get(payload, "events").value.JArr?)
            && Get(payload, "items").Some? && Get(payload, "items").value.JArr? ==>
              r == Some(Get(payload, "items").value.items)
  {
    var events := Get(payload, "events");
    var items := Get(payload, "items");
    if events.Some? && events.value.JArr? then Some(events.value.items)
    else if items.Some? && items.value.JArr? then Some(items.value.items)
    else None
  }

  /** `list[i] || {}`. */
  function EntryOf(v: JsValue): JsValue {
    if Truthy(v) then v else JObj(map[])
  }

  /** An entry the batch rejects: its message is missing or blank. */
  predicate Blank(v: JsValue) {
    NormalizeString(Get(EntryOf(v), "message")) == ""
  }

  /** The index of the first blank entry, if there is one. */
  function FirstBlank(list: seq<JsValue>): Option<nat> {
    if list == [] then None
    else
      var n := |list| - 1;
      var before := FirstBlank(list[..n]);
      if before.Some? then before
      else if Blank(list[n]) then Some(n)
      else None
  }

  /** Without a blank entry there is no first one, and conversely. */
  lemma {:induction false} FirstBlankNone(list: seq<JsValue>)
    ensures FirstBlank(list).None? <==> forall k :: 0 <= k < |list| ==> !Blank(list[k])
  {
    if list != [] {
      var n := |list| - 1;
      FirstBlankNone(list[..n]);
      assert forall k :: 0 <= k < n ==> list[..n][k] == list[k];
    }
  }

  /** The first blank index is in range, names a blank entry, and every
      entry before it has a message. */
  lemma {:induction false} FirstBlankIsFirst(list: seq<JsValue>)
    requires FirstBlank(list).Some?
    ensures var i := FirstBlank(list).value;
      i < |list| && Blank(list[i]) && forall k :: 0 <= k < i ==> !Blank(list[k])
  {
    var n := |list| - 1;
    if FirstBlank(list[..n]).Some? {
      FirstBlankIsFirst(list[..n]);
      assert forall k :: 0 <= k < n ==> list[..n][k] == list[k];
    } else {
      FirstBlankNone(list[..n]);
      assert forall k :: 0 <= k < n ==> list[..n][k] == list[k];
    }
  }

  /** A blank entry preceded only by entries with a message is the first
      blank one. */
  lemma {:induction false} FirstBlankAt(list: seq<JsValue>, i: nat)
    requires i < |list| && Blank(list[i])
    requires forall k :: 0 <= k < i ==> !Blank(list[k])
    ensures FirstBlank(list) == Some(i)
  {
    var n := |list| - 1;
    var front := list[..n];
    if i < n {
      assert front[i] == list[i];
      assert forall k :: 0 <= k < i ==> front[k] == list[k];
      FirstBlankAt(front, i);
    } else {
      assert forall k :: 0 <= k < n ==> front[k] == list[k];
      FirstBlankNone(front);
    }
  }

  /** Once a prefix holds a blank entry, the rest of the list does not
      change which one is first. */
  lemma {:induction false} FirstBlankPrefix(list: seq<JsValue>, j: nat)
    requires j <= |list| && FirstBlank(list[..j]).Some?
    ensures FirstBlank(list) == FirstBlank(list[..j])
    decreases |list|
  {
    if j < |list| {
      var n := |list| - 1;
      assert list[..n][..j] == list[..j];
      FirstBlankPrefix(list[..n], j);
    } else {
      assert list[..j] == list;
    }
  }

  /** The stored form of the entry at position `i` of a batch: its seq falls
      back to `start + i`, its local time to its client time. */
  function BuildItem(v: JsValue, batchId: string, id: string, fallback: int, time: ServerTime): BatchItem {
    var entry := EntryOf(v);
    var localTime := NonBlank(Get(entry, "localTime"));
    BatchItem(
      id,
      batchId,
      NormalizeSeq(Get(entry, "seq"), fallback),
      NormalizeString(Get(entry, "message")),
      NonBlank(Get(entry, "eventType")),
      if localTime.Some? then localTime else NonBlank(Get(entry, "clientTime")),
      PlainObject(Get(entry, "extra")),
      time)
  }

  /** The item of entry `k` of a batch: it gets the id `ids[k + 1]` and the
      fallback seq `start + k`. */
  function ItemAt(list: seq<JsValue>, k: nat, batchId: string, ids: seq<string>, start: int, time: ServerTime): BatchItem
    requires k < |list| < |ids|
  {
    BuildItem(list[k], batchId, ids[k + 1], start + k, time)
  }

  /** The items of the first `n` entries of `list`, in order. */
  function ItemsUpTo(list: seq<JsValue>, n: nat, batchId: string, ids: seq<string>, start: int, time: ServerTime): (r: seq<BatchItem>)
    requires n <= |list| < |ids|
    ensures |r| == n
  {
    seq(n, k requires 0 <= k < n => ItemAt(list, k, batchId, ids, start, time))
  }

  /** Item `k` is built from entry `k` alone. */
  lemma ItemsUpToAt(list: seq<JsValue>, n: nat, batchId: string, ids: seq<string>, start: int, time: ServerTime, k: nat)
    requires k < n <= |list| < |ids|
    ensures ItemsUpTo(list, n, batchId, ids, start, time)[k] == ItemAt(list, k, batchId, ids, start, time)
  {
  }

  /** One more entry adds its item at the end. */
  lemma ItemsUpToNext(list: seq<JsValue>, n: nat, batchId: string, ids: seq<string>, start: int, time: ServerTime)
    requires n < |list| < |ids|
    ensures ItemsUpTo(list, n + 1, batchId, ids, start, time)
      == ItemsUpTo(list, n, batchId, ids, start, time) + [ItemAt(list, n, batchId, ids, start, time)]
  {
    var longer := ItemsUpTo(list, n + 1, batchId, ids, start, time);
    var shorter := ItemsUpTo(list, n, batchId, ids, start, time) + [ItemAt(list, n, batchId, ids, start, time)];
    forall k | 0 <= k < n + 1
      ensures longer[k] == shorter[k]
    {
      if k < n {
        assert shorter[k] == ItemsUpTo(list, n, batchId, ids, start, time)[k];
      }
    }
  }

  /** The error text for the first blank entry. */
  function BlankError(i: nat): string {
    "events[" + NatToString(i) + "] message is required"
  }

  /** What buildBatchEvents decides. `ids` are the UUIDs randomUUID hands
      out, in the order they are drawn: `ids[0]` is the batch id and
      `ids[i + 1]` the id of item `i`; there are enough of them for the
      largest batch. */
  function BuildBatch(payload: JsValue, start: int, ids: seq<string>, time: ServerTime): Result<Batch>
    requires |ids| > MAX_BATCH_EVENTS
  {
    match EventList(payload)
    case None => Failure("events must be an array")
    case Some(list) =>
      if |list| == 0 then Failure("events array is empty")
      else if |list| > MAX_BATCH_EVENTS then Failure(TooManyError)
      else match BuildList(list, ids[0], ids, start, time)
        case Failure(e) => Failure(e)
        case Ok(items) => Ok(Batch(ids[0], items))
  }

  /** The error text for a list above the limit: `String(MAX_BATCH_EVENTS)`
      is "5000". */
  const TooManyError: string := "events array exceeds 5000"

  lemma TooManyErrorText()
    ensures TooManyError == "events array exceeds " + NatToString(MAX_BATCH_EVENTS)
  {
  }

  /** The items of a list whose size is allowed: the error of the first blank
      entry, or every entry's item. */
  function BuildList(list: seq<JsValue>, batchId: string, ids: seq<string>, start: int, time: ServerTime): Result<seq<BatchItem>>
    requires |list| < |ids|
  {
    match FirstBlank(list)
    case Some(i) => Failure(BlankError(i))
    case None => Ok(ItemsUpTo(list, |list|, batchId, ids, start, time))
  }

  /** buildBatchEvents: check the list, then build the items one by one,
      stopping at the first entry without a message. */
  method BuildBatchEvents(payload: JsValue, start: int, ids: seq<string>, time: ServerTime)
    returns (r: Result<Batch>)
    requires |ids| > MAX_BATCH_EVENTS
    ensures r == BuildBatch(payload, start, ids, time)
  {
    var list := EventList(payload);
    if list.None? {
      return Failure("events must be an array");
    }
    var events := list.value;
    if |events| == 0 {
      return Failure("events array is empty");
    }
    if |events| > MAX_BATCH_EVENTS {
      return Failure(TooManyError);
    }
    var built := BuildListLoop(events, ids[0], ids, start, time);
    match built
    case Failure(e) =>
      r := Failure(e);
    case Ok(items) =>
      r := Ok(Batch(ids[0], items));
  }

  /** The loop of buildBatchEvents: build the items one by one, stopping at
      the first entry without a message. */
  method BuildListLoop(events: seq<JsValue>, batchId: string, ids: seq<string>, start: int, time: ServerTime)
    returns (r: Result<seq<BatchItem>>)
    requires |events| < |ids|
    ensures r == BuildList(events, batchId, ids, start, time)
  {
    var items: seq<BatchItem> := [];
    for i := 0 to |events|
      invariant FirstBlank(events[..i]).None?
      invariant items == ItemsUpTo(events, i, batchId, ids, start, time)
    {
      var entry := EntryOf(events[i]);
      var message := NormalizeString(Get(entry, "message"));
      assert events[..i + 1][..i] == events[..i];
      if message == "" {
        FirstBlankPrefix(events, i + 1);
        return Failure(BlankError(i));
      }
      ItemsUpToNext(events, i, batchId, ids, start, time);
      items := items + [ItemAt(events, i, batchId, ids, start, time)];
    }
    assert events[..|events|] == events;
    r := Ok(items);
  }

  /** A batch is all or nothing: it succeeds exactly when the list has 1 to
      5000 entries and none of them is blank, and then every entry gives one
      item, in order, with a non-empty message and the batch's id. */
  lemma BatchAllOrNothing(payload: JsValue, start: int, ids: seq<string>, time: ServerTime)
    requires |ids| > MAX_BATCH_EVENTS
    ensures var r := BuildBatch(payload, start, ids, time);
      r.Ok? <==>
        && EventList(payload).Some?
        && 1 <= |EventList(payload).value| <= MAX_BATCH_EVENTS
        && forall k :: 0 <= k < |EventList(payload).value| ==> !Blank(EventList(payload).value[k])
    ensures var r := BuildBatch(payload, start, ids, time);
      r.Ok? ==>
        && |r.value.items| == |EventList(payload).value|
        && forall k :: 0 <= k < |r.value.items| ==>
             r.value.items[k].message != "" && r.value.items[k].batchId == r.value.batchId
  {
    if EventList(payload).Some? {
      var list := EventList(payload).value;
      FirstBlankNone(list);
      if 1 <= |list| <= MAX_BATCH_EVENTS && FirstBlank(list).None? {
        var r := BuildBatch(payload, start, ids, time);
        forall k | 0 <= k < |r.value.items|
          ensures r.value.items[k].message != "" && r.value.items[k].batchId == r.value.batchId
        {
          ItemsUpToAt(list, |list|, ids[0], ids, start, time, k);
          assert !Blank(list[k]);
        }
      }
    }
  }

  /** On success item `k` comes from entry `k` alone: it has the `k + 1`-th
      UUID drawn, the client's seq or else `start + k`, the local time or else
      the client time, and the batch's time snapshot. */
  lemma BatchItemFields(payload: JsValue, start: int, ids: seq<string>, time: ServerTime, k: nat)
    requires |ids| > MAX_BATCH_EVENTS
    requires BuildBatch(payload, start, ids, time).Ok?
    requires k < |EventList(payload).value|
    ensures var items := BuildBatch(payload, start, ids, time).value.items;
      var entry := EntryOf(EventList(payload).value[k]);
      && k < |items|
      && items[k].id == ids[k + 1]
      && items[k].seqNo == NormalizeSeq(Get(entry, "seq"), start + k)
      && items[k].batchId == ids[0]
      && items[k].message == NormalizeString(Get(entry, "message"))
      && items[k].eventType == NonBlank(Get(entry, "eventType"))
      && items[k].localTime ==
           (if NonBlank(Get(entry, "localTime")).Some? then NonBlank(Get(entry, "localTime"))
            else NonBlank(Get(entry, "clientTime")))
      && items[k].extra == PlainObject(Get(entry, "extra"))
      && items[k].time == time
  {
    var list := EventList(payload).value;
    ItemsUpToAt(list, |list|, ids[0], ids, start, time, k);
  }

  /** The error for a blank entry names the first blank index, and every
      entry before it has a message. */
  lemma BatchNamesFirstBlank(payload: JsValue, start: int, ids: seq<string>, time: ServerTime, i: nat)
    requires |ids| > MAX_BATCH_EVENTS
    requires EventList(payload).Some?
    requires var list := EventList(payload).value;
      1 <= |list| <= MAX_BATCH_EVENTS && i < |list| && Blank(list[i])
      && forall k :: 0 <= k < i ==> !Blank(list[k])
    ensures BuildBatch(payload, start, ids, time) == Failure(BlankError(i))
  {
    FirstBlankAt(EventList(payload).value, i);
  }
}
