/** The browser client of main.js: the local journal of logged events, the
    sequence counter, the batch cursor, the on-screen message list, the
    instant sends queued in order, and the three localStorage keys that
    persist the journal, the counter and the cursor. */
module ClientJournal {
  import opened Wrappers
  import opened JsText
  import opened JsValues

  /** Length of the on-screen message list (MAX_MESSAGES). */
  const MAX_MESSAGES: nat := 8

  /** One journal entry as logEvent builds it. */
  datatype Entry = Entry(
    seqNo: int,
    eventType: Option<string>,
    message: string,
    localTime: string,
    extra: Option<JsValue>)

  /** The localStorage keys animEvents (the journal; None when absent or
      unreadable), animEventSeq and animEventBatchSeq (raw text, None when
      absent). */
  datatype Storage = Storage(
    events: Option<seq<Entry>>,
    seqText: Option<string>,
    batchSeqText: Option<string>)

  /** `Number(localStorage.getItem(key))`: a missing key reads as null, which
      converts to 0. */
  function StoredNumber(item: Option<string>): Num {
    if item.None? then Finite(0.0) else StringToNumber(item.value)
  }

  /** The stored number when it is an integer above 0, otherwise 0: the whole
      of loadBatchSeq, and the first step of initEventSeq. */
  function StoredCount(item: Option<string>): nat {
    var x := StoredNumber(item);
    if IsInteger(x) && x.r > 0.0 then x.r.Floor else 0
  }

  /** A positive count is exactly the stored number; 0 means the stored
      number is not an integer above 0. */
  lemma StoredCountMeaning(item: Option<string>)
    ensures StoredCount(item) > 0 ==> StoredNumber(item) == Finite(StoredCount(item) as real)
    ensures StoredCount(item) == 0 <==> !(IsInteger(StoredNumber(item)) && StoredNumber(item).r > 0.0)
  {
  }

  /** A counter written with `String(n)` reads back as `n`. */
  lemma StoredCountRoundTrip(n: nat)
    ensures StoredCount(Some(NatToString(n))) == n
  {
    CounterTextRoundTrip(n);
  }

  /** What initEventSeq computes: the least value that is at least the stored
      counter (when that is an integer above 0) and at least every seq in the
      journal, 0 when there is nothing. */
  predicate IsLoadedCounter(n: nat, events: seq<Entry>, stored: Option<string>) {
    && StoredCount(stored) <= n
    && (forall e | e in events :: e.seqNo <= n)
    && (n == StoredCount(stored) || exists e | e in events :: e.seqNo == n)
  }

  /** The loaded counter is determined by the journal and the stored text. */
  lemma LoadedCounterUnique(a: nat, b: nat, events: seq<Entry>, stored: Option<string>)
    requires IsLoadedCounter(a, events, stored) && IsLoadedCounter(b, events, stored)
    ensures a == b
  {
  }

  /** Appending an entry that carries the counter keeps it the loaded one. */
  lemma LoadedCounterAppend(n: nat, events: seq<Entry>, stored: Option<string>, e: Entry)
    requires IsLoadedCounter(n, events, stored) && e.seqNo == n
    ensures IsLoadedCounter(n, events + [e], stored)
  {
    assert e in events + [e];
  }

  /** initEventSeq: the maximum of the stored counter and the journal's seqs. */
  method InitEventSeq(events: seq<Entry>, stored: Option<string>) returns (maxSeq: nat)
    ensures IsLoadedCounter(maxSeq, events, stored)
  {
    maxSeq := StoredCount(stored);
    for i := 0 to |events|
      invariant IsLoadedCounter(maxSeq, events[..i], stored)
    {
      assert events[..i + 1] == events[..i] + [events[i]];
      if events[i].seqNo > maxSeq {
        maxSeq := events[i].seqNo;
      }
    }
    assert events[..|events|] == events;
  }

  /** The journal entry logEvent records: a falsy event type or extra becomes
      null. */
  function NewEntry(seqNo: int, eventType: string, message: string, localTime: string, extra: Option<JsValue>): (e: Entry)
    ensures e.seqNo == seqNo && e.message == message && e.localTime == localTime
    ensures e.eventType == None <==> eventType == ""
    ensures e.eventType.Some? ==> e.eventType.value == eventType
    ensures e.extra == None <==> !TruthyOpt(extra)
    ensures e.extra.Some? ==> e.extra == extra
  {
    Entry(seqNo, if eventType == "" then None else Some(eventType), message, localTime,
          if TruthyOpt(extra) then extra else None)
  }

  function OptText(o: Option<string>): JsValue {
    if o.None? then JNull else JStr(o.value)
  }

  /** The body logEvent hands to the instant channel (queueInstant). */
  function InstantPayload(e: Entry): JsValue {
    JObj(map[
      "seq" := JNum(e.seqNo as real),
      "eventType" := OptText(e.eventType),
      "message" := JStr(e.message),
      "clientTime" := JStr(e.localTime),
      "meta" := e.extra.GetOr(JNull)])
  }

  /** One event of a batch body: its seq, message, eventType, localTime and
      extra. */
  function EntryJson(e: Entry): JsValue {
    JObj(map[
      "seq" := JNum(e.seqNo as real),
      "message" := JStr(e.message),
      "eventType" := OptText(e.eventType),
      "localTime" := JStr(e.localTime),
      "extra" := e.extra.GetOr(JNull)])
  }

  /** The body sendBatchEvents posts: `{events: [...]}`. */
  function BatchPayload(batch: seq<Entry>): JsValue {
    JObj(map["events" := JArr(seq(|batch|, i requires 0 <= i < |batch| => EntryJson(batch[i])))])
  }

  /** The entries sendBatchEvents selects: `localEvents.filter(e => e.seq >
      lastBatchSeq)`. It holds exactly the entries above the cursor. */
  function Unsent(journal: seq<Entry>, cursor: int): (batch: seq<Entry>)
    ensures |batch| <= |journal|
    ensures forall i :: 0 <= i < |batch| ==> batch[i].seqNo > cursor
  {
    if journal == [] then []
    else (if journal[0].seqNo > cursor then [journal[0]] else []) + Unsent(journal[1..], cursor)
  }

  /** The selection holds exactly the journal entries above the cursor. */
  lemma {:induction false} UnsentMembers(journal: seq<Entry>, cursor: int)
    ensures forall e :: e in Unsent(journal, cursor) <==> e in journal && e.seqNo > cursor
  {
    if journal != [] {
      UnsentMembers(journal[1..], cursor);
      assert journal == [journal[0]] + journal[1..];
    }
  }

  /** The selection keeps journal order: selecting from two stretches of the
      journal is selecting from each in turn. */
  lemma {:induction false} UnsentAppend(a: seq<Entry>, b: seq<Entry>, cursor: int)
    ensures Unsent(a + b, cursor) == Unsent(a, cursor) + Unsent(b, cursor)
  {
    if a == [] {
      assert a + b == b;
    } else {
      assert (a + b)[1..] == a[1..] + b;
      UnsentAppend(a[1..], b, cursor);
    }
  }

  /** Seqs strictly increase along the journal. */
  predicate Increasing(journal: seq<Entry>) {
    forall i, k :: 0 <= i < k < |journal| ==> journal[i].seqNo < journal[k].seqNo
  }

  /** Appending an entry above every seq keeps the journal increasing. */
  lemma IncreasingAppend(journal: seq<Entry>, e: Entry)
    requires Increasing(journal)
    requires forall x | x in journal :: x.seqNo < e.seqNo
    ensures Increasing(journal + [e])
  {
    assert forall i :: 0 <= i < |journal| ==> journal[i] in journal;
  }

  /** When every entry is above the cursor, the whole journal is selected. */
  lemma {:induction false} UnsentAll(journal: seq<Entry>, cursor: int)
    requires forall i :: 0 <= i < |journal| ==> journal[i].seqNo > cursor
    ensures Unsent(journal, cursor) == journal
  {
    if journal != [] {
      UnsentAll(journal[1..], cursor);
      assert [journal[0]] + journal[1..] == journal;
    }
  }

  /** On an increasing journal the selection is a suffix of the journal. */
  lemma {:induction false} UnsentIsSuffix(journal: seq<Entry>, cursor: int)
    requires Increasing(journal)
    ensures Unsent(journal, cursor) == journal[|journal| - |Unsent(journal, cursor)|..]
  {
    if journal != [] {
      if journal[0].seqNo > cursor {
        UnsentAll(journal, cursor);
      } else {
        UnsentIsSuffix(journal[1..], cursor);
      }
    }
  }

  /** On an increasing journal, moving the cursor to the last selected seq
      leaves nothing to send: a successful batch confirms everything. */
  lemma SentLeavesNothing(journal: seq<Entry>, cursor: int)
    requires Increasing(journal)
    requires Unsent(journal, cursor) != []
    ensures var b := Unsent(journal, cursor); Unsent(journal, b[|b| - 1].seqNo) == []
  {
    var b := Unsent(journal, cursor);
    UnsentIsSuffix(journal, cursor);
    assert b[|b| - 1] == journal[|journal| - 1];
    forall i | 0 <= i < |journal|
      ensures journal[i].seqNo <= b[|b| - 1].seqNo
    {
    }
    UnsentNone(journal, b[|b| - 1].seqNo);
  }

  lemma {:induction false} UnsentNone(journal: seq<Entry>, cursor: int)
    requires forall i :: 0 <= i < |journal| ==> journal[i].seqNo <= cursor
    ensures Unsent(journal, cursor) == []
  {
    if journal != [] {
      UnsentNone(journal[1..], cursor);
    }
  }

  /** The text of one on-screen message: `#seq` (for a non-zero seq) and the
      message, joined by a space. */
  function MessageText(e: Entry): string {
    JoinTruthy([JStr(if e.seqNo != 0 then "#" + IntToString(e.seqNo) else ""), JStr(e.message)])
  }

  /** A message reads `#seq message`, or just the message when the seq is 0. */
  lemma MessageTextShape(e: Entry)
    ensures MessageText(e) == if e.seqNo != 0 then "#" + IntToString(e.seqNo) + Spaced(e.message) else e.message
  {
    var parts := [JStr(if e.seqNo != 0 then "#" + IntToString(e.seqNo) else ""), JStr(e.message)];
    assert parts[1..] == [JStr(e.message)];
    assert [JStr(e.message)][1..] == [];
    var tail := TruthyTexts([JStr(e.message)]);
    assert tail == if e.message != "" then [e.message] else [];
    if e.seqNo != 0 {
      var seqText := "#" + IntToString(e.seqNo);
      assert TruthyTexts(parts) == [seqText] + tail;
      JoinCons(seqText, tail, " ");
    }
  }

  /** The newest `n` items, oldest first. */
  function Newest(items: seq<string>, n: nat): (r: seq<string>)
    ensures |r| == if |items| <= n then |items| else n
    ensures r == items[|items| - |r|..]
  {
    if |items| <= n then items else items[|items| - n..]
  }

  /** The trimming loop of pushMessage: remove the first item while more
      than `limit` remain. */
  method DropOldest(items: seq<string>, limit: nat) returns (r: seq<string>)
    ensures r == Newest(items, limit)
  {
    r := items;
    while |r| > limit
      invariant r == items[|items| - |r|..]
      invariant |r| >= if |items| <= limit then |items| else limit
      decreases |r|
    {
      r := r[1..];
    }
  }

  class Client {
    var journal: seq<Entry>
    var eventSeq: nat
    var lastBatchSeq: nat
    var messages: seq<string>
    /** Instant bodies handed to the send queue, in the order they were logged. */
    var outbox: seq<JsValue>
    var storage: Storage

    /** The in-memory state is what a reload from localStorage produces. */
    ghost predicate Valid()
      reads this
    {
      && journal == storage.events.GetOr([])
      && IsLoadedCounter(eventSeq, journal, storage.seqText)
      && lastBatchSeq == StoredCount(storage.batchSeqText)
      && |messages| <= MAX_MESSAGES
    }

    /** Start-up: loadLocalEvents, initEventSeq and loadBatchSeq. */
    constructor Load(stored: Storage)
      ensures Valid()
      ensures storage == stored && journal == stored.events.GetOr([])
      ensures IsLoadedCounter(eventSeq, journal, stored.seqText)
      ensures lastBatchSeq == StoredCount(stored.batchSeqText)
      ensures messages == [] && outbox == []
    {
      journal := stored.events.GetOr([]);
      var s := InitEventSeq(stored.events.GetOr([]), stored.seqText);
      eventSeq := s;
      lastBatchSeq := StoredCount(stored.batchSeqText);
      messages := [];
      outbox := [];
      storage := stored;
    }

    /** Restarting from what is persisted gives back the same journal, counter
        and cursor, so seqs allocated after a restart continue above every
        earlier one. */
    method Reload() returns (c: Client)
      requires Valid()
      ensures fresh(c) && c.Valid()
      ensures c.journal == journal && c.eventSeq == eventSeq && c.lastBatchSeq == lastBatchSeq
    {
      c := new Client.Load(storage);
      LoadedCounterUnique(c.eventSeq, eventSeq, journal, storage.seqText);
    }

    /** nextSeq: one above the previous counter, persisted at once. */
    method NextSeq() returns (s: nat)
      requires Valid()
      modifies this
      ensures Valid()
      ensures s == old(eventSeq) + 1 && eventSeq == s
      ensures storage == old(storage).(seqText := Some(NatToString(s)))
      ensures journal == old(journal) && lastBatchSeq == old(lastBatchSeq)
      ensures messages == old(messages) && outbox == old(outbox)
    {
      eventSeq := eventSeq + 1;
      storage := storage.(seqText := Some(NatToString(eventSeq)));
      StoredCountRoundTrip(eventSeq);
      s := eventSeq;
    }

    /** pushMessage: append the entry's text and drop the oldest messages
        beyond MAX_MESSAGES. */
    method PushMessage(e: Entry)
      requires Valid()
      modifies this
      ensures Valid()
      ensures messages == Newest(old(messages) + [MessageText(e)], MAX_MESSAGES)
      ensures journal == old(journal) && eventSeq == old(eventSeq) && lastBatchSeq == old(lastBatchSeq)
      ensures storage == old(storage) && outbox == old(outbox)
    {
      messages := DropOldest(messages + [MessageText(e)], MAX_MESSAGES);
    }

    /** logEvent: an empty message is ignored; otherwise allocate the next
        seq, append the entry, persist the journal, queue the instant send and
        show the message. */
    method LogEvent(eventType: string, message: string, extra: Option<JsValue>, localTime: string)
      requires Valid()
      modifies this
      ensures Valid()
      ensures message == "" ==>
        && journal == old(journal) && eventSeq == old(eventSeq) && storage == old(storage)
        && messages == old(messages) && outbox == old(outbox)
      ensures message != "" ==>
        var e := NewEntry(old(eventSeq) + 1, eventType, message, localTime, extra);
        && eventSeq == old(eventSeq) + 1
        && journal == old(journal) + [e]
        && storage == old(storage).(events := Some(journal), seqText := Some(NatToString(eventSeq)))
        && outbox == old(outbox) + [InstantPayload(e)]
        && messages == Newest(old(messages) + [MessageText(e)], MAX_MESSAGES)
      ensures lastBatchSeq == old(lastBatchSeq)
      ensures old(Increasing(journal)) ==> Increasing(journal)
    {
      if message == "" {
        return;
      }
      var s := NextSeq();
      var e := NewEntry(s, eventType, message, localTime, extra);
      Record(e);
      PushMessage(e);
    }

    /** The bookkeeping half of logEvent: append the entry that carries the
        current counter, persist the journal and queue the instant send. */
    method Record(e: Entry)
      requires Valid() && e.seqNo == eventSeq
      modifies this
      ensures Valid()
      ensures journal == old(journal) + [e] && storage == old(storage).(events := Some(journal))
      ensures outbox == old(outbox) + [InstantPayload(e)]
      ensures eventSeq == old(eventSeq) && lastBatchSeq == old(lastBatchSeq) && messages == old(messages)
      ensures old(Increasing(journal)) && (forall x | x in old(journal) :: x.seqNo < e.seqNo) ==> Increasing(journal)
    {
      LoadedCounterAppend(eventSeq, journal, storage.seqText, e);
      if Increasing(journal) && (forall x | x in journal :: x.seqNo < e.seqNo) {
        IncreasingAppend(journal, e);
      }
      journal := journal + [e];
      storage := storage.(events := Some(journal));
      outbox := outbox + [InstantPayload(e)];
    }

    /** sendBatchEvents: post every entry above the cursor; only a
        successful post moves the cursor, to the seq of the last entry sent.
        `ok` is whether the request came back with an OK status. */
    method SendBatchEvents(ok: bool) returns (sent: nat, request: Option<JsValue>)
      requires Valid()
      modifies this
      ensures Valid()
      ensures var batch := Unsent(old(journal), old(lastBatchSeq));
        && (batch == [] ==> request == None && sent == 0 && lastBatchSeq == old(lastBatchSeq) && storage == old(storage))
        && (batch != [] ==> request == Some(BatchPayload(batch)))
        && (batch != [] && ok ==>
              && sent == |batch|
              && lastBatchSeq == batch[|batch| - 1].seqNo > old(lastBatchSeq)
              && storage == old(storage).(batchSeqText := Some(NatToString(lastBatchSeq))))
        && (batch != [] && !ok ==> sent == 0 && lastBatchSeq == old(lastBatchSeq) && storage == old(storage))
      ensures journal == old(journal) && eventSeq == old(eventSeq)
      ensures messages == old(messages) && outbox == old(outbox)
    {
      var batch := Unsent(journal, lastBatchSeq);
      if |batch| == 0 {
        return 0, None;
      }
      request := Some(BatchPayload(batch));
      sent := 0;
      if ok {
        MoveCursor(batch[|batch| - 1].seqNo);
        sent := |batch|;
      }
    }

    /** The confirmation half of sendBatchEvents: store the new cursor. */
    method MoveCursor(cursor: nat)
      requires Valid()
      modifies this
      ensures Valid()
      ensures lastBatchSeq == cursor
      ensures storage == old(storage).(batchSeqText := Some(NatToString(cursor)))
      ensures journal == old(journal) && eventSeq == old(eventSeq)
      ensures messages == old(messages) && outbox == old(outbox)
    {
      lastBatchSeq := cursor;
      storage := storage.(batchSeqText := Some(NatToString(cursor)));
      StoredCountRoundTrip(cursor);
    }

    /** clearLogs: the journal, the counter and the cursor go back to empty
        and 0, their keys are removed and the message list is emptied. */
    method ClearLogs()
      modifies this
      ensures Valid()
      ensures journal == [] && eventSeq == 0 && lastBatchSeq == 0 && messages == []
      ensures storage == Storage(None, None, None) && outbox == old(outbox)
    {
      journal := [];
      eventSeq := 0;
      lastBatchSeq := 0;
      storage := Storage(None, None, None);
      messages := [];
    }
  }
}
