/** What the server makes of the bodies the client sends: the instant body
    of logEvent and the batch body of sendBatchEvents. */
module Exchange {
  import opened Wrappers
  import opened JsText
  import opened JsValues
  import opened ClientJournal
  import opened Ingest

  /** An instant body is rejected exactly when its message is blank; else
      the server keeps the client's seq and the trimmed message, and takes
      the client's local time as the client time. */
  lemma InstantAccepted(e: Entry, fallback: int, id: string, time: ServerTime)
    requires e.seqNo >= 1
    ensures var r := BuildInstantEvent(InstantPayload(e), fallback, id, time);
      r.Failure? <==> AllWhiteSpace(e.message)
    ensures var r := BuildInstantEvent(InstantPayload(e), fallback, id, time);
      r.Ok? ==>
        && r.value.seqNo == e.seqNo
        && r.value.message == Trim(e.message)
        && r.value.eventType == (if e.eventType.Some? && Trim(e.eventType.value) != "" then Some(Trim(e.eventType.value)) else None)
        && r.value.clientTime == (if Trim(e.localTime) != "" then Some(Trim(e.localTime)) else None)
  {
    var p := InstantPayload(e);
    assert Get(p, "message") == Some(JStr(e.message));
    assert Get(p, "seq") == Some(JNum(e.seqNo as real));
    assert Get(p, "clientTime") == Some(JStr(e.localTime));
    assert Get(p, "eventType") == Some(OptText(e.eventType));
    TrimMeaning(e.message);
    NormalizeSeqKeepsCounter(e.seqNo, fallback);
  }

  /** The events list of a batch body: one object per entry, in order. */
  lemma BatchPayloadList(batch: seq<Entry>)
    ensures EventList(BatchPayload(batch)).Some?
    ensures var list := EventList(BatchPayload(batch)).value;
      |list| == |batch| && forall k :: 0 <= k < |batch| ==> list[k] == EntryJson(batch[k])
  {
  }

  /** Entry `k` of a batch body is blank for the server exactly when its
      message is all whitespace. */
  lemma EntryBlank(e: Entry)
    ensures Blank(EntryJson(e)) <==> AllWhiteSpace(e.message)
    ensures Get(EntryOf(EntryJson(e)), "seq") == Some(JNum(e.seqNo as real))
    ensures Get(EntryOf(EntryJson(e)), "message") == Some(JStr(e.message))
  {
    assert EntryOf(EntryJson(e)) == EntryJson(e);
    assert Get(EntryJson(e), "message") == Some(JStr(e.message));
    TrimMeaning(e.message);
  }

  /** A batch of at most 5000 entries whose messages are not blank is
      accepted whole, and every item keeps its entry's seq and trimmed
      message. */
  lemma BatchAccepted(batch: seq<Entry>, start: int, ids: seq<string>, time: ServerTime)
    requires |ids| > MAX_BATCH_EVENTS
    requires 1 <= |batch| <= MAX_BATCH_EVENTS
    requires forall k :: 0 <= k < |batch| ==> !AllWhiteSpace(batch[k].message) && batch[k].seqNo >= 1
    ensures var r := BuildBatch(BatchPayload(batch), start, ids, time);
      && r.Ok? && |r.value.items| == |batch|
      && forall k :: 0 <= k < |batch| ==>
           r.value.items[k].seqNo == batch[k].seqNo && r.value.items[k].message == Trim(batch[k].message)
  {
    var p := BatchPayload(batch);
    BatchPayloadList(batch);
    var list := EventList(p).value;
    forall k | 0 <= k < |list|
      ensures !Blank(list[k])
    {
      EntryBlank(batch[k]);
    }
    BatchAllOrNothing(p, start, ids, time);
    var r := BuildBatch(p, start, ids, time);
    forall k | 0 <= k < |batch|
      ensures r.value.items[k].seqNo == batch[k].seqNo && r.value.items[k].message == Trim(batch[k].message)
    {
      BatchItemKept(batch, start, ids, time, k);
    }
  }

  /** Item `k` of an accepted batch keeps entry `k`'s seq and trimmed
      message. */
  lemma BatchItemKept(batch: seq<Entry>, start: int, ids: seq<string>, time: ServerTime, k: nat)
    requires |ids| > MAX_BATCH_EVENTS
    requires k < |batch| && batch[k].seqNo >= 1
    requires BuildBatch(BatchPayload(batch), start, ids, time).Ok?
    requires |BuildBatch(BatchPayload(batch), start, ids, time).value.items| == |batch|
    ensures var r := BuildBatch(BatchPayload(batch), start, ids, time);
      r.value.items[k].seqNo == batch[k].seqNo && r.value.items[k].message == Trim(batch[k].message)
  {
    var p := BatchPayload(batch);
    BatchPayloadList(batch);
    var list := EventList(p).value;
    assert list[k] == EntryJson(batch[k]);
    BatchItemFields(p, start, ids, time, k);
    EntryBlank(batch[k]);
    NormalizeSeqKeepsCounter(batch[k].seqNo, start + k);
  }

  /** What sendBatchEvents selects from a journal of non-blank messages is
      accepted whole when it has at most 5000 entries: every selected entry
      is above a cursor of at least 0, so its seq is kept. */
  lemma UnsentAccepted(journal: seq<Entry>, cursor: nat, start: int, ids: seq<string>, time: ServerTime)
    requires |ids| > MAX_BATCH_EVENTS
    requires forall k :: 0 <= k < |journal| ==> !AllWhiteSpace(journal[k].message)
    requires 1 <= |Unsent(journal, cursor)| <= MAX_BATCH_EVENTS
    ensures var batch := Unsent(journal, cursor);
      var r := BuildBatch(BatchPayload(batch), start, ids, time);
      r.Ok? && |r.value.items| == |batch|
      && forall k :: 0 <= k < |batch| ==> r.value.items[k].seqNo == batch[k].seqNo
  {
    var batch := Unsent(journal, cursor);
    UnsentMembers(journal, cursor);
    forall k | 0 <= k < |batch|
      ensures !AllWhiteSpace(batch[k].message) && batch[k].seqNo >= 1
    {
      assert batch[k] in batch;
    }
    BatchAccepted(batch, start, ids, time);
  }

  /** More than 5000 unsent entries are never accepted: the server rejects
      the whole body, so the client's cursor cannot move past them. */
  lemma OversizedBatchRejected(batch: seq<Entry>, start: int, ids: seq<string>, time: ServerTime)
    requires |ids| > MAX_BATCH_EVENTS
    requires |batch| > MAX_BATCH_EVENTS
    ensures BuildBatch(BatchPayload(batch), start, ids, time) == Failure(TooManyError)
  {
    BatchPayloadList(batch);
  }
}
