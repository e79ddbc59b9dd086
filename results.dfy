/** The results table of the client (main.js): the server's instant events
    and the local journal side by side, row i pairing the i-th of each. */
module ResultsView {
  import opened Wrappers
  import opened JsText
  import opened JsValues
  import opened ClientJournal
  import opened Ingest

  /** `o || d`. */
  function Fallback(o: Option<JsValue>, d: JsValue): JsValue {
    if TruthyOpt(o) then o.value else d
  }

  /** `Number.isInteger(v) ? "#" + v : ""`: only an integral number is
      labelled; a numeric string is not. */
  function SeqLabel(v: Option<JsValue>): string {
    if v.Some? && v.value.JNum? && IsInteger(Finite(v.value.n)) then "#" + IntToString(v.value.n.Floor)
    else ""
  }

  /** formatServerCell: nothing for a missing or falsy event, otherwise the
      truthy parts among the seq label, the server time (local form first),
      the client time and the message, joined by spaces. */
  function FormatServerCell(event: Option<JsValue>): string {
    if !TruthyOpt(event) then ""
    else
      var e := event.value;
      var clientTime := Get(e, "clientTime");
      JoinTruthy([
        JStr(SeqLabel(Get(e, "seq"))),
        Fallback(Get(e, "serverTimeLocal"), Fallback(Get(e, "serverTime"), JStr(""))),
        JStr(if TruthyOpt(clientTime) then "client:" + Display(clientTime.value) else ""),
        Fallback(Get(e, "message"), JStr(""))])
  }

  /** formatLocalCell: nothing for a missing entry, otherwise the seq label,
      the local time and the message, the empty ones left out. A journal
      entry's seq is always an integer. */
  function FormatLocalCell(event: Option<Entry>): string {
    if event.None? then ""
    else
      var e := event.value;
      JoinTruthy([JStr("#" + IntToString(e.seqNo)), JStr(e.localTime), JStr(e.message)])
  }

  /** A local cell reads `#seq`, then the time and the message each after a
      single space when present. */
  lemma LocalCellShape(e: Entry)
    ensures FormatLocalCell(Some(e)) == "#" + IntToString(e.seqNo) + Spaced(e.localTime) + Spaced(e.message)
  {
    var parts := [JStr("#" + IntToString(e.seqNo)), JStr(e.localTime), JStr(e.message)];
    assert parts == Strs(["#" + IntToString(e.seqNo)] + [e.localTime, e.message]);
    JoinTruthyStrings("#" + IntToString(e.seqNo), [e.localTime, e.message]);
    assert [e.localTime, e.message][1..] == [e.message];
    assert [e.message][1..] == [];
    assert SpacedAll([e.message]) == Spaced(e.message);
    assert SpacedAll([e.localTime, e.message]) == Spaced(e.localTime) + Spaced(e.message);
  }

  /** The client part of a server cell. */
  function ClientPart(clientTime: Option<string>): string {
    if clientTime.Some? && clientTime.value != "" then "client:" + clientTime.value else ""
  }

  /** A server cell whose four parts are the given strings. */
  lemma ServerCellOfParts(e: JsValue, seqText: string, time: string, client: string, message: string)
    requires Truthy(e)
    requires SeqLabel(Get(e, "seq")) == seqText
    requires Fallback(Get(e, "serverTimeLocal"), Fallback(Get(e, "serverTime"), JStr(""))) == JStr(time)
    requires (if TruthyOpt(Get(e, "clientTime")) then "client:" + Display(Get(e, "clientTime").value) else "") == client
    requires Fallback(Get(e, "message"), JStr("")) == JStr(message)
    ensures FormatServerCell(Some(e)) == JoinTruthy(Strs([seqText, time, client, message]))
  {
    assert [JStr(seqText), JStr(time), JStr(client), JStr(message)] == Strs([seqText, time, client, message]);
  }

  /** The four parts of the cell of a stored instant record. */
  lemma RecordCellParts(ev: InstantEvent)
    ensures var j := ev.ToJson();
      && Truthy(j)
      && SeqLabel(Get(j, "seq")) == "#" + IntToString(ev.seqNo)
      && Fallback(Get(j, "serverTimeLocal"), Fallback(Get(j, "serverTime"), JStr("")))
         == JStr(if ev.time.local != "" then ev.time.local else ev.time.iso)
      && (if TruthyOpt(Get(j, "clientTime")) then "client:" + Display(Get(j, "clientTime").value) else "")
         == ClientPart(ev.clientTime)
      && Fallback(Get(j, "message"), JStr("")) == JStr(ev.message)
  {
    var j := ev.ToJson();
    InstantRecord(ev);
    assert (ev.seqNo as real).Floor == ev.seqNo;
    assert SeqLabel(Get(j, "seq")) == "#" + IntToString(ev.seqNo);
    assert Get(j, "clientTime") == Some(OptString(ev.clientTime));
  }

  /** Four string parts, the first non-empty, joined as filter(Boolean).join(" ")
      does. */
  lemma JoinFour(a: string, b: string, c: string, d: string)
    requires a != ""
    ensures JoinTruthy(Strs([a, b, c, d])) == a + Spaced(b) + Spaced(c) + Spaced(d)
  {
    var rest := [b, c, d];
    assert [a] + rest == [a, b, c, d];
    JoinTruthyStrings(a, rest);
    assert rest[1..] == [c, d];
    assert [c, d][1..] == [d];
    assert [d][1..] == [];
    assert SpacedAll([d]) == Spaced(d);
    assert SpacedAll([c, d]) == Spaced(c) + Spaced(d);
  }

  /** How an instant record the server stored shows: `#seq`, its local
      server time (or, when that is empty, the ISO time), `client:` and the
      client's time when there is one, and the message. */
  lemma ServerCellOfRecord(ev: InstantEvent)
    ensures FormatServerCell(Some(ev.ToJson())) ==
      "#" + IntToString(ev.seqNo)
      + Spaced(if ev.time.local != "" then ev.time.local else ev.time.iso)
      + Spaced(ClientPart(ev.clientTime))
      + Spaced(ev.message)
  {
    var seqText := "#" + IntToString(ev.seqNo);
    var time := if ev.time.local != "" then ev.time.local else ev.time.iso;
    RecordCellParts(ev);
    ServerCellOfParts(ev.ToJson(), seqText, time, ClientPart(ev.clientTime), ev.message);
    JoinFour(seqText, time, ClientPart(ev.clientTime), ev.message);
  }

  /** One table row: the server cell and the local cell. */
  datatype Row = Row(server: string, local: string)

  /** `Array.isArray(serverEvents) ? serverEvents : []`. */
  function ServerList(events: JsValue): seq<JsValue> {
    if events.JArr? then events.items else []
  }

  /** `list[i]`, `undefined` past the end. */
  function At<T>(list: seq<T>, i: nat): Option<T> {
    if i < |list| then Some(list[i]) else None
  }

  /** Row `i` of the table: the i-th server event beside the i-th journal
      entry. */
  function RowAt(serverList: seq<JsValue>, localItems: seq<Entry>, i: nat): Row {
    Row(FormatServerCell(At(serverList, i)), FormatLocalCell(At(localItems, i)))
  }

  /** Past the end of a list its cell is empty. */
  lemma RowPadding(serverList: seq<JsValue>, localItems: seq<Entry>)
    ensures forall i: nat :: i >= |serverList| ==> RowAt(serverList, localItems, i).server == ""
    ensures forall i: nat :: i >= |localItems| ==> RowAt(serverList, localItems, i).local == ""
  {
  }

  /** renderResults: as many rows as the longer list, none when both are
      empty; row i pairs the i-th server event with the i-th journal entry
      (RowPadding: the side that has run out shows ""). */
  method RenderResults(serverEvents: JsValue, localItems: seq<Entry>) returns (rows: seq<Row>)
    ensures |rows| == if |ServerList(serverEvents)| >= |localItems| then |ServerList(serverEvents)| else |localItems|
    ensures rows == [] <==> ServerList(serverEvents) == [] && localItems == []
    ensures forall i :: 0 <= i < |rows| ==> rows[i] == RowAt(ServerList(serverEvents), localItems, i)
  {
    var serverList := ServerList(serverEvents);
    var count := if |serverList| >= |localItems| then |serverList| else |localItems|;
    rows := [];
    for i := 0 to count
      invariant |rows| == i
      invariant forall k :: 0 <= k < i ==> rows[k] == RowAt(serverList, localItems, k)
    {
      rows := rows + [RowAt(serverList, localItems, i)];
    }
  }
}
