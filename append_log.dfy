/** The server's NDJSON files (server.js): one JSON value per line, appended
    to through a per-file write queue, and read back line by line at
    start-up. */
module AppendLogs {
  import opened Wrappers
  import opened JsText
  import opened JsValues

  /** The line queueAppendEvent writes for one value. */
  function EventLine(c: Codec, v: JsValue): string {
    c.stringify(v) + "\n"
  }

  /** The serialisation of each value, in order. */
  function Serialised(c: Codec, items: seq<JsValue>): (r: seq<string>)
    ensures |r| == |items|
  {
    if items == [] then [] else [c.stringify(items[0])] + Serialised(c, items[1..])
  }

  /** The text the batch endpoint appends in one write: the serialised items
      joined by line feeds, with one more line feed at the end. */
  function BatchLines(c: Codec, items: seq<JsValue>): string {
    Join(Serialised(c, items), "\n") + "\n"
  }

  /** A batch write is the same text as one line per item. */
  lemma BatchLinesAreEventLines(c: Codec, items: seq<JsValue>)
    requires items != []
    ensures BatchLines(c, items) == Terminated(Serialised(c, items))
  {
    JoinThenBreak(Serialised(c, items));
  }

  /** Appending the lines of one batch is appending its items one by one. */
  lemma {:induction false} TerminatedSerialised(c: Codec, items: seq<JsValue>)
    ensures Terminated(Serialised(c, items)) == Concat(seq(|items|, k requires 0 <= k < |items| => EventLine(c, items[k])))
  {
    if items != [] {
      TerminatedSerialised(c, items[1..]);
      var lines := seq(|items|, k requires 0 <= k < |items| => EventLine(c, items[k]));
      assert lines[1..] == seq(|items[1..]|, k requires 0 <= k < |items[1..]| => EventLine(c, items[1..][k]));
    }
  }

  /** The concatenation of some strings. */
  function Concat(parts: seq<string>): string {
    if parts == [] then "" else parts[0] + Concat(parts[1..])
  }

  /** The value a line parses to, if any: the body of loadEvents' try. */
  function Keep(c: Codec, line: string): seq<JsValue> {
    match c.parse(line)
    case Some(v) => [v]
    case None => []
  }

  /** The values of the lines that parse, in order; the others are skipped. */
  function Parsed(c: Codec, lines: seq<string>): (r: seq<JsValue>)
    ensures |r| <= |lines|
  {
    if lines == [] then []
    else
      var n := |lines| - 1;
      Parsed(c, lines[..n]) + Keep(c, lines[n])
  }

  /** What loadEvents returns for the text of a file: nothing for blank
      text, otherwise the values of the non-empty lines that parse. */
  function LoadLines(c: Codec, raw: string): seq<JsValue> {
    if Trim(raw) == "" then [] else Parsed(c, NonEmpty(SplitLines(raw)))
  }

  /** loadEvents on a file that may be missing. */
  function Loaded(c: Codec, file: Option<string>): seq<JsValue> {
    if file.None? then [] else LoadLines(c, file.value)
  }

  /** loadEvents: split the text into lines and keep every value that
      parses. */
  method LoadEvents(c: Codec, file: Option<string>) returns (items: seq<JsValue>)
    ensures items == Loaded(c, file)
  {
    if file.None? {
      return [];
    }
    var raw := file.value;
    if Trim(raw) == "" {
      return [];
    }
    var lines := NonEmpty(SplitLines(raw));
    items := [];
    for i := 0 to |lines|
      invariant items == Parsed(c, lines[..i])
    {
      assert lines[..i + 1][..i] == lines[..i];
      assert lines[..i + 1][i] == lines[i];
      var parsed := c.parse(lines[i]);
      if parsed.Some? {
        items := items + [parsed.value];
      }
    }
    assert lines[..|lines|] == lines;
  }

  // ---------------------------------------------------------------------
  // Reading back what was appended
  // ---------------------------------------------------------------------

  lemma {:induction false} ParsedAppend(c: Codec, a: seq<string>, b: seq<string>)
    ensures Parsed(c, a + b) == Parsed(c, a) + Parsed(c, b)
    decreases |b|
  {
    if b == [] {
      assert a + b == a;
    } else {
      var n := |b| - 1;
      assert (a + b)[..|a + b| - 1] == a + b[..n];
      assert (a + b)[|a + b| - 1] == b[n];
      ParsedAppend(c, a, b[..n]);
    }
  }

  lemma {:induction false} NonEmptyAppend(a: seq<string>, b: seq<string>)
    ensures NonEmpty(a + b) == NonEmpty(a) + NonEmpty(b)
  {
    if a == [] {
      assert a + b == b;
    } else {
      assert (a + b)[1..] == a[1..] + b;
      NonEmptyAppend(a[1..], b);
    }
  }

  lemma {:induction false} NonEmptyKeepsAll(lines: seq<string>)
    requires forall k :: 0 <= k < |lines| ==> lines[k] != ""
    ensures NonEmpty(lines) == lines
  {
    if lines != [] {
      NonEmptyKeepsAll(lines[1..]);
    }
  }

  /** Serialisations each occupy one line: splitting their terminated text
      gives them back, and the empty piece after the last line feed. */
  lemma {:induction false} SplitSerialised(c: Codec, items: seq<JsValue>)
    requires Lawful(c)
    ensures SplitLines(Terminated(Serialised(c, items))) == Serialised(c, items) + [""]
  {
    if items == [] {
    } else {
      var l := c.stringify(items[0]);
      assert OneLine(l);
      SplitFirstLine(l, Terminated(Serialised(c, items[1..])));
      SplitSerialised(c, items[1..]);
    }
  }

  /** Parsing the serialisations gives the values back. */
  lemma {:induction false} ParsedSerialised(c: Codec, items: seq<JsValue>)
    requires Lawful(c)
    ensures Parsed(c, Serialised(c, items)) == items
  {
    if items != [] {
      var l := c.stringify(items[0]);
      var rest := Serialised(c, items[1..]);
      assert Serialised(c, items) == [l] + rest;
      ParsedAppend(c, [l], rest);
      ParsedSerialised(c, items[1..]);
      ParsedOne(c, items[0]);
      assert items == [items[0]] + items[1..];
    }
  }

  /** One serialised line parses back to its value. */
  lemma ParsedOne(c: Codec, v: JsValue)
    requires Lawful(c)
    ensures Parsed(c, [c.stringify(v)]) == [v]
  {
    assert [c.stringify(v)][..0] == [];
  }

  /** Every serialisation is a non-empty line. */
  lemma SerialisedNonEmpty(c: Codec, items: seq<JsValue>)
    requires Lawful(c)
    ensures forall k :: 0 <= k < |items| ==> Serialised(c, items)[k] != ""
  {
    forall k | 0 <= k < |items|
      ensures Serialised(c, items)[k] != ""
    {
      SerialisedAt(c, items, k);
      assert OneLine(c.stringify(items[k]));
    }
  }

  lemma {:induction false} SerialisedAt(c: Codec, items: seq<JsValue>, k: nat)
    requires k < |items|
    ensures Serialised(c, items)[k] == c.stringify(items[k])
  {
    if k > 0 {
      SerialisedAt(c, items[1..], k - 1);
    }
  }

  /** The pieces of all-whitespace text are all-whitespace. */
  lemma {:induction false} SplitPiecesWhite(s: string)
    requires AllWhiteSpace(s)
    ensures forall p | p in SplitLines(s) :: AllWhiteSpace(p)
    decreases |s|
  {
    if s == [] {
    } else if s[0] == '\n' {
      SplitPiecesWhite(s[1..]);
    } else if s[0] == '\r' && |s| >= 2 && s[1] == '\n' {
      SplitPiecesWhite(s[2..]);
    } else {
      SplitPiecesWhite(s[1..]);
      var rest := SplitLines(s[1..]);
      assert rest[0] in rest;
      assert forall p | p in rest[1..] :: p in rest;
      var first := [s[0]] + rest[0];
      assert AllWhiteSpace(first) by {
        forall k | 0 <= k < |first|
          ensures IsWhiteSpace(first[k])
        {
          if k > 0 {
            assert first[k] == rest[0][k - 1];
          }
        }
      }
    }
  }

  /** Blank lines never parse, so they contribute nothing. */
  lemma {:induction false} ParsedBlank(c: Codec, lines: seq<string>)
    requires Lawful(c)
    requires forall p | p in lines :: AllWhiteSpace(p)
    ensures Parsed(c, lines) == []
  {
    if lines != [] {
      var n := |lines| - 1;
      assert lines[n] in lines;
      assert forall p | p in lines[..n] :: p in lines;
      ParsedBlank(c, lines[..n]);
    }
  }

  /** What loading finds in text that is well terminated. */
  lemma LoadWellTerminated(c: Codec, text: string)
    requires Lawful(c) && WellTerminated(text)
    ensures var pieces := SplitLines(text);
      && pieces[|pieces| - 1] == ""
      && LoadLines(c, text) == Parsed(c, NonEmpty(pieces[..|pieces| - 1]))
  {
    SplitConcat(text, "");
    assert text + "" == text;
    var pieces := SplitLines(text);
    var n := |pieces| - 1;
    assert pieces == pieces[..n] + [pieces[n]];
    NonEmptyAppend(pieces[..n], [pieces[n]]);
    assert NonEmpty([pieces[n]]) == [];
    assert NonEmpty(pieces) == NonEmpty(pieces[..n]);
    TrimMeaning(text);
    if AllWhiteSpace(text) {
      SplitPiecesWhite(text);
      assert forall p | p in NonEmpty(pieces) :: p in pieces;
      ParsedBlank(c, NonEmpty(pieces));
    }
  }

  /** The pieces after appending serialised lines to well terminated text:
      the earlier lines, the new ones, and the empty piece at the end. */
  lemma SplitAfterAppend(c: Codec, text: string, items: seq<JsValue>)
    requires Lawful(c) && WellTerminated(text)
    ensures var pieces := SplitLines(text);
      SplitLines(text + Terminated(Serialised(c, items)))
        == (pieces[..|pieces| - 1] + Serialised(c, items)) + [""]
  {
    var lines := Serialised(c, items);
    var pieces := SplitLines(text);
    SplitConcat(text, Terminated(lines));
    SplitSerialised(c, items);
    assert pieces[..|pieces| - 1] + (lines + [""]) == (pieces[..|pieces| - 1] + lines) + [""];
  }

  lemma NonEmptyOfPieces(earlier: seq<string>, lines: seq<string>)
    requires forall k :: 0 <= k < |lines| ==> lines[k] != ""
    ensures NonEmpty((earlier + lines) + [""]) == NonEmpty(earlier) + lines
  {
    NonEmptyAppend(earlier + lines, [""]);
    NonEmptyAppend(earlier, lines);
    NonEmptyKeepsAll(lines);
    assert NonEmpty([""]) == [];
  }

  /** The non-empty pieces after appending serialised lines to well
      terminated text. */
  lemma PiecesAfterAppend(c: Codec, text: string, items: seq<JsValue>)
    requires Lawful(c) && WellTerminated(text)
    ensures var pieces := SplitLines(text);
      NonEmpty(SplitLines(text + Terminated(Serialised(c, items))))
        == NonEmpty(pieces[..|pieces| - 1]) + Serialised(c, items)
  {
    var pieces := SplitLines(text);
    SplitAfterAppend(c, text, items);
    SerialisedNonEmpty(c, items);
    NonEmptyOfPieces(pieces[..|pieces| - 1], Serialised(c, items));
  }

  /** Appending at least one serialised value leaves text that is not blank
      and ends in a line break. */
  lemma AppendedNotBlank(c: Codec, text: string, items: seq<JsValue>)
    requires Lawful(c) && items != []
    ensures var all := text + Terminated(Serialised(c, items));
      Trim(all) != "" && WellTerminated(all)
  {
    var lines := Serialised(c, items);
    var t := Terminated(lines);
    var l := c.stringify(items[0]);
    assert OneLine(l);
    assert t[0] == l[0];
    assert (text + t)[|text|] == t[0];
    TrimMeaning(text + t);
    TerminatedEnds(lines);
    assert (text + t)[|text + t| - 1] == t[|t| - 1];
  }

  /** Loading after appending lines to a file that ends in a line break
      yields what was there before followed by exactly the appended
      values: the restart guarantee of the event store. */
  lemma LoadAfterAppend(c: Codec, text: string, items: seq<JsValue>)
    requires Lawful(c) && WellTerminated(text)
    ensures WellTerminated(text + Terminated(Serialised(c, items)))
    ensures LoadLines(c, text + Terminated(Serialised(c, items))) == LoadLines(c, text) + items
  {
    var lines := Serialised(c, items);
    var t := Terminated(lines);
    if items == [] {
      assert text + t == text;
    } else {
      var pieces := SplitLines(text);
      var n := |pieces| - 1;
      LoadWellTerminated(c, text);
      PiecesAfterAppend(c, text, items);
      AppendedNotBlank(c, text, items);
      ParsedAppend(c, NonEmpty(pieces[..n]), lines);
      ParsedSerialised(c, items);
    }
  }

  /** A non-empty terminated text ends with a line feed. */
  lemma {:induction false} TerminatedEnds(lines: seq<string>)
    requires lines != []
    ensures var t := Terminated(lines); |t| > 0 && t[|t| - 1] == '\n'
  {
    if |lines| > 1 {
      TerminatedEnds(lines[1..]);
    }
  }

  /** An appended batch reads back as its items, after what was there. */
  lemma LoadAfterBatch(c: Codec, text: string, items: seq<JsValue>)
    requires Lawful(c) && WellTerminated(text) && items != []
    ensures WellTerminated(text + BatchLines(c, items))
    ensures LoadLines(c, text + BatchLines(c, items)) == LoadLines(c, text) + items
  {
    BatchLinesAreEventLines(c, items);
    LoadAfterAppend(c, text, items);
  }

  /** An appended event reads back as that event, after what was there. */
  lemma LoadAfterEvent(c: Codec, text: string, v: JsValue)
    requires Lawful(c) && WellTerminated(text)
    ensures WellTerminated(text + EventLine(c, v))
    ensures LoadLines(c, text + EventLine(c, v)) == LoadLines(c, text) + [v]
  {
    assert Serialised(c, [v]) == [c.stringify(v)];
    assert Terminated([c.stringify(v)]) == EventLine(c, v);
    LoadAfterAppend(c, text, [v]);
  }

  /** The non-empty pieces of well terminated text followed by an
      unterminated tail. */
  lemma PiecesWithTail(text: string, tail: string)
    requires WellTerminated(text) && '\n' !in tail
    ensures var pieces := SplitLines(text);
      NonEmpty(SplitLines(text + tail)) == NonEmpty(pieces[..|pieces| - 1]) + NonEmpty([tail])
  {
    var pieces := SplitLines(text);
    SplitConcat(text, tail);
    SplitSingleLine(tail);
    NonEmptyAppend(pieces[..|pieces| - 1], [tail]);
  }

  /** A prefix of all-whitespace text is all whitespace. */
  lemma WhitePrefix(a: string, b: string)
    requires AllWhiteSpace(a + b)
    ensures AllWhiteSpace(a)
  {
    forall k | 0 <= k < |a|
      ensures IsWhiteSpace(a[k])
    {
      assert a[k] == (a + b)[k];
    }
  }

  /** A final line cut short (no line feed after it, and it does not parse)
      is dropped, and every record before it is kept. */
  lemma TornTailDropped(c: Codec, text: string, tail: string)
    requires Lawful(c) && WellTerminated(text)
    requires '\n' !in tail && c.parse(tail) == None
    ensures LoadLines(c, text + tail) == LoadLines(c, text)
  {
    var pieces := SplitLines(text);
    var earlier := NonEmpty(pieces[..|pieces| - 1]);
    LoadWellTerminated(c, text);
    PiecesWithTail(text, tail);
    ParsedAppend(c, earlier, NonEmpty([tail]));
    assert Parsed(c, NonEmpty([tail])) == [] by {
      if tail != "" {
        assert NonEmpty([tail]) == [tail];
        assert [tail][..0] == [];
      }
    }
    TrimMeaning(text + tail);
    TrimMeaning(text);
    if AllWhiteSpace(text + tail) {
      WhitePrefix(text, tail);
    }
  }

  /** The non-empty pieces of well terminated text followed by one more
      line and its line break. */
  lemma PiecesWithLine(text: string, line: string)
    requires WellTerminated(text) && line != "" && '\n' !in line && '\r' !in line
    ensures var pieces := SplitLines(text);
      NonEmpty(SplitLines(text + line + "\n")) == NonEmpty(pieces[..|pieces| - 1]) + [line]
  {
    var pieces := SplitLines(text);
    assert text + line + "\n" == text + (line + "\n");
    SplitConcat(text, line + "\n");
    SplitLineFeedEnd(line);
    NonEmptyAppend(pieces[..|pieces| - 1], [line, ""]);
    assert [line, ""][1..] == [""];
    assert [""][1..] == [];
    assert NonEmpty([""]) == [];
    assert NonEmpty([line, ""]) == [line] + NonEmpty([""]);
  }

  /** A torn final line is not ended by a line break, so the next event's
      line is glued onto it; when the joined text does not parse, that
      event is lost on reload as well, although it was acknowledged. */
  lemma TornTailSwallowsNext(c: Codec, text: string, tail: string, v: JsValue)
    requires Lawful(c) && WellTerminated(text)
    requires '\n' !in tail && '\r' !in tail
    requires c.parse(tail + c.stringify(v)) == None
    ensures LoadLines(c, text + tail + EventLine(c, v)) == LoadLines(c, text)
  {
    var line := c.stringify(v);
    assert OneLine(line);
    var glued := tail + line;
    var all := text + tail + EventLine(c, v);
    assert all == text + glued + "\n";
    var pieces := SplitLines(text);
    var earlier := NonEmpty(pieces[..|pieces| - 1]);
    LoadWellTerminated(c, text);
    PiecesWithLine(text, glued);
    ParsedAppend(c, earlier, [glued]);
    assert [glued][..0] == [];
    assert Parsed(c, [glued]) == [];
    assert all[|text| + |tail|] == line[0];
    TrimMeaning(all);
  }

  /** An empty file holds no events. */
  lemma LoadEmpty(c: Codec)
    ensures LoadLines(c, "") == [] && WellTerminated("")
  {
  }

  // ---------------------------------------------------------------------
  // The write queue
  // ---------------------------------------------------------------------

  /** The text the settled writes left, in submission order: each succeeded
      write adds its line, a failed one adds nothing. */
  function Written(lines: seq<string>, outcomes: seq<bool>): string
    requires |lines| == |outcomes|
  {
    if lines == [] then ""
    else
      var n := |lines| - 1;
      Written(lines[..n], outcomes[..n]) + (if outcomes[n] then lines[n] else "")
  }

  /** When every write succeeds, the file gains all lines in order. */
  lemma {:induction false} WrittenAllOk(lines: seq<string>, outcomes: seq<bool>)
    requires |lines| == |outcomes|
    requires forall k :: 0 <= k < |outcomes| ==> outcomes[k]
    ensures Written(lines, outcomes) == Concat(lines)
  {
    if lines != [] {
      var n := |lines| - 1;
      WrittenAllOk(lines[..n], outcomes[..n]);
      ConcatSnoc(lines[..n], lines[n]);
      assert lines[..n] + [lines[n]] == lines;
    }
  }

  lemma {:induction false} ConcatSnoc(parts: seq<string>, x: string)
    ensures Concat(parts + [x]) == Concat(parts) + x
  {
    if parts == [] {
      assert parts + [x] == [x];
    } else {
      assert (parts + [x])[1..] == parts[1..] + [x];
      ConcatSnoc(parts[1..], x);
    }
  }

  /** Writes are independent: a failed write does not stop the ones queued
      after it, which land as if it had never been queued. */
  lemma {:induction false} WrittenAppend(a: seq<string>, oa: seq<bool>, b: seq<string>, ob: seq<bool>)
    requires |a| == |oa| && |b| == |ob|
    ensures Written(a + b, oa + ob) == Written(a, oa) + Written(b, ob)
    decreases |b|
  {
    if b == [] {
      assert a + b == a && oa + ob == oa;
    } else {
      var n := |b| - 1;
      assert (a + b)[..|a| + n] == a + b[..n];
      assert (oa + ob)[..|a| + n] == oa + ob[..n];
      WrittenAppend(a, oa, b[..n], ob[..n]);
    }
  }

  /** One NDJSON file and its write queue. Appends are queued and settle
      one at a time in the order they were queued; each settles as a
      success (its text is appended) or a failure (nothing is appended and
      the queue moves on). */
  class AppendLog {
    /** The contents of the file. */
    var text: string
    /** Lines queued and not yet settled, oldest first. */
    var pending: seq<string>
    /** The contents when the file was last loaded or truncated. */
    ghost var base: string
    /** Every line queued since then, and how the settled ones went. */
    ghost var submitted: seq<string>
    ghost var outcomes: seq<bool>

    ghost predicate Valid()
      reads this
    {
      && |outcomes| <= |submitted|
      && pending == submitted[|outcomes|..]
      && text == base + Written(submitted[..|outcomes|], outcomes)
    }

    /** A file holding `initial`, with nothing queued. */
    constructor (initial: string)
      ensures Valid()
      ensures text == initial && pending == []
      ensures base == initial && submitted == [] && outcomes == []
    {
      text := initial;
      pending := [];
      base := initial;
      submitted := [];
      outcomes := [];
    }

    /** queueAppendLine: the line goes behind everything already queued. */
    method Submit(line: string)
      requires Valid()
      modifies this
      ensures Valid()
      ensures pending == old(pending) + [line] && text == old(text)
      ensures submitted == old(submitted) + [line] && outcomes == old(outcomes) && base == old(base)
    {
      ghost var k := |outcomes|;
      assert (submitted + [line])[..k] == submitted[..k];
      assert (submitted + [line])[k..] == submitted[k..] + [line];
      pending := pending + [line];
      submitted := submitted + [line];
    }

    /** The oldest queued write settles; `ok` is whether appendFile
        succeeded. */
    method Settle(ok: bool) returns (written: bool)
      requires Valid() && pending != []
      modifies this
      ensures Valid()
      ensures written == ok
      ensures text == old(text) + (if ok then old(pending)[0] else "")
      ensures pending == old(pending)[1..]
      ensures outcomes == old(outcomes) + [ok] && submitted == old(submitted) && base == old(base)
    {
      var k := |outcomes|;
      assert submitted[k] == pending[0];
      assert submitted[..k + 1][..k] == submitted[..k];
      assert (outcomes + [ok])[..k] == outcomes;
      if ok {
        text := text + pending[0];
      }
      pending := pending[1..];
      outcomes := outcomes + [ok];
      written := ok;
    }

    /** writeFile(file, ""): on success the file is empty and counts from
        there; on failure nothing changes. Queued lines stay queued. */
    method Truncate(ok: bool) returns (done: bool)
      requires Valid()
      modifies this
      ensures Valid()
      ensures done == ok && pending == old(pending)
      ensures ok ==> text == "" && base == "" && submitted == old(pending) && outcomes == []
      ensures !ok ==> text == old(text) && base == old(base)
                      && submitted == old(submitted) && outcomes == old(outcomes)
    {
      if ok {
        text := "";
        base := "";
        submitted := pending;
        outcomes := [];
        assert submitted[..0] == [];
      }
      done := ok;
    }
  }
}
