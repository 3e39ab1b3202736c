/**
 * The wire between `POST /query/stream` (api/routers/query.py) and the
 * client's decoder (`queryTopicStream` in src/api.ts). The server writes
 * every record as `data: <json>` followed by a blank line, and `[DONE]` in
 * place of JSON for the end; the client splits whatever reads it gets on
 * line feeds. JSON is abstract on both sides: `dump` is `json.dumps` of a
 * record's object and `parse` is the client's `JSON.parse` as the decoder
 * sees it, and the round trip holds for any pair that agree (`Agree`).
 */
module StreamProtocol {
  import opened Wrappers
  import opened Text
  import opened StreamDecoder
  import opened Sanitize
  import opened QueryRouter

  /** What the client's parse makes of the object the server wrote for a record. */
  function Expected(r: Record): Payload {
    match r
    case Meta(_, _) => Object("", "")
    case ChunkRecord(c) => Object(c, "")
    case ErrorRecord(e) => Object("", e)
    case DoneRecord => Malformed
  }

  /**
   * The two JSON codecs agree: the server's encoding of a record holds no
   * line feed (`json.dumps` escapes them), is not the text `[DONE]` (it is
   * an object), and the client reads back the fields that were written.
   */
  ghost predicate Agree(dump: Record -> string, parse: string -> Payload) {
    forall r :: r != DoneRecord ==> '\n' !in dump(r) && dump(r) != DONE_SENTINEL && parse(dump(r)) == Expected(r)
  }

  /** The text after `data: ` for a record. */
  function Body(dump: Record -> string, r: Record): string {
    if r == DoneRecord then DONE_SENTINEL else dump(r)
  }

  /** The lines of one frame: the record's line, then the blank line. */
  function Frame(dump: Record -> string, r: Record): string {
    DATA_PREFIX + Body(dump, r) + "\n\n"
  }

  /** The whole response body for a sequence of records. */
  function Wire(dump: Record -> string, rs: seq<Record>): string {
    if rs == [] then [] else Wire(dump, rs[..|rs| - 1]) + Frame(dump, rs[|rs| - 1])
  }

  /** The complete lines of the body: for each record, its line and a blank one. */
  function Lines(dump: Record -> string, rs: seq<Record>): seq<string> {
    if rs == [] then [] else Lines(dump, rs[..|rs| - 1]) + [DATA_PREFIX + Body(dump, rs[|rs| - 1]), ""]
  }

  /** The callbacks one record should trigger on the client. */
  function Seen(r: Record): seq<Event> {
    match r
    case Meta(_, _) => []
    case ChunkRecord(c) => if c != [] then [Chunk(c)] else []
    case DoneRecord => [Done]
    case ErrorRecord(e) => if e != [] then [Error(Failure.Failed(e))] else []
  }

  function SeenAll(rs: seq<Record>): seq<Event> {
    if rs == [] then [] else SeenAll(rs[..|rs| - 1]) + Seen(rs[|rs| - 1])
  }

  /** A line without a line feed, then a blank line, splits into exactly those two lines. */
  lemma FrameSplit(x: string)
    requires '\n' !in x
    ensures CompleteLines(x + "\n\n") == [x, ""]
    ensures Tail(x + "\n\n") == ""
  {
    SplitFromAppend([], x, "\n\n");
    SplitFromNoBreak([], x);
    assert [] + x == x;
    assert "\n\n"[1..] == "\n";
    assert SplitFrom([], "\n") == [[]] + SplitFrom([], []);
    assert SplitFrom(x, "\n\n") == [x] + SplitFrom([], "\n");
    assert Split(x + "\n\n") == [x, "", ""];
  }

  /** The body splits into the frames' lines with nothing left over, whatever the records. */
  lemma {:induction false} WireLines(dump: Record -> string, parse: string -> Payload, rs: seq<Record>)
    requires Agree(dump, parse)
    ensures CompleteLines(Wire(dump, rs)) == Lines(dump, rs)
    ensures Tail(Wire(dump, rs)) == ""
  {
    if rs == [] {
      assert Split([]) == [[]];
    } else {
      var init := rs[..|rs| - 1];
      var r := rs[|rs| - 1];
      WireLines(dump, parse, init);
      var line := DATA_PREFIX + Body(dump, r);
      assert '\n' !in Body(dump, r);
      assert '\n' !in line by {
        assert forall k :: 0 <= k < |line| ==> line[k] == (if k < 6 then DATA_PREFIX[k] else Body(dump, r)[k - 6]);
      }
      FrameSplit(line);
      BufferStep(Wire(dump, init), line + "\n\n");
      assert [] + (line + "\n\n") == Frame(dump, r);
    }
  }

  /** The callbacks of one record's line. */
  lemma LineSeen(dump: Record -> string, parse: string -> Payload, r: Record)
    requires Agree(dump, parse)
    ensures LineEvents(parse, DATA_PREFIX + Body(dump, r)) == Seen(r)
    ensures LineEvents(parse, "") == []
  {
    var line := DATA_PREFIX + Body(dump, r);
    assert line[..|DATA_PREFIX|] == DATA_PREFIX && line[|DATA_PREFIX|..] == Body(dump, r);
  }

  /** The lines of the body trigger the records' callbacks, in order. */
  lemma {:induction false} LinesSeen(dump: Record -> string, parse: string -> Payload, rs: seq<Record>)
    requires Agree(dump, parse)
    ensures LinesEvents(parse, Lines(dump, rs)) == SeenAll(rs)
  {
    if rs != [] {
      var init := rs[..|rs| - 1];
      var r := rs[|rs| - 1];
      LinesSeen(dump, parse, init);
      var line := DATA_PREFIX + Body(dump, r);
      assert Lines(dump, rs) == Lines(dump, init) + [line, ""];
      LinesEventsAppend(parse, Lines(dump, init), [line, ""]);
      LineSeen(dump, parse, r);
      PairEvents(parse, line);
    }
  }

  /** A line followed by a blank line triggers the line's callbacks. */
  lemma PairEvents(parse: string -> Payload, line: string)
    ensures LinesEvents(parse, [line, ""]) == LineEvents(parse, line)
  {
    assert [line, ""][..1] == [line] && [line][..0] == [];
    assert LinesEvents(parse, [line]) == LinesEvents(parse, []) + LineEvents(parse, line);
    assert LinesEvents(parse, [line, ""]) == LinesEvents(parse, [line]) + LineEvents(parse, "");
    assert !StartsWith("", DATA_PREFIX);
  }

  /**
   * The round trip: however the body is cut into reads, the client's
   * callbacks are the records' callbacks in order, and the decoder's buffer
   * is empty at the end.
   */
  lemma RoundTrip(dump: Record -> string, parse: string -> Payload, rs: seq<Record>, fragments: seq<string>)
    requires Agree(dump, parse)
    requires Concat(fragments) == Wire(dump, rs)
    ensures Decoded(parse, fragments) == SeenAll(rs)
    ensures Tail(Concat(fragments)) == ""
  {
    WireLines(dump, parse, rs);
    LinesSeen(dump, parse, rs);
  }

  /** The text the client accumulates: the concatenation of the chunk callbacks. */
  function ChunkText(events: seq<Event>): string {
    if events == [] then []
    else ChunkText(events[..|events| - 1]) + (if events[|events| - 1].Chunk? then events[|events| - 1].text else [])
  }

  lemma {:induction false} ChunkTextAppend(a: seq<Event>, b: seq<Event>)
    ensures ChunkText(a + b) == ChunkText(a) + ChunkText(b)
    decreases |b|
  {
    if b == [] {
      assert a + b == a;
    } else {
      assert (a + b)[..|a + b| - 1] == a + b[..|b| - 1];
      ChunkTextAppend(a, b[..|b| - 1]);
    }
  }

  lemma {:induction false} SeenAllAppend(a: seq<Record>, b: seq<Record>)
    ensures SeenAll(a + b) == SeenAll(a) + SeenAll(b)
    decreases |b|
  {
    if b == [] {
      assert a + b == a;
    } else {
      var b', x := b[..|b| - 1], b[|b| - 1];
      assert (a + b)[..|a + b| - 1] == a + b';
      assert (a + b)[|a + b| - 1] == x;
      SeenAllAppend(a, b');
      assert SeenAll(a + b) == SeenAll(a + b') + Seen(x);
      assert SeenAll(b) == SeenAll(b') + Seen(x);
    }
  }

  /** Chunk records are seen as chunk callbacks only (empty ones are skipped), and their texts add up to the chunks'. */
  lemma {:induction false} ChunksSeen(chunks: seq<string>)
    ensures ChunkText(SeenAll(ChunkRecords(chunks))) == Concat(chunks)
    ensures forall e :: e in SeenAll(ChunkRecords(chunks)) ==> e.Chunk? && e.text != []
  {
    if chunks != [] {
      var n := |chunks| - 1;
      ChunksSeen(chunks[..n]);
      assert ChunkRecords(chunks)[..n] == ChunkRecords(chunks[..n]);
      var s := Seen(ChunkRecord(chunks[n]));
      ChunkTextAppend(SeenAll(ChunkRecords(chunks[..n])), s);
    }
  }

  /** A stream's callbacks: nothing for the metadata, then the chunks', then the closing record's. */
  lemma FramedSeen(topic: string, level: string, chunks: seq<string>, last: Record)
    ensures SeenAll([Meta(topic, level)] + ChunkRecords(chunks) + [last]) == SeenAll(ChunkRecords(chunks)) + Seen(last)
  {
    SeenAllThree([Meta(topic, level)], ChunkRecords(chunks), [last]);
    SeenAllOne(Meta(topic, level));
    SeenAllOne(last);
  }

  lemma SeenAllThree(a: seq<Record>, b: seq<Record>, c: seq<Record>)
    ensures SeenAll(a + b + c) == SeenAll(a) + SeenAll(b) + SeenAll(c)
  {
    SeenAllAppend(a + b, c);
    SeenAllAppend(a, b);
  }

  lemma SeenAllOne(r: Record)
    ensures SeenAll([r]) == Seen(r)
  {
    assert [r][..0] == [];
  }

  /**
   * What the client of `POST /query/stream` sees, for any cutting of the
   * body into reads: chunk callbacks whose texts add up to the whole
   * explanation (the cached text on a replay, the model's text otherwise),
   * then one `onDone`; when the model raised, the chunks it had yielded and
   * one `onError` with the message, except that an exception whose message
   * is empty ends the callbacks with the last chunk and no `onError` at all.
   */
  lemma StreamDelivered(entries: map<CacheKey, map<string, string>>, req: QueryRequest, user: Option<string>, gen: Generation,
                        dump: Record -> string, parse: string -> Payload, fragments: seq<string>)
    requires Agree(dump, parse)
    requires StreamAnswer(entries, req, user, gen).response.Ok?
    requires Concat(fragments) == Wire(dump, StreamAnswer(entries, req, user, gen).response.value)
    ensures var events := Decoded(parse, fragments);
      var topic := SanitizeTopic(req.topic).value;
      var level := StreamLevel(req.levels);
      var replay := !req.bypassCache && StreamHit(entries, topic, level);
      var body := if replay then TextField(entries[CacheKey(topic, level)]) else Concat(gen.chunks);
      var closing := Closing(replay, gen.failure);
      var n := |events| - |closing|;
      0 <= n && ChunkText(events[..n]) == body &&
      (forall i :: 0 <= i < n ==> events[i].Chunk? && events[i].text != []) &&
      events[n..] == closing
  {
    var chunks, last := StreamFrame(entries, req, user, gen);
    var topic := SanitizeTopic(req.topic).value;
    DeliveredFrame(dump, parse, fragments, Meta(topic, StreamLevel(req.levels)), chunks, last);
  }

  /** A successful stream's records: the metadata, chunks that add up to the explanation, and the closing record. */
  lemma StreamFrame(entries: map<CacheKey, map<string, string>>, req: QueryRequest, user: Option<string>, gen: Generation)
    returns (chunks: seq<string>, last: Record)
    requires StreamAnswer(entries, req, user, gen).response.Ok?
    ensures var topic := SanitizeTopic(req.topic).value;
      var level := StreamLevel(req.levels);
      var replay := !req.bypassCache && StreamHit(entries, topic, level);
      StreamAnswer(entries, req, user, gen).response.value == [Meta(topic, level)] + ChunkRecords(chunks) + [last] &&
      Concat(chunks) == (if replay then TextField(entries[CacheKey(topic, level)]) else Concat(gen.chunks)) &&
      Seen(last) == Closing(replay, gen.failure)
  {
    var topic := SanitizeTopic(req.topic).value;
    var level := StreamLevel(req.levels);
    if !req.bypassCache && StreamHit(entries, topic, level) {
      var text := TextField(entries[CacheKey(topic, level)]);
      PiecesShape(text);
      chunks, last := Pieces(text), DoneRecord;
    } else if gen.failure.Some? {
      chunks, last := gen.chunks, ErrorRecord(gen.failure.value);
    } else {
      chunks, last := gen.chunks, DoneRecord;
    }
  }

  /** The callbacks of one stream's body, however it is cut into reads. */
  lemma DeliveredFrame(dump: Record -> string, parse: string -> Payload, fragments: seq<string>, meta: Record, chunks: seq<string>, last: Record)
    requires Agree(dump, parse) && meta.Meta?
    requires Concat(fragments) == Wire(dump, [meta] + ChunkRecords(chunks) + [last])
    ensures var events := Decoded(parse, fragments);
      var n := |events| - |Seen(last)|;
      0 <= n && ChunkText(events[..n]) == Concat(chunks) &&
      (forall i :: 0 <= i < n ==> events[i].Chunk? && events[i].text != []) &&
      events[n..] == Seen(last)
  {
    RoundTrip(dump, parse, [meta] + ChunkRecords(chunks) + [last], fragments);
    FramedSeen(meta.topic, meta.level, chunks, last);
    ClosedBy(chunks, last, Decoded(parse, fragments));
  }

  /**
   * The callbacks that end a stream: `onDone` after a replay or a finished
   * model, `onError` with the message after a model that raised, and none
   * when that message is empty.
   */
  function Closing(replay: bool, failure: Option<string>): seq<Event> {
    if replay || failure.None? then [Done] else Seen(ErrorRecord(failure.value))
  }

  /** The callbacks of chunk records and a closing record: the chunks' texts, then the closing callback if any. */
  lemma ClosedBy(chunks: seq<string>, last: Record, events: seq<Event>)
    requires events == SeenAll(ChunkRecords(chunks)) + Seen(last)
    ensures |Seen(last)| <= 1
    ensures var n := |events| - |Seen(last)|;
      0 <= n && ChunkText(events[..n]) == Concat(chunks) &&
      (forall i :: 0 <= i < n ==> events[i].Chunk? && events[i].text != []) &&
      events[n..] == Seen(last)
  {
    var c := SeenAll(ChunkRecords(chunks));
    ChunksSeen(chunks);
    assert events[..|c|] == c && events[|c|..] == Seen(last);
    forall i | 0 <= i < |c| ensures events[i].Chunk? && events[i].text != [] {
      assert events[i] == c[i] && c[i] in c;
    }
  }
}
