/**
 * The client's streaming decoder (`queryTopicStream` in src/api.ts): reads
 * arrive as already-decoded text fragments; the decoder splits the buffered
 * text on line feeds, keeps the unterminated tail for the next read, and acts
 * on every complete line that starts with `data: `.
 */
module StreamDecoder {
  import opened Wrappers
  import opened Text

  /**
   * What `JSON.parse` made of a record's payload, as far as the decoder looks
   * at it. `Malformed` covers text that does not parse and values whose field
   * access throws (`null`). For an object, `chunk` and `error` hold the field
   * when it is a non-empty string and are empty when the field is absent,
   * empty or otherwise falsy.
   */
  datatype Payload = Malformed | Object(chunk: string, error: string)

  /** What `onError` receives: an `AbortError`, or any other error with its message. */
  datatype Failure = Aborted | Failed(message: string)

  /** One callback invocation: `onChunk(text)`, `onDone({})` or `onError(err)`. */
  datatype Event = Chunk(text: string) | Done | Error(failure: Failure)

  const DATA_PREFIX: string := "data: "
  const DONE_SENTINEL: string := "[DONE]"

  // ----- `buffer.split('\n')` -----

  /** Splitting `s` on line feeds, with `cur` already read into the first piece. */
  function SplitFrom(cur: string, s: string): (parts: seq<string>)
    ensures |parts| >= 1
    decreases |s|
  {
    if s == [] then [cur]
    else if s[0] == '\n' then [cur] + SplitFrom([], s[1..])
    else SplitFrom(cur + [s[0]], s[1..])
  }

  /** JavaScript `s.split('\n')`: n line feeds give n + 1 pieces. */
  function Split(s: string): (parts: seq<string>)
    ensures |parts| >= 1
  {
    SplitFrom([], s)
  }

  /** The pieces of `s` that a line feed terminates. */
  function CompleteLines(s: string): seq<string> {
    Split(s)[..|Split(s)| - 1]
  }

  /** The text after the last line feed of `s` (what `lines.pop()` keeps). */
  function Tail(s: string): string {
    Split(s)[|Split(s)| - 1]
  }

  /** Joining pieces with line feeds, the inverse of `Split`. */
  function Join(parts: seq<string>): string
    requires |parts| >= 1
  {
    if |parts| == 1 then parts[0] else parts[0] + "\n" + Join(parts[1..])
  }

  lemma {:induction false} SplitFromJoin(cur: string, s: string)
    ensures Join(SplitFrom(cur, s)) == cur + s
    ensures forall i :: 0 <= i < |SplitFrom(cur, s)| ==> ('\n' in cur + s || '\n' !in SplitFrom(cur, s)[i])
    decreases |s|
  {
    if s == [] {
    } else if s[0] == '\n' {
      SplitFromJoin([], s[1..]);
      assert cur + s == cur + "\n" + s[1..];
    } else {
      SplitFromJoin(cur + [s[0]], s[1..]);
      assert cur + s == (cur + [s[0]]) + s[1..];
    }
  }

  /** No piece of a split contains a line feed. */
  lemma {:induction false} SplitFromNoNewline(cur: string, s: string)
    requires '\n' !in cur
    ensures forall i :: 0 <= i < |SplitFrom(cur, s)| ==> '\n' !in SplitFrom(cur, s)[i]
    decreases |s|
  {
    if s == [] {
    } else if s[0] == '\n' {
      SplitFromNoNewline([], s[1..]);
    } else {
      SplitFromNoNewline(cur + [s[0]], s[1..]);
    }
  }

  /** `Split` and `Join` are inverse: the pieces rejoin to the text, and no piece holds a line feed. */
  lemma SplitJoin(s: string)
    ensures Join(Split(s)) == s
    ensures forall i :: 0 <= i < |Split(s)| ==> '\n' !in Split(s)[i]
  {
    SplitFromJoin([], s);
    SplitFromNoNewline([], s);
  }

  /** Text without a line feed splits into itself. */
  lemma {:induction false} SplitFromNoBreak(cur: string, s: string)
    requires '\n' !in s
    ensures SplitFrom(cur, s) == [cur + s]
    decreases |s|
  {
    if s != [] {
      assert s[0] in s;
      assert s[0] != '\n';
      assert forall c :: c in s[1..] ==> c in s;
      SplitFromNoBreak(cur + [s[0]], s[1..]);
      assert (cur + [s[0]]) + s[1..] == cur + s;
    } else {
      assert cur + s == cur;
    }
  }

  /** Splitting `a + b` = the complete pieces of `a`, then `b` split with `a`'s tail carried in. */
  lemma {:induction false} SplitFromAppend(cur: string, a: string, b: string)
    ensures var pa := SplitFrom(cur, a);
      SplitFrom(cur, a + b) == pa[..|pa| - 1] + SplitFrom(pa[|pa| - 1], b)
    decreases |a|
  {
    if a == [] {
      assert a + b == b;
    } else if a[0] == '\n' {
      assert (a + b)[1..] == a[1..] + b;
      SplitFromAppend([], a[1..], b);
    } else {
      assert (a + b)[1..] == a[1..] + b;
      SplitFromAppend(cur + [a[0]], a[1..], b);
    }
  }

  /**
   * The buffering step: splitting the carried tail plus a new read yields the
   * complete lines that the read finishes and the new tail.
   */
  lemma BufferStep(s: string, read: string)
    ensures CompleteLines(s + read) == CompleteLines(s) + CompleteLines(Tail(s) + read)
    ensures Tail(s + read) == Tail(Tail(s) + read)
  {
    var c := CompleteLines(s);
    var q := Split(Tail(s) + read);
    SplitAfterRead(s, read);
    assert (c + q)[..|c| + |q| - 1] == c + q[..|q| - 1];
    assert (c + q)[|c| + |q| - 1] == q[|q| - 1];
  }

  /** Splitting the buffer plus a read: the buffer's complete lines, then the split of its tail plus the read. */
  lemma SplitAfterRead(s: string, read: string)
    ensures Split(s + read) == CompleteLines(s) + Split(Tail(s) + read)
  {
    SplitFromAppend([], s, read);
    SplitTailCarried(s, read);
  }

  /** The tail holds no line feed, so splitting it plus a read is splitting the read with the tail carried in. */
  lemma SplitTailCarried(s: string, read: string)
    ensures Split(Tail(s) + read) == SplitFrom(Tail(s), read)
  {
    SplitJoin(s);
    assert '\n' !in Tail(s);
    SplitFromAppend([], Tail(s), read);
    SplitFromNoBreak([], Tail(s));
    assert [] + Tail(s) == Tail(s);
  }

  /** Text after the last line feed is never part of a complete line, however it grows. */
  lemma UnterminatedTailIgnored(s: string, t: string)
    requires '\n' !in t
    ensures CompleteLines(s + t) == CompleteLines(s)
    ensures Tail(s + t) == Tail(s) + t
  {
    BufferStep(s, t);
    SplitJoin(s);
    SplitFromNoBreak([], Tail(s) + t);
    assert Split(Tail(s) + t) == [Tail(s) + t] by {
      assert [] + (Tail(s) + t) == Tail(s) + t;
    }
  }

  // ----- dispatching one line -----

  /** The callbacks one complete line triggers (at most one). */
  function LineEvents(parse: string -> Payload, line: string): (r: seq<Event>)
    ensures |r| <= 1
    ensures r != [] ==> StartsWith(line, DATA_PREFIX)
    ensures r == [Done] <==> line == DATA_PREFIX + DONE_SENTINEL
  {
    if !StartsWith(line, DATA_PREFIX) then []
    else
      var data := line[|DATA_PREFIX|..];
      assert line == DATA_PREFIX + data;
      if data == DONE_SENTINEL then [Done]
      else
        match parse(data)
        case Malformed => []
        case Object(chunk, error) =>
          if chunk != [] then [Chunk(chunk)]
          else if error != [] then [Error(Failed(error))]
          else []
  }

  /** The callbacks a sequence of complete lines triggers, in order. */
  function LinesEvents(parse: string -> Payload, lines: seq<string>): seq<Event> {
    if lines == [] then []
    else LinesEvents(parse, lines[..|lines| - 1]) + LineEvents(parse, lines[|lines| - 1])
  }

  lemma {:induction false} LinesEventsAppend(parse: string -> Payload, a: seq<string>, b: seq<string>)
    ensures LinesEvents(parse, a + b) == LinesEvents(parse, a) + LinesEvents(parse, b)
    decreases |b|
  {
    if b == [] {
      assert a + b == a;
    } else {
      assert (a + b)[..|a + b| - 1] == a + b[..|b| - 1];
      LinesEventsAppend(parse, a, b[..|b| - 1]);
    }
  }

  /** The reference decoding: the callbacks of every complete line of the whole stream. */
  function Decoded(parse: string -> Payload, fragments: seq<string>): seq<Event> {
    LinesEvents(parse, CompleteLines(Concat(fragments)))
  }

  /**
   * The read loop of `queryTopicStream`. Whatever way the stream is cut into
   * fragments, the callbacks are those of the complete lines of the whole stream;
   * what is left in the buffer when the stream ends is the unterminated tail,
   * and it is never delivered.
   */
  method ReadLoop(parse: string -> Payload, fragments: seq<string>) returns (events: seq<Event>, buffer: string)
    ensures events == Decoded(parse, fragments)
    ensures buffer == Tail(Concat(fragments))
  {
    events, buffer := [], "";
    var k := 0;
    while k < |fragments|
      invariant 0 <= k <= |fragments|
      invariant events == Decoded(parse, fragments[..k])
      invariant buffer == Tail(Concat(fragments[..k]))
    {
      var lines;
      lines, buffer := Feed(buffer, fragments[k]);
      var fired := DispatchLines(parse, lines);
      events := events + fired;
      ReadStep(parse, fragments, k);
      k := k + 1;
    }
    assert fragments[..k] == fragments;
  }

  /** Appending a read to the buffer and splitting it: the complete lines, and the tail `lines.pop()` keeps. */
  method Feed(buffer: string, read: string) returns (lines: seq<string>, rest: string)
    ensures lines == CompleteLines(buffer + read)
    ensures rest == Tail(buffer + read)
  {
    var text := buffer + read;
    lines := Split(text);
    rest := lines[|lines| - 1];
    lines := lines[..|lines| - 1];
  }

  /** The inner `for` over the complete lines of one read: each line's callbacks, in order. */
  method DispatchLines(parse: string -> Payload, lines: seq<string>) returns (events: seq<Event>)
    ensures events == LinesEvents(parse, lines)
  {
    events := [];
    var j := 0;
    while j < |lines|
      invariant 0 <= j <= |lines|
      invariant events == LinesEvents(parse, lines[..j])
    {
      var line := lines[j];
      if StartsWith(line, DATA_PREFIX) {
        var data := line[|DATA_PREFIX|..];
        if data == DONE_SENTINEL {
          events := events + [Done];
        } else {
          match parse(data) {
            case Malformed =>
            case Object(chunk, error) =>
              if chunk != [] {
                events := events + [Chunk(chunk)];
              } else if error != [] {
                events := events + [Error(Failed(error))];
              }
          }
        }
      }
      assert lines[..j + 1][..j] == lines[..j];
      j := j + 1;
    }
    assert lines[..j] == lines;
  }

  /** One read: the callbacks and the tail of the first `k + 1` fragments, from those of the first `k`. */
  lemma ReadStep(parse: string -> Payload, fragments: seq<string>, k: nat)
    requires k < |fragments|
    ensures Decoded(parse, fragments[..k + 1]) ==
      Decoded(parse, fragments[..k]) + LinesEvents(parse, CompleteLines(Tail(Concat(fragments[..k])) + fragments[k]))
    ensures Tail(Concat(fragments[..k + 1])) == Tail(Tail(Concat(fragments[..k])) + fragments[k])
  {
    var before := Concat(fragments[..k]);
    assert fragments[..k + 1] == fragments[..k] + [fragments[k]];
    assert fragments[..k + 1][..k] == fragments[..k];
    assert Concat(fragments[..k + 1]) == before + fragments[k];
    BufferStep(before, fragments[k]);
    LinesEventsAppend(parse, CompleteLines(before), CompleteLines(Tail(before) + fragments[k]));
  }

  // ----- the whole request -----

  /** One read's worth of the response body, and how the body ended. */
  datatype Body = Body(fragments: seq<string>, end: Option<Failure>)

  /**
   * What the network did with the request: `fetch` rejected (a network error
   * or an abort before the response), or a response arrived with its status
   * and, unless `response.body` was absent, its body.
   */
  datatype Transport = FetchRejected(failure: Failure) | Responded(status: nat, body: Option<Body>)

  /** `response.ok`. */
  predicate IsOk(status: nat) {
    200 <= status <= 299
  }

  /** The callbacks of one `queryTopicStream` call. */
  function StreamEvents(parse: string -> Payload, t: Transport): seq<Event> {
    match t
    case FetchRejected(f) => [Error(f)]
    case Responded(status, body) =>
      if !IsOk(status) then [Error(Failed("API error: " + NatToString(status)))]
      else if body.None? then [Error(Failed("ReadableStream not supported"))]
      else
        Decoded(parse, body.value.fragments)
        + (if body.value.end.Some? then [Error(body.value.end.value)] else [])
  }

  /**
   * `queryTopicStream`: a rejected fetch, a non-ok status, a missing body and
   * a read that rejects (an abort included) each end in `onError`; otherwise
   * the read loop's callbacks.
   */
  method QueryTopicStream(parse: string -> Payload, t: Transport) returns (events: seq<Event>)
    ensures events == StreamEvents(parse, t)
    ensures t.FetchRejected? ==> events == [Error(t.failure)]
    ensures t.Responded? && !IsOk(t.status) ==> |events| == 1 && events[0].Error? && events[0].failure.Failed?
    ensures t.Responded? && IsOk(t.status) && t.body.Some? && t.body.value.end.Some? ==>
      events != [] && events[|events| - 1] == Error(t.body.value.end.value)
  {
    match t {
      case FetchRejected(f) =>
        events := [Error(f)];
      case Responded(status, body) =>
        if !IsOk(status) {
          events := [Error(Failed("API error: " + NatToString(status)))];
        } else if body.None? {
          events := [Error(Failed("ReadableStream not supported"))];
        } else {
          var buffer;
          events, buffer := ReadLoop(parse, body.value.fragments);
          if body.value.end.Some? {
            events := events + [Error(body.value.end.value)];
          }
        }
    }
  }

  /**
   * How the stream is cut into reads does not matter: two runs of the read
   * loop over the same stream, cut differently, fire the same callbacks and
   * end with the same buffer.
   */
  method ReadLoopsAgree(parse: string -> Payload, fragments1: seq<string>, fragments2: seq<string>)
    returns (events1: seq<Event>, buffer1: string, events2: seq<Event>, buffer2: string)
    requires Concat(fragments1) == Concat(fragments2)
    ensures events1 == events2 && buffer1 == buffer2
  {
    events1, buffer1 := ReadLoop(parse, fragments1);
    events2, buffer2 := ReadLoop(parse, fragments2);
  }

  /**
   * `[DONE]` does not stop the loop: a chunk record after it is still
   * delivered, and an error record does not stop it either.
   */
  lemma DoneAndErrorDoNotStop(parse: string -> Payload, payload: string, chunk: string, error: string)
    requires payload != DONE_SENTINEL && parse(payload) == Object(chunk, error) && chunk != []
    ensures LinesEvents(parse, ["data: [DONE]", DATA_PREFIX + payload]) == [Done, Chunk(chunk)]
  {
    var lines := ["data: [DONE]", DATA_PREFIX + payload];
    assert lines[..1][..0] == [];
    assert lines[..1] == ["data: [DONE]"];
    assert (DATA_PREFIX + payload)[..|DATA_PREFIX|] == DATA_PREFIX;
    assert (DATA_PREFIX + payload)[|DATA_PREFIX|..] == payload;
    assert LineEvents(parse, "data: [DONE]") == [Done];
    assert LineEvents(parse, DATA_PREFIX + payload) == [Chunk(chunk)];
    assert LinesEvents(parse, lines[..1]) == LinesEvents(parse, []) + LineEvents(parse, lines[0]);
  }
}
