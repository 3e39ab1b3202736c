/**
 * The query endpoints of the backend (api/routers/query.py): `POST /query`
 * answers every requested level from the Redis cache or by generation,
 * `POST /query/stream` streams one level as `data:` records, and
 * `save_to_history` records a signed-in user's search.
 *
 * The cache is a store of JSON objects under `topic_cache_key(topic,
 * level)`; that function is not part of the code base, so the key is the
 * pair itself, which makes it injective. Generation is an oracle: the
 * answer of `ensemble_generate` for a level, or the streamed chunks of
 * `generate_stream_explanation` and the exception it may raise after them.
 * Background tasks (`asyncio.create_task(save_to_history(...))`) are
 * returned as the history save they schedule.
 */
module QueryRouter {
  import opened Wrappers
  import opened Text
  import opened OrderedDict
  import opened Sanitize

  /** The request body; the temperature is left out. */
  datatype QueryRequest = QueryRequest(topic: string, levels: seq<string>, mode: string, bypassCache: bool, regenerate: bool)

  /**
   * A refusal: pydantic's 422 for a body that breaks the field constraints,
   * a handler's 400 with its detail, or the 500 the global exception
   * handler answers for any uncaught exception.
   */
  datatype HttpError = Unprocessable | BadRequest(detail: string) | InternalError

  /** `QueryResponse`. */
  datatype QueryResponse = QueryResponse(topic: string, explanations: Dict<string, string>, cached: bool)

  /** `topic_cache_key(topic, level)`. */
  datatype CacheKey = CacheKey(topic: string, level: string)

  /** The answer of `ensemble_generate` for one level: its text, or the exception it raised (its `str`). */
  datatype Outcome = Generated(text: string) | Failed(message: string)

  /** The background `save_to_history(user, topic, levels, mode)` a handler schedules. */
  datatype HistorySave = HistorySave(user: string, topic: string, levels: seq<string>, mode: string)

  /** The Redis store, seen through `cache_get` and `cache_set` (which swallow their own failures). */
  class Store {
    var entries: map<CacheKey, map<string, string>>
  }

  /** `Field(..., min_length=1, max_length=200)` on the topic, checked before the handler runs. */
  predicate WellFormed(req: QueryRequest) {
    1 <= |req.topic| <= MAX_TOPIC_LENGTH
  }

  /** Both endpoints run `ensemble` and `technical_depth` requests as `fast`. */
  function CoerceMode(mode: string): (m: string)
    ensures m != "ensemble" && m != "technical_depth"
    ensures m == mode <==> mode != "ensemble" && mode != "technical_depth"
    ensures m != mode ==> m == "fast"
  {
    if mode == "ensemble" || mode == "technical_depth" then "fast" else mode
  }

  /** The levels `POST /query` answers: the requested ones, or `eli5` alone when none are. */
  function DefaultLevels(levels: seq<string>): (ls: seq<string>)
    ensures ls != []
    ensures levels != [] ==> ls == levels
    ensures levels == [] ==> ls == ["eli5"]
  {
    if levels == [] then ["eli5"] else levels
  }

  /** The one level `POST /query/stream` serves: the first of the levels `POST /query` would answer. */
  function StreamLevel(levels: seq<string>): (level: string)
    ensures level == DefaultLevels(levels)[0]
  {
    if levels != [] then levels[0] else "eli5"
  }

  /**
   * A handler never sees a topic that is too long or empty: the only way
   * `sanitize_topic` can refuse a well-formed request is the pattern.
   */
  lemma SanitizeOnWellFormed(req: QueryRequest)
    requires WellFormed(req)
    ensures SanitizeTopic(req.topic).Err? ==> SanitizeTopic(req.topic).error == INVALID_CHARACTERS
  {
    var t := TrimStart(Py, req.topic);
    assert |TrimEnd(Py, t)| <= |t| <= |req.topic|;
  }

  // ----- the cache partition -----

  /** `if cached:` after `cache_get`: the key is present and its object is not empty. */
  predicate Hit(entries: map<CacheKey, map<string, string>>, topic: string, level: string) {
    CacheKey(topic, level) in entries && entries[CacheKey(topic, level)] != map[]
  }

  /** `cached.get("text", "")`. */
  function TextField(e: map<string, string>): string {
    if "text" in e then e["text"] else ""
  }

  /** The explanations the cache answers, in the order of the levels. */
  function Found(entries: map<CacheKey, map<string, string>>, topic: string, levels: seq<string>): Dict<string, string> {
    if levels == [] then []
    else
      var d := Found(entries, topic, levels[..|levels| - 1]);
      var l := levels[|levels| - 1];
      if Hit(entries, topic, l) then Put(d, l, TextField(entries[CacheKey(topic, l)])) else d
  }

  /** The levels the cache does not answer, in order (`uncached`). */
  function Missing(entries: map<CacheKey, map<string, string>>, topic: string, levels: seq<string>): seq<string> {
    if levels == [] then []
    else
      var u := Missing(entries, topic, levels[..|levels| - 1]);
      var l := levels[|levels| - 1];
      if Hit(entries, topic, l) then u else u + [l]
  }

  /**
   * Every level lands on exactly one side: a cached level reads its cached
   * text, and an uncached one is listed; nothing else appears on either side.
   */
  lemma {:induction false} PartitionSides(entries: map<CacheKey, map<string, string>>, topic: string, levels: seq<string>, l: string)
    ensures Get(Found(entries, topic, levels), l) ==
      if l in levels && Hit(entries, topic, l) then Some(TextField(entries[CacheKey(topic, l)])) else None
    ensures l in Missing(entries, topic, levels) <==> l in levels && !Hit(entries, topic, l)
  {
    if levels != [] {
      var init := levels[..|levels| - 1];
      var last := levels[|levels| - 1];
      PartitionSides(entries, topic, init, l);
      assert levels == init + [last];
      if Hit(entries, topic, last) {
        PutGet(Found(entries, topic, init), last, TextField(entries[CacheKey(topic, last)]), l);
      }
    }
  }

  /** The cache answers a found dictionary without repeated keys. */
  lemma {:induction false} FoundValid(entries: map<CacheKey, map<string, string>>, topic: string, levels: seq<string>)
    ensures Valid(Found(entries, topic, levels))
  {
    if levels != [] {
      var init := levels[..|levels| - 1];
      FoundValid(entries, topic, init);
      var last := levels[|levels| - 1];
      if Hit(entries, topic, last) {
        PutValid(Found(entries, topic, init), last, TextField(entries[CacheKey(topic, last)]));
      }
    }
  }

  /**
   * The loop over the levels before generation: each level is looked up
   * once and goes to the cached explanations or to `uncached`. The store
   * is only read.
   */
  method Partition(store: Store, topic: string, levels: seq<string>) returns (explanations: Dict<string, string>, uncached: seq<string>)
    ensures explanations == Found(store.entries, topic, levels)
    ensures uncached == Missing(store.entries, topic, levels)
  {
    explanations, uncached := [], [];
    var i := 0;
    while i < |levels|
      invariant 0 <= i <= |levels|
      invariant explanations == Found(store.entries, topic, levels[..i])
      invariant uncached == Missing(store.entries, topic, levels[..i])
    {
      assert levels[..i + 1][..i] == levels[..i];
      var key := CacheKey(topic, levels[i]);
      if key in store.entries && store.entries[key] != map[] {
        explanations := Put(explanations, levels[i], TextField(store.entries[key]));
      } else {
        uncached := uncached + [levels[i]];
      }
      i := i + 1;
    }
    assert levels[..|levels|] == levels;
  }

  // ----- generation -----

  /** The keys of the `tasks` dictionary built from `uncached`: each level once, at its first place. */
  function TaskLevels(uncached: seq<string>): (ks: seq<string>)
    ensures forall l :: l in ks <==> l in uncached
    ensures forall i, j :: 0 <= i < j < |ks| ==> ks[i] != ks[j]
  {
    if uncached == [] then []
    else
      var ks := TaskLevels(uncached[..|uncached| - 1]);
      var l := uncached[|uncached| - 1];
      assert uncached == uncached[..|uncached| - 1] + [l];
      if l in ks then ks else ks + [l]
  }

  /** What the response shows for a level whose generation ended with `o`. */
  function OutcomeText(level: string, o: Outcome): string {
    match o
    case Generated(text) => text
    case Failed(message) => "Error generating " + level + ": " + message
  }

  /** The explanations after the merge loop over the levels and their outcomes. */
  function Merged(d: Dict<string, string>, levels: seq<string>, results: seq<Outcome>): Dict<string, string>
    requires |levels| == |results|
  {
    if levels == [] then d
    else
      var n := |levels| - 1;
      Put(Merged(d, levels[..n], results[..n]), levels[n], OutcomeText(levels[n], results[n]))
  }

  /** The store after the merge loop: every generated text is cached under its level; failures are not. */
  function Written(entries: map<CacheKey, map<string, string>>, topic: string, levels: seq<string>, results: seq<Outcome>): map<CacheKey, map<string, string>>
    requires |levels| == |results|
  {
    if levels == [] then entries
    else
      var n := |levels| - 1;
      var e := Written(entries, topic, levels[..n], results[..n]);
      if results[n].Generated? then e[CacheKey(topic, levels[n]) := map["text" := results[n].text]] else e
  }

  /**
   * With each level generated once, every generated level reads its
   * outcome (the text, or `Error generating <level>: <message>`) and every
   * other key keeps what it read before.
   */
  lemma {:induction false} MergedGet(d: Dict<string, string>, levels: seq<string>, results: seq<Outcome>, l: string)
    requires |levels| == |results|
    requires forall i, j :: 0 <= i < j < |levels| ==> levels[i] != levels[j]
    ensures forall i :: 0 <= i < |levels| && levels[i] == l ==> Get(Merged(d, levels, results), l) == Some(OutcomeText(l, results[i]))
    ensures l !in levels ==> Get(Merged(d, levels, results), l) == Get(d, l)
  {
    if levels != [] {
      var n := |levels| - 1;
      MergedGet(d, levels[..n], results[..n], l);
      PutGet(Merged(d, levels[..n], results[..n]), levels[n], OutcomeText(levels[n], results[n]), l);
      assert levels == levels[..n] + [levels[n]];
    }
  }

  /**
   * The merge caches exactly the generated texts: under a generated level
   * the store holds `{"text": text}`, under a failed one and under every
   * other key it holds what it held before.
   */
  lemma {:induction false} WrittenAt(entries: map<CacheKey, map<string, string>>, topic: string, levels: seq<string>, results: seq<Outcome>, k: CacheKey)
    requires |levels| == |results|
    requires forall i, j :: 0 <= i < j < |levels| ==> levels[i] != levels[j]
    ensures forall i :: 0 <= i < |levels| && k == CacheKey(topic, levels[i]) && results[i].Generated? ==>
      k in Written(entries, topic, levels, results) && Written(entries, topic, levels, results)[k] == map["text" := results[i].text]
    ensures (forall i :: 0 <= i < |levels| && k == CacheKey(topic, levels[i]) ==> results[i].Failed?) ==>
      (k in Written(entries, topic, levels, results) <==> k in entries) &&
      (k in entries ==> Written(entries, topic, levels, results)[k] == entries[k])
  {
    if levels != [] {
      var n := |levels| - 1;
      WrittenAt(entries, topic, levels[..n], results[..n], k);
      assert levels == levels[..n] + [levels[n]];
    }
  }

  /**
   * The loop over the finished tasks: each outcome is stored in the
   * explanations, and a generated text is also cached. `results[i]` is the
   * outcome of `levels[i]`, as `asyncio.gather` returns them.
   */
  method Merge(store: Store, topic: string, d: Dict<string, string>, levels: seq<string>, results: seq<Outcome>)
    returns (explanations: Dict<string, string>)
    requires |levels| == |results|
    modifies store
    ensures explanations == Merged(d, levels, results)
    ensures store.entries == Written(old(store.entries), topic, levels, results)
  {
    explanations := d;
    var entries := store.entries;
    var i := 0;
    while i < |levels|
      invariant 0 <= i <= |levels|
      invariant explanations == Merged(d, levels[..i], results[..i])
      invariant entries == Written(old(store.entries), topic, levels[..i], results[..i])
    {
      assert levels[..i + 1][..i] == levels[..i] && results[..i + 1][..i] == results[..i];
      match results[i] {
        case Generated(text) =>
          explanations := Put(explanations, levels[i], text);
          entries := entries[CacheKey(topic, levels[i]) := map["text" := text]];
        case Failed(message) =>
          explanations := Put(explanations, levels[i], "Error generating " + levels[i] + ": " + message);
      }
      i := i + 1;
    }
    assert levels[..|levels|] == levels && results[..|results|] == results;
    store.entries := entries;
  }

  // ----- POST /query -----

  /** What one call of a handler produced: its answer and the history save it scheduled. */
  datatype QueryRun = QueryRun(response: Result<QueryResponse, HttpError>, generated: seq<string>, scheduled: Option<HistorySave>)

  /** The explanations taken from the cache before generation (none when the cache is bypassed). */
  function Before(entries: map<CacheKey, map<string, string>>, topic: string, levels: seq<string>, bypass: bool): Dict<string, string> {
    if bypass then [] else Found(entries, topic, levels)
  }

  /** The levels left to generate (all of them when the cache is bypassed). */
  function Pending(entries: map<CacheKey, map<string, string>>, topic: string, levels: seq<string>, bypass: bool): seq<string> {
    if bypass then levels else Missing(entries, topic, levels)
  }

  /** The outcomes `asyncio.gather` returns, one per task. */
  function Outcomes(levels: seq<string>, generate: string -> Outcome): (rs: seq<Outcome>)
    ensures |rs| == |levels| && forall i :: 0 <= i < |levels| ==> rs[i] == generate(levels[i])
  {
    seq(|levels|, i requires 0 <= i < |levels| => generate(levels[i]))
  }

  /** The history save a successful call schedules for a signed-in user. */
  function Scheduled(user: Option<string>, topic: string, levels: seq<string>, mode: string): Option<HistorySave> {
    if user.Some? then Some(HistorySave(user.value, topic, levels, mode)) else None
  }

  /**
   * `query_topic`, given the store before the call, the signed-in user (if
   * any) and the generation oracle for this topic and mode.
   */
  function QueryAnswer(entries: map<CacheKey, map<string, string>>, req: QueryRequest, user: Option<string>, generate: string -> Outcome): QueryRun {
    if !WellFormed(req) then QueryRun(Err(Unprocessable), [], None)
    else
      match SanitizeTopic(req.topic)
      case Err(msg) => QueryRun(Err(BadRequest(msg)), [], None)
      case Ok(topic) =>
        var levels := DefaultLevels(req.levels);
        var hist := Scheduled(user, topic, levels, CoerceMode(req.mode));
        if !req.bypassCache && Missing(entries, topic, levels) == [] then
          QueryRun(Ok(QueryResponse(topic, Found(entries, topic, levels), true)), [], hist)
        else
          var ks := TaskLevels(Pending(entries, topic, levels, req.bypassCache));
          var d := Merged(Before(entries, topic, levels, req.bypassCache), ks, Outcomes(ks, generate));
          QueryRun(Ok(QueryResponse(topic, d, false)), ks, hist)
  }

  /** The store after `query_topic`. */
  function QueryStore(entries: map<CacheKey, map<string, string>>, req: QueryRequest, generate: string -> Outcome): map<CacheKey, map<string, string>> {
    if !WellFormed(req) || SanitizeTopic(req.topic).Err? then entries
    else
      var topic := SanitizeTopic(req.topic).value;
      var levels := DefaultLevels(req.levels);
      if !req.bypassCache && Missing(entries, topic, levels) == [] then entries
      else
        var ks := TaskLevels(Pending(entries, topic, levels, req.bypassCache));
        Written(entries, topic, ks, Outcomes(ks, generate))
  }

  /**
   * `POST /query`: the mode is coerced, the topic sanitised (a refusal is a
   * 400 with the `ValueError` message), the levels defaulted and
   * partitioned; a fully cached request is answered as cached, otherwise
   * each uncached level is generated once and merged.
   */
  method Query(store: Store, req: QueryRequest, user: Option<string>, generate: string -> Outcome) returns (run: QueryRun)
    modifies store
    ensures run == QueryAnswer(old(store.entries), req, user, generate)
    ensures store.entries == QueryStore(old(store.entries), req, generate)
  {
    if !WellFormed(req) {
      return QueryRun(Err(Unprocessable), [], None);
    }
    var mode := CoerceMode(req.mode);
    var sanitized := SanitizeTopic(req.topic);
    if sanitized.Err? {
      return QueryRun(Err(BadRequest(sanitized.error)), [], None);
    }
    var topic := sanitized.value;
    var levels := DefaultLevels(req.levels);
    var explanations, uncached;
    if !req.bypassCache {
      explanations, uncached := Partition(store, topic, levels);
    } else {
      explanations, uncached := [], levels;
    }
    var hist := if user.Some? then Some(HistorySave(user.value, topic, levels, mode)) else None;
    assert hist == Scheduled(user, topic, levels, CoerceMode(req.mode));
    if uncached == [] && !req.bypassCache {
      return QueryRun(Ok(QueryResponse(topic, explanations, true)), [], hist);
    }
    assert explanations == Before(store.entries, topic, levels, req.bypassCache);
    assert uncached == Pending(store.entries, topic, levels, req.bypassCache);
    var tasks := TaskLevels(uncached);
    var results := Outcomes(tasks, generate);
    explanations := Merge(store, topic, explanations, tasks, results);
    return QueryRun(Ok(QueryResponse(topic, explanations, false)), tasks, hist);
  }

  /**
   * Refusals: a well-formed request is refused only for its characters,
   * with a 400; a refused call generates nothing, schedules nothing and
   * leaves the store alone.
   */
  lemma QueryRefusal(entries: map<CacheKey, map<string, string>>, req: QueryRequest, user: Option<string>, generate: string -> Outcome)
    ensures var run := QueryAnswer(entries, req, user, generate);
      run.response.Err? ==> run.generated == [] && run.scheduled == None && QueryStore(entries, req, generate) == entries
    ensures WellFormed(req) ==> (QueryAnswer(entries, req, user, generate).response.Err? <==> SanitizeTopic(req.topic).Err?)
    ensures WellFormed(req) && SanitizeTopic(req.topic).Err? ==>
      QueryAnswer(entries, req, user, generate).response == Err(BadRequest(INVALID_CHARACTERS))
  {
    if WellFormed(req) {
      SanitizeOnWellFormed(req);
    }
  }

  /**
   * An answer is marked cached exactly when the cache was not bypassed and
   * held every level; then nothing is generated and the store is not
   * written. Either way a signed-in user's search is scheduled for the
   * history with the coerced mode.
   */
  lemma QueryCached(entries: map<CacheKey, map<string, string>>, req: QueryRequest, user: Option<string>, generate: string -> Outcome)
    requires QueryAnswer(entries, req, user, generate).response.Ok?
    ensures var run := QueryAnswer(entries, req, user, generate);
      var topic := SanitizeTopic(req.topic).value;
      var levels := DefaultLevels(req.levels);
      (run.response.value.cached <==> !req.bypassCache && forall l :: l in levels ==> Hit(entries, topic, l)) &&
      (run.response.value.cached ==> run.generated == [] && QueryStore(entries, req, generate) == entries) &&
      run.scheduled == Scheduled(user, topic, levels, CoerceMode(req.mode)) &&
      run.response.value.topic == topic
  {
    var topic := SanitizeTopic(req.topic).value;
    var levels := DefaultLevels(req.levels);
    var u := Missing(entries, topic, levels);
    if u == [] {
      forall l | l in levels ensures Hit(entries, topic, l) {
        PartitionSides(entries, topic, levels, l);
      }
    } else {
      PartitionSides(entries, topic, levels, u[0]);
    }
  }

  /**
   * Every level asked for is answered and nothing else is: a level the
   * cache held (and was not bypassed) reads its cached text, any other
   * reads its generated text or `Error generating <level>: <message>`.
   */
  lemma QueryAnswersEveryLevel(entries: map<CacheKey, map<string, string>>, req: QueryRequest, user: Option<string>, generate: string -> Outcome, l: string)
    requires QueryAnswer(entries, req, user, generate).response.Ok?
    ensures var run := QueryAnswer(entries, req, user, generate);
      var topic := SanitizeTopic(req.topic).value;
      var levels := DefaultLevels(req.levels);
      Get(run.response.value.explanations, l) ==
        if l !in levels then None
        else if !req.bypassCache && Hit(entries, topic, l) then Some(TextField(entries[CacheKey(topic, l)]))
        else Some(OutcomeText(l, generate(l)))
  {
    var topic := SanitizeTopic(req.topic).value;
    var levels := DefaultLevels(req.levels);
    var bypass := req.bypassCache;
    PartitionSides(entries, topic, levels, l);
    if bypass || Missing(entries, topic, levels) != [] {
      var ks := TaskLevels(Pending(entries, topic, levels, bypass));
      var rs := Outcomes(ks, generate);
      MergedGet(Before(entries, topic, levels, bypass), ks, rs, l);
      if l in ks {
        var i :| 0 <= i < |ks| && ks[i] == l;
        assert rs[i] == generate(l);
      }
    }
  }

  /**
   * What `query_topic` caches: under every level whose generation succeeded
   * the store holds `{"text": text}`; under a level whose generation failed,
   * and under every key of another topic, it holds what it held before.
   */
  lemma QueryCaches(entries: map<CacheKey, map<string, string>>, req: QueryRequest, generate: string -> Outcome, k: CacheKey)
    requires WellFormed(req) && SanitizeTopic(req.topic).Ok?
    ensures var after := QueryStore(entries, req, generate);
      var topic := SanitizeTopic(req.topic).value;
      var generated := QueryAnswer(entries, req, None, generate).generated;
      (k.topic == topic && k.level in generated && generate(k.level).Generated? ==>
        k in after && after[k] == map["text" := generate(k.level).text]) &&
      (!(k.topic == topic && k.level in generated && generate(k.level).Generated?) ==>
        (k in after <==> k in entries) && (k in entries ==> after[k] == entries[k]))
  {
    var topic := SanitizeTopic(req.topic).value;
    var levels := DefaultLevels(req.levels);
    var after := QueryStore(entries, req, generate);
    var generated := QueryAnswer(entries, req, None, generate).generated;
    if req.bypassCache || Missing(entries, topic, levels) != [] {
      var ks := TaskLevels(Pending(entries, topic, levels, req.bypassCache));
      assert after == Written(entries, topic, ks, Outcomes(ks, generate));
      assert generated == ks;
      WrittenByOutcomes(entries, topic, ks, generate, k);
    } else {
      assert after == entries && generated == [];
    }
  }

  /** `WrittenAt` for the outcomes of the tasks, stated per level. */
  lemma WrittenByOutcomes(entries: map<CacheKey, map<string, string>>, topic: string, ks: seq<string>, generate: string -> Outcome, k: CacheKey)
    requires forall i, j :: 0 <= i < j < |ks| ==> ks[i] != ks[j]
    ensures var after := Written(entries, topic, ks, Outcomes(ks, generate));
      (k.topic == topic && k.level in ks && generate(k.level).Generated? ==>
        k in after && after[k] == map["text" := generate(k.level).text]) &&
      (!(k.topic == topic && k.level in ks && generate(k.level).Generated?) ==>
        (k in after <==> k in entries) && (k in entries ==> after[k] == entries[k]))
  {
    var rs := Outcomes(ks, generate);
    WrittenAt(entries, topic, ks, rs, k);
    if k.topic == topic && k.level in ks {
      var i :| 0 <= i < |ks| && ks[i] == k.level;
      assert k == CacheKey(topic, ks[i]);
      assert rs[i] == generate(k.level);
    }
  }

  // ----- POST /query/stream -----

  /** One `data:` record of the event stream, before JSON encoding. */
  datatype Record = Meta(topic: string, level: string) | ChunkRecord(chunk: string) | DoneRecord | ErrorRecord(message: string)

  /** What the model stream did: the chunks it yielded, then either its end or the exception (its `str`) it raised. */
  datatype Generation = Generation(chunks: seq<string>, failure: Option<string>)

  /** The size of the pieces a cached text is replayed in. */
  const REPLAY_CHUNK := 500

  /** `content[i:i+500]` for `i` in `range(0, len(content), 500)`. */
  function Pieces(content: string): seq<string>
    decreases |content|
  {
    if content == [] then []
    else if |content| <= REPLAY_CHUNK then [content]
    else [content[..REPLAY_CHUNK]] + Pieces(content[REPLAY_CHUNK..])
  }

  /**
   * The replay loses nothing: the pieces concatenate to the cached text,
   * none is empty, none is longer than 500 characters, and all but the
   * last are exactly 500 long.
   */
  lemma {:induction false} PiecesShape(content: string)
    ensures Concat(Pieces(content)) == content
    ensures forall i :: 0 <= i < |Pieces(content)| ==> 0 < |Pieces(content)[i]| <= REPLAY_CHUNK
    ensures forall i :: 0 <= i < |Pieces(content)| - 1 ==> |Pieces(content)[i]| == REPLAY_CHUNK
    decreases |content|
  {
    var ps := Pieces(content);
    if content == [] {
    } else if |content| <= REPLAY_CHUNK {
      assert Concat(ps) == Concat([]) + content;
    } else {
      var rest := Pieces(content[REPLAY_CHUNK..]);
      PiecesShape(content[REPLAY_CHUNK..]);
      ConcatCons(content[..REPLAY_CHUNK], rest);
      assert content == content[..REPLAY_CHUNK] + content[REPLAY_CHUNK..];
    }
  }

  function ChunkRecords(chunks: seq<string>): (rs: seq<Record>)
    ensures |rs| == |chunks| && forall i :: 0 <= i < |chunks| ==> rs[i] == ChunkRecord(chunks[i])
  {
    seq(|chunks|, i requires 0 <= i < |chunks| => ChunkRecord(chunks[i]))
  }

  /** `cached and cached.get("text")`: the stream replays only a cached object with a non-empty text. */
  predicate StreamHit(entries: map<CacheKey, map<string, string>>, topic: string, level: string) {
    Hit(entries, topic, level) && TextField(entries[CacheKey(topic, level)]) != []
  }

  /** What one call of the stream handler produced: the records it sent and the history save it scheduled. */
  datatype StreamRun = StreamRun(response: Result<seq<Record>, HttpError>, scheduled: Option<HistorySave>)

  /** `query_topic_stream` and its event generator, given the store before the call. */
  function StreamAnswer(entries: map<CacheKey, map<string, string>>, req: QueryRequest, user: Option<string>, gen: Generation): StreamRun {
    if !WellFormed(req) then StreamRun(Err(Unprocessable), None)
    else
      match SanitizeTopic(req.topic)
      case Err(msg) => StreamRun(Err(BadRequest(msg)), None)
      case Ok(topic) =>
        var level := StreamLevel(req.levels);
        var hist := Scheduled(user, topic, [level], CoerceMode(req.mode));
        if !req.bypassCache && StreamHit(entries, topic, level) then
          var text := TextField(entries[CacheKey(topic, level)]);
          StreamRun(Ok([Meta(topic, level)] + ChunkRecords(Pieces(text)) + [DoneRecord]), hist)
        else if gen.failure.Some? then
          StreamRun(Ok([Meta(topic, level)] + ChunkRecords(gen.chunks) + [ErrorRecord(gen.failure.value)]), None)
        else
          StreamRun(Ok([Meta(topic, level)] + ChunkRecords(gen.chunks) + [DoneRecord]), hist)
  }

  /** The store after the stream: a completed, non-blank generation is cached under the level. */
  function StreamStore(entries: map<CacheKey, map<string, string>>, req: QueryRequest, gen: Generation): map<CacheKey, map<string, string>> {
    if !WellFormed(req) || SanitizeTopic(req.topic).Err? then entries
    else
      var topic := SanitizeTopic(req.topic).value;
      var level := StreamLevel(req.levels);
      var full := Concat(gen.chunks);
      if !req.bypassCache && StreamHit(entries, topic, level) then entries
      else if gen.failure.None? && Trim(Py, full) != [] then entries[CacheKey(topic, level) := map["text" := full]]
      else entries
  }

  /**
   * `POST /query/stream`: the metadata record first; a cache hit is
   * replayed in pieces; otherwise every model chunk is forwarded and
   * accumulated, and the text is cached once the model has finished. An
   * exception from the model ends the stream with one error record.
   */
  method QueryStream(store: Store, req: QueryRequest, user: Option<string>, gen: Generation) returns (run: StreamRun)
    modifies store
    ensures run == StreamAnswer(old(store.entries), req, user, gen)
    ensures store.entries == StreamStore(old(store.entries), req, gen)
  {
    if !WellFormed(req) {
      return StreamRun(Err(Unprocessable), None);
    }
    var mode := CoerceMode(req.mode);
    var sanitized := SanitizeTopic(req.topic);
    if sanitized.Err? {
      return StreamRun(Err(BadRequest(sanitized.error)), None);
    }
    var topic := sanitized.value;
    var level := if req.levels != [] then req.levels[0] else "eli5";
    ghost var answer := StreamAnswer(old(store.entries), req, user, gen);
    ghost var after := StreamStore(old(store.entries), req, gen);
    var records := [Meta(topic, level)];
    var key := CacheKey(topic, level);
    var hist := if user.Some? then Some(HistorySave(user.value, topic, [level], mode)) else None;
    if !req.bypassCache && key in store.entries && store.entries[key] != map[] && TextField(store.entries[key]) != [] {
      var content := TextField(store.entries[key]);
      records := records + ChunkRecords(Pieces(content)) + [DoneRecord];
      assert answer == StreamRun(Ok(records), hist);
      assert after == store.entries;
      return StreamRun(Ok(records), hist);
    }
    var fullContent;
    records, fullContent := Forward(records, gen.chunks);
    if gen.failure.Some? {
      assert answer == StreamRun(Ok(records + [ErrorRecord(gen.failure.value)]), None);
      assert after == store.entries;
      return StreamRun(Ok(records + [ErrorRecord(gen.failure.value)]), None);
    }
    records := records + [DoneRecord];
    assert answer == StreamRun(Ok(records), hist);
    if Trim(Py, fullContent) != [] {
      assert after == store.entries[key := map["text" := fullContent]];
      store.entries := store.entries[key := map["text" := fullContent]];
    } else {
      assert after == store.entries;
    }
    return StreamRun(Ok(records), hist);
  }

  /** The `async for` over the model's chunks: each is sent as a chunk record and appended to `full_content`. */
  method Forward(sent: seq<Record>, chunks: seq<string>) returns (records: seq<Record>, fullContent: string)
    ensures records == sent + ChunkRecords(chunks)
    ensures fullContent == Concat(chunks)
  {
    records, fullContent := sent, "";
    var i := 0;
    while i < |chunks|
      invariant 0 <= i <= |chunks|
      invariant fullContent == Concat(chunks[..i])
      invariant records == sent + ChunkRecords(chunks[..i])
    {
      assert chunks[..i + 1] == chunks[..i] + [chunks[i]];
      assert chunks[..i + 1][..i] == chunks[..i];
      ChunkRecordsSnoc(chunks[..i], chunks[i]);
      fullContent := fullContent + chunks[i];
      records := records + [ChunkRecord(chunks[i])];
      i := i + 1;
    }
    assert chunks[..|chunks|] == chunks;
  }

  lemma ChunkRecordsSnoc(chunks: seq<string>, c: string)
    ensures ChunkRecords(chunks + [c]) == ChunkRecords(chunks) + [ChunkRecord(c)]
  {
  }

  /**
   * The shape of every stream: the metadata record `{topic, level}` comes
   * first; the last record is `[DONE]`, or an error record when the model
   * raised, and no other record is either; the records in between are
   * chunks. A failed stream schedules no history and caches nothing.
   */
  lemma StreamShape(entries: map<CacheKey, map<string, string>>, req: QueryRequest, user: Option<string>, gen: Generation)
    requires StreamAnswer(entries, req, user, gen).response.Ok?
    ensures var rs := StreamAnswer(entries, req, user, gen).response.value;
      var topic := SanitizeTopic(req.topic).value;
      |rs| >= 2 && rs[0] == Meta(topic, StreamLevel(req.levels)) &&
      (forall i :: 0 < i < |rs| - 1 ==> rs[i].ChunkRecord?) &&
      (rs[|rs| - 1].ErrorRecord? || rs[|rs| - 1] == DoneRecord)
    ensures var run := StreamAnswer(entries, req, user, gen);
      run.response.value[|run.response.value| - 1].ErrorRecord? ==>
        gen.failure.Some? && run.scheduled == None && StreamStore(entries, req, gen) == entries
  {
    var topic := SanitizeTopic(req.topic).value;
    var level := StreamLevel(req.levels);
    var meta := Meta(topic, level);
    if !req.bypassCache && StreamHit(entries, topic, level) {
      Framed(meta, Pieces(TextField(entries[CacheKey(topic, level)])), DoneRecord);
    } else if gen.failure.Some? {
      Framed(meta, gen.chunks, ErrorRecord(gen.failure.value));
    } else {
      Framed(meta, gen.chunks, DoneRecord);
    }
  }

  /** A record, chunk records, and a closing record. */
  lemma Framed(first: Record, chunks: seq<string>, last: Record)
    ensures var rs := [first] + ChunkRecords(chunks) + [last];
      |rs| == |chunks| + 2 && rs[0] == first && rs[|rs| - 1] == last &&
      forall i :: 0 < i < |rs| - 1 ==> rs[i] == ChunkRecord(chunks[i - 1])
  {
  }

  /**
   * A cache hit replays the cached text: the chunk records concatenate to
   * it, each holds between 1 and 500 characters, the model is not used and
   * the store is not written.
   */
  lemma StreamReplay(entries: map<CacheKey, map<string, string>>, req: QueryRequest, user: Option<string>, gen: Generation)
    requires WellFormed(req) && SanitizeTopic(req.topic).Ok? && !req.bypassCache
    requires StreamHit(entries, SanitizeTopic(req.topic).value, StreamLevel(req.levels))
    ensures var topic := SanitizeTopic(req.topic).value;
      var text := TextField(entries[CacheKey(topic, StreamLevel(req.levels))]);
      StreamAnswer(entries, req, user, gen).response ==
        Ok([Meta(topic, StreamLevel(req.levels))] + ChunkRecords(Pieces(text)) + [DoneRecord]) &&
      Concat(Pieces(text)) == text &&
      (forall i :: 0 <= i < |Pieces(text)| ==> 0 < |Pieces(text)[i]| <= REPLAY_CHUNK) &&
      StreamStore(entries, req, gen) == entries
  {
    var topic := SanitizeTopic(req.topic).value;
    PiecesShape(TextField(entries[CacheKey(topic, StreamLevel(req.levels))]));
  }

  /**
   * A generated stream is cached exactly when the model finished and the
   * text is not blank, and then the cache holds the whole text; a cached
   * stream is therefore never blank.
   */
  lemma StreamCaches(entries: map<CacheKey, map<string, string>>, req: QueryRequest, gen: Generation)
    requires WellFormed(req) && SanitizeTopic(req.topic).Ok?
    requires req.bypassCache || !StreamHit(entries, SanitizeTopic(req.topic).value, StreamLevel(req.levels))
    ensures gen.failure.Some? || AllSpace(Py, Concat(gen.chunks)) ==> StreamStore(entries, req, gen) == entries
    ensures gen.failure.None? && !AllSpace(Py, Concat(gen.chunks)) ==>
      StreamStore(entries, req, gen) ==
        entries[CacheKey(SanitizeTopic(req.topic).value, StreamLevel(req.levels)) := map["text" := Concat(gen.chunks)]]
  {
    TrimBlank(Py, Concat(gen.chunks));
  }

  // ----- save_to_history -----

  /** One row of the `history` table; its levels are kept as a set. */
  datatype HistoryRow = HistoryRow(id: string, user: string, topic: string, levels: set<string>, mode: string)

  /** The first row of that user for that topic. */
  function FirstMatch(rows: seq<HistoryRow>, user: string, topic: string): (r: Option<nat>)
    ensures r.Some? ==> r.value < |rows| && rows[r.value].user == user && rows[r.value].topic == topic
    ensures r.Some? ==> forall i :: 0 <= i < r.value ==> !(rows[i].user == user && rows[i].topic == topic)
    ensures r.None? ==> forall i :: 0 <= i < |rows| ==> !(rows[i].user == user && rows[i].topic == topic)
  {
    if rows == [] then None
    else if rows[0].user == user && rows[0].topic == topic then Some(0)
    else
      var r := FirstMatch(rows[1..], user, topic);
      if r.Some? then Some(r.value + 1) else None
  }

  /** No user has two rows for the same topic. */
  predicate OneRowPerTopic(rows: seq<HistoryRow>) {
    forall i, j :: 0 <= i < j < |rows| ==> !(rows[i].user == rows[j].user && rows[i].topic == rows[j].topic)
  }

  /**
   * The table after a save, newest first: an existing row for the topic
   * gets the union of its levels and the new ones and the new mode, and
   * moves to the top (`created_at` is reset); otherwise a new row is
   * inserted at the top.
   */
  function AfterSave(rows: seq<HistoryRow>, save: HistorySave, newId: string): seq<HistoryRow> {
    var levels := set l | l in save.levels;
    match FirstMatch(rows, save.user, save.topic)
    case Some(i) => [rows[i].(levels := rows[i].levels + levels, mode := save.mode)] + (rows[..i] + rows[i + 1..])
    case None => [HistoryRow(newId, save.user, save.topic, levels, save.mode)] + rows
  }

  /**
   * A save keeps one row per user and topic, puts that row on top with
   * exactly the old levels plus the new ones, and keeps every other row.
   */
  lemma SaveDeduplicates(rows: seq<HistoryRow>, save: HistorySave, newId: string)
    requires OneRowPerTopic(rows)
    ensures var after := AfterSave(rows, save, newId);
      var m := FirstMatch(rows, save.user, save.topic);
      OneRowPerTopic(after) &&
      after[0].user == save.user && after[0].topic == save.topic && after[0].mode == save.mode &&
      after[0].levels == (if m.Some? then rows[m.value].levels else {}) + (set l | l in save.levels) &&
      (forall r :: r in rows && !(r.user == save.user && r.topic == save.topic) ==> r in after) &&
      |after| == |rows| + (if m.Some? then 0 else 1)
  {
    var m := FirstMatch(rows, save.user, save.topic);
    var after := AfterSave(rows, save, newId);
    if m.Some? {
      var i := m.value;
      var rest := rows[..i] + rows[i + 1..];
      assert after == [after[0]] + rest;
      RemoveKeeps(rows, i, save.user, save.topic);
      MovedUnique(rows, i, after[0]);
    } else {
      forall a, b | 0 <= a < b < |after| ensures !(after[a].user == after[b].user && after[a].topic == after[b].topic) {
        if a > 0 { assert after[a] == rows[a - 1] && after[b] == rows[b - 1]; }
        else { assert after[b] == rows[b - 1]; }
      }
    }
  }

  /** Taking the row at `i` out keeps every row of another user or topic. */
  lemma RemoveKeeps(rows: seq<HistoryRow>, i: nat, user: string, topic: string)
    requires i < |rows| && rows[i].user == user && rows[i].topic == topic
    ensures forall r :: r in rows && !(r.user == user && r.topic == topic) ==> r in rows[..i] + rows[i + 1..]
  {
    var rest := rows[..i] + rows[i + 1..];
    forall r | r in rows && !(r.user == user && r.topic == topic) ensures r in rest {
      var k :| 0 <= k < |rows| && rows[k] == r;
      if k < i { assert rest[k] == r; } else { assert rest[k - 1] == r; }
    }
  }

  /** Moving the only row of its user and topic to the top keeps one row per user and topic. */
  lemma MovedUnique(rows: seq<HistoryRow>, i: nat, top: HistoryRow)
    requires OneRowPerTopic(rows)
    requires i < |rows| && top.user == rows[i].user && top.topic == rows[i].topic
    ensures OneRowPerTopic([top] + (rows[..i] + rows[i + 1..]))
  {
    var after := [top] + (rows[..i] + rows[i + 1..]);
    forall a, b | 0 <= a < b < |after| ensures !(after[a].user == after[b].user && after[a].topic == after[b].topic) {
      var b' := if b - 1 < i then b - 1 else b;
      assert after[b] == rows[b'];
      if a > 0 {
        var a' := if a - 1 < i then a - 1 else a;
        assert after[a] == rows[a'] && a' < b';
      } else {
        assert b' != i;
      }
    }
  }

  /** The `history` table, seen through the admin client. */
  class HistoryTable {
    var rows: seq<HistoryRow>

    /**
     * `save_to_history`. `available` is false when there is no admin
     * client or one of its calls fails, and then nothing changes; `newId`
     * is the id the database gives an inserted row.
     */
    method SaveToHistory(save: HistorySave, newId: string, available: bool)
      modifies this
      ensures rows == if available then AfterSave(old(rows), save, newId) else old(rows)
    {
      if !available {
        return;
      }
      var existing := FirstMatch(rows, save.user, save.topic);
      var newLevels := set l | l in save.levels;
      if existing.Some? {
        var i := existing.value;
        var row := rows[i];
        rows := [HistoryRow(row.id, row.user, row.topic, row.levels + newLevels, save.mode)] + (rows[..i] + rows[i + 1..]);
      } else {
        rows := [HistoryRow(newId, save.user, save.topic, newLevels, save.mode)] + rows;
      }
    }
  }
}
