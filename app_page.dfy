/**
 * The main page controller (src/pages/AppPage.tsx): the result on screen,
 * the per-level fetch state, the search flow with its usage gate and session
 * cache, the mode-switch reconciliation and the lazy fetch of missing levels.
 *
 * The component's state hooks and refs are held together as one
 * `PageState` record, and every step of the page is a function on it.
 * Every callback and effect runs to completion on one event loop, so each is
 * modelled as one atomic method on `Page` that updates the record; React
 * state setters that run in one callback are applied in order, which is
 * what sequential assignment does; reads of `mode` and `selectedLevel`
 * inside `handleSearch` see the values of the render that created the
 * callback, kept here in locals.
 */
module AppPage {
  import opened Wrappers
  import opened Text
  import opened Types
  import OrderedDict
  import opened StreamDecoder

  /** A result on screen or in the session cache (`QueryResponse` with its mode). */
  datatype QueryResult = QueryResult(
    topic: string,
    explanations: OrderedDict.Dict<Level, string>,
    cached: bool,
    mode: Mode)

  /** `checkAction`'s answer. */
  datatype Gate = Gate(allowed: bool, downgraded: bool)

  /** `loadingMeta`: what the loading screen describes. */
  datatype LoadingMeta = LoadingMeta(mode: Mode, level: Level, topic: string)

  /** How a call of `handleSearch` ended. */
  datatype SearchOutcome = Ignored | Blocked | ServedFromCache | Streaming

  // ----- the session cache key -----

  /** `${topic}:${mode}`, the key of `responseCacheSession`. */
  function CacheKey(topic: string, mode: Mode): string {
    topic + ":" + ModeName(mode)
  }

  predicate NoColon(s: string) {
    forall i :: 0 <= i < |s| ==> s[i] != ':'
  }

  /** The part of a key after its last colon. */
  function AfterLastColon(k: string): string {
    if k == [] || k[|k| - 1] == ':' then [] else AfterLastColon(k[..|k| - 1]) + [k[|k| - 1]]
  }

  /** A colon-free suffix placed after a colon is exactly what follows the last colon. */
  lemma {:induction false} AfterLastColonOfKey(t: string, n: string)
    requires NoColon(n)
    ensures AfterLastColon(t + ":" + n) == n
    decreases |n|
  {
    var k := t + ":" + n;
    if n != [] {
      assert k[..|k| - 1] == t + ":" + n[..|n| - 1];
      AfterLastColonOfKey(t, n[..|n| - 1]);
      assert n == n[..|n| - 1] + [n[|n| - 1]];
    }
  }

  /** Distinct (topic, mode) pairs get distinct keys, whatever the topic holds: a mode name has no colon. */
  lemma {:induction false} CacheKeyInjective(t1: string, m1: Mode, t2: string, m2: Mode)
    requires CacheKey(t1, m1) == CacheKey(t2, m2)
    ensures t1 == t2 && m1 == m2
  {
    assert NoColon(ModeName(m1)) && NoColon(ModeName(m2));
    KeySplit(t1, ModeName(m1), t2, ModeName(m2));
    NamesInjective(Eli5, Eli5, m1, m2);
  }

  /** A key with a colon-free suffix splits back into its two parts. */
  lemma KeySplit(t1: string, n1: string, t2: string, n2: string)
    requires NoColon(n1) && NoColon(n2)
    requires t1 + ":" + n1 == t2 + ":" + n2
    ensures t1 == t2 && n1 == n2
  {
    var k := t1 + ":" + n1;
    AfterLastColonOfKey(t1, n1);
    AfterLastColonOfKey(t2, n2);
    assert |t1| == |t2|;
    assert k[..|t1|] == t1;
    assert k[..|t2|] == t2;
  }

  /** `responseCacheSession.get(key)` for a topic and mode. */
  function Lookup(entries: map<string, QueryResult>, topic: string, mode: Mode): Option<QueryResult> {
    var key := CacheKey(topic, mode);
    if key in entries then Some(entries[key]) else None
  }

  /** A write under `(topic, mode)` is read back by that pair and by no other. */
  lemma PutThenGet(entries: map<string, QueryResult>, t: string, m: Mode, r: QueryResult, t': string, m': Mode)
    ensures Lookup(entries[CacheKey(t, m) := r], t', m') ==
      if t' == t && m' == m then Some(r) else Lookup(entries, t', m')
  {
    if CacheKey(t', m') == CacheKey(t, m) {
      CacheKeyInjective(t', m', t, m);
    }
  }

  /** Every entry sits under the key of its own topic and mode, and its explanations repeat no level. */
  predicate CacheValid(entries: map<string, QueryResult>) {
    forall k :: k in entries ==>
      k == CacheKey(entries[k].topic, entries[k].mode) && OrderedDict.Valid(entries[k].explanations)
  }

  /**
   * The module-level `responseCacheSession` map: shared by every page
   * instance for the lifetime of the tab, never evicted.
   */
  class ResponseCache {
    var entries: map<string, QueryResult>

    ghost predicate Valid()
      reads this
    {
      CacheValid(entries)
    }

    constructor ()
      ensures Valid() && entries == map[]
    {
      entries := map[];
    }
  }

  /** In a valid cache, a hit under `(topic, mode)` is a result for that topic in that mode. */
  lemma {:induction false} HitMatchesKey(entries: map<string, QueryResult>, topic: string, mode: Mode)
    requires CacheValid(entries)
    requires Lookup(entries, topic, mode).Some?
    ensures Lookup(entries, topic, mode).value.topic == topic
    ensures Lookup(entries, topic, mode).value.mode == mode
  {
    var r := Lookup(entries, topic, mode).value;
    CacheKeyInjective(r.topic, r.mode, topic, mode);
  }

  // ----- the pure state updaters -----

  /**
   * The `setResult` updater of the chunk callback: a result for another topic
   * (or none) is replaced by a fresh one holding only this level; otherwise
   * this level's text and the mode are updated.
   */
  function ChunkUpdate(prev: Option<QueryResult>, topic: string, level: Level, text: string, mode: Mode): QueryResult {
    if prev.None? || prev.value.topic != topic then QueryResult(topic, [(level, text)], false, mode)
    else prev.value.(explanations := OrderedDict.Put(prev.value.explanations, level, text), mode := mode)
  }

  /**
   * After a chunk the result is for the request's topic and mode and shows
   * the text for the level; a result for the same topic keeps its cache flag
   * and every other level's text, one for another topic is replaced outright.
   */
  lemma ChunkUpdateShows(prev: Option<QueryResult>, topic: string, level: Level, text: string, mode: Mode)
    ensures var r := ChunkUpdate(prev, topic, level, text, mode);
      r.topic == topic && r.mode == mode &&
      OrderedDict.Get(r.explanations, level) == Some(text) &&
      (prev.None? || prev.value.topic != topic ==> r.explanations == [(level, text)] && !r.cached) &&
      (prev.Some? && prev.value.topic == topic ==>
        r.cached == prev.value.cached &&
        forall l :: l != level ==> OrderedDict.Get(r.explanations, l) == OrderedDict.Get(prev.value.explanations, l))
  {
    if prev.Some? && prev.value.topic == topic {
      OrderedDict.PutGetAll(prev.value.explanations, level, text);
    }
  }

  /** The regenerate updater: blanks the active level's text. */
  function RegenerateBlank(prev: Option<QueryResult>, level: Level): Option<QueryResult> {
    if prev.None? then None
    else Some(prev.value.(explanations := OrderedDict.Put(prev.value.explanations, level, "")))
  }

  /** Regeneration keeps the result's topic, mode and every other level, and empties the active level. */
  lemma RegenerateBlankKeeps(prev: Option<QueryResult>, level: Level)
    ensures var r := RegenerateBlank(prev, level);
      (r.Some? <==> prev.Some?) &&
      (r.Some? ==>
        r.value.topic == prev.value.topic && r.value.mode == prev.value.mode &&
        OrderedDict.Get(r.value.explanations, level) == Some("") &&
        forall l :: l != level ==> OrderedDict.Get(r.value.explanations, l) == OrderedDict.Get(prev.value.explanations, l))
  {
    if prev.Some? {
      OrderedDict.PutGetAll(prev.value.explanations, level, "");
    }
  }

  /** A chunk never makes a result list a level twice. */
  lemma ChunkUpdateValid(prev: Option<QueryResult>, topic: string, level: Level, text: string, mode: Mode)
    requires prev.Some? ==> OrderedDict.Valid(prev.value.explanations)
    ensures OrderedDict.Valid(ChunkUpdate(prev, topic, level, text, mode).explanations)
  {
    if prev.Some? && prev.value.topic == topic {
      OrderedDict.PutValid(prev.value.explanations, level, text);
    }
  }

  /** Nor does blanking a level for regeneration. */
  lemma RegenerateBlankValid(prev: Option<QueryResult>, level: Level)
    requires prev.Some? ==> OrderedDict.Valid(prev.value.explanations)
    ensures RegenerateBlank(prev, level).Some? ==> OrderedDict.Valid(RegenerateBlank(prev, level).value.explanations)
  {
    if prev.Some? {
      OrderedDict.PutValid(prev.value.explanations, level, "");
    }
  }

  /** JavaScript truthiness of `explanations[level]`: present and non-empty. */
  predicate HasText(r: QueryResult, level: Level) {
    var t := OrderedDict.Get(r.explanations, level);
    t.Some? && t.value != []
  }

  predicate IsPremiumMode(m: Mode) {
    m == Ensemble || m == TechnicalDepth
  }

  /** The mode a search asks for: the requested one, else the page's. */
  function ActiveMode(requested: Option<Mode>, current: Mode): Mode {
    requested.GetOr(current)
  }

  /** The level a search streams: the requested one, else `eli5` in technical depth mode, else the selected one. */
  function ActiveLevel(requested: Option<Level>, activeMode: Mode, selected: Level): Level {
    if requested.Some? then requested.value
    else if activeMode == TechnicalDepth then Eli5
    else selected
  }

  /**
   * Whether a search gets past the usage gate: the search itself must be
   * allowed and, in a premium mode, the premium check as well.
   */
  predicate Proceeds(activeMode: Mode, search: Gate, premiumAllowed: bool) {
    search.allowed && (IsPremiumMode(activeMode) ==> premiumAllowed)
  }

  /** The mode a search runs in: `fast` when the gate downgraded it. */
  function EffectiveMode(activeMode: Mode, search: Gate): (m: Mode)
    ensures search.downgraded ==> m == Fast
    ensures !search.downgraded ==> m == activeMode
  {
    if search.downgraded then Fast else activeMode
  }


  // ----- the page state and its steps -----

  /** The component's state hooks and refs, as one value. */
  datatype PageState = PageState(
    loading: bool,
    result: Option<QueryResult>,
    selectedLevel: Level,
    /** The mode of the mode context. */
    mode: Mode,
    fetchingLevels: set<Level>,
    failedLevels: set<Level>,
    /** Bumped (after a delay in the source) whenever a stream finishes, to refresh the history list. */
    historyRefresh: nat,
    activeTopic: string,
    isFromCache: bool,
    loadingMeta: Option<LoadingMeta>,
    /** `currentTopicRef`. */
    currentTopic: Option<string>,
    /** `abortControllerRef`: the number of controllers created; creating one aborts the one before. */
    controllers: nat,
    /** The `recordAction('search', mode)` calls made, in order (the usage gate's counter). */
    recorded: seq<Mode>)

  /**
   * What every step keeps: the result on screen repeats no level, the
   * active topic is empty or not blank, and no level is both in flight and
   * failed.
   */
  predicate Inv(s: PageState) {
    (s.result.Some? ==> OrderedDict.Valid(s.result.value.explanations)) &&
    (s.activeTopic == [] || !AllSpace(Js, s.activeTopic)) &&
    s.fetchingLevels !! s.failedLevels
  }

  /** A freshly mounted page in the context's mode. */
  function Initial(mode: Mode): PageState {
    PageState(false, None, Eli5, mode, {}, {}, 0, "", false, None, None, 0, [])
  }

  /** The start of `fetchLevel` for a non-empty topic: the level is in flight. */
  function Fetching(s: PageState, level: Level): PageState {
    s.(fetchingLevels := s.fetchingLevels + {level})
  }

  /** The chunk callback: only a request for the current topic touches the result. */
  function Chunked(s: PageState, topic: string, level: Level, text: string, mode: Mode): PageState {
    if s.currentTopic == Some(topic) then s.(result := Some(ChunkUpdate(s.result, topic, level, text, mode)))
    else s
  }

  /** The done callback. */
  function Finished(s: PageState, level: Level): PageState {
    s.(fetchingLevels := s.fetchingLevels - {level}, historyRefresh := s.historyRefresh + 1)
  }

  /** The error callback and the failed-start handler: an abort is silent. */
  function Errored(s: PageState, level: Level, failure: Failure): PageState {
    if failure.Aborted? then s
    else s.(failedLevels := s.failedLevels + {level}, fetchingLevels := s.fetchingLevels - {level})
  }

  /** The guard of the cache-write effect: a settled result in the page's mode. */
  predicate CacheWriteAllowed(s: PageState) {
    s.result.Some? && !s.loading && s.fetchingLevels == {} && s.result.value.mode == s.mode
  }

  /** The cache after the cache-write effect. */
  function CacheWritten(s: PageState, cache: map<string, QueryResult>): map<string, QueryResult> {
    if CacheWriteAllowed(s) then cache[CacheKey(s.result.value.topic, s.mode) := s.result.value]
    else cache
  }

  /** The unconditional start of a search: abort, clear unless forced, show the requested mode and level. */
  function Begun(s: PageState, force: bool, requestedMode: Option<Mode>, requestedLevel: Option<Level>): PageState {
    s.(controllers := s.controllers + 1,
       result := if force then s.result else None,
       mode := ActiveMode(requestedMode, s.mode),
       selectedLevel := requestedLevel.GetOr(s.selectedLevel))
  }

  /** A search answered from the cache. */
  function Served(s: PageState, topic: string, hit: QueryResult, activeLevel: Level): PageState {
    s.(result := Some(hit),
       activeTopic := topic,
       isFromCache := true,
       mode := hit.mode,
       selectedLevel := if !HasText(hit, activeLevel) && hit.explanations != [] then hit.explanations[0].0
                        else s.selectedLevel,
       loading := false,
       fetchingLevels := {})
  }

  /** A search that streams its active level. */
  function Streamed(s: PageState, topic: string, effectiveMode: Mode, activeLevel: Level, force: bool): PageState {
    s.(result := if force then RegenerateBlank(s.result, activeLevel) else s.result,
       recorded := s.recorded + [effectiveMode],
       activeTopic := topic,
       loadingMeta := Some(LoadingMeta(effectiveMode, activeLevel, topic)),
       loading := true,
       isFromCache := false,
       fetchingLevels := {activeLevel},
       failedLevels := {},
       currentTopic := Some(topic))
  }

  /** `handleSearch` up to its wait, as a step: how the search ended and the page after it. */
  function Search(s: PageState, cache: map<string, QueryResult>, topic: string, force: bool,
                  requestedMode: Option<Mode>, requestedLevel: Option<Level>,
                  search: Gate, premiumAllowed: bool): (SearchOutcome, PageState)
  {
    if Trim(Js, topic) == [] then (Ignored, s)
    else
      var activeMode := ActiveMode(requestedMode, s.mode);
      var activeLevel := ActiveLevel(requestedLevel, activeMode, s.selectedLevel);
      Gated(Begun(s, force, requestedMode, requestedLevel), cache, topic, force, activeMode, activeLevel,
            search, premiumAllowed)
  }

  /** The rest of a search once the previous request is aborted: the gate, then the cache, then the stream. */
  function Gated(s: PageState, cache: map<string, QueryResult>, topic: string, force: bool,
                 activeMode: Mode, activeLevel: Level, search: Gate, premiumAllowed: bool): (SearchOutcome, PageState)
  {
    if !Proceeds(activeMode, search, premiumAllowed) then (Blocked, s)
    else
      var effectiveMode := EffectiveMode(activeMode, search);
      var s1 := s.(mode := effectiveMode);
      var hit := Lookup(cache, topic, effectiveMode);
      if !force && hit.Some? then (ServedFromCache, Served(s1, topic, hit.value, activeLevel))
      else (Streaming, Streamed(s1, topic, effectiveMode, activeLevel, force))
  }

  /**
   * Which way a search ends: a blank topic is ignored and changes nothing;
   * a search the gate refuses is blocked; a non-forced search whose key is
   * cached is served from the cache; anything else streams.
   */
  lemma SearchEnds(s: PageState, cache: map<string, QueryResult>, topic: string, force: bool,
                   requestedMode: Option<Mode>, requestedLevel: Option<Level>, search: Gate, premiumAllowed: bool)
    ensures var r := Search(s, cache, topic, force, requestedMode, requestedLevel, search, premiumAllowed);
      var activeMode := ActiveMode(requestedMode, s.mode);
      var cached := Lookup(cache, topic, EffectiveMode(activeMode, search)).Some?;
      (r.0 == Ignored <==> Trim(Js, topic) == []) &&
      (r.0 == Ignored ==> r.1 == s) &&
      (r.0 == Blocked <==> Trim(Js, topic) != [] && !Proceeds(activeMode, search, premiumAllowed)) &&
      (r.0 == ServedFromCache <==> Trim(Js, topic) != [] && Proceeds(activeMode, search, premiumAllowed) && !force && cached)
  {
  }

  /**
   * What a search costs: every search that is not ignored aborts the
   * previous request; only a search that streams records a usage, exactly
   * one, in the mode it runs in (`fast` when downgraded).
   */
  lemma SearchUsage(s: PageState, cache: map<string, QueryResult>, topic: string, force: bool,
                    requestedMode: Option<Mode>, requestedLevel: Option<Level>, search: Gate, premiumAllowed: bool)
    ensures var r := Search(s, cache, topic, force, requestedMode, requestedLevel, search, premiumAllowed);
      (r.0 != Ignored ==> r.1.controllers == s.controllers + 1) &&
      (r.0 != Streaming ==> r.1.recorded == s.recorded) &&
      (r.0 == Streaming ==> r.1.recorded == s.recorded + [r.1.mode]) &&
      (r.0 == Streaming && search.downgraded ==> r.1.mode == Fast)
  {
    if Trim(Js, topic) != [] {
      var activeMode := ActiveMode(requestedMode, s.mode);
      var activeLevel := ActiveLevel(requestedLevel, activeMode, s.selectedLevel);
      GatedUsage(Begun(s, force, requestedMode, requestedLevel), cache, topic, force, activeMode, activeLevel,
                 search, premiumAllowed);
    }
  }

  lemma GatedUsage(s: PageState, cache: map<string, QueryResult>, topic: string, force: bool,
                   activeMode: Mode, activeLevel: Level, search: Gate, premiumAllowed: bool)
    ensures var r := Gated(s, cache, topic, force, activeMode, activeLevel, search, premiumAllowed);
      r.1.controllers == s.controllers &&
      (r.0 != Streaming ==> r.1.recorded == s.recorded) &&
      (r.0 == Streaming ==> r.1.recorded == s.recorded + [r.1.mode]) &&
      (r.0 == Streaming && search.downgraded ==> r.1.mode == Fast)
  {
  }

  /**
   * A search that streams shows the loading screen for the topic, marks
   * exactly the active level in flight and forgets earlier failures; a
   * search served from the cache shows the cached result for the topic in
   * the mode it ran in, and nothing is loading.
   */
  lemma SearchEffect(s: PageState, cache: map<string, QueryResult>, topic: string, force: bool,
                     requestedMode: Option<Mode>, requestedLevel: Option<Level>, search: Gate, premiumAllowed: bool)
    requires CacheValid(cache)
    ensures var r := Search(s, cache, topic, force, requestedMode, requestedLevel, search, premiumAllowed);
      var activeLevel := ActiveLevel(requestedLevel, ActiveMode(requestedMode, s.mode), s.selectedLevel);
      (r.0 == Streaming ==>
        r.1.loading && r.1.currentTopic == Some(topic) && r.1.activeTopic == topic &&
        r.1.fetchingLevels == {activeLevel} && r.1.failedLevels == {}) &&
      (r.0 == ServedFromCache ==>
        !r.1.loading && r.1.fetchingLevels == {} && r.1.activeTopic == topic &&
        r.1.result == Lookup(cache, topic, r.1.mode) && r.1.result.value.topic == topic)
  {
    if Trim(Js, topic) != [] {
      var activeMode := ActiveMode(requestedMode, s.mode);
      var activeLevel := ActiveLevel(requestedLevel, activeMode, s.selectedLevel);
      GatedEffect(Begun(s, force, requestedMode, requestedLevel), cache, topic, force, activeMode, activeLevel,
                  search, premiumAllowed);
    }
  }

  lemma GatedEffect(s: PageState, cache: map<string, QueryResult>, topic: string, force: bool,
                    activeMode: Mode, activeLevel: Level, search: Gate, premiumAllowed: bool)
    requires CacheValid(cache)
    ensures var r := Gated(s, cache, topic, force, activeMode, activeLevel, search, premiumAllowed);
      (r.0 == Streaming ==>
        r.1.loading && r.1.currentTopic == Some(topic) && r.1.activeTopic == topic &&
        r.1.fetchingLevels == {activeLevel} && r.1.failedLevels == {}) &&
      (r.0 == ServedFromCache ==>
        !r.1.loading && r.1.fetchingLevels == {} && r.1.activeTopic == topic &&
        r.1.result == Lookup(cache, topic, r.1.mode) && r.1.result.value.topic == topic)
  {
    var effectiveMode := EffectiveMode(activeMode, search);
    if Proceeds(activeMode, search, premiumAllowed) && !force && Lookup(cache, topic, effectiveMode).Some? {
      HitMatchesKey(cache, topic, effectiveMode);
    }
  }

  /** What happens once a search's stream has finished. */
  function Settled(s: PageState): PageState {
    s.(loading := false, loadingMeta := None)
  }

  /** The guard of the mode-switch effect: a settled result made in another mode than the page's. */
  predicate ModeSwitchPending(s: PageState) {
    s.activeTopic != [] && !s.loading && s.result.Some? && s.result.value.mode != s.mode && s.loadingMeta.None?
  }

  /** The mode-switch effect: adopt the cached result for the page's mode, or search again in it. */
  function ModeSwitch(s: PageState, cache: map<string, QueryResult>, search: Gate, premiumAllowed: bool)
    : (Option<SearchOutcome>, PageState)
  {
    if !ModeSwitchPending(s) then (None, s)
    else
      var hit := Lookup(cache, s.activeTopic, s.mode);
      if hit.Some? then (None, s.(result := hit, isFromCache := true))
      else
        var r := Search(s, cache, s.activeTopic, false, Some(s.mode), None, search, premiumAllowed);
        (Some(r.0), r.1)
  }

  /** The guard of the lazy-level effect: the selected level has no text and is neither in flight nor failed. */
  predicate LazyFetchNeeded(s: PageState) {
    s.result.Some? && !HasText(s.result.value, s.selectedLevel) &&
    s.selectedLevel !in s.fetchingLevels && s.selectedLevel !in s.failedLevels
  }

  /** The lazy-level effect. */
  function Lazy(s: PageState): PageState {
    if LazyFetchNeeded(s) && s.result.value.topic != [] then Fetching(s, s.selectedLevel) else s
  }

  /** `handleGoHome`. */
  function Home(s: PageState): PageState {
    s.(result := None, loading := false, activeTopic := "", currentTopic := None)
  }

  // ----- properties of the steps -----

  /** A chunk keeps the invariant. */
  lemma ChunkedInv(s: PageState, topic: string, level: Level, text: string, mode: Mode)
    requires Inv(s)
    ensures Inv(Chunked(s, topic, level, text, mode))
  {
    ChunkUpdateValid(s.result, topic, level, text, mode);
  }

  /** A cache write keeps every entry under its own key. */
  lemma CacheWrittenValid(s: PageState, cache: map<string, QueryResult>)
    requires Inv(s) && CacheValid(cache)
    ensures CacheValid(CacheWritten(s, cache))
  {
  }

  /** A search keeps the invariant. */
  lemma {:induction false} SearchInv(s: PageState, cache: map<string, QueryResult>, topic: string, force: bool,
                                     requestedMode: Option<Mode>, requestedLevel: Option<Level>,
                                     search: Gate, premiumAllowed: bool)
    requires Inv(s) && CacheValid(cache)
    ensures Inv(Search(s, cache, topic, force, requestedMode, requestedLevel, search, premiumAllowed).1)
  {
    TrimBlank(Js, topic);
    if Trim(Js, topic) != [] {
      var activeMode := ActiveMode(requestedMode, s.mode);
      var activeLevel := ActiveLevel(requestedLevel, activeMode, s.selectedLevel);
      GatedInv(Begun(s, force, requestedMode, requestedLevel), cache, topic, force, activeMode, activeLevel,
               search, premiumAllowed);
    }
  }

  lemma GatedInv(s: PageState, cache: map<string, QueryResult>, topic: string, force: bool,
                 activeMode: Mode, activeLevel: Level, search: Gate, premiumAllowed: bool)
    requires Inv(s) && CacheValid(cache) && !AllSpace(Js, topic)
    ensures Inv(Gated(s, cache, topic, force, activeMode, activeLevel, search, premiumAllowed).1)
  {
    if Proceeds(activeMode, search, premiumAllowed) {
      var effectiveMode := EffectiveMode(activeMode, search);
      var s1 := s.(mode := effectiveMode);
      var hit := Lookup(cache, topic, effectiveMode);
      if !force && hit.Some? {
        assert CacheKey(topic, effectiveMode) in cache;
        var r := Served(s1, topic, hit.value, activeLevel);
        assert r.result == hit && r.activeTopic == topic && r.fetchingLevels == {};
      } else {
        RegenerateBlankValid(s1.result, activeLevel);
        var r := Streamed(s1, topic, effectiveMode, activeLevel, force);
        assert r.activeTopic == topic && r.failedLevels == {};
        assert r.result == if force then RegenerateBlank(s1.result, activeLevel) else s1.result;
      }
    }
  }

  /**
   * A search that is not ignored leaves nothing for the mode-switch effect
   * to do: it clears the result, shows a cached result made in the mode the
   * page is now in, or is loading.
   */
  lemma {:induction false} SearchSettlesMode(s: PageState, cache: map<string, QueryResult>, topic: string,
                                             requestedMode: Option<Mode>, requestedLevel: Option<Level>,
                                             search: Gate, premiumAllowed: bool)
    requires CacheValid(cache)
    requires Search(s, cache, topic, false, requestedMode, requestedLevel, search, premiumAllowed).0 != Ignored
    ensures !ModeSwitchPending(Search(s, cache, topic, false, requestedMode, requestedLevel, search, premiumAllowed).1)
  {
    var activeMode := ActiveMode(requestedMode, s.mode);
    var effectiveMode := EffectiveMode(activeMode, search);
    if Proceeds(activeMode, search, premiumAllowed) && Lookup(cache, topic, effectiveMode).Some? {
      HitMatchesKey(cache, topic, effectiveMode);
    }
  }

  /** The mode-switch effect keeps the invariant and never leaves itself pending, so it cannot fire in a loop. */
  lemma {:induction false} ModeSwitchSettles(s: PageState, cache: map<string, QueryResult>, search: Gate, premiumAllowed: bool)
    requires Inv(s) && CacheValid(cache)
    ensures !ModeSwitchPending(ModeSwitch(s, cache, search, premiumAllowed).1)
    ensures Inv(ModeSwitch(s, cache, search, premiumAllowed).1)
  {
    if ModeSwitchPending(s) {
      var hit := Lookup(cache, s.activeTopic, s.mode);
      if hit.Some? {
        HitMatchesKey(cache, s.activeTopic, s.mode);
      } else {
        TrimBlank(Js, s.activeTopic);
        SearchSettlesMode(s, cache, s.activeTopic, Some(s.mode), None, search, premiumAllowed);
        SearchInv(s, cache, s.activeTopic, false, Some(s.mode), None, search, premiumAllowed);
      }
    }
  }

  /**
   * Once a settled result has been written to the cache, searching its topic
   * again in the same mode, with a gate that lets it through unchanged, is
   * served from the cache: it shows that result and records no usage.
   */
  lemma {:induction false} CachedSearchIsFree(s: PageState, cache: map<string, QueryResult>,
                                              search: Gate, premiumAllowed: bool)
    requires CacheWriteAllowed(s) && !AllSpace(Js, s.result.value.topic)
    requires Proceeds(s.mode, search, premiumAllowed) && !search.downgraded
    ensures Search(s, CacheWritten(s, cache), s.result.value.topic, false, None, None, search, premiumAllowed) ==
      (ServedFromCache,
       Served(s.(controllers := s.controllers + 1, result := None),
              s.result.value.topic, s.result.value, ActiveLevel(None, s.mode, s.selectedLevel)))
    ensures Search(s, CacheWritten(s, cache), s.result.value.topic, false, None, None, search, premiumAllowed).1.recorded
      == s.recorded
  {
    var topic := s.result.value.topic;
    TrimBlank(Js, topic);
    PutThenGet(cache, topic, s.mode, s.result.value, topic, s.mode);
    assert Lookup(CacheWritten(s, cache), topic, s.mode) == Some(s.result.value);
    var s1 := Begun(s, false, None, None);
    assert s1 == s.(controllers := s.controllers + 1, result := None);
    assert s1.(mode := s.mode) == s1;
  }

  /** A level that failed is not fetched again by the lazy effect, even when selected. */
  lemma FailedLevelNotRefetched(s: PageState, level: Level, message: string)
    ensures Lazy(Errored(s, level, Failed(message)).(selectedLevel := level)) ==
      Errored(s, level, Failed(message)).(selectedLevel := level)
  {
  }

  /** The lazy effect fetches at most once: afterwards its guard is false. */
  lemma LazyFetchesOnce(s: PageState)
    ensures !LazyFetchNeeded(Lazy(s)) || Lazy(s) == s
  {
  }

  // ----- the page object -----

  /**
   * One in-flight `fetchLevel` call: the request it sent and the
   * `accumulatedContent` its chunk callback appends to.
   */
  class LevelRequest {
    const topic: string
    const level: Level
    const mode: Mode
    const regenerate: bool
    /** Which abort controller's signal the request carries. */
    const controller: nat
    var accumulated: string
    ghost var received: seq<string>

    ghost predicate Valid()
      reads this
    {
      accumulated == Concat(received)
    }

    constructor (topic: string, level: Level, mode: Mode, regenerate: bool, controller: nat)
      ensures Valid()
      ensures this.topic == topic && this.level == level && this.mode == mode
      ensures this.regenerate == regenerate && this.controller == controller
      ensures accumulated == "" && received == []
    {
      this.topic, this.level, this.mode := topic, level, mode;
      this.regenerate, this.controller := regenerate, controller;
      accumulated, received := "", [];
    }
  }

  /** The page component: its state and the session cache it shares with every other page. */
  class Page {
    var state: PageState
    /** `responseCacheSession`. */
    const cache: ResponseCache

    ghost predicate Valid()
      reads this, cache
    {
      cache.Valid() && Inv(state)
    }

    constructor (cache: ResponseCache, mode: Mode)
      requires cache.Valid()
      ensures Valid() && this.cache == cache && state == Initial(mode)
    {
      this.cache := cache;
      state := Initial(mode);
    }

    /**
     * The synchronous start of `fetchLevel`: an empty topic does nothing;
     * otherwise the level is marked in flight and a request is opened in the
     * given mode (or the page's mode) under the current controller.
     */
    method FetchLevel(topic: string, level: Level, overrideMode: Option<Mode>, regenerate: bool)
      returns (req: LevelRequest?)
      modifies this
      ensures topic == [] ==> req == null && state == old(state)
      ensures topic != [] ==> state == Fetching(old(state), level)
      ensures topic != [] ==> req != null && fresh(req) && req.Valid() && req.received == []
      ensures topic != [] ==> req != null && req.topic == topic && req.level == level
      ensures topic != [] ==> req != null && req.mode == overrideMode.GetOr(old(state).mode)
      ensures topic != [] ==> req != null && req.regenerate == regenerate && req.controller == state.controllers
    {
      if topic == [] {
        return null;
      }
      state := state.(fetchingLevels := state.fetchingLevels + {level});
      req := new LevelRequest(topic, level, overrideMode.GetOr(state.mode), regenerate, state.controllers);
    }

    /**
     * The chunk callback. The request always accumulates the chunk; while
     * the page's current topic is the request's, the level's text on screen
     * is everything the request has received.
     */
    method OnChunk(req: LevelRequest, chunk: string)
      requires Valid() && req.Valid()
      modifies this, req
      ensures Valid() && req.Valid()
      ensures req.received == old(req.received) + [chunk]
      ensures state == Chunked(old(state), req.topic, req.level, req.accumulated, req.mode)
      ensures state.currentTopic == Some(req.topic) ==>
        OrderedDict.Get(state.result.value.explanations, req.level) == Some(Concat(req.received))
    {
      ChunkedInv(state, req.topic, req.level, req.accumulated + chunk, req.mode);
      ChunkUpdateShows(state.result, req.topic, req.level, req.accumulated + chunk, req.mode);
      req.accumulated := req.accumulated + chunk;
      req.received := req.received + [chunk];
      if state.currentTopic == Some(req.topic) {
        state := state.(result := Some(ChunkUpdate(state.result, req.topic, req.level, req.accumulated, req.mode)));
      }
    }

    /** The done callback: the level is no longer in flight, and a history refresh follows. */
    method OnDone(req: LevelRequest)
      requires Valid()
      modifies this
      ensures Valid()
      ensures state == Finished(old(state), req.level)
    {
      state := state.(fetchingLevels := state.fetchingLevels - {req.level});
      state := state.(historyRefresh := state.historyRefresh + 1);
    }

    /**
     * The error callback, and the handler around a stream that failed to
     * start: an abort changes nothing; any other failure marks the level
     * failed and no longer in flight.
     */
    method OnError(req: LevelRequest, failure: Failure)
      requires Valid()
      modifies this
      ensures Valid()
      ensures state == Errored(old(state), req.level, failure)
    {
      if failure.Aborted? {
        return;
      }
      state := state.(failedLevels := state.failedLevels + {req.level});
      state := state.(fetchingLevels := state.fetchingLevels - {req.level});
    }

    /** The cache-write effect: a settled result in the page's mode is stored under its topic and that mode. */
    method CacheWriteEffect()
      requires Valid()
      modifies cache
      ensures Valid()
      ensures cache.entries == CacheWritten(state, old(cache.entries))
    {
      CacheWrittenValid(state, cache.entries);
      if state.result.Some? && !state.loading && state.fetchingLevels == {} && state.result.value.mode == state.mode {
        var key := CacheKey(state.result.value.topic, state.mode);
        cache.entries := cache.entries[key := state.result.value];
      }
    }

    /** The first part of `handleSearch`, before the gate: abort, clear unless forced, show the requested mode and level. */
    method BeginSearch(force: bool, requestedMode: Option<Mode>, requestedLevel: Option<Level>)
      returns (activeMode: Mode, activeLevel: Level)
      modifies this
      ensures activeMode == ActiveMode(requestedMode, old(state).mode)
      ensures activeLevel == ActiveLevel(requestedLevel, activeMode, old(state).selectedLevel)
      ensures state == Begun(old(state), force, requestedMode, requestedLevel)
    {
      var s := state;
      var renderMode, renderLevel := s.mode, s.selectedLevel;
      // abort the previous request and install a new controller
      s := s.(controllers := s.controllers + 1);
      activeMode := ActiveMode(requestedMode, renderMode);
      activeLevel := ActiveLevel(requestedLevel, activeMode, renderLevel);
      if !force {
        s := s.(result := None);
      }
      if requestedMode.Some? && requestedMode.value != renderMode {
        s := s.(mode := requestedMode.value);
      }
      if requestedLevel.Some? && requestedLevel.value != renderLevel {
        s := s.(selectedLevel := activeLevel);
      }
      state := s;
    }

    /** The cache-hit branch of `handleSearch`; `renderMode` is the mode the callback was created with. */
    method ServeFromCache(topic: string, hit: QueryResult, activeLevel: Level, renderMode: Mode)
      requires state.mode == hit.mode
      modifies this
      ensures state == Served(old(state), topic, hit, activeLevel)
    {
      var s := state;
      s := s.(result := Some(hit), activeTopic := topic, isFromCache := true);
      if hit.mode != renderMode {
        s := s.(mode := hit.mode);
      }
      if !HasText(hit, activeLevel) && hit.explanations != [] {
        s := s.(selectedLevel := hit.explanations[0].0);
      }
      s := s.(loading := false, fetchingLevels := {});
      state := s;
    }

    /** The streaming branch of `handleSearch`, up to its wait. */
    method StartStream(topic: string, effectiveMode: Mode, activeLevel: Level, force: bool)
      returns (req: LevelRequest)
      requires topic != []
      modifies this
      ensures fresh(req) && req.Valid() && req.received == [] &&
        req.topic == topic && req.level == activeLevel && req.mode == effectiveMode &&
        req.regenerate == force && req.controller == state.controllers
      ensures state == Streamed(old(state), topic, effectiveMode, activeLevel, force)
    {
      var s := state;
      s := s.(recorded := s.recorded + [effectiveMode]);
      s := s.(activeTopic := topic, loadingMeta := Some(LoadingMeta(effectiveMode, activeLevel, topic)));
      s := s.(loading := true, isFromCache := false);
      if force {
        s := s.(result := RegenerateBlank(s.result, activeLevel));
      }
      s := s.(fetchingLevels := {}, failedLevels := {}, currentTopic := Some(topic));
      state := s;
      req := FetchLevel(topic, activeLevel, Some(effectiveMode), force);
    }

    /**
     * The rest of `handleSearch` once the previous request is aborted: the
     * gate, then the cache, then the stream; `Gated` states what it does.
     * `renderMode` is the mode the callback was created with.
     */
    method GatedSearch(topic: string, force: bool, activeMode: Mode, activeLevel: Level, renderMode: Mode,
                       search: Gate, premiumAllowed: bool)
      returns (outcome: SearchOutcome, req: LevelRequest?)
      requires cache.Valid() && topic != [] && state.mode == activeMode
      modifies this
      ensures (outcome, state) ==
        Gated(old(state), cache.entries, topic, force, activeMode, activeLevel, search, premiumAllowed)
      ensures req != null <==> outcome == Streaming
      ensures req != null ==>
        fresh(req) && req.Valid() && req.received == [] && req.topic == topic && req.level == activeLevel &&
        req.mode == state.mode && req.regenerate == force && req.controller == state.controllers
    {
      ghost var g := Gated(state, cache.entries, topic, force, activeMode, activeLevel, search, premiumAllowed);
      if !search.allowed || (IsPremiumMode(activeMode) && !premiumAllowed) {
        assert g == (Blocked, state);
        return Blocked, null;
      }
      var effectiveMode := EffectiveMode(activeMode, search);
      if search.downgraded {
        state := state.(mode := Fast);
      }
      ghost var s1 := state;
      assert s1 == old(state).(mode := effectiveMode);
      var hit := Lookup(cache.entries, topic, effectiveMode);
      if !force && hit.Some? {
        assert g == (ServedFromCache, Served(s1, topic, hit.value, activeLevel));
        HitMatchesKey(cache.entries, topic, effectiveMode);
        ServeFromCache(topic, hit.value, activeLevel, renderMode);
        return ServedFromCache, null;
      }
      assert g == (Streaming, Streamed(s1, topic, effectiveMode, activeLevel, force));
      req := StartStream(topic, effectiveMode, activeLevel, force);
      outcome := Streaming;
    }

    /**
     * `handleSearch` up to its wait; `Search` states what it does. A search
     * that streams returns the request it opened.
     */
    method HandleSearch(topic: string, force: bool, requestedMode: Option<Mode>, requestedLevel: Option<Level>,
                        search: Gate, premiumAllowed: bool)
      returns (outcome: SearchOutcome, req: LevelRequest?)
      requires Valid()
      modifies this
      ensures Valid()
      ensures (outcome, state) ==
        Search(old(state), cache.entries, topic, force, requestedMode, requestedLevel, search, premiumAllowed)
      ensures req != null <==> outcome == Streaming
      ensures req != null ==>
        fresh(req) && req.Valid() && req.received == [] && req.topic == topic &&
        req.level == ActiveLevel(requestedLevel, ActiveMode(requestedMode, old(state).mode), old(state).selectedLevel) &&
        req.mode == state.mode && req.regenerate == force && req.controller == state.controllers
    {
      SearchInv(state, cache.entries, topic, force, requestedMode, requestedLevel, search, premiumAllowed);
      TrimBlank(Js, topic);
      if Trim(Js, topic) == [] {
        return Ignored, null;
      }
      var renderMode := state.mode;
      var activeMode, activeLevel := BeginSearch(force, requestedMode, requestedLevel);
      outcome, req := GatedSearch(topic, force, activeMode, activeLevel, renderMode, search, premiumAllowed);
    }

    /** What `handleSearch` does once its stream has finished: the loading state ends. */
    method SearchSettled()
      requires Valid()
      modifies this
      ensures Valid()
      ensures state == Settled(old(state))
    {
      state := state.(loading := false, loadingMeta := None);
    }

    /** The timer that hides the cache badge. */
    method HideCacheBadge()
      requires Valid()
      modifies this
      ensures Valid()
      ensures state == old(state).(isFromCache := false)
    {
      state := state.(isFromCache := false);
    }

    /** The mode-switch effect; afterwards it is no longer pending. */
    method ModeSwitchEffect(search: Gate, premiumAllowed: bool) returns (outcome: Option<SearchOutcome>, req: LevelRequest?)
      requires Valid()
      modifies this
      ensures Valid() && !ModeSwitchPending(state)
      ensures (outcome, state) == ModeSwitch(old(state), cache.entries, search, premiumAllowed)
      ensures req != null ==> fresh(req) && req.topic == old(state).activeTopic && req.mode == state.mode
    {
      ModeSwitchSettles(state, cache.entries, search, premiumAllowed);
      var s := state;
      if s.activeTopic != [] && !s.loading && s.result.Some? && s.result.value.mode != s.mode && s.loadingMeta.None? {
        var key := CacheKey(s.activeTopic, s.mode);
        if key in cache.entries {
          state := state.(result := Some(cache.entries[key]), isFromCache := true);
          return None, null;
        }
        var o;
        o, req := HandleSearch(s.activeTopic, false, Some(s.mode), None, search, premiumAllowed);
        outcome := Some(o);
      } else {
        outcome, req := None, null;
      }
    }

    /** The lazy-level effect: a selected level with no text, neither in flight nor failed, is fetched. */
    method LazyLevelEffect() returns (req: LevelRequest?)
      requires Valid()
      modifies this
      ensures Valid()
      ensures state == Lazy(old(state))
      ensures req != null <==> LazyFetchNeeded(old(state)) && old(state).result.value.topic != []
      ensures req != null ==>
        fresh(req) && req.topic == old(state).result.value.topic && req.level == old(state).selectedLevel &&
        req.mode == old(state).mode && !req.regenerate
    {
      var s := state;
      if s.result.Some? && !HasText(s.result.value, s.selectedLevel) &&
         s.selectedLevel !in s.fetchingLevels && s.selectedLevel !in s.failedLevels {
        req := FetchLevel(s.result.value.topic, s.selectedLevel, None, false);
      } else {
        req := null;
      }
    }

    /** The level dropdown's change handler. */
    method SelectLevel(level: Level)
      requires Valid()
      modifies this
      ensures Valid()
      ensures state == old(state).(selectedLevel := level)
    {
      state := state.(selectedLevel := level);
    }

    /** The mode dropdown's change handler (`setMode` of the mode context). */
    method SetMode(m: Mode)
      requires Valid()
      modifies this
      ensures Valid()
      ensures state == old(state).(mode := m)
    {
      state := state.(mode := m);
    }

    /** `handleGoHome`: back to the empty page; late chunks of any topic are ignored from now on. */
    method GoHome()
      requires Valid()
      modifies this
      ensures Valid()
      ensures state == Home(old(state))
    {
      state := state.(result := None, loading := false, activeTopic := "");
      state := state.(currentTopic := None);
    }
  }
}
