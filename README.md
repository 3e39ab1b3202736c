# KnowBear, modelled in Dafny

KnowBear explains a topic at several "levels" (`eli5` … `meme` are free;
`classic60`, `gentle70` and `warm80` are premium) and in three modes (`fast`,
`ensemble`, `technical_depth`). The project models:

- the React client:
  - the page that searches, streams one level at a time and keeps a session cache (`AppPage`);
  - the history sidebar (`Sidebar`);
  - the export menu and its client-side Markdown (`ExportMenu`);
  - the level and mode dropdowns (`LevelDropdown`, `ModeDropdown`);
  - the loading message (`LoadingState`);
  - the explanation card's citation stripping and diagram routing (`ExplanationCard`);
  - the fetch wrapper (`FetchApi`) and the server-sent-events decoder of `queryTopicStream` (`StreamDecoder`);
- the FastAPI backend:
  - topic sanitising (`Sanitize`);
  - `POST /query`, `POST /query/stream` and `save_to_history` (`QueryRouter`);
  - `POST /export` (`ExportRouter`);
- the wire protocol between the stream endpoint and the decoder (`StreamProtocol`).

Shared vocabulary:

- `Types`: modes, levels and the two level lists;
- `OrderedDict`: an insertion-ordered dictionary, used for JavaScript objects and Python dicts;
- `Text`: ASCII whitespace, trimming, case mapping and replacement, in the JavaScript and Python flavours;
- `Wrappers`: `Option` and `Result`.

State the source changes in place is modelled as classes with `modifies` clauses:

- the session cache (`AppPage.ResponseCache`);
- the page (`AppPage.Page`) and one in-flight level request (`AppPage.LevelRequest`);
- the sidebar and its local-storage slot;
- the dropdowns' open flags;
- the Redis store (`QueryRouter.Store`) and the `history` table (`QueryRouter.HistoryTable`).

Each method is proved against a specification function. For example, `Page.HandleSearch` is proved against `Search`, `Query` against `QueryAnswer`, and `ReadLoop` against `Decoded`. Lemmas about those functions carry the promises.

Inputs from outside the model are parameters:

- what the usage gate answers;
- the pro flag;
- whether a backend call succeeded;
- the model's generated texts and chunks (`generate`, `Generation`);
- how the network cuts a response body into reads;
- the JSON encoder and decoder (`dump`/`parse`, related by `Agree`);
- the order in which Python iterates a set.

## Model

| member | source | states |
|---|---|---|
| Types.ParseMode | src/types.ts:17 | a wire name denotes exactly the mode whose name it is, if any |
| Types.ParseLevel | src/types.ts:45 | a wire name denotes exactly the level whose name it is, if any |
| Types.LevelsPartition | src/types.ts:43-45 | every level is free or premium and not both; 5 free and 3 premium, no repeats |
| Types.NamesInjective | src/types.ts:43-45 | distinct levels (and distinct modes) have distinct wire names |
| Types.FreeLevelNames | src/types.ts:43 | the free levels' wire names, in the declared order |
| Types.PremiumLevelNames | src/types.ts:44 | the premium levels' wire names, in the declared order |
| FetchApi.Headers | src/api.ts:9-17 | JSON content type unless overridden; caller headers kept; `Authorization: Bearer <token>` exactly when the session has a non-empty token (or the caller sent one) |
| FetchApi.CheckStatus | src/api.ts:30-31 | a status passes exactly when it is 2xx; otherwise an error is thrown |
| FetchApi.Caught | src/api.ts:37-41 | a non-abort error is rethrown with its own message |
| FetchApi.OutcomeMapping | src/api.ts:19-41 | 429 gives the rate-limit message, another non-2xx gives `API error: <status>`, 2xx succeeds, and an abort gives the timeout message |
| FetchApi.StatusNeverTimesOut | src/api.ts:30-41 | no HTTP status is ever reported as a timeout |
| StreamDecoder.Split | src/api.ts:91 | `split('\n')` returns at least one piece |
| StreamDecoder.SplitJoin | src/api.ts:91-92 | the pieces rejoin with line feeds to the text, and no piece holds a line feed |
| StreamDecoder.BufferStep | src/api.ts:90-92 | carrying the tail into the next read gives the same complete lines and tail as splitting the whole text |
| StreamDecoder.UnterminatedTailIgnored | src/api.ts:91-92 | text after the last line feed is never part of a complete line |
| StreamDecoder.LineEvents | src/api.ts:94-111 | a line triggers at most one callback, only if it starts with `data: `; `onDone` exactly for `data: [DONE]` |
| StreamDecoder.ReadLoop | src/api.ts:85-113 | the callbacks are those of the complete lines of the whole stream, and the buffer ends holding the unterminated tail |
| StreamDecoder.QueryTopicStream | src/api.ts:55-117 | a rejected fetch, a non-ok status or a failed read ends in exactly one `onError`; otherwise the read loop's callbacks |
| StreamDecoder.ReadLoopsAgree | src/api.ts:85-113 | two runs of the read loop over the same stream cut into reads differently fire the same callbacks and keep the same buffer |
| StreamDecoder.DoneAndErrorDoNotStop | src/api.ts:97-107 | `[DONE]` does not end the loop: a later chunk is still delivered |
| AppPage.CacheKeyInjective | src/pages/AppPage.tsx:117 | `${topic}:${mode}` keys of different (topic, mode) pairs differ |
| AppPage.PutThenGet | src/pages/AppPage.tsx:118 | a write under (topic, mode) is read back by that pair only |
| AppPage.ResponseCache.constructor | src/pages/AppPage.tsx:18 | the session cache starts empty |
| AppPage.HitMatchesKey | src/pages/AppPage.tsx:114-119 | a hit under (topic, mode) is a result for that topic made in that mode |
| AppPage.ChunkUpdateShows | src/pages/AppPage.tsx:62-76 | after a chunk the result is for the request's topic and mode and shows the accumulated text for its level; other levels are kept for the same topic and dropped for another |
| AppPage.RegenerateBlankKeeps | src/pages/AppPage.tsx:202-205 | regeneration empties only the active level and keeps topic, mode and the other levels |
| AppPage.ChunkUpdateValid | src/pages/AppPage.tsx:62-76 | a chunk never lists a level twice |
| AppPage.RegenerateBlankValid | src/pages/AppPage.tsx:202-205 | blanking a level never lists a level twice |
| AppPage.EffectiveMode | src/pages/AppPage.tsx:159 | a downgraded search runs as `fast`, any other in the active mode |
| AppPage.SearchEnds | src/pages/AppPage.tsx:122-189 | a blank topic is ignored and changes nothing; a refused search is blocked; an unforced search whose key is cached is served from the cache; anything else streams |
| AppPage.SearchUsage | src/pages/AppPage.tsx:125-191 | every search that is not ignored aborts the previous request; only a streaming search records usage, once, in its effective mode |
| AppPage.SearchEffect | src/pages/AppPage.tsx:163-197 | streaming shows loading for the topic with only the active level in flight and no failures; a cache hit shows the cached result, not loading |
| AppPage.ChunkedInv | src/pages/AppPage.tsx:59-78 | a chunk keeps the page invariant |
| AppPage.CacheWrittenValid | src/pages/AppPage.tsx:114-120 | the cache-write effect stores every entry under its own key |
| AppPage.SearchInv | src/pages/AppPage.tsx:122-229 | a search keeps the page invariant |
| AppPage.SearchSettlesMode | src/pages/AppPage.tsx:136-139 | after a search that is not ignored, the mode-switch effect has nothing to do |
| AppPage.ModeSwitchSettles | src/pages/AppPage.tsx:232-252 | the mode-switch effect keeps the invariant and never leaves itself pending, so it cannot loop |
| AppPage.CachedSearchIsFree | src/pages/AppPage.tsx:163-191 | searching a settled, cached topic again in the same mode is served from the cache and records no usage |
| AppPage.FailedLevelNotRefetched | src/pages/AppPage.tsx:264-272 | a level that failed is not fetched again by the lazy effect, even when selected |
| AppPage.LazyFetchesOnce | src/pages/AppPage.tsx:264-272 | after the lazy effect its guard is false |
| AppPage.LevelRequest.constructor | src/pages/AppPage.tsx:41-58 | a request starts with its topic, level, mode, regenerate flag and controller, and nothing accumulated |
| AppPage.Page.constructor | src/pages/AppPage.tsx:20-38 | the page starts in its initial state in the context's mode |
| AppPage.Page.FetchLevel | src/pages/AppPage.tsx:41-58 | an empty topic does nothing; otherwise the level is in flight and a request opens in the override or page mode |
| AppPage.Page.OnChunk | src/pages/AppPage.tsx:59-78 | the request accumulates every chunk; the screen shows the accumulated text only while the page's topic is the request's |
| AppPage.Page.OnDone | src/pages/AppPage.tsx:79-89 | the level leaves the in-flight set |
| AppPage.Page.OnError | src/pages/AppPage.tsx:90-111 | an abort changes nothing; any other failure marks the level failed and not in flight |
| AppPage.Page.CacheWriteEffect | src/pages/AppPage.tsx:114-120 | a settled result in the page's mode is stored under its topic and that mode |
| AppPage.Page.BeginSearch | src/pages/AppPage.tsx:122-143 | abort, clear unless forced, show the requested mode and level |
| AppPage.Page.ServeFromCache | src/pages/AppPage.tsx:163-188 | the cache-hit branch shows the hit for the topic and ends loading |
| AppPage.Page.StartStream | src/pages/AppPage.tsx:191-226 | the streaming branch opens a fresh request for the topic in the effective mode |
| AppPage.Page.GatedSearch | src/pages/AppPage.tsx:146-226 | the gate, then the cache, then the stream; a request is opened exactly when it streams |
| AppPage.Page.HandleSearch | src/pages/AppPage.tsx:122-229 | `handleSearch` does what `Search` says, and a request is opened exactly when it streams |
| AppPage.Page.SearchSettled | src/pages/AppPage.tsx:216-228 | once the stream finishes, loading ends |
| AppPage.Page.HideCacheBadge | src/pages/AppPage.tsx:186 | the timer hides the cache badge and changes nothing else |
| AppPage.Page.ModeSwitchEffect | src/pages/AppPage.tsx:232-252 | switches to a cached result or searches again; afterwards it is no longer pending |
| AppPage.Page.LazyLevelEffect | src/pages/AppPage.tsx:264-272 | a selected level with no text, not in flight and not failed, is fetched, once |
| AppPage.Page.SelectLevel | src/pages/AppPage.tsx:371 | only the selected level changes |
| AppPage.Page.SetMode | src/pages/AppPage.tsx:25 | only the mode changes |
| AppPage.Page.GoHome | src/pages/AppPage.tsx:254-261 | back to the empty page; late chunks of any topic are then ignored |
| Sidebar.WithoutIdMembers | src/components/Sidebar.tsx:65 | the filter keeps exactly the entries with another id |
| Sidebar.WithoutIdAppend | src/components/Sidebar.tsx:65 | the filter works entry by entry and keeps order |
| Sidebar.WithoutIdIdempotent | src/components/Sidebar.tsx:65 | deleting an id twice is deleting it once |
| Sidebar.Restored | src/components/Sidebar.tsx:27-31 | a fresh sidebar shows the cached list, or nothing |
| Sidebar.HistorySlot.constructor | src/components/Sidebar.tsx:29 | the slot holds the given value |
| Sidebar.Sidebar.constructor | src/components/Sidebar.tsx:27-34 | mounting shows the slot's list, with no spinner or modal |
| Sidebar.Sidebar.UserEffect | src/components/Sidebar.tsx:38-45 | signed in: reload, spinner only while empty; signed out: list and slot emptied |
| Sidebar.Sidebar.LoadStart | src/components/Sidebar.tsx:47-48 | the spinner shows only while the list is empty |
| Sidebar.Sidebar.LoadFinish | src/components/Sidebar.tsx:49-58 | a loaded list replaces the list and the slot; a failure keeps both; the spinner stops |
| Sidebar.Sidebar.Delete | src/components/Sidebar.tsx:61-69 | only a successful delete removes the entries with that id; the slot is untouched |
| Sidebar.Sidebar.DeleteAllStart | src/components/Sidebar.tsx:71-77 | list and slot empty at once; the old list is kept as a snapshot |
| Sidebar.Sidebar.DeleteAllFinish | src/components/Sidebar.tsx:79-89 | a failure restores the snapshot to the list and the slot and alerts the user; success alerts nothing |
| Sidebar.Sidebar.DeleteAll | src/components/Sidebar.tsx:71-90 | success leaves list and slot empty with no alert; failure restores the list, alerts the user, and a reload would show it too |
| ExportMenu.GenerateMarkdown | src/components/ExportDropdown.tsx:101-127 | the loop builds the document `Markdown` defines |
| ExportMenu.MarkdownSingle | src/components/ExportDropdown.tsx:101-127 | one level gives the title and the trimmed text, no heading and no rule |
| ExportMenu.MarkdownMulti | src/components/ExportDropdown.tsx:105-126 | several levels start with the title and a rule and end with a rule |
| ExportMenu.SlugShape | src/components/ExportDropdown.tsx:68 | a slug has at most 30 characters, no whitespace and no capital |
| ExportMenu.FileName | src/components/ExportDropdown.tsx:69 | `<slug>-technical-depth.<fmt>` in technical depth mode, else `knowbear-<slug>.<fmt>` |
| ExportMenu.ExportDropdown.constructor | src/components/ExportDropdown.tsx:35-38 | closed, not loading, not copied |
| ExportMenu.ExportDropdown.HandleExport | src/components/ExportDropdown.tsx:53-99 | always closes; a refusal does nothing; copy uses the client Markdown and no backend call, and shows the badge only when the clipboard write succeeds; md/txt download under `FileName` only when the export request succeeds; json/pdf do nothing |
| LevelDropdown.LevelLabel | src/components/LevelDropdown.tsx:12-21 | every level has a non-empty label |
| LevelDropdown.LabelRoundTrip | src/components/LevelDropdown.tsx:12-21 | a label reads back as its own level |
| LevelDropdown.LabelsDistinct | src/components/LevelDropdown.tsx:12-21 | no two levels share a label |
| LevelDropdown.LockedRule | src/components/LevelDropdown.tsx:59-61 | the lock shows exactly to a non-pro user on a premium level |
| LevelDropdown.LevelMenu.constructor | src/components/LevelDropdown.tsx:24 | the menu starts closed |
| LevelDropdown.LevelMenu.Toggle | src/components/LevelDropdown.tsx:54 | the button flips the menu |
| LevelDropdown.LevelMenu.HandleSelect | src/components/LevelDropdown.tsx:39-47 | the gate is asked exactly for premium levels; a level is chosen exactly when free or allowed, and then the menu closes |
| ModeDropdown.FindMode | src/components/ModeDropdown.tsx:62 | finds an entry with that id, or none exists |
| ModeDropdown.ModesTable | src/components/ModeDropdown.tsx:12-37 | every mode is listed once, and only `fast` is free |
| ModeDropdown.SelectedFallback | src/components/ModeDropdown.tsx:44 | an unknown selection is shown as Fast; a known one as itself |
| ModeDropdown.ModeMenu.constructor | src/components/ModeDropdown.tsx:40 | the menu starts closed |
| ModeDropdown.ModeMenu.HandleSelect | src/components/ModeDropdown.tsx:56-70 | re-picking only closes; premium modes ask the gate; a refusal changes nothing; else the mode is chosen and the menu closes |
| LoadingState.BaseMessage | src/components/LoadingState.tsx:24-34 | technical depth wins over the level, then eli5, then eli10, else the crafting text; the generic text is never used |
| LoadingState.Hint | src/components/LoadingState.tsx:37-42 | the diagram hint wins over the code hint, each exactly on its keywords |
| LoadingState.MessageShape | src/components/LoadingState.tsx:23-44 | base message plus at most one hint; in technical depth it does not depend on the level |
| ExplanationCard.CardRules | src/components/ExplanationCard.tsx:38-52 | technical depth: red border, no heading, citations stripped; otherwise the level's own (never red) colour and name, text unchanged |
| ExplanationCard.CitationAt | src/components/ExplanationCard.tsx:43 | a match of `\[\d+(?:,\s*\d+)*\]` starts with `[` and a digit and ends with `]` |
| ExplanationCard.StripIsSubsequence | src/components/ExplanationCard.tsx:42-44 | stripping only deletes characters |
| ExplanationCard.StripWithoutBracket | src/components/ExplanationCard.tsx:42-44 | text without `[` is unchanged |
| ExplanationCard.StripExamples | src/components/ExplanationCard.tsx:43 | `[1]` and `[1, 2]` are removed; `[x]` stays |
| ExplanationCard.WordRun | src/components/ExplanationCard.tsx:59 | the longest prefix of word characters |
| ExplanationCard.DropFinalNewline | src/components/ExplanationCard.tsx:60 | at most one final line feed is dropped |
| ExplanationCard.MermaidRouting | src/components/ExplanationCard.tsx:58-64 | a diagram comes only from a block whose language is exactly `mermaid`, with the code minus its final line feed |
| ExplanationCard.LanguageAfterPrefix | src/components/ExplanationCard.tsx:59-62 | `language-<word>` names the whole word (`mermaidjs` is not `mermaid`) |
| Sanitize.SanitizeTopic | api/utils.py:10-19 | empty topic is "Topic required"; a non-empty topic longer than 200 after stripping is "Topic exceeds 200 chars" whatever its characters; any other refusal is "Invalid characters in topic"; accepted exactly when the stripped topic is at most 200 long and all allowed characters; the result unescapes to the stripped topic |
| Sanitize.EscapeRoundTrip | api/utils.py:19 | unescaping the escaped text gives it back |
| Sanitize.EscapeSafe | api/utils.py:19 | escaped text has no `<`, `>` or quote |
| Sanitize.EscapeKeepsPlain | api/utils.py:19 | text without special characters is unchanged |
| Sanitize.LengthBoundary | api/utils.py:14-16 | the limit applies after stripping and is inclusive: 200 passes, 201 is too long |
| Sanitize.BlankTopic | api/utils.py:12-18 | a whitespace-only topic is refused for its characters |
| Sanitize.AcceptedWithoutQuotes | api/utils.py:17-19 | an accepted topic without quotes is returned stripped and unescaped |
| QueryRouter.CoerceMode | api/routers/query.py:41-42 | `ensemble` and `technical_depth` run as `fast`; other modes pass through |
| QueryRouter.DefaultLevels | api/routers/query.py:49 | the requested levels, or `eli5` alone |
| QueryRouter.StreamLevel | api/routers/query.py:113 | the stream serves the first level `/query` would answer |
| QueryRouter.SanitizeOnWellFormed | api/routers/query.py:20-47 | a well-formed request can only be refused for its characters |
| QueryRouter.PartitionSides | api/routers/query.py:54-63 | a cached level reads its cached text; an uncached one is listed; nothing else appears |
| QueryRouter.FoundValid | api/routers/query.py:54-63 | the cached explanations have no repeated key |
| QueryRouter.Partition | api/routers/query.py:51-63 | the lookup loop computes exactly the found and missing sides |
| QueryRouter.TaskLevels | api/routers/query.py:75 | the task keys are the uncached levels, each once |
| QueryRouter.MergedGet | api/routers/query.py:78-85 | a generated level reads its text or `Error generating <level>: <message>`; other keys keep their value |
| QueryRouter.WrittenAt | api/routers/query.py:78-82 | only generated texts are cached, as `{"text": ...}` |
| QueryRouter.Merge | api/routers/query.py:78-86 | the result loop fills the explanations and the store as `Merged` and `Written` say |
| QueryRouter.Outcomes | api/routers/query.py:75-76 | one outcome per task, in task order |
| QueryRouter.Query | api/routers/query.py:35-95 | `POST /query` answers and writes the store as `QueryAnswer`/`QueryStore` say |
| QueryRouter.QueryRefusal | api/routers/query.py:44-47 | a refusal is a 400 that generates, schedules and writes nothing |
| QueryRouter.QueryCached | api/routers/query.py:65-72 | cached exactly when not bypassed and every level hit; then nothing is generated; a signed-in user is always scheduled for history |
| QueryRouter.QueryAnswersEveryLevel | api/routers/query.py:54-95 | every asked level is answered, by cache or generation, and nothing else |
| QueryRouter.QueryCaches | api/routers/query.py:78-82 | generated levels are cached; failed ones and other topics are untouched |
| QueryRouter.PiecesShape | api/routers/query.py:130-133 | the replay pieces concatenate to the cached text, are non-empty, at most 500 long, all but the last exactly 500 |
| QueryRouter.QueryStream | api/routers/query.py:98-168 | `POST /query/stream` answers and writes the store as `StreamAnswer`/`StreamStore` say |
| QueryRouter.Forward | api/routers/query.py:142-150 | each model chunk is sent as a chunk record and appended to the full content |
| QueryRouter.StreamShape | api/routers/query.py:115-166 | metadata first; last record `[DONE]` or one error; chunks between; a failed stream schedules and caches nothing |
| QueryRouter.StreamReplay | api/routers/query.py:122-139 | a hit replays the cached text in pieces of 1 to 500 characters without the model or a store write |
| QueryRouter.StreamCaches | api/routers/query.py:155-158 | a generated stream is cached exactly when it finished and is not blank, with the whole text |
| QueryRouter.FirstMatch | api/routers/query.py:182-184 | the first row of that user and topic, or none exists |
| QueryRouter.SaveDeduplicates | api/routers/query.py:171-210 | one row per user and topic; the saved row on top with old plus new levels; every other row kept |
| QueryRouter.HistoryTable.SaveToHistory | api/routers/query.py:171-214 | with the client available the table becomes `AfterSave`; otherwise it is unchanged |
| StreamProtocol.FrameSplit | src/api.ts:91-92 | a frame `x\n\n` splits into `x` and a blank line, nothing left over |
| StreamProtocol.WireLines | src/api.ts:90-92 | the body splits into the frames' lines with an empty tail |
| StreamProtocol.LinesSeen | src/api.ts:94-111 | the body's lines trigger the records' callbacks in order |
| StreamProtocol.RoundTrip | src/api.ts:85-113 | however the body is cut into reads, the callbacks are the records' callbacks and the buffer ends empty |
| StreamProtocol.ChunksSeen | src/api.ts:103-104 | chunk records give only chunk callbacks, whose texts add up to the chunks |
| StreamProtocol.FramedSeen | src/api.ts:94-111 | a stream gives nothing for the metadata, then the chunks, then the closing callback |
| StreamProtocol.StreamDelivered | api/routers/query.py:115-166 | the client sees chunks adding up to the whole explanation, then one `onDone`; or the chunks so far and one `onError` |
| StreamProtocol.StreamFrame | api/routers/query.py:115-166 | a stream is the metadata, chunks that add up to the explanation, and a closing record |
| StreamProtocol.DeliveredFrame | src/api.ts:85-113 | the callbacks of one stream's body, for any cutting into reads |
| StreamProtocol.ClosedBy | src/api.ts:97-107 | chunk texts come first, then at most one closing callback |
| ExportRouter.CanonicalDistinct | api/routers/export.py:76-79 | the canonical level list has no repeats and no `technical_depth` |
| ExportRouter.MissingLevels | api/routers/export.py:66-82 | technical: missing is `{technical_depth}` for an empty request, else nothing; otherwise a level is missing iff canonical and not sent |
| ExportRouter.FillMissing | api/routers/export.py:84-92 | the fill loop computes `Filled` |
| ExportRouter.FilledGet | api/routers/export.py:88-92 | a filled level reads its text or `Error generating content: ...`; others keep their value |
| ExportRouter.FilledKeys | api/routers/export.py:88-92 | filling appends the missing levels' keys after the sent ones |
| ExportRouter.FilledValid | api/routers/export.py:88-92 | filling repeats no key |
| ExportRouter.PickKeys | api/routers/export.py:101-107 | picking keeps the listed names present, in list order |
| ExportRouter.Order | api/routers/export.py:94-109 | the ordering loops compute `Ordered` |
| ExportRouter.Render | api/routers/export.py:114-140 | the rendering loop builds `Document` |
| ExportRouter.RenderSection | api/routers/export.py:119-124 | one loop step appends `Section` |
| ExportRouter.DocumentShape | api/routers/export.py:115-124 | no level: the title; one: title and stripped text; several: title and rule first, rule last |
| ExportRouter.SectionsAgree | api/routers/export.py:118-140 | the txt and md sections are equal whenever headings show |
| ExportRouter.TechnicalHeadingUnreachable | api/routers/export.py:120 | the `TECHNICAL DEPTH` heading never shows, so txt and md documents agree |
| ExportRouter.SlugShape | api/routers/export.py:111 | a slug has at most 30 characters, no space and no capital |
| ExportRouter.ExportAnswer | api/routers/export.py:59-158 | a malformed request is 422; pdf is a 400 with the disabled message; otherwise a download named `<base>.<format>`, JSON exactly for json |
| ExportRouter.Export | api/routers/export.py:59-158 | the handler returns what `ExportAnswer` says |
| ExportRouter.ExportedCanonical | api/routers/export.py:76-109 | non-technical export holds exactly the canonical levels, in order, each sent or filled |
| ExportRouter.ExportedTechnical | api/routers/export.py:69-99 | technical export holds `technical_depth` alone when sent, else every sent level, or one generated `technical_depth` |
| ExportRouter.UnboundLevelLists | api/routers/export.py:77 | as written, every well-formed non-technical export ends in a 500 where the corrected handler answers |
| ExportRouter.UnboundLevelListsExample | api/routers/export.py:77 | topic "Gravity", no explanations, txt, fast: a 500 |
| ExportRouter.MissingFromNothing | api/routers/export.py:76-82 | with nothing sent, the missing levels are the canonical ones |

## Left out

- The page's `error` state is written but never set to a message, so it is not modelled. Neither are the sidebar toggle, the mobile layout or scrolling.
- Timers are separate methods (`HideCacheBadge`, `SearchSettled`) or are left out (the 1.5-second history refresh, the copied badge); time itself is not modelled.
- The regeneration temperature comes from `Math.random` and only travels in the request, so it is left out, as is the temperature field of the stream request.
- Callbacks of a request that a later search aborted may still arrive; the model applies them to whatever state is current, as the source does, but does not model JavaScript's scheduling. The chunk guard compares topics only (src/pages/AppPage.tsx:61): `Chunked` does not look at the request's controller, so a late chunk from an aborted request for the same topic is still applied and overwrites that level's text with its own accumulated text.
- JSON encoding and decoding are abstract functions (`dump`, `parse`), related only by `Agree`; object key order is the insertion order of `OrderedDict`.
- Strings are sequences of characters with ASCII whitespace and ASCII case mapping; Unicode `\w`, `\s` and case folding are not modelled.
- Sidebar item clicks, the quote fetch of the loading screen, `ensure_user_exists`, authentication (`verify_token`) and `check_is_pro` are outside the model; the pro flag and the signed-in user are inputs.
- After a single delete the local-storage slot still holds the deleted entry until the next load; the model keeps that behaviour and does not correct it.
- QueryRouter.HistoryTable.SaveToHistory: a row's levels are a set, so the list order Python gives a set union, and repeats in an inserted list, are not modelled.
- ExportRouter.Export: Python's iteration order over the set of missing levels is the `order` parameter, required to list that set once each.
- Pydantic's 422 body and the `visuals` field of the export request are not modelled; the pdf branch is commented out in the source and is modelled as the 400 it reaches.
- `query_topic` passes the request mode where `ensemble_generate` expects the premium flag; generation is an input function, so the argument's effect is not modelled.
- An exception with an empty message yields an error record whose `error` field is empty, which the client ignores; the model follows the decoder's rule and states nothing more.
- The rate limiter and client disconnects are not modelled.
- `topic_cache_key` is imported by api/routers/query.py:8 but api/utils.py does not define it, so as written importing the query router fails, and with it the application (api/main.py:13 imports that router). The model takes the evidently intended behaviour: the Redis key is the pair (topic, level), so distinct pairs never collide.
- The fetch wrapper's 90-second timer is the `AbortError` case of `FetchApi.Caught`; the timer itself is not modelled.

## Findings

| source | as written | input that shows it | evidently intended | confidence | as-written member | corrected member |
|---|---|---|---|---|---|---|
| api/routers/export.py:77 | `FREE_LEVELS` and `PREMIUM_LEVELS` are never imported or defined in the export router, so every export whose mode is not `technical_depth` raises `NameError` and the global handler answers 500 | `{"topic": "Gravity", "explanations": {}}` with format `txt` and mode `fast` | export the free levels, plus the premium ones for a pro user, generating those not sent | not executed | ExportRouter.UnboundLevelListsExample | ExportRouter.ExportedCanonical |
