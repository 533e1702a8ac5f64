# Board-game lookup client and session request schemas, in Dafny

This project models the server-side board-game lookup of the game-night
planner. `GameService` queries the BoardGameGeek XML API v2 and turns the
parsed answers into game records. The project also models the zod schemas
that validate request bodies for game sessions.

The lookup client is made of five parts:

- **Rate gate** (`RateGate`, `GameService.Service.WaitBetweenCalls`). Before
  every outbound request the client waits until `MIN_INTERVAL_MS` (5000 ms)
  has passed since `lastExternalCall`. The shared timestamp is refreshed when
  a request comes back with a response.
- **Search cache** (`SearchCache`). This is a map from a normalised query key
  to `{at, items}`. An entry is a hit only while `now - at` is strictly less
  than 15 minutes, and it is written only for a non-empty result. The
  detailed search uses the key `trim(lowercase(query))` and the fast search
  uses `"fast:" + trim(lowercase(query))`.
- **Request layer** (`Provider`, and the `GameService.Service.Fetch*`
  methods). There are four request shapes:
  - the retrying `fetchXML` of the detailed search: up to 4 attempts, a
    `900 + i*400` ms pause after each busy answer, and an immediate stop on
    401/403 or on a 200 with an `items` root;
  - a fallback to the `api.geekdo.com` mirror when the primary host gives
    nothing;
  - the single-attempt `fetchXML` of the fast search;
  - the single-attempt `fetchXML` of the `thing` lookup.
- **Normalisers** (`BggXml`). They turn the parsed XML tree into game
  records:
  - an object or an array becomes a list;
  - the first 25 ids are taken, keeping the finite ones;
  - the primary name is preferred and an empty one becomes `Untitled`;
  - player counts and playing time become null when they are not finite;
  - the fast-path record is built from a search hit;
  - the detail record is built from a single `thing` item.
- **Facades**. The class `GameService.Service` holds the clock, the
  `lastExternalCall` timestamp, the cache, the network and a ghost log of
  every request. Its three public operations are `SearchExternalFast`,
  `SearchExternal` and `FetchBggThing`.

Each imperative method of the class is proved equal to a pure specification
function over an `Env` record (`Provider.Send`, `Retry`, `Fallback`, `Once`,
`OnceWithFallback`, `SearchFast`, `Search`, `FetchThing`). The class
invariant `Valid()` is `Provider.Spaced`: every request that starts after an
answered request starts at least 5000 ms after that answer came back. The
properties of the request layer and of the facades are lemmas about the
specification functions, in `ProviderProps` and `FacadeProps`.

The network is an oracle, a sequence of `Reply` values consumed one per
request. A `Reply` is either an answer (elapsed time, HTTP status, parsed
body or none) or a thrown network error. The clock is an integer field that
waits and requests advance.

`Scenario` works through one search for "Catan". The search hit and the
`thing` answer produce one game record, and a second search right after it
is served from the cache.

The request schemas (`SessionValidators`) are predicates over a `Json`
value. They cover `createSessionSchema`, `updateSessionSchema` (its
`.partial()`), `recordResultsSchema` and `respondParticipationSchema`.

In these places the code does something a reader might not expect, and the
model follows the code:

- The mirror host gets the full 4-attempt budget again, not a single pass.
- The back-off pause also runs after the fourth failed attempt.
- Detailed results are not truncated to 25. They are bounded only because at
  most 25 ids are requested in the `thing` batch.
- The `fast:` prefix does not keep the two searches' cache entries apart: a
  detailed search for `"fast:"` followed by the normalised `q` uses the fast
  key of `q` (`SearchCache.DetailedKeyMeetsFastKey`).
- `lastExternalCall` is refreshed only when the request returns. A request
  that throws leaves the timestamp alone, so the next request can start at
  once (`ProviderProps.NoSpacingAfterThrownCall`).
- `fetchBggThing` returns the raw name with no `Untitled` default. It
  propagates a network error rather than returning null.
- `searchExternalFast` has no `try`/`catch` either, so a network error
  escapes it as well (`Provider.Outcome.Rejected`); only `searchExternal`
  turns every failure into `[]`.

## Model

| member | source | states |
|---|---|---|
| JsText.Trim | server/src/services/game.service.ts:90 | `query.trim()` is no longer than the query, and neither end of the result is white space |
| JsText.TrimIsSlice | server/src/services/game.service.ts:90 | the trimmed query is a contiguous slice of the query with only white space before and after it |
| JsText.TrimIgnoresPadding | server/src/services/game.service.ts:66 | white space added around a string does not change its trim |
| JsText.ParseNumDigits | server/src/services/game.service.ts:150 | `Number` of a non-empty digit string is its decimal value, and with a leading `-` the negated value |
| JsText.ParseNumDecimal | server/src/services/game.service.ts:150 | `Number` reads back the decimal rendering of every natural number, signed or not |
| JsText.ToLower | server/src/services/game.service.ts:90 | `toLowerCase()`, folding each ASCII capital; `ToLowerAppend`, `ToLowerKeepsSpace` and `SearchCache.KeyIgnoresCase` state its properties |
| JsText.ParseNum | server/src/services/game.service.ts:150 | `Number(s)` kept only when finite: trims, reads the empty string as 0, and accepts an optionally signed run of decimal digits; `ParseNumDigits` and `ParseNumDecimal` state its values |
| JsText.ParseTrimmed | server/src/services/game.service.ts:150 | `Number` on an already trimmed string; `ParseNumOfTrimmed` and `ParseTrimmedDigits` relate it to `ParseNum` |
| BggXml.ItemList | server/src/services/game.service.ts:146-147 | a missing `items` or `item` gives the empty list, a single item gives a list of one, and an array is kept as it is |
| BggXml.ParseId | server/src/services/game.service.ts:150 | `Number(it['@_id'])` when finite, none when the id is missing or does not parse; `FiniteIdsOne` uses it to fix each item's contribution |
| BggXml.FiniteIds | server/src/services/game.service.ts:150-151 | a value is among the kept ids if and only if some item's `@_id` parses to it, and there are no more ids than items |
| BggXml.FiniteIdsOne | server/src/services/game.service.ts:150-151 | one item contributes its parsed id when it is finite and nothing otherwise |
| BggXml.FiniteIdsAppend | server/src/services/game.service.ts:150-151 | the ids of a concatenation are the ids of each part in order, duplicates kept, so with `FiniteIdsOne` the id sequence is fixed item by item |
| BggXml.Ids | server/src/services/game.service.ts:148-151 | at most 25 ids, and an id is kept if and only if it parses from one of the first 25 items |
| BggXml.IdsOfFirst25 | server/src/services/game.service.ts:148-151 | a list of at most 25 hits keeps its whole id sequence, and hits after the 25th never change it |
| BggXml.FindPrimary | server/src/services/game.service.ts:180 | finds the first name tagged `primary`, and reports none only when no name is tagged `primary` |
| BggXml.NameValue | server/src/services/game.service.ts:180-181 | the name: a plain text name as it is, a single element's `value`, or among several the first `primary` one, else the first; `PrimaryNamePreferred` and `FirstNameWithoutPrimary` state it |
| BggXml.DisplayName | server/src/services/game.service.ts:186 | `name \|\| 'Untitled'` is never empty; it is `Untitled` when the name is missing or empty, and the name unchanged when the name is non-empty |
| BggXml.FirstItem | server/src/services/game.service.ts:237-238 | there is an item exactly when the item list is non-empty, and it is the first element of that list |
| BggXml.NumberField | server/src/services/game.service.ts:182-184 | a numeric field's parsed `value`, or null when the element or its value is missing or does not parse; `NumberFieldNull` characterises it |
| BggXml.Picture | server/src/services/game.service.ts:192 | the thumbnail when present, else the image; `DetailMatchesBatch` shows both lookups share it |
| BggXml.DetailedGame | server/src/services/game.service.ts:179-194 | one `thing` item as a detailed record; `DetailedGamesShape` and `DetailMatchesBatch` state its fields |
| BggXml.DetailedGames | server/src/services/game.service.ts:179 | every `thing` item mapped in order, with no truncation; `DetailedGamesShape` states its length and fields |
| BggXml.FastName | server/src/services/game.service.ts:75 | a search hit's name: a single element's `value`, else the empty string |
| BggXml.FastYear | server/src/services/game.service.ts:81-83 | `Number(year) \|\| null`; `FastYearNull` characterises it and `FastYearZeroIsNull` gives its values |
| BggXml.FastGame | server/src/services/game.service.ts:74-84 | one search hit as a fast record; `FastGamesShape` states its fields |
| BggXml.FastGames | server/src/services/game.service.ts:74 | the first 25 hits as fast records, in order; `FastGamesShape` states its length and fields |
| BggXml.ItemDetail | server/src/services/game.service.ts:239-253 | the detail record of the first `thing` item; `DetailMatchesBatch` and `DetailKeepsEmptyName` relate it to the batch record |
| BggXml.SingleItemIsListOfOne | server/src/services/game.service.ts:177 | a non-array `item` becomes a one-element list and is the item `fetchBggThing` takes |
| BggXml.PrimaryNamePreferred | server/src/services/game.service.ts:180-186 | among several names the first `primary` one is used, and a non-empty one becomes the record's name |
| BggXml.FirstNameWithoutPrimary | server/src/services/game.service.ts:180 | with no `primary` name, the first name is used |
| BggXml.NumberFieldNull | server/src/services/game.service.ts:182-191 | a number field is non-null if and only if it is present with a `value` attribute that parses, and then it is the parsed value |
| BggXml.DetailedGamesShape | server/src/services/game.service.ts:179-194 | one record per `thing` item, in order, with source `bgg`, the item's id (`"undefined"` when absent), a non-empty name that is the item's own name whenever that is non-empty, players and duration taken from the item's fields, and the thumbnail, else the image, as picture |
| BggXml.FastGamesShape | server/src/services/game.service.ts:74-84 | fast results are the first 25 hits, in order, each with source `bgg-search`, the hit's id, the hit's name and year as `FastName` and `FastYear` read them, null players and duration, and never year 0 |
| BggXml.FastNameCases | server/src/services/game.service.ts:75 | a hit's name is the `value` of its single name element; a missing value, bare text or several name elements give the empty string |
| BggXml.FastYearZeroIsNull | server/src/services/game.service.ts:81-83 | for every decimal year, positive or negative, a year of 0 becomes null and any other year is kept |
| BggXml.FastYearNull | server/src/services/game.service.ts:81-83 | the fast year is null if and only if the element or its value is missing, the value does not parse, or it is 0; otherwise it is the parsed year |
| BggXml.DetailMatchesBatch | server/src/services/game.service.ts:239-252 | the single-item detail has the same players, duration and picture as the batch record, and the batch name is its name with the `Untitled` default |
| BggXml.DetailKeepsEmptyName | server/src/services/game.service.ts:248 | an empty primary name stays empty in the detail but becomes `Untitled` in a search result |
| RateGate.ReadyAt | server/src/services/game.service.ts:25-31 | the wait ends at least 5000 ms after the last call, does not wait when that already holds, and waits no longer than needed |
| RateGate.BackoffGrows | server/src/services/game.service.ts:134 | each further attempt pauses 400 ms longer than the one before |
| RateGate.Backoff | server/src/services/game.service.ts:134 | the pause `900 + i*400` ms after attempt `i`; `BackoffGrows` and `ProviderProps.RetryUnfoldsOnBusy` state its use |
| SearchCache.FastKey | server/src/services/game.service.ts:66 | the fast key is `fast:` followed by the detailed key |
| SearchCache.Key | server/src/services/game.service.ts:90 | `query.trim().toLowerCase()`; `KeyMatchesSourceOrder`, `KeyIgnoresCase`, `KeyIgnoresSurroundingSpace` and `KeysIsolated` state its properties |
| SearchCache.Lookup | server/src/services/game.service.ts:67-68 | a hit if and only if the key is present and `now - at` is under 15 minutes, and a hit returns the stored items |
| SearchCache.Store | server/src/services/game.service.ts:85 | an empty result leaves the cache alone; otherwise the key maps to `{now, items}` and every other key is untouched |
| SearchCache.StoreThenLookup | server/src/services/game.service.ts:197-198 | a stored non-empty result is a hit for exactly 15 minutes and a miss from then on |
| SearchCache.StoreEmptyChangesNothing | server/src/services/game.service.ts:197 | storing an empty result leaves every lookup as it was |
| SearchCache.StoreReplaces | server/src/services/game.service.ts:198 | a write replaces the earlier entry for its key without merging and leaves other keys' lookups unchanged |
| SearchCache.KeyMatchesSourceOrder | server/src/services/game.service.ts:90 | folding then trimming gives the same key as `trim()` then `toLowerCase()` |
| SearchCache.KeyIgnoresCase | server/src/services/game.service.ts:90 | queries that differ only in letter case share a key |
| SearchCache.KeyIgnoresSurroundingSpace | server/src/services/game.service.ts:90 | queries that differ only in surrounding white space share a key |
| SearchCache.KeysIsolated | server/src/services/game.service.ts:66 | for the same query the fast and detailed searches use different keys |
| SearchCache.DetailedKeyMeetsFastKey | server/src/services/game.service.ts:66 | a detailed search for `fast:` followed by a query's normalised form uses that query's fast key, so the two caches can collide |
| ProviderProps.SendFacts | server/src/services/game.service.ts:109-122 | a request starts once 5000 ms have passed since the last answer (at once if they have), appends one call, consumes one reply, and refreshes the timestamp only when answered |
| Provider.Send | server/src/services/game.service.ts:109-122 | one request after the rate gate: consumes a reply, advances the clock, logs the call and refreshes `lastExternalCall` only on an answer; `ProviderProps.SendFacts` and `SendSpaced` state it |
| Provider.Accepted | server/src/services/game.service.ts:123-126 | a 200 whose body parsed to a document with an `items` root |
| Provider.Refused | server/src/services/game.service.ts:129 | a 401 or 403 answer |
| Provider.Busy | server/src/services/game.service.ts:133-134 | every other answer (202, 5xx, a 200 with no usable body), after which the loop pauses and tries again; a thrown request is not an answer and escapes the loop |
| Provider.Retry | server/src/services/game.service.ts:106-137 | the retrying `fetchXML` from attempt `i` on; `RetryFacts`, `RetryAllBusy`, `RetryStopsOnRefusal`, `RetryStopsOnSuccess`, `RetryParsedHasItems` and `RetrySpaced` state it, and `GameService.Service.FetchWithRetry` implements it |
| Provider.Fallback | server/src/services/game.service.ts:142-145 | the primary host's retry loop, then the mirror's when it gave null; `FallbackFacts`, `FallbackAllBusy` and `FallbackAfterRefusal` state it |
| Provider.Once | server/src/services/game.service.ts:48-64 | the single-attempt `fetchXML`: any 200 with a parsed body is returned, a thrown request escapes, anything else is null; `OnceWithFallbackFacts` states its use |
| Provider.OnceWithFallback | server/src/services/game.service.ts:70-71 | a single attempt on the primary host, then one on the mirror when it gave null; `OnceWithFallbackFacts` states it |
| Provider.SearchFast | server/src/services/game.service.ts:41-87 | `searchExternalFast`; `FacadeProps.SearchFastHit`, `SearchFastMiss` and `SearchFastSpaced` state it |
| Provider.Search | server/src/services/game.service.ts:89-208 | `searchExternal`; `FacadeProps.SearchHit`, `SearchMiss`, `SearchEmptyOnFailure`, `SearchEmptyOnThingFailure`, `SearchExactOnlyWithoutIds`, `SearchThingIdsBounded`, `SearchTwiceWithinTtl` and `SearchSpaced` state it |
| Provider.FetchThing | server/src/services/game.service.ts:211-254 | `fetchBggThing`; `FacadeProps.FetchThingFacts` states it |
| Provider.Spaced | server/src/services/game.service.ts:25-31 | the rate-gate invariant: each request starts at least 5000 ms after every earlier answered request ended; every `GameService.Service` method keeps it |
| ProviderProps.SendSpaced | server/src/services/game.service.ts:109-122 | a request keeps the spacing invariant |
| ProviderProps.RetryUnfoldsOnBusy | server/src/services/game.service.ts:133-134 | after a busy answer the loop pauses `900 + i*400` ms and goes on with attempt `i + 1` |
| ProviderProps.RetryFacts | server/src/services/game.service.ts:107-108 | the retry loop makes at least one and at most 4 attempts, all to the same host with the same parameters |
| ProviderProps.RetryParsedHasItems | server/src/services/game.service.ts:126 | the retry loop returns a parsed document only when it has an `items` root |
| ProviderProps.RetrySpaced | server/src/services/game.service.ts:106-137 | the retry loop keeps the spacing invariant |
| ProviderProps.NoSpacingAfterThrownCall | server/src/services/game.service.ts:110-122 | a request that throws does not refresh `lastExternalCall`, so the next request starts at the same instant |
| ProviderProps.RetryStopsOnRefusal | server/src/services/game.service.ts:129-131 | a 401 or 403 ends the loop with null after that one attempt |
| ProviderProps.RetryStopsOnSuccess | server/src/services/game.service.ts:123-126 | a 200 whose body has an `items` root is returned after that one attempt |
| ProviderProps.RetryAllBusy | server/src/services/game.service.ts:108-136 | when every answer is busy the loop makes exactly the remaining attempts and returns null |
| ProviderProps.FallbackFacts | server/src/services/game.service.ts:142-145 | a step makes 1 to 8 requests to the two hosts, reaches the mirror only when the primary gave null, and keeps the spacing invariant |
| ProviderProps.FallbackAllBusy | server/src/services/game.service.ts:171-174 | when every answer is busy a step makes 4 requests to the primary, then 4 to the mirror, and gives null |
| ProviderProps.FallbackAfterRefusal | server/src/services/game.service.ts:143-144 | a refusal by the primary host passes straight to the mirror's retry loop |
| ProviderProps.OnceWithFallbackFacts | server/src/services/game.service.ts:70-71 | a single-attempt step makes 1 or 2 requests, 2 exactly when the primary gave null, and keeps the spacing invariant |
| FacadeProps.SearchFastHit | server/src/services/game.service.ts:66-68 | a fast-cache hit returns the stored items and changes nothing, with no request |
| FacadeProps.SearchFastMiss | server/src/services/game.service.ts:70-86 | a fast-cache miss makes 1 or 2 search requests and returns at most 25 minimal records; the cache is written only on success |
| FacadeProps.SearchFastSpaced | server/src/services/game.service.ts:41-87 | the fast search keeps the spacing invariant |
| FacadeProps.SearchHit | server/src/services/game.service.ts:90-94 | a detailed-cache hit returns the stored items and changes nothing, with no request |
| FacadeProps.AfterIdsFacts | server/src/services/game.service.ts:142-165 | the exact-match search is sent if and only if the first search neither threw nor found an id |
| FacadeProps.SearchMiss | server/src/services/game.service.ts:102-207 | a detailed miss makes 1 to 24 requests and never fails, and the cache afterwards is the old cache with the result stored under the key |
| FacadeProps.SearchThingIdsBounded | server/src/services/game.service.ts:148-171 | every `thing` batch asks for between 1 and 25 ids |
| FacadeProps.SearchSpaced | server/src/services/game.service.ts:89-208 | the detailed search keeps the spacing invariant |
| FacadeProps.SearchExactOnlyWithoutIds | server/src/services/game.service.ts:154-158 | when the first search finds ids, no exact-match search is sent |
| FacadeProps.SearchEmptyOnThingFailure | server/src/services/game.service.ts:171-175 | when the `thing` batch fetch threw or gave null on both hosts, the search returns `[]` and leaves the cache alone |
| FacadeProps.SearchEmptyOnFailure | server/src/services/game.service.ts:167-168 | when the search steps threw or found no id, the search returns `[]` with no `thing` request and leaves the cache alone |
| FacadeProps.SearchTwiceWithinTtl | server/src/services/game.service.ts:90-94 | repeating a successful search within 15 minutes, with any query of the same key, returns the same records with no request |
| FacadeProps.FetchThingFacts | server/src/services/game.service.ts:235-253 | the lookup makes 1 or 2 requests and is rejected exactly when a request threw; it gives null exactly when there is no item, and otherwise the first item's detail |
| GameService.Service.constructor | server/src/services/game.service.ts:9-12 | a fresh service has `lastExternalCall = 0`, an empty cache and no call made |
| GameService.Service.Elapse | server/src/services/game.service.ts:26 | the clock moves forward between operations and the invariant still holds |
| GameService.Service.WaitBetweenCalls | server/src/services/game.service.ts:25-31 | after the wait at least 5000 ms have passed since the last call, with no wait when that already held |
| GameService.Service.CallProvider | server/src/services/game.service.ts:109-122 | one request, as `Send` specifies, keeping the invariant |
| GameService.Service.FetchWithRetry | server/src/services/game.service.ts:106-137 | the `for` loop with early returns computes `Retry` and keeps the invariant |
| GameService.Service.FetchWithFallback | server/src/services/game.service.ts:142-145 | the primary retry loop, then the mirror's only on null, as `Fallback` specifies |
| GameService.Service.FetchOnce | server/src/services/game.service.ts:48-64 | one unretried request that gives the parsed body of any 200, as `Once` specifies |
| GameService.Service.FetchOnceWithFallback | server/src/services/game.service.ts:70-71 | the single-attempt primary, then the mirror on null, as `OnceWithFallback` specifies |
| GameService.Service.SearchExternalFast | server/src/services/game.service.ts:41-87 | the fast search computes `SearchFast` and keeps the invariant |
| GameService.Service.SearchExternal | server/src/services/game.service.ts:89-208 | the detailed search computes `Search` and keeps the invariant |
| GameService.Service.FetchBggThing | server/src/services/game.service.ts:211-254 | the detail lookup computes `FetchThing` and keeps the invariant |
| Scenario.IdsOfOne | server/src/services/game.service.ts:148-151 | a single hit yields exactly its numeric id |
| Scenario.DetailOfThing | server/src/services/game.service.ts:179-194 | a `thing` item with a primary name and numeric fields becomes the expected record |
| Scenario.CatanSearch | server/src/services/game.service.ts:142-203 | with a hit and a `thing` answer, a cold search makes two requests and returns the one record |
| Scenario.CatanScenario | server/src/services/game.service.ts:89-94 | on a fresh service a second identical search returns the first one's records, after only two requests in all |
| SessionValidators.CreateSessionFields | server/src/validators/session.validators.ts:6-12 | a valid creation body has a 3–255 title, a 1–255 location, a non-empty start, and a known status if any |
| SessionValidators.Integer | server/src/validators/session.validators.ts:16 | `z.number().int()` |
| SessionValidators.PositiveInt | server/src/validators/session.validators.ts:16 | `z.number().int().positive()` |
| SessionValidators.IntAtLeastOne | server/src/validators/session.validators.ts:17 | `z.number().int().min(1)` |
| SessionValidators.StringWithin | server/src/validators/session.validators.ts:7 | `z.string().min(lo).max(hi)`; `TextFieldBounds` states it for each text field |
| SessionValidators.OneOf | server/src/validators/session.validators.ts:3 | `z.enum([...])` |
| SessionValidators.GameEntryOk | server/src/validators/session.validators.ts:15-18 | one `games` entry; `GameEntryRule` characterises it |
| SessionValidators.ParticipantOk | server/src/validators/session.validators.ts:23-26 | one `participants` entry; `ParticipantRule` characterises it |
| SessionValidators.SessionFieldOk | server/src/validators/session.validators.ts:7-28 | the rule for one key of a session body, with unknown keys ignored as zod strips them |
| SessionValidators.CreateSessionOk | server/src/validators/session.validators.ts:6-29 | `createSessionSchema`; `CreateSessionFields` and `TextFieldBounds` state it |
| SessionValidators.UpdateSessionOk | server/src/validators/session.validators.ts:31 | `createSessionSchema.partial()`; `UpdateAcceptsCreateAndEmpty` and `UpdateIsPartialCreate` state it |
| SessionValidators.ResultEntryOk | server/src/validators/session.validators.ts:36-40 | one `results` entry; `ResultEntryRule` characterises it |
| SessionValidators.RecordResultsOk | server/src/validators/session.validators.ts:33-42 | `recordResultsSchema`; `RecordResultsRule` states it |
| SessionValidators.RespondParticipationOk | server/src/validators/session.validators.ts:44-46 | `respondParticipationSchema`; `RespondRule` characterises it |
| SessionValidators.TextFieldBounds | server/src/validators/session.validators.ts:7-11 | each text field is accepted if and only if its length is within its bounds |
| SessionValidators.GameEntryRule | server/src/validators/session.validators.ts:13-20 | a game entry is accepted if and only if `gameId` and `order` are integers of at least 1, and an empty list is accepted |
| SessionValidators.ParticipantRule | server/src/validators/session.validators.ts:21-28 | a participant is accepted if and only if `userId` is a positive integer and any invitation status is PENDING, ACCEPTED or DECLINED |
| SessionValidators.UpdateAcceptsCreateAndEmpty | server/src/validators/session.validators.ts:31 | every valid creation body and the empty object are valid updates |
| SessionValidators.UpdateIsPartialCreate | server/src/validators/session.validators.ts:31 | a patch is a valid update if and only if it turns a valid creation body into another valid one |
| SessionValidators.ResultEntryRule | server/src/validators/session.validators.ts:35-41 | a result is accepted if and only if `userId` is positive, `score` is an integer of any sign and `playerRank` is at least 1 |
| SessionValidators.RecordResultsRule | server/src/validators/session.validators.ts:33-42 | a positive integer `sessionGameId` with an empty result list is accepted, and a missing list is rejected |
| SessionValidators.RespondRule | server/src/validators/session.validators.ts:44-46 | a response is accepted if and only if its status is ACCEPTED or DECLINED, so PENDING is rejected |

## Left out

- HTTP is not modelled: `axios.get`, the URLs, headers, user agent, bearer token, cookie and timeouts. Each request's outcome is the next reply in the oracle sequence. When the sequence is used up, the next request reads as a thrown network error that took 0 ms.
- XML decoding (`fast-xml-parser`) is not modelled. The parsed tree is an input datatype (`BggXml.Doc`, `Item`). A 200 answer whose body fails to parse is a 200 with no body.
- `JsText.ParseNum`: `Number()` is modelled only on optionally signed decimal integers after trimming, with the empty string read as 0. Fractions, exponents, hex and `Infinity` read as not finite. The model has no floating point.
- `JsText.ToLower`: folds ASCII letters only, where `toLowerCase` folds all of Unicode.
- `SessionValidators.IsInt`: JSON numbers are exact reals, not IEEE doubles. A literal too large for a double (`1e400`) reads in JavaScript as `Infinity`, which zod's `.int()` rejects, but here it is an integer and is accepted. A literal that rounds to an integer (`1.0000000000000001` reads as `1`) is accepted by zod but rejected here. Rounding and finiteness of doubles are not modelled.
- `SessionValidators.StringWithin`: zod counts string length in UTF-16 code units, and the model counts characters.
- Real time is not modelled: `Date.now` and `setTimeout`. The clock is an integer that only waits, replies and `Elapse` move, and timers never overshoot.
- Concurrency is not modelled. Overlapping async searches share `lastExternalCall` and the cache without locking. The spacing invariant holds for one caller at a time.
- Configuration is not modelled: the `env` interval override, the token, the cookie and `NODE_ENV` logging. `MIN_INTERVAL_MS` is the 5000 ms fallback. `console` output is not modelled.
- `GameService.listLocal`, `saveGame` and `updateImageUrl` are not part of this model. They are persistence wrappers over the ORM; the upsert-or-create branch in `saveGame` is not modelled.
- The route's rule that queries have at least 2 characters lives in the controller, which is not part of this model. The facades accept any string.
- JavaScript values outside the datatypes are not modelled: for example a `name` attribute holding a number, or a `thumbnail` that is not a string. An `@_id` that is missing becomes the string `undefined`, as `String(undefined)` does.
