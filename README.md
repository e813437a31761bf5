# Translation extension: background pipeline in Dafny

This project models the background translation pipeline of a browser extension. The pipeline works in six steps:

- A runtime message from a page reaches the service worker, which checks and trims the text.
- The worker lazily builds a `Translator` from the configuration stored in `browser.storage.sync`.
- The `Translator` first checks an expiring cache kept in `browser.storage.local`.
- It then asks the Volcengine service, and falls back to the Microsoft translator.
- A successful answer is written through to the cache.
- The worker finally prepends the result to a capped, newest-first history list.

The model also covers the small pure parts:
- the script-based language detector;
- the cache key's 32-bit string hash, printed in base 36;
- the configuration merge over stored defaults.

How the model is built:
- **Text.** User text is `seq<CodeUnit>`, UTF-16 code units 0..65535, because JavaScript indexes strings by unit. Keys, language codes and messages are `string`.
- **Storage.** The two storage areas are objects: `Platform.LocalArea` and `Platform.SyncArea`, each with a `map` field.
  - The cache, history and configuration operations are methods that update those maps in place.
  - Each method's `ensures` ties the new map to a specification function. Examples: `Cache.CacheSet`, `Storage.HistoryAdded`, `Storage.StoreConfig`.
  - The lemmas are stated about those functions.
- **Translator object.** `Translator.Translator` holds the provider handles fixed by its constructor. Its `Translate` method performs the step sequence in place. Its contract equates the result, the new cache contents and the requests sent with `Translator.RunTranslate`.
- **Service worker.** `ServiceWorker.ServiceWorker` is a state machine over its optional translator. Its handlers are tied in the same way to `HandleRun`, `Dispatch` and `ReloadsOn`.
- **Outside world.** Everything from outside the program is a parameter. A `Translator.World` holds:
  - the clock;
  - each provider's HTTP outcome, a status with a parsed body or a transport failure;
  - whether each storage write is accepted: the cache write after Volcengine, the cache write after Microsoft, and the history write, each on its own.
- **Provider requests.** The requests sent to the providers are recorded as a ghost trace, so properties such as "Microsoft is never called" can be stated.

JavaScript semantics are written out where they matter:
- `<<` and `&` wrap to signed 32 bits (`Cache.ToInt32`).
- `||` on strings tests for non-empty (`Types.Truthy`).
- A default parameter applies only to an absent argument (`Types.GetOr`). So an empty region string is kept.
- Object spread is a field-wise preference (`Storage.Merge`).
- `Array.prototype.slice(0, end)` treats a negative end specially (`Storage.SliceTo`).
- `String.prototype.trim` strips the ECMAScript white-space and line-terminator units (`ServiceWorker.Trim`).

Behaviour of the code that a reader might not expect, all of it modelled as written:
- **"Not configured" error.** The error is also raised when a Volcengine handle exists but its attempt failed and there is no Microsoft handle (src/api/translator.ts:42-64).
- **Fixed error messages.** Both thrown errors carry fixed messages. The providers' own error detail is dropped.
- **Secret key.** The `Translator` constructor passes only the access key to Volcengine. So the secret key sent is always the empty string, whatever is configured (src/api/translator.ts:17).
- **History write failure.** A rejected history write after a successful translation makes the handler reject. The router then turns that into an error reply.
- **Result holds "auto".** A `TranslationResult` can carry `sourceLang == "auto"` when the provider reports no detected language.
- **Hash collisions.** The cache hash is not injective. "Aa" and "BB" share a cache entry, so a read for one can return the other's translation (`Cache.CollidingTextsShareEntries`).
- **History on cache hits.** The service worker adds every successful result to the history, including one served from the cache, so repeating a translation adds it again (src/background/service-worker.ts:41-44).
- **Rejected cache write.** When Volcengine answers but its cache write is rejected, its answer is dropped and Microsoft is asked; Microsoft's answer is returned if its own cache write is accepted (`Translator.RejectedWriteFallsBack`).
- **Usage statistics.** Nothing in the pipeline counts usage.

## Model

| member | source | states |
|---|---|---|
| Types.ProviderFromId | src/types/index.ts:11 | a provider string reads back only as one of the two providers, and each provider's identifier reads back as itself |
| Types.LanguageFromCode | src/types/index.ts:33 | a language code reads back exactly as the union member with that code |
| Types.NineLanguages | src/types/index.ts:33 | the language union has exactly nine members with nine distinct codes, "auto" among them |
| Language.Detect | src/utils/language.ts:7-30 | each answer holds exactly when its range test is the first one, in the order Han, kana, hangul, Cyrillic, that succeeds; otherwise the answer is English; never "auto" |
| Language.GetTargetLanguage | src/utils/language.ts:35-40 | Chinese maps to "en"; every other source maps to the given default, or "zh" when none is given |
| Language.DetectConcat | src/utils/language.ts:7-30 | detecting a concatenation gives the higher-priority of the two parts' answers |
| Language.HanDominates | src/utils/language.ts:9-11 | text detected as Chinese stays Chinese whatever is added before or after it |
| Language.DetectEmpty | src/utils/language.ts:29 | the empty string is detected as English |
| Language.DetectIsScan | src/utils/language.ts:7-30 | the ordered range tests agree with an independent per-code-unit classification that keeps the highest priority |
| Language.TargetDiffersFromSource | src/utils/language.ts:35-40 | with no default given, the chosen target never equals the detected source |
| Cache.ToInt32 | src/utils/cache.ts:16-17 | the result is a signed 32-bit value, and a value already in range is unchanged |
| Cache.HashStepIsPolynomial | src/utils/cache.ts:16-17 | the step `((h << 5) - h) + c` followed by `hash & hash` equals `31*h + c` wrapped to signed 32 bits |
| Cache.HashString | src/utils/cache.ts:12-20 | the printed hash is non-empty, made only of base-36 digits, with no sign and no leading zero, and it denotes the absolute value of the fold of `31*h + c` over the code units from 0 |
| Cache.HashCode | src/utils/cache.ts:12-20 | the loop over the code units, taking the step as written, returns exactly the printed hash |
| Cache.Base36 | src/utils/cache.ts:19 | the printed form is non-empty, uses only base-36 digits, and starts with "0" only for zero |
| Cache.Base36RoundTrip | src/utils/cache.ts:19 | reading the base-36 text back gives the number printed |
| Cache.CacheKey | src/utils/cache.ts:8-10 | the key is the prefix, the language, "_" and the hash, so equal inputs give equal keys |
| Cache.Key | src/utils/cache.ts:8-10 | the key method returns the cache key of its inputs |
| Cache.CacheKeyInjective | src/utils/cache.ts:8-10 | two equal keys have equal target languages and equal text hashes |
| Cache.HashStepAsWritten | src/utils/cache.ts:16-17 | definition of one loop step with the shift and the `&` as written; equal to the polynomial step by `Cache.HashStepIsPolynomial`, and used by `Cache.HashCode` |
| Cache.HashFold | src/utils/cache.ts:13-18 | definition of the folded hash state from 0, always a signed 32-bit value; `Cache.HashCode` is proved to compute it |
| Cache.Lookup | src/utils/cache.ts:22-37 | an absent key misses and changes nothing; an entry with `now > expiry` is removed and misses; an entry with `now <= expiry` is returned as stored with nothing changed; no key is added |
| Cache.CacheSet | src/utils/cache.ts:39-48 | only the text's own key is (over)written, with the result and expiry now + 604800000 ms; every other key is unchanged |
| Cache.CacheClear | src/utils/cache.ts:50-54 | exactly the keys starting with the prefix are removed; all other keys keep their values |
| Cache.CacheGet | src/utils/cache.ts:22-37 | definition of `get` as a lookup of the text's cache key; its cases are stated by `Cache.Lookup`, and its properties by `Cache.SetThenGet`, `Cache.ExpiredGetEvicts`, `Cache.GetIdempotent` and `Cache.ClearThenGet` |
| Cache.SetThenGet | src/utils/cache.ts:22-48 | a read at any time up to the write time plus the TTL returns what was written, and changes nothing |
| Cache.ExpiredGetEvicts | src/utils/cache.ts:31-34 | a read past the expiry removes the entry, and the next read is a plain miss |
| Cache.GetIdempotent | src/utils/cache.ts:22-37 | a second read at the same instant returns the same as the first and changes nothing further |
| Cache.ClearThenGet | src/utils/cache.ts:50-54 | after clear, every cache read misses |
| Cache.HashCollision | src/utils/cache.ts:12-20 | "Aa" and "BB" have the same hash and therefore the same cache key |
| Cache.CollidingTextsShareEntries | src/utils/cache.ts:22-48 | after caching a result for "Aa", a read for "BB" returns that result |
| Cache.Get | src/utils/cache.ts:22-37 | the method's answer and the new local area are those of the lookup |
| Cache.Set | src/utils/cache.ts:39-48 | an accepted write leaves the area as `CacheSet` describes; a rejected one leaves it unchanged and is reported |
| Cache.Clear | src/utils/cache.ts:50-54 | the area afterwards is the cleared map |
| Storage.Prefer | src/utils/storage.ts:14 | a field present in the later spread wins, and otherwise the earlier value is kept |
| Storage.Overlay | src/utils/storage.ts:19 | definition of spreading a partial record over another, field by field; used by `Storage.StoreConfig`, with `Storage.SetConfigEffect` and `Storage.SetConfigIdempotent` proved over it |
| Storage.Merge | src/utils/storage.ts:14 | every field comes from the override when present and from the base otherwise |
| Storage.GetConfig | src/utils/storage.ts:12-15 | with nothing stored the configuration is the defaults; otherwise stored fields win over the defaults |
| Storage.NothingStoredGivesDefaults | src/utils/storage.ts:4-15 | an empty store reads as target "zh", auto-detect on, cache on, 100 history items and no keys |
| Storage.StoreConfig | src/utils/storage.ts:17-20 | only the "config" key of the sync area is written |
| Storage.SetConfigEffect | src/utils/storage.ts:17-20 | after `setConfig(p)`, the fields in p read back as p's and all other fields as before |
| Storage.SetConfigIdempotent | src/utils/storage.ts:17-20 | `setConfig(p)` twice leaves the same store as once |
| Storage.SetConfig | src/utils/storage.ts:17-20 | the method leaves the sync area as the read-modify-write describes |
| Storage.GetHistory | src/utils/storage.ts:32-35 | the stored list is returned, or the empty list when nothing is stored |
| Storage.SliceTo | src/utils/storage.ts:27 | the slice is a prefix of its input of length min(len, end) for end >= 0 and max(len + end, 0) for a negative end |
| Storage.PushHistory | src/utils/storage.ts:24-27 | definition of `unshift` then `slice(0, max)`; its shape is proved by `Storage.PushHistoryShape` and repeated use by `Storage.ReplayKeepsMostRecent` |
| Storage.HistoryAdded | src/utils/storage.ts:22-30 | definition of the local area after an accepted `addHistory`: "history" holds the pushed list, capped by the stored maximum; used by `Storage.AddHistory` and `ServiceWorker.Finish` |
| Storage.PushHistoryShape | src/utils/storage.ts:22-29 | after adding, the length is min(old + 1, max); the first entry is the new result; the rest is a prefix of the old history in order |
| Storage.ReplayKeepsMostRecent | src/utils/storage.ts:22-29 | a history within the cap, after any sequence of additions, holds exactly the newest entries first, up to the cap |
| Storage.HistoryRetention | src/utils/storage.ts:22-29 | from an empty history, repeated additions keep the last max results, newest first |
| Storage.AddHistory | src/utils/storage.ts:22-30 | an accepted write stores the prepended and truncated list; a rejected one changes nothing and returns the rejection message |
| Storage.ClearHistory | src/utils/storage.ts:37-39 | only the "history" key is removed |
| Storage.ClearHistoryThenGet | src/utils/storage.ts:32-39 | after clearing, the history reads as empty and no cache key is touched |
| Storage.HistoryKeyIsNotCacheKey | src/utils/storage.ts:29 | the "history" key never collides with a cache key |
| Storage.CacheSetKeepsLayout | src/utils/cache.ts:39-48 | a cache write keeps the local area holding only self-keyed cache items and the history list |
| Storage.CacheGetKeepsLayout | src/utils/cache.ts:22-37 | a cache read, including its eviction, keeps that layout |
| Storage.CacheClearKeepsLayout | src/utils/cache.ts:50-54 | clearing the cache keeps that layout |
| Storage.HistoryAddedKeepsLayout | src/utils/storage.ts:22-30 | a history addition keeps that layout |
| Storage.HistoryRemovalKeepsLayout | src/utils/storage.ts:37-39 | removing the history keeps that layout |
| Storage.WellFormedReadsItems | src/utils/cache.ts:26-28 | in a well-formed local area, a hit on a cache key is always a cache item |
| Storage.ClearKeepsHistory | src/utils/cache.ts:50-54 | clearing the cache leaves the history as it was |
| Volcengine.New | src/api/volcengine.ts:8-11 | the access key is kept, and an absent secret key is stored as "" |
| Volcengine.BuildRequest | src/api/volcengine.ts:19-31 | a POST to the service URL with both key headers and a body carrying the source, the target and the text unchanged; absent languages are "auto" and "zh" |
| Volcengine.FirstDst | src/api/volcengine.ts:41 | a nested translation is found only in the first element of a non-empty `trans_result` |
| Volcengine.TranslatedText | src/api/volcengine.ts:41 | definition of the `\|\|` chain for the translated text; its three cases are stated in `Volcengine.Translate` |
| Volcengine.Translate | src/api/volcengine.ts:13-51 | a result iff the status is 2xx, and otherwise the status or transport error; translated text by the fallback chain direct field, then first nested result, then the input; detected source language first; input text, target and provider echoed |
| Volcengine.AutoSurvivesWithoutDetection | src/api/volcengine.ts:42 | an answer without a detected language carries "auto" as the source language |
| Microsoft.New | src/api/microsoft.ts:8-11 | the key is kept; an absent region becomes "eastasia" and a given one is kept |
| Microsoft.QueryParams | src/api/microsoft.ts:19-26 | `api-version=3.0` and `to` always; `from` present iff the source is not "auto", and then it carries the source |
| Microsoft.BuildRequest | src/api/microsoft.ts:28-36 | a POST to the translate path with the key and region headers and the one-element body `[{text}]`; absent languages are "auto" and "zh-Hans" |
| Microsoft.Translate | src/api/microsoft.ts:13-57 | a result iff the status is 2xx and the first entry has a translation; otherwise the status, transport or malformed-response error; translated text from the first translation; detected language first; input text, target and provider echoed |
| Microsoft.DetectedLanguage | src/api/microsoft.ts:48 | definition of `detectedLanguage?.language`; how it chooses the source language is stated in `Microsoft.Translate` |
| Microsoft.EmptyRegionIsKept | src/api/microsoft.ts:8 | an empty region stays empty; only an absent one becomes "eastasia" |
| Translator.VolcengineHandle | src/api/translator.ts:16-18 | the handle exists iff the access key is non-empty, and then it has that key and an empty secret key |
| Translator.MicrosoftHandle | src/api/translator.ts:20-25 | the handle exists iff the key is non-empty, and then it has that key and the configured region or "eastasia" |
| Translator.Deliver | src/api/translator.ts:43-49 | the attempt returns iff the provider succeeded and the cache write was accepted, and it then holds the provider's result with the cache written; otherwise the area is unchanged |
| Translator.RunTranslate | src/api/translator.ts:28-65 | definition of the whole step sequence (cache read, Volcengine, Microsoft, the two errors); `Translator.Translator.Translate` is proved to perform it, and its properties are the `Translator` lemmas below |
| Translator.Translator.constructor | src/api/translator.ts:12-26 | the handles are those the configuration determines |
| Translator.Translator.Translate | src/api/translator.ts:28-65 | the returned value or error, the new cache area and the requests sent are those of the step sequence, with target defaulted to the configured one |
| Translator.CacheHitSkipsProviders | src/api/translator.ts:33-38 | with caching on, a live entry is returned as stored, no request is sent and the area is unchanged |
| Translator.DisabledCacheIsNotRead | src/api/translator.ts:33-39 | with caching off, the result and the requests do not depend on what the cache holds |
| Translator.WriteThrough | src/api/translator.ts:33-57 | a provider's result has been written to the cache even with caching off; a thrown error leaves only the effect of the cache read |
| Translator.VolcengineFirst | src/api/translator.ts:42-47 | an existing Volcengine is asked first; when it succeeds and its cache write is accepted, Microsoft is never asked |
| Translator.FallbackToMicrosoft | src/api/translator.ts:42-61 | when the Volcengine step does not return (absent, failed, or cache write rejected), Microsoft is asked last; its success with an accepted cache write is returned with provider Microsoft, and otherwise the call fails with "all services unavailable" |
| Translator.RejectedWriteFallsBack | src/api/translator.ts:42-57 | a Volcengine answer whose cache write is rejected is dropped; a Microsoft answer whose own write is accepted is then returned and cached, after two requests |
| Translator.NoServiceConfiguredExactly | src/api/translator.ts:42-64 | on a miss, "no service configured" is thrown exactly when there is no Microsoft handle and the Volcengine step did not return |
| Translator.FailedVolcengineReadsAsNotConfigured | src/api/translator.ts:42-64 | a configured Volcengine with a network failure and no Microsoft key ends in "no service configured" after one request |
| Translator.CallsAreOrdered | src/api/translator.ts:44-55 | at most two requests, Volcengine before Microsoft, each for the given text with source "auto" and the given target |
| Translator.NoCredentialsNoCalls | src/api/translator.ts:16-64 | without any key, a miss throws "no service configured" and sends nothing |
| Translator.RepeatServedFromCache | src/api/translator.ts:33-57 | with caching on, repeating a provider-answered call within the TTL sends nothing and returns the same result |
| Translator.TranslateKeepsLayout | src/api/translator.ts:28-65 | the call keeps the local area's layout of cache items and history |
| ServiceWorker.TrimStart | src/background/service-worker.ts:21 | the result is a suffix that does not start with white space, and everything dropped is white space |
| ServiceWorker.TrimEnd | src/background/service-worker.ts:21 | the result is a prefix that does not end with white space, and everything dropped is white space |
| ServiceWorker.TrimIsInfix | src/background/service-worker.ts:21 | the trimmed text is a contiguous piece of the input |
| ServiceWorker.TrimEnds | src/background/service-worker.ts:21 | the trimmed text has no white space at either end |
| ServiceWorker.TrimEmptyIff | src/background/service-worker.ts:21 | the trimmed text is empty iff the input is all white space |
| ServiceWorker.FinishKeepsLayout | src/background/service-worker.ts:41-46 | the steps after `translate` keep the local area's layout |
| ServiceWorker.TrimIdempotent | src/background/service-worker.ts:41 | trimming twice is trimming once |
| ServiceWorker.ValidatedText | src/background/service-worker.ts:21-27 | text is accepted iff it is a string whose trim is non-empty, and then it is the trimmed string |
| ServiceWorker.TargetLanguage | src/background/service-worker.ts:38 | the given target when non-empty, otherwise "zh"; never empty |
| ServiceWorker.Finish | src/background/service-worker.ts:41-46 | the reply is a success iff the translation succeeded and the history write was accepted; only then is history written, led by the result; otherwise the handler rejects with the error message |
| ServiceWorker.Trim | src/background/service-worker.ts:21 | definition of `trim` as trimming the start and then the end; proved by `ServiceWorker.TrimIsInfix`, `ServiceWorker.TrimEnds`, `ServiceWorker.TrimEmptyIff` and `ServiceWorker.TrimIdempotent` |
| ServiceWorker.InUse | src/background/service-worker.ts:29-31 | definition of the lazy initialisation: the existing translator, or one built from the stored configuration; stated by `ServiceWorker.TranslatesTrimmedText` |
| ServiceWorker.HandlesOf | src/api/translator.ts:12-26 | definition of what a newly constructed translator holds, from `Translator.VolcengineHandle` and `Translator.MicrosoftHandle` |
| ServiceWorker.HandleRun | src/background/service-worker.ts:17-47 | definition of `handleTranslate`: validation, lazy initialisation, `translate`, then `ServiceWorker.Finish`; its properties are proved by `ServiceWorker.InvalidTextTouchesNothing` and `ServiceWorker.TranslatesTrimmedText` |
| ServiceWorker.Dispatch | src/background/service-worker.ts:50-76 | definition of the message router; its routes are proved by `ServiceWorker.TranslateRouteAlwaysReplies` and `ServiceWorker.OtherRoutes` |
| ServiceWorker.ReloadsOn | src/background/service-worker.ts:108-111 | definition of when a storage change rebuilds the translator: the sync area and a change to "config"; used by `ServiceWorker.ServiceWorker.OnStorageChanged` |
| ServiceWorker.InvalidTextTouchesNothing | src/background/service-worker.ts:21-27 | missing, non-string or blank text gets the fixed error reply, with the translator, the storage and the providers untouched |
| ServiceWorker.WhitespaceOnlyIsRejected | src/background/service-worker.ts:21 | text made only of white space is rejected, whatever its length |
| ServiceWorker.TranslatesTrimmedText | src/background/service-worker.ts:29-41 | accepted text is translated trimmed with the defaulted target, by the existing translator or, when there is none, by one newly built from the stored configuration |
| ServiceWorker.TranslateRouteAlwaysReplies | src/background/service-worker.ts:53-61 | the TRANSLATE route always answers with a result or an error reply |
| ServiceWorker.OtherRoutes | src/background/service-worker.ts:64-75 | RELOAD_CONFIG rebuilds the translator and answers success, GET_SELECTION answers empty text, anything else gets no answer; none of them sends a request or touches storage |
| ServiceWorker.DispatchKeepsLayout | src/background/service-worker.ts:50-76 | every message keeps the local area's layout |
| ServiceWorker.ServiceWorker.constructor | src/background/service-worker.ts:5-6 | the worker starts without a translator |
| ServiceWorker.ServiceWorker.InitTranslator | src/background/service-worker.ts:9-12 | the translator is replaced by a new one built from the stored configuration, caching into the worker's local area |
| ServiceWorker.ServiceWorker.HandleTranslate | src/background/service-worker.ts:17-47 | the reply, the translator afterwards, the new local area and the requests are those `HandleRun` describes |
| ServiceWorker.ServiceWorker.OnMessage | src/background/service-worker.ts:50-76 | the reply, state, local area and requests are those the router describes |
| ServiceWorker.ServiceWorker.OnStorageChanged | src/background/service-worker.ts:108-111 | the translator is rebuilt iff the change is in the sync area and touches "config"; otherwise it is kept |

## Left out

- Network, storage and clock: `fetch`, `browser.storage.*` and `Date.now()` are parameters of the model. An HTTP outcome is a status with an already parsed body, or a transport failure. A storage write is accepted or rejected.
- Storage reads and removals always succeed. So the branch at src/background/service-worker.ts:33-35, which covers a translator that stays null after initialisation, cannot be reached and is not modelled.
- The string fallback `'翻译失败'` at src/background/service-worker.ts:59 applies only to non-`Error` values thrown. Every error in the model is an `Error`, so that fallback is not modelled.
- Sync-area write failures in `setConfig` are not modelled. Nor are bodies that fail to parse as JSON, or a `null` body.
- Microsoft.BuildRequest: the query string is kept as a list of name/value pairs. The percent-encoding applied by `URLSearchParams` is not modelled.
- Volcengine.Translate: a present but non-string `translation`, `dst` or `source_language` field is not modelled. Only absent, empty and non-empty strings are.
- ServiceWorker.TargetLanguage: a non-string `targetLang` value is not modelled. Only absent and string values are.
- Concurrency: every handler and storage operation runs atomically, in sequence. The un-awaited `initTranslator()` of the storage-change listener completes within that event. The one at module load is modelled as not yet finished when the first message arrives, so the first TRANSLATE takes the lazy path; a call of `ServiceWorker.ServiceWorker.InitTranslator` models its completion.
- Console output is left out.
- The keyboard command handler (src/background/service-worker.ts:79-105) is left out. It is tab-messaging plumbing.
- The user-interface, content-script and build files are left out. They are rendering, DOM events and bundler configuration.
- Each event receives one `World`: one clock value and one outcome per provider request and per storage write within that event.
- Microsoft.Translate: a first translation whose `text` is missing or not a string is not modelled. The source then returns `undefined` as the translated text instead of failing; the model's entries always carry a string.
