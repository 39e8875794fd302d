# Autonomys agents: memory anchoring, timeline tweets and character configs in Dafny

This project models three pieces of the Autonomys agents framework and proves properties of them.

- **Memory anchoring** (`Retry.dfy`, `DsnUpload.dfy`). An agent's memory snapshot is stored as a chain of records. The agent reads the last CID (content identifier) from the ledger contract and signs `{data, previousCid, timestamp}`. It uploads the record to the DSN (distributed storage network) with retries, then hashes the CID the upload returns. Finally it submits that hash to the contract, with retries, under the next transaction nonce. The nonce counter is module-level state. It is seeded from the wallet once and advanced with `currentNonce++`.
  - `Retried` is the retry executor `withRetry` written as a function. `WithRetry` is the same executor as a loop, proved equal to `Retried`.
  - `Anchor` is `uploadToDsn` written as a function of its foreign calls and of the counter.
  - `MemoryUploader` is a class. Its `currentNonce` field is the module-level counter. Its `UploadToDsn` method runs the steps one by one and is proved to match `Anchor`.
- **Timeline tweets** (`Timeline.dfy`, with JavaScript values in `JsonValue.dfy`). `convertTimelineTweetToTweet` turns a timeline entry, given as loose JSON, into a `Tweet` record. The model keeps JavaScript's truthiness, `||` and `?.` semantics. It includes the `TypeError`s the code throws on unexpected shapes. Quoted tweets are converted recursively, up to a depth limit.
- **Character configs** (`Characters.dfy`). This is `loadCharacter` after the YAML has been parsed. It checks the two required sections, fills every default and rewraps errors with the character's name.

Foreign calls are parameters:
- storage upload, ledger read and write, signing, CID hashing, the clock, and `Math.random` (a jitter oracle in [0.85, 1.15));
- in `loadCharacter`, the file read plus YAML parse;
- a retried operation is an oracle `(request, k) -> Outcome`, where `k` is the attempt number.

Shared `Option`/`Result` types are in `Wrappers.dfy`.

Three behaviours of the code that the model keeps as written:
- `getPreviousCid` has no catch and is called outside the `try`, so a failed ledger read propagates (`GetPreviousCid`, `Anchor`).
- When retries run out, `withRetry` rethrows the last error unchanged, without the operation name or the attempt count (`Retried`).
- Every call reads the previous CID from the ledger; nothing in the process remembers the last CID it stored.

## Model

| member | source | states |
|---|---|---|
| Retry.Attempt | auto-agents-framework/src/agents/tools/utils/dsnUploadToolUtils.ts:28-47 | From invocation `k` with `retriesLeft` retries: stops at the first resolved invocation and returns its value. All earlier invocations rejected. On exhaustion exactly `k + AttemptBudget(retriesLeft)` invocations are made and the last error is returned unchanged. |
| Retry.AttemptBudget | auto-agents-framework/src/agents/tools/utils/dsnUploadToolUtils.ts:32-35 | When every attempt fails: `maxRetries + 1` invocations for `maxRetries >= 0`, and 1 for `maxRetries <= 0`. |
| Retry.NextDelay | auto-agents-framework/src/agents/tools/utils/dsnUploadToolUtils.ts:44 | The next delay is `prev * 2 * jitter` unless that exceeds 30000, and then exactly 30000; it never exceeds 30000. |
| Retry.Retried | auto-agents-framework/src/agents/tools/utils/dsnUploadToolUtils.ts:14-50 | `withRetry`: between 1 and `AttemptBudget(maxRetries)` invocations. Success returns the first resolved value with no further calls. Failure means all `AttemptBudget(maxRetries)` invocations rejected, and the last error is rethrown as is. |
| Retry.WithRetry | auto-agents-framework/src/agents/tools/utils/dsnUploadToolUtils.ts:14-50 | The countdown loop returns the same result and attempt count as `Retried`. Its sleeps are exactly the first `attempts - 1` entries of the `Delay` schedule. |
| Retry.Delay | auto-agents-framework/src/agents/tools/utils/dsnUploadToolUtils.ts:41-45 | The k-th wait. The first is `initialDelayMs`. Each later wait is `min(prev * 2 * jitter, 30000)` and so is at most 30000. It is non-negative, or positive, when the initial delay is. |
| Retry.Waits | auto-agents-framework/src/agents/tools/utils/dsnUploadToolUtils.ts:37-45 | The sequence of the first `n` waits, in order. |
| Retry.DefaultBudget | auto-agents-framework/src/agents/tools/utils/dsnUploadToolUtils.ts:17-19 | With the default 5 retries: at most 6 invocations. The call fails iff all of the first 6 reject, and then exactly 6 are made. |
| Retry.DelayGrowth | auto-agents-framework/src/agents/tools/utils/dsnUploadToolUtils.ts:43-44 | Each later wait is between `min(1.7 * prev, 30000)` and `min(2.3 * prev, 30000)`. |
| Retry.DelayNonDecreasing | auto-agents-framework/src/agents/tools/utils/dsnUploadToolUtils.ts:43-44 | If the initial delay is within [0, 30000], the waits never shrink. |
| Retry.DefaultScheduleStart | auto-agents-framework/src/agents/tools/utils/dsnUploadToolUtils.ts:18-45 | With the default initial delay, the first wait is 1000 ms and the second is in [1700, 2300). |
| DsnUpload.GetPreviousCid | auto-agents-framework/src/agents/tools/utils/dsnUploadToolUtils.ts:52-59 | The ledger's last CID, or `''` when it is undefined or empty. A failed ledger read propagates with the same error. |
| DsnUpload.NullIfEmpty | auto-agents-framework/src/agents/tools/utils/dsnUploadToolUtils.ts:117 | `previousCid`, or null when empty: null exactly for `''`, otherwise the CID. |
| DsnUpload.DsnRecord | auto-agents-framework/src/agents/tools/utils/dsnUploadToolUtils.ts:80-85 | The record's keys are the data's keys plus `previousCid`, `signature` and `timestamp`. Those three hold the given values and override same-named data fields. Every other data field is kept. |
| DsnUpload.RecordRecoversSignedPayload | auto-agents-framework/src/agents/tools/utils/dsnUploadToolUtils.ts:74-85 | If the data uses none of the three reserved names, the stored record gives back exactly the signed `{data, previousCid, timestamp}` and the signature. |
| DsnUpload.UploadOptionsFor | auto-agents-framework/src/agents/tools/utils/dsnUploadToolUtils.ts:97-100 | Compression is on. The password is the configured one, or undefined when the configured password is unset or empty. |
| DsnUpload.MemoryFileName | auto-agents-framework/src/agents/tools/utils/dsnUploadToolUtils.ts:92 | The file name starts with `<username>-agent-memory-`, ends with `.json`, and the timestamp is exactly what lies between. |
| DsnUpload.UploadRequestFor | auto-agents-framework/src/agents/tools/utils/dsnUploadToolUtils.ts:80-100 | The uploaded file holds the data overlaid with the signed `previousCid`, the signature and the signed timestamp, is named `<username>-agent-memory-<timestamp>.json`, has type `application/json`, and is sent with the configured options. |
| DsnUpload.PayloadFor | auto-agents-framework/src/agents/tools/utils/dsnUploadToolUtils.ts:70-78 | Once the ledger read succeeds, the signed message is `{data, previousCid, now}` with the resolved previous CID. |
| DsnUpload.SubmitStep | auto-agents-framework/src/agents/tools/utils/dsnUploadToolUtils.ts:107-118 | The counter has moved to `nonce + 1` whatever the submission does. The trace records `Submission(hash, nonce)` and the attempts the retried submission took. The call rethrows the submission's last error, or resolves with `{success: true, cid, previousCid or null}`. |
| DsnUpload.UploadStep | auto-agents-framework/src/agents/tools/utils/dsnUploadToolUtils.ts:97-107 | After signing: the trace records the payload, the upload request and the upload's attempts. A failed upload or a CID that cannot be hashed rethrows that error with nothing submitted and the counter unchanged; otherwise the submission step follows with that hash. |
| DsnUpload.Anchor | auto-agents-framework/src/agents/tools/utils/dsnUploadToolUtils.ts:69-123 | The steps run in order and the first error is rethrown as is: a failed ledger read fails the call with an empty trace; a failed signature fails it after signing only; after that the call is the upload step. The counter grows by 1 exactly when a hash is submitted, and the submission carries the old counter value. Without a submission the call fails. Upload and submission each make at most 6 attempts; an upload rejected on all 6 submits nothing. On success: the signed payload is `{data, previousCid, now}`, the CID is the upload's last resolved value, the submitted hash is that CID's hash, and the result is `{success: true, cid, previousCid or null}`. |
| DsnUpload.SignFailureFailsCall | auto-agents-framework/src/agents/tools/utils/dsnUploadToolUtils.ts:74-121 | A failed signature is rethrown; nothing is uploaded or submitted and the counter is unchanged. |
| DsnUpload.UploadFailureFailsCall | auto-agents-framework/src/agents/tools/utils/dsnUploadToolUtils.ts:97-121 | An upload rejected on all 6 attempts fails the call with the 6th attempt's error after exactly 6 attempts; nothing is submitted and the counter is unchanged. |
| DsnUpload.HashFailureFailsCall | auto-agents-framework/src/agents/tools/utils/dsnUploadToolUtils.ts:102-121 | A CID that cannot be hashed fails the call with that error; nothing is submitted and the counter is unchanged. |
| DsnUpload.SubmitFailureFailsCall | auto-agents-framework/src/agents/tools/utils/dsnUploadToolUtils.ts:107-121 | A submission rejected on all 6 attempts fails the call with the 6th attempt's error, after 6 attempts with the same hash and nonce, and the counter has still advanced by 1. |
| DsnUpload.AllStepsSucceed | auto-agents-framework/src/agents/tools/utils/dsnUploadToolUtils.ts:69-118 | When signing, upload, hashing and submission all succeed, the call resolves with `{success: true, cid, previousCid or null}`, submits `(hash, nonce)` and advances the counter by 1. |
| DsnUpload.TwoCallChain | auto-agents-framework/src/agents/tools/utils/dsnUploadToolUtils.ts:69-118 | Two successful calls from an empty ledger: the first signs `''` and reports `previousCid: null` with nonce N; when the ledger then returns the first CID, the second signs it, reports it as `previousCid` and submits with nonce N+1, leaving the counter at N+2. |
| DsnUpload.AnchorAll | auto-agents-framework/src/agents/tools/utils/dsnUploadToolUtils.ts:107 | One anchoring per call. Anchoring i is `Anchor` of call i's services and data, started from the starting counter for the first call and from the counter call i-1 left for every later one. |
| DsnUpload.NonceSequence | auto-agents-framework/src/agents/tools/utils/dsnUploadToolUtils.ts:107 | Over a sequence of calls, the final counter is the start plus the number of submissions. Call i submits with the start plus the number of earlier submissions, counting failed ones too. |
| DsnUpload.SequenceCallIsAnchor | auto-agents-framework/src/agents/tools/utils/dsnUploadToolUtils.ts:107 | Call i of a sequence is `Anchor` of that call's own services and data, and when it reaches submission its nonce is the counter that call i-1 left. |
| DsnUpload.FinalNonceCount | auto-agents-framework/src/agents/tools/utils/dsnUploadToolUtils.ts:107 | For any sequence of calls, including none, the counter left after the last call (`FinalNonce`, read from `AnchorAll`) is the start plus the number of submissions. |
| DsnUpload.NoncesStrictlyIncrease | auto-agents-framework/src/agents/tools/utils/dsnUploadToolUtils.ts:107 | Any two submissions in a sequence of calls use different nonces, and the later one uses the larger. |
| DsnUpload.ConsecutiveAnchors | auto-agents-framework/src/agents/tools/utils/dsnUploadToolUtils.ts:69-118 | After a successful call, the next call's submission uses the next nonce. If the ledger then reports the first call's CID, the next call signs that CID as its predecessor and reports it as `previousCid`. |
| DsnUpload.StoredRecordLinksPredecessor | auto-agents-framework/src/agents/tools/utils/dsnUploadToolUtils.ts:70-100 | An uploaded file is the record of the data overlaid with the resolved previous CID, the signature over `{data, previousCid, now}`, and `now`. It is named `<username>-agent-memory-<now>.json`. |
| DsnUpload.UploadFileToDsn | auto-agents-framework/src/agents/tools/utils/dsnUploadToolUtils.ts:62-63 | The upload is retried with the default policy: at most 6 attempts, the default delay schedule, and the same result as `Retried`. |
| DsnUpload.SubmitMemoryHash | auto-agents-framework/src/agents/tools/utils/dsnUploadToolUtils.ts:66-67 | The hash submission is retried with its own default budget of at most 6 attempts. Every attempt uses the same hash and nonce. |
| DsnUpload.MemoryUploader.constructor | auto-agents-framework/src/agents/tools/utils/dsnUploadToolUtils.ts:11 | The counter is seeded with the wallet's nonce. |
| DsnUpload.MemoryUploader.ReserveNonce | auto-agents-framework/src/agents/tools/utils/dsnUploadToolUtils.ts:107 | `currentNonce++`: returns the old value and advances the counter by exactly 1. |
| DsnUpload.MemoryUploader.UploadToDsn | auto-agents-framework/src/agents/tools/utils/dsnUploadToolUtils.ts:69-123 | Running the steps in order gives the result, the trace and the new counter that `Anchor` gives from the old counter. |
| Timeline.IsValidTweetIff | auto-agents-framework/src/services/twitter/convertFromTimeline.ts:4-9 | `IsValidTweet` (`isValidTweet`) holds iff the tweet is present and not null, its `__typename` is `'Tweet'`, and legacy data can be extracted: its own, its quoted result's, or its retweeted result's. |
| Timeline.ExtractLegacyData | auto-agents-framework/src/services/twitter/convertFromTimeline.ts:12-21 | The first truthy of own `legacy`, the quoted result's `legacy` and the retweeted result's `legacy`, in that order. Null when none is truthy. |
| Timeline.ExtractFullText | auto-agents-framework/src/services/twitter/convertFromTimeline.ts:23-31 | The first truthy of the note-tweet text, `legacy.full_text` and `legacy.text`, else `''`. |
| Timeline.MediaOf | auto-agents-framework/src/services/twitter/convertFromTimeline.ts:85 | `extended_entities.media` if truthy, else `entities.media` if truthy, else `[]`. |
| Timeline.Filter | auto-agents-framework/src/services/twitter/convertFromTimeline.ts:43-45 | Throws exactly when an entry is null, and the error names the list being filtered. Otherwise it keeps exactly the entries that satisfy the test, and the result is no longer than the input. |
| Timeline.FilterAppend | auto-agents-framework/src/services/twitter/convertFromTimeline.ts:52-54 | Filtering a concatenation is the concatenation of the filtered parts, so the original order is kept. |
| Timeline.FilterMedia | auto-agents-framework/src/services/twitter/convertFromTimeline.ts:43-59 | `media.filter` throws iff media is not an array or has a null entry. Otherwise it keeps exactly the matching entries, with at most the media's length. |
| Timeline.ExtractPhotos | auto-agents-framework/src/services/twitter/convertFromTimeline.ts:43-50 | One photo per media entry of type `'photo'`, in order: url from `media_url_https`, and width and height from `sizes.large`. |
| Timeline.ExtractVideos | auto-agents-framework/src/services/twitter/convertFromTimeline.ts:52-59 | One video per media entry of type `'video'` or `'animated_gif'`, in order, with the url, duration and variants. |
| Timeline.ExtractUrls | auto-agents-framework/src/services/twitter/convertFromTimeline.ts:61-66 | `[]` when `entities.urls` is absent or null. When it is an array with no null entries: one url per entry, in order. A null entry or a non-array value throws. |
| Timeline.ExtractUserData | auto-agents-framework/src/services/twitter/convertFromTimeline.ts:68-77 | `userId` is `legacy.user_id_str` if truthy, else the user record's `id_str`. `username` is the user record's `screen_name`. |
| Timeline.ExtractQuotedTweet | auto-agents-framework/src/services/twitter/convertFromTimeline.ts:34-41 | Nothing when `depth <= 0`. A quoted tweet that is returned has fewer than `depth` levels of nesting below it. |
| Timeline.ConvertTimelineTweetToTweet | auto-agents-framework/src/services/twitter/convertFromTimeline.ts:79-111 | A converted tweet nests quoted tweets at most `depth` levels deep, and has no `quotedTweet` when `depth <= 0`. |
| Timeline.BuildTweet | auto-agents-framework/src/services/twitter/convertFromTimeline.ts:85-110 | The object literal: photos, videos and urls are extracted in that order and the first error is rethrown; the `quotedTweet` it is given is kept unchanged. |
| Timeline.ConvertRequiresLegacy | auto-agents-framework/src/services/twitter/convertFromTimeline.ts:80-83 | A conversion succeeds only with legacy data. A non-null tweet without legacy data throws `Invalid tweet data: no legacy data found`. |
| Timeline.DefaultQuoteNesting | auto-agents-framework/src/services/twitter/convertFromTimeline.ts:79 | With the default depth 3, at most three levels of quoted tweets. |
| Timeline.QuotedTweetConverted | auto-agents-framework/src/services/twitter/convertFromTimeline.ts:37-40 | Within the depth, the quoted result is converted one level down and becomes `quotedTweet`. If that nested conversion throws, for instance for lack of legacy data, the whole conversion throws the same error. |
| Timeline.NoQuotedTweet | auto-agents-framework/src/services/twitter/convertFromTimeline.ts:34-41 | A converted tweet lacks `quotedTweet` iff `depth <= 0` or there is no truthy quoted result. |
| Timeline.ConvertedFields | auto-agents-framework/src/services/twitter/convertFromTimeline.ts:85-101 | The media list is `extended_entities.media`, else `entities.media`, else `[]`, and the tweet's `photos` and `videos` are exactly `extractPhotos` and `extractVideos` of it: one entry per selected media entry, same length, in order. `id` is `rest_id` if truthy, else `legacy.id_str`. `userId` is `legacy.user_id_str` if truthy, else the user record's `id_str`, and `username` is `extractUserData`'s. `urls` are those extracted from `legacy.entities`. The text is `extractFullText`'s. |
| Characters.ConfigPath | src/config/characters.ts:121-122 | The config file is `<cwd>/characters/<name>/config/<name>.yaml`, inside the character path. |
| Characters.CharacterPath | src/config/characters.ts:121 | The character directory is `<cwd>/characters/` followed by exactly the character name. |
| Characters.NormalizeCharacter | src/config/characters.ts:128-180 | Fails with `Missing communication_rules …` if that section is absent, else with `Missing twitter_profile …` if that one is absent. Otherwise: every absent list becomes `[]` and present lists are copied unchanged. The four strings take `'medium'`, `'english'`, `'regular'` and `'positive'` when absent or empty. Absent content types, tokenomics and metadata take their default objects. `name`, `description` and `username` are copied without defaults. |
| Characters.LoadCharacter | src/config/characters.ts:120-185 | Reads `ConfigPath`. Every failure becomes `Failed to load character config for '<name>': <msg>`: a read or parse error, an empty document, or a missing section. A success is the normalised config with `characterPath = <cwd>/characters/<name>`. |
| Characters.LoadFailure | src/config/characters.ts:183 | The wrapped message starts with `Failed to load character config for '`, carries the character name right after it and ends with the original message. |
| Characters.NormalizeToRaw | src/config/characters.ts:136-180 | Normalising a fully spelled-out character whose defaulted strings are non-empty gives back that character unchanged. |
| Characters.NormalizeIdempotent | src/config/characters.ts:136-180 | Every loaded character has non-empty defaulted strings. Normalising it again after spelling it out changes nothing. |
| Characters.AllDefaults | src/config/characters.ts:140-179 | A config with only the two required, empty sections yields exactly the documented defaults. |

## Left out

- Logging (`logger.*`, `console.*`) everywhere. It has no effect on results, with one exception: the log call after the submission reads `tx.hash`, so a `setLastMemoryHash` that resolved with nothing would throw there, after the nonce is used. The model assumes `submit` resolves with a transaction.
- The real storage, ledger, wallet and signing clients and the hashing library. They are parameters: `getLastMemoryCid`, `signMessage`, `uploadFile`, `setLastMemoryHash`, and `hexlify(blake3HashFromCid(stringToCid(cid)))` as one call that may throw.
- A failure of `wallet.getNonce()` while the module loads. The model takes the seed value as given.
- `JSON.stringify` and `Buffer`, the file's `read` generator and its `size`. The record is passed to the uploader as a map, so key order is not modelled.
- `setTimeout` and `Math.random`. Sleeps are recorded as a sequence of waits, and the jitter is an oracle of reals in [0.85, 1.15), not floating point.
- Retry.Retried: `maxRetries` is an integer here. A fractional JavaScript number is not modelled, and neither is `operationName`, which only appears in log messages.
- DsnUpload.Anchor: the waits of the two retried steps are not part of its trace. `WithRetry`, `UploadFileToDsn` and `SubmitMemoryHash` state them.
- Overlapping `uploadToDsn` calls, which are concurrency between promises. The model is sequential.
- `data` that is not an object (a spread string or array). `data` is a map from field names to JSON values.
- `timeParsed`: the raw `created_at` value is kept. Parsing by `new Date` is not modelled.
- JSON numbers are integers, so `NaN` and fractions are not represented. An `undefined` tweet at the top level of `convertTimelineTweetToTweet` is not modelled either. Its input is a JSON value, and `null` gives a `TypeError`.
- Property reads on strings and arrays (such as `length`) return `undefined` in the model. No key the converter reads is such a property.
- In `loadCharacter`, the file read and the YAML parse are one oracle. Its result cannot express a YAML `null` or `~` document (`load` returns `null`, so the message reads "of null" rather than "of undefined") or a scalar document (which reaches "Missing communication_rules"). `path.join` normalisation (`..`, duplicate `/`) is left out.
- Characters.NormalizeCharacter: YAML values of the wrong type are not modelled, such as a string where a list is expected, or a truthy scalar in place of a section. A nested object (`content_types`, `tokenomics`, `metadata`, team entries) is copied whole as a typed record, so a partially filled one is not modelled.
- The Express controllers, routes, middleware and server, the tool registration over the scraper and vector store, and the fetch-timeline tool. They are I/O and process plumbing, and the tool's file contains unresolved merge-conflict markers.
- The prompt templates, the mocked workflow test, the commented-out cookie manager and example usage, and the Twitter constants file. None of them has behaviour to model.
