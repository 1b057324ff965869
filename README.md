# Server utilities of a realtime chat backend, in Dafny

This project models the self-contained server logic of a realtime chat backend
(Node.js, Express, Socket.IO):

- **`createMemoizationLru`** (`server/utils/memoize.js`): a bounded
  least-recently-used memoizer. The model is the class `Memoize.MemoizedLru`.
  Its cache is a sequence of (key, value) entries, oldest first, standing for
  the source's insertion-ordered `Map`. Every method is specified by the pure
  function `Memoize.MemoStep` or by operations on the sequence. The lemmas
  state what the source promises: pass-through mode, exact LRU hit and miss
  behaviour, the size bound, and invalidation. The wrapped function and the key
  generator are total Dafny functions. A thrown error is `Abrupt` and a key
  generator that throws returns `None`.
- **The logger** (`server/utils/logger.js`): the five ordered levels, the
  module-level configuration that `configureLogger` merges and repairs, the
  level gate and console routing of `actualLog`, the default formatter's
  500-character truncation, and the `withLogging` wrapper. The class
  `Logging.Logger` holds the configuration and the records written so far.
- **`proxyToGoogleTranslate`** (`server/controllers/proxyController.js`): request
  validation, request construction and the mapping from gRPC error codes to
  HTTP statuses. Together they are one function from the body, the project id
  and the translation service's answer to the status and JSON body.
- **`protect`** (`server/middleware/authMiddleware.js`): the passport callback's
  choice between a 401 with one of three messages and "attach the user and call
  `next`".

The modules are `JsValues` (shared option, result and completion types),
`Memoize`, `Logging`, `ProxyController` and `AuthMiddleware`, one file each.

JavaScript falsy values are modelled explicitly. Optional strings are
`Option<string>`, and `JsValues.Truthy` treats `None` and `""` as falsy. A
configured logger `minLevel` of `""` stands for any falsy value. A lookup of
such a value in `logLevelOrder` yields `undefined`, and every comparison with
`undefined` is false. So with a falsy `minLevel`, `actualLog` emits every known
level, while `withLogging` emits nothing. The model keeps both behaviours.

## Model

| member | source | states |
|---|---|---|
| `Memoize.CheckOptions` | server/utils/memoize.js:1-15 | Creation succeeds iff the function is a function, `cacheSize` is absent or a finite number, and `keyGenerator` is absent or a function. The checks run in the source's order, with the source's `TypeError` messages. Defaults are a cache size of 100 and the default key generator. |
| `Memoize.MemoizedLru.Create` | server/utils/memoize.js:1-17 | Returns the `TypeError` that `CheckOptions` gives, or a fresh memoizer with those settings, an empty cache and no invocations. |
| `Memoize.MemoizedLru.constructor` | server/utils/memoize.js:17 | A new memoizer has an empty cache that satisfies the cache invariant. |
| `Memoize.Lookup` | server/utils/memoize.js:41-42 | `cache.has`/`cache.get`: the lookup is absent exactly when no entry has the key. A found value belongs to an entry with that key. |
| `Memoize.LookupRemoveKey` | server/utils/memoize.js:44 | After `cache.delete(k)`, `k` is absent and every other key keeps its value. |
| `Memoize.RemovePresentKey` | server/utils/memoize.js:44 | With distinct keys, deleting a present key removes exactly its one entry and keeps the others in order. The size drops by one. |
| `Memoize.MemoizedLru.DeleteOldest` | server/utils/memoize.js:19-24 | Removes the first (least recently used) entry when the cache is non-empty. Otherwise nothing changes. The cache invariant is kept. |
| `Memoize.RemoveKey` | server/utils/memoize.js:44 | `cache.delete(k)`: afterwards `k` is absent, and the cache is no longer than before. |
| `Memoize.DropOldest` | server/utils/memoize.js:19-24 | `deleteOldest`: a non-empty cache loses exactly its first entry, and the rest follows it unchanged. An empty cache stays empty. |
| `Memoize.Admit` | server/utils/memoize.js:53-57 | A returned miss ends the cache with the new entry. The size stays the same when a non-empty cache already holds `cacheSize` or more entries, and grows by one otherwise. |
| `Memoize.MemoStep` | server/utils/memoize.js:26-60 | One sequential call of `memoized`. When the function is invoked, the outcome is its outcome. When it is not invoked, the call is a hit: the key was generated and the returned value is cached under it. A throw leaves the cache unchanged. The cache grows by at most one entry. |
| `Memoize.MemoizedLru.Call` | server/utils/memoize.js:26-60 | The new cache and the outcome are those of `MemoStep`. The wrapped function is recorded as invoked exactly when `MemoStep` says so. The cache invariant is kept. |
| `Memoize.PassThroughWhenDisabled` | server/utils/memoize.js:27-30 | With `cacheSize <= 0`, the call invokes the function, returns its outcome and leaves the cache untouched. |
| `Memoize.KeyFailureBypassesCache` | server/utils/memoize.js:32-38 | When key generation throws, the call invokes the function, returns its outcome and leaves the cache unchanged. |
| `Memoize.HitMovesKeyToBack` | server/utils/memoize.js:41-47 | A hit returns the stored value without invoking the function. It moves that entry to the most-recent end and keeps every other entry in order. It leaves the multiset of entries and the key-to-value view unchanged. |
| `Memoize.MissInserts` | server/utils/memoize.js:50-57 | A miss invokes the function once. If the function throws, nothing is inserted. If it returns, the new entry is the most recent. A full cache evicts exactly its oldest key and keeps every other entry. A cache that is not full keeps everything. |
| `Memoize.MemoStepKeepsInv` | server/utils/memoize.js:50-57 | Every call keeps the invariant: distinct keys, a disabled cache stays empty, and the size stays below `cacheSize + 1`. |
| `Memoize.CapacityBound` | server/utils/memoize.js:53-57 | For a positive integer `cacheSize`, the invariant means the cache never holds more than `cacheSize` entries. |
| `Memoize.RepeatCallHits` | server/utils/memoize.js:41-59 | After a call that returned, an identical second call invokes nothing, returns the same value and leaves the cache as it was. So two sequential calls invoke the function once. |
| `Memoize.InvalidateKeyExact` | server/utils/memoize.js:62-68 | Invalidating an absent key changes nothing. Invalidating a present key removes exactly its entry and keeps the order of the rest. The invariant is kept. |
| `Memoize.MemoizedLru.InvalidateKey` | server/utils/memoize.js:62-68 | Returns true iff the key was present. The new cache is the old one without that key. |
| `Memoize.MemoizedLru.InvalidateArgs` | server/utils/memoize.js:70-78 | Returns false and changes nothing when key generation throws. Otherwise it is `InvalidateKey` of the generated key. |
| `Memoize.MemoizedLru.ClearCache` | server/utils/memoize.js:80-82 | Leaves the cache empty. |
| `Memoize.MemoizedLru.Snapshot` | server/utils/memoize.js:84-90 | Copies the entries one by one into a snapshot that equals the cache, in order. The cache is not modified. |
| `Logging.LevelNameRoundTrip` | server/utils/logger.js:1-7 | Each level's name parses back to that level, and only that name does. |
| `Logging.LevelsStrictlyOrdered` | server/utils/logger.js:9-15 | DEBUG < INFO < WARN < ERROR < NONE, and the ranks are distinct. |
| `Logging.RankOf` | server/utils/logger.js:9-15 | `logLevelOrder[s]`: defined exactly for the five level names, with a rank from 1 to 5. |
| `Logging.ParseLevel` | server/utils/logger.js:41 | A string is accepted as a level only if it is that level's name. |
| `Logging.MergeLaws` | server/utils/logger.js:40 | An empty patch keeps the configuration. Applying a patch twice equals applying it once. Applying `p` then `q` equals applying `q` spread over `p`, so supplied keys win. |
| `Logging.Merge` | server/utils/logger.js:40 | `{ ...current, ...patch }`: each key the patch has replaces the current value, and every other key is kept. Its laws are `MergeLaws`. |
| `Logging.RejectsMinLevel` | server/utils/logger.js:41 | The test of line 41: the patch supplies a `minLevel` that is truthy and names no level. |
| `Logging.Configured` | server/utils/logger.js:39-45 | The new configuration is the merge in every field but `minLevel`. A rejected `minLevel` becomes INFO. A well-formed `minLevel` stays well-formed. |
| `Logging.ConfiguredMinLevel` | server/utils/logger.js:39-45 | A supplied level name or falsy value is installed. An absent key keeps the old `minLevel`. |
| `Logging.InvalidLevelWarningAsWritten` | server/utils/logger.js:42 | The warning text as written: the rejected value, then "Using default:" and the merged configuration's `minLevel`. Its properties are `WarningAsWrittenNamesRejectedValue` and `WarningAsWrittenExample`. |
| `Logging.InvalidLevelWarning` | server/utils/logger.js:42 | The corrected warning text, naming INFO as the default. Its property is `WarningNamesInstalledLevel`. |
| `Logging.WarningAsWrittenNamesRejectedValue` | server/utils/logger.js:42 | As written, the warning's "Using default:" names the rejected value, never the INFO that is installed. |
| `Logging.WarningAsWrittenExample` | server/utils/logger.js:40-43 | `configureLogger({ minLevel: 'VERBOSE' })` warns "Using default: VERBOSE" and installs INFO. |
| `Logging.WarningNamesInstalledLevel` | server/utils/logger.js:42-43 | The corrected warning names exactly the `minLevel` that `configureLogger` installs. |
| `Logging.Emits` | server/utils/logger.js:48-50 | Only known levels are emitted. Between a known level and a known `minLevel`, a record is emitted iff its rank is at least `minLevel`'s. |
| `Logging.NoneSilencesLevels` | server/utils/logger.js:48-50 | With `minLevel` NONE, no DEBUG, INFO, WARN or ERROR record is emitted. Only a record at NONE passes. |
| `Logging.FalsyMinLevelEmitsKnownLevels` | server/utils/logger.js:48 | With a falsy `minLevel`, every known level is emitted and nothing else. |
| `Logging.Route` | server/utils/logger.js:70-84 | A custom output function takes every record. On the console, ERROR goes to `console.error`, WARN to `console.warn`, and every other level to `console.log`, each iff. The `'file'` case is taken iff there is no custom function and `output` is `'file'`. |
| `Logging.LogThrows` | server/utils/logger.js:73-82 | `actualLog` throws a `ReferenceError` exactly when the record passes the gate and takes the `'file'` case, which reads `outputToConsole` before its declaration in the `'console'` case. |
| `Logging.LogRecords` | server/utils/logger.js:47-84 | `actualLog` records at most one emission. It records one iff the gate passes and the output is not `'file'`, tagged with the channel `Route` chooses and with the given level, function name and message. A `NoOutput` channel means the record passed the gate but no branch of the `switch` prints it. |
| `Logging.Truncate` | server/utils/logger.js:29 | Details up to 500 characters are kept verbatim. Longer ones become their first 500 characters plus "...". The result never exceeds 503 characters. |
| `Logging.FormatDefault` | server/utils/logger.js:22-35 | The output starts with the header. It equals the header iff there are no details or the details object has no keys. Serialized details follow the label, truncated. |
| `Logging.WrapperName` | server/utils/logger.js:89 | A supplied name is used as is. Otherwise the function's own name is used, or "anonymousFunction" when that is empty, so the name is never empty. |
| `Logging.WrapperLevel` | server/utils/logger.js:90 | A supplied `logLevel` is used as is. A missing one becomes INFO, a known level. |
| `Logging.WrapperRecords` | server/utils/logger.js:111-151 | A wrapped call asks for at most two records, all under the wrapper's function name. |
| `Logging.WrapperCall` | server/utils/logger.js:94-152 | One wrapped call: how it ends, what it writes, and whether the original function runs. A throw of the "called" log at line 112, outside the `try`, rejects before the function runs. A throw of the failure log at line 149 replaces the original error. Its properties are `WrapperPassThrough` and `WrapperFileOutput`. |
| `Logging.WrapperGate` | server/utils/logger.js:111 | The wrapper's test before "called" and "returned", also at line 131: its level is not ERROR, both levels are known, and its level ranks at or above `minLevel`. |
| `Logging.ErrorGate` | server/utils/logger.js:148 | The wrapper's test before "threw": `minLevel` is known and ranks at or below ERROR. |
| `Logging.GatesAgree` | server/utils/logger.js:111-112 | The wrapper's tests are stricter than `actualLog`'s gate: each record the wrapper requests passes `Emits`. Whether it then prints, throws or goes nowhere is `Route`'s choice. |
| `Logging.WrapperPassThrough` | server/utils/logger.js:111-151 | Unless the output is `'file'`, the original function runs, its outcome passes through unchanged, and the records are exactly those `WrapperRecords` lists. |
| `Logging.WrapperFileOutput` | server/utils/logger.js:80-81 | With the `'file'` output, nothing is written. The function runs iff the "called" record fails the wrapper's gate. A passing "called" gate, or a failure the wrapper logs, ends the call with the `ReferenceError`. Otherwise the outcome passes through. |
| `Logging.FileOutputRejectsDefaultWrapper` | server/utils/logger.js:111-112 | With the default INFO gate and the `'file'` output, a wrapper at the default level rejects with the `ReferenceError` and never runs the function it wraps. |
| `Logging.WrapperRecordsExact` | server/utils/logger.js:111-151 | The `'file'` output records none of the emissions. Otherwise, a successful call records "called" and "returned" at the wrapper's level iff the wrapper's gate passes. A failing call ends with the ERROR record iff ERROR ranks at or above `minLevel`. A wrapper at level ERROR records nothing for a successful call. Each record carries `Route`'s channel, and `NoOutput` means nothing was printed. |
| `Logging.WrapperFailureLogging` | server/utils/logger.js:148-150 | For a configured level and an output other than `'file'`, a failure is logged iff `minLevel` is not NONE. A falsy `minLevel` silences the wrapper. |
| `Logging.Logger.constructor` | server/utils/logger.js:17-35 | The initial configuration is `minLevel` INFO, console output, `./app.log`, no custom output, the default formatter and unstructured output. |
| `Logging.Logger.Configure` | server/utils/logger.js:39-45 | The new configuration is `Configured`: the merge, with an invalid truthy `minLevel` repaired to INFO. Exactly then it writes the warning text of line 42 as written, which names the rejected value. A well-formed `minLevel` stays well-formed. |
| `Logging.Logger.Log` | server/utils/logger.js:47-85 | Appends the records `LogRecords` gives. It throws the `ReferenceError` exactly when `LogThrows` holds. The configuration and its invariant are unchanged. |
| `Logging.Logger.WithLogging` | server/utils/logger.js:87-152 | Applies the `functionName` and `logLevel` defaults. Then the call ends, writes and invokes the function exactly as `WrapperCall` says, and the configuration and its invariant are unchanged. |
| `ProxyController.BuildRequest` | server/controllers/proxyController.js:16-36 | A falsy text or target language gives 400 with the fixed message. Otherwise a missing project id gives 500. Otherwise the request has parent `projects/<id>/locations/global`, the one text as its contents, and `text/plain`. Its source language is `null` iff none is given. |
| `ProxyController.ErrorStatus` | server/controllers/proxyController.js:51-61 | The status is one of 400, 401, 403, 404 and 500. It is 500 iff the code is absent, zero or unknown. |
| `ProxyController.DefaultMessage` | server/controllers/proxyController.js:56-59 | Each known code has its own fallback message. Every other code gets the connection message. |
| `ProxyController.ErrorMessage` | server/controllers/proxyController.js:52-61 | For a known code, the message is `details` when truthy, else the code's default. For any other code, it is the connection message, even when `details` is present. |
| `ProxyController.Respond` | server/controllers/proxyController.js:38-62 | The status is one of 200, 400, 401, 403, 404 and 500. It is 200 iff the service returned a non-empty list, and then the body is the first translation. An error's message is `ErrorMessage` of its code and details. |
| `ProxyController.ProxyToGoogleTranslate` | server/controllers/proxyController.js:15-63 | Every request is answered with one of 200, 400, 401, 403, 404 and 500. A 200 carries a translation, and only a 200 does. A 400 message body is the missing-fields message. |
| `ProxyController.RejectionsSendNoRequest` | server/controllers/proxyController.js:18-26 | A validation failure answers without consulting the translation service. The body is checked before the project id. |
| `ProxyController.ReplyFollowsOutcome` | server/controllers/proxyController.js:38-62 | The reply is 200 with the first translation iff the list is non-empty. An empty or missing list gives 500. An error gives the mapped status and the message `ErrorMessage` chooses, and its `details` field is the error's `details` or else its `message`. |
| `ProxyController.ErrorStatusTable` | server/controllers/proxyController.js:54-60 | Code 3 gives 400, 5 gives 404, 7 gives 403 and 16 gives 401. Distinct known codes give distinct statuses. |
| `AuthMiddleware.Protect` | server/middleware/authMiddleware.js:4-15 | The guard proceeds iff there is no error and a user. It then attaches exactly that user. Otherwise it answers 401: "token expired" iff `info.name` is `TokenExpiredError`, "invalid token" iff it is `JsonWebTokenError`, and "token failed" in every other case. |
| `AuthMiddleware.ExactlyOneEffect` | server/middleware/authMiddleware.js:5-15 | On every path, exactly one of "respond 401" and "call `next` once with the user attached" happens. An error wins even when a user is present. |

## Findings

| source | as written | input that shows it | evidently intended | confidence | as-written member | corrected member |
|---|---|---|---|---|---|---|
| server/utils/logger.js:42 | The warning reports `currentLoggerConfig.minLevel` after the merge. At that point it still holds the rejected value. | `configureLogger({ minLevel: 'VERBOSE' })` warns "Using default: VERBOSE" and then installs INFO | The warning names the level actually installed, INFO | high; not executed | `Logging.InvalidLevelWarningAsWritten` (shown by `Logging.WarningAsWrittenNamesRejectedValue`) | `Logging.InvalidLevelWarning` (proved by `Logging.WarningNamesInstalledLevel`) |

## Left out

- The room-scoped messaging engine (presence, fanout, message lifecycle, history streaming, direct-room get-or-create) has no implementation among these sources. `server/routes/roomRoutes.js:2` imports its handlers from `server/controllers/roomController.js`, which is not part of this model. `server/controllers/roomCotroller.js` holds only `getUserRooms`, a database query.
- `Memoize.CheckOptions`: an `options` argument of `null` throws while its fields are destructured, at `server/utils/memoize.js:2-5`, before any check runs. The model's options are always an object.
- Concurrency in `memoized`: two overlapping misses on one key can both compute across the `await` at `server/utils/memoize.js:51`. The model covers sequential calls only. A promise counts as its resolved value, and a rejected promise counts as a throw.
- Memoize: the `this` binding passed through `apply` is not modelled.
- `Memoize.MemoizedLru.Snapshot` returns an immutable sequence. It is trivially independent of the cache, so the aliasing question the source's fresh `Map` answers does not arise.
- Memoize: the default key generator (`JSON.stringify` of the arguments) is a parameter of `CheckOptions`. Key equality is Dafny equality on the key type, standing for `Map`'s SameValueZero.
- Logger I/O is not modelled: timestamps, `JSON.stringify` with its bigint replacer, the structured-object output, the fallback text used when `formatter` is falsy, and the call of a custom output function.
- `Logging.Logger.Log`: a written record carries its channel, level, function name and message, but not the formatted text. The default formatter is modelled separately, by `Logging.FormatDefault`, over an already-serialized details string.
- Logger `'file'` output: what the simulated file log would print is not modelled, because that branch always throws before printing.
- Logger: level names that are inherited object properties (such as `toString`) are treated like any other unknown name. In JavaScript they would find `Object.prototype` members in `logLevelOrder`.
- `Logging.Logger.WithLogging`: a thrown value is always an error object with a name and a message. A wrapped function that throws `null` or `undefined`, or returns a promise rejected with one, makes line 137 read `error.message` of a nullish value. The wrapper then rejects with that TypeError and never asks for the failure record of line 149. The model does not capture this case.
- `Logging.Logger.Log`: the model assumes that producing and printing a record always returns normally. In the source, `actualLog` also throws when a custom `formatter` throws (line 64), when `JSON.stringify` meets a BigInt in the fallback text (line 67) or in structured output (lines 71 and 75), or when `customOutputFn` throws (line 71). Only the `'file'` case's ReferenceError is modelled.
- `Logging.Logger.WithLogging`: because of the assumption on `Log`, a "called" record whose formatting or output throws is not modelled. In the source that throw leaves line 112, outside the `try`, so the wrapper rejects without running the function. For example, with `structured: true`, a BigInt argument makes line 75 throw.
- `Logging.WrapperPassThrough`: pass-through for every output other than `'file'` holds only under the same assumption: the formatter, the fallback and structured serialization (lines 64, 67, 71 and 75) and the custom output function (line 71) all return normally.
- Logger arguments of `null`: `configureLogger(null)` merges and then throws a TypeError reading `config.minLevel` at line 41. `withLogging(f, null)` throws while destructuring `options` at lines 88-92. The model's patch and options are always objects.
- `withLogging`: the content of `logDetails` is not modelled. That covers argument summaries, the serialized result, the error's `message` and `responseData`, and the `profileTime` timing from `Date.now()`, which is a clock. Only which records are written, and the pass-through of the outcome, are modelled.
- `Logging.Logger.WithLogging`: the wrapped function is a pure Dafny function. It cannot log or call `configureLogger` itself, and no other call interleaves at the `await` at line 117. Only then does the configuration read again at lines 131 and 148 equal the one read at line 111, and do the wrapper's records follow each other with nothing in between.
- String lengths are counted in Dafny characters, which stand for JavaScript's UTF-16 code units.
- Proxy: the Google Cloud Translation client, `dotenv` loading and the `console` calls are not modelled. The client's answer is the input `translate`. A non-string truthy `textToTranslate` is modelled as a string.
- Auth: `passport.authenticate` and the JWT strategy (`server/config/passport.js`) are not modelled. They only produce the `(err, user, info)` triple the model takes as input.
- Thin wrappers over Mongoose, jsonwebtoken and passport-jwt are not modelled. That covers `authController.js`, `userController.js`, `roomCotroller.js` and the schema files under `server/models/`. Route wiring, the Socket.IO bootstrap in `server/index.js` and the browser client are transport or UI plumbing.
