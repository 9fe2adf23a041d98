# Windows–Android Connect: a verified model of the core components

This project is a Dafny model of the sequential core of a Windows↔Android connection suite. The suite has four parts:

- an Android client (Kotlin and Java);
- a Node.js backend;
- a browser front end;
- a desktop remote-control script.

The model covers the components underneath the UI, socket and server plumbing. Each works on in-memory maps, lists and counters:

- the loggers;
- WebSocket and newline framing;
- connection pools and managers, health checks and service restarts;
- file-transfer bookkeeping;
- caches, queues and bounded buffers;
- validators and configuration stores;
- device pairing, history and retries;
- the simulated front-end services and the input mapping of the remote controller.

Each core source file is one Dafny module in one file under `src/`:

- An object whose methods update its fields is a `class`. Its methods carry `modifies` clauses and are tied to pure specification functions.
- Pure code is datatypes, functions and lemmas.
- A loop of the source is a `method` with a `while` loop and its invariants.

Storage such as SharedPreferences and localStorage is a map. Clocks, random numbers, generated ids and the outcome of a socket send or an I/O call are parameters. Timers are explicit steps or the set of ids that have one.

The modules and the source file each models:

| module | file | models |
|---|---|---|
| LogUtils | src/log_utils.dfy | app/src/main/java/com/example/utils/LogUtils.java |
| ConsoleLogger | src/console_logger.dfy | backend/src/utils/logger.js |
| StructuredLogger | src/structured_logger.dfy | backend/src/utils/logger.ts |
| LogService | src/log_service.dfy | frontend/services/LogService.js |
| MockFramework | src/mock_framework.dfy | app/src/main/java/com/example/windowsandroidconnect/test/MockFramework.kt |
| TcpStrategy | src/tcp_strategy.dfy | frontend/src/services/connection-strategy/TCPStrategy.js |
| ConnectionPool | src/connection_pool.dfy | backend/src/utils/connection-pool.ts |
| ConnectionManager | src/connection_manager.dfy | backend/src/services/connection-manager/index.ts |
| HealthChecker | src/health_checker.dfy | backend/src/utils/health-checker.ts |
| TransferSessions | src/transfer_sessions.dfy | backend/src/utils/file-transfer-manager.ts |
| ChunkReceiver | src/chunk_receiver.dfy | backend/src/fileTransfer/fileTransferManager.js |
| ResumableTransfer | src/resumable_transfer.dfy | app/src/main/java/com/example/windowsandroidconnect/transfer/ResumableFileTransfer.kt |
| TransferService | src/transfer_service.dfy | frontend/services/FileTransferService.js |
| Cache | src/cache.dfy | backend/src/utils/cache-manager.js |
| MessageQueue | src/message_queue.dfy | backend/src/utils/message-queue.js |
| RemoteControl | src/remote_control.dfy | backend/src/services/remote-control/index.ts |
| ScreenMirror | src/screen_mirror.dfy | backend/src/services/screen-mirror/index.ts |
| MetricsCollector | src/metrics_collector.dfy | backend/src/utils/metrics-collector.ts |
| SmartDiscovery | src/smart_discovery.dfy | backend/src/utils/smart-discovery.js |
| ServiceManager | src/service_manager.dfy | backend/src/utils/service-manager.js |
| DIContainer | src/di_container.dfy | backend/src/utils/di-container.js |
| ClientManager | src/client_manager.dfy | backend/src/websocket/clientManager.js |
| ConfigValidator | src/config_validator.dfy | backend/src/utils/config-validator.js |
| InputValidator | src/input_validator.dfy | backend/src/middleware/inputValidator.js |
| AppConfig | src/app_config.dfy | app/src/main/java/com/example/windowsandroidconnect/config/AppConfig.kt |
| RemoteConfigManager | src/remote_config_manager.dfy | app/src/main/java/com/example/windowsandroidconnect/config/RemoteConfigManager.kt |
| FrontendConfig | src/frontend_config.dfy | frontend/src/services/ConfigManager.js |
| DevicePairing | src/device_pairing.dfy | app/src/main/java/com/example/windowsandroidconnect/security/DevicePairing.kt |
| ConnectionQuality | src/connection_quality.dfy | app/src/main/java/com/example/windowsandroidconnect/utils/ConnectionQualityMonitor.kt |
| DeviceHistory | src/device_history.dfy | app/src/main/java/com/example/windowsandroidconnect/utils/DeviceHistoryManager.kt |
| RetryUtils | src/retry_utils.dfy | app/src/main/java/com/example/windowsandroidconnect/utils/RetryUtils.kt |
| StrategyManager | src/strategy_manager.dfy | app/src/main/java/com/example/windowsandroidconnect/connection/ConnectionManager.kt |
| TestFramework | src/test_framework.dfy | app/src/main/java/com/example/windowsandroidconnect/test/TestFramework.kt |
| RemoteControlService | src/remote_control_service.dfy | frontend/services/RemoteControlService.js |
| ScreenShareService | src/screen_share_service.dfy | frontend/services/ScreenShareService.js |
| DeviceDiscoveryService | src/device_discovery_service.dfy | frontend/services/DeviceDiscoveryService.js |
| ClipboardSync | src/clipboard_sync.dfy | frontend/utils/clipboard-sync.js |
| NotificationSync | src/notification_sync.dfy | frontend/utils/notification-sync.js |
| RemoteController | src/remote_controller.dfy | remote-controller.js |
| OneClickTest | src/one_click_test.dfy | backend/scripts/one-click-test.js |

Seven shared modules hold what several files need:

- `Wrappers` (`src/wrappers.dfy`): `Option` and `Result`.
- `JsValues` (`src/js_values.dfy`): JavaScript values with `typeof`, truthiness, `ToString`, property access, `parseInt`, `parseFloat`, `>` and `trim`.
- `OrderedMaps` (`src/ordered_maps.dfy`): a JavaScript `Map` that remembers insertion order.
- `Seqs` (`src/seqs.dfy`): filters, last-n slices and their lemmas.
- `Sorting` (`src/sorting.dfy`): stable sorts specified by permutation and order.
- `Text` (`src/text.dfy`): decimal rendering, case mapping, splitting and joining of strings.
- `Arith` (`src/arith.dfy`): powers of two, ceiling division and rounding.

## Model

| member | source | states |
|---|---|---|
| LogUtils.LogCategory.Name | app/src/main/java/com/example/utils/LogUtils.java:21-28 | every category's name is non-empty and holds no `]` |
| LogUtils.LogCategory.Prefix | app/src/main/java/com/example/utils/LogUtils.java:21-38 | each category's prefix is `[NAME] ` for its own name |
| LogUtils.AddCategoryPrefix | app/src/main/java/com/example/utils/LogUtils.java:395-400 | a null category returns the message unchanged; otherwise the result is the category's prefix followed by the message |
| LogUtils.CategoryPrefixInjective | app/src/main/java/com/example/utils/LogUtils.java:21-39 | equal prefixed messages come from the same category and the same message (also lines 395-400) |
| LogUtils.BracketedNameInjective | app/src/main/java/com/example/utils/LogUtils.java:21-28 | a `[name] ` prefix whose name holds no `]` splits off uniquely |
| LogUtils.IsDebugBuild | app/src/main/java/com/example/utils/LogUtils.java:61-71 | a lookup that throws counts as a debug build; otherwise the build is debug exactly when `BuildConfig.DEBUG` is true |
| LogUtils.TreeFor | app/src/main/java/com/example/utils/LogUtils.java:45-56 | `init` plants the release tree exactly when `BuildConfig.DEBUG` was read and is false (also lines 61-71) |
| LogUtils.InitPlantsOnce | app/src/main/java/com/example/utils/LogUtils.java:45-56 | from a fresh process, any non-empty series of `init` calls plants exactly one tree, the one the first call chose, and leaves the facade initialised |
| LogUtils.InitCallsInitialised | app/src/main/java/com/example/utils/LogUtils.java:46 | once initialised, further `init` calls change nothing (also lines 54) |
| LogUtils.Facade.constructor | app/src/main/java/com/example/utils/LogUtils.java:18 | a fresh facade is uninitialised with no tree planted |
| LogUtils.Facade.Init | app/src/main/java/com/example/utils/LogUtils.java:45-56 | `init` moves the facade to the state the series of calls defines and leaves it initialised |
| LogUtils.CreateStackElementTag | app/src/main/java/com/example/utils/LogUtils.java:87-94 | the tag starts with `[Class.method():` and ends with `]` |
| LogUtils.CreateFullTag | app/src/main/java/com/example/utils/LogUtils.java:109-121 | a given tag is kept; without one, frame 6 when there are more than 6 frames, else the last frame, else `LogUtils` |
| LogUtils.FormatMessage | app/src/main/java/com/example/utils/LogUtils.java:99-104 | the message is prefixed with `[Thread: <name>] ` and follows it unchanged |
| LogUtils.DebugLog | app/src/main/java/com/example/utils/LogUtils.java:78-84 | the debug tree hands every record to the platform log once, with its priority and cause |
| LogUtils.ReleaseLog | app/src/main/java/com/example/utils/LogUtils.java:132-151 | below ERROR nothing happens; at ERROR or above exactly one error report and no console output |
| LogUtils.LogChunk | app/src/main/java/com/example/utils/LogUtils.java:129 | a message of at most 4000 characters is printed once; a longer one is split into ceil(n/4000) pieces of at most 4000 characters, all full but the last, which concatenate back to the message (also lines 156-166) |
| LogUtils.DebugDispatchShape | app/src/main/java/com/example/utils/LogUtils.java:78-104 | under the debug tree a categorised call logs the thread prefix, then the category prefix, then the message, at the call's priority (also lines 201-360) |
| LogUtils.ReleaseDispatch | app/src/main/java/com/example/utils/LogUtils.java:128-151 | under the release tree a record below ERROR has no effect, and one at ERROR or above gives exactly one report and no console line |
| LogUtils.JsonRecord | app/src/main/java/com/example/utils/LogUtils.java:366-383 | a null or blank payload logs the fixed text `JSON is null or empty` at DEBUG, otherwise the payload at DEBUG; with a category, both are prefixed |
| ConsoleLogger.LevelName | backend/src/utils/logger.js:6-11 | a level has a name exactly when it is one of ERROR=0, WARN=1, INFO=2, DEBUG=3 (also lines 42) |
| ConsoleLogger.LevelOfName | backend/src/utils/logger.js:6-11 | a name found in the level table maps to the level whose name it is, and every level name is found (also lines 123) |
| ConsoleLogger.InitialLevel | backend/src/utils/logger.js:23 | a non-zero option level is kept; a missing level or an explicit ERROR (0, falsy) gives INFO in production and DEBUG otherwise |
| ConsoleLogger.NoConstructedErrorLevel | backend/src/utils/logger.js:23 | no constructor options produce a logger at level ERROR |
| ConsoleLogger.LevelAfterSet | backend/src/utils/logger.js:121-127 | a number is stored as given; a name gives its level, except that `error` and unknown names both give INFO |
| ConsoleLogger.Parts | backend/src/utils/logger.js:32-63 | the parts are the optional `[timestamp]`, the level tag, the optional `[prefix]`, the message, and the metadata text when it has keys, in that order |
| ConsoleLogger.PlainFormat | backend/src/utils/logger.js:32-63 | without timestamp, colours, prefix or metadata a record reads `[LEVEL] message` |
| ConsoleLogger.ChildPrefix | backend/src/utils/logger.js:114 | the child's prefix is `parent:p`, or `p` when the parent has none |
| ConsoleLogger.ChildPrefixNested | backend/src/utils/logger.js:109-116 | prefixes of nested children accumulate left to right, separated by `:` |
| ConsoleLogger.Logger.constructor | backend/src/utils/logger.js:22-27 | the level follows `InitialLevel`; colours and timestamps are on unless set to false; the prefix defaults to empty |
| ConsoleLogger.Logger.Calls | backend/src/utils/logger.js:68-104 | no console call unless the logger's level is at least the record's; `error` prints the formatted record, then the error's stack when there is one; `warn` goes to `console.warn`, `info` and `debug` to `console.log` |
| ConsoleLogger.Logger.Log | backend/src/utils/logger.js:68-104 | a call appends exactly the console calls `Calls` gives for the current level |
| ConsoleLogger.Logger.SetLevel | backend/src/utils/logger.js:121-127 | the new level is the one `LevelAfterSet` gives |
| ConsoleLogger.Logger.Child | backend/src/utils/logger.js:109-116 | a fresh logger with the same colour and timestamp settings, the combined prefix, and the parent's level passed back through the constructor's logical-or default (so ERROR again becomes the default) |
| StructuredLogger.MakeEntry | backend/src/utils/logger.ts:64-85 | the entry carries the clock reading, level, component, message and context; it has a stack exactly for an ERROR whose context is an `Error`, and then that error's stack |
| StructuredLogger.Logger.constructor | backend/src/utils/logger.ts:45-60 | an empty buffer; the level defaults to INFO and the directory to `./logs` (also for an empty string) |
| StructuredLogger.Logger.Log | backend/src/utils/logger.ts:64-131 | every entry is stored whatever `logLevel` says, and once the buffer passes 10000 entries the oldest one is dropped |
| StructuredLogger.Logger.GetLogs | backend/src/utils/logger.ts:317-322 | without a limit (or with 0) every entry; with a positive limit the newest `limit` entries; with a negative limit, as `slice(-limit)` does, all but the oldest `-limit` entries |
| StructuredLogger.Logger.GetLogsByLevel | backend/src/utils/logger.ts:327-333 | only stored entries of exactly that level: all of them without a limit or with 0, the newest `limit` of them with a positive one, and all but the oldest `-limit` with a negative one |
| StructuredLogger.Logger.GetLogsByComponent | backend/src/utils/logger.ts:338-344 | only stored entries of that component: all of them without a limit or with 0, the newest `limit` of them with a positive one, and all but the oldest `-limit` with a negative one |
| StructuredLogger.Logger.GetLogsInRange | backend/src/utils/logger.ts:349-353 | exactly the stored entries whose timestamp lies in the closed range |
| StructuredLogger.Logger.ClearMemoryLogs | backend/src/utils/logger.ts:358-360 | the buffer is empty (also lines 393-401) |
| StructuredLogger.Logger.GetStats | backend/src/utils/logger.ts:366-388 | the count is the buffer's length, the bound 10000, and the directory the configured one |
| StructuredLogger.BufferKeepsNewest | backend/src/utils/logger.ts:33 | after any run of `log` calls from an empty logger the buffer holds the newest 10000 entries in call order (also lines 88-90) |
| LogService.LevelName | frontend/services/LogService.js:17-24 | a level has a name exactly when it lies in TRACE=0 .. FATAL=5 |
| LogService.LevelOfName | frontend/services/LogService.js:7-14 | a name found in the level table lies in 0..5 and is that level's name; a name not found is no level's name (also lines 505-511) |
| LogService.MakeRecord | frontend/services/LogService.js:308-322 | the record carries the clock reading, level, category, message and data, with a level name exactly for a level in 0..5 |
| LogService.Emitted | frontend/services/LogService.js:395-400 | every kept record emits `log`, and a second event, `error`, exactly from ERROR up |
| LogService.NormalizeErrorData | frontend/services/LogService.js:449-460 | an `Error` under the `error` key becomes the plain object of its message, stack and name; every other key, and a non-`Error` value, is kept (also lines 471-482) |
| LogService.NormalizeIdempotent | frontend/services/LogService.js:449-460 | normalising twice is normalising once |
| LogService.ParseLevel | frontend/services/LogService.js:501-519 | a name is accepted in any case when some level has it; a number exactly when it lies in 0..5; an accepted level lies in 0..5 |
| LogService.ParseLevelCaseInsensitive | frontend/services/LogService.js:503-511 | each level's name, and its lower-case spelling, selects that level |
| LogService.LevelNameRoundTrip | frontend/services/LogService.js:7-24 | each level's name names that level |
| LogService.LevelNameUpper | frontend/services/LogService.js:17-24 | level names are upper-case words, so upper-casing the argument can match them |
| LogService.Kept | frontend/services/LogService.js:381-384 | of a run of records, exactly those at or above the current level are kept, in order |
| LogService.Selected | frontend/services/LogService.js:544-570 | exactly the cached records that pass every filter that is set, in cache order |
| LogService.StagedIsSelected | frontend/services/LogService.js:547-570 | applying the set conditions one after the other (level, category, search, start, end) selects exactly the records that pass all of them |
| LogService.SliceKeepsSorted | frontend/services/LogService.js:574-581 | paginating a sorted list keeps it sorted |
| LogService.CountLevel | frontend/services/LogService.js:805-808 | a level's count is at most the number of records |
| LogService.LevelCountsTotal | frontend/services/LogService.js:805-808 | when every record has a known level, the per-level counts add up to the total |
| LogService.LevelCounts | frontend/services/LogService.js:805-808 | six counts, the `l`-th being the records at exactly level `l`, adding up to the total when all levels are known |
| LogService.CategoryCounts | frontend/services/LogService.js:811-814 | one count per known category: the number of records whose category is exactly that name (the length of the category filter), at most the number of records |
| LogService.StorageRecords | frontend/services/LogService.js:596-604 | the storage step writes exactly one record when storage is cleared and none otherwise: `Stored logs cleared` at INFO when removal succeeds, and on failure an ERROR record whose category is the `{error: message}` object (passed in the category position) with empty data |
| LogService.LogService.constructor | frontend/services/LogService.js:5-116 | a fresh service at level DEBUG with tracking on and no performance data, whose network status is the browser's and whose cache and events are what `initialize` leaves: `InitialCache` and `InitialEvents` |
| LogService.LogService.Initialize | frontend/services/LogService.js:86-111 | from the empty cache at DEBUG: the restored logs, the storage record, the network record when starting offline, then `LogService initialized`; the events are those of each record written, plus `networkStatusChanged` when offline |
| LogService.LogService.RestoreFromStorage | frontend/services/LogService.js:88-99 | at the default level every record of the storage step is kept: the cache becomes the restored logs followed by that record |
| LogService.LogService.LoadStoredLogs | frontend/services/LogService.js:132-146 | a stored array replaces the cache by its newest 1000 logs; then `Loaded N logs from storage` at INFO, or the failure record at ERROR when parsing throws, each under the level rule; nothing else is logged |
| LogService.LogService.SetupSystemMonitoring | frontend/services/LogService.js:184-197 | the first network check leaves the status the browser reports and writes the network record and event only when starting offline |
| LogService.LogService.UpdateNetworkStatus | frontend/services/LogService.js:203-209 | an unchanged status changes nothing; a new one is stored, logged under the level rule, and announced with `networkStatusChanged` whatever the level |
| LogService.Restored | frontend/services/LogService.js:137-140 | a stored array gives its newest `maxStoredLogs` (1000) logs in their order; anything else restores nothing |
| LogService.LoadRecords | frontend/services/LogService.js:132-146 | one record exactly when an array was restored (`Loaded N logs from storage` at INFO, N the number restored) or parsing threw (ERROR, with the `{error}` object as category); none otherwise |
| LogService.NetworkRecord | frontend/services/LogService.js:203-207 | the INFO `Network status changed` record, with the `{status}` object as category and empty data |
| LogService.InitializedRecord | frontend/services/LogService.js:108-111 | the INFO `LogService initialized` record, with the `{level: 'DEBUG', timestamp}` object as category |
| LogService.NetworkRecords | frontend/services/LogService.js:195-207 | the first network check writes one record when the browser starts offline and none when online |
| LogService.InitialCacheShape | frontend/services/LogService.js:86-146 | a fresh cache starts with at most 1000 restored logs, the newest stored ones in stored order, followed by `Loaded N logs from storage` when an array was found; it has one record per write on top of them, the network record second to last when starting offline, and `LogService initialized` last |
| LogService.LogService.Log | frontend/services/LogService.js:381-441 | a record below the current level has no effect at all; any other is appended to the cache and emits `Emitted` |
| LogService.LogService.LogError | frontend/services/LogService.js:449-485 | `error`/`fatal` log the normalised data under the same level rule |
| LogService.LogService.SetLevel | frontend/services/LogService.js:501-520 | an accepted level is stored and announced at INFO (kept only if the new level lets INFO through); a rejected argument leaves the level and is reported at ERROR |
| LogService.LogService.GetLevel | frontend/services/LogService.js:527-529 | the current level is always a named level in 0..5 |
| LogService.LogService.GetLogs | frontend/services/LogService.js:544-584 | the cache is not changed; the result is exactly the passing records in the stable timestamp order when sorting applies (descending unless `asc`), cut to the page `[offset, offset+limit)` when a limit is set; an offset without a limit is ignored |
| LogService.LogService.ApplyFilters | frontend/services/LogService.js:547-570 | the filter phase yields exactly `Selected` |
| LogService.LogService.ClearLogs | frontend/services/LogService.js:589-605 | the new cache is empty when `cache` is not false and the old cache otherwise, followed by `Log cache cleared` (only when the cache was cleared) and then the storage record, each kept only at or above the current level |
| LogService.LogService.ClearStorage | frontend/services/LogService.js:596-604 | the cache gains exactly the storage step's record when the current level keeps it, including the failure record with its `{error}` object as category |
| LogService.LogService.StartPerf | frontend/services/LogService.js:665-676 | with tracking off nothing changes; otherwise the key's entry restarts at the current reading and a DEBUG record is logged |
| LogService.LogService.EndPerf | frontend/services/LogService.js:682-702 | a duration is returned exactly when tracking is on and the key has an open entry; it closes the entry and is the elapsed time, so a second call returns nothing |
| LogService.LogService.GetPerfData | frontend/services/LogService.js:707-709 | the entry for the key, if there is one |
| LogService.LogService.ClearPerfData | frontend/services/LogService.js:727-735 | a non-empty key removes just that entry and logs `Performance data cleared for key` with the key; no key or an empty one clears every entry and logs `All performance data cleared`; both DEBUG records obey the level rule |
| LogService.LogService.GetStats | frontend/services/LogService.js:803-825 | the total is the cache's length; the level and category counts are `LevelCounts` and `CategoryCounts` of the cache, so each is at most the total and the level counts add up to it when all levels are known; oldest and newest times are the first and last records' |
| LogService.OrderedSelection | frontend/services/LogService.js:544-575 | the passing records, reordered when sorting applies: the same multiset as the selection, sorted by timestamp in the requested direction, and the selection itself when sorting does not apply |
| LogService.PageOfLogs | frontend/services/LogService.js:544-584 | the page `getLogs` returns holds only passing cache records, keeps the timestamp order, has at most `limit` records, and without a limit holds every passing record |
| MockFramework.XorBitsTwice | app/src/main/java/com/example/windowsandroidconnect/test/MockFramework.kt:642-644 | xor with the same key byte twice gives the byte back |
| MockFramework.Int32 | app/src/main/java/com/example/windowsandroidconnect/test/MockFramework.kt:634 | Kotlin `Int` arithmetic: the result is the 32-bit two's-complement value congruent to the exact sum, equal to it when it fits |
| MockFramework.Unmask | app/src/main/java/com/example/windowsandroidconnect/test/MockFramework.kt:641-645 | unmasking keeps the length and xors byte `i` with key byte `i mod 4` |
| MockFramework.UnmaskTwice | app/src/main/java/com/example/windowsandroidconnect/test/MockFramework.kt:641-645 | masking is its own inverse |
| MockFramework.LengthField | app/src/main/java/com/example/windowsandroidconnect/test/MockFramework.kt:603-620 | the length field is the 7-bit length below 126, the 16-bit big-endian length after 126, the low four bytes of the 64-bit length after 127; it is missing exactly when the extended length is cut off |
| MockFramework.ParseWebSocketFrame | app/src/main/java/com/example/windowsandroidconnect/test/MockFramework.kt:592-657 | the method that reads the header with a moving offset and unmasks in place returns exactly the frame parse of the bytes read |
| MockFramework.ReadLength | app/src/main/java/com/example/windowsandroidconnect/test/MockFramework.kt:603-620 | the byte-by-byte read of the length field agrees with the length-field function |
| MockFramework.ReadPayload | app/src/main/java/com/example/windowsandroidconnect/test/MockFramework.kt:623-645 | reading the mask key, bounding the payload with 32-bit sums, copying and unmasking agrees with the payload function |
| MockFramework.ExtractPayload | app/src/main/java/com/example/windowsandroidconnect/test/MockFramework.kt:634-645 | the copied payload is the slice of the buffer, unmasked by the key when the frame is masked |
| MockFramework.ParseFrameTruncated | app/src/main/java/com/example/windowsandroidconnect/test/MockFramework.kt:593-630 | frames shorter than two bytes, or whose extended length or mask key is cut off, give no message |
| MockFramework.ParseMaskedShortFrame | app/src/main/java/com/example/windowsandroidconnect/test/MockFramework.kt:598-657 | a short masked text frame decodes to the received payload xor the key, cut to the bytes present, and to nothing when no payload byte arrived |
| MockFramework.ParseFrameTextOnly | app/src/main/java/com/example/windowsandroidconnect/test/MockFramework.kt:647-650 | a frame whose opcode is not 1 (text) carries no message |
| MockFramework.ParseFrameOverflow | app/src/main/java/com/example/windowsandroidconnect/test/MockFramework.kt:634 | a 12-byte text frame announcing 2^31 - 1 payload bytes and carrying "AB" parses to the empty message, while the wrap-free parse gives "AB" |
| MockFramework.ParseFrameChecked | app/src/main/java/com/example/windowsandroidconnect/test/MockFramework.kt:592-657 | the intended parse: a message is only produced for a text frame, and it is non-empty and no longer than the bytes read |
| MockFramework.ParseFrameCheckedAgrees | app/src/main/java/com/example/windowsandroidconnect/test/MockFramework.kt:634 | while the announced length plus the bytes read stays below 2^31 the source's parse and the intended one agree |
| MockFramework.FrameHeader | app/src/main/java/com/example/windowsandroidconnect/test/MockFramework.kt:670-691 | the header written for an n-byte payload is 2, 4 or 10 bytes long by the three length forms |
| MockFramework.EncodeFrame | app/src/main/java/com/example/windowsandroidconnect/test/MockFramework.kt:670-697 | the frame is its header followed by the unmasked payload |
| MockFramework.CreateWebSocketFrame | app/src/main/java/com/example/windowsandroidconnect/test/MockFramework.kt:670-697 | the method appending header and payload bytes to a list builds exactly the encoded frame |
| MockFramework.FirstByteOpcode | app/src/main/java/com/example/windowsandroidconnect/test/MockFramework.kt:676 | the first header byte has FIN set and keeps the opcode in its low four bits |
| MockFramework.TextFrameRoundTrip | app/src/main/java/com/example/windowsandroidconnect/test/MockFramework.kt:670-697 | parsing the text frame built for a non-empty payload gives that payload back, under both the source's and the intended parse, in all three length forms |
| MockFramework.UnmaskedPayload | app/src/main/java/com/example/windowsandroidconnect/test/MockFramework.kt:634-657 | an unmasked frame whose header announces exactly the payload's length parses to that payload |
| MockFramework.ShortFrameRoundTrip | app/src/main/java/com/example/windowsandroidconnect/test/MockFramework.kt:670-680 | round trip for payloads below 126 bytes |
| MockFramework.MediumFrameRoundTrip | app/src/main/java/com/example/windowsandroidconnect/test/MockFramework.kt:678-683 | round trip for 126 to 65535 bytes, with a 16-bit length |
| MockFramework.LongFrameRoundTrip | app/src/main/java/com/example/windowsandroidconnect/test/MockFramework.kt:670-697 | round trip for longer payloads, with a 64-bit length whose high half is zero |
| MockFramework.BigEndian4 | app/src/main/java/com/example/windowsandroidconnect/test/MockFramework.kt:612-620 | four big-endian bytes of a number below 2^31 read back to that number |
| MockFramework.EncodeFrameNoMessage | app/src/main/java/com/example/windowsandroidconnect/test/MockFramework.kt:647-650 | a frame with a non-text opcode or an empty payload carries no message |
| MockFramework.NameOf | app/src/main/java/com/example/windowsandroidconnect/test/MockFramework.kt:405 | each mock service is named "http", "websocket" or "udp" |
| MockFramework.FindMatchingRule | app/src/main/java/com/example/windowsandroidconnect/test/MockFramework.kt:379-388 | the rule found is the one at the earliest index among enabled matching rules of greatest priority, and there is none exactly when no enabled rule matches |
| MockFramework.HttpRuleChoice | app/src/main/java/com/example/windowsandroidconnect/test/MockFramework.kt:379-388 | the HTTP mock finds no rule exactly when no enabled HTTP rule has the request's method (ignoring case) and path; a rule found is enabled, matches, and has the greatest priority among matching rules, the earliest on a tie |
| MockFramework.WebSocketReply | app/src/main/java/com/example/windowsandroidconnect/test/MockFramework.kt:547-590 | a reply is sent exactly when the received frame, read with the parse as written (32-bit wrap-around included), carries a message, an enabled WebSocket rule matches it and the body fits a frame; the reply is then the text frame of the rule's body, or of "{}" |
| MockFramework.WebSocketReplyReadable | app/src/main/java/com/example/windowsandroidconnect/test/MockFramework.kt:569-579 | a client parsing the reply frame reads back the rule's body, or "{}" when the rule has none |
| MockFramework.WithoutId | app/src/main/java/com/example/windowsandroidconnect/test/MockFramework.kt:182 | after removal no rule has the id, every remaining rule was there, and every rule with another id stays |
| MockFramework.Framework.constructor | app/src/main/java/com/example/windowsandroidconnect/test/MockFramework.kt:18-21 | a new framework has no services, no rules and is not initialised |
| MockFramework.Framework.Initialize | app/src/main/java/com/example/windowsandroidconnect/test/MockFramework.kt:127-136 | only the first call registers the http, websocket and udp services, each empty and stopped; later calls change nothing; rules are untouched |
| MockFramework.Framework.RegisterMockService | app/src/main/java/com/example/windowsandroidconnect/test/MockFramework.kt:141-144 | the service is stored under its own name, replacing any service of that name |
| MockFramework.Framework.GetMockService | app/src/main/java/com/example/windowsandroidconnect/test/MockFramework.kt:149-151 | a service is found exactly when one is registered under the name, and it is that service, whose own name is the one asked for |
| MockFramework.Framework.AddMockRule | app/src/main/java/com/example/windowsandroidconnect/test/MockFramework.kt:156-169 | the rule is appended to the service named after its protocol and to that protocol's global list; with no such service nothing changes |
| MockFramework.Framework.RemoveMockRule | app/src/main/java/com/example/windowsandroidconnect/test/MockFramework.kt:174-186 | the id disappears from every service and every global list, all other rules stay, no service or list is added or dropped |
| MockFramework.Framework.ClearAllMockRules | app/src/main/java/com/example/windowsandroidconnect/test/MockFramework.kt:191-197 | every service keeps its name and flags with no rules, and the global lists are gone |
| MockFramework.Framework.SetAllRunning | app/src/main/java/com/example/windowsandroidconnect/test/MockFramework.kt:202-225 | every registered service's running flag is set, nothing else changes |
| MockFramework.Framework.Shutdown | app/src/main/java/com/example/windowsandroidconnect/test/MockFramework.kt:867-873 | services and rules are emptied and the framework is uninitialised, so initialise works again |
| MockFramework.RemovedRuleNeverMatches | app/src/main/java/com/example/windowsandroidconnect/test/MockFramework.kt:174-186 | after removing an id no service can match a rule with that id, and any rule matched was there before |
| TcpStrategy.Lines | frontend/src/services/connection-strategy/TCPStrategy.js:137-143 | the text after the last complete line never holds a newline |
| TcpStrategy.LinesSpellInput | frontend/src/services/connection-strategy/TCPStrategy.js:136-143 | nothing is lost or invented: the lines, each with its newline, followed by the rest spell the input |
| TcpStrategy.LinesHaveNoNewline | frontend/src/services/connection-strategy/TCPStrategy.js:137-143 | no line holds a newline |
| TcpStrategy.LinesOfNoNewline | frontend/src/services/connection-strategy/TCPStrategy.js:137-143 | text without a newline stays entirely in the buffer |
| TcpStrategy.LinesStep | frontend/src/services/connection-strategy/TCPStrategy.js:137-141 | the text before the first newline is the first line, and the rest is split in the same way |
| TcpStrategy.LinesConcatHead | frontend/src/services/connection-strategy/TCPStrategy.js:128-141 | when `a` holds a newline, the first line of `a + b` is the first line of `a` |
| TcpStrategy.LinesConcat | frontend/src/services/connection-strategy/TCPStrategy.js:128-143 | splitting `a`, then splitting its unfinished rest followed by `b`, gives the lines and rest of `a + b` |
| TcpStrategy.LinesLoopStep | frontend/src/services/connection-strategy/TCPStrategy.js:136-143 | one turn of the loop moves the first line of the buffer to the lines already seen, keeping the split of the whole stream |
| TcpStrategy.Messages | frontend/src/services/connection-strategy/TCPStrategy.js:139-141 | every message reported is a complete line of the stream whose JavaScript trim (the full Unicode white-space set) is non-empty |
| TcpStrategy.FeedIsWhole | frontend/src/services/connection-strategy/TCPStrategy.js:126-146 | however the stream is cut into chunks, the messages reported are those of the whole stream and the buffer ends as its last partial line |
| TcpStrategy.Settle | frontend/src/services/connection-strategy/TCPStrategy.js:267-273 | a request is rejected exactly when the reply's `success` is false, with the reply's error or the fixed failure text when that is empty |
| TcpStrategy.DeviceEvents | frontend/src/services/connection-strategy/TCPStrategy.js:305-317 | a message type adds at most one device event |
| TcpStrategy.TcpStrategy.constructor | frontend/src/services/connection-strategy/TCPStrategy.js:9-31 | a new strategy has no socket, is not connected, has no pending callbacks, an empty buffer and request ids starting after 0 |
| TcpStrategy.TcpStrategy.OnConnect | frontend/src/services/connection-strategy/TCPStrategy.js:65-73 | on connect the strategy is connected and its reconnect attempts are reset |
| TcpStrategy.TcpStrategy.OnClose | frontend/src/services/connection-strategy/TCPStrategy.js:90-93 | on close the connected flag is cleared |
| TcpStrategy.TcpStrategy.HandleDataChunk | frontend/src/services/connection-strategy/TCPStrategy.js:126-146 | after a chunk, the messages reported are exactly the non-blank complete lines of the old buffer followed by the chunk, and the buffer holds what follows the last newline |
| TcpStrategy.TcpStrategy.Disconnect | frontend/src/services/connection-strategy/TCPStrategy.js:151-159 | with a socket, the socket is dropped and the buffer emptied; the flag written is `isConnected`, not the `_isConnected` that `isConnected()` reads; without a socket nothing changes |
| TcpStrategy.TcpStrategy.Send | frontend/src/services/connection-strategy/TCPStrategy.js:165-169 | a message is written exactly when there is a socket and it is connected |
| TcpStrategy.TcpStrategy.SendRequest | frontend/src/services/connection-strategy/TCPStrategy.js:253-276 | without a connection the request is refused with the fixed error and nothing changes; otherwise it gets the next id, a pending callback under that id, and is written |
| TcpStrategy.TcpStrategy.Timeout | frontend/src/services/connection-strategy/TCPStrategy.js:278-284 | a timeout rejects exactly a still-pending request and removes its callback |
| TcpStrategy.TcpStrategy.HandleMessage | frontend/src/services/connection-strategy/TCPStrategy.js:292-319 | a reply to a pending request settles and removes that callback and emits nothing; any other message emits its type's event and then its device event |
| ConnectionPool.MergeMetrics | backend/src/utils/connection-pool.ts:143-146 | every metric given in the update wins and every other keeps its old value |
| ConnectionPool.MergeMetricsLaws | backend/src/utils/connection-pool.ts:143-146 | an empty update changes nothing, and applying the same update twice is applying it once |
| ConnectionPool.ValuesInOrder | backend/src/utils/connection-pool.ts:72-74 | the connections listed are those of the ids, one per id, in the ids' order |
| ConnectionPool.StateCountsCover | backend/src/utils/connection-pool.ts:200-221 | every connection is counted in exactly one of the four states |
| ConnectionPool.Utilization | backend/src/utils/connection-pool.ts:218 | utilization is never negative and at most 100 while the pool is within capacity |
| ConnectionPool.UtilizationExample | backend/src/utils/connection-pool.ts:218 | two connections in a pool of ten give a utilization of 20 |
| ConnectionPool.Stats | backend/src/utils/connection-pool.ts:200-221 | the statistics count the connections, the state counts add up to the total, and each is the number of connections in that state |
| ConnectionPool.WithoutFacts | backend/src/utils/connection-pool.ts:59-67 | dropping an id from a duplicate-free insertion order keeps it duplicate-free and shortens it by one exactly when the id was listed |
| ConnectionPool.Pool.Size | backend/src/utils/connection-pool.ts:95-97 | the size is the number of ids in insertion order |
| ConnectionPool.Pool.constructor | backend/src/utils/connection-pool.ts:20-27 | a new pool is empty, without timers or events, and each option falls back to its default when absent or 0 |
| ConnectionPool.Pool.AddConnection | backend/src/utils/connection-pool.ts:32-40 | a connection is refused exactly at capacity, leaving everything as it was; otherwise it is stored under its id, appended to the order unless the id was there, and reported |
| ConnectionPool.Pool.GetConnection | backend/src/utils/connection-pool.ts:45-54 | a connection is found exactly when its id is stored; a hit clears that id's idle timer and stamps the activity time, a miss changes nothing |
| ConnectionPool.Pool.RemoveConnection | backend/src/utils/connection-pool.ts:59-67 | the id's timer is cleared in any case; a stored connection is removed from map and order, reported, and returned; an unknown id returns nothing |
| ConnectionPool.Pool.AllConnections | backend/src/utils/connection-pool.ts:72-74 | the list holds one entry per stored id, and exactly the stored connections |
| ConnectionPool.Pool.ActiveConnections | backend/src/utils/connection-pool.ts:79-83 | exactly the stored connections whose state is connected |
| ConnectionPool.Pool.AvailableSlots | backend/src/utils/connection-pool.ts:102-104 | the free slots are capacity minus size, never negative, and zero exactly when the pool is full |
| ConnectionPool.Pool.UpdateConnectionState | backend/src/utils/connection-pool.ts:108-129 | an unknown id returns false and changes nothing; otherwise only that connection's state and activity time change and the old and new state are reported |
| ConnectionPool.Pool.UpdateConnectionMetrics | backend/src/utils/connection-pool.ts:134-155 | an unknown id returns false and changes nothing; otherwise the update is merged over that connection's metrics, the activity time set, and the merged metrics reported |
| ConnectionPool.Pool.WriteThrough | backend/src/utils/connection-pool.ts:45-54 | a write through the object handed out by a lookup changes the stored connection and nothing else |
| ConnectionPool.Pool.SetIdleTimer | backend/src/utils/connection-pool.ts:160-174 | the id ends with exactly one pending idle timer |
| ConnectionPool.Pool.IdleTimerFires | backend/src/utils/connection-pool.ts:163-169 | when the timer fires, a connection still present is reported idle and removed; the timer is gone in any case |
| ConnectionPool.Pool.GetStats | backend/src/utils/connection-pool.ts:200-221 | the statistics are those of the stored connections in insertion order and the configured capacity |
| ConnectionPool.Pool.Clear | backend/src/utils/connection-pool.ts:226-238 | every timer and connection is dropped and the clearing is reported |
| ConnectionManager.Backoff | backend/src/services/connection-manager/index.ts:253-258 | the delay is the smaller of base times 2^attempts and 30 seconds, and is one of the two |
| ConnectionManager.BackoffMonotone | backend/src/services/connection-manager/index.ts:253-258 | later attempts never wait less |
| ConnectionManager.DefaultBackoffSchedule | backend/src/services/connection-manager/index.ts:253-258 | with the default base of one second the delays are 1, 2, 4, 8 and 16 seconds, and 30 seconds from the sixth attempt on |
| ConnectionManager.ReconnectEvent | backend/src/services/connection-manager/index.ts:241-267 | reconnection fails exactly at the attempt limit; otherwise the event carries the next attempt number and its backoff delay |
| ConnectionManager.NewConnection | backend/src/services/connection-manager/index.ts:111-126 | a created connection has the fresh id, the client id, the websocket protocol, the connecting state, zero metrics and the current time for both stamps |
| ConnectionManager.AddTo | backend/src/services/connection-manager/index.ts:338-377 | recording grows exactly the chosen counter by the amount and leaves the others as they were |
| ConnectionManager.Cancelled | backend/src/services/connection-manager/index.ts:411-417 | clearing cancels the timer whose handle is kept for the id and no other pending timer |
| ConnectionManager.Reconnect | backend/src/services/connection-manager/index.ts:238-280 | the reconnection event is emitted; a pooled connection stays pooled exactly below the limit; at the limit counters, handles and pending timers are kept; below it the counter goes up by one and the new timer, for the next attempt after the backoff delay, is kept and pending and is not an earlier one; no pending timer is cancelled; only pooled connections stay checked |
| ConnectionManager.Unhealthy | backend/src/services/connection-manager/index.ts:222-233 | an id no longer pooled changes nothing; otherwise the reconnection event is emitted, and the connection is in the error state below the limit and removed at it; only pooled connections stay checked |
| ConnectionManager.Disconnect | backend/src/services/connection-manager/index.ts:308-323 | an unknown id changes nothing; otherwise the loss and then the reconnection event are emitted; below the limit the connection is disconnected and its counter one higher; at it the connection is removed and no longer checked |
| ConnectionManager.Connect | backend/src/services/connection-manager/index.ts:285-303 | an unknown id changes nothing; otherwise the connection is connected, its counter 0, its handle dropped, only the timer that handle refers to cancelled, and the establishment reported |
| ConnectionManager.Fire | backend/src/services/connection-manager/index.ts:270-277 | the fired timer is no longer pending, a pooled connection goes back to connecting, handles and counters stay, and the attempt number the timer was set with is reported |
| ConnectionManager.Stamped | backend/src/services/connection-manager/index.ts:182 | the lookup keeps the pooled ids and every connection's state |
| ConnectionManager.Checked | backend/src/utils/health-checker.ts:83-152 | the failure count is updated; below the limit no connection leaves, nothing is reported and no timer changes; at the limit a pooled connection is handled: the reconnection event is emitted and it stays pooled exactly below the attempt limit; only pooled connections stay checked |
| ConnectionManager.CheckAsWritten | backend/src/utils/health-checker.ts:83-126 | the id is always checked again afterwards |
| ConnectionManager.RemovedStillCheckedAsWritten | backend/src/utils/health-checker.ts:115-125 | a connection removed by its own failed check at the attempt limit is still checked, so a checked connection is no longer pooled (with backend/src/services/connection-manager/index.ts:93-95 and :241-243) |
| ConnectionManager.RemovedCheckedForeverAsWritten | backend/src/utils/health-checker.ts:83-126 | after the removal every later check fails, adds one to the count, sets the timer again and emits nothing from the manager |
| ConnectionManager.CheckIntended | backend/src/utils/health-checker.ts:83-126 | the id is checked again exactly when it is still pooled, so only pooled connections stay checked, and a pooled connection below the attempt limit keeps being checked |
| ConnectionManager.StaleReconnectFires | backend/src/services/connection-manager/index.ts:270-279 | after two reconnections and a mark as connected, the first timer is still pending, and when it fires the connected connection goes back to connecting with the stale attempt number (also lines 285-297 and 411-417) |
| ConnectionManager.Manager.Attempts | backend/src/services/connection-manager/index.ts:241 | the attempts made are the stored counter, or 0 when none is stored |
| ConnectionManager.Manager.constructor | backend/src/services/connection-manager/index.ts:31-60 | a new manager has a fresh empty pool and a fresh health checker, each option falling back to its default when absent or 0, and no reconnect timer is kept or pending |
| ConnectionManager.Manager.CreateConnection | backend/src/services/connection-manager/index.ts:102-142 | creation fails with the pool-full error exactly when the pool is at capacity, changing nothing; otherwise the new connecting connection is pooled, its attempt counter set to 0 and its health checks started |
| ConnectionManager.Manager.GetConnection | backend/src/services/connection-manager/index.ts:147-153 | a connection is returned exactly when it is pooled, stamped with the current time; otherwise the not-found error naming the id |
| ConnectionManager.Manager.CloseConnection | backend/src/services/connection-manager/index.ts:158-175 | an unknown id gives the not-found error and changes nothing; a pooled connection leaves the pool, the pool's removal event stops its health checks, the reconnect timer whose handle is kept is cancelled, the handle and the attempt counter are dropped, and the close is reported as manual |
| ConnectionManager.Manager.RemoveFromPool | backend/src/services/connection-manager/index.ts:71-74 | a removal from the pool drops the connection, and the listener on the pool's removal event stops the health checks of a connection actually removed |
| ConnectionManager.Manager.ClearReconnectTimer | backend/src/services/connection-manager/index.ts:411-417 | the handle kept for the id is dropped and only the timer it refers to is cancelled |
| ConnectionManager.Manager.PerformHealthCheck | backend/src/services/connection-manager/index.ts:180-193 | a check passes exactly when the connection is pooled and connected; the lookup stamps the connection's activity time |
| ConnectionManager.Manager.HealthCheck | backend/src/services/connection-manager/index.ts:198-217 | the same answer as the check, and a passing connection's failure count is reset |
| ConnectionManager.Manager.RunScheduledCheckAsWritten | backend/src/utils/health-checker.ts:83-126 | a completed scheduled check, in the source's order, moves the manager as CheckAsWritten says: the result is recorded, the unhealthy report handled at once, and the next check set regardless; the checker's events are those of the check |
| ConnectionManager.Manager.CountCheck | backend/src/utils/health-checker.ts:83-152 | a check up to the scheduling of the next one moves the manager as Checked says, and the checker's events are those of the check (with the listener at backend/src/services/connection-manager/index.ts:93-96) |
| ConnectionManager.Manager.SetState | backend/src/services/connection-manager/index.ts:223-229 | an unknown id is not found and changes nothing; a pooled connection takes the state and the current time (also lines 286-291 and 309-314) |
| ConnectionManager.Manager.RunScheduledCheck | backend/src/utils/health-checker.ts:83-126 | a completed scheduled check moves the manager as CheckIntended says, so a connection the unhealthy handling removed is no longer checked, and only pooled connections stay checked; the checker's events are those of the check |
| ConnectionManager.Manager.HandleUnhealthyConnection | backend/src/services/connection-manager/index.ts:222-233 | the manager moves as Unhealthy says: nothing for an id no longer pooled; otherwise the error state, then the reconnection step |
| ConnectionManager.Manager.AttemptReconnection | backend/src/services/connection-manager/index.ts:238-280 | the manager moves as Reconnect says: at the limit the connection is removed and its checks stopped; below it the counter goes up and a new timer is set whose handle replaces the kept one, the older timer staying pending |
| ConnectionManager.Manager.ReconnectTimerFires | backend/src/services/connection-manager/index.ts:270-277 | a pending timer firing moves the manager as Fire says: it is no longer pending, a still-pooled connection goes back to connecting and the timer's attempt number is reported |
| ConnectionManager.Manager.MarkConnected | backend/src/services/connection-manager/index.ts:285-303 | the manager moves as Connect says: an unknown id changes nothing; otherwise connected, the counter back to 0, and only the timer whose handle is kept cancelled |
| ConnectionManager.Manager.MarkDisconnected | backend/src/services/connection-manager/index.ts:308-323 | the manager moves as Disconnect says: an unknown id changes nothing; otherwise disconnected, the loss reported, then the reconnection step, which at the limit removes the connection and stops its checks and below it sets the next timer |
| ConnectionManager.Manager.UpdateMetrics | backend/src/services/connection-manager/index.ts:328-333 | the pooled connection's metrics are the partial metrics merged over the old ones; an unknown id changes nothing |
| ConnectionManager.Manager.Record | backend/src/services/connection-manager/index.ts:338-377 | an unknown id is ignored; otherwise the chosen counter grows by the amount in the pooled connection and its activity time is set |
| ConnectionManager.Manager.RecordBytesIn | backend/src/services/connection-manager/index.ts:338-347 | the pooled connection's bytes-in counter grows by the amount; an unknown id changes nothing |
| ConnectionManager.Manager.RecordBytesOut | backend/src/services/connection-manager/index.ts:349-358 | the pooled connection's bytes-out counter grows by the amount; an unknown id changes nothing |
| ConnectionManager.Manager.RecordMessageIn | backend/src/services/connection-manager/index.ts:360-369 | the pooled connection's messages-in counter grows by one; an unknown id changes nothing |
| ConnectionManager.Manager.RecordMessageOut | backend/src/services/connection-manager/index.ts:371-380 | the pooled connection's messages-out counter grows by one; an unknown id changes nothing |
| ConnectionManager.Manager.Destroy | backend/src/services/connection-manager/index.ts:422-440 | the reconnect timers whose handles are kept are cancelled and the handles dropped, while a timer whose handle was overwritten stays pending; attempt counters, health checks and connections are dropped |
| HealthChecker.NextFailures | backend/src/utils/health-checker.ts:100-104 | the count after a check is 0 exactly when the check passed, otherwise one more than before |
| HealthChecker.FailuresCountConsecutive | backend/src/utils/health-checker.ts:100-136 | the failure count is the number of consecutive failures since the last pass |
| HealthChecker.HealthChecker.constructor | backend/src/utils/health-checker.ts:32-40 | a new checker has no timers, no counts, is not running, and each option falls back to its default when absent or 0 |
| HealthChecker.HealthChecker.StartCheck | backend/src/utils/health-checker.ts:45-56 | the id gets a timer, and a count of 0 only when it has no count yet |
| HealthChecker.HealthChecker.StopCheck | backend/src/utils/health-checker.ts:61-67 | the id's timer is gone, nothing else changes |
| HealthChecker.HealthChecker.ScheduleCheck | backend/src/utils/health-checker.ts:72-78 | the id has a timer afterwards |
| HealthChecker.HealthChecker.RecordResult | backend/src/utils/health-checker.ts:83-122 | a pass resets the count and is reported; a failure (an error, a false answer or the timeout) increments it, is reported, and reports the connection unhealthy once the count reaches the limit |
| HealthChecker.HealthChecker.CheckCompleted | backend/src/utils/health-checker.ts:83-126 | with nobody listening, a pass resets the count; a failure (an error, a false answer or the timeout) increments it and reports the connection unhealthy once the count reaches the limit; the next check is scheduled either way |
| HealthChecker.HealthChecker.HandleCheckFailure | backend/src/utils/health-checker.ts:131-152 | a failure increments the count and is reported, followed by an unhealthy report exactly when the count reached the limit |
| HealthChecker.HealthChecker.GetHealthStatus | backend/src/utils/health-checker.ts:157-170 | a connection is healthy exactly while its failure count is below the limit; the last check time is never recorded by the source, so it is always absent |
| HealthChecker.HealthChecker.ResetFailureCount | backend/src/utils/health-checker.ts:175-177 | the count becomes 0 |
| HealthChecker.HealthChecker.StopAll | backend/src/utils/health-checker.ts:182-188 | no timers remain and the checker is not running |
| HealthChecker.HealthChecker.MonitoredConnections | backend/src/utils/health-checker.ts:193-195 | the monitored ids are exactly those with a timer |
| HealthChecker.HealthChecker.Destroy | backend/src/utils/health-checker.ts:200-205 | no timers and no counts remain, and the checker is not running |
| HealthChecker.CheckEvents | backend/src/utils/health-checker.ts:83-152 | a pass emits exactly one pass event; a failure emits a failure event first, and only the last event can be the unhealthy report |
| TransferSessions.AddChunk | backend/src/utils/file-transfer-manager.ts:108-123 | the completed list stays ascending and gains exactly the index; an index already there changes nothing, a new one lengthens the list by one |
| TransferSessions.AddChunkIdempotent | backend/src/utils/file-transfer-manager.ts:108-123 | completing a chunk twice is completing it once |
| TransferSessions.TotalChunks | backend/src/utils/file-transfer-manager.ts:134 | the chunk count is the ceiling of size over chunk size: enough chunks to cover the file and no chunk wholly past its end |
| TransferSessions.PendingChunksSpec | backend/src/utils/file-transfer-manager.ts:128-144 | the pending chunks are exactly the indices below the chunk count that are not completed, in ascending order |
| TransferSessions.OneMebibytePending | backend/tests/unit/services/file-transfer.test.ts:326-345 | one mebibyte in 64 KiB chunks with none completed has the sixteen chunks 0..15 pending |
| TransferSessions.ChunkAt | backend/src/utils/file-transfer-manager.ts:149-169 | a chunk exists exactly when its offset is before the end of the file; it starts at index times chunk size and is cut at the end of the file |
| TransferSessions.ChunksTile | backend/src/utils/file-transfer-manager.ts:149-169 | chunks 0 up to the chunk count minus one exist and tile the file: each non-empty, each starting where the previous ends, the last ending at the file's end |
| TransferSessions.Percentage | backend/src/utils/file-transfer-manager.ts:301 | a percentage exists exactly when the file is non-empty (JavaScript gives NaN or Infinity otherwise) |
| TransferSessions.PercentageBound | backend/src/utils/file-transfer-manager.ts:301 | a share of at most the whole is between 0 and 100 percent |
| TransferSessions.ProgressAsWritten | backend/src/utils/file-transfer-manager.ts:286-311 | the source's progress counts every completed chunk as a full chunk size |
| TransferSessions.ProgressOverstates | backend/src/utils/file-transfer-manager.ts:300-301 | a 100-byte file in 64-byte chunks with both chunks done reports 128 bytes and 128 percent |
| TransferSessions.ChunkBytes | backend/src/utils/file-transfer-manager.ts:149-169 | a real chunk holds its size, an index past the end or before the start holds nothing |
| TransferSessions.CompletedBytesBound | backend/src/utils/file-transfer-manager.ts:286-311 | distinct completed chunks never hold more bytes than the file |
| TransferSessions.ProgressOf | backend/src/utils/file-transfer-manager.ts:286-311 | the corrected progress never exceeds the file's size or 100 percent, and reports the chunk counts as the source does |
| TransferSessions.ProgressAgreesOnFullChunks | backend/src/utils/file-transfer-manager.ts:286-311 | where the last chunk is full the source's progress and the corrected one agree |
| TransferSessions.FileTransferManager.constructor | backend/src/utils/file-transfer-manager.ts:36-47 | a new manager has no sessions and no active transfers, and each option falls back to its default |
| TransferSessions.FileTransferManager.CreateSession | backend/src/utils/file-transfer-manager.ts:52-76 | the new session is pending, has no completed chunks, the manager's chunk size and an empty checksum, and replaces any session of that id |
| TransferSessions.FileTransferManager.GetSession | backend/src/utils/file-transfer-manager.ts:81-83 | a session is found exactly when one is stored under the id |
| TransferSessions.FileTransferManager.UpdateSessionStatus | backend/src/utils/file-transfer-manager.ts:88-103 | an unknown id gives nothing and changes nothing; otherwise only that session's status and update time change |
| TransferSessions.FileTransferManager.MarkChunkCompleted | backend/src/utils/file-transfer-manager.ts:108-123 | false for an unknown session; otherwise the index joins that session's ascending list once |
| TransferSessions.FileTransferManager.GetPendingChunks | backend/src/utils/file-transfer-manager.ts:128-144 | an unknown session has no pending chunks; otherwise they are the session's chunks not yet completed, ascending |
| TransferSessions.FileTransferManager.GetChunkInfo | backend/src/utils/file-transfer-manager.ts:149-169 | an unknown session has no chunk; otherwise the chunk at the index of that session's file |
| TransferSessions.FileTransferManager.GetProgress | backend/src/utils/file-transfer-manager.ts:286-311 | progress exists exactly for a stored session; as written the bytes are the completed chunks times the chunk size (so a short last chunk is overcounted), the chunk total and percentage follow from them, and the result equals the corrected ProgressOf whenever every completed chunk is a full one |
| TransferSessions.FileTransferManager.SetChecksum | backend/src/utils/file-transfer-manager.ts:316-328 | false for an unknown session; otherwise only that session's checksum and update time change |
| TransferSessions.FileTransferManager.DeleteSession | backend/src/utils/file-transfer-manager.ts:333-345 | false when absent, changing nothing; otherwise the session leaves the map and the active set |
| TransferSessions.FileTransferManager.CanStartTransfer | backend/src/utils/file-transfer-manager.ts:357-359 | a transfer may start exactly while fewer than the limit are active |
| TransferSessions.FileTransferManager.StartTransfer | backend/src/utils/file-transfer-manager.ts:364-374 | refused at the concurrency limit, changing nothing; otherwise the id becomes active and a stored session goes in progress |
| TransferSessions.FileTransferManager.EndTransfer | backend/src/utils/file-transfer-manager.ts:379-382 | the id is no longer active |
| TransferSessions.FileTransferManager.ActiveTransferCount | backend/src/utils/file-transfer-manager.ts:387-389 | the count is the number of active ids |
| TransferSessions.FileTransferManager.Clear | backend/src/utils/file-transfer-manager.ts:466-477 | no sessions and no active transfers remain |
| ChunkReceiver.ChunkProgress | backend/src/fileTransfer/fileTransferManager.js:112 | the progress is the received share of the announced chunks, its exact value rounded half up, and absent exactly when no chunks were announced (JavaScript's result is not finite there) |
| ChunkReceiver.ChunkProgressEnds | backend/src/fileTransfer/fileTransferManager.js:112 | all announced chunks received is 100 percent and none is 0 percent |
| ChunkReceiver.ChunkProgressBounds | backend/src/fileTransfer/fileTransferManager.js:112 | while no more chunks arrived than announced the progress stays between 0 and 100 |
| ChunkReceiver.ChunkProgressRoundsUp | backend/src/fileTransfer/fileTransferManager.js:112 | 199 chunks of 200 already report 100 percent |
| ChunkReceiver.TransferHandler.constructor | backend/src/fileTransfer/fileTransferManager.js:7-10 | a new handler has no active transfers |
| ChunkReceiver.TransferHandler.HandleFileTransferRequest | backend/src/fileTransfer/fileTransferManager.js:18-35 | any other action fails with the unknown-action error and changes nothing; a request for an active id is refused, otherwise a new pending transfer is stored; a chunk, complete, cancel or progress message for an unknown id fails with not-found and otherwise stores the chunk, completes the transfer once all chunks are in (refusing it before), removes it, or stores the reported figures |
| ChunkReceiver.TransferHandler.HandleTransferRequest | backend/src/fileTransfer/fileTransferManager.js:45-76 | an id already active is refused and nothing changes; otherwise a pending transfer is stored with the 1 MiB chunk count of the file and no chunks received |
| ChunkReceiver.TransferHandler.HandleTransferChunk | backend/src/fileTransfer/fileTransferManager.js:89-125 | an unknown transfer fails with not-found; otherwise the chunk is stored under its number (a repeat replaces the earlier one), the total is taken from the message, the received count is the number of distinct chunks, and the progress follows |
| ChunkReceiver.TransferHandler.HandleTransferComplete | backend/src/fileTransfer/fileTransferManager.js:133-171 | an unknown transfer fails with not-found; a transfer whose received count differs from its total is refused; otherwise it is completed with its duration |
| ChunkReceiver.TransferHandler.HandleTransferCancel | backend/src/fileTransfer/fileTransferManager.js:179-203 | an unknown transfer fails with not-found; otherwise it leaves the active map |
| ChunkReceiver.TransferHandler.HandleTransferProgress | backend/src/fileTransfer/fileTransferManager.js:214-236 | an unknown transfer fails with not-found; otherwise the sender's own progress figures are stored as given |
| ChunkReceiver.TransferHandler.GetTransferStatus | backend/src/fileTransfer/fileTransferManager.js:256-258 | a status exists exactly for an active transfer and is that transfer |
| ResumableTransfer.Resume | app/src/main/java/com/example/windowsandroidconnect/transfer/ResumableFileTransfer.kt:147-166 | only a paused or failed transfer resumes, going back to pending with its progress kept |
| ResumableTransfer.Pause | app/src/main/java/com/example/windowsandroidconnect/transfer/ResumableFileTransfer.kt:171-193 | only a running transfer pauses, keeping its progress |
| ResumableTransfer.Complete | app/src/main/java/com/example/windowsandroidconnect/transfer/ResumableFileTransfer.kt:507-537 | a transfer ends completed on success and failed otherwise, keeping the message only on failure and its progress either way |
| ResumableTransfer.PauseResume | app/src/main/java/com/example/windowsandroidconnect/transfer/ResumableFileTransfer.kt:147-193 | pausing a running transfer and resuming it brings it back to pending at the same chunk; a completed or cancelled transfer can be neither paused nor resumed |
| ResumableTransfer.UploadPlanShape | app/src/main/java/com/example/windowsandroidconnect/transfer/ResumableFileTransfer.kt:301-363 | the chunks uploaded are numbered consecutively from the resume point, lie back to back from the recorded offset, are each at most 1 MiB and never pass the end of the file |
| ResumableTransfer.FullReadsFinish | app/src/main/java/com/example/windowsandroidconnect/transfer/ResumableFileTransfer.kt:313-363 | when every read returns the full chunk asked for, the upload reaches the end of the file |
| ResumableTransfer.ChunkMessages | app/src/main/java/com/example/windowsandroidconnect/transfer/ResumableFileTransfer.kt:455-475 | one chunk message per planned chunk, carrying that chunk's number, size and offset |
| ResumableTransfer.StatesInOrder | app/src/main/java/com/example/windowsandroidconnect/transfer/ResumableFileTransfer.kt:616-623 | the stored states listed in the enumeration order of their ids |
| ResumableTransfer.FirstPending | app/src/main/java/com/example/windowsandroidconnect/transfer/ResumableFileTransfer.kt:239-265 | the entry picked is pending and no earlier entry is; none is picked exactly when no entry is pending |
| ResumableTransfer.ResumableFileTransfer.constructor | app/src/main/java/com/example/windowsandroidconnect/transfer/ResumableFileTransfer.kt:72-80 | a new manager has no active transfers, an empty queue, no jobs, nothing sent, and the stored preferences it was given |
| ResumableTransfer.ResumableFileTransfer.Put | app/src/main/java/com/example/windowsandroidconnect/transfer/ResumableFileTransfer.kt:566-583 | a state is stored both in the active map and in the preferences |
| ResumableTransfer.ResumableFileTransfer.StartTransfer | app/src/main/java/com/example/windowsandroidconnect/transfer/ResumableFileTransfer.kt:106-142 | an upload whose file is missing throws the file-missing error and changes nothing; otherwise a pending state at offset 0 and chunk -1 is stored and queued |
| ResumableTransfer.ResumableFileTransfer.ResumeTransfer | app/src/main/java/com/example/windowsandroidconnect/transfer/ResumableFileTransfer.kt:147-166 | a transfer is queued again exactly when its stored state is paused or failed, going back to pending; otherwise nothing changes |
| ResumableTransfer.ResumableFileTransfer.PauseTransfer | app/src/main/java/com/example/windowsandroidconnect/transfer/ResumableFileTransfer.kt:171-193 | exactly a running transfer pauses and its job is cancelled; otherwise nothing changes |
| ResumableTransfer.ResumableFileTransfer.CancelTransfer | app/src/main/java/com/example/windowsandroidconnect/transfer/ResumableFileTransfer.kt:198-224 | any known transfer leaves the queue, becomes cancelled and the peer is told; an unknown id changes nothing |
| ResumableTransfer.ResumableFileTransfer.ProcessQueueStep | app/src/main/java/com/example/windowsandroidconnect/transfer/ResumableFileTransfer.kt:239-296 | with three transfers running nothing starts; otherwise the first pending entry leaves the queue and its job starts, a download sending its request at once |
| ResumableTransfer.ResumableFileTransfer.UpdateTransferProgress | app/src/main/java/com/example/windowsandroidconnect/transfer/ResumableFileTransfer.kt:493-502 | a known transfer records the new size and chunk number; an unknown id changes nothing |
| ResumableTransfer.ResumableFileTransfer.CompleteTransfer | app/src/main/java/com/example/windowsandroidconnect/transfer/ResumableFileTransfer.kt:507-537 | a known transfer ends by the completion rule, its job is dropped and the peer is told; an unknown id changes nothing |
| ResumableTransfer.ResumableFileTransfer.HandleTransferError | app/src/main/java/com/example/windowsandroidconnect/transfer/ResumableFileTransfer.kt:542-561 | a known transfer fails with the message; an unknown id changes nothing |
| ResumableTransfer.ResumableFileTransfer.SendChunk | app/src/main/java/com/example/windowsandroidconnect/transfer/ResumableFileTransfer.kt:340-350 | a chunk of a running upload is sent and recorded as the transfer's progress |
| ResumableTransfer.ResumableFileTransfer.SendChunks | app/src/main/java/com/example/windowsandroidconnect/transfer/ResumableFileTransfer.kt:313-353 | while the transfer runs, exactly the planned chunks are sent and recorded as its progress; a transfer that is not running sends nothing |
| ResumableTransfer.ResumableFileTransfer.PerformUpload | app/src/main/java/com/example/windowsandroidconnect/transfer/ResumableFileTransfer.kt:301-363 | a missing file sends nothing, stores the transfer as failed with the file-missing message and drops its job; otherwise the request is sent, the upload resumes at the chunk after the last one recorded, sends the planned chunks from the recorded offset, and completes when the end of the file is reached |
| ResumableTransfer.ResumableFileTransfer.HandleReceivedChunk | app/src/main/java/com/example/windowsandroidconnect/transfer/ResumableFileTransfer.kt:379-416 | for a download the chunk is written and recorded, and the transfer completes once the end is reached; a failed write fails it; unknown transfers and uploads are ignored |
| ResumableTransfer.ResumableFileTransfer.GetPendingTransfers | app/src/main/java/com/example/windowsandroidconnect/transfer/ResumableFileTransfer.kt:616-623 | with `ids` listing every stored key once: every stored paused or failed transfer is in the pending list, and everything in it is a stored paused or failed transfer |
| ResumableTransfer.ResumableFileTransfer.GetTransferHistory | app/src/main/java/com/example/windowsandroidconnect/transfer/ResumableFileTransfer.kt:628-636 | with `ids` listing every stored key once: the history is the first `limit` of the stored states sorted most recently updated first, so it is sorted, drawn from the stored states, holds `min(limit, stored)` of them (all of them when `limit` covers the store), and no stored state left out was updated after one listed |
| ResumableTransfer.ResumableFileTransfer.ClearCompletedTransfers | app/src/main/java/com/example/windowsandroidconnect/transfer/ResumableFileTransfer.kt:641-655 | exactly the completed and cancelled states leave the preferences, and the others stay unchanged |
| ResumableTransfer.ResumableFileTransfer.Cleanup | app/src/main/java/com/example/windowsandroidconnect/transfer/ResumableFileTransfer.kt:708-716 | no jobs, no active transfers and an empty queue remain |
| TransferService.FirstIndex | frontend/services/FileTransferService.js:414-429 | the index found holds the id and no earlier one does; none is found exactly when no task has the id |
| TransferService.Locate | frontend/services/FileTransferService.js:414-429 | the search goes through the upload queue, then the download queue, then the history, and finds the first task with the id; none exactly when no list holds it |
| TransferService.FindTransfer | frontend/services/FileTransferService.js:414-429 | a task is found exactly when the search locates one, and it carries the id asked for |
| TransferService.LocateAfterSet | frontend/services/FileTransferService.js:329-369 | replacing the task found by one with the same id leaves it the one found |
| TransferService.RemoveId | frontend/services/FileTransferService.js:198-203 | after filtering, no task of that queue has the id |
| TransferService.Retire | frontend/services/FileTransferService.js:174-222 | a finished task's copy is appended to the history and the task leaves its kind's queue |
| TransferService.RetireValid | frontend/services/FileTransferService.js:174-222 | retiring a finished task from its own queue keeps every queued task unfinished and in the queue of its kind |
| TransferService.Pause | frontend/services/FileTransferService.js:329-345 | a task is paused exactly when it is found and in progress; otherwise nothing changes |
| TransferService.Resume | frontend/services/FileTransferService.js:352-369 | a task resumes exactly when it is found and paused, going back in progress with its clock reset; otherwise nothing changes |
| TransferService.PauseThenResume | frontend/services/FileTransferService.js:329-369 | pausing and resuming a task in progress brings it back in progress, with only its clock changed |
| TransferService.SetValid | frontend/services/FileTransferService.js:329-369 | changing the status of a queued task to one that is not finished keeps the queues valid |
| TransferService.Cancel | frontend/services/FileTransferService.js:376-406 | exactly a queued, running or paused task is cancelled: marked cancelled, removed from its queue, its copy appended to the history; otherwise nothing changes |
| TransferService.CancelValid | frontend/services/FileTransferService.js:376-406 | a cancellation keeps the queues valid |
| TransferService.CancelHead | frontend/services/FileTransferService.js:376-406 | with distinct ids, cancelling the head of the first non-empty queue removes exactly that task |
| TransferService.CancelHeadRest | frontend/services/FileTransferService.js:522-531 | after cancelling the first queued task the queued tasks are the rest, still valid and with distinct ids |
| TransferService.CancelEachCons | frontend/services/FileTransferService.js:522-531 | cancelling a list of ids is cancelling the first, then the rest |
| TransferService.CancelAllEmpties | frontend/services/FileTransferService.js:522-531 | cancelling every queued id in turn empties both queues when the ids are distinct |
| TransferService.StartQueued | frontend/services/FileTransferService.js:85-100 | the start pass keeps the length of the queue |
| TransferService.StartAll | frontend/services/FileTransferService.js:92-100 | every queued task is started and every other task kept |
| TransferService.QueuedFromSpec | frontend/services/FileTransferService.js:92-94 | the indices collected are exactly those of the queued tasks |
| TransferService.StartedAll | frontend/services/FileTransferService.js:92-100 | starting exactly the queued tasks one at a time is the start pass |
| TransferService.StartQueuedValid | frontend/services/FileTransferService.js:85-100 | the start pass keeps the queues valid |
| TransferService.StartQueuedCount | frontend/services/FileTransferService.js:85-100 | with fewer than the maximum running, every queued task runs after one pass: the running count is read once, so the pass can exceed the maximum |
| TransferService.FiveQueuedAllStart | frontend/services/FileTransferService.js:85-100 | with three slots and five queued tasks, all five run after one pass |
| TransferService.Advance | frontend/services/FileTransferService.js:130-167 | bytes advance at the simulated speed; a task reaching its size completes at exactly its size and 100 percent; otherwise its progress is the floored percentage and the failure draw fails it |
| TransferService.Advanced | frontend/services/FileTransferService.js:103-107 | a running task advances, any other is kept as it is, and the id and kind never change |
| TransferService.AdvancerIsOk | frontend/services/FileTransferService.js:103-107 | the progress update keeps each task's id and kind and leaves a task that is not running as it is |
| TransferService.PassStep | frontend/services/FileTransferService.js:103-107 | one iteration at a position: that task is replaced by its update; if it was running and finishes, its id is retired and its copy appended to the history, otherwise neither changes |
| TransferService.PassUpTo | frontend/services/FileTransferService.js:103-107 | iterating over the captured array keeps its length |
| TransferService.PassTasks | frontend/services/FileTransferService.js:103-107 | after n iterations each of the first n positions has been updated exactly once, with its own failure draw, and the later ones are untouched |
| TransferService.PassHistory | frontend/services/FileTransferService.js:174-222 | the history only grows: the old history stays its prefix |
| TransferService.PassRetired | frontend/services/FileTransferService.js:141-222 | a visited running task that finishes has its id retired and its copy in the history |
| TransferService.PassRetiredOnly | frontend/services/FileTransferService.js:174-222 | the only ids retired are those of visited running tasks that finished |
| TransferService.PassStepOk | frontend/services/FileTransferService.js:130-222 | one iteration keeps every captured task of the queue's kind, retires every finished one and leaves the others cancellable, and keeps only finished tasks in the history |
| TransferService.PassUpToOk | frontend/services/FileTransferService.js:130-222 | the pass invariant holds after any number of iterations |
| TransferService.OutcomeValid | frontend/services/FileTransferService.js:174-222 | rebuilding the live queue from a pass that keeps its invariant leaves the queues valid |
| TransferService.AfterPassValid | frontend/services/FileTransferService.js:103-107 | the whole progress phase keeps the queues valid |
| TransferService.PassAllLive | frontend/services/FileTransferService.js:103-107 | after the progress phase the old history is a prefix of the new one, every task still in the live queue is the update of one captured task, and the other queue is untouched |
| TransferService.PassAllRetires | frontend/services/FileTransferService.js:141-222 | a running task that finishes in the progress phase has its copy in the history and no task with its id is left in the live queue |
| TransferService.AdvanceCompletes | frontend/services/FileTransferService.js:141-146 | a running task whose bytes reach its size is completed at its size and 100 percent, and finishes |
| TransferService.FileTransferService.Tick | frontend/services/FileTransferService.js:51-55 | while paused a tick changes nothing; otherwise the state is that of processing the upload queue and then the download queue |
| TransferService.FileTransferService.ProcessTransfers | frontend/services/FileTransferService.js:71-78 | the state is that of processing the upload queue and then the download queue, and the queues stay valid |
| TransferService.FileTransferService.ProcessTransferQueue | frontend/services/FileTransferService.js:85-108 | the state is the start pass followed by the progress phase on that queue, and the queues stay valid |
| TransferService.FileTransferService.ProgressPass | frontend/services/FileTransferService.js:103-107 | the loop over the captured queue leaves the state the progress phase computes, with the queues valid |
| TransferService.FileTransferService.ProgressAt | frontend/services/FileTransferService.js:103-107 | one turn of the loop, on the fields, is the pass step at that position, with the live queue rebuilt from the tasks whose id is not retired |
| TransferService.StartQueuedLoop | frontend/services/FileTransferService.js:85-100 | the loop starting tasks one by one while the once-read count is below the maximum computes the start pass |
| TransferService.PauseAllIn | frontend/services/FileTransferService.js:485-498 | every running task is paused and every other task kept |
| TransferService.ResumeAllIn | frontend/services/FileTransferService.js:503-517 | every paused task runs again with its clock reset and every other task is kept |
| TransferService.PauseAllResumeAll | frontend/services/FileTransferService.js:485-517 | after pausing and resuming everything, every task that was running or paused runs and the others are untouched |
| TransferService.NewTask | frontend/services/FileTransferService.js:230-251 | a new task is queued with no bytes, no progress and no start time, and carries its id, kind, file and the default path of its kind |
| TransferService.FileTransferService.constructor | frontend/services/FileTransferService.js:5-43 | a new service has empty queues and history, the mock file library, is not paused or processing, and runs at 5 MiB/s with three slots |
| TransferService.FileTransferService.StartProcessingQueue | frontend/services/FileTransferService.js:48-56 | the interval is running |
| TransferService.FileTransferService.StopProcessingQueue | frontend/services/FileTransferService.js:61-66 | the interval is stopped |
| TransferService.FileTransferService.UploadFile | frontend/services/FileTransferService.js:230-265 | the new queued task is appended to the upload queue and the interval starts |
| TransferService.FileTransferService.DownloadFile | frontend/services/FileTransferService.js:273-322 | a file id not in the library gives no task and changes nothing; otherwise a new queued task is appended to the download queue |
| TransferService.FileTransferService.PauseTransfer | frontend/services/FileTransferService.js:329-345 | the new state and answer are those of the pause rule |
| TransferService.FileTransferService.ResumeTransfer | frontend/services/FileTransferService.js:352-369 | the new state and answer are those of the resume rule |
| TransferService.FileTransferService.CancelTransfer | frontend/services/FileTransferService.js:376-406 | the new state and answer are those of the cancel rule |
| TransferService.FileTransferService.Find | frontend/services/FileTransferService.js:414-429 | a task is found exactly when some queue or the history holds one with the id |
| TransferService.FileTransferService.GetAllTransfers | frontend/services/FileTransferService.js:435-437 | the list is the upload queue, then the download queue, then the history, each in order |
| TransferService.FileTransferService.GetActiveTransfers | frontend/services/FileTransferService.js:443-445 | the active list is the upload queue followed by the download queue, and none of its tasks is finished |
| TransferService.FileTransferService.ClearTransferHistory | frontend/services/FileTransferService.js:474-480 | the history is emptied and the number cleared returned |
| TransferService.FileTransferService.PauseAllTransfers | frontend/services/FileTransferService.js:485-498 | every running task in both queues is paused and the service is paused |
| TransferService.FileTransferService.ResumeAllTransfers | frontend/services/FileTransferService.js:503-517 | every paused task in both queues runs again and the service is not paused |
| TransferService.FileTransferService.CancelAllTransfers | frontend/services/FileTransferService.js:522-531 | every queued id is cancelled in turn, the number of queued tasks is returned, and with distinct ids both queues end empty |
| TransferService.FileTransferService.SetSimulatedSpeed | frontend/services/FileTransferService.js:537-540 | the simulated speed is the one given |
| TransferService.FileTransferService.SetMaxConcurrentTransfers | frontend/services/FileTransferService.js:546-549 | the maximum is the one given |
| TransferService.FileTransferService.AddMockFile | frontend/services/FileTransferService.js:564-575 | the file joins the library, with a missing id, type or path replaced by its default |
| Cache.HitRate | backend/src/utils/cache-manager.js:211-213 | the hit rate is a percentage between 0 and 100: 0 before any lookup and with no hits, 100 when every lookup hit |
| Cache.OrderOfIff | backend/src/utils/cache-manager.js:130-147 | the access order lists each cached key exactly once |
| Cache.RemoveKey | backend/src/utils/cache-manager.js:109-115 | dropping a key from map and order keeps the two coherent and the key gone from the order |
| Cache.TouchKey | backend/src/utils/cache-manager.js:130-136 | moving a cached key to the end of the order keeps map and order coherent |
| Cache.PutKey | backend/src/utils/cache-manager.js:37-54 | storing a key already cached, or into a cache with room, keeps map and order coherent when the key goes to the end |
| Cache.EvictFirst | backend/src/utils/cache-manager.js:152-165 | a full cache has a least recently used key, and evicting it frees exactly one place |
| Cache.PutCoherent | backend/src/utils/cache-manager.js:37-54 | storing keeps map and order coherent and the cache within its maximum, makes the key the most recent with the new entry; other keys keep their entries, and only the least recently used can leave, only when the cache was full |
| Cache.SweepStep | backend/src/utils/cache-manager.js:189-204 | each key met in the sweep is still cached with its original entry and is deleted exactly when it has expired |
| Cache.SurvivorsFilter | backend/src/utils/cache-manager.js:189-204 | the keys left in the order are the old order filtered by survival |
| Cache.SurvivorsStep | backend/src/utils/cache-manager.js:189-204 | a key kept stays where it is in the order, one dropped is removed from it |
| Cache.Live | backend/src/utils/cache-manager.js:189-204 | the live entries are exactly the cached entries not expired, with their entries unchanged |
| Cache.SweepRemovesExpired | backend/src/utils/cache-manager.js:189-204 | a sweep removes exactly the expired entries among the keys walked; walking every key leaves the live entries |
| Cache.SweepStateEnd | backend/src/utils/cache-manager.js:189-204 | after every key the cache holds the live entries and the order the surviving keys in their old order, still coherent |
| Cache.CacheManager.constructor | backend/src/utils/cache-manager.js:9-29 | a new cache is empty with zero statistics and the cleanup running, at most 1000 entries living 5 minutes unless the options say otherwise |
| Cache.CacheManager.Set | backend/src/utils/cache-manager.js:37-54 | set stores the entry with its expiry by the coherent store rule, counts one set, and counts an eviction exactly when one happened |
| Cache.CacheManager.MakeRoom | backend/src/utils/cache-manager.js:38-41 | the eviction step makes room only when a new key meets a full cache, and counts that eviction |
| Cache.CacheManager.Get | backend/src/utils/cache-manager.js:61-82 | a value is returned exactly for a cached key not expired, counting a hit and making the key most recent; a miss or an expired entry, which is removed, counts a miss |
| Cache.CacheManager.Has | backend/src/utils/cache-manager.js:89-102 | true exactly for a cached key not expired, leaving the order untouched; an expired entry is removed |
| Cache.CacheManager.Delete | backend/src/utils/cache-manager.js:109-115 | the key leaves map and order, and true is returned exactly when it was cached |
| Cache.CacheManager.Clear | backend/src/utils/cache-manager.js:120-124 | map and order are empty |
| Cache.CacheManager.UpdateAccessOrder | backend/src/utils/cache-manager.js:130-136 | the key moves to the end of the order |
| Cache.CacheManager.RemoveFromAccessOrder | backend/src/utils/cache-manager.js:142-147 | the first occurrence of the key leaves the order |
| Cache.CacheManager.EvictLRU | backend/src/utils/cache-manager.js:152-165 | the least recently used key leaves map and order and the eviction is counted; an empty order changes nothing |
| Cache.CacheManager.StartCleanup | backend/src/utils/cache-manager.js:170-177 | the cleanup timer is running |
| Cache.CacheManager.StopCleanup | backend/src/utils/cache-manager.js:179-184 | the cleanup timer is stopped |
| Cache.CacheManager.CleanupExpired | backend/src/utils/cache-manager.js:189-204 | exactly the entries expired now leave map and order, the order keeps the survivors in their old order, and the number removed is returned |
| Cache.CacheManager.CleanupEntry | backend/src/utils/cache-manager.js:193-199 | one turn of the cleanup loop removes the key from map and order exactly when its entry has expired |
| Cache.CacheManager.GetStats | backend/src/utils/cache-manager.js:210-221 | the statistics, size, capacity and hit rate reported are the cache's own, the rate between 0 and 100 |
| Cache.CacheManager.ResetStats | backend/src/utils/cache-manager.js:226-233 | all counters are zero |
| Cache.CacheManager.Destroy | backend/src/utils/cache-manager.js:238-242 | the cache is empty and the cleanup stopped |
| MessageQueue.EffectivePriority | backend/src/utils/message-queue.js:50-54 | the priority used is always one of the four: the one given when it is one of them, NORMAL otherwise |
| MessageQueue.CountOf | backend/src/utils/message-queue.js:137-161 | no more items end in a given way than there are items |
| MessageQueue.CountOfConcat | backend/src/utils/message-queue.js:137-161 | the counts of two batches add up |
| MessageQueue.CountsPartition | backend/src/utils/message-queue.js:140-160 | every item ends in exactly one of three ways: returned, threw a value with a message, or threw null or undefined |
| MessageQueue.Tallied | backend/src/utils/message-queue.js:137-161 | the counters never go down, the dropped count is kept, and a batch adds at most one to processed or errors per item |
| MessageQueue.TalliedConcat | backend/src/utils/message-queue.js:116-131 | tallying two batches in turn is tallying them together |
| MessageQueue.SplicedQueues | backend/src/utils/message-queue.js:116-131 | after a batch each priority's queue keeps what was behind its first batch-size items, and no other queue changes |
| MessageQueue.BatchOrder | backend/src/utils/message-queue.js:116-131 | a batch hands out the CRITICAL items first, then HIGH, NORMAL and LOW, at most batch-size from the front of each queue |
| MessageQueue.BatchAccounting | backend/src/utils/message-queue.js:116-131 | a batch takes at most batch-size items per priority, empties every queue that had at most that many, and moves exactly the items it takes out of the queues |
| MessageQueue.PriorityMessageQueue.constructor | backend/src/utils/message-queue.js:17-41 | a new queue has four empty priority queues, zero counters and is processing, with batches of 10, a 10 ms cycle and queues of 1000 unless the options say otherwise |
| MessageQueue.PriorityMessageQueue.Enqueue | backend/src/utils/message-queue.js:50-77 | a message is appended to its priority's queue exactly when that queue is below the maximum and counted as enqueued; otherwise it is dropped and counted |
| MessageQueue.PriorityMessageQueue.StartProcessing | backend/src/utils/message-queue.js:82-87 | the queue is processing |
| MessageQueue.PriorityMessageQueue.StopProcessing | backend/src/utils/message-queue.js:92-94 | the queue is not processing |
| MessageQueue.PriorityMessageQueue.ProcessLoopStep | backend/src/utils/message-queue.js:99-111 | once stopped a cycle changes nothing; while processing it hands out the batch taken from the fronts of the queues, leaves the rest queued, and tallies the batch's handlers |
| MessageQueue.PriorityMessageQueue.ProcessBatch | backend/src/utils/message-queue.js:116-131 | the items handled are the batch in priority order, the queues lose exactly those items, and the counters are the batch's tally |
| MessageQueue.PriorityMessageQueue.ProcessPriority | backend/src/utils/message-queue.js:119-129 | an empty queue is skipped; otherwise at most batch-size items leave its front and the counters are their tally |
| MessageQueue.PriorityMessageQueue.ProcessAll | backend/src/utils/message-queue.js:127-129 | the counters are the tally of the batch's handlers |
| MessageQueue.PriorityMessageQueue.ProcessMessage | backend/src/utils/message-queue.js:137-161 | a handler that returns counts as processed; one that throws a value with a message, or a missing one, counts as an error; one that throws null or undefined moves neither counter, since the catch itself throws and the batch swallows it |
| MessageQueue.PriorityMessageQueue.GetStats | backend/src/utils/message-queue.js:167-178 | the counters, each queue's length and their sum |
| MessageQueue.PriorityMessageQueue.Clear | backend/src/utils/message-queue.js:183-186 | every queue is emptied and the counters are kept |
| MessageQueue.PriorityMessageQueue.Destroy | backend/src/utils/message-queue.js:191-195 | processing stops and every queue is emptied |
| RemoteControl.Enqueued | backend/src/services/remote-control/index.ts:33-39 | the queue after an event ends with that event and holds at most 1000: the event is appended, the oldest dropped first at the limit |
| RemoteControl.EnqueuedKeepsNewest1000 | backend/src/services/remote-control/index.ts:33-39 | the queue keeps exactly the newest 1000 events |
| RemoteControl.StatusOf | backend/src/services/remote-control/index.ts:65-77 | the status reports the queue's length; an empty queue reports zeros, otherwise the age of the oldest event and that age averaged over the length |
| RemoteControl.NewestStep | backend/src/services/remote-control/index.ts:56-60 | keeping the newest 1000 one event at a time is keeping the newest 1000 of all of them |
| RemoteControl.EnqueuedKeepsNewest | backend/src/services/remote-control/index.ts:32-48 | queueing an event and adding it to a short pending batch keeps the batch the newest events of the queue |
| RemoteControl.RemoteControlService.constructor | backend/src/services/remote-control/index.ts:18-27 | a new service has an empty queue and batch, no timer and nothing sent |
| RemoteControl.RemoteControlService.SendInputEvent | backend/src/services/remote-control/index.ts:32-51 | the event is queued (the oldest dropped at 1000, with a drop notice) and added to the pending batch; a batch reaching 50 events is sent at once, otherwise the batch timer is started if not running |
| RemoteControl.RemoteControlService.QueueEvent | backend/src/services/remote-control/index.ts:33-40 | queueing keeps the queue within 1000, the pending batch within 50 and among the newest events of the queue |
| RemoteControl.RemoteControlService.BatchSendEvents | backend/src/services/remote-control/index.ts:56-60 | sending events one by one leaves the queue as the newest 1000 of the old queue followed by the events |
| RemoteControl.RemoteControlService.GetQueueStatus | backend/src/services/remote-control/index.ts:65-77 | the status is that of the current queue, with its length |
| RemoteControl.RemoteControlService.ClearQueue | backend/src/services/remote-control/index.ts:82-90 | queue and batch are empty, the timer stopped, and the clearing announced |
| RemoteControl.RemoteControlService.FlushBatch | backend/src/services/remote-control/index.ts:95-105 | the timer stops and the batch is empty; it was sent exactly when it held events |
| RemoteControl.RemoteControlService.TimerFired | backend/src/services/remote-control/index.ts:47 | when the batch timer fires the pending batch is sent and emptied |
| RemoteControl.RemoteControlService.GetQueuedEvents | backend/src/services/remote-control/index.ts:110-112 | the events returned are the queue's events in order |
| RemoteControl.RemoteControlService.ReplayQueuedEvents | backend/src/services/remote-control/index.ts:117-120 | the queue is announced for replay and kept |
| ScreenMirror.Merge | backend/src/services/screen-mirror/index.ts:28 | every option given wins and every other keeps its current value |
| ScreenMirror.MergeLaws | backend/src/services/screen-mirror/index.ts:28 | an empty update keeps the options, merging twice is merging once, and a full update replaces everything |
| ScreenMirror.StepFor | backend/src/services/screen-mirror/index.ts:74-95 | each bandwidth band selects its quality, frame rate and resolution: below 5, 5 to 10, 10 to 20, and above |
| ScreenMirror.StepForMonotone | backend/src/services/screen-mirror/index.ts:74-95 | more bandwidth never lowers the quality or the frame rate |
| ScreenMirror.ScreenMirrorService.constructor | backend/src/services/screen-mirror/index.ts:10-22 | a new service is inactive, with no frames and the default options |
| ScreenMirror.ScreenMirrorService.StartMirroring | backend/src/services/screen-mirror/index.ts:27-32 | the options are merged over the current ones, mirroring is active, the frame queue empty, and the start announced |
| ScreenMirror.ScreenMirrorService.StopMirroring | backend/src/services/screen-mirror/index.ts:37-41 | mirroring is inactive with no frames, the options kept, and the stop announced |
| ScreenMirror.ScreenMirrorService.GetCurrentFrame | backend/src/services/screen-mirror/index.ts:46-51 | the newest frame, or the no-frames error exactly when the queue is empty |
| ScreenMirror.ScreenMirrorService.AddFrame | backend/src/services/screen-mirror/index.ts:56-69 | while inactive nothing changes; otherwise the queue keeps the newest ten frames including the new one, and the frame is announced |
| ScreenMirror.ScreenMirrorService.AdjustQuality | backend/src/services/screen-mirror/index.ts:74-95 | quality, frame rate and resolution come from the bandwidth's band; the codec is kept and the change announced |
| ScreenMirror.ScreenMirrorService.HandleOrientationChange | backend/src/services/screen-mirror/index.ts:100-102 | the orientation is announced and nothing else changes |
| ScreenMirror.ScreenMirrorService.GetOptions | backend/src/services/screen-mirror/index.ts:107-109 | the options returned are the current ones |
| ScreenMirror.ScreenMirrorService.GetQueueSize | backend/src/services/screen-mirror/index.ts:114-116 | the number of queued frames, never more than ten |
| ScreenMirror.ScreenMirrorService.IsRunning | backend/src/services/screen-mirror/index.ts:121-123 | running exactly while mirroring is active |
| MetricsCollector.Collected | backend/src/utils/metrics-collector.ts:88-91 | the history after a snapshot holds at most the maximum and is the newest snapshots including the new one |
| MetricsCollector.SnapshotsOf | backend/src/utils/metrics-collector.ts:157-162 | without a limit, or with 0, every snapshot; with a positive limit the newest that many |
| MetricsCollector.MinOf | backend/src/utils/metrics-collector.ts:220 | the minimum is at most every value |
| MetricsCollector.MaxOf | backend/src/utils/metrics-collector.ts:221 | the maximum is at least every value |
| MetricsCollector.ExtremesOccur | backend/src/utils/metrics-collector.ts:220-221 | the minimum and the maximum are values of the list |
| MetricsCollector.SumAboveMin | backend/src/utils/metrics-collector.ts:219 | the count times the minimum is at most the sum |
| MetricsCollector.SumBelowMax | backend/src/utils/metrics-collector.ts:219 | the sum is at most the count times the maximum |
| MetricsCollector.Mean | backend/src/utils/metrics-collector.ts:219 | the mean times the count is the sum |
| MetricsCollector.CalculateStats | backend/src/utils/metrics-collector.ts:212-228 | no values give all zeros; otherwise the current value is the last one, with the minimum, the maximum and the mean |
| MetricsCollector.AverageBetween | backend/src/utils/metrics-collector.ts:212-228 | the average lies between the minimum and the maximum |
| MetricsCollector.SortAscending | backend/src/utils/metrics-collector.ts:243 | the sorted values are ascending and a permutation of the values |
| MetricsCollector.SortedEnds | backend/src/utils/metrics-collector.ts:243-256 | the sorted values start at the minimum and end at the maximum |
| MetricsCollector.Ceil | backend/src/utils/metrics-collector.ts:274-276 | the ceiling is the least integer at or above its argument, equal to the floor exactly for a whole number |
| MetricsCollector.LerpBounds | backend/src/utils/metrics-collector.ts:270-281 | interpolating between two ordered values stays between them |
| MetricsCollector.LerpMonotone | backend/src/utils/metrics-collector.ts:270-281 | along a rising line a larger fraction gives a larger point |
| MetricsCollector.PercentileIndex | backend/src/utils/metrics-collector.ts:274 | the position of a percentile lies between the first and the last index |
| MetricsCollector.PercentileIndexMonotone | backend/src/utils/metrics-collector.ts:274 | a higher percentile sits at a later position |
| MetricsCollector.PercentileBounds | backend/src/utils/metrics-collector.ts:270-281 | a percentile of sorted values lies between the least and the greatest |
| MetricsCollector.InterpolateBounds | backend/src/utils/metrics-collector.ts:270-281 | an interpolated value lies between the elements at the floor and the ceiling of its position |
| MetricsCollector.InterpolateMonotone | backend/src/utils/metrics-collector.ts:270-281 | over sorted values the interpolation never decreases along the positions |
| MetricsCollector.PercentileMonotone | backend/src/utils/metrics-collector.ts:270-281 | a higher percentile of sorted values is never smaller |
| MetricsCollector.CalculatePercentileStats | backend/src/utils/metrics-collector.ts:233-265 | no values give all zeros; otherwise minimum, maximum, current and mean as for the plain statistics, with the 50th, 95th and 99th percentiles of the sorted values |
| MetricsCollector.PercentilesInOrder | backend/src/utils/metrics-collector.ts:233-265 | the least value, the three percentiles and the greatest value are in order |
| MetricsCollector.Aggregate | backend/src/utils/metrics-collector.ts:174-207 | nothing exactly when no snapshot is inside the window; otherwise the statistics of the snapshots inside it, stamped now |
| MetricsCollector.Collector.constructor | backend/src/utils/metrics-collector.ts:59-64 | a new collector is empty and keeps at most 1000 snapshots unless told otherwise |
| MetricsCollector.Collector.CollectSnapshot | backend/src/utils/metrics-collector.ts:69-95 | the snapshot holds the readings, omitted counters 0, and is kept with the oldest dropped beyond the maximum, then announced |
| MetricsCollector.Collector.GetSnapshots | backend/src/utils/metrics-collector.ts:157-162 | the snapshots chosen by the limit rule |
| MetricsCollector.Collector.GetLatestSnapshot | backend/src/utils/metrics-collector.ts:167-169 | the newest snapshot, and none exactly when there are none |
| MetricsCollector.Collector.AggregateMetrics | backend/src/utils/metrics-collector.ts:174-207 | the aggregate over a window of one minute unless told otherwise |
| MetricsCollector.Collector.GetMetricsInRange | backend/src/utils/metrics-collector.ts:286-290 | the snapshots stamped within the range, both ends included, kept in the order they were taken; every such snapshot is returned and no other |
| MetricsCollector.Collector.Clear | backend/src/utils/metrics-collector.ts:295-299 | no snapshots remain and the clearing is announced |
| MetricsCollector.Collector.GetStats | backend/src/utils/metrics-collector.ts:304-320 | the count and maximum of snapshots, with the oldest and newest stamps present exactly when there are snapshots |
| MetricsCollector.Collector.Destroy | backend/src/utils/metrics-collector.ts:325-328 | no snapshots remain |
| SmartDiscovery.OrDefault | backend/src/utils/smart-discovery.js:11-17 | an option that is absent or 0 gives the default, any other value is kept |
| SmartDiscovery.KeyOf | backend/src/utils/smart-discovery.js:43 | a device is keyed by its non-empty device id, otherwise by its address |
| SmartDiscovery.FreshPart | backend/src/utils/smart-discovery.js:92-98 | exactly the cached entries still fresh, unchanged |
| SmartDiscovery.Counted | backend/src/utils/smart-discovery.js:118-128 | the outcome's count goes up by one and the other down by one, never below 0 |
| SmartDiscovery.QualityThresholds | backend/src/utils/smart-discovery.js:139-152 | with no broadcasts the grade stays; otherwise good exactly when more than four in five succeeded, fair exactly when more than one in two but not good, poor otherwise |
| SmartDiscovery.IntervalStaysInBounds | backend/src/utils/smart-discovery.js:157-178 | an interval inside the bounds stays inside them |
| SmartDiscovery.IntervalDirection | backend/src/utils/smart-discovery.js:157-178 | a good network with devices never shortens the interval, a poor one or an empty cache never lengthens it, a fair one with devices keeps it |
| SmartDiscovery.ScanDone | backend/src/utils/smart-discovery.js:88-101 | after the walk the cache is its fresh part and every fresh entry is listed once |
| SmartDiscovery.ShouldBroadcast | backend/src/utils/smart-discovery.js:203-211 | a broadcast is skipped only with cached devices on a good network, and there it is made exactly when the draw is above 0.3 |
| SmartDiscovery.Discovery.constructor | backend/src/utils/smart-discovery.js:9-36 | a new discovery runs between 3 and 30 seconds starting at 5, with a one-minute cache, a good network and no counts, unless the options say otherwise |
| SmartDiscovery.Discovery.CacheDevice | backend/src/utils/smart-discovery.js:42-49 | the device is stored under its key, cached and seen now |
| SmartDiscovery.Discovery.CacheExpiryFired | backend/src/utils/smart-discovery.js:52-60 | when the expiry timer fires the entry goes exactly when it has not been seen for longer than the timeout |
| SmartDiscovery.Discovery.GetCachedDevice | backend/src/utils/smart-discovery.js:68-82 | a fresh entry is returned and counted as a cached response; a stale one is removed and nothing returned; an unknown id returns nothing |
| SmartDiscovery.Discovery.GetAllCachedDevices | backend/src/utils/smart-discovery.js:88-101 | every fresh entry is returned once and the stale ones are removed from the cache |
| SmartDiscovery.Discovery.UpdateDeviceLastSeen | backend/src/utils/smart-discovery.js:107-112 | a cached device is seen now; an unknown id changes nothing |
| SmartDiscovery.Discovery.RecordBroadcast | backend/src/utils/smart-discovery.js:118-134 | the outcome is counted, the network graded again and the interval adjusted |
| SmartDiscovery.Discovery.UpdateNetworkQuality | backend/src/utils/smart-discovery.js:139-152 | the grade follows the counts by the thresholds |
| SmartDiscovery.Discovery.AdjustBroadcastInterval | backend/src/utils/smart-discovery.js:157-189 | the interval adjusted by grade and device count, with a change counted |
| SmartDiscovery.Discovery.GetBroadcastInterval | backend/src/utils/smart-discovery.js:195-197 | the current interval |
| SmartDiscovery.Discovery.GetStats | backend/src/utils/smart-discovery.js:217-226 | the counters, the interval, the grade and the number of cached devices |
| SmartDiscovery.Discovery.ClearCache | backend/src/utils/smart-discovery.js:231-234 | the cache is empty |
| SmartDiscovery.Discovery.ResetStats | backend/src/utils/smart-discovery.js:239-248 | the counters are zero; the grade and the interval stay |
| SmartDiscovery.RecordKeepsBounds | backend/src/utils/smart-discovery.js:118-178 | recording a broadcast keeps an interval inside its bounds |
| ServiceManager.OrDefault | backend/src/utils/service-manager.js:10-29 | an option that is absent or 0 gives the default, any other value is kept |
| ServiceManager.LoggedFailure | backend/src/utils/service-manager.js:151-156 | a failure is appended to the error log, the oldest entry dropped once the log holds ten |
| ServiceManager.LoggedFailureKeepsNewest | backend/src/utils/service-manager.js:151-156 | from at most ten entries, the log keeps the newest ten |
| ServiceManager.Restart | backend/src/utils/service-manager.js:175-229 | a restart counts one more attempt and one restart; a clean restart makes the service running and stamps the time, a throwing one logs the error and leaves it restarting |
| ServiceManager.HandleUnhealthy | backend/src/utils/service-manager.js:143-169 | an unhealthy service is marked and the failure logged; it is restarted while its attempts are below the limit, and otherwise marked failed and counted as a failure |
| ServiceManager.AfterCheck | backend/src/utils/service-manager.js:107-136 | a negative answer or a throw is handled as unhealthy, only an answer stamping the check time; a positive answer after restarts clears the attempts and makes the service running |
| ServiceManager.AfterCheckKeepsAttempts | backend/src/utils/service-manager.js:107-169 | health checks never push the attempts past the limit (or past 1, which a manual restart reaches) |
| ServiceManager.FailingServiceFailsAtLimit | backend/src/utils/service-manager.js:143-169 | a service whose check fails is restarted exactly while its attempts are below the limit and marked failed exactly at it |
| ServiceManager.ErrorsCanExceedTen | backend/src/utils/service-manager.js:143-229 | the restart path logs without trimming, so ten logged errors, a failed check and a throwing restart leave eleven |
| ServiceManager.Counted | backend/src/utils/service-manager.js:107-136 | the totals grow by the restarts and failures of a round, and the start time stays |
| ServiceManager.CheckRoundEntries | backend/src/utils/service-manager.js:107-136 | a round changes only the services it checks, each once, from its state before the round |
| ServiceManager.RoundKeepsRegistry | backend/src/utils/service-manager.js:107-136 | a round keeps every registered name listed once, in order |
| ServiceManager.UptimeLeadingUnit | backend/src/utils/service-manager.js:316-331 | each unit of the formatted uptime is non-zero exactly when the uptime reaches that unit: a day, an hour, a minute, a second |
| ServiceManager.RegistryAdd | backend/src/utils/service-manager.js:38-57 | registering a record under its own name keeps every name listed once, a new name at the end |
| ServiceManager.RegistryRemove | backend/src/utils/service-manager.js:63-73 | unregistering keeps every name listed once |
| ServiceManager.Manager.constructor | backend/src/utils/service-manager.js:10-29 | a new manager has no services and no timer, checks every 30 seconds with at most 3 attempts 5 seconds apart unless the options say otherwise, and its uptime starts now |
| ServiceManager.Manager.Register | backend/src/utils/service-manager.js:38-57 | a fresh running record is stored under the name, replacing one of the same name in its place, and announced |
| ServiceManager.Manager.Unregister | backend/src/utils/service-manager.js:63-73 | the name leaves the registry; true and an announcement exactly when it was registered |
| ServiceManager.Manager.StartHealthCheck | backend/src/utils/service-manager.js:78-90 | the timer runs; a second start changes nothing and announces nothing |
| ServiceManager.Manager.StopHealthCheck | backend/src/utils/service-manager.js:95-102 | the timer is stopped; the stop is announced only when it was running |
| ServiceManager.Manager.PerformHealthCheck | backend/src/utils/service-manager.js:107-136 | every service is checked once in registration order, and the totals count the round's restarts and failures |
| ServiceManager.Manager.RestartService | backend/src/utils/service-manager.js:175-229 | an unknown name changes nothing and fails; a known service is restarted by the restart rule, failing when the restart throws |
| ServiceManager.Manager.ManualRestart | backend/src/utils/service-manager.js:235-246 | the attempts are reset before the restart |
| ServiceManager.Manager.GetServiceStatus | backend/src/utils/service-manager.js:253-267 | a status exists exactly for a registered name, with its fields and its five newest errors |
| ServiceManager.Manager.GetAllServicesStatus | backend/src/utils/service-manager.js:273-288 | one summary per service, in registration order |
| ServiceManager.Manager.Infos | backend/src/utils/service-manager.js:273-288 | the registered records, in registration order |
| ServiceManager.Report | backend/src/utils/service-manager.js:294-309 | for any list of services, the totals, the time since the start, and the number of running, unhealthy and failed services, which together are at most the services listed |
| ServiceManager.Manager.GetStats | backend/src/utils/service-manager.js:294-309 | the totals, the time since the start, and the number of running, unhealthy and failed services |
| ServiceManager.Manager.ResetStats | backend/src/utils/service-manager.js:336-343 | the totals are zero and the uptime restarts now |
| ServiceManager.Manager.Destroy | backend/src/utils/service-manager.js:348-353 | the timer is stopped and every service dropped |
| ServiceManager.SummaryOf | backend/src/utils/service-manager.js:276-285 | a summary carries the service's name, status, attempts, stamps and error count |
| ServiceManager.StatusCountsBounded | backend/src/utils/service-manager.js:294-309 | no service is counted under two statuses |
| DIContainer.GetStep | backend/src/utils/di-container.js:28-42 | an unknown name is an error and changes nothing; a cached singleton is returned as is; otherwise the factory runs, its instance cached for a singleton |
| DIContainer.GetKeepsCache | backend/src/utils/di-container.js:28-42 | every cached instance stays tied to the factory run that made it, and what is returned was made by a run for that name |
| DIContainer.SingletonRunsOnce | backend/src/utils/di-container.js:34-39 | a singleton's factory runs at most once: a second lookup returns the first instance and runs nothing |
| DIContainer.FactoryRunsEachTime | backend/src/utils/di-container.js:41 | a non-singleton factory runs on every lookup: two lookups give two different instances and two runs |
| DIContainer.ReRegisterReplaces | backend/src/utils/di-container.js:18-20 | registering a name again replaces the factory the next uncached lookup runs; an instance already cached under the name stays |
| DIContainer.Container.State | backend/src/utils/di-container.js:7-10 | the container's state is its registrations, its cached singletons and the factory runs so far |
| DIContainer.Container.constructor | backend/src/utils/di-container.js:7-10 | a new container has no registrations, no cached instances and no runs |
| DIContainer.Container.Register | backend/src/utils/di-container.js:18-20 | the registration replaces any earlier one of the name |
| DIContainer.Container.Get | backend/src/utils/di-container.js:28-42 | the answer and the new state are those of the lookup rule |
| DIContainer.Container.Clear | backend/src/utils/di-container.js:47-49 | every cached singleton is dropped |
| DIContainer.ClearedSingletonRunsAgain | backend/src/utils/di-container.js:47-49 | after clearing, a singleton's next lookup runs its factory and returns the new instance |
| ClientManager.Drain | backend/src/websocket/clientManager.js:194-233 | a run over a queue accounts for every message once: sent, given up on, or still queued |
| ClientManager.DrainShape | backend/src/websocket/clientManager.js:194-233 | what a run leaves is the queue from the first message kept, whose send failed and was counted, the later ones untouched; every message sent went to the client |
| ClientManager.DrainKeepsRetriesBelow | backend/src/websocket/clientManager.js:211-231 | messages that failed fewer than three times keep that after a run |
| ClientManager.DrainAllAccepted | backend/src/websocket/clientManager.js:196-209 | when every send goes through the whole queue is sent in order |
| ClientManager.DrainHeadFails | backend/src/websocket/clientManager.js:210-231 | a message that failed twice is given up on at its next failure; one that failed less is kept with one more failure counted and the run stops |
| ClientManager.DrainLoop | backend/src/websocket/clientManager.js:194-233 | the sending loop computes the run: its remaining queue and the messages sent |
| ClientManager.ProcessQueue | backend/src/websocket/clientManager.js:183-193 | processing changes only the client's queue: nothing without a queue or with a closed or missing client, otherwise the queue is drained and dropped once empty |
| ClientManager.Enqueue | backend/src/websocket/clientManager.js:161-177 | enqueueing changes no client, order, device or closed socket |
| ClientManager.EnqueueWhileClosed | backend/src/websocket/clientManager.js:161-177 | with the client's socket closed or the client missing, the message waits at the end of the client's queue with no failures and nothing is sent |
| ClientManager.ProcessQueueValid | backend/src/websocket/clientManager.js:183-233 | processing keeps every queued message below three failures and no queue empty |
| ClientManager.EnqueueValid | backend/src/websocket/clientManager.js:161-177 | enqueueing keeps the registry valid |
| ClientManager.SendTo | backend/src/websocket/clientManager.js:131-154 | a send succeeds exactly when it is reliable or the client is there, its socket open and the send accepted; a reliable message that could not be sent is queued |
| ClientManager.SendToValid | backend/src/websocket/clientManager.js:131-154 | sending keeps the registry valid |
| ClientManager.SendToAndroid | backend/src/websocket/clientManager.js:283-307 | without an Android device a reliable message is reported sent and queued nowhere, an unreliable one failed; otherwise it is a send to that device |
| ClientManager.BroadcastOne | backend/src/websocket/clientManager.js:241-275 | one step of a broadcast sends to an addressed client and counts it when the send reports success |
| ClientManager.Broadcast | backend/src/websocket/clientManager.js:241-275 | a broadcast changes no client or order and counts at most the clients it went over |
| ClientManager.BroadcastCountsReliable | backend/src/websocket/clientManager.js:241-254 | a reliable broadcast reports every addressed client as sent |
| ClientManager.BroadcastCountsUnreliable | backend/src/websocket/clientManager.js:241-275 | an unreliable broadcast counts exactly the addressed clients whose socket is open and took the message |
| ClientManager.BroadcastValid | backend/src/websocket/clientManager.js:241-275 | a broadcast keeps the registry valid |
| ClientManager.Removed | backend/src/websocket/clientManager.js:54-74 | removal drops the client, its queue and, if it was the Android device, that record; an unknown id changes nothing |
| ClientManager.RemovedValid | backend/src/websocket/clientManager.js:54-74 | removal keeps the registry valid |
| ClientManager.Updated | backend/src/websocket/clientManager.js:98-114 | the updates are merged over the client's fields, and updates naming the android platform make it the Android device; an unknown id changes nothing |
| ClientManager.CleanOne | backend/src/websocket/clientManager.js:332-352 | an idle client has its socket closed and is removed, and the count goes up; any other client is kept |
| ClientManager.Cleanup | backend/src/websocket/clientManager.js:332-352 | the sweep removes at most the clients it went over, and the count returned is the number of clients that left the registry |
| ClientManager.CleanupKeepsRecords | backend/src/websocket/clientManager.js:332-352 | the sweep only removes clients and leaves the others as they were |
| ClientManager.CleanupRemovesIdle | backend/src/websocket/clientManager.js:332-352 | the sweep removes exactly the idle clients and keeps every other one |
| ClientManager.CleanupValid | backend/src/websocket/clientManager.js:332-352 | the sweep keeps the registry valid |
| ClientManager.Manager.State | backend/src/websocket/clientManager.js:7-23 | the registry's state is its clients, their order, the Android device, the queues, the messages written and the sockets closed |
| ClientManager.Manager.constructor | backend/src/websocket/clientManager.js:7-23 | a new manager has no clients, no Android device, no queues and has written nothing |
| ClientManager.Manager.AddClient | backend/src/websocket/clientManager.js:31-48 | the new client has the generated id, type unknown and the request's address, and joins the order |
| ClientManager.Manager.RemoveClient | backend/src/websocket/clientManager.js:54-74 | the new state is that of the removal rule |
| ClientManager.Manager.GetClient | backend/src/websocket/clientManager.js:81-83 | a client is found exactly when registered under the id |
| ClientManager.Manager.GetClientCount | backend/src/websocket/clientManager.js:324-326 | the number of registered clients |
| ClientManager.Manager.GetAndroidDevice | backend/src/websocket/clientManager.js:120-122 | the Android device, which is always a registered client |
| ClientManager.Manager.UpdateClient | backend/src/websocket/clientManager.js:98-114 | the new state is that of the update rule |
| ClientManager.Manager.UpdateLastActivity | backend/src/websocket/clientManager.js:313-318 | a registered client's activity time is now; an unknown id changes nothing |
| ClientManager.Manager.ProcessMessageQueue | backend/src/websocket/clientManager.js:183-233 | the loop sending the head until the queue empties or a send fails for the first or second time computes the processing rule |
| ClientManager.Manager.EnqueueMessage | backend/src/websocket/clientManager.js:161-177 | the new state is that of the enqueue rule |
| ClientManager.Manager.SendToClient | backend/src/websocket/clientManager.js:131-154 | the answer and the new state are those of the send rule |
| ClientManager.Manager.SendToAndroidDevice | backend/src/websocket/clientManager.js:283-307 | the answer and the new state are those of the Android send rule |
| ClientManager.Manager.BroadcastLoop | backend/src/websocket/clientManager.js:241-275 | the loop over the clients in order computes the broadcast |
| ClientManager.Manager.BroadcastToWebClients | backend/src/websocket/clientManager.js:241-254 | the broadcast to web clients only, skipping the excluded one |
| ClientManager.Manager.BroadcastToAllClients | backend/src/websocket/clientManager.js:262-275 | the broadcast to every client, skipping the excluded one |
| ClientManager.Manager.CleanupInactiveClients | backend/src/websocket/clientManager.js:332-352 | every client idle for longer than the timeout has its socket closed and is removed, and their number returned |
| ConfigValidator.ValidatePort | backend/src/utils/config-validator.js:9-15 | a port passes exactly when `parseInt` reads an integer in 1..65535, and the value read is returned |
| ConfigValidator.NumericPort | backend/src/utils/config-validator.js:9-15 | a port given as a number passes exactly in 1..65535 |
| ConfigValidator.PortIgnoresTrailingText | backend/src/utils/config-validator.js:10 | `parseInt` reads only the leading digits, so text after them does not change the verdict |
| ConfigValidator.HexPortAccepted | backend/src/utils/config-validator.js:10 | a port written in hexadecimal, such as `0x1F90`, passes by its hexadecimal value |
| ConfigValidator.ValidateTimeout | backend/src/utils/config-validator.js:44-50 | a timeout passes exactly when an integer is read and it is not negative |
| ConfigValidator.ValidateFileSize | backend/src/utils/config-validator.js:55-61 | a size passes exactly when an integer is read and it is positive |
| ConfigValidator.ValidateHost | backend/src/utils/config-validator.js:20-39 | a host passes exactly when it is a non-empty string matching one of the patterns |
| ConfigValidator.DottedDigitsAreHostNames | backend/src/utils/config-validator.js:29-30 | every dotted quad of digit groups is also a host name |
| ConfigValidator.ZeroAddressIsHostName | backend/src/utils/config-validator.js:28-30 | `0.0.0.0` is a host name |
| ConfigValidator.HostPatternsCollapse | backend/src/utils/config-validator.js:26-31 | the second and third patterns add nothing: a host matches exactly when it is `localhost` in any case or a host name |
| ConfigValidator.AnyDigitQuadAccepted | backend/src/utils/config-validator.js:29 | a dotted quad is never checked against 255: any four groups of one to three digits pass |
| ConfigValidator.LeadingHyphenRejected | backend/src/utils/config-validator.js:30 | a host starting with a hyphen fails |
| ConfigValidator.DotNotLocalhost | backend/src/utils/config-validator.js:27 | a name holding a dot is not `localhost` in any case |
| ConfigValidator.EmptyLabelRejected | backend/src/utils/config-validator.js:30 | a host with an empty label fails |
| ConfigValidator.ErrorsOf | backend/src/utils/config-validator.js:69-79 | a check contributes no error exactly when it passes |
| ConfigValidator.PortField | backend/src/utils/config-validator.js:69-79 | reading a port from a null or undefined section fails |
| ConfigValidator.HostField | backend/src/utils/config-validator.js:69-79 | reading a host from a null or undefined section fails |
| ConfigValidator.Verdict | backend/src/utils/config-validator.js:81-85 | a section passes exactly when it has no errors, and a failure names every one of them |
| ConfigValidator.ValidateServerConfig | backend/src/utils/config-validator.js:66-86 | the server section passes exactly when its port and host pass |
| ConfigValidator.ValidateViteConfig | backend/src/utils/config-validator.js:91-111 | the Vite section passes exactly when its port and host pass |
| ConfigValidator.ValidateDiscoveryConfig | backend/src/utils/config-validator.js:116-136 | the discovery section passes exactly when its port and broadcast interval pass |
| ConfigValidator.RetryErrors | backend/src/utils/config-validator.js:150-153 | the retry count is read outside any `try`, so a null or undefined section throws out of the validator |
| ConfigValidator.ValidateNetworkConfig | backend/src/utils/config-validator.js:141-166 | the network section passes exactly when its timeout, retry delay and retry count pass |
| ConfigValidator.ValidateFileTransferConfig | backend/src/utils/config-validator.js:171-195 | the file transfer section passes exactly when it exists, both sizes are positive and the chunk size is not greater than the largest file by JavaScript's `>` |
| ConfigValidator.ChunkLargerThanFileRejected | backend/src/utils/config-validator.js:186-188 | a chunk bigger than the largest file is refused, compared as numbers |
| ConfigValidator.ChunkComparedAsStrings | backend/src/utils/config-validator.js:186-188 | sizes given as strings are compared as strings, so a chunk of "9" is refused for a largest file of "10" |
| ConfigValidator.ConflictScan | backend/src/utils/config-validator.js:249-256 | the scan reports at most one conflict per port |
| ConfigValidator.FirstWith | backend/src/utils/config-validator.js:249-256 | the index found holds the value and no earlier port does |
| ConfigValidator.ConflictScanSeen | backend/src/utils/config-validator.js:249-256 | the scan remembers, for each port value, the section that used it first |
| ConfigValidator.ConflictScanCounts | backend/src/utils/config-validator.js:249-256 | one conflict per port that repeats an earlier value |
| ConfigValidator.NoConflictIffDistinct | backend/src/utils/config-validator.js:249-256 | no conflict is reported exactly when the port values differ |
| ConfigValidator.CheckPortConflicts | backend/src/utils/config-validator.js:239-256 | the loop reports exactly the conflicts of the scan |
| ConfigValidator.Collect | backend/src/utils/config-validator.js:200-236 | three or four ports are collected for the conflict check |
| ConfigValidator.ValidateConfig | backend/src/utils/config-validator.js:200-253 | a section that throws makes the whole check throw; otherwise the verdict lists the section errors followed by the port conflicts |
| ConfigValidator.ConfigAccepted | backend/src/utils/config-validator.js:200-253 | a configuration is accepted exactly when every section checked passes and no two ports are equal |
| ConfigValidator.SharedPortRejected | backend/src/utils/config-validator.js:227-245 | two sections on one port make the whole configuration fail |
| InputValidator.DeviceId | backend/src/middleware/inputValidator.js:9-24 | a device id passes exactly when it is a string of 1 to 100 letters, digits, hyphens or underscores, and a failure always has a message |
| InputValidator.BlankDeviceIdMessage | backend/src/middleware/inputValidator.js:13-15 | a blank id is reported as blank, not as holding bad characters |
| InputValidator.OctetPatternIsByte | backend/src/middleware/inputValidator.js:32 | the pattern's octets are exactly the one- to three-digit numbers up to 255, leading zeros allowed |
| InputValidator.IpAddress | backend/src/middleware/inputValidator.js:27-37 | an address passes exactly when it is a non-empty string matching the IPv4 pattern |
| InputValidator.IpAddressIsDottedBytes | backend/src/middleware/inputValidator.js:27-37 | an address passes exactly when it is four dot-separated numbers from 0 to 255 of one to three digits each |
| InputValidator.Port | backend/src/middleware/inputValidator.js:40-49 | a port passes exactly when `parseInt` reads an integer in 1..65535; the not-a-number message is given exactly when nothing is read |
| InputValidator.PortRuleMatchesConfig | backend/src/middleware/inputValidator.js:40-49 | the middleware's port rule accepts exactly the ports the server's configuration check accepts |
| InputValidator.Or | backend/src/middleware/inputValidator.js:54 | the message is non-empty exactly when the option's message or the fallback is |
| InputValidator.StringRule | backend/src/middleware/inputValidator.js:52-68 | a string passes exactly when it is present if required and, when non-empty, meets the length limits that are set and the pattern |
| InputValidator.MissingOptionalString | backend/src/middleware/inputValidator.js:53-56 | a missing or empty optional string passes whatever its limits |
| InputValidator.NumberRule | backend/src/middleware/inputValidator.js:71-85 | the value read with `parseFloat` passes exactly when it is a number if required and, when it is one, lies within the bounds that are set |
| InputValidator.NumberRuleOnNumbers | backend/src/middleware/inputValidator.js:71-85 | on a number the rule is its bounds alone |
| InputValidator.BooleanRule | backend/src/middleware/inputValidator.js:88-93 | a value passes exactly when it is not required or is a boolean |
| InputValidator.FirstReported | backend/src/middleware/inputValidator.js:107-114 | the position found holds the first reported error |
| InputValidator.ItemsError | backend/src/middleware/inputValidator.js:107-114 | the array's items pass exactly when none is reported; otherwise the first failing item is named, numbered from one, with its message |
| InputValidator.CheckItems | backend/src/middleware/inputValidator.js:107-114 | the item loop computes the first failing item |
| InputValidator.ArrayRule | backend/src/middleware/inputValidator.js:96-117 | an array passes exactly when present if required and, when present, within the length limits that are set and with every item passing the item rule |
| InputValidator.Lookup | backend/src/middleware/inputValidator.js:127 | a present key gives its value and a missing one `undefined` |
| InputValidator.SchemaError | backend/src/middleware/inputValidator.js:125-132 | an object's fields pass exactly when none is reported; otherwise the first failing field is named with its message |
| InputValidator.CheckSchema | backend/src/middleware/inputValidator.js:125-132 | the schema loop computes the first failing field |
| InputValidator.ObjectRule | backend/src/middleware/inputValidator.js:120-135 | an object passes exactly when present if required and, with a schema, every field passes its rule |
| InputValidator.Merge | backend/src/middleware/inputValidator.js:144-148 | the merged data has every key of the three sources, the body winning over the query and the query over the path parameters |
| InputValidator.DetailsEmptyIff | backend/src/middleware/inputValidator.js:151-161 | there are no details exactly when every schema field passes |
| InputValidator.DetailsAreFailures | backend/src/middleware/inputValidator.js:151-161 | every detail names a failing schema field with its non-empty message |
| InputValidator.Answer | backend/src/middleware/inputValidator.js:164-179 | the request is passed on exactly when there are no details; otherwise the answer is status 400, unsuccessful, with the details |
| InputValidator.Validate | backend/src/middleware/inputValidator.js:139-181 | the middleware answers by the details of the merged data against the schema |
| InputValidator.ValidatePassesIff | backend/src/middleware/inputValidator.js:139-181 | a request is passed on exactly when every field passes, each read from the body first, then the query, then the path parameters |
| AppConfig.Default | app/src/main/java/com/example/windowsandroidconnect/config/AppConfig.kt:24-38 | every default has its setting's type |
| AppConfig.PrefNamesDistinct | app/src/main/java/com/example/windowsandroidconnect/config/AppConfig.kt:64-210 | no two settings, and no setting and feature flag, share a preference name |
| AppConfig.Read | app/src/main/java/com/example/windowsandroidconnect/config/AppConfig.kt:64-191 | a getter gives a value of the setting's type, the default when nothing is stored |
| AppConfig.Clamp | app/src/main/java/com/example/windowsandroidconnect/config/AppConfig.kt:172-181 | `coerceIn` gives a value in range, the value itself when it is in range and the nearer bound otherwise |
| AppConfig.Stored | app/src/main/java/com/example/windowsandroidconnect/config/AppConfig.kt:98-186 | what a setter stores has the setting's type |
| AppConfig.Set | app/src/main/java/com/example/windowsandroidconnect/config/AppConfig.kt:64-196 | a setter keeps the preferences well typed and leaves the flags and listeners alone |
| AppConfig.SetEffect | app/src/main/java/com/example/windowsandroidconnect/config/AppConfig.kt:64-196 | after a setter its getter reads what was stored, every other getter is unchanged and each listener is told once, in order, with the old and new values; a rejected value changes nothing |
| AppConfig.StrategySetter | app/src/main/java/com/example/windowsandroidconnect/config/AppConfig.kt:98-108 | the strategy setter stores exactly the supported names, lowercased, and ignores the rest |
| AppConfig.ClampedSetters | app/src/main/java/com/example/windowsandroidconnect/config/AppConfig.kt:170-186 | quality always reads within 10..100 and the frame rate within 1..60, an in-range value kept as given |
| AppConfig.IsFeatureEnabled | app/src/main/java/com/example/windowsandroidconnect/config/AppConfig.kt:202-204 | a flag reads as its cached value, else its stored boolean, else the default given |
| AppConfig.SetFeature | app/src/main/java/com/example/windowsandroidconnect/config/AppConfig.kt:206-210 | a flag is cached and stored, and the change is reported as from the opposite value |
| AppConfig.SetFeatureThenRead | app/src/main/java/com/example/windowsandroidconnect/config/AppConfig.kt:202-210 | a flag reads back as set whatever the default, and setting it changes no setting |
| AppConfig.FeatureNoticeIgnoresPrevious | app/src/main/java/com/example/windowsandroidconnect/config/AppConfig.kt:206-210 | the notice claims the flag flipped even when it already held that value |
| AppConfig.Notify | app/src/main/java/com/example/windowsandroidconnect/config/AppConfig.kt:472-480 | every listener is told of the change, in order, and nothing else changes |
| AppConfig.StoredDefault | app/src/main/java/com/example/windowsandroidconnect/config/AppConfig.kt:24-41 | each default passes its own setter unchanged |
| AppConfig.SetDefaultsReads | app/src/main/java/com/example/windowsandroidconnect/config/AppConfig.kt:424-439 | the settings given read as their defaults afterwards and the others are unchanged |
| AppConfig.Reset | app/src/main/java/com/example/windowsandroidconnect/config/AppConfig.kt:424-444 | the reset empties the cached flags and keeps the preferences coherent |
| AppConfig.ResetShape | app/src/main/java/com/example/windowsandroidconnect/config/AppConfig.kt:424-444 | the reset is the default setters in order, the cached flags dropped and a last notice for `"all"` |
| AppConfig.ResetRestoresDefaults | app/src/main/java/com/example/windowsandroidconnect/config/AppConfig.kt:424-444 | after the reset every setting reads as its default |
| AppConfig.FeatureSurvivesReset | app/src/main/java/com/example/windowsandroidconnect/config/AppConfig.kt:440 | a flag set before the reset still reads as set after it, since only the cached copy is dropped (also lines 202-204) |
| AppConfig.ResetWithFlags | app/src/main/java/com/example/windowsandroidconnect/config/AppConfig.kt:424-444 | the intended reset keeps the store coherent |
| AppConfig.ResetWithFlagsRestores | app/src/main/java/com/example/windowsandroidconnect/config/AppConfig.kt:424-444 | after the intended reset every setting is its default and every flag reads as the default given |
| AppConfig.ToIntOrNull | app/src/main/java/com/example/windowsandroidconnect/config/AppConfig.kt:544-548 | a number read from the group lies within `Int` |
| AppConfig.DigitsToInt | app/src/main/java/com/example/windowsandroidconnect/config/AppConfig.kt:544-548 | a group of one to three digits reads as its value |
| AppConfig.DottedBytesValid | app/src/main/java/com/example/windowsandroidconnect/config/AppConfig.kt:540-551 | four groups of one to three digits, each at most 255, joined by dots, are valid |
| AppConfig.SignedGroup | app/src/main/java/com/example/windowsandroidconnect/config/AppConfig.kt:544-548 | a group with a sign also reads as a number, so `+7` and `-0` count as octets |
| AppConfig.Validate | app/src/main/java/com/example/windowsandroidconnect/config/AppConfig.kt:487-535 | the result is valid exactly when there are no errors |
| AppConfig.ValidIff | app/src/main/java/com/example/windowsandroidconnect/config/AppConfig.kt:487-535 | the settings are valid exactly when the address is not blank, the three ports are in 1..65535 and the strategy is supported; warnings never make them invalid |
| AppConfig.DefaultsValid | app/src/main/java/com/example/windowsandroidconnect/config/AppConfig.kt:487-535 | the defaults validate with neither errors nor warnings |
| AppConfig.DefaultAddressValid | app/src/main/java/com/example/windowsandroidconnect/config/AppConfig.kt:540-551 | the default server address is well formed |
| AppConfig.Lookup | app/src/main/java/com/example/windowsandroidconnect/config/AppConfig.kt:348-370 | `has` fails exactly when no member carries the name |
| AppConfig.LookupSame | app/src/main/java/com/example/windowsandroidconnect/config/AppConfig.kt:348-370 | a name every occurrence of which carries the same value is found with that value |
| AppConfig.Wrap32 | app/src/main/java/com/example/windowsandroidconnect/config/AppConfig.kt:349-370 | the value lies within `Int`, a value already within it kept |
| AppConfig.GetInt | app/src/main/java/com/example/windowsandroidconnect/config/AppConfig.kt:349-370 | a number within `Int` is read as itself, any result lies within `Int`, and a non-number fails |
| AppConfig.GetLong | app/src/main/java/com/example/windowsandroidconnect/config/AppConfig.kt:355-358 | a number within `Long` is read as itself, any result lies within `Long`, and a non-number fails |
| AppConfig.GetString | app/src/main/java/com/example/windowsandroidconnect/config/AppConfig.kt:348-354 | text is read as itself, and only an object fails |
| AppConfig.GetBoolean | app/src/main/java/com/example/windowsandroidconnect/config/AppConfig.kt:361-376 | a boolean is read as itself, and only a boolean or text can succeed |
| AppConfig.Coerce | app/src/main/java/com/example/windowsandroidconnect/config/AppConfig.kt:347-371 | a converted value has the setting's type |
| AppConfig.CoerceToJson | app/src/main/java/com/example/windowsandroidconnect/config/AppConfig.kt:302-371 | every exported value converts back to itself |
| AppConfig.SettingMembers | app/src/main/java/com/example/windowsandroidconnect/config/AppConfig.kt:305-327 | the export holds one member per setting, in order, each with its current value |
| AppConfig.FlagMembers | app/src/main/java/com/example/windowsandroidconnect/config/AppConfig.kt:330 | the flag object holds one member per cached flag, with its value |
| AppConfig.ApplyKeys | app/src/main/java/com/example/windowsandroidconnect/config/AppConfig.kt:347-371 | applying members keeps the preferences well typed and the flags and listeners unchanged |
| AppConfig.ApplyFlags | app/src/main/java/com/example/windowsandroidconnect/config/AppConfig.kt:373-378 | applying flags keeps the store coherent and the listeners unchanged |
| AppConfig.ApplyFlagsStaysFailed | app/src/main/java/com/example/windowsandroidconnect/config/AppConfig.kt:373-378 | once a flag fails to convert, no later flag is applied |
| AppConfig.ApplyFlagMember | app/src/main/java/com/example/windowsandroidconnect/config/AppConfig.kt:373-378 | applying the `featureFlags` member keeps the store coherent |
| AppConfig.Import | app/src/main/java/com/example/windowsandroidconnect/config/AppConfig.kt:343-386 | an import keeps the store coherent |
| AppConfig.ImportIsPartial | app/src/main/java/com/example/windowsandroidconnect/config/AppConfig.kt:343-386 | a failing import keeps what it applied before the failure: an address before a non-numeric port stays set |
| AppConfig.ApplyRemote | app/src/main/java/com/example/windowsandroidconnect/config/AppConfig.kt:248-295 | a remote configuration keeps the store coherent |
| AppConfig.RemoteKeepsLocalSettings | app/src/main/java/com/example/windowsandroidconnect/config/AppConfig.kt:248-295 | a remote configuration never changes the settings it does not name |
| AppConfig.Fetch | app/src/main/java/com/example/windowsandroidconnect/config/AppConfig.kt:217-243 | the fetch succeeds exactly when the status is 200 and the body is an object, and a failed fetch changes nothing |
| AppConfig.ApplyKeysKeeps | app/src/main/java/com/example/windowsandroidconnect/config/AppConfig.kt:347-371 | settings not applied keep their values |
| AppConfig.ApplyFlagsKeeps | app/src/main/java/com/example/windowsandroidconnect/config/AppConfig.kt:373-378 | applying flags changes no setting |
| AppConfig.StrategiesLower | app/src/main/java/com/example/windowsandroidconnect/config/AppConfig.kt:41 | the supported strategies are written in lower case |
| AppConfig.ExportedSetting | app/src/main/java/com/example/windowsandroidconnect/config/AppConfig.kt:302-338 | each setting of an export is found under its name with its value |
| AppConfig.ExportedFlags | app/src/main/java/com/example/windowsandroidconnect/config/AppConfig.kt:330 | the export's cached flags are found under `featureFlags` |
| AppConfig.ExportedSettingsRestored | app/src/main/java/com/example/windowsandroidconnect/config/AppConfig.kt:302-371 | applying an export's members restores every setting, whatever state it is applied to |
| AppConfig.ExportImport | app/src/main/java/com/example/windowsandroidconnect/config/AppConfig.kt:302-386 | importing an export succeeds and restores every setting and every cached flag, once the strategy, quality and frame rate are values their setters keep |
| AppConfig.Config.constructor | app/src/main/java/com/example/windowsandroidconnect/config/AppConfig.kt:53-56 | a new instance reads the stored preferences, with no cached flags and no listeners |
| AppConfig.Config.Get | app/src/main/java/com/example/windowsandroidconnect/config/AppConfig.kt:64-191 | a getter gives the setting's value, of its type |
| AppConfig.Config.Put | app/src/main/java/com/example/windowsandroidconnect/config/AppConfig.kt:64-196 | a setter moves the instance as `Set` does |
| AppConfig.Config.IsEnabled | app/src/main/java/com/example/windowsandroidconnect/config/AppConfig.kt:202-204 | the flag is read as `IsFeatureEnabled` says |
| AppConfig.Config.SetFeatureEnabled | app/src/main/java/com/example/windowsandroidconnect/config/AppConfig.kt:206-210 | the instance moves as `SetFeature` says |
| AppConfig.Config.ResetToDefaults | app/src/main/java/com/example/windowsandroidconnect/config/AppConfig.kt:424-444 | the instance moves as the intended reset says, stored flags removed with the cached ones |
| AppConfig.Config.AddListener | app/src/main/java/com/example/windowsandroidconnect/config/AppConfig.kt:458-460 | the listener is appended and nothing else changes |
| AppConfig.Config.RemoveListener | app/src/main/java/com/example/windowsandroidconnect/config/AppConfig.kt:465-467 | the listener's first occurrence is removed and nothing else changes |
| AppConfig.Config.Cleanup | app/src/main/java/com/example/windowsandroidconnect/config/AppConfig.kt:567-571 | the listeners are dropped and nothing else changes |
| AppConfig.Config.ValidateConfig | app/src/main/java/com/example/windowsandroidconnect/config/AppConfig.kt:487-535 | the result is `Validate` of the settings, valid exactly when there are no errors |
| AppConfig.Config.ExportToJson | app/src/main/java/com/example/windowsandroidconnect/config/AppConfig.kt:302-338 | the export is the settings, the cached flags and the version with the time given |
| AppConfig.Config.ApplyFeatureFlags | app/src/main/java/com/example/windowsandroidconnect/config/AppConfig.kt:373-378 | the instance moves as `ApplyFlags` says |
| AppConfig.Config.ApplyFlagObject | app/src/main/java/com/example/windowsandroidconnect/config/AppConfig.kt:373-378 | the instance moves as `ApplyFlagMember` says |
| AppConfig.Config.ImportFromJson | app/src/main/java/com/example/windowsandroidconnect/config/AppConfig.kt:343-386 | the instance moves and answers as `Import` says |
| AppConfig.Config.ApplyRemoteConfig | app/src/main/java/com/example/windowsandroidconnect/config/AppConfig.kt:248-295 | the instance moves as `ApplyRemote` says |
| AppConfig.Config.FetchRemoteConfig | app/src/main/java/com/example/windowsandroidconnect/config/AppConfig.kt:217-243 | the instance moves and answers as `Fetch` says |
| RemoteConfigManager.OptInt | app/src/main/java/com/example/windowsandroidconnect/config/RemoteConfigManager.kt:123-145 | the result lies within `Int`; a missing member or a non-number gives the fallback, a number within `Int` gives itself |
| RemoteConfigManager.OptLong | app/src/main/java/com/example/windowsandroidconnect/config/RemoteConfigManager.kt:133-136 | the result lies within `Long`; a missing member or a non-number gives the fallback, a number within `Long` gives itself |
| RemoteConfigManager.OptString | app/src/main/java/com/example/windowsandroidconnect/config/RemoteConfigManager.kt:132 | a missing member reads as empty text, text as itself, and any other value as non-empty text (also lines 160-163) |
| RemoteConfigManager.OptBoolean | app/src/main/java/com/example/windowsandroidconnect/config/RemoteConfigManager.kt:162 | a missing member reads as false and a boolean as itself |
| RemoteConfigManager.PositiveInt | app/src/main/java/com/example/windowsandroidconnect/config/RemoteConfigManager.kt:123-145 | a value is kept only when positive |
| RemoteConfigManager.PositiveLong | app/src/main/java/com/example/windowsandroidconnect/config/RemoteConfigManager.kt:133-136 | a value is kept only when positive |
| RemoteConfigManager.NonEmpty | app/src/main/java/com/example/windowsandroidconnect/config/RemoteConfigManager.kt:132 | a text is kept only when non-empty (also lines 160-163) |
| RemoteConfigManager.GetSection | app/src/main/java/com/example/windowsandroidconnect/config/RemoteConfigManager.kt:120-158 | a section is absent exactly when the member is missing, and an object exactly when the member is one |
| RemoteConfigManager.ParseServer | app/src/main/java/com/example/windowsandroidconnect/config/RemoteConfigManager.kt:120-127 | the server section is read with its fields typed and each kept only when positive or non-empty |
| RemoteConfigManager.ParseConnection | app/src/main/java/com/example/windowsandroidconnect/config/RemoteConfigManager.kt:129-138 | the connection section is read with its fields typed and each kept only when positive or non-empty |
| RemoteConfigManager.ParseScreen | app/src/main/java/com/example/windowsandroidconnect/config/RemoteConfigManager.kt:140-147 | the screen section is read with its fields typed and each kept only when positive or non-empty |
| RemoteConfigManager.ParseUpdate | app/src/main/java/com/example/windowsandroidconnect/config/RemoteConfigManager.kt:157-165 | the update section is read with its texts kept only when non-empty |
| RemoteConfigManager.ParseFlags | app/src/main/java/com/example/windowsandroidconnect/config/RemoteConfigManager.kt:149-155 | a parsed list has no more flags than the object has members |
| RemoteConfigManager.LookupCons | app/src/main/java/com/example/windowsandroidconnect/config/RemoteConfigManager.kt:149-155 | with a member added in front, a name that occurs later still reads its later value (`put` replaces), and otherwise reads the new member |
| RemoteConfigManager.LookupNames | app/src/main/java/com/example/windowsandroidconnect/config/RemoteConfigManager.kt:149-155 | a name is found exactly when some member carries it |
| RemoteConfigManager.ParseFlagsSucceeds | app/src/main/java/com/example/windowsandroidconnect/config/RemoteConfigManager.kt:149-155 | the flags parse exactly when every key's last value reads as a boolean (or boolean text), so an earlier non-boolean duplicate of a key does not throw |
| RemoteConfigManager.ParseFlagsNames | app/src/main/java/com/example/windowsandroidconnect/config/RemoteConfigManager.kt:149-155 | a parsed flag list names each key of the object exactly once and no other name |
| RemoteConfigManager.ParseFlagsValues | app/src/main/java/com/example/windowsandroidconnect/config/RemoteConfigManager.kt:149-155 | each parsed flag's value is the `getBoolean` of its key's last value |
| RemoteConfigManager.ParsedFlagsApply | app/src/main/java/com/example/windowsandroidconnect/config/RemoteConfigManager.kt:149-155 | after `applyConfig` of a parsed document, every key of its flag object reads as the boolean of that key's last value |
| RemoteConfigManager.ServerSection | app/src/main/java/com/example/windowsandroidconnect/config/RemoteConfigManager.kt:120-127 | the server section throws exactly when its member is not an object |
| RemoteConfigManager.ConnectionSection | app/src/main/java/com/example/windowsandroidconnect/config/RemoteConfigManager.kt:129-138 | the connection section throws exactly when its member is not an object |
| RemoteConfigManager.ScreenSection | app/src/main/java/com/example/windowsandroidconnect/config/RemoteConfigManager.kt:140-147 | the screen section throws exactly when its member is not an object |
| RemoteConfigManager.UpdateSection | app/src/main/java/com/example/windowsandroidconnect/config/RemoteConfigManager.kt:157-165 | the update section throws exactly when its member is not an object |
| RemoteConfigManager.FlagsSection | app/src/main/java/com/example/windowsandroidconnect/config/RemoteConfigManager.kt:149-155 | absent flags are none, a non-object throws, and an object gives the parse of its distinct keys |
| RemoteConfigManager.Parse | app/src/main/java/com/example/windowsandroidconnect/config/RemoteConfigManager.kt:117-175 | a parsed document is well typed, stamped with the fetch time, and came from an object |
| RemoteConfigManager.PositiveRule | app/src/main/java/com/example/windowsandroidconnect/config/RemoteConfigManager.kt:123-145 | a numeric setting that is missing, zero or negative parses to nothing, a positive one to itself |
| RemoteConfigManager.TextRule | app/src/main/java/com/example/windowsandroidconnect/config/RemoteConfigManager.kt:132-163 | a missing or empty text parses to nothing, any other text to itself |
| RemoteConfigManager.VersionDefault | app/src/main/java/com/example/windowsandroidconnect/config/RemoteConfigManager.kt:168 | without a `version` member the version is 1 |
| RemoteConfigManager.ParseFails | app/src/main/java/com/example/windowsandroidconnect/config/RemoteConfigManager.kt:117-175 | the parse fails exactly when a section is not an object or some flag key's last value is not a boolean |
| RemoteConfigManager.EmptyDocument | app/src/main/java/com/example/windowsandroidconnect/config/RemoteConfigManager.kt:117-175 | an empty document parses to version 1 with nothing else |
| RemoteConfigManager.Carried | app/src/main/java/com/example/windowsandroidconnect/config/RemoteConfigManager.kt:184-203 | what a document carries for a setting has its type, and only applied settings are carried |
| RemoteConfigManager.ApplySettings | app/src/main/java/com/example/windowsandroidconnect/config/RemoteConfigManager.kt:184-203 | applying the settings keeps the store coherent |
| RemoteConfigManager.ApplyFlagList | app/src/main/java/com/example/windowsandroidconnect/config/RemoteConfigManager.kt:206-208 | applying the flags keeps the store coherent |
| RemoteConfigManager.Apply | app/src/main/java/com/example/windowsandroidconnect/config/RemoteConfigManager.kt:180-211 | `applyConfig` keeps the store coherent |
| RemoteConfigManager.ApplySettingsReads | app/src/main/java/com/example/windowsandroidconnect/config/RemoteConfigManager.kt:184-203 | a setting reads what its setter stored from the document's value when it carries one, and otherwise as before |
| RemoteConfigManager.ApplyFlagListKeepsSettings | app/src/main/java/com/example/windowsandroidconnect/config/RemoteConfigManager.kt:206-208 | flags change no setting |
| RemoteConfigManager.ApplyFlagListOthers | app/src/main/java/com/example/windowsandroidconnect/config/RemoteConfigManager.kt:206-208 | a flag the list does not name reads as before |
| RemoteConfigManager.ApplyFlagListLast | app/src/main/java/com/example/windowsandroidconnect/config/RemoteConfigManager.kt:206-208 | a flag reads as the last entry naming it |
| RemoteConfigManager.ApplyOnlyCarried | app/src/main/java/com/example/windowsandroidconnect/config/RemoteConfigManager.kt:180-211 | `applyConfig` writes exactly the settings the document carries, through their setters, and leaves every other alone |
| RemoteConfigManager.ApplyKeepsLocal | app/src/main/java/com/example/windowsandroidconnect/config/RemoteConfigManager.kt:180-211 | the address, the switches and the chunk size are never written |
| RemoteConfigManager.ApplySetsFlags | app/src/main/java/com/example/windowsandroidconnect/config/RemoteConfigManager.kt:206-208 | every flag the document names reads as its last entry says |
| RemoteConfigManager.MaxResolutionIgnored | app/src/main/java/com/example/windowsandroidconnect/config/RemoteConfigManager.kt:145 | the maximum resolution is parsed but never applied: changing it changes nothing (also lines 199-203) |
| RemoteConfigManager.Fetched | app/src/main/java/com/example/windowsandroidconnect/config/RemoteConfigManager.kt:71-105 | a fetch succeeds only for status 200 with a body, and then gives the body's parse |
| RemoteConfigManager.RefreshInterval | app/src/main/java/com/example/windowsandroidconnect/config/RemoteConfigManager.kt:229-245 | the interval is the larger of the one asked for and the minimum |
| RemoteConfigManager.Manager.constructor | app/src/main/java/com/example/windowsandroidconnect/config/RemoteConfigManager.kt:14-26 | a new manager has no cached document, no fetch time and no refresh job |
| RemoteConfigManager.Manager.ApplyConfig | app/src/main/java/com/example/windowsandroidconnect/config/RemoteConfigManager.kt:180-211 | the configuration moves as `Apply` says |
| RemoteConfigManager.Manager.FetchRemoteConfig | app/src/main/java/com/example/windowsandroidconnect/config/RemoteConfigManager.kt:71-105 | a success is cached with its time and a failure changes nothing |
| RemoteConfigManager.Manager.FetchAndApplyConfig | app/src/main/java/com/example/windowsandroidconnect/config/RemoteConfigManager.kt:216-224 | the answer is true exactly when the fetch succeeds; then the fetched document is applied, cached and stamped with the clock reading, otherwise configuration, cache and fetch time are unchanged; the refresh job is never touched |
| RemoteConfigManager.Manager.StartPeriodicRefresh | app/src/main/java/com/example/windowsandroidconnect/config/RemoteConfigManager.kt:229-245 | any earlier job is replaced by one at the bounded interval |
| RemoteConfigManager.Manager.StopPeriodicRefresh | app/src/main/java/com/example/windowsandroidconnect/config/RemoteConfigManager.kt:250-254 | the job is stopped and the cache kept |
| RemoteConfigManager.Manager.GetCachedConfig | app/src/main/java/com/example/windowsandroidconnect/config/RemoteConfigManager.kt:259 | the cached document is returned |
| RemoteConfigManager.Manager.GetLastFetchTime | app/src/main/java/com/example/windowsandroidconnect/config/RemoteConfigManager.kt:264 | the last fetch time is returned |
| RemoteConfigManager.Manager.CheckForUpdate | app/src/main/java/com/example/windowsandroidconnect/config/RemoteConfigManager.kt:269-271 | the update information of the cached document, none without one |
| RemoteConfigManager.Manager.Cleanup | app/src/main/java/com/example/windowsandroidconnect/config/RemoteConfigManager.kt:276-281 | the job is stopped and the cache dropped |
| FrontendConfig.ArrayIndex | frontend/src/services/ConfigManager.js:150 | a key reads as an array index only in the canonical decimal form of that index |
| FrontendConfig.Prop | frontend/src/services/ConfigManager.js:154 | an object's own field, or `undefined` when it is missing (also lines 230-232) |
| FrontendConfig.IsObjectIff | frontend/src/services/ConfigManager.js:266-268 | the object test holds exactly for truthy values of type object that are not arrays, so never for `null` or an array |
| FrontendConfig.Spread | frontend/src/services/ConfigManager.js:242 | spreading an object gives its fields, and spreading a value that is not an object, array or string gives nothing (also lines 382, 405, 420-423) |
| FrontendConfig.SpreadItems | frontend/src/services/ConfigManager.js:242 | spreading an array gives each item under its index |
| FrontendConfig.Write | frontend/src/services/ConfigManager.js:184-186 | writing a key of an object replaces that field only |
| FrontendConfig.Descend | frontend/src/services/ConfigManager.js:177-182 | the walk always descends into a value of type object |
| FrontendConfig.SetIn | frontend/src/services/ConfigManager.js:171-186 | a successful walk from an object gives an object |
| FrontendConfig.SetPath | frontend/src/services/ConfigManager.js:171-186 | the walk's loop computes `SetIn` |
| FrontendConfig.SetThenGet | frontend/src/services/ConfigManager.js:145-186 | after `set(path, x)` succeeds, `get(path)` returns `x` |
| FrontendConfig.NullOnTheWay | frontend/src/services/ConfigManager.js:177-181 | walking into an existing `null` throws |
| FrontendConfig.SetKeepsOthers | frontend/src/services/ConfigManager.js:171-186 | `set(path, x)` leaves every other path below existing objects as it was |
| FrontendConfig.PathFromUndefined | frontend/src/services/ConfigManager.js:229-233 | once `undefined`, the reduction stays `undefined` |
| FrontendConfig.PathFromIsGet | frontend/src/services/ConfigManager.js:145-157 | through plain objects, `getPathFromObject` and `get` agree on a defined value (also lines 229-233) |
| FrontendConfig.StringsDiffer | frontend/src/services/ConfigManager.js:150 | a string's `length` is reachable by `getPathFromObject` but not by `get` (also line 231) |
| FrontendConfig.DeepMerge | frontend/src/services/ConfigManager.js:241-259 | the merge as written always gives an object |
| FrontendConfig.DeepMergeFields | frontend/src/services/ConfigManager.js:241-259 | the as-written result has the keys of both sides, target keys the source lacks kept, non-object source values replacing the target's and objects merged in |
| FrontendConfig.DeepMergeIgnoresNonObject | frontend/src/services/ConfigManager.js:244 | a source that is not a plain object changes nothing |
| FrontendConfig.DeepMergeDropsObject | frontend/src/services/ConfigManager.js:241-259 | as written, an object merged onto `null` is lost, so a saved device does not survive loading over defaults that hold `null` |
| FrontendConfig.DeepMergeNotIdempotent | frontend/src/services/ConfigManager.js:241-259 | as written, merging the same source twice differs from merging it once |
| FrontendConfig.Merge | frontend/src/services/ConfigManager.js:241-259 | the intended merge always gives an object |
| FrontendConfig.MergeLeaves | frontend/src/services/ConfigManager.js:241-259 | every value the source holds below plain objects reads back from the intended merge |
| FrontendConfig.MergeKeepsObject | frontend/src/services/ConfigManager.js:241-259 | the intended merge keeps an object merged onto `null` |
| FrontendConfig.MergeSelf | frontend/src/services/ConfigManager.js:241-259 | merging a value into itself gives it back |
| FrontendConfig.MergeIdempotent | frontend/src/services/ConfigManager.js:241-259 | merging the same source a second time changes nothing |
| FrontendConfig.MergeKeepsTarget | frontend/src/services/ConfigManager.js:241-259 | target keys the source does not name stay as they were |
| FrontendConfig.MergeAt | frontend/src/services/ConfigManager.js:241-259 | under a key both sides hold, two objects are merged and otherwise the source's value is taken |
| FrontendConfig.Persist | frontend/src/services/ConfigManager.js:124 | a stored object keeps at most the keys it had, those holding `undefined` dropped (also line 352) |
| FrontendConfig.PersistItems | frontend/src/services/ConfigManager.js:124 | array items keep their number, `undefined` items becoming `null` |
| FrontendConfig.PersistIdempotent | frontend/src/services/ConfigManager.js:124 | storing what was stored changes nothing, and only `undefined` is lost entirely |
| FrontendConfig.Defaults | frontend/src/services/ConfigManager.js:19-90 | the defaults are an object |
| FrontendConfig.DefaultConnection | frontend/src/services/ConfigManager.js:22-29 | the default connection holds the default WebSocket URL |
| FrontendConfig.DefaultPreferences | frontend/src/services/ConfigManager.js:83-88 | the default preferences remember no device |
| FrontendConfig.DefaultKeyOrder | frontend/src/services/ConfigManager.js:19-90 | the defaults have their six sections in the order written, with the connection and preference sections above |
| FrontendConfig.Loaded | frontend/src/services/ConfigManager.js:95-117 | what is loaded is an object |
| FrontendConfig.LoadedUrl | frontend/src/services/ConfigManager.js:100-109 | a saved URL with the legacy path or port gives way to the default URL, and any other saved URL is kept |
| FrontendConfig.LoadCleansLegacyUrl | frontend/src/services/ConfigManager.js:100-109 | with the shipped defaults, a legacy saved URL becomes `ws://localhost:8928` |
| FrontendConfig.LoadKeepsDevice | frontend/src/services/ConfigManager.js:95-117 | with the intended merge, a device remembered in the saved configuration survives loading |
| FrontendConfig.On | frontend/src/services/ConfigManager.js:276-282 | the listener is appended to its path's list and no other path changes |
| FrontendConfig.Off | frontend/src/services/ConfigManager.js:290-299 | no other path's listeners change |
| FrontendConfig.OnThenOff | frontend/src/services/ConfigManager.js:276-299 | removing a listener just added to a path that did not hold it restores that path's listeners |
| FrontendConfig.SetNoticeOldIsNew | frontend/src/services/ConfigManager.js:171-191 | after `set(path, v)` each listener of the path is told `v` as both the old and the new value, since the old one is read after the update (also lines 305-319) |
| FrontendConfig.Entries | frontend/src/services/ConfigManager.js:230-244 | the entries are the map's keys in the order given, each with its value |
| FrontendConfig.ConfigManager.constructor | frontend/src/services/ConfigManager.js:6-13 | a new manager holds the defaults, the configuration loaded over them and no listeners |
| FrontendConfig.ConfigManager.SaveConfig | frontend/src/services/ConfigManager.js:122-129 | storage holds the persisted configuration and nothing else changes |
| FrontendConfig.ConfigManager.GetConfig | frontend/src/services/ConfigManager.js:135-137 | the copy equals the configuration |
| FrontendConfig.ConfigManager.Get | frontend/src/services/ConfigManager.js:145-157 | the value is the one `get` finds along the dotted path |
| FrontendConfig.ConfigManager.Set | frontend/src/services/ConfigManager.js:171-198 | a throwing walk changes nothing; otherwise the value is written, the path's listeners told and the configuration saved |
| FrontendConfig.ConfigManager.SetAll | frontend/src/services/ConfigManager.js:166-169 | an object is merged in, each top-level key reported in order, and saved (also lines 194-197) |
| FrontendConfig.ConfigManager.ResetAll | frontend/src/services/ConfigManager.js:215-219 | the defaults come back, are saved and reported key by key |
| FrontendConfig.ConfigManager.Reset | frontend/src/services/ConfigManager.js:205-221 | an empty path resets everything; otherwise the path's default is set again when there is one |
| FrontendConfig.ConfigManager.AddListener | frontend/src/services/ConfigManager.js:276-282 | the listeners move as `On` says and nothing else changes |
| FrontendConfig.ConfigManager.RemoveListener | frontend/src/services/ConfigManager.js:290-299 | the listeners move as `Off` says and nothing else changes |
| FrontendConfig.ConfigManager.ClearConfig | frontend/src/services/ConfigManager.js:336-345 | storage is emptied and the defaults come back, with no report |
| FrontendConfig.ConfigManager.ExportConfig | frontend/src/services/ConfigManager.js:351-353 | the export is the persisted configuration |
| FrontendConfig.ConfigManager.ImportConfig | frontend/src/services/ConfigManager.js:360-372 | text that is not JSON throws and changes nothing; anything else is merged in, saved and reported key by key |
| FrontendConfig.ConfigManager.GetSection | frontend/src/services/ConfigManager.js:378-380 | the copy of a section equals it when it is an object (also lines 398-400) |
| FrontendConfig.ConfigManager.SetSection | frontend/src/services/ConfigManager.js:387-392 | the section's entries are overridden by the given ones and set as a whole (also lines 407-412) |
| FrontendConfig.ConfigManager.GetFeaturesConfig | frontend/src/services/ConfigManager.js:419-424 | an empty name copies every feature, and a feature of a `null` or missing section throws |
| FrontendConfig.ConfigManager.SetFeatureConfig | frontend/src/services/ConfigManager.js:432-437 | a `null` or missing section throws and changes nothing; otherwise the feature's entries are overridden and set |
| DevicePairing.CodeOf | app/src/main/java/com/example/windowsandroidconnect/security/DevicePairing.kt:80-82 | the code has one decimal digit per random draw, each that draw's digit |
| DevicePairing.VerifyCode | app/src/main/java/com/example/windowsandroidconnect/security/DevicePairing.kt:94-113 | verifying a code never changes its expiry |
| DevicePairing.VerifyCodeCases | app/src/main/java/com/example/windowsandroidconnect/security/DevicePairing.kt:94-113 | a code is accepted exactly when it is the current one and not expired, and then, or once found expired, it is cleared; a wrong code changes nothing |
| DevicePairing.OneTimeUse | app/src/main/java/com/example/windowsandroidconnect/security/DevicePairing.kt:106-109 | an accepted code is refused the second time |
| DevicePairing.FreshCodeAccepted | app/src/main/java/com/example/windowsandroidconnect/security/DevicePairing.kt:78-113 | a fresh code is six digits and is accepted exactly until it expires |
| DevicePairing.FindDevice | app/src/main/java/com/example/windowsandroidconnect/security/DevicePairing.kt:188-190 | a device found carries the id and is stored, and nothing is found exactly when no stored device has the id |
| DevicePairing.WithoutId | app/src/main/java/com/example/windowsandroidconnect/security/DevicePairing.kt:220 | removal keeps exactly the devices with other ids (also line 244) |
| DevicePairing.SaveKeepsUnique | app/src/main/java/com/example/windowsandroidconnect/security/DevicePairing.kt:216-228 | saving keeps one entry per device id, the saved device last |
| DevicePairing.SaveThenFind | app/src/main/java/com/example/windowsandroidconnect/security/DevicePairing.kt:216-228 | after saving, the id finds the saved record and every other id finds what it found before |
| DevicePairing.UnpairRemoves | app/src/main/java/com/example/windowsandroidconnect/security/DevicePairing.kt:242-254 | unpairing reports whether the device was paired, and afterwards nothing is found for its id while other ids are unaffected |
| DevicePairing.ParseLong | app/src/main/java/com/example/windowsandroidconnect/security/DevicePairing.kt:346 | a number read lies within `Long` |
| DevicePairing.ParseLongOfInt | app/src/main/java/com/example/windowsandroidconnect/security/DevicePairing.kt:324-346 | the decimal text of a `Long` reads back as itself |
| DevicePairing.Wrap64 | app/src/main/java/com/example/windowsandroidconnect/security/DevicePairing.kt:350 | the difference lies within `Long`, one already within it kept |
| DevicePairing.TokenRefusals | app/src/main/java/com/example/windowsandroidconnect/security/DevicePairing.kt:339-348 | a token is refused for an unpaired device, for anything but two `:`-separated parts and for a timestamp that is not a `Long` |
| DevicePairing.TokenExpired | app/src/main/java/com/example/windowsandroidconnect/security/DevicePairing.kt:350-353 | a token older than the maximum age is refused |
| DevicePairing.TokenRoundTrip | app/src/main/java/com/example/windowsandroidconnect/security/DevicePairing.kt:320-368 | a token made for a paired device is accepted exactly while it is at most the maximum age old, given a digest without `:` |
| DevicePairing.OldestStampNeverExpires | app/src/main/java/com/example/windowsandroidconnect/security/DevicePairing.kt:350 | the age subtraction wraps, so a token stamped with the smallest `Long` never counts as too old |
| DevicePairing.Create | app/src/main/java/com/example/windowsandroidconnect/security/DevicePairing.kt:118-134 | a request replaces the current code with a fresh one and is filed under its id, the devices unchanged |
| DevicePairing.AcceptCases | app/src/main/java/com/example/windowsandroidconnect/security/DevicePairing.kt:139-168 | an unknown request or a refused code leaves the devices and requests alone; acceptance happens exactly for a filed request with the right code |
| DevicePairing.AcceptPairs | app/src/main/java/com/example/windowsandroidconnect/security/DevicePairing.kt:151-167 | an accepted request is filed away and its device found paired, other ids finding what they found before |
| DevicePairing.StaleCodeRefused | app/src/main/java/com/example/windowsandroidconnect/security/DevicePairing.kt:118-148 | a second request replaces the code, so the first request is refused with its own code and stays pending |
| DevicePairing.DevicePairingManager.constructor | app/src/main/java/com/example/windowsandroidconnect/security/DevicePairing.kt:70-73 | a new manager holds the stored devices, no requests and no code |
| DevicePairing.DevicePairingManager.GeneratePairingCode | app/src/main/java/com/example/windowsandroidconnect/security/DevicePairing.kt:78-89 | the code is six digits from the draws, current until the expiry, and nothing else changes |
| DevicePairing.DevicePairingManager.VerifyPairingCode | app/src/main/java/com/example/windowsandroidconnect/security/DevicePairing.kt:94-113 | the answer and the new code state are as `VerifyCode` says, the devices and requests unchanged |
| DevicePairing.DevicePairingManager.CreatePairingRequest | app/src/main/java/com/example/windowsandroidconnect/security/DevicePairing.kt:118-134 | the request and the new state are as `Create` says |
| DevicePairing.DevicePairingManager.AcceptPairingRequest | app/src/main/java/com/example/windowsandroidconnect/security/DevicePairing.kt:139-168 | the answer and the new state are as `Accept` says |
| DevicePairing.DevicePairingManager.RejectPairingRequest | app/src/main/java/com/example/windowsandroidconnect/security/DevicePairing.kt:173-176 | the request is dropped and nothing else changes |
| DevicePairing.DevicePairingManager.IsPaired | app/src/main/java/com/example/windowsandroidconnect/security/DevicePairing.kt:181-183 | true exactly when a stored device has the id |
| DevicePairing.DevicePairingManager.GetPairedDevice | app/src/main/java/com/example/windowsandroidconnect/security/DevicePairing.kt:188-190 | the first stored entry for the id |
| DevicePairing.DevicePairingManager.SavePairedDevice | app/src/main/java/com/example/windowsandroidconnect/security/DevicePairing.kt:216-228 | the device replaces any entry with its id and nothing else changes |
| DevicePairing.DevicePairingManager.UpdateLastConnectedTime | app/src/main/java/com/example/windowsandroidconnect/security/DevicePairing.kt:233-237 | a paired device is saved again with the new time; an unknown id changes nothing |
| DevicePairing.DevicePairingManager.UnpairDevice | app/src/main/java/com/example/windowsandroidconnect/security/DevicePairing.kt:242-254 | reports whether an entry was removed, and every entry with the id is removed |
| DevicePairing.DevicePairingManager.SetDeviceTrusted | app/src/main/java/com/example/windowsandroidconnect/security/DevicePairing.kt:259-264 | a paired device is saved again with the new trust; an unknown id changes nothing |
| DevicePairing.DevicePairingManager.CipherMessage | app/src/main/java/com/example/windowsandroidconnect/security/DevicePairing.kt:269-315 | nothing for an unpaired device, otherwise the cipher's result under the device's shared secret |
| DevicePairing.DevicePairingManager.GenerateAuthToken | app/src/main/java/com/example/windowsandroidconnect/security/DevicePairing.kt:320-334 | no token for an unpaired device, otherwise a token stamped now with the device's secret |
| DevicePairing.DevicePairingManager.VerifyAuthToken | app/src/main/java/com/example/windowsandroidconnect/security/DevicePairing.kt:339-368 | the answer is `TokenValid` |
| DevicePairing.DevicePairingManager.ClearAllPairings | app/src/main/java/com/example/windowsandroidconnect/security/DevicePairing.kt:428-433 | no devices, no requests and no code remain |
| ConnectionQuality.Determine | app/src/main/java/com/example/windowsandroidconnect/utils/ConnectionQualityMonitor.kt:220-229 | a link is excellent exactly below 50 ms and 1% loss, and disconnected exactly from 500 ms or 20% loss, the 50% row being subsumed |
| ConnectionQuality.StrengthMonotone | app/src/main/java/com/example/windowsandroidconnect/utils/ConnectionQualityMonitor.kt:220-229 | higher latency or loss never gives a better strength |
| ConnectionQuality.Failures | app/src/main/java/com/example/windowsandroidconnect/utils/ConnectionQualityMonitor.kt:183-184 | there are never more failures than pings |
| ConnectionQuality.Latencies | app/src/main/java/com/example/windowsandroidconnect/utils/ConnectionQualityMonitor.kt:183-184 | the successes and the failures together make up the history |
| ConnectionQuality.LossRateRange | app/src/main/java/com/example/windowsandroidconnect/utils/ConnectionQualityMonitor.kt:191-194 | the loss rate is a percentage: 0 exactly when no ping failed, 100 exactly when all did, and at least 50 exactly when half did |
| ConnectionQuality.MinOf | app/src/main/java/com/example/windowsandroidconnect/utils/ConnectionQualityMonitor.kt:188 | the minimum is a latency no other latency is below |
| ConnectionQuality.MaxOf | app/src/main/java/com/example/windowsandroidconnect/utils/ConnectionQualityMonitor.kt:189 | the maximum is a latency no other latency exceeds |
| ConnectionQuality.TruncDiv | app/src/main/java/com/example/windowsandroidconnect/utils/ConnectionQualityMonitor.kt:187 | `toLong()` of a quotient truncates toward zero (also line 199) |
| ConnectionQuality.Mean | app/src/main/java/com/example/windowsandroidconnect/utils/ConnectionQualityMonitor.kt:187 | the truncated average lies between the smallest and the largest latency |
| ConnectionQuality.AbsDiffs | app/src/main/java/com/example/windowsandroidconnect/utils/ConnectionQualityMonitor.kt:198 | one absolute difference per consecutive pair of latencies, none for fewer than two |
| ConnectionQuality.Jitter | app/src/main/java/com/example/windowsandroidconnect/utils/ConnectionQualityMonitor.kt:196-200 | the jitter is the mean of the absolute differences rounded down, and 0 with fewer than two successes |
| ConnectionQuality.JitterBounded | app/src/main/java/com/example/windowsandroidconnect/utils/ConnectionQualityMonitor.kt:196-200 | the jitter never exceeds the spread of the latencies |
| ConnectionQuality.MetricsCases | app/src/main/java/com/example/windowsandroidconnect/utils/ConnectionQualityMonitor.kt:169-214 | an empty history gives zero metrics and a disconnected link; otherwise the loss is the loss rate and the strength is looked up from the average and the loss |
| ConnectionQuality.AllFailedDisconnected | app/src/main/java/com/example/windowsandroidconnect/utils/ConnectionQualityMonitor.kt:183-222 | when every ping failed the loss is 100% and the link disconnected |
| ConnectionQuality.MetricsBounds | app/src/main/java/com/example/windowsandroidconnect/utils/ConnectionQualityMonitor.kt:183-200 | with a success, the current and average latencies lie between the minimum and the maximum, and the jitter within the spread |
| ConnectionQuality.FailedLatencyIrrelevant | app/src/main/java/com/example/windowsandroidconnect/utils/ConnectionQualityMonitor.kt:183-200 | the latency recorded for a failed ping plays no part in the metrics |
| ConnectionQuality.HalfLostDisconnected | app/src/main/java/com/example/windowsandroidconnect/utils/ConnectionQualityMonitor.kt:191-222 | with at least half of the pings lost the link is disconnected |
| ConnectionQuality.KeepShape | app/src/main/java/com/example/windowsandroidconnect/utils/ConnectionQualityMonitor.kt:151-158 | the kept history ends with the new result, holds at most 20 entries and drops the oldest only when full |
| ConnectionQuality.Fails | app/src/main/java/com/example/windowsandroidconnect/utils/ConnectionQualityMonitor.kt:141-145 | each timed-out ping becomes one failure with the threshold as latency |
| ConnectionQuality.RecordFailuresEffect | app/src/main/java/com/example/windowsandroidconnect/utils/ConnectionQualityMonitor.kt:141-145 | recording failures keeps the newest entries followed by the failures and publishes one notice each |
| ConnectionQuality.PongUnknown | app/src/main/java/com/example/windowsandroidconnect/utils/ConnectionQualityMonitor.kt:123-130 | a pong for an id that is not pending records nothing |
| ConnectionQuality.PongKnown | app/src/main/java/com/example/windowsandroidconnect/utils/ConnectionQualityMonitor.kt:123-130 | a pong for a pending id resolves it, records a success whose latency is the time since sending, and publishes the new metrics |
| ConnectionQuality.PongOnce | app/src/main/java/com/example/windowsandroidconnect/utils/ConnectionQualityMonitor.kt:123-130 | a second pong for the same id records nothing |
| ConnectionQuality.TimeoutsRecorded | app/src/main/java/com/example/windowsandroidconnect/utils/ConnectionQualityMonitor.kt:135-146 | after the timeout check exactly the pings within the threshold stay pending, unchanged, and one failure is recorded per ping dropped |
| ConnectionQuality.SentFresh | app/src/main/java/com/example/windowsandroidconnect/utils/ConnectionQualityMonitor.kt:105-108 | a new ping gets an id that was not pending |
| ConnectionQuality.TickKeepsNewPing | app/src/main/java/com/example/windowsandroidconnect/utils/ConnectionQualityMonitor.kt:82-85 | the ping sent by a tick survives that tick's timeout check |
| ConnectionQuality.StepValid | app/src/main/java/com/example/windowsandroidconnect/utils/ConnectionQualityMonitor.kt:151-160 | every operation keeps the history within 20 entries and the pending ids among those issued |
| ConnectionQuality.RunValid | app/src/main/java/com/example/windowsandroidconnect/utils/ConnectionQualityMonitor.kt:151-160 | no sequence of operations grows the history past 20 entries |
| ConnectionQuality.HistoryBounded | app/src/main/java/com/example/windowsandroidconnect/utils/ConnectionQualityMonitor.kt:18 | from the start, the history never holds more than 20 entries |
| ConnectionQuality.QualityMonitor.constructor | app/src/main/java/com/example/windowsandroidconnect/utils/ConnectionQualityMonitor.kt:56-65 | a new monitor is idle with an empty history |
| ConnectionQuality.QualityMonitor.StartMonitoring | app/src/main/java/com/example/windowsandroidconnect/utils/ConnectionQualityMonitor.kt:71-88 | the monitor moves as `Started` says |
| ConnectionQuality.QualityMonitor.StopMonitoring | app/src/main/java/com/example/windowsandroidconnect/utils/ConnectionQualityMonitor.kt:93-99 | the monitor moves as `Stopped` says |
| ConnectionQuality.QualityMonitor.SendPingMessage | app/src/main/java/com/example/windowsandroidconnect/utils/ConnectionQualityMonitor.kt:104-118 | the monitor moves as `Sent` says |
| ConnectionQuality.QualityMonitor.OnPongReceived | app/src/main/java/com/example/windowsandroidconnect/utils/ConnectionQualityMonitor.kt:123-130 | the monitor moves as `Pong` says |
| ConnectionQuality.QualityMonitor.CheckTimeouts | app/src/main/java/com/example/windowsandroidconnect/utils/ConnectionQualityMonitor.kt:135-146 | the timeout loop moves the monitor as `TimedOut` says |
| ConnectionQuality.QualityMonitor.RecordPingResult | app/src/main/java/com/example/windowsandroidconnect/utils/ConnectionQualityMonitor.kt:151-164 | the history moves as `Record` says and nothing else changes |
| ConnectionQuality.QualityMonitor.CalculateMetrics | app/src/main/java/com/example/windowsandroidconnect/utils/ConnectionQualityMonitor.kt:169-215 | the loops compute `MetricsOf` of the history |
| ConnectionQuality.QualityMonitor.GetMetrics | app/src/main/java/com/example/windowsandroidconnect/utils/ConnectionQualityMonitor.kt:234 | the metrics are `MetricsOf` of the history |
| ConnectionQuality.QualityMonitor.Tick | app/src/main/java/com/example/windowsandroidconnect/utils/ConnectionQualityMonitor.kt:82-86 | one pass of the monitoring loop moves the monitor as `Ticked` says |
| ConnectionQuality.QualityMonitor.AddListener | app/src/main/java/com/example/windowsandroidconnect/utils/ConnectionQualityMonitor.kt:239-241 | the listener is added and nothing else changes |
| ConnectionQuality.QualityMonitor.RemoveListener | app/src/main/java/com/example/windowsandroidconnect/utils/ConnectionQualityMonitor.kt:246-248 | the listener is removed and nothing else changes |
| ConnectionQuality.QualityMonitor.ClearHistory | app/src/main/java/com/example/windowsandroidconnect/utils/ConnectionQualityMonitor.kt:266-271 | the monitor moves as `Cleared` says |
| ConnectionQuality.QualityMonitor.Cleanup | app/src/main/java/com/example/windowsandroidconnect/utils/ConnectionQualityMonitor.kt:276-282 | the monitor moves as `CleanedUp` says |
| DeviceHistory.Reload | app/src/main/java/com/example/windowsandroidconnect/utils/DeviceHistoryManager.kt:307 | an entry read back never has an empty custom name, and every other field reads back as written |
| DeviceHistory.ReloadAll | app/src/main/java/com/example/windowsandroidconnect/utils/DeviceHistoryManager.kt:297-308 | each stored entry is read back in turn |
| DeviceHistory.HistoryShape | app/src/main/java/com/example/windowsandroidconnect/utils/DeviceHistoryManager.kt:94-110 | the history holds one read-back entry per stored entry, newest first with no empty custom name (also lines 297-308) |
| DeviceHistory.HistoryOfNormalized | app/src/main/java/com/example/windowsandroidconnect/utils/DeviceHistoryManager.kt:94-110 | a normalised list written and read back is the same list |
| DeviceHistory.HistoryIdempotent | app/src/main/java/com/example/windowsandroidconnect/utils/DeviceHistoryManager.kt:94-110 | saving what was read and reading it again changes nothing |
| DeviceHistory.IndexOfId | app/src/main/java/com/example/windowsandroidconnect/utils/DeviceHistoryManager.kt:48 | the index found holds the first entry with the id, past the end when there is none |
| DeviceHistory.SavedEntry | app/src/main/java/com/example/windowsandroidconnect/utils/DeviceHistoryManager.kt:48-72 | a known device keeps its platform, flag and custom name, takes its name and address from the new record, is stamped now and counts one more connection; a new one starts with count 1 |
| DeviceHistory.SaveTrims | app/src/main/java/com/example/windowsandroidconnect/utils/DeviceHistoryManager.kt:76-83 | saving throws exactly when more than 20 favourites are stored; otherwise every favourite is kept, the newest non-favourites fill up to 20, and the list reads back as written |
| DeviceHistory.SaveNormalized | app/src/main/java/com/example/windowsandroidconnect/utils/DeviceHistoryManager.kt:81 | what is saved is newest first with no empty custom name (also lines 94-110) |
| DeviceHistory.SaveKeepsVisited | app/src/main/java/com/example/windowsandroidconnect/utils/DeviceHistoryManager.kt:74-83 | the saved device is kept exactly when it is a favourite or fewer than 20 favourites are stored |
| DeviceHistory.SaveMovesToFront | app/src/main/java/com/example/windowsandroidconnect/utils/DeviceHistoryManager.kt:58-81 | when the saved device is kept and every other entry is older, it comes first |
| DeviceHistory.SaveNeverThrows | app/src/main/java/com/example/windowsandroidconnect/utils/DeviceHistoryManager.kt:77-80 | a history of at most 20 entries never makes the save throw and stays within 20 |
| DeviceHistory.RecentNewest | app/src/main/java/com/example/windowsandroidconnect/utils/DeviceHistoryManager.kt:115-117 | the recent devices are the newest ones up to the limit, and a negative limit throws |
| DeviceHistory.FavoritesExactly | app/src/main/java/com/example/windowsandroidconnect/utils/DeviceHistoryManager.kt:122-124 | the favourites are exactly the history's favourite entries, newest first |
| DeviceHistory.LastConnectedFound | app/src/main/java/com/example/windowsandroidconnect/utils/DeviceHistoryManager.kt:129-132 | the last connected device carries the remembered id, and is missing only when no id is remembered or no entry carries it |
| DeviceHistory.SearchMembers | app/src/main/java/com/example/windowsandroidconnect/utils/DeviceHistoryManager.kt:215-223 | an entry is found exactly when the lower-cased query occurs in its lower-cased name, custom name or id, or in its address |
| DeviceHistory.SearchEmptyQuery | app/src/main/java/com/example/windowsandroidconnect/utils/DeviceHistoryManager.kt:215-223 | the empty query finds the whole history |
| DeviceHistory.SearchCaseInsensitive | app/src/main/java/com/example/windowsandroidconnect/utils/DeviceHistoryManager.kt:216 | the query's case does not matter |
| DeviceHistory.StatisticsFacts | app/src/main/java/com/example/windowsandroidconnect/utils/DeviceHistoryManager.kt:228-237 | the totals count the entries, the favourites and the connections, and the most connected device is the first of greatest count, missing only for an empty history |
| DeviceHistory.ReconnectThroughInfo | app/src/main/java/com/example/windowsandroidconnect/utils/DeviceHistoryManager.kt:253-264 | reconnecting through an entry's device info keeps its address, platform, flag and custom name but stores the shown name as the device name |
| DeviceHistory.ApplyChanges | app/src/main/java/com/example/windowsandroidconnect/utils/DeviceHistoryManager.kt:142-173 | each edit changes one field, or the address and port (a missing port kept), and never the id, time or count |
| DeviceHistory.UpdateOnlyMatching | app/src/main/java/com/example/windowsandroidconnect/utils/DeviceHistoryManager.kt:137-177 | an edit changes the first entry with the id and no other, and writes nothing without one |
| DeviceHistory.EmptyNameReadsAsNone | app/src/main/java/com/example/windowsandroidconnect/utils/DeviceHistoryManager.kt:156-157 | an empty custom name reads back as no custom name (also line 307) |
| DeviceHistory.RemoveEffect | app/src/main/java/com/example/windowsandroidconnect/utils/DeviceHistoryManager.kt:182-185 | removal drops exactly the entries with the id and the rest reads back in order |
| DeviceHistory.RemoveForgets | app/src/main/java/com/example/windowsandroidconnect/utils/DeviceHistoryManager.kt:187-190 | after removal the last connected device is gone when it was the removed one, and otherwise unchanged |
| DeviceHistory.ClearEffect | app/src/main/java/com/example/windowsandroidconnect/utils/DeviceHistoryManager.kt:198-210 | keeping favourites leaves exactly the favourites and the remembered id; a full clear leaves nothing |
| DeviceHistory.WritesStayBounded | app/src/main/java/com/example/windowsandroidconnect/utils/DeviceHistoryManager.kt:137-210 | every write keeps a history within 20 entries |
| DeviceHistory.DeviceHistoryManager.constructor | app/src/main/java/com/example/windowsandroidconnect/utils/DeviceHistoryManager.kt:14-24 | a new manager reads what the preferences hold |
| DeviceHistory.DeviceHistoryManager.SaveDevice | app/src/main/java/com/example/windowsandroidconnect/utils/DeviceHistoryManager.kt:44-89 | a throwing save writes nothing; otherwise the history is saved and the device remembered as the last one |
| DeviceHistory.DeviceHistoryManager.GetDeviceHistory | app/src/main/java/com/example/windowsandroidconnect/utils/DeviceHistoryManager.kt:94-110 | the history read back |
| DeviceHistory.DeviceHistoryManager.GetRecentDevices | app/src/main/java/com/example/windowsandroidconnect/utils/DeviceHistoryManager.kt:115-117 | the recent devices, or the throw for a negative limit |
| DeviceHistory.DeviceHistoryManager.GetFavoriteDevices | app/src/main/java/com/example/windowsandroidconnect/utils/DeviceHistoryManager.kt:122-124 | the favourites |
| DeviceHistory.DeviceHistoryManager.GetLastConnectedDevice | app/src/main/java/com/example/windowsandroidconnect/utils/DeviceHistoryManager.kt:129-132 | the last connected device |
| DeviceHistory.DeviceHistoryManager.SetFavorite | app/src/main/java/com/example/windowsandroidconnect/utils/DeviceHistoryManager.kt:137-146 | the flag edit is applied and the remembered id kept |
| DeviceHistory.DeviceHistoryManager.SetCustomName | app/src/main/java/com/example/windowsandroidconnect/utils/DeviceHistoryManager.kt:151-160 | the name edit is applied and the remembered id kept |
| DeviceHistory.DeviceHistoryManager.UpdateDeviceIp | app/src/main/java/com/example/windowsandroidconnect/utils/DeviceHistoryManager.kt:165-177 | the address edit is applied and the remembered id kept |
| DeviceHistory.DeviceHistoryManager.RemoveDevice | app/src/main/java/com/example/windowsandroidconnect/utils/DeviceHistoryManager.kt:182-193 | the device is removed and forgotten as the last one when it was |
| DeviceHistory.DeviceHistoryManager.ClearHistory | app/src/main/java/com/example/windowsandroidconnect/utils/DeviceHistoryManager.kt:198-210 | the history is cleared, the remembered id kept only with the favourites |
| DeviceHistory.DeviceHistoryManager.SearchDevices | app/src/main/java/com/example/windowsandroidconnect/utils/DeviceHistoryManager.kt:215-223 | the search result |
| DeviceHistory.DeviceHistoryManager.GetStatistics | app/src/main/java/com/example/windowsandroidconnect/utils/DeviceHistoryManager.kt:228-237 | the statistics of the history |
| RetryUtils.ToLongTruncates | app/src/main/java/com/example/windowsandroidconnect/utils/RetryUtils.kt:48 | `toLong()` saturates outside the `Long` range and drops the fraction toward zero inside it |
| RetryUtils.ToLongMonotone | app/src/main/java/com/example/windowsandroidconnect/utils/RetryUtils.kt:48 | `toLong()` keeps the order |
| RetryUtils.Delays | app/src/main/java/com/example/windowsandroidconnect/utils/RetryUtils.kt:46-51 | one delay per attempt that is followed by another, the `i`-th being the initial delay scaled by the factor to the `i` |
| RetryUtils.FirstSuccess | app/src/main/java/com/example/windowsandroidconnect/utils/RetryUtils.kt:31-40 | the attempt found is the first that returns a value, every earlier one having failed |
| RetryUtils.LastThrown | app/src/main/java/com/example/windowsandroidconnect/utils/RetryUtils.kt:41-42 | the message kept is one an attempt threw, and there is none exactly when no attempt threw (also line 55) |
| RetryUtils.Retry | app/src/main/java/com/example/windowsandroidconnect/utils/RetryUtils.kt:22-57 | the first attempt to return a value ends the loop with that value after waiting before each later attempt; when none does, every allowed attempt runs, the result is null and the last exception is kept |
| RetryUtils.RetryBoolean | app/src/main/java/com/example/windowsandroidconnect/utils/RetryUtils.kt:68-81 | true exactly when one of the allowed attempts returns true, the attempts stopping at the first true |
| RetryUtils.DelayDoubles | app/src/main/java/com/example/windowsandroidconnect/utils/RetryUtils.kt:48 | with factor 2 the delays double, up to the `Long` limit |
| RetryUtils.DefaultSchedule | app/src/main/java/com/example/windowsandroidconnect/utils/RetryUtils.kt:23-51 | the defaults wait 1, 2 and 4 seconds |
| RetryUtils.DelaysNonDecreasing | app/src/main/java/com/example/windowsandroidconnect/utils/RetryUtils.kt:46-51 | a factor of at least 1 and a non-negative initial delay never shorten the wait |
| StrategyManager.RegisterValid | app/src/main/java/com/example/windowsandroidconnect/connection/ConnectionManager.kt:25-27 | registration files the strategy under the lower-cased type and leaves every other type's strategy alone |
| StrategyManager.InitialRegistry | app/src/main/java/com/example/windowsandroidconnect/connection/ConnectionManager.kt:15-20 | a new manager holds "tcp" and "kcp", in that order, both disconnected, and nothing selected |
| StrategyManager.SelectIgnoresCase | app/src/main/java/com/example/windowsandroidconnect/connection/ConnectionManager.kt:26 | names with the same lower-casing select the same strategy (also line 33) |
| StrategyManager.RegisterThenSelect | app/src/main/java/com/example/windowsandroidconnect/connection/ConnectionManager.kt:25-33 | a type registered under any spelling selects that strategy under any other spelling with the same lower-casing |
| StrategyManager.SelectUnknown | app/src/main/java/com/example/windowsandroidconnect/connection/ConnectionManager.kt:33-34 | an unknown type is refused and changes nothing |
| StrategyManager.SelectDisconnectsFirst | app/src/main/java/com/example/windowsandroidconnect/connection/ConnectionManager.kt:35-40 | selecting a known type makes it current, the connected strategy being told to disconnect first even when it is the one selected |
| StrategyManager.ReselectDisconnects | app/src/main/java/com/example/windowsandroidconnect/connection/ConnectionManager.kt:35-40 | reselecting the connected strategy leaves it current but disconnected |
| StrategyManager.NothingSelected | app/src/main/java/com/example/windowsandroidconnect/connection/ConnectionManager.kt:52-85 | with nothing selected, connecting fails and does nothing, the manager is not connected, its type reads as not connected and sending does nothing |
| StrategyManager.ConnectThenDisconnect | app/src/main/java/com/example/windowsandroidconnect/connection/ConnectionManager.kt:52-78 | with a strategy selected, connecting answers as the strategy does and the manager is connected exactly when it accepted; disconnecting then leaves it disconnected |
| StrategyManager.ConnectionManager.constructor | app/src/main/java/com/example/windowsandroidconnect/connection/ConnectionManager.kt:15-20 | a new manager is the initial registry |
| StrategyManager.ConnectionManager.RegisterStrategy | app/src/main/java/com/example/windowsandroidconnect/connection/ConnectionManager.kt:25-27 | the manager moves as `Register` says |
| StrategyManager.ConnectionManager.SelectStrategy | app/src/main/java/com/example/windowsandroidconnect/connection/ConnectionManager.kt:32-47 | the answer and the new state are as `Select` says |
| StrategyManager.ConnectionManager.Connect | app/src/main/java/com/example/windowsandroidconnect/connection/ConnectionManager.kt:52-57 | the answer and the new state are as `ConnectTo` says |
| StrategyManager.ConnectionManager.Disconnect | app/src/main/java/com/example/windowsandroidconnect/connection/ConnectionManager.kt:62-64 | the manager moves as `Disconnected` says |
| StrategyManager.ConnectionManager.SendMessage | app/src/main/java/com/example/windowsandroidconnect/connection/ConnectionManager.kt:69-71 | the manager moves as `Sent` says |
| StrategyManager.ConnectionManager.GetConnected | app/src/main/java/com/example/windowsandroidconnect/connection/ConnectionManager.kt:76-78 | whether the current strategy is connected |
| StrategyManager.ConnectionManager.GetCurrentConnectionType | app/src/main/java/com/example/windowsandroidconnect/connection/ConnectionManager.kt:83-85 | the current strategy's type, or the not-connected text |
| StrategyManager.ConnectionManager.GetSupportedConnectionTypes | app/src/main/java/com/example/windowsandroidconnect/connection/ConnectionManager.kt:90-92 | the registered types, each once, in registration order |
| StrategyManager.ConnectionManager.GetCurrentStrategy | app/src/main/java/com/example/windowsandroidconnect/connection/ConnectionManager.kt:97-99 | the current strategy |
| TestFramework.RunOrder | app/src/main/java/com/example/windowsandroidconnect/test/TestFramework.kt:199 | the run order is the list sorted by descending priority, a permutation of it |
| TestFramework.Listed | app/src/main/java/com/example/windowsandroidconnect/test/TestFramework.kt:313 | the report lists one stored result per id of the order, in that order |
| TestFramework.TestIdInjective | app/src/main/java/com/example/windowsandroidconnect/test/TestFramework.kt:132 | distinct numbers give distinct ids |
| TestFramework.RegisterIds | app/src/main/java/com/example/windowsandroidconnect/test/TestFramework.kt:132-145 | the n-th registered case gets "test-n", an id no earlier case has |
| TestFramework.RegisterValid | app/src/main/java/com/example/windowsandroidconnect/test/TestFramework.kt:123-146 | registration keeps the invariant |
| TestFramework.FirstId | app/src/main/java/com/example/windowsandroidconnect/test/TestFramework.kt:132 | the first case registered after a fresh start or a reset is "test-1" (also line 335) |
| TestFramework.RegisteredDistinct | app/src/main/java/com/example/windowsandroidconnect/test/TestFramework.kt:132 | the registered cases have distinct ids |
| TestFramework.JudgeCases | app/src/main/java/com/example/windowsandroidconnect/test/TestFramework.kt:238-262 | a case passes exactly when its setup completes and its function returns true; a failure always carries a message, a throwing setup's message reported even if the function would pass |
| TestFramework.TeardownIgnored | app/src/main/java/com/example/windowsandroidconnect/test/TestFramework.kt:255-262 | a throwing teardown changes nothing, and after a throwing setup the function's outcome does not matter |
| TestFramework.FinalFields | app/src/main/java/com/example/windowsandroidconnect/test/TestFramework.kt:225-274 | the final result names the case, keeps the start time of its running result and measures from before setup to after teardown |
| TestFramework.BeginValid | app/src/main/java/com/example/windowsandroidconnect/test/TestFramework.kt:188-199 | starting a run keeps the invariant with no results and no case in flight |
| TestFramework.StartValid | app/src/main/java/com/example/windowsandroidconnect/test/TestFramework.kt:225-234 | starting a case keeps the invariant with the case in flight |
| TestFramework.FinishValid | app/src/main/java/com/example/windowsandroidconnect/test/TestFramework.kt:264-274 | finishing a case keeps the invariant with no case in flight |
| TestFramework.EndValid | app/src/main/java/com/example/windowsandroidconnect/test/TestFramework.kt:207-209 | ending a run keeps the invariant and stops running |
| TestFramework.DrainValid | app/src/main/java/com/example/windowsandroidconnect/test/TestFramework.kt:202-204 | running the remaining cases keeps the invariant and leaves none |
| TestFramework.StepEffect | app/src/main/java/com/example/windowsandroidconnect/test/TestFramework.kt:221-277 | one case run takes the first remaining case and stores its final result |
| TestFramework.DrainFrame | app/src/main/java/com/example/windowsandroidconnect/test/TestFramework.kt:202-204 | running cases changes only the results and their order |
| TestFramework.DrainKeys | app/src/main/java/com/example/windowsandroidconnect/test/TestFramework.kt:202-204 | every remaining case gets a result and the earlier results are kept, and there are no others |
| TestFramework.DrainKeeps | app/src/main/java/com/example/windowsandroidconnect/test/TestFramework.kt:202-204 | a result whose id does not come up again is kept |
| TestFramework.DrainOrder | app/src/main/java/com/example/windowsandroidconnect/test/TestFramework.kt:202-204 | with fresh distinct ids, the keys are listed in run order after the earlier ones |
| TestFramework.DrainApplied | app/src/main/java/com/example/windowsandroidconnect/test/TestFramework.kt:202-204 | the remaining cases' final results are stored in turn |
| TestFramework.DrainResultAt | app/src/main/java/com/example/windowsandroidconnect/test/TestFramework.kt:202-204 | with distinct ids, the `j`-th remaining case gets the result of its own execution |
| TestFramework.RunOrderIds | app/src/main/java/com/example/windowsandroidconnect/test/TestFramework.kt:199 | an id occurs in the run order exactly when it occurs in the list |
| TestFramework.RunValid | app/src/main/java/com/example/windowsandroidconnect/test/TestFramework.kt:182-216 | a run keeps the invariant and ends not running when it started so |
| TestFramework.RunFrame | app/src/main/java/com/example/windowsandroidconnect/test/TestFramework.kt:188-209 | a run keeps the cases, the counter and the mocks, takes the new session id and starts the mocks and then stops them |
| TestFramework.RunKeys | app/src/main/java/com/example/windowsandroidconnect/test/TestFramework.kt:190-204 | after a run exactly the cases of the list have results, the previous ones gone |
| TestFramework.RunResults | app/src/main/java/com/example/windowsandroidconnect/test/TestFramework.kt:199-204 | with distinct ids the cases run in descending priority and each gets the result of its own execution |
| TestFramework.SamePriorityKeepsOrder | app/src/main/java/com/example/windowsandroidconnect/test/TestFramework.kt:199 | cases of equal priority keep their list order |
| TestFramework.PriorityRunSelects | app/src/main/java/com/example/windowsandroidconnect/test/TestFramework.kt:174-177 | running by priority gives results to exactly the registered cases of at least that priority |
| TestFramework.TypeRunSelects | app/src/main/java/com/example/windowsandroidconnect/test/TestFramework.kt:166-169 | running by type gives results to exactly the registered cases of that type |
| TestFramework.RunAllResults | app/src/main/java/com/example/windowsandroidconnect/test/TestFramework.kt:159-161 | running all gives every registered case the result of its execution, one result per case |
| TestFramework.ResetEffect | app/src/main/java/com/example/windowsandroidconnect/test/TestFramework.kt:326-338 | a reset while running does nothing; otherwise cases, results and mocks are cleared and numbering starts again |
| TestFramework.StatusPartition | app/src/main/java/com/example/windowsandroidconnect/test/TestFramework.kt:356-359 | every result is counted once as passed, failed, skipped or running |
| TestFramework.GenerateIgnoresOrder | app/src/main/java/com/example/windowsandroidconnect/test/TestFramework.kt:355-360 | the report's counts and total duration do not depend on the order of the results |
| TestFramework.ReportTotals | app/src/main/java/com/example/windowsandroidconnect/test/TestFramework.kt:356-359 | the report counts every stored result and never a skipped one |
| TestFramework.ReportSettled | app/src/main/java/com/example/windowsandroidconnect/test/TestFramework.kt:356-358 | between cases every listed result passed or failed |
| TestFramework.ReportInFlight | app/src/main/java/com/example/windowsandroidconnect/test/TestFramework.kt:225-234 | during a case the report lists its running result, counted in the total only |
| TestFramework.Framework.constructor | app/src/main/java/com/example/windowsandroidconnect/test/TestFramework.kt:14-20 | a new framework holds no cases, results or mocks and is not running |
| TestFramework.Framework.RegisterTestCase | app/src/main/java/com/example/windowsandroidconnect/test/TestFramework.kt:123-146 | the framework moves as `Register` says and the id is "test-n" for the n-th case |
| TestFramework.Framework.RegisterMockService | app/src/main/java/com/example/windowsandroidconnect/test/TestFramework.kt:151-154 | the mock is filed under its name |
| TestFramework.Framework.GenerateReport | app/src/main/java/com/example/windowsandroidconnect/test/TestFramework.kt:312-314 | the report of the current results |
| TestFramework.Framework.IsRunning | app/src/main/java/com/example/windowsandroidconnect/test/TestFramework.kt:319-321 | whether a run is in progress |
| TestFramework.Framework.BeginRun | app/src/main/java/com/example/windowsandroidconnect/test/TestFramework.kt:188-199 | the framework moves as `Begin` says |
| TestFramework.Framework.StartNextCase | app/src/main/java/com/example/windowsandroidconnect/test/TestFramework.kt:225-234 | the framework moves as `StartCase` says |
| TestFramework.Framework.FinishCurrentCase | app/src/main/java/com/example/windowsandroidconnect/test/TestFramework.kt:237-274 | the framework moves as `FinishCase` says |
| TestFramework.Framework.EndRun | app/src/main/java/com/example/windowsandroidconnect/test/TestFramework.kt:207-209 | the framework moves as `End` says |
| TestFramework.Framework.RunTests | app/src/main/java/com/example/windowsandroidconnect/test/TestFramework.kt:182-216 | the loop over the sorted cases moves the framework as `Run` says, and the report describes the outcome |
| TestFramework.Framework.RunAllTests | app/src/main/java/com/example/windowsandroidconnect/test/TestFramework.kt:159-161 | all registered cases are run |
| TestFramework.Framework.RunTestsByType | app/src/main/java/com/example/windowsandroidconnect/test/TestFramework.kt:166-169 | the registered cases of the type are run |
| TestFramework.Framework.RunTestsByPriority | app/src/main/java/com/example/windowsandroidconnect/test/TestFramework.kt:174-177 | the registered cases of at least the priority are run |
| TestFramework.Framework.Reset | app/src/main/java/com/example/windowsandroidconnect/test/TestFramework.kt:326-338 | the framework moves as `Cleared` says |
| RemoteControlService.EstablishEffect | frontend/services/RemoteControlService.js:103-137 | a new session starts initialising on a 1920×1080 screen at the service's latency, every control but system control on unless the caller says otherwise; other sessions stay, and a repeated id replaces the earlier session in its place |
| RemoteControlService.TransitionIff | frontend/services/RemoteControlService.js:165-200 | a transition happens exactly when the session is in the state it leaves, changing only its status and activity time |
| RemoteControlService.PauseThenResume | frontend/services/RemoteControlService.js:165-200 | pausing works only from established and resuming only from paused, and a pause then a resume restores the session but for its activity time |
| RemoteControlService.DeviceSessionsMember | frontend/services/RemoteControlService.js:252-256 | a device's sessions are exactly the active ones it controls or is controlled in |
| RemoteControlService.PermissionKeyAmbiguous | frontend/services/RemoteControlService.js:267 | the permission key is plain concatenation, so device ids holding `-` can share a key and one pair's grant serves another (also lines 311, 331) |
| RemoteControlService.CheckEffect | frontend/services/RemoteControlService.js:310-322 | the check returns the pair's record and changes only its status, and only from granted to expired once the expiry is past |
| RemoteControlService.CheckIdempotent | frontend/services/RemoteControlService.js:310-322 | checking twice at the same moment is checking once |
| RemoteControlService.GrantLastsAnHour | frontend/services/RemoteControlService.js:264-322 | a grant holds for an hour and has expired at any later check |
| RemoteControlService.DenialSticks | frontend/services/RemoteControlService.js:279-296 | a refused request is never usable, at any time |
| RemoteControlService.AuthorizeIff | frontend/services/RemoteControlService.js:348-362 | input goes ahead exactly for an established session whose pair holds a granted, unexpired permission, and a refusal changes no record except an expired grant |
| RemoteControlService.InputIgnoresControlOptions | frontend/services/RemoteControlService.js:348-362 | the per-session keyboard, mouse and touch switches are never consulted (also lines 114-121) |
| RemoteControlService.CloseEffect | frontend/services/RemoteControlService.js:207-228 | closing a known session removes it and its pair's permission and nothing else; an unknown id changes nothing |
| RemoteControlService.InitializeEffect | frontend/services/RemoteControlService.js:140-155 | after initialisation a session is established and its pair's permission pending exactly when it asked for one; a closed session is not revived |
| RemoteControlService.KeyStepPressed | frontend/services/RemoteControlService.js:375-381 | key-down adds the key and key-up removes it, each key held once, and the event becomes the last one |
| RemoteControlService.KeyDownThenUp | frontend/services/RemoteControlService.js:375-379 | a key pressed and released leaves the other held keys as before |
| RemoteControlService.MouseStepEffect | frontend/services/RemoteControlService.js:433-468 | press and release change the named button (left by default); move, press, release and click go to the given position, keeping an axis left out; scroll keeps position and buttons |
| RemoteControlService.MouseDownThenUp | frontend/services/RemoteControlService.js:443-459 | a button pressed and released in place leaves the buttons and the position as before |
| RemoteControlService.Normalize | frontend/services/RemoteControlService.js:514-525 | one point per touch |
| RemoteControlService.NormalizeDefaults | frontend/services/RemoteControlService.js:514-525 | each point keeps its coordinates and identifier, defaulting to its index only when absent; a radius absent or 0 becomes 10 and a force absent or 0 becomes 1 |
| RemoteControlService.TouchStepEffect | frontend/services/RemoteControlService.js:527-534 | start and move replace the touches, end and cancel clear them, and other events keep them |
| RemoteControlService.RecordEffect | frontend/services/RemoteControlService.js:694-724 | while recording every input is appended in order, otherwise nothing is kept, and a stop returns what was recorded since the start |
| RemoteControlService.ReplayReordersAsWritten | frontend/services/RemoteControlService.js:740-747 | as written every timer starts at the call, so events recorded at 0, 1000 and 1100 ms fire at 0, 1000 and 100 ms |
| RemoteControlService.ReplayOffsetKeepsGaps | frontend/services/RemoteControlService.js:740-747 | with the intended delays the first event fires at once and each later one the recorded gap, over the speed, after its predecessor |
| RemoteControlService.ReplaySchedule | frontend/services/RemoteControlService.js:740-781 | one timer per event, each at its intended offset |
| RemoteControlService.ReplayedMoveStaysAsWritten | frontend/services/RemoteControlService.js:758-766 | as written, replaying a recorded move to (5, 5) from (0, 0) leaves the pointer at (0, 0) |
| RemoteControlService.ReplayedMouseRepeats | frontend/services/RemoteControlService.js:758-766 | with the intended replay, a recorded move, press, release or click repeats from any state, the pointer ending where it was recorded |
| RemoteControlService.ReplayedInputRepeats | frontend/services/RemoteControlService.js:758-770 | replayed keys and touches come out as recorded |
| RemoteControlService.CheckCommandIff | frontend/services/RemoteControlService.js:564-590 | a command is accepted exactly when input would be and system control is on, so with the default options it is refused; the first failing check names the rejection |
| RemoteControlService.ClampLatencyEffect | frontend/services/RemoteControlService.js:789-792 | the latency is never negative, a non-negative value kept, and clamping twice is clamping once |
| RemoteControlService.StatsOrdered | frontend/services/RemoteControlService.js:896-903 | better grades have lower latency and loss and more bandwidth, and an unknown grade counts as good |
| RemoteControlService.OrientEffect | frontend/services/RemoteControlService.js:969-986 | width and height swap exactly when a landscape orientation meets a taller screen or a portrait one a wider screen |
| RemoteControlService.RegistryStepsListed | frontend/services/RemoteControlService.js:887-996 | every operation keeps the sessions listed in insertion order |
| RemoteControlService.Service.constructor | frontend/services/RemoteControlService.js:5-28 | a new service has no sessions, no permissions and idle input state |
| RemoteControlService.Service.EstablishSession | frontend/services/RemoteControlService.js:103-158 | the session id is the time and the random suffix, and the sessions move as `Establish` says |
| RemoteControlService.Service.CompleteInitialization | frontend/services/RemoteControlService.js:140-155 | the sessions and permissions move as `Initialize` says |
| RemoteControlService.Service.PauseSession | frontend/services/RemoteControlService.js:165-179 | the answer and the sessions are as `Pause` says |
| RemoteControlService.Service.ResumeSession | frontend/services/RemoteControlService.js:186-200 | the answer and the sessions are as `Resume` says |
| RemoteControlService.Service.CloseSession | frontend/services/RemoteControlService.js:207-228 | the answer, sessions and permissions are as `Close` says |
| RemoteControlService.Service.GetSession | frontend/services/RemoteControlService.js:235-237 | the session under the id, or none |
| RemoteControlService.Service.GetAllActiveSessions | frontend/services/RemoteControlService.js:243-245 | the sessions in insertion order |
| RemoteControlService.Service.GetDeviceSessions | frontend/services/RemoteControlService.js:252-256 | the device's sessions |
| RemoteControlService.Service.RequestControlPermission | frontend/services/RemoteControlService.js:264-277 | the permissions move as `Request` says |
| RemoteControlService.Service.DecidePermission | frontend/services/RemoteControlService.js:279-300 | the permissions move as `Decide` says |
| RemoteControlService.Service.CheckControlPermission | frontend/services/RemoteControlService.js:310-322 | the answer and permissions are as `Check` says |
| RemoteControlService.Service.RevokeControlPermission | frontend/services/RemoteControlService.js:330-339 | the answer and permissions are as `Revoke` says |
| RemoteControlService.Service.SendKeyboardEvent | frontend/services/RemoteControlService.js:348-402 | an authorised key event updates the keyboard and is recorded; a refused one changes no input state |
| RemoteControlService.Service.SendMouseEvent | frontend/services/RemoteControlService.js:411-489 | an authorised mouse event updates the mouse and is recorded; a refused one changes no input state |
| RemoteControlService.Service.SendTouchEvent | frontend/services/RemoteControlService.js:498-555 | an authorised touch event updates the touches and is recorded; a refused one changes no input state |
| RemoteControlService.Service.DeliverInput | frontend/services/RemoteControlService.js:387-399 | the session's activity time moves as `Deliver` says |
| RemoteControlService.Service.SendSystemCommand | frontend/services/RemoteControlService.js:564-590 | the rejection and permissions are as `CheckCommand` says |
| RemoteControlService.Service.FinishCommand | frontend/services/RemoteControlService.js:593-622 | the result and sessions are as `CompleteCommand` says |
| RemoteControlService.Service.StartRecordingEvents | frontend/services/RemoteControlService.js:694-698 | recording starts afresh |
| RemoteControlService.Service.StopRecordingEvents | frontend/services/RemoteControlService.js:704-708 | recording stops and returns what was recorded |
| RemoteControlService.Service.ReplayEvents | frontend/services/RemoteControlService.js:732-747 | the timers started are the intended schedule of the events given, or of the recording |
| RemoteControlService.Service.ReplayFire | frontend/services/RemoteControlService.js:750-770 | a replay timer does nothing unless the session is established; otherwise the permission check runs and, if it passes, a key event updates only the keyboard, a mouse event only the mouse and a touch event only the touch state, each recorded when recording is on; if it fails only the permission counters change |
| RemoteControlService.Service.SetSimulatedLatency | frontend/services/RemoteControlService.js:789-792 | the latency is the clamped value |
| RemoteControlService.Service.GetKeyboardState | frontend/services/RemoteControlService.js:852-857 | the held keys and the last key event |
| RemoteControlService.Service.GetMouseState | frontend/services/RemoteControlService.js:863-869 | the mouse state |
| RemoteControlService.Service.GetTouchState | frontend/services/RemoteControlService.js:875-880 | the touch state |
| RemoteControlService.Service.SimulateConnectionQualityChange | frontend/services/RemoteControlService.js:887-923 | the sessions and latency move as `QualityChange` says |
| RemoteControlService.Service.SimulateScreenSizeChange | frontend/services/RemoteControlService.js:931-954 | the sessions move as `Resize` says |
| RemoteControlService.Service.SimulateDeviceOrientationChange | frontend/services/RemoteControlService.js:961-996 | the sessions move as `Reorient` says |
| RemoteControlService.Service.Reset | frontend/services/RemoteControlService.js:1001-1022 | every session is closed, and the permissions, input and recording state cleared |
| ScreenShareService.MergeEffect | frontend/services/ScreenShareService.js:651-654 | merging replaces exactly the fields given, and merging nothing, or the same fields twice, is merging once (also lines 145, 684-687, 795-798) |
| ScreenShareService.StartEffect | frontend/services/ScreenShareService.js:141-193 | a new session is initialising without a timer, with the default encoding under the caller's overrides, on the desktop scene and the minimal pattern unless the caller chose others |
| ScreenShareService.InitializeEffect | frontend/services/ScreenShareService.js:178-190 | after initialisation a known session streams with a frame timer |
| ScreenShareService.PauseResume | frontend/services/ScreenShareService.js:200-241 | pausing works only on a streaming session and resuming only on a paused one, and otherwise nothing changes |
| ScreenShareService.PauseThenResume | frontend/services/ScreenShareService.js:200-241 | a pause stops the frame timer and keeps the session's place, and a resume then gives back the session as it was |
| ScreenShareService.StopEffect | frontend/services/ScreenShareService.js:248-274 | no session in the map is ever stopped or in error, so a stop is refused only for an unknown id, and a stopped session is removed |
| ScreenShareService.MockFrameShape | frontend/services/ScreenShareService.js:402-444 | a frame is numbered by the frames sent before it, is a keyframe every 30th number, has the scene's size, and its byte size is the nearest integer to bitrate·1024/frameRate·complexity·quality |
| ScreenShareService.DefaultFrameSize | frontend/services/ScreenShareService.js:402-430 | the default encoding makes minimal frames of 40960 bytes and video frames of 204800 |
| ScreenShareService.FrameNumbering | frontend/services/ScreenShareService.js:337-394 | sent frames are numbered 0, 1, 2, … and a dropped frame's number is reused by the next frame |
| ScreenShareService.UpdateStatsRates | frontend/services/ScreenShareService.js:488-500 | the rates are the nearest integers (half up) to the exact kilobits and frames per second since the start |
| ScreenShareService.DeliverEffect | frontend/services/ScreenShareService.js:364-390 | a delivery counts one frame and its bytes and records it exactly while recording, and a session that stopped streaming ignores it |
| ScreenShareService.RecordingEffect | frontend/services/ScreenShareService.js:535-600 | starting needs a streaming session and a second start keeps the frames; stopping returns null unless recording, and otherwise every frame since the start, in order |
| ScreenShareService.ReplayReordersAsWritten | frontend/services/ScreenShareService.js:617-640 | as written, frames received at 0, 100 and 150 ms are shown at 0, 100 and 50 ms, the third before the second |
| ScreenShareService.ReplayOffsetKeepsGaps | frontend/services/ScreenShareService.js:617-640 | with the intended delays, frames replay in recorded order, each the recorded gap over the speed after the one before |
| ScreenShareService.ReplaySchedule | frontend/services/ScreenShareService.js:608-641 | one timer per frame, each handing the frame to the callback at its intended offset |
| ScreenShareService.AdjustEffect | frontend/services/ScreenShareService.js:649-676 | after an adjustment the frame timer runs at the session's current frame rate, and a change of anything else keeps the timer |
| ScreenShareService.ResizeFrames | frontend/services/ScreenShareService.js:707-737 | after a resize, frames are made at the new size |
| ScreenShareService.DisplayModeEffect | frontend/services/ScreenShareService.js:745-772 | a display-mode change needs a streaming session; minimised pauses it without a timer and every other mode keeps it streaming with only its mode changed |
| ScreenShareService.Service.constructor | frontend/services/ScreenShareService.js:5-132 | a new service has no sessions, the default encoding and the default network conditions |
| ScreenShareService.Service.StartSession | frontend/services/ScreenShareService.js:141-193 | the session id is the time and the random suffix, and the sessions move as `Start` says |
| ScreenShareService.Service.CompleteInitialization | frontend/services/ScreenShareService.js:178-190 | the sessions move as `Initialize` says |
| ScreenShareService.Service.PauseSession | frontend/services/ScreenShareService.js:200-217 | the answer and sessions are as `Pause` says |
| ScreenShareService.Service.ResumeSession | frontend/services/ScreenShareService.js:224-241 | the answer and sessions are as `Resume` says |
| ScreenShareService.Service.StopSession | frontend/services/ScreenShareService.js:248-274 | the answer and sessions are as `Stop` says |
| ScreenShareService.Service.FrameIntervalFired | frontend/services/ScreenShareService.js:337-394 | an unknown session sends nothing; otherwise the frame tick makes and sends or drops the next frame |
| ScreenShareService.Service.FrameArrived | frontend/services/ScreenShareService.js:362-390 | an unknown session changes nothing; otherwise the frame is delivered |
| ScreenShareService.Service.GetSession | frontend/services/ScreenShareService.js:507-509 | the session under the id, or none |
| ScreenShareService.Service.GetAllActiveSessions | frontend/services/ScreenShareService.js:515-517 | the sessions in insertion order |
| ScreenShareService.Service.GetDeviceSessions | frontend/services/ScreenShareService.js:524-528 | the device's sessions |
| ScreenShareService.Service.StartRecording | frontend/services/ScreenShareService.js:535-559 | the answer and sessions are as `RecordingStarted` says |
| ScreenShareService.Service.StopRecording | frontend/services/ScreenShareService.js:566-600 | the recording and sessions are as `RecordingStopped` says |
| ScreenShareService.Service.ReplayRecording | frontend/services/ScreenShareService.js:608-641 | no timers for a missing recording, otherwise the intended schedule of its frames |
| ScreenShareService.Service.AdjustEncodingOptions | frontend/services/ScreenShareService.js:649-676 | the answer and sessions are as `Adjust` says |
| ScreenShareService.Service.SimulateNetworkConditions | frontend/services/ScreenShareService.js:682-698 | the network conditions take the fields given |
| ScreenShareService.Service.SimulateScreenSizeChange | frontend/services/ScreenShareService.js:707-737 | the answer and sessions are as `Resize` says |
| ScreenShareService.Service.SimulateDisplayModeChange | frontend/services/ScreenShareService.js:745-772 | the answer and sessions are as `DisplayMode` says |
| ScreenShareService.Service.GetAvailableScenes | frontend/services/ScreenShareService.js:778-780 | the five scenes |
| ScreenShareService.Service.GetAvailableChangePatterns | frontend/services/ScreenShareService.js:786-788 | the five change patterns |
| ScreenShareService.Service.SetDefaultEncodingOptions | frontend/services/ScreenShareService.js:794-800 | the defaults take the fields given |
| ScreenShareService.Service.Reset | frontend/services/ScreenShareService.js:859-870 | every session is stopped and none remains |
| DeviceDiscoveryService.Field | frontend/services/DeviceDiscoveryService.js:380-390 | a filter's `type` and `status` keys read the device's own fields |
| DeviceDiscoveryService.DeviceById | frontend/services/DeviceDiscoveryService.js:323-325 | a device is found exactly when one has the id, and the one found is stored and has it |
| DeviceDiscoveryService.IndexOfId | frontend/services/DeviceDiscoveryService.js:444 | the index is that of the first device with the id, and -1 exactly when none has it |
| DeviceDiscoveryService.QueriesSelect | frontend/services/DeviceDiscoveryService.js:332-350 | the type query keeps exactly the devices of that type, and the connected and disconnected lists exactly the devices with those statuses (also lines 376-394) |
| DeviceDiscoveryService.SearchFinds | frontend/services/DeviceDiscoveryService.js:357-369 | an empty query finds nothing; any other finds exactly the devices whose name, id, address, MAC address, maker or model contains it, ignoring case |
| DeviceDiscoveryService.SearchIgnoresCase | frontend/services/DeviceDiscoveryService.js:357-369 | the query's case changes nothing |
| DeviceDiscoveryService.AcceptsAll | frontend/services/DeviceDiscoveryService.js:376-394 | a device is kept exactly when every filter entry passes, whatever their order |
| DeviceDiscoveryService.PassesCases | frontend/services/DeviceDiscoveryService.js:386-390 | a string must equal the field, an array must hold it, and a number on any other key is ignored |
| DeviceDiscoveryService.BoundsCompare | frontend/services/DeviceDiscoveryService.js:380-385 | numeric bounds are plain comparisons with the connection's values, a device without a connection is never dropped by them and a `null` battery level counts as 0 |
| DeviceDiscoveryService.StringBoundKeepsNothing | frontend/services/DeviceDiscoveryService.js:380-386 | a bound given as a string falls through to the string test and keeps nothing |
| DeviceDiscoveryService.NewDeviceFields | frontend/services/DeviceDiscoveryService.js:401-425 | a device is built unless both id and type are missing; given fields are kept, the status defaults to connected, the type to "Unknown", the connection to full strength, and a missing name is the type followed by " Device" |
| DeviceDiscoveryService.AddThenRemove | frontend/services/DeviceDiscoveryService.js:401-459 | adding appends without looking for the id, so removing the id afterwards gives back the list only when the id was new |
| DeviceDiscoveryService.RemoveUpdateEffect | frontend/services/DeviceDiscoveryService.js:443-486 | removal and update fail exactly for an unknown id; removal drops one device and an update changes only the status and time of the first device with the id |
| DeviceDiscoveryService.Imported | frontend/services/DeviceDiscoveryService.js:580-607 | an import gives nothing exactly when the text was not an array, and otherwise one device per element |
| DeviceDiscoveryService.AddNewEffect | frontend/services/DeviceDiscoveryService.js:103-117 | a scan keeps the devices it started with, in front, adds only candidates and never one whose id or address is taken |
| DeviceDiscoveryService.ToggleAll | frontend/services/DeviceDiscoveryService.js:119-142 | the flips keep the number of devices |
| DeviceDiscoveryService.ToggleAllKeeps | frontend/services/DeviceDiscoveryService.js:119-142 | status flips change no id and no address |
| DeviceDiscoveryService.ToggleTwice | frontend/services/DeviceDiscoveryService.js:129-133 | flipping the same device twice gives back its status |
| DeviceDiscoveryService.ScanKeepsApart | frontend/services/DeviceDiscoveryService.js:98-167 | a scan never makes two devices share an id or an address |
| DeviceDiscoveryService.Discovery.constructor | frontend/services/DeviceDiscoveryService.js:5-11 | a new service has no devices, is not scanning and has no timer |
| DeviceDiscoveryService.Discovery.StartScan | frontend/services/DeviceDiscoveryService.js:58-75 | nothing while already scanning; otherwise scanning starts with one scan pending and a timer when continuous |
| DeviceDiscoveryService.Discovery.StopScan | frontend/services/DeviceDiscoveryService.js:80-92 | nothing while not scanning; otherwise the timer stops, a scan under way still completing |
| DeviceDiscoveryService.Discovery.IntervalFired | frontend/services/DeviceDiscoveryService.js:68-72 | a timer firing starts another scan |
| DeviceDiscoveryService.Discovery.CompleteScan | frontend/services/DeviceDiscoveryService.js:101-166 | the devices move as `Scanned` says, the scan time is stamped and one scan fewer is pending |
| DeviceDiscoveryService.Discovery.GetDevices | frontend/services/DeviceDiscoveryService.js:314-316 | the devices |
| DeviceDiscoveryService.Discovery.GetDeviceById | frontend/services/DeviceDiscoveryService.js:323-325 | the first device with the id |
| DeviceDiscoveryService.Discovery.GetDevicesByType | frontend/services/DeviceDiscoveryService.js:332-334 | the devices of the type |
| DeviceDiscoveryService.Discovery.GetConnectedDevices | frontend/services/DeviceDiscoveryService.js:340-342 | the connected devices |
| DeviceDiscoveryService.Discovery.GetDisconnectedDevices | frontend/services/DeviceDiscoveryService.js:348-350 | the disconnected devices |
| DeviceDiscoveryService.Discovery.SearchDevices | frontend/services/DeviceDiscoveryService.js:357-369 | the devices the query finds |
| DeviceDiscoveryService.Discovery.FilterDevices | frontend/services/DeviceDiscoveryService.js:376-394 | the devices every filter entry accepts |
| DeviceDiscoveryService.Discovery.AddDevice | frontend/services/DeviceDiscoveryService.js:401-436 | a built device is appended, and a failure leaves the list alone |
| DeviceDiscoveryService.Discovery.RemoveDevice | frontend/services/DeviceDiscoveryService.js:443-459 | the answer is whether the id was known, and then one device is removed |
| DeviceDiscoveryService.Discovery.UpdateDeviceStatus | frontend/services/DeviceDiscoveryService.js:467-486 | the answer is whether the id was known, and then the device's status is updated |
| DeviceDiscoveryService.Discovery.ClearDevices | frontend/services/DeviceDiscoveryService.js:491-500 | no devices remain and the count cleared is returned |
| DeviceDiscoveryService.Discovery.GetScanStatus | frontend/services/DeviceDiscoveryService.js:506-513 | whether scanning, the last scan time, the device count and whether continuous |
| DeviceDiscoveryService.Discovery.ImportDevices | frontend/services/DeviceDiscoveryService.js:580-607 | an unparseable text imports nothing and keeps the list; otherwise every element is imported and counted |
| ClipboardSync.AddToHistoryEffect | frontend/utils/clipboard-sync.js:236-249 | the history never holds more than 50 items; a new item comes first, the others follow in order and the oldest is dropped once full |
| ClipboardSync.ShouldExcludeIff | frontend/utils/clipboard-sync.js:220-231 | no patterns exclude nothing; otherwise content is excluded exactly when it contains a string pattern or a regular expression matches it |
| ClipboardSync.EnableTwiceLeaksTimer | frontend/utils/clipboard-sync.js:31-74 | enable then disable stops the poll, but only the last interval's handle is kept, so enabling twice leaves a poll timer running however often it is disabled |
| ClipboardSync.SyncEffect | frontend/utils/clipboard-sync.js:120-153 | a disabled manager, oversized content or excluded content syncs nothing; otherwise the content is remembered, added to the history and sent to every callback |
| ClipboardSync.PollThenDebounce | frontend/utils/clipboard-sync.js:79-115 | the content read is remembered at once, and a change that is not excluded syncs once the debounce delay passes with no other change |
| ClipboardSync.RemoteIff | frontend/utils/clipboard-sync.js:158-188 | remote content is taken exactly when enabled, the data has content, a numeric timestamp and a listed type and the content is new; then it is the last content and newest history item, and nothing is sent back (also lines 210-215) |
| ClipboardSync.RemoteTwice | frontend/utils/clipboard-sync.js:158-188 | receiving the same content twice changes nothing the second time |
| ClipboardSync.DefaultTypes | frontend/utils/clipboard-sync.js:210-215 | by default text and images are taken, and a timestamp given as a string is refused |
| ClipboardSync.RestoreBounds | frontend/utils/clipboard-sync.js:285-292 | an index outside the history changes nothing; one inside makes that item the last content |
| ClipboardSync.RestoreThenPoll | frontend/utils/clipboard-sync.js:285-292 | a restored item is the last content, so a poll that reads it back changes nothing |
| ClipboardSync.Preview | frontend/utils/clipboard-sync.js:335-343 | short content is shown whole; longer content as its first 50 characters followed by an ellipsis |
| ClipboardSync.HistoryStaysBounded | frontend/utils/clipboard-sync.js:236-249 | every operation keeps the history within 50 items |
| ClipboardSync.Manager.constructor | frontend/utils/clipboard-sync.js:7-26 | a new manager is disabled with the default settings and empty history |
| ClipboardSync.Manager.Enable_ | frontend/utils/clipboard-sync.js:31-37 | the manager moves as `Enable` says |
| ClipboardSync.Manager.Disable_ | frontend/utils/clipboard-sync.js:42-48 | the manager moves as `Disable` says |
| ClipboardSync.Manager.PollFired | frontend/utils/clipboard-sync.js:79-100 | the manager moves as `Poll` says |
| ClipboardSync.Manager.DebounceTimerFired | frontend/utils/clipboard-sync.js:105-115 | the manager moves as `DebounceFired` says |
| ClipboardSync.Manager.SyncClipboardContent | frontend/utils/clipboard-sync.js:120-153 | the manager moves as `Sync` says |
| ClipboardSync.Manager.HandleRemoteClipboardContent | frontend/utils/clipboard-sync.js:158-188 | the manager moves as `Remote` says |
| ClipboardSync.Manager.RestoreHistoryItem | frontend/utils/clipboard-sync.js:285-292 | the manager moves as `Restore` says |
| ClipboardSync.Manager.GetHistory | frontend/utils/clipboard-sync.js:270-272 | the history |
| ClipboardSync.Manager.ClearHistory | frontend/utils/clipboard-sync.js:277-280 | the history is emptied |
| ClipboardSync.Manager.AddSyncCallback | frontend/utils/clipboard-sync.js:297-299 | the callback is appended |
| ClipboardSync.Manager.RemoveSyncCallback | frontend/utils/clipboard-sync.js:304-309 | the callback's first registration is removed |
| ClipboardSync.Manager.SetSettings | frontend/utils/clipboard-sync.js:327-330 | the settings take the fields given |
| ClipboardSync.Manager.GetStatus | frontend/utils/clipboard-sync.js:335-343 | whether enabled, the last sync time, the preview, the history size and the settings |
| ClipboardSync.Manager.Destroy | frontend/utils/clipboard-sync.js:348-353 | the manager is disabled with no callbacks and no history |
| NotificationSync.Or | frontend/utils/notification-sync.js:67-78 | the logical-or default of `v` and `d` gives `v` when it is truthy and `d` otherwise |
| NotificationSync.ValidIff | frontend/utils/notification-sync.js:101-105 | a notification is valid exactly when it is an object with a truthy title or text |
| NotificationSync.FilterOrder | frontend/utils/notification-sync.js:110-134 | a blacklisted package is dropped whatever else; otherwise a package missing from a non-empty app list is dropped; otherwise, with keywords, a notification is kept exactly when a keyword occurs in its lower-cased title and text |
| NotificationSync.MissingPackageIsUnknown | frontend/utils/notification-sync.js:111-117 | a notification without a package reads as package "unknown" |
| NotificationSync.MissingTextMatchesUndefined | frontend/utils/notification-sync.js:126-131 | a missing text reads as the word "undefined" in the keyword search |
| NotificationSync.BuildDefaults | frontend/utils/notification-sync.js:67-78 | every missing or falsy field takes its default, and a truthy one is kept |
| NotificationSync.StoreBounded | frontend/utils/notification-sync.js:81-84 | storing keeps the map within its limit; with room a new id goes last and a known id keeps its place (also lines 319-325) |
| NotificationSync.StoreDropsOldest | frontend/utils/notification-sync.js:81-84 | with the map full, a new id goes last and the oldest entry goes (also lines 319-325) |
| NotificationSync.StoreKeeps | frontend/utils/notification-sync.js:81-84 | a notification just stored is kept when there was room or it replaced one with its id |
| NotificationSync.Insert | frontend/utils/notification-sync.js:330-333 | insertion adds the element and keeps all others |
| NotificationSync.SortDesc | frontend/utils/notification-sync.js:330-333 | the sort is a permutation |
| NotificationSync.SortDescending | frontend/utils/notification-sync.js:330-333 | the sort puts the notifications newest first |
| NotificationSync.GetNotificationsSorted | frontend/utils/notification-sync.js:330-333 | the list is every stored notification, newest first |
| NotificationSync.Synchronizer.constructor | frontend/utils/notification-sync.js:7-26 | a new synchroniser is disabled with no notifications, no callbacks and no filters |
| NotificationSync.Synchronizer.Enable | frontend/utils/notification-sync.js:31-34 | the synchroniser is enabled |
| NotificationSync.Synchronizer.Disable | frontend/utils/notification-sync.js:39-42 | the synchroniser is disabled |
| NotificationSync.Synchronizer.HandleAndroidNotification | frontend/utils/notification-sync.js:47-96 | a notification that is not accepted changes nothing; an accepted one is built and stored, and outside a browser the callbacks are skipped |
| NotificationSync.Synchronizer.GetNotifications | frontend/utils/notification-sync.js:330-333 | the stored notifications sorted newest first |
| NotificationSync.Synchronizer.GetUnreadCount | frontend/utils/notification-sync.js:338-340 | the number stored |
| NotificationSync.Synchronizer.ClearAllNotifications | frontend/utils/notification-sync.js:345-348 | no notification remains |
| NotificationSync.Synchronizer.ClearNotification | frontend/utils/notification-sync.js:353-356 | the one notification is dropped |
| NotificationSync.Synchronizer.AddNotificationCallback | frontend/utils/notification-sync.js:361-363 | the callback is appended |
| NotificationSync.Synchronizer.RemoveNotificationCallback | frontend/utils/notification-sync.js:368-373 | the callback's first registration is removed |
| NotificationSync.Synchronizer.SetFilters | frontend/utils/notification-sync.js:391-394 | the filters take the fields given |
| NotificationSync.Synchronizer.SetDisplaySettings | frontend/utils/notification-sync.js:399-402 | the display settings take the fields given |
| NotificationSync.Synchronizer.GetStatus | frontend/utils/notification-sync.js:407-414 | whether enabled, the count, the filters and the display settings |
| RemoteController.RelativeClamped | remote-controller.js:499-506 | the position always lies on the screen, and a pointer inside the view is scaled exactly |
| RemoteController.ToDeviceAxis | remote-controller.js:511-519 | the device coordinate is the nearest integer (half up) to the exact scaled one |
| RemoteController.ToDeviceBounds | remote-controller.js:511-519 | a point on the screen lands on the device's screen, its corners on the device's corners |
| RemoteController.MouseButton | remote-controller.js:524-531 | buttons 0, 1 and 2 are left, middle and right, and anything else unknown |
| RemoteController.SwipeIff | remote-controller.js:586-595 | a swipe is horizontal exactly when the horizontal move is the larger, so a 45-degree diagonal counts as vertical |
| RemoteController.SystemKeyCases | remote-controller.js:553-560 | the system keys are the key names of at most three characters starting with F, Alt with another key and Ctrl with r, f, u or i in either case, and nothing else |
| RemoteController.Send | remote-controller.js:432-445 | an event goes to the socket exactly when it is open and to the desktop bridge exactly when there is one, each with the device id |
| RemoteController.SendAll | remote-controller.js:432-445 | one message per event, in order |
| RemoteController.GestureCases | remote-controller.js:450-494 | a swipe is sent exactly for a move of more than 50 pixels in under 500 ms; a double tap exactly for a tap under 10 pixels and 200 ms less than 300 ms after the last tap, which it then forgets; the two never come together |
| RemoteController.NoTripleTap | remote-controller.js:450-494 | after a double tap, a third quick tap starts a new pair rather than making a second double tap |
| RemoteController.RecentKeyFound | remote-controller.js:572-581 | the touch point found was started within 100 ms |
| RemoteController.TwoFingersShareId | remote-controller.js:572-581 | a touch within 100 ms of a point's start is taken for that point, so two fingers put down together both read as the first (also lines 294-313) |
| RemoteController.TouchesNext | remote-controller.js:277-288 | each touch continues from the state the earlier touches left and only adds events after theirs |
| RemoteController.MoveKeepsPending | remote-controller.js:294-313 | only the first move of a throttle window is kept |
| RemoteController.StartEvents | remote-controller.js:270-289 | a touch start sends one down event per touch, numbered by its place, and keeps every touch point |
| RemoteController.StepExtends | remote-controller.js:270-356 | every touch step only adds events after those sent before it |
| RemoteController.EndForgets | remote-controller.js:318-356 | an ended or cancelled touch no longer counts as a touch point |
| RemoteController.Controller.constructor | remote-controller.js:7-36 | a new controller is disabled, not controlling, with no device, no connection and no touches |
| RemoteController.Controller.Enable | remote-controller.js:76-86 | control starts for the device, taking its screen size when it gives one |
| RemoteController.Controller.SetDeviceScreen | remote-controller.js:104-109 | the device's screen size is taken when it gives one |
| RemoteController.Controller.Disable | remote-controller.js:91-99 | control ends and every touch point is forgotten, nothing sent |
| RemoteController.Controller.SetDeviceInfo | remote-controller.js:693-700 | the device is stored and its screen size taken when given |
| RemoteController.Controller.SetScreenSize | remote-controller.js:705-708 | the screen size is stored (also lines 114-117) |
| RemoteController.Controller.SetConnection | remote-controller.js:672-674 | the connection is stored |
| RemoteController.Controller.Emit | remote-controller.js:432-445 | the event's messages are appended |
| RemoteController.Controller.SendMouseEvent | remote-controller.js:361-376 | nothing is sent without a connection, otherwise the mouse event at the device position |
| RemoteController.Controller.HandleMouseDown | remote-controller.js:122-138 | nothing unless controlling; then the button is pressed at the position and a down event sent |
| RemoteController.Controller.HandleMouseUp | remote-controller.js:143-156 | nothing unless controlling; then the pressed button, or else the event's, is released and an up event sent |
| RemoteController.Controller.HandleMouseMove | remote-controller.js:161-185 | nothing unless controlling; a move with the button down marks a drag beyond 2 pixels, and one throttled move is scheduled |
| RemoteController.Controller.HandleClick | remote-controller.js:190-200 | a click is sent unless the mouse was dragged |
| RemoteController.Controller.HandleContextMenu | remote-controller.js:205-212 | a right click is sent when controlling |
| RemoteController.Controller.HandleWheel | remote-controller.js:217-226 | the wheel is sent when controlling, whether or not there is a connection (also lines 381-392) |
| RemoteController.Controller.HandleKeyDown | remote-controller.js:231-241 | a key press is forwarded unless it is a system key |
| RemoteController.Controller.HandleKeyUp | remote-controller.js:246-253 | every release is forwarded, system keys included |
| RemoteController.Controller.HandleKeyPress | remote-controller.js:258-265 | a key press event is forwarded when controlling |
| RemoteController.Controller.Throttle | remote-controller.js:660-667 | a call is ignored while another is pending |
| RemoteController.Controller.ThrottleFired | remote-controller.js:660-667 | the throttle timer runs the pending call, reading the button when it runs (also lines 174-183, 306-309) |
| RemoteController.Controller.GetTouchId | remote-controller.js:572-581 | the scan of the touch points finds the id `TouchIdFor` gives |
| RemoteController.Controller.StartOne | remote-controller.js:277-288 | one touch of a start sends its down event and records the touch point |
| RemoteController.Controller.MoveOne | remote-controller.js:299-312 | one touch of a move sends nothing itself |
| RemoteController.Controller.EndOne | remote-controller.js:323-338 | one touch of an end sends the gesture it completes and then up |
| RemoteController.Controller.CancelOne | remote-controller.js:349-355 | one touch of a cancel sends one event |
| RemoteController.Controller.ProcessTouches | remote-controller.js:270-356 | the loop over the changed touches moves the controller as `Touches` says |
| RemoteController.Controller.HandleTouchStart | remote-controller.js:270-289 | nothing unless controlling; otherwise the touches are processed as a start |
| RemoteController.Controller.HandleTouchMove | remote-controller.js:294-313 | nothing unless controlling; otherwise the touches are processed as a move |
| RemoteController.Controller.HandleTouchEnd | remote-controller.js:318-339 | nothing unless controlling; otherwise the touches are processed as an end, gestures measured from the last start |
| RemoteController.Controller.HandleTouchCancel | remote-controller.js:344-356 | nothing unless controlling; otherwise the touches are processed as a cancel |
| RemoteController.Controller.GetStatus | remote-controller.js:679-688 | whether enabled and controlling, the device, both sizes and the number of touch points |
| RemoteController.Controller.Destroy | remote-controller.js:713-726 | the controller is disabled with no device and no touches |
| OneClickTest.Next | backend/scripts/one-click-test.js:54-85 | the token after the position, `undefined` exactly past the end |
| OneClickTest.ParseStep | backend/scripts/one-click-test.js:50-93 | one pass of the loop moves past the argument and, for an option that takes one, its value; an unknown argument only adds a warning |
| OneClickTest.ParseCommandLineArgs | backend/scripts/one-click-test.js:21-96 | the argument loop computes `Parse` of the arguments |
| OneClickTest.DefaultsAgree | backend/scripts/one-click-test.js:22-46 | the default WebSocket URL is the one built from the default host and port |
| OneClickTest.ParseUrlAgrees | backend/scripts/one-click-test.js:54-61 | whatever the arguments, the URL returned is built from the host and port returned |
| OneClickTest.HostStep | backend/scripts/one-click-test.js:54-56 | `--host` takes the next token as host and rebuilds the URL |
| OneClickTest.PortStep | backend/scripts/one-click-test.js:58-60 | `--port` takes `parseInt` of the next token as port and rebuilds the URL |
| OneClickTest.HostThenPort | backend/scripts/one-click-test.js:54-61 | `--host h --port p` sets the URL to `ws://h:` followed by `parseInt(p)` |
| OneClickTest.PortThenHost | backend/scripts/one-click-test.js:54-61 | `--port p --host h` gives the same options as `--host h --port p` |
| OneClickTest.FlagOnlyTrue | backend/scripts/one-click-test.js:65-70 | `--mock` and `--coverage` are on only when the next token is exactly `true`, and consume it |
| OneClickTest.MockOnlyTrue | backend/scripts/one-click-test.js:65-67 | `--mock v` leaves the mock layer on exactly when `v` is `true`, and `--mock` alone turns it off |
| OneClickTest.ReportFormatsSplit | backend/scripts/one-click-test.js:83-85 | `--report-formats s` sets the formats to the comma-separated pieces of `s`, which joined give `s` back; with nothing after it parsing throws |
| OneClickTest.UnknownOnlyWarns | backend/scripts/one-click-test.js:91-93 | an unknown argument is only warned about, consuming no value and changing no option |
| OneClickTest.AllUnknown | backend/scripts/one-click-test.js:91-93 | arguments that are all unknown leave the defaults and one warning each, in order |
| OneClickTest.UnknownKeepsDefaults | backend/scripts/one-click-test.js:91-93 | a command line of unknown arguments gives the defaults |
| OneClickTest.Key | backend/scripts/one-click-test.js:135 | the key is the upper-cased method, a colon and the path (also lines 153, 161) |
| OneClickTest.KeyIgnoresCase | backend/scripts/one-click-test.js:135 | the method's case never matters (also lines 153, 161) |
| OneClickTest.KeyInjective | backend/scripts/one-click-test.js:135 | for methods without a colon the key determines the path and the upper-cased method |
| OneClickTest.MockService.constructor | backend/scripts/one-click-test.js:127-129 | a new mock service holds no mocks |
| OneClickTest.MockService.RegisterMock | backend/scripts/one-click-test.js:134-140 | the mock replaces any under the same key |
| OneClickTest.MockService.ClearAllMocks | backend/scripts/one-click-test.js:145-147 | no mocks remain |
| OneClickTest.MockService.GetMock | backend/scripts/one-click-test.js:152-155 | the mock under the key, or `undefined` |
| OneClickTest.MockService.HasMock | backend/scripts/one-click-test.js:160-163 | whether a mock is under the key |
| OneClickTest.LookupAfterRegister | backend/scripts/one-click-test.js:134-163 | after registering, every spelling of the method finds the new mock, and a colon-free method on another path or method finds what it found before |
| OneClickTest.CountStatus | backend/scripts/one-click-test.js:216-253 | a count never exceeds the number of records |
| OneClickTest.CountsCover | backend/scripts/one-click-test.js:216-253 | every record is a pass or a failure |
| OneClickTest.TestResults.constructor | backend/scripts/one-click-test.js:171-192 | the results start with no tests and zero counts |
| OneClickTest.TestResults.RunTest | backend/scripts/one-click-test.js:216-253 | a name already recorded changes nothing; otherwise one record is added, counted as passed exactly when the test did not throw |
| OneClickTest.SuccessRate | backend/scripts/one-click-test.js:1122 | no rate without tests, otherwise the exact percentage rounded half up, from 0 to 100, 100 when every test passed |
| OneClickTest.Verdict | backend/scripts/one-click-test.js:1123 | the status is passed exactly when nothing failed, and then only the exit code is 0 (also lines 1133-1135) |
| OneClickTest.CoverageClass | backend/scripts/one-click-test.js:914-916 | below 60% is low, below 80% medium, and otherwise high |
| OneClickTest.CoverageClassMonotone | backend/scripts/one-click-test.js:914-916 | a higher rate never gets a lower class |
| JsValues.TrimStart | backend/src/middleware/inputValidator.js:13 | the result is a suffix of the input with no leading JavaScript white space, and every character it drops is white space (also used by `trim()` with TrimEnd) |
| JsValues.TrimEnd | backend/src/middleware/inputValidator.js:13 | the result is a prefix of the input with no trailing JavaScript white space, and every character it drops is white space |
| JsValues.ParseIntTrailing | backend/src/middleware/inputValidator.js:41 | `parseInt` reads leading decimal digits and ignores whatever follows the first non-digit |
| JsValues.ParseIntHex | backend/src/middleware/inputValidator.js:41 | after a `0x` prefix `parseInt` reads hexadecimal digits |
| JsValues.ParseIntOfNum | backend/src/middleware/inputValidator.js:41 | `parseInt` of a number's own rendering gives that integer back |
| JsValues.ParseFloatOfNum | backend/src/middleware/inputValidator.js:72 | `parseFloat` of a number's own rendering gives that integer back as a finite value |
| JsValues.GreaterNaN | backend/src/utils/config-validator.js:186 | a string that does not parse compares false with `>` in both directions |
| JsValues.GreaterNums | backend/src/utils/config-validator.js:186 | on two numbers `>` is the integer order |
| JsValues.TypeOf | backend/src/utils/config-validator.js:21 | `typeof` answers `string`, `boolean`, `number` or `object` exactly for the matching kinds of value (null, arrays and objects are all `object`) |
| JsValues.Get | backend/src/utils/config-validator.js:70 | reading a field of null or undefined is a TypeError; on an object it is the own field or undefined |
| OrderedMaps.Values | frontend/services/RemoteControlService.js:244 | `Array.from(map.values())` lists one value per key, in the keys' insertion order |
| OrderedMaps.ValuesMember | frontend/services/RemoteControlService.js:243-245 | a value is listed exactly when some key maps to it |
| OrderedMaps.PutListed | frontend/services/RemoteControlService.js:137 | `Map.set` keeps the insertion order: a new key goes last and an existing key keeps its place |
| OrderedMaps.DropListed | frontend/services/RemoteControlService.js:223 | `Map.delete` keeps the other keys in their order |
| OrderedMaps.DropFirst | frontend/services/RemoteControlService.js:1001-1005 | deleting the first key leaves the remaining keys in order |

## Left out

- Storage, sockets, timers, threads and coroutines, hashing, JSON libraries, the console and the operating system are not modelled. Their results are parameters of the operations that use them, and what is written to them is recorded as a value.
- Floating-point arithmetic is modelled as exact integers or reals. Where the source rounds a double with `Math.round`, the model rounds the exact value half up; the double's last-bit error can land a half-way case just below the half, so such a result can be one less in the source. The lines below that start with ChunkReceiver.ChunkProgress, RemoteController.ToDeviceAxis, ScreenShareService.UpdateStatsRates, ScreenShareService.MockFrameShape and OneClickTest.SuccessRate name these members.
- LogService.LogService.constructor: a stored configuration (`debug_logs_config`, LogService.js:89-93) is not modelled: the service starts from the default configuration, so the level is DEBUG and at most 1000 logs are restored; the outer `catch` that reports `Failed to load stored logs or config` only fires when that configuration fails to parse, and is left out with it. The whole of `initialize` reads one clock value, and the auto-flush timer, the `online`/`offline` listeners and the memory-usage sampling are not modelled.
- LogService: the search filter and `setLevel` use ASCII-only case mapping for `toLowerCase`/`toUpperCase`; other letters keep their case in the model.
- LogService: `filters.limit` and `filters.offset` are natural numbers; a negative limit or offset, which `slice` (LogService.js:578-581) counts from the end of the list, is not modelled.
- LogService: levels, timestamps and filter bounds are integers; a fractional or non-numeric level in `filters.level` or `setLevel` is not modelled beyond the string, number and other cases.
- JsValues.StrLess: compares characters as Unicode code points, while JavaScript compares UTF-16 code units; the two orders differ only when a character above U+FFFF meets one in U+E000..U+FFFF.
- MockFramework: payloads and bodies are kept as bytes; the UTF-8 decoding `String(data, UTF_8)` (with its replacement of malformed sequences) and `toString()`/`toByteArray` of the reply are not modelled, so messages compare byte for byte rather than as decoded text.
- MockFramework: a rule's `response.callback` is not modelled; the reply is always the rule's own response body, and its `delay` sleep is left out.
- MockFramework.WebSocketReplyReadable: states the reply's round trip only for bodies with fewer than 2^31 - 10 bytes, where the as-written parse cannot wrap around.
- TcpStrategy: `connect()`'s socket creation, the `error` handler and `reconnect()` (lines 348-358) are timer- and socket-driven and are not modelled; only the flags their callbacks set are.
- TcpStrategy: JSON encoding and decoding of messages is left out; a message is a record of its type, request id and fields, and a line that fails to parse is not modelled.
- TcpStrategy.TcpStrategy.SendRequest: the request data spread into the message (`...data`, line 262) is not modelled; the message carries only the type and request id, so a `type` or `requestId` field in the data, which in the source overrides them, has no effect in the model.
- ConnectionPool: `Date.now()` is an input and timers are the set of ids that have one; the delay itself is not modelled.
- ConnectionPool: utilization is an exact real, not a double.
- ConnectionPool: `destroy()` also removes all listeners, which is not modelled (listeners are not part of the model).
- ConnectionManager: `getActiveConnections`, `getAllConnections` and `getPoolStats` (lines 382-409) forward to the pool and are the pool's own members in this model.
- ConnectionManager: the UUID, the clock and the timers are inputs; the timeout race of a health check is an explicit flag; event listeners outside the manager are not modelled.
- ConnectionManager: a health check runs to completion in one step, so a close or removal while its check function is awaited is not modelled.
- ConnectionManager.Manager.RunScheduledCheck: sets the next check only for a connection still pooled, where the source sets it regardless (see Findings); RunScheduledCheckAsWritten models the source's code.
- ConnectionManager: the interleaving of asynchronous callers is not modelled; each operation runs to completion.
- HealthChecker: the check function's result is an input (an answer, an error or the timeout), and the timers are the set of ids that have one.
- HealthChecker: the `lastCheckTime` map, which is never written, is not a field.
- TransferSessions: loading and saving sessions on disk, the cleanup timer and the file system are not modelled; the manager starts empty and the clock is an input.
- TransferSessions: percentages are exact reals, not doubles.
- ChunkReceiver: chunk data stays as opaque text (base64 decoding and the file write are not modelled); the clock is an input; messages are already parsed records.
- ChunkReceiver.ChunkProgress: rounds the exact share 100·received/total half up, while fileTransferManager.js:112 rounds the double `received / total * 100`; at a half-way case the two can differ by one: 23 of 40 chunks gives 58 here and 57 in JavaScript (0.575 * 100 is 57.49999999999999).
- ResumableTransfer: file reads and writes, the socket and the coroutine scheduler are not modelled; what each read returns, whether a write fails and whether the file exists are inputs, and the transfer id and clock are parameters.
- ResumableTransfer: the JSON serialisation of states in the preferences is not modelled; the preferences are a map of states.
- ResumableTransfer: the interleaving of concurrent jobs is not modelled; each step runs to completion.
- ResumableTransfer.ResumableFileTransfer.GetTransferHistory: `limit` is a `nat`; a negative `limit`, for which `take` throws, is not modelled.
- ResumableTransfer: a stored `errorMessage` of "" reads back as absent (`optString` then `takeIf`, lines 566-611); the model stores states as values and keeps an empty message as given.
- ResumableTransfer: the `catch` in the job runner (line 291), which fails the transfer with the exception's message or a fixed fallback, is not modelled; no modelled step throws.
- TransferService: `simulateNetworkError` (lines 581-630) draws random numbers and uses timers and floating-point speeds, and is not modelled.
- TransferService: the `metadata` field that new upload and download tasks carry (`options.metadata || {}`, FileTransferService.js:250 and :307) is never read by the service and is not modelled.
- TransferService: `formatFileSize` (lines 638-646) uses a floating-point logarithm and is not modelled.
- TransferService: event listeners (`on`, `off`, `emit`, lines 653-698) are not modelled.
- TransferService: the copies returned by `getUploadQueue`, `getDownloadQueue`, `getTransferHistory` and `getMockFiles` are the fields themselves.
- TransferService: the current speed and remaining time (lines 151-157) are floating point and are not modelled; the random failure draw, the generated ids and the clock are inputs.
- TransferService.FileTransferService.ProgressPass: the task objects shared by the array `forEach` walks and the live queue are modelled as one sequence of values plus the set of retired ids, the live queue being rebuilt from them after each step.
- Cache: `maxSize` and `defaultTTL` options that are negative or not numbers are not modelled (an option is a natural number or absent).
- Cache: the hit rate is an exact real, without `toFixed` formatting.
- Cache: the cleanup timer is a flag, and the clock an input; logging is not modelled.
- Cache.CacheManager.CleanupExpired: walks the access order rather than the map's own iteration order; both hold the same keys, so the same entries are removed.
- MessageQueue: the warning logged for a delayed message (lines 142-148) is not modelled.
- MessageQueue: `Promise.allSettled` concurrency and messages enqueued while a batch is awaited are not modelled; a batch runs to completion.
- MessageQueue: the process interval is a number only; the loop's timer is an explicit step. The `catch` of the loop is not modelled since a batch never rejects.
- MessageQueue: options that are not numbers are not modelled; how a handler call ends (it returns, throws a value with a `message`, or throws `null` or `undefined`) is an input. A message that is itself `null` or `undefined` is not modelled.
- RemoteControl: the event emitter's listeners, the batch timer's delay and the clock are not modelled; emitted events are recorded in order and the clock is an input.
- ScreenMirror: the event emitter is a list of emitted events; bandwidth is an exact real.
- MetricsCollector: `getCPUUsage`, `getMemoryUsage` and `getMemoryPercent` read the operating system; their readings are parameters. The CPU usage history is not modelled.
- MetricsCollector: `removeAllListeners` in `destroy` is not modelled; numbers are exact reals, not doubles.
- SmartDiscovery: logging is not modelled; the clock and `Math.random()` are inputs.
- SmartDiscovery: `getAllCachedDevices` lists the entries in some order of the keys, not necessarily the map's insertion order.
- SmartDiscovery: intervals are integers rounded half up; fractional options are not modelled.
- ServiceManager: the delay between restart attempts (`setTimeout`) and logging are not modelled; the check and restart outcomes and the clock are inputs.
- ServiceManager.FormatUptime: has no contract of its own; what the formatted text shows is stated by UptimeLeadingUnit.
- DIContainer: the `dependencies` argument is stored by the source and never read, so it is not modelled; a factory's instance is the number of its run, which makes distinct runs distinguishable.
- ClientManager: sockets are not modelled; whether a socket is open and whether a send is accepted are inputs, and the messages written are recorded in order.
- ClientManager: uuid generation is an input id; the retry `setTimeout` is a later call to process the queue; console logging is not modelled.
- ClientManager: `Object.assign` of values that are not strings is not modelled (a client's fields are a map of strings). `SEND_TIMEOUT` is declared but never used.
- ConfigValidator: `printConfigSummary` (lines 269-279) only writes to the console and is not modelled, nor is the console message of line 262.
- ConfigValidator: `Error` and `TypeError` are not told apart; a thrown error is its message.
- ConfigValidator: `Map` keys compare by structural equality of values rather than by object identity.
- ConfigValidator: `parseInt` of Infinity, NaN, fractions or huge numbers is not modelled; a JavaScript number is an integer here.
- InputValidator: `Object.entries` order of integer-like keys is not modelled; the schema is a sequence taken in the order given.
- InputValidator: options of unexpected types (such as a `minLength` of "3") and bounds that are not integers are not modelled.
- InputValidator: array lengths are counted in characters of the model's strings rather than UTF-16 units; a regular expression option is a predicate.
- InputValidator: inherited properties of the merged data and the `res`/`next` objects are not modelled; the answer is a value and the timestamp an input. `parseFloat` is exact.
- AppConfig: `lowercase()`, `isBlank()` and the digit classes are their ASCII forms.
- AppConfig: org.json's conversions of text to numbers in `getInt`/`getLong`, and fractional numbers, are not modelled; such a value fails to convert. JSON text is neither parsed nor printed (`toString(2)`).
- AppConfig: the export time is a parameter; `exportToFile`/`importFromFile`, the coroutine scope, the HTTP request and the log calls are not modelled, the response's status and body being parameters.
- AppConfig: listeners are identities that receive notices; the exceptions they might throw are not modelled. `getInstance` and the Android context are not modelled; `configVersion` is never written, so it is the constant 1.
- AppConfig: preference values of the wrong type (a `ClassCastException` in the getter) are excluded by the well-typedness invariant.
- AppConfig.Config.ResetToDefaults: follows the intended reset, which also removes the stored flags; the reset as written is `AppConfig.Reset`.
- RemoteConfigManager: the URL, the request headers and timeouts are not modelled; the response (status and decoded body) is a parameter and a body that does not parse is none.
- RemoteConfigManager: the refresh coroutine's loop (wait, then fetch) is not modelled; the running job is state holding its interval.
- RemoteConfigManager: exception messages and log calls are not modelled; a nested object read with `optString` reads as `{}` rather than its JSON text, and `optInt` on numeric text gives the fallback.
- RemoteConfigManager.ParseFlags: lists the flags in the order of each key's last occurrence; `keys()` of an `org.json` object follows a hash order, which the model does not fix (the applied result does not depend on it, since the names are distinct).
- FrontendConfig: inherited properties are not modelled (`in` and reads see own properties only), nor the aliasing of nested objects between `getConfig`'s shallow copy and the configuration.
- FrontendConfig: writes to array properties that are not indices are dropped; `set(null)` and `set(array)` are not modelled.
- FrontendConfig: local storage quota errors and console logging are not modelled; exported and imported JSON is a document, an unparseable text being none, and the two-space layout is left out.
- FrontendConfig: the order of `Object.keys` is a parameter; `__proto__` keys are not modelled; numbers are integers; listeners are identities and their exceptions, which are caught, are not modelled.
- FrontendConfig.Loaded: follows the intended merge; the load as written differs exactly as `FrontendConfig.DeepMerge` does from `FrontendConfig.Merge`.
- FrontendConfig.ConfigManager.SetAll: merges with the intended merge rather than the `deepMerge` as written.
- FrontendConfig.ConfigManager.ImportConfig: merges with the intended merge rather than the `deepMerge` as written.
- DevicePairing: AES/CBC, the random IV, Base64 and SHA-256 are not modelled; the cipher and the digest are parameters, as are the shared secret and the request's UUID.
- DevicePairing: the JSON persistence of the device list is not modelled (the list is held in memory, so a parse failure that would read as an empty list does not arise); non-ASCII digits accepted by `toLong` and the log calls are left out.
- ConnectionQuality: the loss rate is an exact real rather than a `Float`; with at most 20 entries the threshold comparisons come out the same.
- ConnectionQuality.Mean: the `Double` average is an exact rational truncated toward zero, so `Double` rounding is not modelled.
- ConnectionQuality: clock differences do not wrap around as `Long` would; the coroutine's delay loop is one `Tick` per pass; log calls are left out.
- ConnectionQuality: the JSON ping message is a value; listeners are identities (their exceptions, which are caught, are not modelled), and a notice carries the metrics of the history at that time. `synchronized` blocks are not modelled.
- DeviceHistory: the JSON text of entries is not modelled, only what reading it back gives; the defaults for missing fields apply only to entries this class did not write, and the catch that reads malformed preferences as an empty list does not arise.
- DeviceHistory: the clock is a parameter; the `Int` overflow of the connection count and of its sum is not modelled; `lowercase()` is its ASCII form.
- DeviceHistory: the `DeviceInfo` class is not part of this model beyond the fields used here; log calls and the asynchronous `apply()` are left out.
- RetryUtils: the timeout is not modelled as time: an attempt that runs out of it is an outcome that returns nothing. The delays are returned rather than waited.
- RetryUtils: `initialDelayMs * Math.pow(...)` is computed on exact reals, so `Double` rounding, NaN and infinite factors are not modelled; log calls and the calling coroutine's cancellation are left out.
- StrategyManager: the strategies' own code is not part of this model; a strategy is connected after `connect` exactly when it accepted, and its answer is a parameter.
- StrategyManager: registering the same strategy object under two types is not modelled (each registration is a new strategy); `lowercase()` is its ASCII form; log calls are left out and a JSON message is its text.
- TestFramework: the HTML and JSON renderings of the report (`toHtml`, `toJson`) are text layout and are not modelled; the coverage data is never set, so it is always null.
- TestFramework: the UUID, the clock and what the setup, the test function and the teardown do are parameters; `ConcurrentHashMap`'s iteration order is modelled as insertion order, and `GenerateIgnoresOrder` shows the counts do not depend on it.
- TestFramework: `Long` overflow of durations and their sum is not modelled; log calls are left out; each mock's `start()`/`stop()` is one event naming the mocks, their exceptions being caught.
- TestFramework: the placeholder's two clock reads are one; `getInstance` and `synchronized` are not modelled; a Kotlin `Error` escaping `runTestCase` is not modelled; other callers running while a case is suspended are modelled only as far as the run is split into separate steps.
- RemoteControlService: the event emitter (`on`/`off`/`emit`) and every event emitted are not modelled, nor console logging or the mock command results, which carry the clock.
- RemoteControlService: replay progress events are not modelled; the promise of `requestControlPermission` is not modelled beyond the record it files.
- RemoteControlService: a session captured by a timer and then replaced under the same id is not modelled; coordinates and latency are integers, NaN is not modelled, and inherited property names in the quality lookup are left out.
- RemoteControlService.Service.ReplayEvents: requires a positive speed; with a speed of 0 or below the source computes infinite, NaN or negative delays, which are not modelled.
- RemoteControlService.Service.ReplayEvents: starts the timers at the intended offsets, not the per-gap delays as written (see Findings).
- RemoteControlService.Service.ReplayFire: replays mouse events with the intended coordinates, not the as-written read of the record's missing fields (see Findings).
- ScreenShareService: the SVG data URL of a mock frame, the event emitter and its events, and console logging are not modelled.
- ScreenShareService: the simulated network latency and jitter are not timed: a frame's delivery is a separate step.
- ScreenShareService: a frame rate of 0 or below is excluded (JavaScript would compute an infinite interval); a speed of 0 or below is excluded for replay; `stopRecording` on a session object no longer in the map is not modelled; frame ids may collide.
- ScreenShareService: the `isRunning` and `frameInterval` fields that `reset()` touches are never read and are not modelled; the resume branch for full-screen mode cannot be reached and is not written.
- ScreenShareService.UpdateStatsRates: rounds the exact kilobit rate half up, while ScreenShareService.js:495 rounds the double chain `(bytes * 8 / 1024) / (elapsed / 1000)`; at a half-way case the two can differ by one: 136 bytes over 17 ms gives 63 kbps here and 62 in JavaScript.
- ScreenShareService.MockFrameShape: the frame size is the exact bitrate·1024/frameRate·complexity·quality rounded half up; the source multiplies doubles (ScreenShareService.js:427), so a size that is exactly half-way can come out one less.
- ScreenShareService.Service.ReplayRecording: starts the timers at the intended offsets, not the per-gap delays as written (see Findings).
- DeviceDiscoveryService: random device generation (addresses, metadata, versions, performance) is not modelled; the candidates and the random draws are parameters, and the device templates only feed that generation.
- DeviceDiscoveryService: the event emitter is not modelled; `exportDevices` is JSON text and is left out; `importDevices` receives the parsed value, array elements that are not devices and fields that are not strings being left out.
- DeviceDiscoveryService: a search with a query that is not a string is not modelled; `toLowerCase` is its ASCII form.
- ClipboardSync: the device id from local storage or randomness is a parameter; the clipboard read is a parameter and writes are recorded, their failures only being logged.
- ClipboardSync: a regular expression's `test` is a parameter; remote content that is not a string, the callbacks' own behaviour and exceptions, and console logging are not modelled.
- ClipboardSync: content length counts characters of the model's strings rather than UTF-16 units; the debounce delay is not timed, its expiry being a separate step.
- ClipboardSync: `syncClipboardContent` reads the clock for the sync time (line 136) and `addToHistory` reads it again for the history item (line 239); the model passes one `now` to both, so the two stamps are equal, where in the source the second can be later.
- NotificationSync: showing notifications (the DOM, Web Notifications, icons, time formatting, actions, sound and click handling) is not modelled beyond the error that, outside a browser, keeps the callbacks from running.
- NotificationSync: the notification id and the clock are parameters; console logging, the callbacks' behaviour and their exceptions are not modelled.
- NotificationSync: keywords that are not strings would make `toLowerCase` throw, caught so that nothing is stored; they are not modelled. `toLowerCase` is its ASCII form; `maxNotifications` is an integer.
- NotificationSync.SortDesc: does not state how equal timestamps are ordered.
- RemoteController: the DOM listeners, the control indicator and console logging are not modelled; the view's rectangle is a parameter; `isInControlArea` is always true and unused; `preventDefault` and `JSON.stringify` are left out.
- RemoteController: one clock reading serves each handler; distances are compared squared, so `Math.sqrt` and the swipe speed are not carried.
- RemoteController: the unused sensitivity and delay settings are not modelled; a rectangle or screen of size 0 or below is excluded (JavaScript would compute infinities or NaN); the socket's ready state is whether it is open; the 16 ms throttle delay is a separate step.
- RemoteController.ToDeviceAxis: rounds the exact scaled coordinate half up, while remote-controller.js:512-517 rounds the double `x / screen * device`; at a half-way case the two can differ by one: 23 px of a 40 px view on a 100 px device gives 58 here and 57 in JavaScript.
- RemoteController.Controller.Destroy: the listeners are added as new arrow functions (lines 48-70) while `destroy` passes the methods themselves to `removeEventListener` (lines 715-723), so in the source no listener is removed and every one stays attached; the DOM is not modelled, so the model does not show this.
- OneClickTest: running the test files, spawning processes, the HTTP, WebSocket and UDP tests, report generation, the help text and `process.exit` are not modelled; paths are left out.
- OneClickTest: the test function's outcome and the clock are parameters; the async interleaving of `runTest` calls is not modelled; `toUpperCase` is its ASCII form; numbers are exact, and the NaN rate reads as no rate.
- OneClickTest.SuccessRate: rounds the exact percentage half up, while one-click-test.js:1122 rounds the double `passed / total * 100`; at a half-way case the two can differ by one (23 of 40 tests gives 58 here and 57 in JavaScript).
- OneClickTest: a test function that throws `null` or `undefined` makes `err.message` (line 236) itself throw inside the `catch`, so `runTest` rejects without recording a result; the model takes the outcome as a value and always records it.

## Findings

| source | as written | input that shows it | evidently intended | confidence | as-written member | corrected member |
|---|---|---|---|---|---|---|
| app/src/main/java/com/example/windowsandroidconnect/test/MockFramework.kt:634 | the end of the payload, `dataStart + payloadLength`, is a 32-bit `Int` sum that wraps for a declared length near 2^31 | an unmasked 12-byte text frame announcing 2^31 - 1 payload bytes and carrying "AB" parses to the empty message | the payload is truncated to the bytes actually read, so the frame gives "AB" | not executed | MockFramework.ParseFrameOverflow | MockFramework.ParseFrameChecked |
| backend/src/utils/file-transfer-manager.ts:300-301 | `bytesTransferred` is the number of completed chunks times the chunk size, which overstates a short last chunk | a 100-byte file in 64-byte chunks with both chunks done reports 128 bytes and 128 percent | the bytes transferred are the bytes the completed chunks hold, at most the file size | not executed | TransferSessions.ProgressOverstates | TransferSessions.ProgressOf |
| app/src/main/java/com/example/windowsandroidconnect/config/AppConfig.kt:440 | `resetToDefaults` clears only the cached feature flags and leaves the stored ones | a flag set to true before the reset still reads as true after it | the reset clears the feature flags, so each reads as its default | not executed | AppConfig.FeatureSurvivesReset | AppConfig.ResetWithFlags |
| backend/src/utils/health-checker.ts:124-125 | `performCheck` sets the next check after handling the result, and the manager's listener for the unhealthy report (backend/src/services/connection-manager/index.ts:93-95) can remove the connection at the attempt limit (line 243), whose removal event stops the check (lines 71-74) before it is set again | a connection that is never connected, with `maxReconnectAttempts` 1: the fourth failed check removes it, and it goes on being checked, failing and counting failures forever | a connection removed at the attempt limit is checked no more | not executed | ConnectionManager.RemovedStillCheckedAsWritten | ConnectionManager.CheckIntended |
| frontend/src/services/ConfigManager.js:241-259 | `deepMerge` merges an object source value into `{...target[key]}` whatever the target value is, and returns a copy of the target when the target is not an object | merging `{device: {id: "a"}}` onto defaults where `device` is `null` gives `device` the value `{}` and loses the id | an object replaces a target value that is not a plain object, and is merged into one that is | not executed | FrontendConfig.DeepMergeDropsObject | FrontendConfig.Merge |
| frontend/services/RemoteControlService.js:740-747 | every replay timer is set at the moment of the call with the gap to the previous event as its delay, so the delays are gaps, not offsets | events recorded at 0, 1000 and 1100 ms fire at 0, 1000 and 100 ms | each event fires at its offset from the first, so the recorded gaps and order are kept | not executed | RemoteControlService.ReplayReordersAsWritten | RemoteControlService.ReplayOffsetKeepsGaps |
| frontend/services/RemoteControlService.js:758-766 | a recorded mouse event keeps the pointer under `position`, but the replay passes it back to `sendMouseEvent`, which reads `x` and `y`; the coordinates are undefined and the pointer stays where it is | replaying a recorded move to (5, 5) from (0, 0) leaves the pointer at (0, 0) | the replayed event repeats the recorded move, press, release or click | not executed | RemoteControlService.ReplayedMoveStaysAsWritten | RemoteControlService.ReplayedMouseRepeats |
| frontend/services/ScreenShareService.js:617-640 | every replay timer is set at the moment of the call with the gap to the previous frame as its delay | frames received at 0, 100 and 150 ms are shown at 0, 100 and 50 ms | each frame is shown at its offset from the first, in the recorded order | not executed | ScreenShareService.ReplayReordersAsWritten | ScreenShareService.ReplayOffsetKeepsGaps |
