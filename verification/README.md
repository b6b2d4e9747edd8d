# A verified model of the code-analysis client and server kernels

This project models, in Dafny, the small stateful kernels of the code-analysis repository and proves
what they guarantee over every input, every run and every interleaving:

- **Queue-aware client** (`QueueWait`, `QueueClient`, `QueueProperties`, `QueueDocuments`). A call may
  come back as a queued-job envelope; the client then polls the job, unwraps its result and, where the
  job failed, re-reads the status to pick up an error that is written later than the terminal status.
- **Two-level schema cache** (`CacheNames`, `SchemaCache`, `SchemaCacheProperties`, `SchemaCacheClears`,
  `SchemaClient`). Many clients in many processes share a disk cache of command schemas; each also has a
  memory cache.
- **OpenAPI rewriting** (`OpenApi`, `SchemaSemantics`, `SchemaKeywords`, `OpenApiCache`,
  `OpenApiCacheRuns`). The rewrite of list-valued `type` entries, what it means for validation, and the
  locked cache with its deep copies.
- **Shutdown** (`Shutdown`, `ShutdownProperties`, `ShutdownSignals`) and **start-up** (`Retry`,
  `Startup`, `StartupProperties`, `StartupWorkers`). Threads, nested signal handlers, atexit and the end
  of `main`; the background bootstrap thread, the waiting coroutine and its timer.
- **Leak audit** (`LeakAudit`, `LeakAuditProperties`, `LeakAuditUnnamed`, `LeakAuditReport`), **host
  flags** (`HostFlags`, `HostFlagsProperties`, `HostFlagsText`), **schema walkers** (`SchemaWalk`,
  `SchemaWalkProperties`, `SchemaWalkOrder`), **moving runtime state** (`MoveState`) and **registration
  sync** (`Registration`, `RegistrationProperties`).

`Text`, `JsonValues`, `Sorting` and `Wrappers` hold the Python strings, JSON-like values, sorting and
optional values these share; `TextProperties`, `JsonProperties` and `SchemaKeywords` say what the basic
operations and each schema keyword mean without their bodies. Run `dafny verify dfyconfig.toml` to check
everything.

## How the model is built

What runs step by step in the source is a method or a class here, proved against a specification
function of its inputs or of the old state; the theorems are lemmas about those functions. Concurrent
parts are step systems: a state, the enabled steps, and `Legal`/`Run` over sequences of them, so a
theorem about `Run` is about every interleaving.

- *Queue client.* A `World` fixes for every job and instant what a status read answers, and every delay;
  all worlds are considered, so every way the store's two writes fall between the client's reads is
  covered. The status hook only observes (its time is part of the inbound delay). Endless polling is
  cut off after a number of rounds given as a parameter. Any transport exception is one outcome.
- *Schema cache.* A server's schema is a function of time. The hypotheses on names are explicit
  (`Distinct`: no collision of the truncated hash, no two commands in use with one file name), as is one
  monotone clock and a bound on the fetch round trip. File operations of all processes interleave; a
  file may be half written; any operation may fail or its process die. `SchemaClient` is the client as
  an object; each of its calls, run alone, is shown to be a run of the step system.
- *OpenAPI cache.* The lock is held for a whole call, so an interleaving of threads is a sequence of
  calls. A document is one object: a deep copy shares nothing.
- *Shutdown.* Every thread is a stack of activations. A signal may land on any thread at any point,
  which includes more runs than CPython allows. Fields such as `origin`, `claim` and `lost` are history
  variables: they record what happened and decide nothing.
- *Values from outside* are parameters: `isalnum`, the hash, `ipaddress` parsing and subnet membership,
  parsed timestamps, the `%g` rendering of hours, `str` and `int` of other values, the installed version.
- Strings are handled over ASCII: `strip`, `split`, `lower` and `isdigit` follow Python there.

## What the code does that its documentation does not say

- A non-queued response that carries a job id and a list or dict under `status` is not passed through:
  looking that value up in a set raises TypeError (`StructuredStatusIsNotPassedThrough`).
- The recovery of a late error covers the 4 x 0.5 s after the terminal read, plus whatever the requests
  in between take (`RaceWindowIsExact`). The success path has no such recovery: a completed job read
  before its result is written returns `{"result": None}`.
- A wait with a negative timeout still makes one poll, so the bound is max(1, ceil(T/p) + 1) polls.
- Clearing the schema cache does not cancel a fetch under way; its answer is remembered afterwards.
- An OpenAPI document of null is stored but never found again. Rewriting widens a schema whose type
  lists stand under an odd number of `not`; it can widen under `oneOf`, and where a type list names
  nothing but null.
- A signal on the thread that runs the cleanup, between its start and the call, keeps
  `stop_all_workers` from ever being called; in the model nothing else does, short of the process
  exiting while another thread is still on its way to the call (`WorkersAreStoppedIff`).
- The same signal, between the claim of the shutdown line and the line, keeps the closures from ever
  writing it (`ShutdownLineIsWrittenIff`).
- A signal that lands while its thread holds the cleanup lock blocks that thread for good
  (`BlockedIffInterruptedInside`), and with it every thread that waits for the lock, on which nothing
  need have landed (`NeverGoesOnIffHolderInterrupted`).
- `_bootstrap_with_retry` reports success under a policy with no attempts, which start-up never gives
  it. An attempt that fails in `register_runtime_session` has already set the shared database, so the
  process can exit with the database set (`ExitsIffEveryAttemptFailed`).
- Description and version come from `registration.metadata` before `registration` itself; the
  documented priorities do not mention the metadata (`ResolveTakesTheFirst`).
- A stray project without an id is counted once per pass that lists it, so twice iff its name contains
  both needles (`EachStrayCounts`). A stray without a name, known by its root path, is in neither
  pass (`UnnamedStraysAreMissed`).
- Commands that share a cache file name answer for each other (`CollisionAnswersForAnother`).
- Names with a colon cannot be read back from `--add-host` flags, and such a driver name is added on
  every call.
- `_move_entries` replaces a dangling link at a destination, or writes a file through it, although it
  refuses to overwrite anything that exists.

## Model

| member | source | states |
|---|---|---|
| QueueProperties.DetectionMatchesDocumentedRule | client/code_analysis_client/queue_wait.py:46-94 | the envelope test agrees with its documented rule, in its own words, iff no unmarked response has a job id and a list or dict for a status, and raises exactly then |
| QueueProperties.StructuredStatusIsNotPassedThrough | client/code_analysis_client/queue_wait.py:83-94 | a concrete response that should pass through and raises TypeError instead |
| QueueProperties.JobIdIsTheFirstGiven | client/code_analysis_client/queue_wait.py:74-81 | a response has a job id iff one of its four places holds a truthy value, and it is the first of them |
| QueueClient.Session.GetJobStatus | client/code_analysis_client/queue_wait.py:143-145 | one status read: the reply is the store's at the instant of reading, and clock, request log and documents seen advance accordingly |
| QueueClient.Session.WaitForJob | client/code_analysis_client/queue_wait.py:123-156 | the polling loop is the specified wait, outcome and network state alike |
| QueueClient.Session.RefetchInnerCommandError | client/code_analysis_client/queue_wait.py:182-202 | the refetch loop is the specified refetch of four delayed reads |
| QueueClient.Session.UnwrapJobResult | client/code_analysis_client/queue_wait.py:205-257 | unwrapping of a terminal document: job failure, command failure, or the command's result |
| QueueClient.Session.Join | client/code_analysis_client/queue_wait.py:276-298 | polling to completion and unwrapping, composed |
| QueueClient.Session.Execute | client/code_analysis_client/client.py:182-230 | submit, detect, and poll or hand out a handle |
| QueueClient.QueuedJob.Wait | client/code_analysis_client/queue_wait.py:276-298 | waiting on a handle is polling and unwrapping on its own connection |
| QueueClient.OptOutThenWait | client/code_analysis_client/client.py:211-230 | opting out of polling and then waiting gives the same outcome, requests and clock as polling |
| QueueProperties.WaitReads | client/code_analysis_client/queue_wait.py:123-156 | every document a wait sees is the store's at an instant within the wait, in order |
| QueueProperties.WaitEnds | client/code_analysis_client/queue_wait.py:140-156 | a wait ends with the first terminal document it reads, however late, and expires only at the timeout |
| QueueProperties.WaitPolls | client/code_analysis_client/queue_wait.py:140-156 | the round before the last started before the deadline, so rounds are counted by intervals |
| QueueProperties.PollDeadline | client/code_analysis_client/queue_wait.py:123-156 | at most max(1, ceil(T/p) + 1) polls; never gives up before T; has ended before T + p + one overrun + one round trip |
| QueueProperties.PollBoundIsReached | client/code_analysis_client/queue_wait.py:123-156 | for a job that never ends, without delays, the number of polls is exactly max(1, ceil(T/p) + 1) |
| QueueProperties.NoTimeoutNoExpiry | client/code_analysis_client/queue_wait.py:140-156 | without a timeout the loop never expires |
| QueueProperties.RefetchReads | client/code_analysis_client/queue_wait.py:182-202 | the refetch reports the first structured error it reads and gives up only after four reads without one |
| QueueProperties.ErrorSource | client/code_analysis_client/queue_wait.py:226-237 | where `JobFailedError.error` comes from, and that it is None iff no document showed an error |
| QueueProperties.RefetchFinds | client/code_analysis_client/queue_wait.py:182-202 | in every world the refetch finds a structured error iff it has landed by the instant of its last read |
| QueueProperties.WaitOnStore | client/code_analysis_client/queue_wait.py:123-156 | where no document is terminal before the status is written, no wait ends with an earlier read |
| QueueProperties.RaceRecovered | client/code_analysis_client/queue_wait.py:159-237 | whenever the structured error lands within 2 s of the terminal read, a call raises that error: in every interleaving, for all delays, and over any queue-level error the documents carry |
| QueueProperties.RefetchInstantBounds | client/code_analysis_client/queue_wait.py:159-202 | the k-th look comes at least k half seconds after the terminal read, and at most the delays later |
| QueueProperties.PromptResultIsAlwaysInTime | client/code_analysis_client/queue_wait.py:159-237 | a result written within 2 s of the status itself is always in time |
| QueueProperties.AQueueInTwoWrites | client/code_analysis_client/queue_wait.py:163-179 | a queue that writes status and result apart, with an error of its own, serves such documents, be they under `data` or not and the error in the inner result or beside it |
| QueueProperties.RaceWindowIsExact | client/code_analysis_client/queue_wait.py:159-237 | in every world a failed job raises the structured error iff it has landed by the last look, otherwise the queue-level error |
| QueueProperties.CompletedJobNeedsItsResult | client/code_analysis_client/queue_wait.py:239-257 | for any documents of a completed job, its envelope is returned iff the result was written when the terminal status was read, else a null result |
| QueueProperties.QueueTransparency | client/code_analysis_client/client.py:211-230 | for any terminal document: the command's own result, as a dict, iff the status is completed and none of the failure flags, spelled out, is set; JobFailed iff the job is flagged; CommandFailed, with command, job id and result, iff only the command is; non-queued responses unchanged after one request |
| QueueDocuments.TheFirstEndingReplyEnds | client/code_analysis_client/queue_wait.py:140-156 | on raw replies: a wait asks for this job only, and ends with the document (under `data`, else the reply's own) of the first answered reply whose status, up to blanks and capitals, is completed, failed, stopped or cancelled; no other reply ends it |
| QueueDocuments.OwnErrorIsRaisedAtOnce | client/code_analysis_client/queue_wait.py:163-237 | a failed job whose document carries an error in the inner result raises that one, else the one beside it, and asks for nothing more |
| QueueDocuments.WithoutOwnErrorItRereads | client/code_analysis_client/queue_wait.py:182-237 | without either it asks again, half a second later and up to four times, iff the document names the job; the first reply that shows such an error decides, else the queue-level error is raised |
| QueueDocuments.LandsOnReplies | client/code_analysis_client/queue_wait.py:163-179 | the hypothesis of the race theorems, said of raw replies: each shows the error from that instant on and none before |
| QueueDocuments.FailsAsOnReplies | client/code_analysis_client/queue_wait.py:205-230 | likewise for a failing job: every reply that ends a wait says that it failed and names it |
| QueueDocuments.TheRaceIsRiddenOut | client/code_analysis_client/queue_wait.py:123-237 | from end to end in literal replies: an error written up to 2 s after the status "failed" is the one raised |
| QueueDocuments.HowACallGoesOn | client/code_analysis_client/client.py:182-230 | TypeError, the response itself, or the job under the first id given; opting out hands out its handle after one request, polling asks about that job and times out for it |
| TextProperties.StripIsTheTrimmed | client/code_analysis_client/queue_wait.py:148-148 | stripping leaves the text between its blank ends, for the ten white-space characters |
| CacheNames.TempIsNotFinal | client/code_analysis_client/schema_disk_cache.py:174-174 | a temp file never has an entry's name |
| CacheNames.TempNamesInjective | client/code_analysis_client/schema_disk_cache.py:174-174 | temp names agree only for the same entry and process |
| CacheNames.FilenameCollision | client/code_analysis_client/schema_disk_cache.py:102-105 | commands share a file name iff they have one length and agree wherever either has a kept character other than the underscore; kept characters never collide |
| CacheNames.FilenameByCharacter | client/code_analysis_client/schema_disk_cache.py:102-105 | a file name is the command character by character, alphanumerics, "-", "_" and "." as they are and the rest as "_", with ".json" after it |
| CacheNames.PlainCommandsKeepApart | client/code_analysis_client/schema_disk_cache.py:102-105 | commands of such characters share a file iff they are equal |
| SchemaCache.StoreLoadRoundTrip | client/code_analysis_client/schema_disk_cache.py:139-152 | a stored schema loads back as itself iff it is no older than the time to live |
| SchemaCache.LoadsIff | client/code_analysis_client/schema_disk_cache.py:123-152 | any file loads iff it says when it was written, that is no longer ago than the time to live, and its schema is a dict |
| SchemaClient.Disk.Load | client/code_analysis_client/schema_disk_cache.py:123-152 | exactly when a load answers, and with what |
| SchemaClient.Disk.Store | client/code_analysis_client/schema_disk_cache.py:155-181 | the files a store leaves, by where it gives up |
| SchemaClient.Disk.Clear | client/code_analysis_client/schema_disk_cache.py:184-207 | the files a clear leaves: all but the removable ones of that server; it is a run of unlink steps |
| SchemaClient.StoreIsARun | client/code_analysis_client/schema_disk_cache.py:170-181 | a store is its file operations in order, a run of the step system |
| SchemaClient.SchemaClient.GetCommandSchema | client/code_analysis_client/client.py:155-180 | memory, then disk, then server, with the exact condition for each; the call is a run of the step system |
| SchemaClient.SchemaClient.Fetch | client/code_analysis_client/client.py:177-180 | fetch, remember, store: the new state, or nothing changed where the fetch fails |
| SchemaClient.SchemaClient.ClearCommandSchemaCache | client/code_analysis_client/client.py:134-143 | memory is emptied and this server's removable files are gone; a run of the step system |
| SchemaClient.GetAfterClear | client/code_analysis_client/client.py:134-143 | undisturbed, a get right after a clear returns what the server answers now |
| SchemaClient.CollisionAnswersForAnother | client/code_analysis_client/schema_disk_cache.py:102-152 | of two commands with one file name, a get of the second answers what was stored for the first |
| SchemaClient.PlainCommandsAnswerForThemselves | client/code_analysis_client/schema_disk_cache.py:102-152 | what was stored for one such command never answers for another, whose get goes to the server |
| SchemaCacheProperties.InvStep | client/code_analysis_client/schema_disk_cache.py:123-207 | every step of every process keeps the invariant |
| SchemaCacheProperties.AnswersAreGenuineAndFresh | client/code_analysis_client/client.py:155-180 | in every run each schema returned was served for that command by that server, at most a round trip ago from the network, plus the time to live from disk, plus the client's age from memory |
| SchemaCacheProperties.AgreesWithASettledServer | client/code_analysis_client/client.py:155-180 | if the server has not changed within that bound, the answer is what it would say now |
| SchemaCacheProperties.DiskEntriesAreAtomic | client/code_analysis_client/schema_disk_cache.py:155-181 | under any interleaving of writes, renames, clears and crashes an entry is absent or one complete entry of one store for that key |
| SchemaCacheProperties.AnswerIsRemembered | client/code_analysis_client/client.py:170-180 | after an answer from disk or network the next get finds it in memory, and goes neither to disk nor to the server |
| SchemaCacheProperties.OneWayOnly | client/code_analysis_client/client.py:155-180 | a get goes one way only: memory if it holds the command, else a fresh readable file, else the server |
| SchemaCacheProperties.ClearTouchesOneServer | client/code_analysis_client/schema_disk_cache.py:184-207 | clearing one server leaves every other server's files and freshness as they were |
| SchemaCacheProperties.ClearForcesFetch | client/code_analysis_client/client.py:134-143 | after an undisturbed clear with no writer under way the next get must go to the server |
| SchemaCacheClears.NextGetGoesToTheServerIff | client/code_analysis_client/client.py:134-180 | over any run after a clear begins, the next get goes to the server iff this client was given no answer for the command meanwhile and the entry's file is gone, since no store of it followed the last unlink that succeeded, or is older than the time to live |
| SchemaCacheProperties.InFlightFetchSurvivesClear | client/code_analysis_client/client.py:134-180 | a fetch under way during the clear is remembered and returned after it |
| SchemaCacheProperties.FailedUnlinkSurvivesClear | client/code_analysis_client/schema_disk_cache.py:200-205 | an entry whose unlink failed still answers the next get |
| SchemaCacheProperties.OtherWriterSurvivesClear | client/code_analysis_client/schema_disk_cache.py:170-207 | so does an entry another process renames into place meanwhile |
| OpenApi.NormalizeFixesNormalForms | code_analysis/openapi_mcp_proxy_compat.py:29-45 | the rewrite changes a document iff some key `type` holds a list |
| OpenApi.NormalizeReachesNormalForm | code_analysis/openapi_mcp_proxy_compat.py:29-45 | the result is normal iff every replacement is |
| OpenApi.NormalizeIdempotent | code_analysis/openapi_mcp_proxy_compat.py:29-45 | one pass is enough iff every replacement is normal |
| OpenApi.StringTypeListsAreReplaceable | code_analysis/openapi_mcp_proxy_compat.py:29-45 | with type lists of strings the result is always normal and the rewrite idempotent |
| OpenApi.NormalizeKeepsPaths | code_analysis/openapi_mcp_proxy_compat.py:35-44 | the rewrite commutes with every path outside list-valued types: keys, lengths and leaves are kept |
| OpenApi.NormalizeAtTypeList | code_analysis/openapi_mcp_proxy_compat.py:38-40 | at a list-valued type the result holds the picked name |
| OpenApi.PickIsMember | code_analysis/openapi_mcp_proxy_compat.py:38-40 | the picked name is a non-null member where there is one, else "string" |
| OpenApi.PickIsFirst | code_analysis/openapi_mcp_proxy_compat.py:38-40 | it is the first non-null entry |
| SchemaSemantics.NormalizeNarrows | code_analysis/openapi_mcp_proxy_compat.py:29-45 | with all type lists under an even number of `not`, every instance the rewritten schema accepts the original accepts |
| SchemaSemantics.NormalizeWidens | code_analysis/openapi_mcp_proxy_compat.py:29-45 | with all of them under an odd number, every instance the original accepts the rewritten schema accepts |
| SchemaSemantics.TypeListNarrowsIffItNamesAType | code_analysis/openapi_mcp_proxy_compat.py:38-40 | a type list narrows iff it names something besides null |
| SchemaSemantics.NullableLosesNull | code_analysis/openapi_mcp_proxy_compat.py:38-40 | the narrowing of a nullable type is strict |
| SchemaSemantics.NotReversesNarrowing | code_analysis/openapi_mcp_proxy_compat.py:29-45 | that widening is strict: under `not` the rewrite accepts an instance it did not |
| SchemaSemantics.OneOfReversesNarrowing | code_analysis/openapi_mcp_proxy_compat.py:29-45 | under `oneOf` a rewritten type list can widen |
| OpenApiCache.AnswersRepeat | code_analysis/openapi_mcp_proxy_compat.py:66-69 | while a document is cached and not invalidated every call answers it and generates nothing |
| OpenApiCache.GeneratedOncePerWindow | code_analysis/openapi_mcp_proxy_compat.py:59-77 | between invalidations the generator succeeds at most once and all later callers get that value |
| OpenApiCache.NullDocumentIsNotCached | code_analysis/openapi_mcp_proxy_compat.py:66-69 | a generated null is generated again |
| OpenApiCacheRuns.AnswersAreTheLastGenerated | code_analysis/openapi_mcp_proxy_compat.py:63-75 | in a run from an empty cache every answer is the rewritten form of what the app's generator gave the last time it was asked |
| OpenApiCacheRuns.AnswersAreNormal | code_analysis/openapi_mcp_proxy_compat.py:63-75 | with string type lists no answer has a list under `type`, at any depth |
| OpenApiCacheRuns.AsksExactlyWhenItMust | code_analysis/openapi_mcp_proxy_compat.py:48-77 | the generator is asked iff no earlier call supplied a document that was not invalidated since, and then its document is the answer |
| OpenApiCacheRuns.NextCallAfterInvalidationAsks | code_analysis/openapi_mcp_proxy_compat.py:48-77 | the first call after an invalidation generates again |
| OpenApiCache.Cache.OpenApi | code_analysis/openapi_mcp_proxy_compat.py:63-75 | the wrapped call on the heap refines the cache of values and hands out a fresh copy |
| OpenApiCache.Cache.Invalidate | code_analysis/openapi_mcp_proxy_compat.py:48-56 | invalidation of one app or all, on the heap |
| OpenApiCache.Cache.EditReturnedDoc | code_analysis/openapi_mcp_proxy_compat.py:66-75 | changing a returned document changes no stored one |
| OpenApiCache.RunOperations | code_analysis/openapi_mcp_proxy_compat.py:48-77 | any run of calls on any apps, edits of any returned documents and invalidations answers as the cache of values does |
| OpenApiCache.WriteThroughAlias | code_analysis/openapi_mcp_proxy_compat.py:72-75 | a write through `app.openapi_schema` does change later answers |
| ShutdownProperties.InvStep | code_analysis/main_cleanup.py:83-175 | every step of any thread, signal or of main keeps the invariant |
| ShutdownProperties.ShutdownAtMostOnce | code_analysis/main_cleanup.py:83-175 | workers stopped at most once, one shutdown line at most, heartbeat stopped before it; main exits only with the cleanup started |
| ShutdownProperties.LostForGood | code_analysis/main_cleanup.py:102-159 | once the claimant of the cleanup is unwound, the workers are never stopped |
| ShutdownProperties.WorkersMayNeverBeStopped | code_analysis/main_cleanup.py:170-175 | a run with two signals in which the process exits without stopping the workers |
| ShutdownSignals.WorkersAreStoppedIff | code_analysis/main_cleanup.py:102-175 | the workers have been stopped iff the cleanup has started, no activation is still on its way to the call, and no signal landed on a thread between the start of the cleanup there and the call |
| ShutdownSignals.StruckMeansNever | code_analysis/main_cleanup.py:102-175 | after one such signal they are stopped in no continuation |
| ShutdownProperties.FinallyCalls | code_analysis/main.py:341-366 | main's finally logs, stops the heartbeat and calls the cleanup once more |
| ShutdownProperties.SignalInsideLockBlocksForever | code_analysis/main_cleanup.py:92-115 | a signal on the thread that holds the lock blocks it in every continuation |
| ShutdownSignals.SignalInsideLockIsReachable | code_analysis/main_cleanup.py:92-99 | a run from the start that leads there, on the main thread, which is the one the interpreter interrupts, as on any other |
| ShutdownSignals.HolderGoesOnIffNotBlocked | code_analysis/main_cleanup.py:92-115 | the thread that holds the lock can go on iff nothing stands above the holder |
| ShutdownSignals.BlockedIffInterruptedInside | code_analysis/main_cleanup.py:92-175 | in a run from the start a thread stands above its own lock iff a signal or call landed on it while it held the lock, and then it goes on in no continuation |
| ShutdownSignals.NeverGoesOnIff | code_analysis/main_cleanup.py:92-115 | in every state that satisfies the invariant, while the process lives, a thread in the middle of something goes on in no continuation iff it waits for the lock and the holder, itself or another thread, stands above its own lock |
| ShutdownSignals.NeverGoesOnIffHolderInterrupted | code_analysis/main_cleanup.py:92-115 | in a run from the start that is so iff it waits for the lock and a signal or call landed on the holder's thread inside it |
| ShutdownSignals.ShutdownLineIsWrittenIff | code_analysis/main_cleanup.py:92-100 | the closures' shutdown line is written iff it was claimed, nobody is still on the way to it, and no signal landed between claim and line on the claiming thread |
| ShutdownSignals.AtexitLogsFirst | code_analysis/main_cleanup.py:161-168 | left alone the atexit handler goes for the line, and writes it unless it was claimed, before the cleanup |
| Retry.BootstrapWithRetry | code_analysis/main_app_events.py:64-99 | success iff some allowed attempt succeeds, after exactly that many attempts and one sleep less, else the last error |
| Retry.TotalSleepBound | code_analysis/main_app_events.py:51-99 | total sleep at most d(m^(n-1) - 1)/(m - 1) + (n - 1)j |
| Retry.ShippedPolicySleepsUnder16Seconds | code_analysis/main_app_events.py:51-61 | 15.8 s for the shipped policy |
| Retry.ShippedSleeps | code_analysis/main_app_events.py:51-61 | five attempts, with sleeps of 1, 2, 4 and 8 s, each up to 0.2 s more or less |
| Retry.DelaysMultiply | code_analysis/core/retry_policy.py:46-56 | the first sleep is the delay, each further one the one before multiplied, plus the jitter and never negative |
| Startup.InvStep | code_analysis/main_app_events.py:168-304 | every step keeps the invariant, and a published outcome does not change |
| Startup.StartupProtocol | code_analysis/main_app_events.py:149-304 | workers only with the database set and published; an ended thread has set the event; exit only after error and event; the waiter reports what was published |
| Startup.PublishedOutcomeIsFinal | code_analysis/main_app_events.py:228-240 | the error cell never changes after the event |
| Startup.KilledEarlyNeverPublishes | code_analysis/main_app_events.py:168-240 | a thread killed before the event leaves the waiter to time out and starts no worker |
| Startup.NoAttemptsPublishesSuccess | code_analysis/main_app_events.py:81-99 | a policy with no attempts, which start-up never has, would publish success with no database and start a worker |
| Startup.SuccessMeansDatabaseIffAttemptsAllowed | code_analysis/main_app_events.py:56-99 | published success implies the database in every run iff the policy allows an attempt |
| StartupProperties.ExitsIffEveryAttemptFailed | code_analysis/main_app_events.py:188-240 | a finished start-up exits iff every allowed attempt failed, and with the database set iff besides some `set_shared_database` succeeded |
| StartupProperties.ExitPublishesTheLastFailure | code_analysis/main_app_events.py:216-234 | the error published before the exit is what the last attempt raised |
| StartupProperties.WaiterDoesNotGiveUp | code_analysis/main_app_events.py:56-304 | if each thing the thread does takes a bounded time and all of it with the sleeps fits into the minute, the waiter gives up only on a killed thread |
| StartupProperties.ShippedWaiterDoesNotGiveUp | code_analysis/main_app_events.py:50-61 | for the shipped policy two seconds each are enough |
| StartupProperties.ExitWithDatabaseSet | code_analysis/main_app_events.py:188-240 | for every policy there is a run from the start that exits with the database set |
| StartupWorkers.EveryWorkerIsTriedOnce | code_analysis/main_app_events.py:236-266 | a start-up that published success and was not killed has tried the three workers once each, in order, whatever became of those before; the workers running are those whose start succeeded |
| StartupProperties.DriverFailureIsPublished | code_analysis/main_app_events.py:175-186 | if the driver does not start, its own error is published, the database is never opened, no worker tried, and the process goes on |
| StartupProperties.WaiterGivesUpAfterTheMinute | code_analysis/main_app_events.py:271-283 | the waiter can give up as soon as 60 s are over |
| StartupProperties.ExitComesAfterTheSleeps | code_analysis/main_app_events.py:64-99 | the process is never exited before the sleeps between all attempts have been slept |
| StartupProperties.ShippedExitTakes14Seconds | code_analysis/main_app_events.py:51-61 | with the shipped policy not before 14.2 s |
| LeakAuditProperties.BucketIsLongestMatch | code_analysis/live_leak_audit.py:41-79 | a name's bucket is its longest matching prefix, and exists iff one matches and it is not excluded |
| LeakAuditReport.BucketOf | code_analysis/live_leak_audit.py:41-79 | with the eleven prefixes spelled out: a bucket iff the name starts with one of three stems and not with "verify_editor_", and then the longest prefix |
| LeakAudit.ClassifyLeakAudit | code_analysis/live_leak_audit.py:112-180 | the loops compute the specified strays, verdict and reason |
| LeakAudit.FetchAllPages | code_analysis/live_leak_audit.py:183-203 | the page loop ends, having asked for every page once and returning the whole listing |
| LeakAudit.CollectNames | code_analysis/live_leak_audit.py:221-236 | the names of both passes, every id once |
| LeakAudit.FetchLiveLeakInventory | code_analysis/live_leak_audit.py:206-246 | both passes paged, every id once, then the trash; raises iff some page or the trash call fails |
| LeakAuditReport.RowsHandedOver | code_analysis/live_leak_audit.py:221-231 | one more row is handed over unless its id was seen before |
| LeakAuditReport.NamesHandedOver | code_analysis/live_leak_audit.py:232-234 | the names are those of the rows in order, else the root path, and nothing for a row with neither |
| LeakAuditProperties.PassesFindEveryStrayOnce | code_analysis/live_leak_audit.py:206-246 | the two narrow passes find the strays of the fleet with their multiplicity iff no stray is without an id and contains both needles; and any at all iff there are any |
| LeakAuditProperties.EachStrayCounts | code_analysis/live_leak_audit.py:221-236 | how often each stray of the fleet is counted: once with an id, else once per needle |
| LeakAuditProperties.RedIffSomethingStrays | code_analysis/live_leak_audit.py:134-153 | red iff a live project has a fixture name or a trashed fixture is older than the grace window |
| LeakAuditProperties.ReasonIgnoresOrder | code_analysis/live_leak_audit.py:154-174 | the reason text depends on the multiset of strays only |
| LeakAuditReport.WhatAnAuditLists | code_analysis/live_leak_audit.py:134-180 | the live fixtures by name and the aged trashed ones by folder, else by original name, in the order of the inventory; red iff either list has an entry |
| LeakAuditReport.WhatTheBreakdownCounts | code_analysis/live_leak_audit.py:159-167 | every bucket that occurs, in order and once, with the number of its strays |
| LeakAuditReport.WhatTheReasonSays | code_analysis/live_leak_audit.py:158-176 | how many live and how many aged strays, each with its breakdown, and only what there is |
| LeakAuditProperties.FilteredScanRefinesFullScan | code_analysis/live_leak_audit.py:112-246 | same verdict and aged trash as a scan of the whole fleet; same strays and same reason iff no stray counts twice |
| LeakAuditUnnamed.UnnamedStraysAreMissed | code_analysis/live_leak_audit.py:206-246 | for every fleet with unique ids, nameless projects included: where nothing counts twice, the passes find the fleet's strays with their multiplicity iff no nameless project strays by its root path; the verdict is that of a full scan iff so, or something else makes it red anyway |
| LeakAuditProperties.RunLiveLeakAudit | code_analysis/live_leak_audit.py:249-269 | end to end, paging included: the verdict of a full scan unless a call fails, and its reason iff no stray counts twice |
| LeakAuditProperties.StrayWithoutIdCountsTwice | code_analysis/live_leak_audit.py:228-233 | names of strays that would count twice |
| HostFlags.AddHostArgs | scripts/postgres_setup_from_env_config.py:336-402 | the scan computes the printed list and the conflicts of the file's bindings |
| HostFlags.ScanLine | scripts/postgres_setup_from_env_config.py:362-391 | one line extends the dictionary of first addresses by exactly its bindings |
| HostFlags.AddHostFlagsHostnames | scripts/postgres_setup_from_env_config.py:450-462 | the index-driven loop computes the names the flags define |
| HostFlags.EtcHostsFirstIp | scripts/postgres_setup_from_env_config.py:419-447 | the address of the first usable line listing a name |
| HostFlags.PrependAddHost | scripts/postgres_setup_from_env_config.py:465-495 | the driver's flag is prepended exactly when defined and not listed |
| HostFlagsText.WhichDriverHostIsLookedUp | scripts/postgres_setup_from_env_config.py:405-416 | the driver's host is looked up under its trimmed name unless that is empty, 0.0.0.0 or four dotted numbers |
| HostFlagsProperties.PartsAreTheWordsBeforeTheComment | scripts/postgres_setup_from_env_config.py:363-372 | all stripping and cutting comes to the words before the first '#' |
| HostFlagsText.WordsIff | scripts/postgres_setup_from_env_config.py:363-372 | the words of a text are its longest pieces without a blank, all of them, in order |
| HostFlagsText.BeforeIsCut | scripts/postgres_setup_from_env_config.py:363-372 | the text before a mark ends where the mark first stands |
| HostFlagsProperties.BindingsHold | scripts/postgres_setup_from_env_config.py:360-391 | a binding is offered iff some line has it after an in-subnet address |
| HostFlagsProperties.FirstIsEarliest | scripts/postgres_setup_from_env_config.py:386-391 | the kept address is that of the earliest binding |
| HostFlagsProperties.FirstIpIsFirstLine | scripts/postgres_setup_from_env_config.py:428-447 | the driver's address is that of the first line listing it after an address that parses |
| HostFlagsProperties.PrintedIsSortedAndComplete | scripts/postgres_setup_from_env_config.py:393-402 | strictly sorted pairs, one per bound name, each with its first address |
| HostFlagsProperties.NamesComeBackIffColonFree | scripts/postgres_setup_from_env_config.py:450-462 | reading back gives exactly the bound names iff none contains a colon |
| HostFlagsProperties.PrintedLookup | scripts/postgres_setup_from_env_config.py:393-402 | the printed list resolves every bound name to its first address and nothing else |
| HostFlagsProperties.PrependAddsAtMostTheDriver | scripts/postgres_setup_from_env_config.py:465-495 | the old list is the suffix, other names keep their flags, the driver's name is defined once |
| HostFlagsProperties.PrependIsIdempotentIffColonFree | scripts/postgres_setup_from_env_config.py:465-495 | prepending twice is prepending once iff the name is not defined or has no colon |
| HostFlagsProperties.ContainerResolves | scripts/postgres_setup_from_env_config.py:336-495 | end to end: which address the container resolves every name to |
| SchemaWalk.WalkSchemaNodes | scripts/audit_api_param_validation.py:26-49 | the recursive loops emit exactly the specified walk with printed paths |
| SchemaWalkProperties.EmittedPathsLeadToTheirNodes | scripts/audit_api_param_validation.py:26-49 | following an emitted path from the root yields the emitted dictionary |
| SchemaWalkProperties.EmittedIffReached | scripts/audit_api_param_validation.py:26-49 | a path is emitted iff it leads from sub-schema to sub-schema to a dictionary |
| SchemaWalkOrder.WalkerReaches | scripts/audit_api_param_validation.py:26-49 | the same with the three combinators of this walker spelled out |
| SchemaWalkOrder.EmitsInOrder | scripts/audit_api_param_validation.py:26-49 | a schema before what is below it, its properties before its items, these before the entries of the three combinators in their order, lists from the front |
| SchemaWalkOrder.PrintedStepByStep | scripts/audit_api_param_validation.py:37-48 | each step adds a dot and the key, or the position in brackets, to the printed path |
| SchemaWalkProperties.NoPathTwice | scripts/audit_api_param_validation.py:26-49 | no path is emitted twice |
| SchemaWalkProperties.WalkersEmitNoPathTwice | scripts/generate_api_cmd_bugs_report.py:124-142 | in particular by neither of the two walkers |
| SchemaWalkProperties.NodesAreNamedAfterTheirLastStep | scripts/generate_api_cmd_bugs_report.py:129-141 | the property name reported with a node is that of the last step of its path, none for items and entries |
| SchemaWalkProperties.WalkSchemaIsASubsequence | scripts/generate_api_cmd_bugs_report.py:124-142 | the second walker emits a subsequence, the same sequence iff no emitted schema has a dictionary among its combinator entries |
| SchemaWalkProperties.CleanPathsPrintApart | scripts/audit_api_param_validation.py:37-48 | printed paths are distinct as long as no key has a dot or opening bracket |
| SchemaWalkProperties.DottedKeyPrintsLikeAPath | scripts/audit_api_param_validation.py:37-41 | two emitted nodes with the same printed path |
| MoveState.MoveEntries | scripts/migrate_runtime_state.py:188-199 | the loop moves entry by entry up to the first that raises |
| MoveState.Migrate | scripts/migrate_runtime_state.py:224-285 | nothing moves in a dry run or with blockers; otherwise the move, the removal of the emptied root, and the exit |
| MoveState.EachEntryByItself | scripts/migrate_runtime_state.py:188-199 | the call acts on each entry independently, up to the first that raises |
| MoveState.ConservedIffNothingSpoils | scripts/migrate_runtime_state.py:188-199 | every entry stays whole in exactly one place and nothing else changes iff no entry tried meets a dangling link it replaces or is written through, or a copy broken off |
| MoveState.RenamesConserve | scripts/migrate_runtime_state.py:188-199 | on one file system with no dangling links, state is always conserved |
| MoveState.SuccessLeavesNothing | scripts/migrate_runtime_state.py:258-273 | the move succeeds iff no entry would raise, and then leaves none behind |
| MoveState.FreeNameArrives | scripts/migrate_runtime_state.py:188-199 | an entry the call gets to, with a free name and a rename or copy that works, arrives whole and is gone from the root |
| MoveState.ExistingNameStopsTheMove | scripts/migrate_runtime_state.py:191-198 | a name that exists at the target ends the call; that entry and all after it stay, on both sides |
| MoveState.RaisesIff | scripts/migrate_runtime_state.py:188-199 | when an entry raises, in terms of what stands at the target and what the system allows |
| MoveState.OntoALinkToNowhere | scripts/migrate_runtime_state.py:191-198 | over a dangling link a file replaces it or is written through it, which leaves the link |
| MoveState.BrokenOff | scripts/migrate_runtime_state.py:196-198 | what a move that breaks off leaves on either side |
| Registration.AppConfig.SyncRegistrationPresentation | code_analysis/main_server_presentation.py:115-145 | the writes in place compute the specified configuration, also where they stop at an error |
| Registration.AppConfig.MergeConfigSections | code_analysis/main_config.py:189-208 | the two merging loops compute the specified merge |
| RegistrationProperties.SyncIsAFixpoint | code_analysis/main_server_presentation.py:115-145 | syncing again changes nothing and raises iff the first time did, for every configuration |
| RegistrationProperties.SyncKeepsThePresentation | code_analysis/main_server_presentation.py:47-87 | title, description and version are not changed by the sync's own writes |
| RegistrationProperties.ResolveTakesTheFirst | code_analysis/main_server_presentation.py:66-87 | title, description and version are each the first candidate given, in the code's order |
| RegistrationProperties.SyncPublishesThePresentation | code_analysis/main_server_presentation.py:93-145 | registration and metadata carry the resolved values, and a listener on all interfaces its reachable host |
| RegistrationProperties.HostAndPortPublished | code_analysis/main_server_presentation.py:93-112 | host and port are published iff the listener is bound to all interfaces and names another host; bound elsewhere the metadata keeps what it had; and exactly when the sync breaks off |
| RegistrationProperties.SyncTouchesOnlyTheRegistration | code_analysis/main_server_presentation.py:115-145 | every other section is left alone |
| RegistrationProperties.SyncedMetaHolds | code_analysis/main_server_presentation.py:127-141 | the metadata after the sync, key by key |
| RegistrationProperties.SyncedRegHolds | code_analysis/main_server_presentation.py:121-145 | the registration section after the sync, key by key |
| RegistrationProperties.MergePriorities | code_analysis/main_config.py:189-208 | loaded sections win over the file's, except within registration, where the file's keys win |
| RegistrationProperties.Start | code_analysis/main_config.py:180-227 | merge and sync at start-up; the second sync is a no-op and never raises |

## Left out

- JSON text, file encodings, SHA-256, `ipaddress`, `strptime`, number formatting: parameters, as said above.
- Unicode: `strip`, `split`, `lower` and `isdigit` are modelled over ASCII.
- Network, TLS, Docker and database calls: only the outcome they have on the modelled state.
- Logging and printed messages, other than the shutdown line, the audit's reason text and the conflict list.
- The exit status `main` passes to `os._exit` (a case distinction on the exception).
- Deadlock freedom of the shutdown: the code does not have it (`SignalInsideLockBlocksForever`).
- More than one store at a time in one process: a process is taken to run its stores one after another.
- A memory or disk cache shared by reference: schemas are values, so a caller that edits a returned schema in place is not modelled.
- QueueClient.Session.WaitForJob: an endless poll is represented by being cut off after a given number of rounds, so termination without a timeout is not claimed.
- SchemaSemantics.NormalizeNarrows: not stated for schemas with type lists under `oneOf` or of both polarities at once; for `oneOf` a counterexample is proved instead.
- `$ref` and `patternProperties` in the meaning of a schema: like every keyword not modelled they are one fixed test, the same before and after the rewrite, so a rewritten `$ref` target and the effect of `patternProperties` on `additionalProperties` are not seen.
- An exception out of `cleanup_workers` after it has set its flag and before it calls `stop_all_workers`, which would skip that call too: in the model these statements do not raise.
- SchemaWalkProperties.CleanPathsPrintApart: one direction only; whether a given key with a dot collides depends on the rest of the document.
- MoveState.Migrate: the target is taken to be a directory outside the state root, and whether a link leads somewhere is fixed for the call.
- Registration.AppConfig.SyncRegistrationPresentation: nested dictionaries are values, so metadata shared with another dictionary is not modelled.
- LeakAudit.FetchAllPages: the listing is taken not to change while it is paged through.
- `tools/plan_coverage.py` and `dedupe_issues`: set comparisons and a first-wins filter.
- `ValidatedCommandsProxy`, per-key parameter validation, command registration lists, and the deprecated aliases of the client: finite or routine.
