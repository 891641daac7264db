# FTP version-file client — a Dafny model

The client is one script, `client/src/app.ts`. It keeps one jsftp handle in a
module-level variable `ftp`. It wraps the two callback-style jsftp calls it uses
in promises:

- `getFtpFileList` wraps `ls`.
- `getFtpFileToMemory` wraps `get`. It collects the `data` chunks of the
  returned socket into one buffer until `close`.

Its `main` does the following inside `try` / `catch` / `finally`:

1. Builds the handle.
2. Lists the remote directory.
3. Checks that an entry is named exactly `version.txt`.
4. Fetches that file and logs its contents.
5. Saves it locally with `saveFtpFileToLocal`. That function retrieves the file
   a second time and then writes it.

The `catch` block logs the error and calls `process.exit(0)`. The `finally`
block destroys the handle if one is set.

The model is written in the script's own form:

- The settle-once promise is a `Promise` class (module `Promises`). Its `state`
  is always what its recorded `resolve`/`reject` calls make of a pending promise.
- The data socket is the finite, ordered list of events it delivers (module
  `Stream`). The meaning of the two handlers is stated as `StreamOutcome`.
- The presence check is the `for … of` loop with `continue` and `break`
  (`Listing.FindTarget`).
- The script itself is the class `Client.App`:
  - It holds `ftp` and the ordered trace `effects` of everything the script does
    that can be seen from outside: calls on jsftp and the filesystem, log lines,
    the error print and the exit.
  - Its methods are the script's functions.
  - `main` is a chain of methods: `RunMain` runs `RunTryBlock`, which builds
    the handle and goes on to `RunListStage` (the listing). That goes on to
    `RunCheckStage` (the presence check and the first fetch), which goes on to
    `RunSaveStage` (the save).
  - Each method is proved to extend the trace exactly as a specification
    function (`TryBlock`, `ListStage`, …, `Orchestrate`) says.

The collaborators are inputs, gathered in a `Remote` value:

- whether building the jsftp client succeeds;
- the `ls` callback's arguments;
- the two `get` answers (an error, or the event list of the socket);
- the outcome of the file write.

The lemmas in `ClientProperties` and `Scenarios` are stated over `Orchestrate`
and the stream functions.

The `finally` block (lines 117-121) is there to destroy the handle whatever
happened in the `try` block. But `process.exit(0)` in `catch` (line 116) ends
the process before `finally` can run. So a failed run logs its error, exits
with status 0 and never calls `destroy`. Only a run whose `try` block completes
destroys the handle. The model follows the code in this.

## Model

| member | source | states |
|---|---|---|
| Promises.SettledIsFinal | client/src/app.ts:22-28 | once a promise is settled, any further `resolve`/`reject` calls leave it unchanged |
| Promises.FirstCallWins | client/src/app.ts:20-30 | a promise's final state is decided by the first settling call alone: the rejection when `reject` comes first, whatever follows |
| Promises.NoCallLeavesPending | client/src/app.ts:50-55 | a promise stays pending exactly when nothing ever calls `resolve` or `reject` on it |
| Promises.ApplyAppend | client/src/app.ts:50-55 | settling calls made one after another compose: the state after one more call is that call applied to the state before |
| Promises.Promise.constructor | client/src/app.ts:20 | a new promise is pending and has received no call |
| Promises.Promise.Resolve | client/src/app.ts:28 | `resolve(v)` fulfils a pending promise with `v`, leaves a settled one as it is, and keeps the state equal to the replay of all calls |
| Promises.Promise.Reject | client/src/app.ts:26 | `reject(e)` rejects a pending promise with `e`, leaves a settled one as it is, and keeps the state equal to the replay of all calls |
| Stream.FirstClose | client/src/app.ts:50-55 | the position found holds a `close` event and only `data` events precede it; when none is found, every event is `data` |
| Stream.PayloadAppend | client/src/app.ts:46-49 | the bytes buffered over two consecutive runs of events are those of the first run followed by those of the second |
| Stream.PayloadOfData | client/src/app.ts:46-49 | the buffer built from data events is the exact, ordered concatenation of their chunks |
| Stream.StreamStep | client/src/app.ts:47-55 | one more event moves the promise exactly as the handlers do: `data` leaves it alone; `close` rejects on an error and then resolves with the buffer |
| Stream.CleanCloseDeliversAll | client/src/app.ts:46-55 | chunks followed by a clean `close` fulfil the promise with all the chunks joined in order, whatever events come later |
| Stream.ErrorCloseRejects | client/src/app.ts:50-54 | a `close` carrying an error rejects the promise with that error even after chunks were buffered; the later `resolve` is ignored |
| Stream.NoCloseStaysPending | client/src/app.ts:50-55 | a socket that delivers only data and never closes leaves the promise pending |
| Listing.FindTarget | client/src/app.ts:90-99 | the flag is set exactly when some entry is named exactly `version.txt`; the scan stops at the first such entry, and every entry before the stop has another name |
| Client.App.constructor | client/src/app.ts:9 | the loaded script has no handle and has done nothing |
| Client.App.InitFtpClient | client/src/app.ts:71-79 | the handle is built from the configuration and stored; when building it throws, the handle is unchanged and the error is thrown on |
| Client.App.GetFtpFileList | client/src/app.ts:19-31 | no handle: rejected with "ftp is null" and `ls` is not issued. An `ls` error: rejected with that error even though `resolve` follows. Otherwise fulfilled with the listing |
| Client.App.GetFtpFileToMemory | client/src/app.ts:37-59 | no handle: rejected with "ftp is null" and no `get` is issued. A failed `get`: rejected with its error. Otherwise the loop over the socket's events ends in `StreamOutcome` of those events |
| Client.App.SaveFtpFileToLocal | client/src/app.ts:65-69 | issues a fresh `get`; the write happens only after that retrieve succeeds, and it writes the retrieved bytes under the same name; the result is the retrieve's failure, the write's failure, or success |
| Client.App.RunTryBlock | client/src/app.ts:82-113 | the `try` block appends exactly `TryBlock`'s trace and ends as it says; the handle is set exactly when building it succeeded |
| Client.App.RunListStage | client/src/app.ts:87-89 | from the listing on, the block appends `ListStage`'s trace and ends as it says; the handle is not changed |
| Client.App.RunCheckStage | client/src/app.ts:90-110 | the presence check and the first fetch append `CheckStage`'s trace and end as it says: a missing target throws "version.txt does not exist" before any retrieve |
| Client.App.RunSaveStage | client/src/app.ts:113 | the save step appends `SaveStage`'s trace and ends as it says |
| Client.App.RunMain | client/src/app.ts:81-122 | the run's trace and end are `Orchestrate`'s. A throw logs the error and exits with status 0 with nothing after. Completion destroys the set handle. A promise that never settles stalls the run |
| ClientProperties.SaveStageSteps | client/src/app.ts:65-69 | the save step takes the second retrieve, then the save only when that retrieve succeeded |
| ClientProperties.FetchStageSteps | client/src/app.ts:108-113 | after the check, the steps are the pipeline from the first retrieve, cut where the first failure happened |
| ClientProperties.CheckStageSteps | client/src/app.ts:90-113 | after a listing, the steps are the pipeline from the first retrieve on, and empty when the target is missing |
| ClientProperties.ListStageSteps | client/src/app.ts:87-113 | from the listing on, the steps are the pipeline from `ls`, cut where the first failure happened |
| ClientProperties.ListStageResult | client/src/app.ts:87-113 | the `try` block finishes normally exactly when the listing, the check, both retrieves and the write all succeed |
| ClientProperties.TryBlockSteps | client/src/app.ts:82-113 | the `try` block's steps are a prefix of connect, list, retrieve, retrieve, save, cut where the first failure happened; it finishes normally exactly when every step succeeded |
| ClientProperties.RunSteps | client/src/app.ts:81-122 | a run's steps are those of the `try` block plus the close; the run completes exactly when building the handle and every step succeeded |
| ClientProperties.StepsRunInOrder | client/src/app.ts:81-122 | a run's steps are always a prefix of the pipeline connect, list, retrieve, retrieve, save, destroy. Each step is taken exactly when every earlier step succeeded, so the save step retrieves a second time. The destroy happens exactly when the run completes |
| ClientProperties.FailureExitsAtOnce | client/src/app.ts:114-117 | the run exits exactly when the `try` block throws. It then exits with status 0 right after logging that error, and `destroy` is never called |
| ClientProperties.TryBlockKeepsHandle | client/src/app.ts:82-113 | the `try` block never destroys the handle |
| ClientProperties.CompletedRun | client/src/app.ts:81-122 | a completed run required every step to succeed. It does exactly: build, log, `ls`, log, log, `get`, log, log the version bytes, `get`, write the second retrieve's bytes, destroy |
| ClientProperties.DestroyOnlyOnCompletion | client/src/app.ts:117-121 | `destroy` is called once, as the last effect, when the run completes, and never otherwise |
| ClientProperties.MissingTargetStopsBeforeFetch | client/src/app.ts:101-103 | a listing without an entry named exactly `version.txt` makes the run log "version.txt does not exist" and exit with status 0 before any retrieve or write; the full trace is given |
| Scenarios.VersionStreamDelivers | client/src/app.ts:46-55 | a socket delivering "1.2" and ".3" and then closing cleanly fulfils the fetch with the bytes of "1.2.3" |
| Scenarios.TargetPresentRunCompletes | client/src/app.ts:81-122 | with `version.txt` listed and "1.2.3" served, the run completes, logs the version, writes it to `version.txt` and destroys the handle last |
| Scenarios.NearMatchesAreNotFound | client/src/app.ts:93-103 | entries named `Version.txt`, `version.txt.bak`, ` version.txt` or `readme.txt` do not count as the target: the run exits with the not-found error and never retrieves |
| Scenarios.InitFailureExitsBeforeListing | client/src/app.ts:81-116 | when building the handle fails, the run logs that error and exits with status 0, with no listing, no retrieve and no destroy |
| Scenarios.CallsBeforeInit | client/src/app.ts:19-41 | before `initFtpClient`, both wrappers reject with "ftp is null" and issue no call |

## Left out

- The jsftp protocol (connection, authentication, the listing format, the data connection) is not modelled. Its answers are inputs.
- The local file write is a success or a failure (`Status`). Nothing about the file system is modelled.
- The configuration file `../assets/env_info.json` is not part of this model. The loaded settings are a `Config` input. A failure to build the client is the `init` input.
- `asyncReadFile` (line 8) is never called by the script, so it is not modelled.
- The version text is kept as the fetched bytes. The UTF-8 decoding of line 108 is not modelled.
- `console.log(fileList)` (line 89) is not recorded. The other log lines are recorded as markers (`LogLine`), not as their text. The version line records the bytes.
- `socket.resume()` (line 56) and the event-loop scheduling are not modelled. A socket is the finite list of events it delivers.
- Client.App.GetFtpFileToMemory: on a failed `get` the model states only the rejection with the error. The source then attaches handlers to the missing socket (line 47). That throws inside the jsftp callback, so the process may end there and the `catch` at lines 114-116 may never run. The model treats that throw as having no effect: the rejection reaches `catch`. So the failed-`get` cases of the run-level lemmas (`ClientProperties.StepsRunInOrder`, `ClientProperties.FailureExitsAtOnce` and the others over `Orchestrate`) hold only under that assumption.
- With no handle, the dereference at line 24 or 42 throws inside the promise executor. The model records that throw only as a second, ignored rejection (`NullDereference`). In the script `main` always sets the handle before calling either wrapper.
- Client.App.RunMain: a promise that never settles (a socket without `close`) is modelled as the run stalling, with no further effect. Real timers and the process being kept alive are not modelled.
- Client.App.GetFtpFileList: the `ls` callback, and the `get` callback of Client.App.GetFtpFileToMemory, are assumed to be called; `LsReply` and `GetReply` have no no-answer case. A server that never answers `ls` or `get` would leave `main` waiting forever at line 87 or 108. Only a data socket without `close` stalls a run in the model, so the `Pending` case of `ListStage` is never reached.
- The exit status of a failed run is 0, as the code has it. A non-zero status is not modelled.
