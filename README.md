# Log pipeline sinks, worker pool and file watcher, in Dafny

This project models three Node.js modules and proves properties of them:

- **`task1/logging.js`**: the two log sinks.
  - `RotatingFileWriter` appends one JSON line per record to the active log file. When the file's byte counter reaches `MAX_FILE_SIZE` (100 MiB), it rotates to a new file, and the counter restarts at the length of the line that caused the rotation.
  - `RemoteLogWriter` posts records to an HTTP collector. It has:
    - a retry queue capped at `MAX_RETRY_QUEUE` (1000) that drops the oldest entry when full;
    - a window of at most `maxInFlight` (5) outstanding requests;
    - a capped exponential backoff, `min(1000 * 2^attempt, 30000)` ms, before a failed entry is queued again.
- **`task1/imageProcessor.js`**: a worker-thread pool.
  - At start-up it spawns `cpus - 1` workers.
  - Jobs wait in a FIFO queue. `dispatch` gives the front job to the first free worker.
  - A worker's `message` resolves its job's promise. Its `error` event rejects the job; its `exit` event rejects the job only for a non-zero exit code. Both remove the worker from the pool and spawn a replacement.
- **`task1/watcher.js`**: a `FileWatcher`.
  - It holds at most one `fs.watch` handle.
  - `watch` is a no-op while a handle is held, and `close` drops the handle.
  - An `error` on the handle closes it and resets the watcher.
  - Each change on the handle emits `fileChanged` with the watched path.

## How the code is modelled

Each module is a class whose fields are the fields the JavaScript code updates. Each method is proved against a function over a value-level state. The properties are lemmas about those functions, or invariants that the class's `Valid()` keeps.

- **`Logging.RotatingFileWriter`**
  - The file system is the sequence of files written so far: the lines of each file, in creation order.
  - `Buffer.byteLength` is the UTF-8 length (`Utf8Length`).
  - `JSON.stringify` of a record is a function given to the constructor.
  - `WellRotated` states the shape rotation leaves behind. Every file before the active one was left only because its successor's first line would have brought it to the threshold. Every file stays under the threshold unless it holds a single line.
- **`Logging.RemoteLogWriter`**
  - `requests` holds the HTTP requests issued and not yet answered. `timers` holds the pending `setTimeout`s of `retryLater`.
  - Answers and timer expiry are methods that can be applied in any order: `Respond`, `TransportError` and `FireTimer`.
  - Ghost counters account for every record received: it is queued, in flight, waiting on a timer, delivered, or dropped.
- **`ImageProcessor.Pool`**
  - The module-level `workers` and `queue` arrays are fields.
  - Worker objects are records in a map, indexed by worker id. A worker object outlives its place in the pool, and its handlers can still fire.
  - Calls to `postMessage`, `resolve` and `reject` are logged in order.
  - `WorkConserving` is a class invariant that every handler keeps: while a job waits, no pooled worker is idle.
- **`Watcher.FileWatcher`**
  - Every handle `fs.watch` returned is kept, with its path and whether it was closed.
  - `Tracked` states that exactly the handle in the `watcher` field is open. It is kept across any sequence of calls and events.

Where the code and its design description disagree, the model follows the code:

- **Retry delays.** `retryLater`'s timer passes the whole `{data, attempt}` object to `enqueue`. `enqueue` wraps it again as a new entry with attempt 0. So every queued entry has attempt 0, every retry timer has attempt 1 and a 2000 ms delay, and the payload nests one level deeper on each retry. The design instead describes delays that double per attempt. The model keeps both halves:
  - the nesting, in `Payload.Wrapped` and the `Restarted`/`FirstRetries` invariants;
  - the backoff function itself, in `Backoff` and `BackoffSchedule`.
- **Timer expiry.** A timer that fires only enqueues. It does not call `processQueue`, so the entry waits until the next write or answer.
- **Replacement workers.** A crashing worker emits `error` and then `exit`, and each handler spawns a replacement. The pool therefore grows by one (`ErrorThenExit`).

## Model

| member | source | states |
|---|---|---|
| Logging.CharBytes | task1/logging.js:31 | a character takes 1 to 4 UTF-8 bytes, and exactly 1 iff it is ASCII |
| Logging.Utf8Length | task1/logging.js:31 | `Buffer.byteLength` of a line is at least its length in characters and at most four times it |
| Logging.AppendKeepsRotation | task1/logging.js:31-39 | appending a line that keeps the counter under MAX_FILE_SIZE to the active file keeps the rotation layout |
| Logging.RotateKeepsRotation | task1/logging.js:33-37 | opening a new file for a line that would bring the counter to MAX_FILE_SIZE or beyond keeps the rotation layout |
| Logging.AppendedKeepsRotation | task1/logging.js:29-44 | a write keeps the layout; it adds exactly its line at the end of the concatenated files, so they hold every record once, in order; it rotates iff the counter would reach MAX_FILE_SIZE; the active file then holds the line's bytes alone, and otherwise its old count plus the line's, below the threshold |
| Logging.RotatedPrefixBound | task1/logging.js:31-37 | in any written layout, every prefix of a file longer than its first line (every prefix of the first file) is under MAX_FILE_SIZE bytes |
| Logging.Appended | task1/logging.js:29-44 | a write never touches the files before the active one; it opens a new file holding just the line iff the counter would reach MAX_FILE_SIZE, and otherwise appends the line to the active file |
| Logging.RotatedOnlyWhenFull | task1/logging.js:33-37 | a file was left only because the next file's first line would have brought it to MAX_FILE_SIZE bytes or beyond |
| Logging.RotatingFileWriter.constructor | task1/logging.js:23-27 | one empty active file, counter 0 |
| Logging.RotatingFileWriter.Write | task1/logging.js:29-44 | the new files are `Appended(old files, stringify(chunk) + "\n")`; the concatenation grows by that line; the counter is the line's length after a rotation and the old count plus it otherwise; the layout invariant is kept |
| Logging.Pow2 | task1/logging.js:105 | `2 ** attempt` is at least 1 |
| Logging.Backoff | task1/logging.js:105 | the retry delay is between 1000 and 30000 ms |
| Logging.BackoffMonotone | task1/logging.js:105 | a later attempt never waits less |
| Logging.BackoffSchedule | task1/logging.js:105 | attempts 0 to 5 wait 1000, 2000, 4000, 8000, 16000 and 30000 ms, and every attempt from 5 on waits 30000 ms |
| Logging.Enqueued | task1/logging.js:66-72 | the new entry is last; the front entry is dropped iff the queue was at MAX_RETRY_QUEUE, and the others keep their order; a queue within capacity stays within it |
| Logging.EnqueuedOrigins | task1/logging.js:66-72 | enqueue loses and invents no record: the records it keeps, plus the one it evicts, are the ones it had plus the new one |
| Logging.EnqueuedRestarted | task1/logging.js:71 | every entry enqueue builds has attempt 0 |
| Logging.Window | task1/logging.js:75 | processQueue dispatches no more entries than are queued and never more than the free slots (none when the window is full), and stops only when the window is full or the queue is empty; so it dispatches `min(maxInFlight - inFlight, queued)` |
| Logging.RemoteLogWriter.constructor | task1/logging.js:53-58 | empty queue, no request in flight, no timer |
| Logging.RemoteLogWriter.Write | task1/logging.js:60-64 | the callback completes at once; the record is enqueued, then the window is filled from the front of the queue; the counts of received and dropped records are updated |
| Logging.RemoteLogWriter.Enqueue | task1/logging.js:66-72 | the queue becomes `Enqueued(old queue, {data, attempt: 0})`, and an eviction is counted as a drop |
| Logging.RemoteLogWriter.ProcessQueue | task1/logging.js:74-102 | the first `Window` entries move from the queue to the in-flight requests, in order; afterwards the window is full or the queue is empty; the invariant (queue within capacity, inFlight within maxInFlight and equal to the outstanding requests, records conserved) is kept |
| Logging.RemoteLogWriter.RetryLater | task1/logging.js:104-107 | one timer is set, which re-enqueues `{data, attempt}` after `Backoff(attempt)` ms |
| Logging.RemoteLogWriter.Finish | task1/logging.js:83-89 | request i leaves the window and inFlight drops by one; a success is a delivery, and a failure sets a timer for attempt + 1 |
| Logging.RemoteLogWriter.Completed | task1/logging.js:82-97 | the state after an answer to request i: the request leaves the window, a success counts a delivery and a failure sets a retry timer for attempt + 1, then the window is refilled from the queue |
| Logging.RemoteLogWriter.Respond | task1/logging.js:82-91 | a 2xx status delivers the record and any other status schedules a retry; then the window is refilled |
| Logging.RemoteLogWriter.TransportError | task1/logging.js:93-97 | a transport error schedules a retry; then the window is refilled |
| Logging.RemoteLogWriter.FireTimer | task1/logging.js:106 | a fired timer enqueues its `{data, attempt}` object as the data of a new attempt-0 entry, and leaves the other timers and the window alone |
| ImageProcessor.FindFree | task1/imageProcessor.js:57 | the index of the first worker that is not busy, or None iff all are busy |
| ImageProcessor.IndexOf | task1/imageProcessor.js:51 | the first position of `w`, or None iff `w` is not pooled |
| ImageProcessor.Removed | task1/imageProcessor.js:50-53 | an absent worker leaves the list unchanged; otherwise the list shrinks by one, and exactly one occurrence of `w` is removed |
| ImageProcessor.RemovedIsWithout | task1/imageProcessor.js:50-53 | on a duplicate-free list, removal deletes `w` and keeps every other worker in order, as the reference `Without` does |
| ImageProcessor.RemovedDistinct | task1/imageProcessor.js:50-53 | removal keeps the pool list registered and duplicate-free |
| ImageProcessor.Dispatched | task1/imageProcessor.js:55-64 | nothing changes without a queued job and a free worker; at most one job moves from the queue to a post; the pool list and the calls are unchanged; workers outside the pool are untouched |
| ImageProcessor.DispatchAssigns | task1/imageProcessor.js:55-64 | with a job queued and a worker free, the front job goes to the first free worker, which becomes busy holding it, and its data is posted to that worker |
| ImageProcessor.DispatchKeepsWellFormed | task1/imageProcessor.js:55-64 | dispatch keeps every worker busy exactly when it holds a job |
| ImageProcessor.Queued | task1/imageProcessor.js:68 | runJob's job goes to the back of the queue, and nothing else changes |
| ImageProcessor.Spawned | task1/imageProcessor.js:22-48 | a new, idle worker is appended to the pool, and no other worker's record changes |
| ImageProcessor.Replaced | task1/imageProcessor.js:35-36 | remove followed by spawn keeps the pool's size if the worker was pooled and grows it by one otherwise; the new worker is last and idle |
| ImageProcessor.Messaged | task1/imageProcessor.js:26-31 | the message handler appends `resolve(result)` for the held job, if any, and changes no pool list; the worker ends idle unless the dispatch that follows hands it the front queued job |
| ImageProcessor.Errored | task1/imageProcessor.js:33-38 | the error handler appends a rejection with the error iff the worker held a job; the pool keeps its size when the worker was pooled and grows by one otherwise; the replacement is last |
| ImageProcessor.Exited | task1/imageProcessor.js:40-45 | the exit handler appends a rejection `Exit <code>` iff the code is non-zero and the worker held a job; the pool keeps its size when the worker was pooled and grows by one otherwise; the replacement is last |
| ImageProcessor.DispatchConserves | task1/imageProcessor.js:55-64 | dispatch brings the pool back to "no idle worker while a job waits", if at most one job waits or at most one worker is idle |
| ImageProcessor.RunJobConserves | task1/imageProcessor.js:66-71 | runJob keeps the pool work-conserving |
| ImageProcessor.MessageConserves | task1/imageProcessor.js:26-31 | the message handler keeps the pool work-conserving |
| ImageProcessor.ReplacedFreeCount | task1/imageProcessor.js:35-36 | replacing a worker keeps the state well formed and adds at most one free worker |
| ImageProcessor.ErrorConserves | task1/imageProcessor.js:33-38 | the error handler keeps the pool work-conserving |
| ImageProcessor.ExitConserves | task1/imageProcessor.js:40-45 | the exit handler keeps the pool work-conserving |
| ImageProcessor.Outcome | task1/imageProcessor.js:67 | a promise settles by the first resolve or reject called for its job (no earlier call is for that job), and is unsettled iff none was called |
| ImageProcessor.SettledStays | task1/imageProcessor.js:67 | a settled promise keeps its outcome whatever is called afterwards |
| ImageProcessor.ErrorOnPooled | task1/imageProcessor.js:33-38 | an error on a pooled worker holding job j rejects j with the error; the worker leaves the pool, which keeps its size, and its own record is untouched |
| ImageProcessor.ErrorThenExit | task1/imageProcessor.js:33-45 | error followed by exit on a worker running job j leaves the pool one worker larger, with j rejected by the error |
| ImageProcessor.FreshJobUnsettled | task1/imageProcessor.js:67-68 | a job id not handed out yet is not queued, and nothing has settled its promise |
| ImageProcessor.DispatchKeepsJobsBelow | task1/imageProcessor.js:55-64 | dispatch only moves an existing job id from the queue to a worker |
| ImageProcessor.ReplaceKeepsJobsBelow | task1/imageProcessor.js:35-36 | a replacement worker holds no job |
| ImageProcessor.MessageKeepsJobsBelow | task1/imageProcessor.js:26-31 | the message handler only settles and re-dispatches existing jobs |
| ImageProcessor.ErrorKeepsJobsBelow | task1/imageProcessor.js:33-38 | the error handler only settles and re-dispatches existing jobs |
| ImageProcessor.ExitKeepsJobsBelow | task1/imageProcessor.js:40-45 | the exit handler only settles and re-dispatches existing jobs |
| ImageProcessor.RecordCallKeeps | task1/imageProcessor.js:28 | calling resolve or reject of an existing job keeps the pool invariants |
| ImageProcessor.Pool.constructor | task1/imageProcessor.js:16-20 | the pool starts with `cpus - 1` idle workers (none for 0 cpus), an empty queue, and nothing posted or called |
| ImageProcessor.Pool.SpawnWorker | task1/imageProcessor.js:22-48 | the state becomes `Spawned(old state, next id)`, with a fresh id |
| ImageProcessor.Pool.RemoveWorker | task1/imageProcessor.js:50-53 | only the pool list changes, to `Removed(old list, w)` |
| ImageProcessor.Pool.Dispatch | task1/imageProcessor.js:55-64 | the state becomes `Dispatched(old state)` |
| ImageProcessor.Pool.RunJob | task1/imageProcessor.js:66-71 | returns a fresh job id: no queued job has it, and no earlier resolve or reject settled its promise; the state becomes `Dispatched(Queued(old state, job))`; the pool stays work-conserving |
| ImageProcessor.Pool.OnMessage | task1/imageProcessor.js:26-31 | the state becomes `Messaged(old state, w, result)`: the worker is freed, its job is resolved, and dispatch runs; the pool stays work-conserving |
| ImageProcessor.Pool.OnError | task1/imageProcessor.js:33-38 | the state becomes `Errored(...)`: the job is rejected with the error, the worker is replaced, and dispatch runs; the pool stays work-conserving |
| ImageProcessor.Pool.OnExit | task1/imageProcessor.js:40-45 | the state becomes `Exited(...)`: the job is rejected only on a non-zero code, the worker is replaced, and dispatch runs; the pool stays work-conserving |
| Watcher.Initial | task1/watcher.js:7-10 | a new watcher holds no handle and has none open |
| Watcher.Watched | task1/watcher.js:12-17 | watch while holding a handle changes nothing; otherwise it opens a new handle on the path and holds it |
| Watcher.Closed | task1/watcher.js:26-31 | close closes the held handle, if any, and clears the field |
| Watcher.ErrorRaised | task1/watcher.js:19-23 | an error on an open handle leaves no handle held and closes the held one; nothing else changes, and an error on a closed handle changes nothing |
| Watcher.Changed | task1/watcher.js:15-17 | a change event emits at most one `fileChanged`, exactly when its handle is open, carrying that handle's path; no handle changes |
| Watcher.OneOpenHandle | task1/watcher.js:12-31 | the only open handle is the one in the field |
| Watcher.WatchIdempotent | task1/watcher.js:13 | a second watch, with any path, changes nothing |
| Watcher.CloseIdempotent | task1/watcher.js:27 | a second close changes nothing |
| Watcher.WatchKeepsTracked | task1/watcher.js:12-17 | after watch exactly one handle is open, the held one |
| Watcher.CloseKeepsTracked | task1/watcher.js:26-31 | after close no handle is open |
| Watcher.ErrorResets | task1/watcher.js:19-23 | an error on the open handle acts as close, and a later watch opens a new handle |
| Watcher.ErrorKeepsTracked | task1/watcher.js:19-23 | an error keeps the one-handle invariant |
| Watcher.ChangeEmitsWatchedPath | task1/watcher.js:15-17 | a change on the open handle emits exactly one `fileChanged` with its path, and a change on any other handle emits nothing |
| Watcher.RunKeepsOneHandle | task1/watcher.js:12-31 | whatever sequence of watch, close, error and change events occurs, at most one handle is ever open |
| Watcher.FileWatcher.constructor | task1/watcher.js:7-10 | the state is `Initial()` |
| Watcher.FileWatcher.Watch | task1/watcher.js:12-23 | the state becomes `Watched(old state, path)` |
| Watcher.FileWatcher.Close | task1/watcher.js:26-31 | the state becomes `Closed(old state)` |
| Watcher.FileWatcher.OnError | task1/watcher.js:19-23 | the state becomes `ErrorRaised(old state, h)` |
| Watcher.FileWatcher.OnChange | task1/watcher.js:15-17 | the state becomes `Changed(old state, h)` |

## Left out

- Node streams are not modelled. That covers the `Writable` base classes, `objectMode`, the `PassThrough` fan-out that feeds both sinks, `_final`, and `drain` backpressure on the file stream. `RotatingFileWriter.Write` only orders the write; the callback's timing is not modelled.
- The file system and the clock are not modelled: the log directory, `createLogStream`'s `Date.now()` file names, and `fs.createWriteStream`. A file is the sequence of lines written to it.
- HTTP is not modelled: a request is the entry it carries. Its response status or error arrives as a `Respond` or `TransportError` call.
- Timers are not modelled as time. `FireTimer` may fire any pending timer, so no delay ordering is enforced.
- Logging.RemoteLogWriter.Valid: the class invariant conserves record counts across queue, requests, timers, deliveries and drops. It does not track record identities. Identities are stated value-level, for one enqueue, in `EnqueuedOrigins`.
- Logging.RemoteLogWriter.Respond: the source's callbacks could in principle report both a response and an error for one request, which would decrement `inFlight` twice. The model settles each request once.
- Watcher.FileWatcher.OnError: error and change events of a handle that was already closed are no-ops in the model. In the source, such an error handler acts on whatever the field holds: with no handle held it dereferences `null` and throws, and with a newer handle held it closes that newer handle and clears the field.
- Watcher.Watched: a failing `fs.watch` is not modelled. In the source it throws synchronously (for example on a missing path), the field stays `null`, and the exception reaches the caller of `watch`; in the model, watch while idle always opens a handle.
- ImageProcessor.Pool.OnExit: as in the source, an `exit` with code 0 by a worker holding a job leaves that job's promise unsettled.
- In imageProcessor.js, the worker-thread body is not modelled, because it is I/O and a busy-wait. Neither is the benchmark at the end of the file, nor `terminate`.
- The `os.cpus()` count is the constructor's parameter.
- `console.error` in the watcher's error handler is left out.
- The producer script, and the other files of the repository, are not part of this model.
