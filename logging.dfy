/**
 * The two log sinks of task1/logging.js.
 *
 * RotatingFileWriter appends one JSON line per record to the active file and
 * rotates to a fresh file once its byte counter reaches MAX_FILE_SIZE.
 *
 * RemoteLogWriter posts records to an HTTP collector through a bounded retry
 * queue with drop-oldest eviction, a window of at most maxInFlight requests,
 * and a capped exponential backoff before a failed record is queued again.
 * HTTP outcomes and timer expiry are events (methods) applied to the writer.
 */
module Logging {

  /** Rotation threshold of the file sink: 100 MiB. */
  const MAX_FILE_SIZE: nat := 100 * 1024 * 1024

  /** Capacity of the remote sink's retry queue. */
  const MAX_RETRY_QUEUE: nat := 1000

  /** A structured log record, as the producer of logging.js builds it. */
  datatype LogRecord = LogRecord(id: int, level: string, timestamp: string, msg: string)

  // ---------------------------------------------------------------------------
  // Byte length of a line: Buffer.byteLength, i.e. the UTF-8 length
  // ---------------------------------------------------------------------------

  /** Number of UTF-8 bytes that encode one Unicode scalar value. */
  function CharBytes(c: char): (n: nat)
    ensures 1 <= n <= 4
    ensures n == 1 <==> c as int < 0x80
  {
    if c as int < 0x80 then 1
    else if c as int < 0x800 then 2
    else if c as int < 0x1_0000 then 3
    else 4
  }

  /** UTF-8 length of a string: at least one byte and at most four per character. */
  function Utf8Length(s: string): (n: nat)
    ensures |s| <= n <= 4 * |s|
  {
    if s == [] then 0 else CharBytes(s[0]) + Utf8Length(s[1..])
  }

  /** Total byte length of a sequence of lines (summed from the right, as they are appended). */
  function Bytes(lines: seq<string>): (n: nat)
  {
    if lines == [] then 0 else Bytes(lines[..|lines| - 1]) + Utf8Length(lines[|lines| - 1])
  }

  /** All lines of all files, in file creation order. */
  function Flatten(files: seq<seq<string>>): (lines: seq<string>)
  {
    if files == [] then [] else Flatten(files[..|files| - 1]) + files[|files| - 1]
  }

  // ---------------------------------------------------------------------------
  // The rotation layout
  // ---------------------------------------------------------------------------

  /**
   * The shape every sequence of files written by RotatingFileWriter has:
   * there is an active (last) file, and the files up to it are laid out as
   * LaidOut describes.
   */
  ghost predicate WellRotated(files: seq<seq<string>>)
  {
    |files| >= 1 && LaidOut(files, |files| - 1)
  }

  /**
   * Files 0..k are laid out as rotation leaves them: the first is under the
   * threshold, and each later one is a Successor of the one before it.
   */
  ghost predicate LaidOut(files: seq<seq<string>>, k: nat)
    requires k < |files|
  {
    if k == 0 then Bytes(files[0]) < MAX_FILE_SIZE
    else LaidOut(files, k - 1) && Successor(files[k - 1], files[k])
  }

  /**
   * File `f` was opened after `prev`: its first line would have brought
   * `prev` to MAX_FILE_SIZE bytes or beyond, and it stays under the threshold
   * unless that line is all it holds.
   */
  ghost predicate Successor(prev: seq<string>, f: seq<string>)
  {
    f != [] && (|f| == 1 || Bytes(f) < MAX_FILE_SIZE) &&
    Bytes(prev) + Utf8Length(f[0]) >= MAX_FILE_SIZE
  }

  /** The layout of files 0..k depends on those files alone. */
  lemma {:induction false} LaidOutAgree(a: seq<seq<string>>, b: seq<seq<string>>, k: nat)
    requires k < |a| && k < |b| && LaidOut(a, k)
    requires forall j :: 0 <= j <= k ==> a[j] == b[j]
    ensures LaidOut(b, k)
  {
    if k > 0 {
      LaidOutAgree(a, b, k - 1);
      assert a[k - 1] == b[k - 1] && a[k] == b[k];
    }
  }

  lemma BytesAppend(lines: seq<string>, line: string)
    ensures Bytes(lines + [line]) == Bytes(lines) + Utf8Length(line)
  {
    assert (lines + [line])[..|lines|] == lines;
  }

  /** A file's byte count only grows as lines are appended. */
  lemma {:induction false} BytesPrefix(lines: seq<string>, k: nat)
    requires k <= |lines|
    ensures Bytes(lines[..k]) <= Bytes(lines)
    decreases |lines|
  {
    if k < |lines| {
      var n := |lines|;
      assert lines[..n - 1][..k] == lines[..k];
      BytesPrefix(lines[..n - 1], k);
    } else {
      assert lines[..k] == lines;
    }
  }

  lemma FlattenAppend(files: seq<seq<string>>, f: seq<string>)
    ensures Flatten(files + [f]) == Flatten(files) + f
  {
    assert (files + [f])[..|files|] == files;
  }

  /** Appending a line to the active file keeps the layout when the counter stays below the threshold. */
  lemma AppendKeepsRotation(done: seq<seq<string>>, active: seq<string>, line: string)
    requires WellRotated(done + [active])
    requires Bytes(active) + Utf8Length(line) < MAX_FILE_SIZE
    ensures WellRotated(done + [active + [line]])
  {
    var n := |done|;
    var a, r := done + [active], done + [active + [line]];
    BytesAppend(active, line);
    assert a[n] == active && r[n] == active + [line];
    if n > 0 {
      LaidOutSameDone(done, active, active + [line]);
      assert a[n - 1] == r[n - 1];
    }
  }

  /** Replacing the active file leaves the layout of the files before it as it was. */
  lemma LaidOutSameDone(done: seq<seq<string>>, x: seq<string>, y: seq<string>)
    requires |done| > 0 && LaidOut(done + [x], |done| - 1)
    ensures LaidOut(done + [y], |done| - 1)
  {
    assert forall j :: 0 <= j < |done| ==> (done + [x])[j] == done[j] == (done + [y])[j];
    LaidOutAgree(done + [x], done + [y], |done| - 1);
  }

  /** Opening a new file for a line that brings the counter to the threshold keeps the layout. */
  lemma RotateKeepsRotation(files: seq<seq<string>>, line: string)
    requires WellRotated(files)
    requires Bytes(files[|files| - 1]) + Utf8Length(line) >= MAX_FILE_SIZE
    ensures WellRotated(files + [[line]])
  {
    var n := |files|;
    var r := files + [[line]];
    LaidOutAgree(files, r, n - 1);
    assert r[n - 1] == files[n - 1] && r[n] == [line];
  }

  /**
   * In a well-rotated layout, every line but the trigger of a rotation was
   * appended while the counter stayed below the threshold: every prefix of a
   * file that is longer than its first line is under MAX_FILE_SIZE bytes.
   */
  lemma {:induction false} RotatedPrefixBound(files: seq<seq<string>>, i: nat, k: nat)
    requires WellRotated(files)
    requires i < |files| && 1 <= k <= |files[i]| && (i == 0 || 2 <= k)
    ensures Bytes(files[i][..k]) < MAX_FILE_SIZE
  {
    LaidOutFile(files, |files| - 1, i);
    BytesPrefix(files[i], k);
  }

  /** In a well-rotated layout, a file was left only because the next line would have filled it. */
  lemma RotatedOnlyWhenFull(files: seq<seq<string>>, i: nat)
    requires WellRotated(files)
    requires i + 1 < |files|
    ensures files[i + 1] != [] && Bytes(files[i]) + Utf8Length(files[i + 1][0]) >= MAX_FILE_SIZE
  {
    LaidOutFile(files, |files| - 1, i + 1);
  }

  /** What the layout of files 0..k says about file i. */
  lemma {:induction false} LaidOutFile(files: seq<seq<string>>, k: nat, i: nat)
    requires k < |files| && LaidOut(files, k) && i <= k
    ensures i == 0 ==> Bytes(files[0]) < MAX_FILE_SIZE
    ensures i > 0 ==> Successor(files[i - 1], files[i])
  {
    if i < k {
      LaidOutFile(files, k - 1, i);
    }
  }

  /**
   * The files after `line` is written: it opens a new file when it would
   * bring the active file's count to MAX_FILE_SIZE or beyond, and is appended
   * to the active file otherwise.
   */
  function Appended(files: seq<seq<string>>, line: string): (r: seq<seq<string>>)
    requires |files| >= 1
    ensures |r| == |files| + 1 <==> Bytes(files[|files| - 1]) + Utf8Length(line) >= MAX_FILE_SIZE
    ensures |r| == |files| || |r| == |files| + 1
    ensures r[..|files| - 1] == files[..|files| - 1]
    ensures |r| == |files| + 1 ==> r[|files| - 1] == files[|files| - 1] && r[|files|] == [line]
    ensures |r| == |files| ==> r[|files| - 1] == files[|files| - 1] + [line]
  {
    var n := |files|;
    if Bytes(files[n - 1]) + Utf8Length(line) >= MAX_FILE_SIZE then files + [[line]]
    else files[..n - 1] + [files[n - 1] + [line]]
  }

  /**
   * Writing a line keeps the layout, adds exactly that line at the end of
   * the concatenated files, and leaves the active file holding the line's
   * bytes alone after a rotation, or its old count plus the line's otherwise.
   */
  lemma AppendedKeepsRotation(files: seq<seq<string>>, line: string)
    requires WellRotated(files)
    ensures WellRotated(Appended(files, line))
    ensures Flatten(Appended(files, line)) == Flatten(files) + [line]
    ensures var n, r := |files|, Appended(files, line);
            var grown := Bytes(files[n - 1]) + Utf8Length(line);
            if grown >= MAX_FILE_SIZE then |r| == n + 1 && Bytes(r[n]) == Utf8Length(line)
            else |r| == n && Bytes(r[n - 1]) == grown < MAX_FILE_SIZE
  {
    var n := |files|;
    if Bytes(files[n - 1]) + Utf8Length(line) >= MAX_FILE_SIZE {
      RotateKeepsRotation(files, line);
      FlattenAppend(files, [line]);
      BytesAppend([], line);
      assert [] + [line] == [line];
    } else {
      assert files == files[..n - 1] + [files[n - 1]];
      AppendKeepsRotation(files[..n - 1], files[n - 1], line);
      FlattenAppend(files[..n - 1], files[n - 1]);
      FlattenAppend(files[..n - 1], files[n - 1] + [line]);
      BytesAppend(files[n - 1], line);
    }
  }

  // ---------------------------------------------------------------------------
  // RotatingFileWriter (logging.js:22-49)
  // ---------------------------------------------------------------------------

  /**
   * The file sink. `files` holds the lines written to each log file, in
   * creation order; the last one is the file behind `currentStream`. The
   * files themselves, their names and the streams are not modelled.
   */
  class RotatingFileWriter {
    /** JSON.stringify of a record: its text is left to the environment. */
    const stringify: LogRecord -> string
    var files: seq<seq<string>>
    /** Byte counter of the active file. */
    var size: nat

    ghost predicate Valid()
      reads this
    {
      WellRotated(files) && size == Bytes(files[|files| - 1])
    }

    constructor (stringify: LogRecord -> string)
      ensures Valid()
      ensures this.stringify == stringify
      ensures files == [[]] && size == 0
    {
      this.stringify := stringify;
      files := [[]];
      size := 0;
    }

    /**
     * _write: serialise the record to a line, count its bytes, rotate to a
     * new file if the counter reaches MAX_FILE_SIZE (the counter then starts
     * at the line's own length), and append the line to the active file.
     */
    method Write(chunk: LogRecord)
      requires Valid()
      modifies this
      ensures Valid()
      ensures files == Appended(old(files), stringify(chunk) + "\n")
      ensures Flatten(files) == old(Flatten(files)) + [stringify(chunk) + "\n"]
      ensures var len := Utf8Length(stringify(chunk) + "\n");
              if old(size) + len >= MAX_FILE_SIZE then |files| == |old(files)| + 1 && size == len
              else |files| == |old(files)| && size == old(size) + len < MAX_FILE_SIZE
    {
      var line := stringify(chunk) + "\n";
      var len := Utf8Length(line);
      AppendedKeepsRotation(files, line);
      if size + len >= MAX_FILE_SIZE {
        // currentStream.end(); currentStream = createLogStream(); then write the line
        files := files + [[line]];
        size := len;
      } else {
        // currentStream.write(line)
        files := files[..|files| - 1] + [files[|files| - 1] + [line]];
        size := size + len;
      }
    }
  }

  // ---------------------------------------------------------------------------
  // Capped exponential backoff (logging.js:105)
  // ---------------------------------------------------------------------------

  function Pow2(n: nat): (p: nat)
    ensures p >= 1
  {
    if n == 0 then 1 else 2 * Pow2(n - 1)
  }

  /** Math.min(1000 * 2 ** attempt, 30000): between one and thirty seconds. */
  function Backoff(attempt: nat): (delay: nat)
    ensures 1000 <= delay <= 30000
  {
    var d := 1000 * Pow2(attempt);
    if d < 30000 then d else 30000
  }

  lemma {:induction false} Pow2Monotone(a: nat, b: nat)
    requires a <= b
    ensures Pow2(a) <= Pow2(b)
  {
    if a < b {
      Pow2Monotone(a, b - 1);
    }
  }

  /** The delay never decreases as the attempt number grows. */
  lemma BackoffMonotone(a: nat, b: nat)
    requires a <= b
    ensures Backoff(a) <= Backoff(b)
  {
    Pow2Monotone(a, b);
  }

  /** The delays of attempts 0 to 5, and the cap reached from attempt 5 on. */
  lemma BackoffSchedule()
    ensures Backoff(0) == 1000 && Backoff(1) == 2000 && Backoff(2) == 4000
    ensures Backoff(3) == 8000 && Backoff(4) == 16000 && Backoff(5) == 30000
    ensures forall a: nat :: a >= 5 ==> Backoff(a) == 30000
  {
    assert Pow2(5) == 32;
    forall a: nat | a >= 5
      ensures Backoff(a) == 30000
    {
      BackoffMonotone(5, a);
    }
  }

  // ---------------------------------------------------------------------------
  // Retry queue entries (logging.js:66-72, 104-107)
  // ---------------------------------------------------------------------------

  /**
   * What enqueue receives as `data`: a record written to the sink, or the
   * `{data, attempt}` object a retry timer passes back to enqueue.
   */
  datatype Payload = Record(rec: LogRecord) | Wrapped(retry: Entry)

  /** A retry-queue entry `{data, attempt}`. */
  datatype Entry = Entry(data: Payload, attempt: nat)

  /** A pending setTimeout of retryLater: the `{data, attempt}` it will enqueue, after `delay` ms. */
  datatype Timer = Timer(retry: Entry, delay: nat)

  /** The record a payload carries, however deeply retries have wrapped it. */
  function Origin(p: Payload): (r: LogRecord)
  {
    match p
    case Record(r) => r
    case Wrapped(e) => Origin(e.data)
  }

  /** The records carried by a sequence of entries. */
  ghost function EntryOrigins(es: seq<Entry>): multiset<LogRecord>
  {
    multiset(seq(|es|, k requires 0 <= k < |es| => Origin(es[k].data)))
  }

  lemma EntryOriginsConcat(a: seq<Entry>, b: seq<Entry>)
    ensures EntryOrigins(a + b) == EntryOrigins(a) + EntryOrigins(b)
  {
    var f := (es: seq<Entry>) => seq(|es|, k requires 0 <= k < |es| => Origin(es[k].data));
    assert f(a + b) == f(a) + f(b);
  }

  /**
   * The queue after enqueue: at capacity the front (oldest) entry is dropped,
   * then the new entry goes to the back.
   */
  function Enqueued(queue: seq<Entry>, e: Entry): (r: seq<Entry>)
    ensures |queue| <= MAX_RETRY_QUEUE ==> |r| <= MAX_RETRY_QUEUE
    ensures |r| >= 1 && r[|r| - 1] == e
    ensures var dropped := |queue| + 1 - |r|;
            0 <= dropped <= 1 && (dropped == 1 <==> |queue| >= MAX_RETRY_QUEUE) &&
            r[..|r| - 1] == queue[dropped..]
  {
    if |queue| >= MAX_RETRY_QUEUE then queue[1..] + [e] else queue + [e]
  }

  /** The record enqueue evicts from a queue in this state, if any. */
  ghost function Evicted(queue: seq<Entry>): multiset<LogRecord>
  {
    if |queue| >= MAX_RETRY_QUEUE then multiset{Origin(queue[0].data)} else multiset{}
  }

  /** Enqueue neither loses nor invents records: what it evicts plus what it keeps is what it had plus the new one. */
  lemma EnqueuedOrigins(queue: seq<Entry>, e: Entry)
    ensures EntryOrigins(Enqueued(queue, e)) + Evicted(queue) == EntryOrigins(queue) + multiset{Origin(e.data)}
  {
    assert EntryOrigins([e]) == multiset{Origin(e.data)} by {
      assert seq(1, k requires 0 <= k < 1 => Origin([e][k].data)) == [Origin(e.data)];
    }
    if |queue| >= MAX_RETRY_QUEUE {
      EntryOriginsConcat(queue[1..], [e]);
      EntryOriginsConcat([queue[0]], queue[1..]);
      assert [queue[0]] + queue[1..] == queue;
      assert EntryOrigins([queue[0]]) == multiset{Origin(queue[0].data)} by {
        assert seq(1, k requires 0 <= k < 1 => Origin([queue[0]][k].data)) == [Origin(queue[0].data)];
      }
    } else {
      EntryOriginsConcat(queue, [e]);
    }
  }

  /** How many entries processQueue dispatches: the free slots of the window, or the whole queue. */
  function Window(inFlight: int, maxInFlight: int, n: nat): (k: nat)
    ensures k <= n
    ensures k <= (if inFlight < maxInFlight then maxInFlight - inFlight else 0)
    ensures inFlight < maxInFlight ==> inFlight + k <= maxInFlight
    ensures k == n || inFlight + k >= maxInFlight
  {
    if inFlight >= maxInFlight then 0
    else if maxInFlight - inFlight < n then maxInFlight - inFlight
    else n
  }

  /** Entries as enqueue builds them: attempt 0. */
  ghost predicate Restarted(es: seq<Entry>)
  {
    forall k :: 0 <= k < |es| ==> es[k].attempt == 0
  }

  /** Timers as retryLater sets them for an entry with attempt 0: attempt 1, delay Backoff(1). */
  ghost predicate FirstRetries(ts: seq<Timer>)
  {
    forall k :: 0 <= k < |ts| ==> ts[k].retry.attempt == 1 && ts[k].delay == Backoff(1)
  }

  /** Enqueue keeps every entry at attempt 0. */
  lemma EnqueuedRestarted(queue: seq<Entry>, e: Entry)
    requires Restarted(queue) && e.attempt == 0
    ensures Restarted(Enqueued(queue, e))
  {
    var r := Enqueued(queue, e);
    var d := |queue| + 1 - |r|;
    forall k | 0 <= k < |r|
      ensures r[k].attempt == 0
    {
      if k < |r| - 1 {
        assert r[k] == r[..|r| - 1][k] == queue[d..][k] == queue[d + k];
      }
    }
  }

  /** Settling one request keeps the rest at attempt 0. */
  lemma RestartedRemove(es: seq<Entry>, i: nat)
    requires Restarted(es) && i < |es|
    ensures Restarted(es[..i] + es[i + 1..])
  {
    var r := es[..i] + es[i + 1..];
    forall k | 0 <= k < |r| ensures r[k].attempt == 0 {
      assert r[k] == es[if k < i then k else k + 1];
    }
  }

  /** Firing one timer leaves the others as retryLater set them. */
  lemma FirstRetriesRemove(ts: seq<Timer>, j: nat)
    requires FirstRetries(ts) && j < |ts|
    ensures FirstRetries(ts[..j] + ts[j + 1..])
  {
    var r := ts[..j] + ts[j + 1..];
    forall k | 0 <= k < |r| ensures r[k].retry.attempt == 1 && r[k].delay == Backoff(1) {
      assert r[k] == ts[if k < j then k else k + 1];
    }
  }

  /** 1 if enqueue on this queue evicts its front entry, else 0. */
  function Evictions(queue: seq<Entry>): (n: nat)
  {
    if |queue| >= MAX_RETRY_QUEUE then 1 else 0
  }

  // ---------------------------------------------------------------------------
  // RemoteLogWriter (logging.js:52-108)
  // ---------------------------------------------------------------------------

  /**
   * The remote sink. `requests` are the HTTP requests issued and not yet
   * answered, in dispatch order (each holds the entry its callbacks close
   * over); `timers` are the retryLater timeouts that have not fired. The
   * ghost counters account for the records the sink has received.
   */
  class RemoteLogWriter {
    var queue: seq<Entry>
    var inFlight: int
    const maxInFlight: int := 5
    var requests: seq<Entry>
    var timers: seq<Timer>
    ghost var received: nat
    ghost var delivered: nat
    ghost var dropped: nat

    /**
     * The queue stays within its capacity and the window within maxInFlight;
     * since enqueue always wraps its argument as a new entry with attempt 0,
     * every entry has attempt 0 and every timer re-enqueues attempt 1 after
     * Backoff(1) ms; and each record received is queued, in flight, waiting
     * on a timer, delivered, or dropped.
     */
    ghost predicate Valid()
      reads this
    {
      |queue| <= MAX_RETRY_QUEUE &&
      0 <= inFlight == |requests| <= maxInFlight &&
      Restarted(queue) && Restarted(requests) && FirstRetries(timers) &&
      |queue| + |requests| + |timers| + delivered + dropped == received
    }

    constructor ()
      ensures Valid()
      ensures queue == [] && inFlight == 0 && requests == [] && timers == []
      ensures received == 0 && delivered == 0 && dropped == 0
    {
      queue := [];
      inFlight := 0;
      requests := [];
      timers := [];
      received, delivered, dropped := 0, 0, 0;
    }

    /** _write: enqueue the record, fill the window, and complete the callback at once. */
    method Write(chunk: LogRecord) returns (completed: bool)
      requires Valid()
      modifies this
      ensures Valid()
      ensures completed
      ensures var q := Enqueued(old(queue), Entry(Record(chunk), 0));
              queue == q[Window(old(inFlight), maxInFlight, |q|)..]
      ensures var q := Enqueued(old(queue), Entry(Record(chunk), 0));
              requests == old(requests) + q[..Window(old(inFlight), maxInFlight, |q|)]
      ensures var q := Enqueued(old(queue), Entry(Record(chunk), 0));
              inFlight == old(inFlight) + Window(old(inFlight), maxInFlight, |q|)
      ensures timers == old(timers)
      ensures received == old(received) + 1 && delivered == old(delivered)
      ensures dropped == old(dropped) + Evictions(old(queue))
    {
      EnqueuedRestarted(queue, Entry(Record(chunk), 0));
      received := received + 1;
      Enqueue(Record(chunk));
      ProcessQueue();
      completed := true;
    }

    /** enqueue: drop the oldest entry when the queue is full, then append `{data, attempt: 0}`. */
    method Enqueue(data: Payload)
      modifies this
      ensures queue == Enqueued(old(queue), Entry(data, 0))
      ensures dropped == old(dropped) + Evictions(old(queue))
      ensures inFlight == old(inFlight) && requests == old(requests) && timers == old(timers)
      ensures received == old(received) && delivered == old(delivered)
    {
      if |queue| >= MAX_RETRY_QUEUE {
        dropped := dropped + 1;
        queue := queue[1..];
      }
      queue := queue + [Entry(data, 0)];
    }

    /**
     * processQueue: while the window has room and the queue is not empty,
     * take the front entry and issue its request.
     */
    method ProcessQueue()
      requires Valid()
      modifies this
      ensures Valid()
      ensures var k := Window(old(inFlight), maxInFlight, |old(queue)|);
              queue == old(queue)[k..] && requests == old(requests) + old(queue)[..k] &&
              inFlight == old(inFlight) + k
      ensures inFlight == maxInFlight || queue == []
      ensures timers == old(timers)
      ensures received == old(received) && delivered == old(delivered) && dropped == old(dropped)
    {
      ghost var k: nat := 0;
      while inFlight < maxInFlight && |queue| > 0
        invariant Valid()
        invariant k <= |old(queue)| && queue == old(queue)[k..]
        invariant requests == old(requests) + old(queue)[..k]
        invariant inFlight == old(inFlight) + k
        invariant timers == old(timers)
        invariant received == old(received) && delivered == old(delivered) && dropped == old(dropped)
        decreases |queue|
      {
        var entry := queue[0];
        queue := queue[1..];
        inFlight := inFlight + 1;
        // http.request(REMOTE_ENDPOINT, ...) with body JSON.stringify(entry.data)
        requests := requests + [entry];
        k := k + 1;
        assert old(queue)[..k] == old(queue)[..k - 1] + [entry];
      }
    }

    /** retryLater: set a timer that enqueues `{data, attempt}` after Backoff(attempt) ms. */
    method RetryLater(data: Payload, attempt: nat)
      modifies this
      ensures timers == old(timers) + [Timer(Entry(data, attempt), Backoff(attempt))]
      ensures queue == old(queue) && inFlight == old(inFlight) && requests == old(requests)
      ensures received == old(received) && delivered == old(delivered) && dropped == old(dropped)
    {
      timers := timers + [Timer(Entry(data, attempt), Backoff(attempt))];
    }

    /** Request i is settled: it leaves the window; a failure sets a retry timer for attempt + 1. */
    method Finish(i: nat, success: bool)
      requires Valid() && i < |requests|
      modifies this
      ensures Valid()
      ensures var e := old(requests)[i];
              requests == old(requests)[..i] + old(requests)[i + 1..] &&
              inFlight == old(inFlight) - 1 && queue == old(queue) &&
              timers == (if success then old(timers)
                         else old(timers) + [Timer(Entry(e.data, e.attempt + 1), Backoff(e.attempt + 1))]) &&
              delivered == (if success then old(delivered) + 1 else old(delivered)) &&
              received == old(received) && dropped == old(dropped)
    {
      var e := requests[i];
      assert e.attempt == 0;
      RestartedRemove(requests, i);
      requests := requests[..i] + requests[i + 1..];
      inFlight := inFlight - 1;
      if success {
        delivered := delivered + 1;
      } else {
        RetryLater(e.data, e.attempt + 1);
      }
    }

    /**
     * The state after the outcome of request i: the request is gone and
     * inFlight dropped by one; a success delivered its record, a failure set
     * a retry timer for attempt + 1; then processQueue refilled the window.
     */
    twostate predicate Completed(i: nat, success: bool)
      reads this
      requires i < |old(requests)|
    {
      var e := old(requests)[i];
      var rest := old(requests)[..i] + old(requests)[i + 1..];
      var k := Window(old(inFlight) - 1, maxInFlight, |old(queue)|);
      queue == old(queue)[k..] &&
      requests == rest + old(queue)[..k] &&
      inFlight == old(inFlight) - 1 + k &&
      timers == (if success then old(timers)
                 else old(timers) + [Timer(Entry(e.data, e.attempt + 1), Backoff(e.attempt + 1))]) &&
      delivered == (if success then old(delivered) + 1 else old(delivered)) &&
      received == old(received) && dropped == old(dropped)
    }

    /** The response callback: a 2xx status is a delivery, any other status a retry. */
    method Respond(i: nat, statusCode: int)
      requires Valid() && i < |requests|
      modifies this
      ensures Valid()
      ensures Completed(i, 200 <= statusCode < 300)
    {
      Finish(i, 200 <= statusCode < 300);
      ProcessQueue();
    }

    /** The request's `error` callback: always a retry. */
    method TransportError(i: nat)
      requires Valid() && i < |requests|
      modifies this
      ensures Valid()
      ensures Completed(i, false)
    {
      Finish(i, false);
      ProcessQueue();
    }

    /**
     * Timer j fires: its `{data, attempt}` object is enqueued as the data of
     * a new entry with attempt 0. The queue is not processed here.
     */
    method FireTimer(j: nat)
      requires Valid() && j < |timers|
      modifies this
      ensures Valid()
      ensures queue == Enqueued(old(queue), Entry(Wrapped(old(timers)[j].retry), 0))
      ensures timers == old(timers)[..j] + old(timers)[j + 1..]
      ensures inFlight == old(inFlight) && requests == old(requests)
      ensures received == old(received) && delivered == old(delivered)
      ensures dropped == old(dropped) + Evictions(old(queue))
    {
      EnqueuedRestarted(queue, Entry(Wrapped(timers[j].retry), 0));
      FirstRetriesRemove(timers, j);
      var t := timers[j];
      timers := timers[..j] + timers[j + 1..];
      Enqueue(Wrapped(t.retry));
    }
  }
}
