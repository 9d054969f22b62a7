/**
 * The FileWatcher of task1/watcher.js: an event emitter holding at most one
 * `fs.watch` handle in its `watcher` field, with `watch`, `close`, the
 * handle's `error` handler, and the `fileChanged` event emitted from the
 * handle's change callback.
 *
 * Every handle fs.watch ever returned is kept, by creation index, with the
 * path it watches; `closed` holds the indices of the handles closed so far,
 * and `emitted` the paths carried by the `fileChanged` events so far.
 */
module Watcher {
  import opened Wrappers

  type Handle = nat

  datatype WatchState = WatchState(
    watcher: Option<Handle>,
    handles: seq<string>,
    closed: set<Handle>,
    emitted: seq<string>)

  /** The handles that are still open. */
  ghost function OpenHandles(s: WatchState): set<Handle>
  {
    set h | 0 <= h < |s.handles| && h !in s.closed
  }

  /**
   * The watcher's invariant: the field names an open handle or is null,
   * every other handle fs.watch returned has been closed, and only handles
   * that exist are closed.
   */
  ghost predicate Tracked(s: WatchState)
  {
    (s.watcher.Some? ==> s.watcher.value < |s.handles| && s.watcher.value !in s.closed) &&
    (forall h :: h in s.closed ==> h < |s.handles|) &&
    forall h :: 0 <= h < |s.handles| && h !in s.closed ==> s.watcher == Some(h)
  }

  /** The constructor: `this.watcher = null`, nothing watched yet. */
  function Initial(): (s: WatchState)
    ensures Tracked(s) && OpenHandles(s) == {}
  {
    WatchState(None, [], {}, [])
  }

  /**
   * watch(path): while a handle is held nothing happens; otherwise a new
   * fs.watch handle on `path` is created and held.
   */
  function Watched(s: WatchState, path: string): (r: WatchState)
    ensures r.watcher.Some? && r.closed == s.closed && r.emitted == s.emitted
    ensures s.watcher.Some? ==> r == s
    ensures s.watcher.None? ==> r.handles == s.handles + [path] && r.watcher == Some(|s.handles|)
  {
    if s.watcher.Some? then s
    else s.(watcher := Some(|s.handles|), handles := s.handles + [path])
  }

  /** close(): close the held handle, if any, and drop it. */
  function Closed(s: WatchState): (r: WatchState)
    ensures r.watcher.None? && r.handles == s.handles && r.emitted == s.emitted
    ensures s.watcher.None? ==> r == s
    ensures s.watcher.Some? ==> r.closed == s.closed + {s.watcher.value}
  {
    match s.watcher
    case None => s
    case Some(h) => s.(watcher := None, closed := s.closed + {h})
  }

  /**
   * The `error` handler of handle `h`: `this.watcher.close()` and
   * `this.watcher = null`. A handle that is closed raises no more events.
   */
  function ErrorRaised(s: WatchState, h: Handle): (r: WatchState)
    ensures r.handles == s.handles && r.emitted == s.emitted && s.closed <= r.closed
    ensures h < |s.handles| && h !in s.closed ==>
              r.watcher.None? && r.closed == s.closed + (if s.watcher.Some? then {s.watcher.value} else {})
    ensures !(h < |s.handles| && h !in s.closed) ==> r == s
  {
    if h < |s.handles| && h !in s.closed then
      match s.watcher
      case None => s
      case Some(cur) => s.(watcher := None, closed := s.closed + {cur})
    else s
  }

  /** The change callback of handle `h`: emit `fileChanged` with the path that handle watches. */
  function Changed(s: WatchState, h: Handle): (r: WatchState)
    ensures r.watcher == s.watcher && r.handles == s.handles && r.closed == s.closed
    ensures |s.emitted| <= |r.emitted| <= |s.emitted| + 1 && r.emitted[..|s.emitted|] == s.emitted
    ensures |r.emitted| == |s.emitted| + 1 <==> h < |s.handles| && h !in s.closed
    ensures |r.emitted| == |s.emitted| + 1 ==> r.emitted[|s.emitted|] == s.handles[h]
  {
    if h < |s.handles| && h !in s.closed then s.(emitted := s.emitted + [s.handles[h]])
    else s
  }

  /** At most one handle is ever open: exactly the one the field holds. */
  lemma OneOpenHandle(s: WatchState)
    requires Tracked(s)
    ensures OpenHandles(s) == (if s.watcher.Some? then {s.watcher.value} else {})
  {
    if s.watcher.Some? {
      assert s.watcher.value in OpenHandles(s);
    }
  }

  /** watch while watching does nothing, so watch is idempotent. */
  lemma WatchIdempotent(s: WatchState, p: string, q: string)
    ensures Watched(Watched(s, p), q) == Watched(s, p)
  {
  }

  /** close while idle does nothing, so close is idempotent. */
  lemma CloseIdempotent(s: WatchState)
    ensures Closed(Closed(s)) == Closed(s)
  {
  }

  lemma WatchKeepsTracked(s: WatchState, path: string)
    requires Tracked(s)
    ensures Tracked(Watched(s, path)) && OpenHandles(Watched(s, path)) == {Watched(s, path).watcher.value}
  {
    OneOpenHandle(Watched(s, path));
  }

  lemma CloseKeepsTracked(s: WatchState)
    requires Tracked(s)
    ensures Tracked(Closed(s)) && OpenHandles(Closed(s)) == {}
  {
    OneOpenHandle(Closed(s));
  }

  /** An error on the open handle closes it and leaves the watcher idle, ready for a new watch. */
  lemma ErrorResets(s: WatchState, h: Handle, path: string)
    requires Tracked(s) && h in OpenHandles(s)
    ensures ErrorRaised(s, h) == Closed(s)
    ensures ErrorRaised(s, h).watcher.None? && h in ErrorRaised(s, h).closed
    ensures var r := Watched(ErrorRaised(s, h), path);
            r.watcher == Some(|s.handles|) && r.handles == s.handles + [path]
  {
  }

  lemma ErrorKeepsTracked(s: WatchState, h: Handle)
    requires Tracked(s)
    ensures Tracked(ErrorRaised(s, h))
  {
  }

  /**
   * A change on an open handle emits exactly one `fileChanged`, carrying the
   * watched path; a change on any other handle emits nothing.
   */
  lemma ChangeEmitsWatchedPath(s: WatchState, h: Handle)
    requires Tracked(s)
    ensures var r := Changed(s, h);
            Tracked(r) && r.watcher == s.watcher && r.handles == s.handles && r.closed == s.closed &&
            if h in OpenHandles(s) then
              s.watcher == Some(h) && r.emitted == s.emitted + [s.handles[s.watcher.value]]
            else r.emitted == s.emitted
  {
  }

  /** What can happen to a FileWatcher: its two methods, and the two kinds of handle event. */
  datatype Event = Watch(path: string) | Close | Error(h: Handle) | Change(h: Handle)

  function Step(s: WatchState, e: Event): (r: WatchState)
  {
    match e
    case Watch(path) => Watched(s, path)
    case Close => Closed(s)
    case Error(h) => ErrorRaised(s, h)
    case Change(h) => Changed(s, h)
  }

  function Run(s: WatchState, events: seq<Event>): (r: WatchState)
    decreases |events|
  {
    if |events| == 0 then s else Run(Step(s, events[0]), events[1..])
  }

  /**
   * However often watch is called, and whatever events arrive, a FileWatcher
   * never holds more than one open fs.watch handle.
   */
  lemma {:induction false} RunKeepsOneHandle(s: WatchState, events: seq<Event>)
    requires Tracked(s)
    ensures Tracked(Run(s, events))
    ensures |OpenHandles(Run(s, events))| <= 1
    decreases |events|
  {
    if |events| == 0 {
      OneOpenHandle(s);
    } else {
      var e := events[0];
      match e {
        case Watch(path) => WatchKeepsTracked(s, path);
        case Close => CloseKeepsTracked(s);
        case Error(h) => ErrorKeepsTracked(s, h);
        case Change(h) => ChangeEmitsWatchedPath(s, h);
      }
      RunKeepsOneHandle(Step(s, e), events[1..]);
    }
  }

  /** The FileWatcher object. */
  class FileWatcher {
    var watcher: Option<Handle>
    var handles: seq<string>
    var closed: set<Handle>
    var emitted: seq<string>

    function State(): WatchState
      reads this
    {
      WatchState(watcher, handles, closed, emitted)
    }

    ghost predicate Valid()
      reads this
    {
      Tracked(State())
    }

    constructor ()
      ensures Valid()
      ensures State() == Initial()
    {
      watcher, handles, closed, emitted := None, [], {}, [];
    }

    method Watch(path: string)
      requires Valid()
      modifies this
      ensures Valid()
      ensures State() == Watched(old(State()), path)
    {
      WatchKeepsTracked(State(), path);
      if watcher.Some? {
        return;
      }
      watcher := Some(|handles|);
      handles := handles + [path];
    }

    method Close()
      requires Valid()
      modifies this
      ensures Valid()
      ensures State() == Closed(old(State()))
    {
      CloseKeepsTracked(State());
      if watcher.Some? {
        closed := closed + {watcher.value};
        watcher := None;
      }
    }

    /** The `error` listener registered on handle `h`. */
    method OnError(h: Handle)
      requires Valid()
      modifies this
      ensures Valid()
      ensures State() == ErrorRaised(old(State()), h)
    {
      ErrorKeepsTracked(State(), h);
      if h < |handles| && h !in closed && watcher.Some? {
        closed := closed + {watcher.value};
        watcher := None;
      }
    }

    /** The change callback passed to fs.watch for handle `h`. */
    method OnChange(h: Handle)
      requires Valid()
      modifies this
      ensures Valid()
      ensures State() == Changed(old(State()), h)
    {
      ChangeEmitsWatchedPath(State(), h);
      if h < |handles| && h !in closed {
        emitted := emitted + [handles[h]];
      }
    }
  }
}
