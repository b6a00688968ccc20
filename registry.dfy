/**
 * The instrumentation registry that both agents keep: a map from the name of
 * an instrumentation node to the sending end of the channel of the worker
 * thread that runs its script, driven by the events of a ZooKeeper
 * `PathChildrenCache`. This module holds the value-level specification; the
 * two agents' classes are proved against `Step` and `Run`.
 */
module Registry {
  import opened Common

  /** Identity of one mpsc channel: its sender sits in the registry, its receiver in the worker thread. */
  type Channel = nat

  /** One registry entry (`struct Instrumentation`): the channel's sender and the decoded script. */
  datatype Instrumentation = Instrumentation(tx: Channel, script: string)

  /** `PathChildrenCacheEvent`: node name and raw node data. */
  datatype CacheEvent =
    | ChildAdded(path: string, data: seq<byte>)
    | ChildUpdated(path: string, data: seq<byte>)
    | ChildRemoved(path: string)
    | Initialized
    | Other

  /**
   * The registry map, the log of `Stop` messages sent (by channel, in sending
   * order), the number of channels created so far, and whether a thread
   * panicked while holding the registry's mutex (after which every
   * `lock().unwrap()` on it panics too).
   */
  datatype State = State(instrumentation: map<string, Instrumentation>, stops: seq<Channel>, nextChannel: Channel,
                         poisoned: bool)

  /**
   * Every channel was created before, no two entries share a channel, no
   * channel was sent `Stop` twice, and no live entry's channel was sent `Stop`.
   */
  ghost predicate Valid(s: State)
  {
    && (forall p :: p in s.instrumentation ==> s.instrumentation[p].tx < s.nextChannel)
    && (forall p, q :: p in s.instrumentation && q in s.instrumentation && p != q ==>
          s.instrumentation[p].tx != s.instrumentation[q].tx)
    && (forall i :: 0 <= i < |s.stops| ==> s.stops[i] < s.nextChannel)
    && (forall i, j :: 0 <= i < j < |s.stops| ==> s.stops[i] != s.stops[j])
    && (forall p :: p in s.instrumentation ==> s.instrumentation[p].tx !in s.stops)
  }

  /** The empty registry: no entries, nothing sent, no channel created. */
  function Empty(): (s: State)
    ensures Valid(s)
  {
    State(map[], [], 0, false)
  }

  /**
   * The effect of one cache event. `ChildAdded` always creates a channel; when
   * the worker thread was `spawned` and the mutex is not poisoned it inserts
   * (or replaces) the entry with the new sender and the decoded script.
   * `ChildRemoved` of a present node sends `Stop` on its channel while holding
   * the lock: when the worker is still `listening` the send succeeds and the
   * entry is deleted; when the worker has returned and dropped its receiver,
   * `send(..).unwrap()` panics, the entry stays and the mutex is poisoned.
   * `ChildRemoved` of an absent node, and every other event, changes nothing.
   */
  function Step(s: State, e: CacheEvent, spawned: bool, listening: bool, decode: seq<byte> -> string): State
  {
    match e
    case ChildAdded(path, data) =>
      var tx := s.nextChannel;
      if spawned && !s.poisoned then s.(instrumentation := s.instrumentation[path := Instrumentation(tx, decode(data))], nextChannel := tx + 1)
      else s.(nextChannel := tx + 1)
    case ChildRemoved(path) =>
      if s.poisoned || path !in s.instrumentation then s
      else if listening then s.(instrumentation := s.instrumentation - {path}, stops := s.stops + [s.instrumentation[path].tx])
      else s.(poisoned := true)
    case _ => s
  }

  /** Each event keeps the registry consistent: in particular no channel ever receives a second `Stop`. */
  lemma StepPreservesValid(s: State, e: CacheEvent, spawned: bool, listening: bool, decode: seq<byte> -> string)
    requires Valid(s)
    ensures Valid(Step(s, e, spawned, listening, decode))
  {
    if e.ChildRemoved? && e.path in s.instrumentation && !s.poisoned && listening {
      var t := Step(s, e, spawned, listening, decode);
      var tx := s.instrumentation[e.path].tx;
      forall p | p in t.instrumentation
        ensures t.instrumentation[p].tx !in t.stops
      {
        assert p in s.instrumentation && p != e.path;
        assert t.stops == s.stops + [tx];
      }
    }
  }

  /**
   * A second `ChildAdded` for a present node replaces its entry without sending
   * `Stop`: the old channel is then held by no entry and has received no
   * `Stop`, so nothing can ever stop the worker that listens on it.
   */
  lemma ReplacementOrphansOldWorker(s: State, path: string, data: seq<byte>, decode: seq<byte> -> string)
    requires Valid(s) && path in s.instrumentation && !s.poisoned
    ensures var t := Step(s, ChildAdded(path, data), true, true, decode);
      var old_tx := s.instrumentation[path].tx;
      && old_tx !in t.stops
      && (forall p :: p in t.instrumentation ==> t.instrumentation[p].tx != old_tx)
      && t.instrumentation[path].script == decode(data)
  {
  }

  /**
   * A `Stop` sent to a worker that is no longer listening panics the thread
   * that sent it, with the entry left in place and the mutex poisoned.
   */
  lemma StopToReturnedWorkerPanics(s: State, path: string, spawned: bool, decode: seq<byte> -> string)
    requires !s.poisoned && path in s.instrumentation
    ensures var t := Step(s, ChildRemoved(path), spawned, false, decode);
      && t.poisoned
      && t.instrumentation == s.instrumentation
      && t.stops == s.stops
  {
  }

  /**
   * The registry after one thread handles `events` in order, every worker
   * thread spawning successfully; `listening[i]` is whether the worker of the
   * node removed by `events[i]` still holds its receiver. A panic ends the
   * thread, so no later event is handled.
   */
  function Run(s: State, events: seq<CacheEvent>, listening: seq<bool>, decode: seq<byte> -> string): State
    requires |listening| == |events|
    decreases |events|
  {
    if events == [] then s
    else
      var before := Run(s, events[..|events| - 1], listening[..|events| - 1], decode);
      if before.poisoned then before
      else Step(before, events[|events| - 1], true, listening[|events| - 1], decode)
  }

  /** Once a prefix of the events has panicked the thread, the rest of the run changes nothing. */
  lemma {:induction false} RunEndsAtPanic(s: State, events: seq<CacheEvent>, listening: seq<bool>, decode: seq<byte> -> string, k: nat)
    requires |listening| == |events| && k <= |events|
    requires Run(s, events[..k], listening[..k], decode).poisoned
    ensures Run(s, events, listening, decode) == Run(s, events[..k], listening[..k], decode)
    decreases |events| - k
  {
    if k < |events| {
      var n := |events| - 1;
      assert events[..n][..k] == events[..k] && listening[..n][..k] == listening[..k];
      RunEndsAtPanic(s, events[..n], listening[..n], decode, k);
    } else {
      assert events[..k] == events && listening[..k] == listening;
    }
  }

  /** A thread whose every `Stop` reaches a listening worker never panics. */
  lemma {:induction false} ListeningWorkersNeverPanic(s: State, events: seq<CacheEvent>, listening: seq<bool>, decode: seq<byte> -> string)
    requires |listening| == |events| && !s.poisoned
    requires forall i :: 0 <= i < |listening| ==> listening[i]
    ensures !Run(s, events, listening, decode).poisoned
    decreases |events|
  {
    if events != [] {
      ListeningWorkersNeverPanic(s, events[..|events| - 1], listening[..|events| - 1], decode);
    }
  }

  /** Whether `e` is an `Added` or `Removed` event for node `path`. */
  predicate Touches(e: CacheEvent, path: string)
  {
    (e.ChildAdded? || e.ChildRemoved?) && e.path == path
  }

  /** The last `Added` or `Removed` event for `path` in `events`, if there is one. */
  function LastChange(events: seq<CacheEvent>, path: string): (r: Option<CacheEvent>)
    ensures r.Some? ==> Touches(r.value, path) && r.value in events
    ensures r.None? ==> forall i :: 0 <= i < |events| ==> !Touches(events[i], path)
    decreases |events|
  {
    if events == [] then None
    else if Touches(events[|events| - 1], path) then Some(events[|events| - 1])
    else LastChange(events[..|events| - 1], path)
  }

  /** Whether `path` is in the registry after `events`, judged only from its own last change. */
  ghost predicate NetAdded(keys: set<string>, events: seq<CacheEvent>, path: string)
  {
    match LastChange(events, path)
    case Some(e) => e.ChildAdded?
    case None => path in keys
  }

  /**
   * After a run of events that did not panic, a node is in the registry
   * exactly when its last change was `Added` (then with that event's decoded
   * script), or when it had no change and was there before (then with its
   * old entry).
   */
  lemma {:induction false} RunFollowsLastChange(s: State, events: seq<CacheEvent>, listening: seq<bool>, decode: seq<byte> -> string, path: string)
    requires |listening| == |events| && !Run(s, events, listening, decode).poisoned
    ensures var r := Run(s, events, listening, decode).instrumentation;
      match LastChange(events, path)
      case Some(ChildAdded(_, data)) => path in r && r[path].script == decode(data)
      case Some(_) => path !in r
      case None => (path in r <==> path in s.instrumentation) &&
                   (path in r ==> r[path] == s.instrumentation[path])
    decreases |events|
  {
    if events != [] {
      RunFollowsLastChange(s, events[..|events| - 1], listening[..|events| - 1], decode, path);
    }
  }

  /** The key set after a run that did not panic is the set of nodes whose net effect is `Added`. */
  lemma RunKeys(s: State, events: seq<CacheEvent>, listening: seq<bool>, decode: seq<byte> -> string, path: string)
    requires |listening| == |events| && !Run(s, events, listening, decode).poisoned
    ensures path in Run(s, events, listening, decode).instrumentation <==> NetAdded(s.instrumentation.Keys, events, path)
  {
    RunFollowsLastChange(s, events, listening, decode, path);
  }

  /** A whole run keeps the registry consistent. */
  lemma {:induction false} RunPreservesValid(s: State, events: seq<CacheEvent>, listening: seq<bool>, decode: seq<byte> -> string)
    requires Valid(s) && |listening| == |events|
    ensures Valid(Run(s, events, listening, decode))
    decreases |events|
  {
    if events != [] {
      var n := |events| - 1;
      RunPreservesValid(s, events[..n], listening[..n], decode);
      StepPreservesValid(Run(s, events[..n], listening[..n], decode), events[n], true, listening[n], decode);
    }
  }

  /** The events of `events` that are `Added` or `Removed` events for `path`, in order. */
  function Changes(events: seq<CacheEvent>, path: string): (r: seq<CacheEvent>)
    ensures forall i :: 0 <= i < |r| ==> Touches(r[i], path)
    decreases |events|
  {
    if events == [] then []
    else if Touches(events[|events| - 1], path) then Changes(events[..|events| - 1], path) + [events[|events| - 1]]
    else Changes(events[..|events| - 1], path)
  }

  /** The last change of a node is the last of its own changes. */
  lemma {:induction false} LastChangeOfChanges(events: seq<CacheEvent>, path: string)
    ensures LastChange(events, path) == LastChange(Changes(events, path), path)
    decreases |events|
  {
    if events != [] {
      var init := events[..|events| - 1];
      LastChangeOfChanges(init, path);
      if Touches(events[|events| - 1], path) {
        var c := Changes(init, path) + [events[|events| - 1]];
        assert c[..|c| - 1] == Changes(init, path);
      }
    }
  }

  /**
   * The registry's keys and scripts do not depend on how the events of
   * different nodes are interleaved: two runs that did not panic and agree
   * on each node's own sequence of changes end with the same keys and the
   * same scripts.
   */
  lemma InterleavingIrrelevant(s: State, e1: seq<CacheEvent>, l1: seq<bool>, e2: seq<CacheEvent>, l2: seq<bool>,
                               decode: seq<byte> -> string)
    requires |l1| == |e1| && !Run(s, e1, l1, decode).poisoned
    requires |l2| == |e2| && !Run(s, e2, l2, decode).poisoned
    requires forall path :: Changes(e1, path) == Changes(e2, path)
    ensures var r1 := Run(s, e1, l1, decode).instrumentation;
      var r2 := Run(s, e2, l2, decode).instrumentation;
      && r1.Keys == r2.Keys
      && (forall path :: path in r1 && path in r2 ==> r1[path].script == r2[path].script)
  {
    var r1 := Run(s, e1, l1, decode).instrumentation;
    var r2 := Run(s, e2, l2, decode).instrumentation;
    forall path
      ensures (path in r1 <==> path in r2)
      ensures path in r1 && path in r2 ==> r1[path].script == r2[path].script
    {
      LastChangeOfChanges(e1, path);
      LastChangeOfChanges(e2, path);
      assert Changes(e1, path) == Changes(e2, path);
      RunFollowsLastChange(s, e1, l1, decode, path);
      RunFollowsLastChange(s, e2, l2, decode, path);
    }
  }
}
