/**
 * The earlier single-binary agent (`src/main.rs`): it registers the host as
 * `/ddtrace/<host>`, forwards the events of a cache on
 * `/ddtrace/instrumentation` into a channel and folds them, one by one, into
 * the instrumentation registry.
 */
module LegacyMain {
  import opened Common
  import opened Registry
  import ZkPaths
  import Hostname

  const DdtracePath := "/ddtrace"
  const DdtraceInstrumentationPath := "/ddtrace/instrumentation"

  /** `flag_b.split(",")`: the Kafka broker list, one element per comma-separated field (empty fields kept). */
  function Brokers(flagB: string): (brokers: seq<string>)
    ensures |brokers| >= 1
    ensures forall i :: 0 <= i < |brokers| ==> ',' !in brokers[i]
    decreases |flagB|
  {
    if flagB == [] then [""]
    else
      var rest := Brokers(flagB[1..]);
      if flagB[0] == ',' then [""] + rest
      else [[flagB[0]] + rest[0]] + rest[1..]
  }

  /** The fields joined back with "," between them. */
  function Join(parts: seq<string>): string
    requires |parts| >= 1
    decreases |parts|
  {
    if |parts| == 1 then parts[0] else parts[0] + "," + Join(parts[1..])
  }

  /** Joining the broker list with "," gives back the flag it was split from. */
  lemma {:induction false} JoinBrokers(flagB: string)
    ensures Join(Brokers(flagB)) == flagB
    decreases |flagB|
  {
    if flagB != [] {
      var rest := Brokers(flagB[1..]);
      JoinBrokers(flagB[1..]);
      var parts := Brokers(flagB);
      if flagB[0] == ',' {
        assert parts[1..] == rest;
        assert flagB == [','] + flagB[1..];
      } else {
        assert parts[1..] == rest[1..];
        if |rest| > 1 {
          assert Join(rest) == rest[0] + "," + Join(rest[1..]);
        }
        assert flagB == [flagB[0]] + flagB[1..];
      }
    }
  }

  /** A field without a comma in front of any text stays glued to the first field of that text. */
  lemma {:induction false} BrokersOfPrefix(a: string, t: string)
    requires ',' !in a
    ensures Brokers(a + t) == [a + Brokers(t)[0]] + Brokers(t)[1..]
    decreases |a|
  {
    if a != [] {
      BrokersOfPrefix(a[1..], t);
      assert (a + t)[1..] == a[1..] + t;
      assert [a[0]] + (a[1..] + Brokers(t)[0]) == a + Brokers(t)[0];
    } else {
      var b := Brokers(t);
      assert a + t == t && a + b[0] == b[0];
      assert b == [b[0]] + b[1..];
    }
  }

  /** Splitting fields that hold no comma after joining them gives back the same fields. */
  lemma {:induction false} BrokersOfJoin(parts: seq<string>)
    requires |parts| >= 1
    requires forall i :: 0 <= i < |parts| ==> ',' !in parts[i]
    ensures Brokers(Join(parts)) == parts
    decreases |parts|
  {
    if |parts| == 1 {
      BrokersOfPrefix(parts[0], "");
      assert parts[0] + "" == parts[0];
    } else {
      var t := Join(parts[1..]);
      BrokersOfJoin(parts[1..]);
      BrokersOfPrefix(parts[0], "," + t);
      assert ("," + t)[1..] == t;
      assert parts[0] + "," + t == parts[0] + ("," + t);
      assert Brokers("," + t) == [""] + parts[1..];
      assert parts[0] + "" == parts[0];
      assert [parts[0]] + parts[1..] == parts;
    }
  }

  /** The outcome of `register_endpoint`. */
  datatype Registration =
    | HostnamePanic                               // `ddtrace_gethostname().unwrap()` on `Err`
    | CreateFailed(path: string, data: string)    // the ephemeral create returned an error
    | Registered(path: string, data: string, watched: string)  // created; the cache on `watched` processed

  /**
   * `struct InstrumentedEndpoint` of this agent: the registry, the log of
   * `Stop` messages, whether the registry's mutex is poisoned, and the Kafka
   * settings.
   */
  class InstrumentedEndpoint {
    var instrumentation: map<string, Instrumentation>
    var stops: seq<Channel>
    var nextChannel: Channel
    var poisoned: bool
    const kafkaBrokers: seq<string>
    const kafkaOutputTopic: string

    ghost function State(): Registry.State
      reads this
    {
      Registry.State(instrumentation, stops, nextChannel, poisoned)
    }

    ghost predicate Valid()
      reads this
    {
      Registry.Valid(State())
    }

    /** `InstrumentedEndpoint::new(zk, brokers, output_topic)` as `main` calls it, from the `-b` and `-o` flags. */
    constructor (flagB: string, flagO: string)
      ensures Valid() && State() == Registry.Empty()
      ensures kafkaBrokers == Brokers(flagB) && kafkaOutputTopic == flagO
    {
      kafkaBrokers := Brokers(flagB);
      kafkaOutputTopic := flagO;
      instrumentation := map[];
      stops := [];
      nextChannel := 0;
      poisoned := false;
    }

    /**
     * One turn of the `for ev in ev_rx` loop. `ChildAdded` spawns the worker
     * with `thread::spawn` and inserts (or replaces) the entry;
     * `ChildRemoved` of a present node sends `Stop`, which panics with the
     * lock held when the worker is no longer `listening`.
     */
    method HandleEvent(ev: CacheEvent, listening: bool, decode: seq<byte> -> string)
      requires Valid() && !poisoned
      modifies this
      ensures Valid()
      ensures State() == Step(old(State()), ev, true, listening, decode)
    {
      StepPreservesValid(State(), ev, true, listening, decode);
      match ev {
        case ChildAdded(script, scriptData) =>
          var scriptStr := decode(scriptData);
          var tx := nextChannel;
          nextChannel := nextChannel + 1;
          instrumentation := instrumentation[script := Instrumentation(tx, scriptStr)];
        case ChildUpdated(_, _) =>
        case ChildRemoved(script) =>
          if script in instrumentation {
            if listening {
              stops := stops + [instrumentation[script].tx];
              instrumentation := instrumentation - {script};
            } else {
              poisoned := true;
            }
          }
        case _ =>
      }
    }

    /**
     * `process_instrumentation`: when the cache on `/ddtrace/instrumentation`
     * starts, handle the events it delivers, in order. `listening[i]` is
     * whether the worker of the node removed by `events[i]` still holds its
     * receiver; when it does not, the loop's thread panics and ends there.
     */
    method ProcessInstrumentation(cacheStarted: bool, events: seq<CacheEvent>, listening: seq<bool>,
                                  decode: seq<byte> -> string)
      requires Valid() && !poisoned && |listening| == |events|
      modifies this
      ensures Valid()
      ensures !cacheStarted ==> State() == old(State())
      ensures cacheStarted ==> State() == Run(old(State()), events, listening, decode)
      ensures cacheStarted && !poisoned ==>
        forall path :: path in instrumentation <==> NetAdded(old(instrumentation).Keys, events, path)
    {
      if !cacheStarted {
        return;
      }
      ghost var s0 := State();
      var i := 0;
      while i < |events|
        invariant 0 <= i <= |events|
        invariant State() == Run(s0, events[..i], listening[..i], decode)
        invariant Valid() && !poisoned
      {
        assert events[..i + 1][..i] == events[..i] && listening[..i + 1][..i] == listening[..i];
        HandleEvent(events[i], listening[i], decode);
        if poisoned {
          RunEndsAtPanic(s0, events, listening, decode, i + 1);
          return;
        }
        i := i + 1;
      }
      assert events[..|events|] == events && listening[..|events|] == listening;
      forall path
        ensures path in instrumentation <==> NetAdded(s0.instrumentation.Keys, events, path)
      {
        RunKeys(s0, events, listening, decode, path);
      }
    }

    /**
     * `register_endpoint`: read the host name (`gethostname` returned
     * `hostErr` and left `hostBuf`), create the ephemeral node
     * `/ddtrace/<host>` (`created` is the create's outcome) and, only when it
     * was created, process the instrumentation events of the node shared by
     * every host, `/ddtrace/instrumentation`.
     */
    method RegisterEndpoint(hostErr: int, hostBuf: seq<byte>, created: bool, cacheStarted: bool,
                            events: seq<CacheEvent>, listening: seq<bool>, decode: seq<byte> -> string,
                            pkgName: string, pkgVersion: string) returns (r: Registration)
      requires Valid() && !poisoned && |listening| == |events|
      modifies this
      ensures Valid()
      ensures r.HostnamePanic? <==> hostErr != 0
      ensures !r.HostnamePanic? ==>
        && r.path == "/ddtrace/" + decode(Hostname.TruncateAtNul(hostBuf))
        && r.data == pkgName + " (" + pkgVersion + ")"
      ensures r.Registered? <==> hostErr == 0 && created
      ensures r.Registered? ==> r.watched == DdtraceInstrumentationPath
      ensures !r.Registered? ==> State() == old(State())
      ensures r.Registered? ==>
        State() == (if cacheStarted then Run(old(State()), events, listening, decode) else old(State()))
    {
      var hostname := Hostname.GetHostname(hostErr, hostBuf, decode);
      if hostname.Err? {
        return HostnamePanic;
      }
      var hostnamePath := ZkPaths.ChildPath(DdtracePath, hostname.value);
      var hostnamePathData := ZkPaths.Description(pkgName, pkgVersion);
      if created {
        ProcessInstrumentation(cacheStarted, events, listening, decode);
        r := Registered(hostnamePath, hostnamePathData, DdtraceInstrumentationPath);
      } else {
        r := CreateFailed(hostnamePath, hostnamePathData);
      }
    }
  }
}
