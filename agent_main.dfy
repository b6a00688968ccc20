/**
 * The host agent (`agent/src/main.rs`): an endpoint that registers itself
 * under `/ddtrace/endpoints`, watches `/ddtrace/instrumentation/<host>` and
 * starts or stops one DTrace worker thread per instrumentation node.
 */
module AgentMain {
  import opened Common
  import opened Registry
  import ZkPaths
  import Hostname

  const DdtraceEndpointsPath := "/ddtrace/endpoints"
  const DdtraceInstrumentationPath := "/ddtrace/instrumentation"

  /** The ephemeral node that announces endpoint `name` (`register_endpoint`). */
  function RegistrationPath(name: string): (p: string)
    ensures p == "/ddtrace/endpoints/" + name
    ensures ZkPaths.ChildName(DdtraceEndpointsPath, p) == Some(name)
  {
    ZkPaths.ChildNameOfChildPath(DdtraceEndpointsPath, name);
    ZkPaths.ChildPath(DdtraceEndpointsPath, name)
  }

  /** The payload of the registration node: the agent's package name and version. */
  function RegistrationData(pkgName: string, pkgVersion: string): (d: string)
    ensures d == pkgName + " (" + pkgVersion + ")"
  {
    ZkPaths.Description(pkgName, pkgVersion)
  }

  /** The node whose children are this endpoint's instrumentation scripts (`process_instrumentation`). */
  function InstrumentationPath(name: string): (p: string)
    ensures p == "/ddtrace/instrumentation/" + name
    ensures ZkPaths.ChildName(DdtraceInstrumentationPath, p) == Some(name)
  {
    ZkPaths.ChildNameOfChildPath(DdtraceInstrumentationPath, name);
    ZkPaths.ChildPath(DdtraceInstrumentationPath, name)
  }

  /**
   * The registration node and the watched node of one host are never the same
   * node, and two hosts with different names never share either node.
   */
  lemma PathsSeparateHosts(a: string, b: string)
    ensures RegistrationPath(a) != InstrumentationPath(b)
    ensures RegistrationPath(a) == RegistrationPath(b) ==> a == b
    ensures InstrumentationPath(a) == InstrumentationPath(b) ==> a == b
  {
    assert RegistrationPath(a)[9] == 'e';
    assert InstrumentationPath(b)[9] == 'i';
    if RegistrationPath(a) == RegistrationPath(b) {
      ZkPaths.ChildPathInjective(DdtraceEndpointsPath, a, b);
    }
    if InstrumentationPath(a) == InstrumentationPath(b) {
      ZkPaths.ChildPathInjective(DdtraceInstrumentationPath, a, b);
    }
  }

  /**
   * `struct InstrumentedEndpoint`: the registry, the host name, the log of
   * `Stop` messages sent, and whether the registry's mutex is poisoned.
   */
  class InstrumentedEndpoint {
    var instrumentation: map<string, Instrumentation>
    var stops: seq<Channel>
    var nextChannel: Channel
    var poisoned: bool
    const name: string

    ghost function State(): Registry.State
      reads this
    {
      Registry.State(instrumentation, stops, nextChannel, poisoned)
    }

    ghost predicate Valid()
      reads this
    {
      Registry.Valid(State())
    }

    /** The fields `InstrumentedEndpoint::new` sets, given the host name it read. */
    constructor (name: string)
      ensures Valid() && this.name == name
      ensures State() == Registry.Empty()
    {
      this.name := name;
      instrumentation := map[];
      stops := [];
      nextChannel := 0;
      poisoned := false;
    }

    /**
     * The `PathChildrenCache` listener installed by `process_instrumentation`.
     * `spawned` is whether `thread::Builder::spawn` succeeded, `listening`
     * whether the worker of a removed node still holds its receiver (it drops
     * it when `instrument_endpoint` returns), and `decode` is
     * `String::from_utf8_lossy`. A panic of the listener leaves the state as
     * it was at the panic, with the mutex poisoned.
     */
    method OnCacheEvent(e: CacheEvent, spawned: bool, listening: bool, decode: seq<byte> -> string)
      requires Valid()
      modifies this
      ensures Valid()
      ensures State() == Step(old(State()), e, spawned, listening, decode)
      ensures e.ChildAdded? ==> nextChannel == old(nextChannel) + 1 && stops == old(stops) && poisoned == old(poisoned)
      ensures e.ChildAdded? && spawned && !old(poisoned) ==>
        instrumentation == old(instrumentation)[e.path := Instrumentation(old(nextChannel), decode(e.data))]
      ensures e.ChildAdded? && (!spawned || old(poisoned)) ==> instrumentation == old(instrumentation)
      ensures e.ChildRemoved? && e.path in old(instrumentation) && !old(poisoned) && listening ==>
        && instrumentation == old(instrumentation) - {e.path}
        && stops == old(stops) + [old(instrumentation)[e.path].tx]
        && !poisoned
      ensures e.ChildRemoved? && e.path in old(instrumentation) && !old(poisoned) && !listening ==>
        && instrumentation == old(instrumentation) && stops == old(stops)
        && poisoned
      ensures e.ChildRemoved? && (e.path !in old(instrumentation) || old(poisoned)) ==> State() == old(State())
      ensures !e.ChildAdded? && !e.ChildRemoved? ==> State() == old(State())
    {
      StepPreservesValid(State(), e, spawned, listening, decode);
      match e {
        case ChildAdded(script, scriptData) =>
          var scriptStr := decode(scriptData);
          var tx := nextChannel;
          nextChannel := nextChannel + 1;
          if spawned && !poisoned {
            instrumentation := instrumentation[script := Instrumentation(tx, scriptStr)];
          }
        case ChildUpdated(_, _) =>
        case ChildRemoved(script) =>
          if !poisoned && script in instrumentation {
            if listening {
              stops := stops + [instrumentation[script].tx];
              instrumentation := instrumentation - {script};
            } else {
              poisoned := true;
            }
          }
        case Initialized =>
        case Other =>
      }
    }

    /** The create request of `register_endpoint`: node path and payload. */
    function RegisterEndpoint(pkgName: string, pkgVersion: string): (request: (string, string))
      reads this
      ensures request.0 == "/ddtrace/endpoints/" + name
      ensures request.1 == pkgName + " (" + pkgVersion + ")"
    {
      (RegistrationPath(name), RegistrationData(pkgName, pkgVersion))
    }
  }

  /**
   * `InstrumentedEndpoint::new`: read the host name (`gethostname` returned
   * `hostErr` and left `hostBuf`); `unwrap` panics on an error, which is
   * `None` here, otherwise a fresh endpoint named after the host with an
   * empty registry.
   */
  method NewEndpoint(hostErr: int, hostBuf: seq<byte>, decode: seq<byte> -> string) returns (r: Option<InstrumentedEndpoint>)
    ensures r.None? <==> hostErr != 0
    ensures r.Some? ==>
      && fresh(r.value) && r.value.Valid() && r.value.State() == Registry.Empty()
      && r.value.name == decode(Hostname.TruncateAtNul(hostBuf))
  {
    var hostname := Hostname.GetHostname(hostErr, hostBuf, decode);
    if hostname.Err? {
      return None;
    }
    var endpoint := new InstrumentedEndpoint(hostname.value);
    r := Some(endpoint);
  }
}
