/**
 * The Unix-socket transport library: `dt_transport_*` over a process-wide
 * table from handle to a buffered `UnixStream`. The socket path comes from the
 * `[instrumentation.server] path` entry of a TOML configuration.
 */
module UnixSocketTransport {
  import opened Common

  const InvalidHandle := -1
  /** The handle every successful open stores and returns. */
  const ConnHandle := 100

  /** `struct ServerConfig`. */
  datatype ServerConfig = ServerConfig(path: Option<string>)
  /** `struct Instrumentation` of the configuration. */
  datatype InstrumentationConfig = InstrumentationConfig(server: Option<ServerConfig>)
  /** `struct Config`. */
  datatype Config = Config(instrumentation: Option<InstrumentationConfig>)

  /**
   * The configuration argument after its two library steps: `CStr::to_str`
   * (valid UTF-8 or not) and `toml::from_str::<Config>` (parsed or not).
   */
  datatype ConfigText = NotUtf8 | Utf8(parsed: Option<Config>)

  /** The `and_then` chain: the socket path when all three levels are present. */
  function ServerPath(c: Config): (p: Option<string>)
  {
    match c.instrumentation
    case None => None
    case Some(i) =>
      match i.server
      case None => None
      case Some(server) => server.path
  }

  /** `ServerPath` finds a path exactly when the configuration names `[instrumentation.server] path`. */
  lemma ServerPathPresent(c: Config, path: string)
    ensures ServerPath(c) == Some(path) <==>
      c == Config(Some(InstrumentationConfig(Some(ServerConfig(Some(path))))))
  {
  }

  /** A buffered stream connected to a socket path, numbered by the connect that made it. */
  datatype UnixStream = UnixStream(path: string, serial: nat)

  /** `dt_transport_init`: nothing to set up. */
  function Init(): (status: int)
    ensures status == 0
  {
    0
  }

  /** `dt_transport_fini`: nothing to tear down. */
  function Fini(): (status: int)
    ensures status == 0
  {
    0
  }

  /** `CONTEXT`: the table from handle to stream, and the number of connects made so far. */
  class Context {
    var handleMap: map<int, UnixStream>
    var connects: nat

    /** Only handle 100 is ever a key, and every stream came from an earlier connect. */
    ghost predicate Valid()
      reads this
    {
      && handleMap.Keys <= {ConnHandle}
      && forall h :: h in handleMap ==> handleMap[h].serial < connects
    }

    /** `Context::new`: an empty table. */
    constructor ()
      ensures Valid() && handleMap == map[] && connects == 0
    {
      handleMap := map[];
      connects := 0;
    }

    /**
     * `dt_transport_open`: read the configuration and, when it names a socket
     * path, connect to it (`connected` is the outcome). A successful connect
     * stores the stream under handle 100, replacing any stream there, and
     * returns 100; every other path returns -1 and leaves the table alone.
     */
    method Open(config: ConfigText, connected: bool) returns (handle: int)
      requires Valid()
      modifies this
      ensures Valid()
      ensures handle == ConnHandle || handle == InvalidHandle
      ensures handle == ConnHandle <==>
        config.Utf8? && config.parsed.Some? && ServerPath(config.parsed.value).Some? && connected
      ensures handle == ConnHandle ==>
        && handleMap == old(handleMap)[ConnHandle := UnixStream(ServerPath(config.parsed.value).value, old(connects))]
        && connects == old(connects) + 1
      ensures handle == InvalidHandle ==> handleMap == old(handleMap) && connects == old(connects)
    {
      if config.NotUtf8? || config.parsed.None? {
        return InvalidHandle;
      }
      var path := ServerPath(config.parsed.value);
      if path.None? || !connected {
        return InvalidHandle;
      }
      var buffer := UnixStream(path.value, connects);
      connects := connects + 1;
      handleMap := handleMap[ConnHandle := buffer];
      handle := ConnHandle;
    }

    /** `dt_transport_close`: remove the handle's stream (closing it); 0 if it was there, -1 if not. */
    method Close(handle: int) returns (status: int)
      requires Valid()
      modifies this
      ensures Valid()
      ensures status == (if handle in old(handleMap) then 0 else -1)
      ensures handleMap == old(handleMap) - {handle} && connects == old(connects)
    {
      if handle in handleMap {
        handleMap := handleMap - {handle};
        status := 0;
      } else {
        status := -1;
      }
    }

    /**
     * `dt_transport_write`: write the data to the handle's stream (`ok` is
     * the write's outcome); -1 for an unknown handle or a failed write, else 0.
     */
    method Write(handle: int, data: seq<byte>, ok: bool) returns (status: int)
      ensures status == 0 <==> handle in handleMap && ok
      ensures status == 0 || status == -1
    {
      if handle in handleMap {
        status := if ok then 0 else -1;
      } else {
        status := -1;
      }
    }

    /** `dt_transport_flush`: flush the handle's stream; -1 for an unknown handle or a failed flush, else 0. */
    method Flush(handle: int, ok: bool) returns (status: int)
      ensures status == 0 <==> handle in handleMap && ok
      ensures status == 0 || status == -1
    {
      if handle in handleMap {
        status := if ok then 0 else -1;
      } else {
        status := -1;
      }
    }

    /** `dt_transport_writeall`: write all the data to the handle's stream; -1 for an unknown handle or a failure, else 0. */
    method WriteAll(handle: int, data: seq<byte>, ok: bool) returns (status: int)
      ensures status == 0 <==> handle in handleMap && ok
      ensures status == 0 || status == -1
    {
      if handle in handleMap {
        status := if ok then 0 else -1;
      } else {
        status := -1;
      }
    }
  }

  /**
   * One stream's life: a successful open, writes, a flush and a close, then a
   * second close and a write on the closed handle. After the open every
   * operation reaches the stream; after the close none does.
   */
  method StreamLifecycle(ctx: Context, config: ConfigText, data: seq<byte>)
      returns (handle: int, written: int, flushed: int, closed: int, closedAgain: int, late: int)
    requires ctx.Valid()
    requires config.Utf8? && config.parsed.Some? && ServerPath(config.parsed.value).Some?
    modifies ctx
    ensures handle == ConnHandle && written == 0 && flushed == 0 && closed == 0
    ensures closedAgain == InvalidHandle && late == InvalidHandle
    ensures ctx.Valid() && ctx.handleMap == map[]
  {
    handle := ctx.Open(config, true);
    written := ctx.Write(handle, data, true);
    flushed := ctx.Flush(handle, true);
    closed := ctx.Close(handle);
    closedAgain := ctx.Close(handle);
    late := ctx.WriteAll(handle, data, true);
  }
}
