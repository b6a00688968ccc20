# rustyd instrumentation lifecycle — a Dafny model

This project models the sequential core of rustyd, a DTrace agent driven by
ZooKeeper. Each host registers itself as an ephemeral ZooKeeper node and
watches a node whose children are DTrace scripts. Each child that appears
gets a worker thread running `instrument_endpoint` on its script. When the
child disappears, the worker is sent `Stop`. The workers hand their output
to a transport library: a TCP one, and a Unix-socket one that takes its
socket path from a TOML configuration. Every I/O outcome (ZooKeeper results,
thread spawning, DTrace results, connects, writes) is an input of the model.

Modules, one per source file or shared concept:

- `Common`: `byte`, `Option`, `Result`.
- `ZkPaths`: `format!("{}/{}")` paths with their inverse, and the `"NAME (VERSION)"` payload.
- `Hostname`: `ddtrace_gethostname`. The two agents hold identical copies; the rows below cite the one in `agent/src/main.rs`.
- `Registry`: the value-level specification of the instrumentation `HashMap`. It holds the cache events, one `Step` per event and `Run` over a sequence of events. A `Valid` invariant says no channel is sent `Stop` twice and no live entry's channel has been sent `Stop`.
- `AgentMain`: `agent/src/main.rs`. Its `InstrumentedEndpoint` class has a listener method proved against `Registry.Step`, and the paths it registers and watches.
- `LegacyMain`: `src/main.rs`. Its class has the `for ev in ev_rx` loop proved against `Registry.Run` (ending at the first panic), plus `register_endpoint` and the broker split.
- `Instrument`: `agent/src/instrument/mod.rs`. It has the setup-then-loop worker, run against a DTrace oracle and returning the sequence of DTrace calls made. It also has the `chew`, `chewrec` and `buffered_handler` callbacks acting on the TCP transport's table.
- `TcpTransport`, `UnixSocketTransport`: the handle tables as classes over `map<int, stream>`.

The model follows what the code does, including where it falls short of the evident design:

- A second `ChildAdded` for a present node replaces the entry. The old entry is dropped, and the replaced worker is never sent `Stop`.
- `ChildUpdated` does nothing. The worker is not stopped or restarted.
- `ChildRemoved` sends `Stop` and removes the entry at once, without waiting for the worker to finish.
- `ChildRemoved` of a node whose worker has already returned panics. This happens after a failed open or compile, or after the worker's loop ended. The returned worker has dropped its receiver, so `send(Stop).unwrap()` fails while the registry's lock is held. The entry stays and the mutex is poisoned. In the legacy agent the panic also ends the loop's thread, so no later event is handled.
- Both transports always use handle 100. The workers' callbacks load the TCP transport by a fixed path, not by configuration.
- The legacy agent watches `/ddtrace/instrumentation` itself, not a per-host node, so every host runs every script.

Three consequences of the code are proved rather than assumed:

- `Registry.ReplacementOrphansOldWorker`: replacing an entry drops the old sender without a `Stop`.
- `Instrument.DisconnectedNeverStops`: a worker whose sender is gone sees `Disconnected` on every pass, and that forces `done` to false, so its loop never ends.
- `Registry.StopToReturnedWorkerPanics` and `Registry.RunEndsAtPanic`: removing a node whose worker has returned keeps its entry and poisons the mutex, and the rest of the legacy run changes nothing.

## Model

| member | source | states |
|---|---|---|
| `Hostname.TruncateAtNul` | agent/src/main.rs:161-171 | the name is a prefix of the buffer, holds no NUL, and is followed by a NUL unless it is the whole buffer |
| `Hostname.TruncateAtNulUnique` | agent/src/main.rs:161-171 | those three properties fix the name's length: the scan's stopping point is the only one |
| `Hostname.GetHostname` | agent/src/main.rs:151-177 | a non-zero `gethostname` return gives `Err`; zero gives the lossy decoding of exactly the bytes before the first NUL |
| `Hostname.ScanAsWritten` | agent/src/main.rs:161-171 | the unbounded scan as written stops at the first NUL of memory, wherever that is |
| `Hostname.ScanOverrunsBuffer` | agent/src/main.rs:161-171 | a full, unterminated 255-byte name followed by one more non-NUL byte makes the as-written scan report length 256, past the buffer |
| `Hostname.TruncateWithinBuffer` | agent/src/main.rs:152-171 | the bounded scan never reports more than the 255 bytes of the buffer |
| `ZkPaths.ChildName` | agent/src/main.rs:185 | reading a child name back from a path gives a name that rebuilds that path |
| `ZkPaths.ChildNameOfChildPath` | agent/src/main.rs:185 | reading the child name of `parent/child` gives back `child` |
| `ZkPaths.ChildPathInjective` | agent/src/main.rs:185 | different host names give different nodes under one parent |
| `ZkPaths.DescriptionFields` | agent/src/main.rs:186-187 | the payload is the package name, " (", the version and ")", each recoverable by position |
| `AgentMain.RegistrationPath` | agent/src/main.rs:185 | the registration node is `/ddtrace/endpoints/<name>` and its child name is the host name |
| `AgentMain.RegistrationData` | agent/src/main.rs:186-187 | the registration payload is `NAME (VERSION)` |
| `AgentMain.InstrumentationPath` | agent/src/main.rs:198-199 | the watched node is `/ddtrace/instrumentation/<name>` and its child name is the host name |
| `AgentMain.PathsSeparateHosts` | agent/src/main.rs:185-199 | a host's registration node is never any host's watched node, and distinct hosts get distinct nodes |
| `AgentMain.InstrumentedEndpoint.constructor` | agent/src/main.rs:94-100 | a new endpoint has the given name, an empty registry and an unpoisoned mutex |
| `AgentMain.NewEndpoint` | agent/src/main.rs:94-100 | a `gethostname` error panics in `unwrap`; otherwise a fresh endpoint named by the bytes before the first NUL, with an empty registry |
| `AgentMain.InstrumentedEndpoint.OnCacheEvent` | agent/src/main.rs:206-256 | ChildAdded always creates a channel; with a spawned thread and an unpoisoned mutex it maps the node to that channel and the decoded script; otherwise no entry changes. ChildRemoved of a present node, while unpoisoned, either sends one Stop and deletes the entry (the worker listens) or poisons the mutex and keeps the entry (the worker has returned). ChildRemoved of an absent node, or on a poisoned mutex, changes nothing, and so does every other event. The invariant is kept |
| `AgentMain.InstrumentedEndpoint.RegisterEndpoint` | agent/src/main.rs:180-192 | the create request is `/ddtrace/endpoints/<name>` with payload `NAME (VERSION)` |
| `Registry.Empty` | agent/src/main.rs:94-100 | the empty registry satisfies the invariant |
| `Registry.StepPreservesValid` | agent/src/main.rs:206-256 | each event keeps channels distinct, never sends a second Stop on a channel, and never sends Stop on a live entry's channel |
| `Registry.StopToReturnedWorkerPanics` | agent/src/main.rs:238-249 | a Stop sent to a worker that has returned poisons the mutex and leaves the entry and the Stop log unchanged |
| `Registry.ReplacementOrphansOldWorker` | agent/src/main.rs:216-227 | a second ChildAdded replaces the script and leaves the old channel in no entry and without a Stop |
| `Registry.RunEndsAtPanic` | src/main.rs:210-252 | once a prefix of the events has panicked the loop's thread, the run ends in the state it had at the panic |
| `Registry.ListeningWorkersNeverPanic` | src/main.rs:237-249 | a run whose every Stop reaches a listening worker never poisons the mutex |
| `Registry.RunFollowsLastChange` | src/main.rs:210-252 | after a run that did not panic, a node is present with the script of its last change exactly when that change was Added; absent when it was Removed; unchanged when it had none |
| `Registry.RunKeys` | src/main.rs:210-252 | the key set after a run that did not panic is exactly the nodes whose net effect is Added |
| `Registry.RunPreservesValid` | src/main.rs:210-252 | a whole run of events keeps the invariant, so no worker is ever sent Stop twice |
| `Registry.InterleavingIrrelevant` | src/main.rs:210-252 | runs that did not panic and agree on each node's own sequence of changes end with the same keys and scripts, however they interleave |
| `LegacyMain.Brokers` | src/main.rs:275-276 | the broker list has at least one element and no element contains a comma |
| `LegacyMain.JoinBrokers` | src/main.rs:275-276 | joining the brokers with "," gives back `flag_b` |
| `LegacyMain.BrokersOfJoin` | src/main.rs:275-276 | splitting comma-free fields joined by "," gives back those fields |
| `LegacyMain.InstrumentedEndpoint.constructor` | src/main.rs:68-76 | a new endpoint holds the split broker list, the output topic and an empty registry |
| `LegacyMain.InstrumentedEndpoint.HandleEvent` | src/main.rs:211-250 | one event changes the registry as `Registry.Step` with a successful spawn: insert or replace on ChildAdded, Stop and delete (or panic and poison) on ChildRemoved; the invariant is kept |
| `LegacyMain.InstrumentedEndpoint.ProcessInstrumentation` | src/main.rs:188-253 | if the cache fails to start nothing changes; otherwise the registry after the loop is the run of the events up to the first panic, and when nothing panicked it holds exactly the net-Added nodes |
| `LegacyMain.InstrumentedEndpoint.RegisterEndpoint` | src/main.rs:162-196 | a hostname error panics; otherwise the create request is `/ddtrace/<host>` with payload `NAME (VERSION)`. Only a successful create processes the events, on the shared node `/ddtrace/instrumentation`, and when the cache fails to start the registry is unchanged |
| `Instrument.ExitCondition` | agent/src/instrument/mod.rs:258-281 | a pass ends the loop exactly when it receives Stop, or receives nothing after DONE or an error other than EINTR |
| `Instrument.InterruptedIsTransient` | agent/src/instrument/mod.rs:260-278 | an EINTR error with an empty channel leaves `done` unchanged |
| `Instrument.FirstExit` | agent/src/instrument/mod.rs:251-282 | the loop's exit pass is the first pass whose tick ends it, and no earlier pass does |
| `Instrument.InstrumentEndpoint` | agent/src/instrument/mod.rs:197-289 | the calls and outcome equal `Expected`: open failure returns after the open; compile failure closes and returns; exec/go/handler failures exit(1); else sleep+work passes until the first exiting pass, then stop and close |
| `Instrument.CyclesCount` | agent/src/instrument/mod.rs:251-282 | n passes make n sleeps and n work calls and no stop or close |
| `Instrument.StoppedStopsThenClosesOnce` | agent/src/instrument/mod.rs:284-288 | after the loop, stop is called once and close once, as the last two calls in that order |
| `Instrument.WorkFollowsSleep` | agent/src/instrument/mod.rs:251-258 | every work call comes right after a sleep: `done` is always false at the top of a pass |
| `Instrument.ExitingTickEndsLoop` | agent/src/instrument/mod.rs:274-281 | a pass that receives Stop (or otherwise ends the loop) stops the worker within that many work calls |
| `Instrument.DisconnectedNeverStops` | agent/src/instrument/mod.rs:277-278 | when every receive is Disconnected the loop never ends and neither stop nor close is called |
| `Instrument.EarlyReturns` | agent/src/instrument/mod.rs:202-226 | an open error makes only the open call; a compile failure closes once and never works or stops |
| `Instrument.Chew` | agent/src/instrument/mod.rs:334-366 | a missing library or symbol consumes the next record and touches no stream; else `my_open` connects once, stores the stream at 100 and this record is consumed, or the connect panics and nothing changes |
| `Instrument.ChewRec` | agent/src/instrument/mod.rs:368-403 | a null record or action 2 consumes the next record, any other this one; a null record with the library loaded closes TCP handle 100; no connect is made |
| `Instrument.BufferedHandler` | agent/src/instrument/mod.rs:291-305 | a missing library or symbol gives -1; otherwise 0 exactly when handle 100 exists and the write succeeds |
| `TcpTransport.AtMostOneStream` | transport/tcp/src/lib.rs:71-78 | a table keyed only by handle 100 holds at most one stream |
| `TcpTransport.MyInit` | transport/tcp/src/lib.rs:56-59 | returns 0 |
| `TcpTransport.MyFini` | transport/tcp/src/lib.rs:62-65 | returns 0 |
| `TcpTransport.MyRead` | transport/tcp/src/lib.rs:83-86 | returns 100 |
| `TcpTransport.MyFlush` | transport/tcp/src/lib.rs:102-105 | returns 100 |
| `TcpTransport.HandleMap.constructor` | transport/tcp/src/lib.rs:43-46 | the table starts empty |
| `TcpTransport.HandleMap.MyOpen` | transport/tcp/src/lib.rs:68-73 | a successful connect stores a new stream to 127.0.0.1:34254 at 100, replacing any there, and returns 100; a failed one panics and changes nothing |
| `TcpTransport.HandleMap.MyClose` | transport/tcp/src/lib.rs:76-80 | removes handle 100 if present and always returns 100 |
| `TcpTransport.HandleMap.MyWrite` | transport/tcp/src/lib.rs:89-99 | 0 exactly when handle 100 is present and `write_all` succeeds, else -1 |
| `TcpTransport.CloseThenWrite` | transport/tcp/src/lib.rs:76-99 | a second close ends like the first, and a write after a close returns -1 |
| `UnixSocketTransport.ServerPathPresent` | transport/unix_socket/src/lib.rs:113-117 | a socket path is found exactly when `instrumentation`, `server` and `path` are all present |
| `UnixSocketTransport.Init` | transport/unix_socket/src/lib.rs:94-97 | returns 0 |
| `UnixSocketTransport.Fini` | transport/unix_socket/src/lib.rs:100-103 | returns 0 |
| `UnixSocketTransport.Context.constructor` | transport/unix_socket/src/lib.rs:74-79 | the table starts empty |
| `UnixSocketTransport.Context.Open` | transport/unix_socket/src/lib.rs:106-151 | returns 100 exactly when the text is UTF-8, parses, names a path and the connect succeeds, and then maps 100 to the new stream; otherwise returns -1 and leaves the table unchanged |
| `UnixSocketTransport.Context.Close` | transport/unix_socket/src/lib.rs:154-166 | removes the handle; 0 if it was present, -1 if not; other handles untouched |
| `UnixSocketTransport.Context.Write` | transport/unix_socket/src/lib.rs:169-189 | 0 exactly when the handle is present and the write succeeds, else -1; the table is unchanged |
| `UnixSocketTransport.Context.Flush` | transport/unix_socket/src/lib.rs:192-210 | 0 exactly when the handle is present and the flush succeeds, else -1; the table is unchanged |
| `UnixSocketTransport.Context.WriteAll` | transport/unix_socket/src/lib.rs:213-231 | 0 exactly when the handle is present and `write_all` succeeds, else -1; the table is unchanged |
| `UnixSocketTransport.StreamLifecycle` | transport/unix_socket/src/lib.rs:106-231 | after an open that connects, write, flush and close succeed; a second close and a later write return -1, and the table ends empty |

## Left out

- ZooKeeper: connecting, the ephemeral create, starting the `PathChildrenCache`, the state listener, `zk_connected` with its `exists_w` check, and closing the client are network calls. Their outcomes are inputs: `created`, `cacheStarted`, and the sequence of cache events.
- The main functions: signal handling, argument parsing, log setup, the loops that wait for SIGINT/SIGTERM, and logging. None of them changes the registry.
- Threads, channels and locks. A channel is a number; the `stops` log records every `Stop` delivered, in order. Worker threads are not run alongside the registry; the worker is modelled on its own by `Instrument.InstrumentEndpoint`. Whether a removed node's worker still holds its receiver is an input (`listening`); it stops holding it when `instrument_endpoint` returns. Lock poisoning is a flag in the registry state.
- `AgentMain.InstrumentedEndpoint.OnCacheEvent`: after the listener panics, the model keeps delivering events to it. Whether the cache's own thread survives a panicking listener is decided in the `zookeeper` crate, which is not part of this model.
- Locking. In both listeners the guard from `lock()` in the `match` on `ChildRemoved` is still held when `lock()` is called again to remove the entry (agent/src/main.rs:240-243, src/main.rs:239-242). A std `Mutex` blocks or panics there. The model follows the evident intent: send `Stop`, then remove.
- `String::from_utf8_lossy` is a function parameter `decode`. UTF-8 decoding is not modelled.
- The legacy loop handles a finite sequence of events; the source's `for ev in ev_rx` runs as long as the channel lives. `thread::spawn` there is assumed to succeed: a spawn failure panics the loop's thread.
- The package name and version (`env!("CARGO_PKG_NAME")`, `env!("CARGO_PKG_VERSION")`) come from build metadata that is not part of this model, so they are parameters.
- DTrace and libxo: every call is an oracle result or an entry in the call trace. Option values are recorded as given. `dtrace_errmsg`, `dtrace_errno` text and the libxo handle that `chew` creates and `chewrec` finishes are not modelled. `process::exit(1)` is the outcome `Exited(1)`. `ddtrace_xo_write` always returns 0 and is not modelled.
- `Instrument.InstrumentEndpoint`: the `Ok(_) => done` arm of `try_recv` is not modelled. The message type has only `Stop`, so that arm cannot be taken. When the oracle's ticks run out before an exit, the outcome is `Running`.
- Library loading (`libloading`) is an input: `LibraryMissing`, `SymbolMissing` or `Loaded`. The model assumes the TCP library's handle table survives from one load to the next.
- Stream contents: bytes written, `BufWriter` buffering and partial writes are not modelled. A stream is its peer (or path) plus the number of the connect that made it.
- The Unix-socket `Context.conn_id` is a random number that is never used, so it is left out. UTF-8 checking and TOML parsing of the configuration are inputs (`ConfigText`).
- `transport/kafka/src/lib.rs` holds constant-returning stubs plus a network send, so it is not modelled.
- Stop-and-restart on update, per-session transport handles and a shutdown sweep of the registry are not in the code, so they are not modelled.

## Findings

| source | as written | input that shows it | evidently intended | confidence | as-written member | corrected member |
|---|---|---|---|---|---|---|
| agent/src/main.rs:161-171 (the same at src/main.rs:115-125) | the scan for NUL has no bound at the 255-byte buffer; the default `real_len = len` is never used | `gethostname` returns 0 and leaves 255 non-NUL bytes (a truncated name left unterminated), and the next byte of memory is not NUL: the scan reads past the buffer and passes a length of 256 to `set_len` | stop at the buffer's end and take all 255 bytes when there is no NUL | medium (depends on the platform leaving a truncated name unterminated); not executed | `Hostname.ScanAsWritten` (shown by `Hostname.ScanOverrunsBuffer`) | `Hostname.GetHostname` (with `Hostname.TruncateAtNul`, `Hostname.TruncateWithinBuffer`) |
