/**
 * The DTrace worker (`agent/src/instrument/mod.rs`). `instrument_endpoint`
 * opens and starts a DTrace session for one script and then runs the
 * consumer loop until it is told to stop or DTrace finishes; the callbacks
 * `chew`, `chewrec` and `buffered_handler` decide how records are consumed and
 * hand buffered output to the TCP transport library.
 *
 * DTrace itself is an oracle: a `Driver` value supplies the result of every
 * library call, and the worker's observable behaviour is the sequence of
 * library calls it makes.
 */
module Instrument {
  import opened Common
  import TcpTransport

  /** The errno value the worker treats as an interrupted call. */
  const EINTR := 9959
  const ConsumeNext := 1
  const ConsumeThis := 0

  /** `dtrace_workstatus_t`. */
  datatype WorkStatus = WorkError | WorkOkay | WorkDone

  /** What `rx.try_recv()` gives: a `Stop` message, nothing yet, or a sender that is gone. */
  datatype Received = Stop | Empty | Disconnected

  /** What one pass of the consumer loop observes: the work status, `dtrace_errno` and the receive. */
  datatype Tick = Tick(status: WorkStatus, errno: int, received: Received)

  /** The DTrace library calls the worker makes (queries such as `dtrace_errmsg` are left out). */
  datatype DriverCall =
    | Open | SetOpt(option: string, value: string) | Compile | Exec | Go | HandleBuffered
    | Sleep | Work | StopTracing | Close

  /**
   * The results DTrace gives: the error of `dtrace_open`, whether the script
   * compiled, the statuses of `dtrace_program_exec`, `dtrace_go` and
   * `dtrace_handle_buffered`, and one `Tick` per pass of the loop.
   */
  datatype Driver = Driver(openErr: int, compiled: bool, execStatus: int, goStatus: int,
                           bufferedStatus: int, ticks: seq<Tick>)

  /**
   * How the worker ends: it returns early after a failed open or compile,
   * exits the process, returns after stopping and closing DTrace, or is still
   * in its loop when the oracle's ticks run out.
   */
  datatype Outcome = OpenFailed | CompileFailed | Exited(code: int) | Stopped | Running

  /** The calls made and the outcome. */
  datatype Session = Session(trace: seq<DriverCall>, outcome: Outcome)

  /** The four options set right after the open. */
  const Options: seq<DriverCall> :=
    [SetOpt("bufsize", "4m"), SetOpt("aggsize", "4m"), SetOpt("temporal", "4m"), SetOpt("arch", "x86_64")]

  /** The calls made before the loop when every setup step succeeds. */
  const Prologue: seq<DriverCall> := [Open] + Options + [Compile, Exec, Go, HandleBuffered]

  /** The new value of `done` after one pass of the loop that started with `done`. */
  function NextDone(done: bool, t: Tick): bool
  {
    var afterWork :=
      match t.status
      case WorkError => if t.errno != EINTR then true else done
      case WorkOkay => false
      case WorkDone => true;
    match t.received
    case Stop => true
    case Empty => afterWork
    case Disconnected => false
  }

  /**
   * Every pass starts with `done` false, so a pass ends the loop exactly when
   * it receives `Stop`, or receives nothing and the work reported DONE or an
   * error other than EINTR.
   */
  lemma ExitCondition(t: Tick)
    ensures NextDone(false, t) <==>
      || t.received == Stop
      || (t.received == Empty && (t.status == WorkDone || (t.status == WorkError && t.errno != EINTR)))
  {
  }

  /** An EINTR error with nothing received leaves `done` as it was: the pass is retried. */
  lemma InterruptedIsTransient(done: bool, t: Tick)
    requires t.status == WorkError && t.errno == EINTR && t.received == Empty
    ensures NextDone(done, t) == done
  {
  }

  /** `n` passes of the loop, each a sleep followed by a work call. */
  function Cycles(n: nat): seq<DriverCall>
  {
    if n == 0 then [] else Cycles(n - 1) + [Sleep, Work]
  }

  /** The index of the first pass that ends the loop, if any. */
  function FirstExit(ticks: seq<Tick>): (r: Option<nat>)
    ensures r.Some? ==> r.value < |ticks| && NextDone(false, ticks[r.value])
    ensures r.Some? ==> forall j :: 0 <= j < r.value ==> !NextDone(false, ticks[j])
    ensures r.None? ==> forall j :: 0 <= j < |ticks| ==> !NextDone(false, ticks[j])
  {
    if ticks == [] then None
    else if NextDone(false, ticks[0]) then Some(0)
    else match FirstExit(ticks[1..])
      case None => None
      case Some(k) => Some(k + 1)
  }

  /** Whether every setup step succeeds, so that the loop is entered. */
  predicate Started(d: Driver)
  {
    d.openErr == 0 && d.compiled && d.execStatus != -1 && d.goStatus == 0 && d.bufferedStatus != -1
  }

  /** The calls and outcome of `instrument_endpoint` for the oracle `d`. */
  function Expected(d: Driver): Session
  {
    if d.openErr != 0 then Session([Open], OpenFailed)
    else if !d.compiled then Session([Open] + Options + [Compile, Close], CompileFailed)
    else if d.execStatus == -1 then Session([Open] + Options + [Compile, Exec], Exited(1))
    else if d.goStatus != 0 then Session([Open] + Options + [Compile, Exec, Go], Exited(1))
    else if d.bufferedStatus == -1 then Session(Prologue, Exited(1))
    else match FirstExit(d.ticks)
      case Some(k) => Session(Prologue + Cycles(k + 1) + [StopTracing, Close], Stopped)
      case None => Session(Prologue + Cycles(|d.ticks|), Running)
  }

  /**
   * `instrument_endpoint`: set up DTrace, then run the do-while loop that
   * sleeps while `done` is false, calls `dtrace_work`, updates `done` from the
   * work status and from `try_recv`, and repeats while `done` is false; then
   * stop and close.
   */
  method InstrumentEndpoint(d: Driver) returns (trace: seq<DriverCall>, outcome: Outcome)
    ensures Session(trace, outcome) == Expected(d)
  {
    trace := [Open];
    if d.openErr != 0 {
      return trace, OpenFailed;
    }
    trace := trace + Options + [Compile];
    if !d.compiled {
      trace := trace + [Close];
      return trace, CompileFailed;
    }
    trace := trace + [Exec];
    if d.execStatus == -1 {
      return trace, Exited(1);
    }
    trace := trace + [Go];
    if d.goStatus != 0 {
      return trace, Exited(1);
    }
    trace := trace + [HandleBuffered];
    if d.bufferedStatus == -1 {
      return trace, Exited(1);
    }

    var done := false;
    var i := 0;
    while true
      invariant 0 <= i <= |d.ticks|
      invariant !done
      invariant trace == Prologue + Cycles(i)
      invariant forall j :: 0 <= j < i ==> !NextDone(false, d.ticks[j])
      decreases |d.ticks| - i
    {
      if i == |d.ticks| {
        return trace, Running;
      }
      if done == false {
        trace := trace + [Sleep];
      }
      trace := trace + [Work];
      var t := d.ticks[i];
      match t.status {
        case WorkError =>
          if t.errno != EINTR {
            done := true;
          }
        case WorkOkay =>
          done := false;
        case WorkDone =>
          done := true;
      }
      done := match t.received
        case Stop => true
        case Empty => done
        case Disconnected => false;
      i := i + 1;
      if done {
        break;
      }
    }
    trace := trace + [StopTracing, Close];
    outcome := Stopped;
  }

  /** `n` passes make `n` sleeps and `n` work calls and nothing else. */
  lemma {:induction false} CyclesCount(n: nat)
    ensures |Cycles(n)| == 2 * n
    ensures multiset(Cycles(n))[Work] == n && multiset(Cycles(n))[Sleep] == n
    ensures StopTracing !in Cycles(n) && Close !in Cycles(n)
  {
    if n > 0 {
      CyclesCount(n - 1);
      assert multiset(Cycles(n)) == multiset(Cycles(n - 1)) + multiset{Sleep, Work};
    }
  }

  /** The passes alternate: even positions are sleeps, odd positions work calls. */
  lemma {:induction false} CyclesAt(n: nat, i: nat)
    requires i < 2 * n
    ensures |Cycles(n)| == 2 * n
    ensures Cycles(n)[i] == (if i % 2 == 0 then Sleep else Work)
  {
    CyclesCount(n);
    if i < 2 * (n - 1) {
      CyclesAt(n - 1, i);
    }
  }

  /** The calls after a successful setup: the prologue, `n` passes and possibly the stop and close. */
  lemma StartedTrace(d: Driver) returns (n: nat)
    requires Started(d)
    ensures Expected(d).outcome == Stopped ==>
      && FirstExit(d.ticks).Some? && n == FirstExit(d.ticks).value + 1
      && Expected(d).trace == Prologue + Cycles(n) + [StopTracing, Close]
    ensures Expected(d).outcome != Stopped ==>
      && Expected(d).outcome == Running && FirstExit(d.ticks).None?
      && n == |d.ticks| && Expected(d).trace == Prologue + Cycles(n)
  {
    n := if FirstExit(d.ticks).Some? then FirstExit(d.ticks).value + 1 else |d.ticks|;
  }

  /** The prologue holds one open and one compile, and no sleep, work, stop or close. */
  lemma PrologueCalls()
    ensures |Prologue| == 9
    ensures multiset(Prologue)[Work] == 0 && multiset(Prologue)[Sleep] == 0
    ensures StopTracing !in Prologue && Close !in Prologue
  {
  }

  /**
   * When the loop ends, DTrace is stopped exactly once and closed exactly
   * once, in that order, as the last two calls.
   */
  lemma StoppedStopsThenClosesOnce(d: Driver)
    requires Expected(d).outcome == Stopped
    ensures var t := Expected(d).trace;
      && |t| >= 2 && t[|t| - 2..] == [StopTracing, Close]
      && multiset(t)[StopTracing] == 1 && multiset(t)[Close] == 1
  {
    var n := StartedTrace(d);
    CyclesCount(n);
    PrologueCalls();
    var body := Prologue + Cycles(n);
    assert StopTracing !in body && Close !in body;
    assert multiset(body)[StopTracing] == 0 && multiset(body)[Close] == 0;
    assert multiset(body + [StopTracing, Close]) == multiset(body) + multiset{StopTracing, Close};
  }

  /** In the prologue followed by `n` passes, every work call comes right after a sleep. */
  lemma PassesWorkFollowsSleep(n: nat, i: nat)
    requires i < |Prologue + Cycles(n)| && (Prologue + Cycles(n))[i] == Work
    ensures i > 0 && (Prologue + Cycles(n))[i - 1] == Sleep
  {
    PrologueCalls();
    CyclesCount(n);
    var body := Prologue + Cycles(n);
    if i >= 9 {
      assert body[i] == Cycles(n)[i - 9];
      CyclesAt(n, i - 9);
      CyclesAt(n, i - 10);
      assert body[i - 1] == Cycles(n)[i - 10];
    }
  }

  /** Every `dtrace_work` call comes right after a `dtrace_sleep` call. */
  lemma WorkFollowsSleep(d: Driver, i: nat)
    requires i < |Expected(d).trace| && Expected(d).trace[i] == Work
    ensures i > 0 && Expected(d).trace[i - 1] == Sleep
  {
    if Started(d) {
      var n := StartedTrace(d);
      var t := Expected(d).trace;
      var body := Prologue + Cycles(n);
      assert t[..|body|] == body;
      if i < |body| {
        PassesWorkFollowsSleep(n, i);
        assert t[i - 1] == body[i - 1];
      }
    }
  }

  /**
   * A pass that ends the loop, such as one that receives `Stop`, ends it on
   * that pass: the worker stops, and no more than that many work calls were made.
   */
  lemma ExitingTickEndsLoop(d: Driver, k: nat)
    requires Started(d) && k < |d.ticks| && NextDone(false, d.ticks[k])
    ensures Expected(d).outcome == Stopped
    ensures multiset(Expected(d).trace)[Work] <= k + 1
  {
    var n := StartedTrace(d);
    CyclesCount(n);
    PrologueCalls();
    var t := Expected(d).trace;
    assert multiset(t) == multiset(Prologue) + multiset(Cycles(n)) + multiset{StopTracing, Close};
  }

  /**
   * Once the sending side of the channel is gone, the loop never ends: a
   * disconnected receive forces `done` to false, even after DONE or an error.
   */
  lemma DisconnectedNeverStops(d: Driver)
    requires Started(d)
    requires forall j :: 0 <= j < |d.ticks| ==> d.ticks[j].received == Disconnected
    ensures Expected(d).outcome == Running
    ensures StopTracing !in Expected(d).trace && Close !in Expected(d).trace
  {
    var n := StartedTrace(d);
    CyclesCount(n);
    PrologueCalls();
  }

  /**
   * A failed open returns before compiling, stopping or closing; a failed
   * compile closes DTrace once and never enters the loop.
   */
  lemma EarlyReturns(d: Driver)
    ensures d.openErr != 0 ==> Expected(d).trace == [Open]
    ensures d.openErr == 0 && !d.compiled ==>
      && multiset(Expected(d).trace)[Close] == 1
      && Work !in Expected(d).trace
      && StopTracing !in Expected(d).trace
  {
    if d.openErr == 0 && !d.compiled {
      var t := Expected(d).trace;
      assert t == [Open] + Options + [Compile, Close];
      assert multiset(t) == multiset{Open} + multiset(Options) + multiset{Compile, Close};
    }
  }

  /** Whether the callback could load the TCP transport library and find the symbol it wants. */
  datatype LibraryLoad = LibraryMissing | SymbolMissing | Loaded

  /**
   * `chew`, the per-probe callback: load the transport and call `my_open`
   * (`connected` is the connect's outcome); consume the next record when the
   * library or symbol is missing, this record otherwise.
   */
  method Chew(lib: LibraryLoad, tcp: TcpTransport.HandleMap, connected: bool) returns (r: TcpTransport.Return)
    requires tcp.Valid()
    modifies tcp
    ensures tcp.Valid()
    ensures lib != Loaded ==>
      && r == TcpTransport.Returned(ConsumeNext)
      && tcp.streams == old(tcp.streams) && tcp.connects == old(tcp.connects)
    ensures lib == Loaded && connected ==>
      && r == TcpTransport.Returned(ConsumeThis)
      && tcp.streams == old(tcp.streams)[TcpTransport.ConnHandle := TcpTransport.TcpStream(TcpTransport.ServerAddress, old(tcp.connects))]
      && tcp.connects == old(tcp.connects) + 1
    ensures lib == Loaded && !connected ==>
      && r == TcpTransport.Panicked
      && tcp.streams == old(tcp.streams) && tcp.connects == old(tcp.connects)
  {
    if lib != Loaded {
      return TcpTransport.Returned(ConsumeNext);
    }
    var open := tcp.MyOpen(connected);
    if open.Panicked? {
      return TcpTransport.Panicked;
    }
    r := TcpTransport.Returned(ConsumeThis);
  }

  /**
   * `chewrec`, the per-record callback. The end of a probe's records (a null
   * record) closes the transport through `my_close` when the library loads,
   * and consumes the next record; a record with action 2 consumes the next
   * record; any other record is consumed.
   */
  method ChewRec(rec: Option<int>, lib: LibraryLoad, tcp: TcpTransport.HandleMap) returns (code: int)
    requires tcp.Valid()
    modifies tcp
    ensures tcp.Valid()
    ensures code == (if rec.None? || rec.value == 2 then ConsumeNext else ConsumeThis)
    ensures tcp.streams == if rec.None? && lib == Loaded then old(tcp.streams) - {TcpTransport.ConnHandle} else old(tcp.streams)
    ensures tcp.connects == old(tcp.connects)
  {
    if rec.None? {
      if lib != Loaded {
        return ConsumeNext;
      }
      var _ := tcp.MyClose();
      return ConsumeNext;
    }
    if rec.value == 2 {
      code := ConsumeNext;
    } else {
      code := ConsumeThis;
    }
  }

  /**
   * `buffered_handler`: hand the buffered output to the transport's
   * `my_write` (`written` is the outcome of its `write_all`); -1 when the
   * library or symbol is missing, otherwise what `my_write` returns.
   */
  method BufferedHandler(lib: LibraryLoad, tcp: TcpTransport.HandleMap, data: seq<byte>, written: bool) returns (status: int)
    ensures lib != Loaded ==> status == -1
    ensures lib == Loaded ==> (status == 0 <==> TcpTransport.ConnHandle in tcp.streams && written)
    ensures status == 0 || status == -1
  {
    if lib != Loaded {
      return -1;
    }
    status := tcp.MyWrite(data, written);
  }
}
