/**
 * The TCP transport library (`libddtrace_tcp`): a process-wide table from
 * handle to `TcpStream`, in which the only handle ever used is 100.
 */
module TcpTransport {
  import opened Common

  /** The one handle the library hands out and looks up. */
  const ConnHandle := 100
  /** The peer that `my_open` connects to. */
  const ServerAddress := "127.0.0.1:34254"

  /** One connected stream: its peer and the number of the connect that made it. */
  datatype TcpStream = TcpStream(peer: string, serial: nat)

  /** What a call into the library does: return a status, or panic (an `unwrap` on an error). */
  datatype Return = Returned(status: int) | Panicked

  /** At most one stream can be in a table whose keys are all the one handle. */
  lemma {:induction false} AtMostOneStream(m: map<int, TcpStream>)
    requires m.Keys <= {ConnHandle}
    ensures |m| <= 1
  {
    if m.Keys != {} {
      assert m.Keys == {ConnHandle};
    }
    assert |m.Keys| == |m|;
  }

  /** `my_init`: nothing to set up. */
  function MyInit(): (status: int)
    ensures status == 0
  {
    0
  }

  /** `my_fini`: nothing to tear down. */
  function MyFini(): (status: int)
    ensures status == 0
  {
    0
  }

  /** `my_read`: reading is not implemented; the handle value is returned. */
  function MyRead(): (status: int)
    ensures status == ConnHandle
  {
    ConnHandle
  }

  /** `my_flush`: flushing is not implemented; the handle value is returned. */
  function MyFlush(): (status: int)
    ensures status == ConnHandle
  {
    ConnHandle
  }

  /** `HANDLE_MAP`: the streams by handle, and the number of connects made so far. */
  class HandleMap {
    var streams: map<int, TcpStream>
    var connects: nat

    /** Only handle 100 is ever a key, every stream goes to the fixed peer and came from an earlier connect. */
    ghost predicate Valid()
      reads this
    {
      && streams.Keys <= {ConnHandle}
      && forall h :: h in streams ==> streams[h].peer == ServerAddress && streams[h].serial < connects
    }

    /** The table as `lazy_static!` first builds it: empty. */
    constructor ()
      ensures Valid() && streams == map[] && connects == 0
    {
      streams := map[];
      connects := 0;
    }

    /**
     * `my_open`: connect to the fixed peer (`connected` is the outcome) and
     * store the stream under handle 100, replacing (and so closing) any
     * stream stored there before. A failed connect panics in `unwrap`.
     */
    method MyOpen(connected: bool) returns (r: Return)
      requires Valid()
      modifies this
      ensures Valid()
      ensures connected ==>
        && r == Returned(ConnHandle)
        && streams == old(streams)[ConnHandle := TcpStream(ServerAddress, old(connects))]
        && connects == old(connects) + 1
      ensures !connected ==> r == Panicked && streams == old(streams) && connects == old(connects)
    {
      if !connected {
        return Panicked;
      }
      var stream := TcpStream(ServerAddress, connects);
      connects := connects + 1;
      streams := streams[ConnHandle := stream];
      r := Returned(ConnHandle);
    }

    /** `my_close`: drop the stream under handle 100, if any; always returns 100. */
    method MyClose() returns (status: int)
      requires Valid()
      modifies this
      ensures Valid()
      ensures status == ConnHandle
      ensures streams == old(streams) - {ConnHandle} && connects == old(connects)
    {
      streams := streams - {ConnHandle};
      status := ConnHandle;
    }

    /**
     * `my_write`: `write_all` the data to the stream under handle 100
     * (`written` is its outcome); -1 when there is no stream or the write
     * fails, 0 otherwise. The table is not changed.
     */
    method MyWrite(data: seq<byte>, written: bool) returns (status: int)
      ensures status == 0 <==> ConnHandle in streams && written
      ensures status == 0 || status == -1
    {
      if ConnHandle in streams {
        status := if written then 0 else -1;
      } else {
        status := -1;
      }
    }
  }

  /**
   * Closing twice ends like closing once, and a write after a close fails
   * whatever the stream would have done.
   */
  method CloseThenWrite(t: HandleMap, data: seq<byte>, written: bool) returns (first: int, second: int, status: int)
    requires t.Valid()
    modifies t
    ensures first == second == ConnHandle && status == -1
    ensures t.Valid() && t.streams == old(t.streams) - {ConnHandle}
  {
    first := t.MyClose();
    second := t.MyClose();
    status := t.MyWrite(data, written);
  }
}
