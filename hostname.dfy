/**
 * `ddtrace_gethostname`: the local host's name, read through `gethostname`
 * into a 255-byte buffer and cut at the first NUL byte. Both agents carry the
 * same copy of this function.
 */
module Hostname {
  import opened Common

  /** The capacity of the buffer handed to `gethostname`. */
  const BufferLen := 255

  /** The bytes of `buf` before its first NUL; all of `buf` when it holds no NUL. */
  function TruncateAtNul(buf: seq<byte>): (name: seq<byte>)
    ensures |name| <= |buf| && name == buf[..|name|]
    ensures forall j :: 0 <= j < |name| ==> name[j] != 0
    ensures |name| < |buf| ==> buf[|name|] == 0
  {
    if buf == [] || buf[0] == 0 then []
    else [buf[0]] + TruncateAtNul(buf[1..])
  }

  /** The three properties of `TruncateAtNul` determine its result: any length with them is its length. */
  lemma TruncateAtNulUnique(buf: seq<byte>, k: nat)
    requires k <= |buf|
    requires forall j :: 0 <= j < k ==> buf[j] != 0
    requires k < |buf| ==> buf[k] == 0
    ensures TruncateAtNul(buf) == buf[..k]
  {
  }

  /**
   * `ddtrace_gethostname` with the scan bounded by the buffer: `err` is what
   * `gethostname` returned and `buf` the bytes it left in the buffer. A zero
   * return gives the lossy decoding of the bytes before the first NUL (of the
   * whole buffer when it holds none); any other return gives `Err`.
   */
  method GetHostname(err: int, buf: seq<byte>, decode: seq<byte> -> string) returns (r: Result<string>)
    ensures err != 0 ==> r == Err
    ensures err == 0 ==> r == Ok(decode(TruncateAtNul(buf)))
  {
    if err != 0 {
      return Err;
    }
    var realLen := |buf|;
    var i := 0;
    while i < |buf|
      invariant 0 <= i <= |buf|
      invariant forall j :: 0 <= j < i ==> buf[j] != 0
      invariant realLen == |buf|
    {
      if buf[i] == 0 {
        realLen := i;
        break;
      }
      i := i + 1;
    }
    TruncateAtNulUnique(buf, realLen);
    r := Ok(decode(buf[..realLen]));
  }

  /**
   * The scan as the source writes it: it reads byte after byte from the start
   * of the buffer until it meets a NUL, with no bound at the buffer's end.
   * `mem` is the memory from the buffer's start onward; the loop only stops if
   * it holds a NUL somewhere.
   */
  function ScanAsWritten(mem: seq<byte>): (n: nat)
    requires 0 in mem
    ensures n < |mem| && mem[n] == 0
    ensures forall j :: 0 <= j < n ==> mem[j] != 0
  {
    if mem[0] == 0 then 0
    else
      assert mem == [mem[0]] + mem[1..];
      1 + ScanAsWritten(mem[1..])
  }

  /**
   * A name that fills all 255 bytes without a NUL (a truncated name left
   * unterminated) makes the unbounded scan run past the buffer: with one more
   * non-NUL byte of memory after it, the length it computes is 256, beyond
   * the buffer's capacity, and `set_len` is then given that length.
   */
  lemma ScanOverrunsBuffer()
    ensures var mem := seq(BufferLen + 1, _ => 0x61 as byte) + [0];
      0 in mem && ScanAsWritten(mem) == BufferLen + 1 > BufferLen
  {
    var mem := seq(BufferLen + 1, _ => 0x61 as byte) + [0];
    assert mem[BufferLen + 1] == 0;
  }

  /** The bounded scan never reports a name longer than the buffer, whatever it holds. */
  lemma TruncateWithinBuffer(buf: seq<byte>)
    requires |buf| == BufferLen
    ensures |TruncateAtNul(buf)| <= BufferLen
  {
  }
}
