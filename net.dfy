/**
 * The connection underneath both socket variants: a `net.Conn` wrapped in a
 * `bufio.ReadWriter`. Reads, writes, flushes and closes are library calls, so their
 * outcomes come from scripts handed to the connection when it is accepted:
 *   - `input` is the bytes the peer has sent that can still be peeked at;
 *   - `incoming` is what successive calls of the socket's `read` return;
 *   - `faults` is the outcome of successive writes, flushes and closes
 *     (`None` succeeds, `Some(e)` fails with `e`; once it is used up every call succeeds).
 * What reaches the peer is `wire`; what sits in the bufio writer is `buffered`; `log`
 * records every call in order.
 */
module Net {
  import opened Wrappers

  /** An octet. */
  type Byte = b: int | 0 <= b < 256

  /**
   * A console command that runs while the connection goroutine waits in a read. The console
   * reloads only right after storing a new port or ip, so a reload carries the address as
   * the console left it.
   */
  datatype Command = CloseCmd | ExitCmd | ReloadCmd(ip: string, port: nat)

  /** One call of a socket's read: a line or text frame, an error, or the console acting meanwhile. */
  datatype ReadEvent = Got(line: string) | ReadFailed(message: string) | Console(cmd: Command)

  /** A unit of output: raw text, a text frame, a close frame with its payload, or the answer to an upgrade request. */
  datatype Piece = Raw(text: string) | TextFrame(text: string) | CloseFrame(payload: seq<Byte>) | HandshakeReply

  datatype Op = BufferedWrite(piece: Piece) | FlushOp | CloseOp | DirectWrite(text: string)

  /** The outcome of the `i`-th call from now, given the fault script. */
  function FaultAt(faults: seq<Option<string>>, i: nat): Option<string>
  {
    if i < |faults| then faults[i] else None
  }

  /** The script left after `k` calls. */
  function Drop<T>(script: seq<T>, k: nat): (r: seq<T>)
    ensures |r| == if k <= |script| then |script| - k else 0
  {
    if k <= |script| then script[k..] else []
  }

  lemma {:induction false} DropShifts(faults: seq<Option<string>>, k: nat, i: nat)
    ensures FaultAt(Drop(faults, k), i) == FaultAt(faults, k + i)
  {
    if k <= |faults| && i < |faults| - k {
      assert Drop(faults, k)[i] == faults[k + i];
    }
  }

  lemma DropDrop<T>(script: seq<T>, j: nat, k: nat)
    ensures Drop(Drop(script, j), k) == Drop(script, j + k)
  {
    if j + k <= |script| {
      assert script[j..][k..] == script[j + k..];
    }
  }

  /** The first error of a run of calls that were all attempted, in order. */
  function FirstError(errs: seq<Option<string>>): (r: Option<string>)
    ensures r.None? <==> forall i :: 0 <= i < |errs| ==> errs[i].None?
    ensures r.Some? ==> exists i :: 0 <= i < |errs| && errs[i] == r && forall j :: 0 <= j < i ==> errs[j].None?
  {
    if errs == [] then None
    else if errs[0].Some? then errs[0]
    else
      var r := FirstError(errs[1..]);
      assert forall i :: 1 <= i < |errs| ==> errs[i] == errs[1..][i - 1];
      if r.Some? then
        var i :| 0 <= i < |errs[1..]| && errs[1..][i] == r && forall j :: 0 <= j < i ==> errs[1..][j].None?;
        assert errs[i + 1] == r && forall j :: 0 <= j < i + 1 ==> errs[j].None?;
        r
      else r
  }

  /** `binary.BigEndian.PutUint16`: the two bytes of a 16-bit value, most significant first. */
  function PutUint16(v: nat): (b: seq<Byte>)
    requires v < 0x1_0000
    ensures |b| == 2 && Uint16(b) == v
  {
    [v / 256, v % 256]
  }

  /** `binary.BigEndian.Uint16`. */
  function Uint16(b: seq<Byte>): nat
    requires |b| == 2
  {
    (b[0] as int) * 256 + (b[1] as int)
  }

  lemma EncodeDecoded(b: seq<Byte>)
    requires |b| == 2
    ensures Uint16(b) < 0x1_0000 && PutUint16(Uint16(b)) == b
  {
    var v := Uint16(b);
    assert v / 256 == b[0] && v % 256 == b[1];
  }

  class Conn {
    var input: string
    var incoming: seq<ReadEvent>
    var faults: seq<Option<string>>
    var buffered: seq<Piece>
    var wire: seq<Piece>
    var log: seq<Op>
    var closed: bool

    constructor (input: string, incoming: seq<ReadEvent>, faults: seq<Option<string>>)
      ensures this.input == input && this.incoming == incoming && this.faults == faults
      ensures buffered == [] && wire == [] && log == [] && !closed
    {
      this.input := input;
      this.incoming := incoming;
      this.faults := faults;
      buffered := [];
      wire := [];
      log := [];
      closed := false;
    }

    /** `bufio.Reader.Peek(n)`: the next `n` bytes, or an error when fewer are available; nothing is consumed. */
    method Peek(n: nat) returns (head: Option<string>)
      ensures head == if n <= |input| then Some(input[..n]) else None
    {
      if n <= |input| {
        head := Some(input[..n]);
      } else {
        head := None;
      }
    }

    /** The next read; an exhausted script reads as end of file. */
    method Read() returns (r: ReadEvent)
      modifies this`incoming
      ensures r == if old(incoming) == [] then ReadFailed("EOF") else old(incoming)[0]
      ensures incoming == Drop(old(incoming), 1)
    {
      if incoming == [] {
        r := ReadFailed("EOF");
      } else {
        r := incoming[0];
        incoming := incoming[1..];
      }
    }

    method NextFault() returns (f: Option<string>)
      modifies this`faults
      ensures f == FaultAt(old(faults), 0) && faults == Drop(old(faults), 1)
    {
      if faults == [] {
        f := None;
      } else {
        f := faults[0];
        faults := faults[1..];
      }
    }

    /** A write into the bufio writer. */
    method Write(p: Piece) returns (err: Option<string>)
      modifies this`faults, this`buffered, this`log
      ensures err == FaultAt(old(faults), 0) && faults == Drop(old(faults), 1)
      ensures buffered == if err.None? then old(buffered) + [p] else old(buffered)
      ensures log == old(log) + [BufferedWrite(p)]
    {
      err := NextFault();
      if err.None? {
        buffered := buffered + [p];
      }
      log := log + [BufferedWrite(p)];
    }

    /** `bufio.Writer.Flush`: on success everything buffered reaches the peer. */
    method Flush() returns (err: Option<string>)
      modifies this`faults, this`buffered, this`wire, this`log
      ensures err == FaultAt(old(faults), 0) && faults == Drop(old(faults), 1)
      ensures wire == if err.None? then old(wire) + old(buffered) else old(wire)
      ensures buffered == if err.None? then [] else old(buffered)
      ensures log == old(log) + [FlushOp]
    {
      err := NextFault();
      if err.None? {
        wire := wire + buffered;
        buffered := [];
      }
      log := log + [FlushOp];
    }

    /** `net.Conn.Close`: the connection is closed whatever the call reports. */
    method Close() returns (err: Option<string>)
      modifies this`faults, this`closed, this`log
      ensures err == FaultAt(old(faults), 0) && faults == Drop(old(faults), 1)
      ensures closed && log == old(log) + [CloseOp]
    {
      err := NextFault();
      closed := true;
      log := log + [CloseOp];
    }

    /** `net.Conn.Write`, bypassing the bufio writer. */
    method WriteDirect(s: string) returns (err: Option<string>)
      modifies this`faults, this`wire, this`log
      ensures err == FaultAt(old(faults), 0) && faults == Drop(old(faults), 1)
      ensures wire == if err.None? then old(wire) + [Raw(s)] else old(wire)
      ensures log == old(log) + [DirectWrite(s)]
    {
      err := NextFault();
      if err.None? {
        wire := wire + [Raw(s)];
      }
      log := log + [DirectWrite(s)];
    }

    /** The part of `ws.Upgrade` that touches the connection: it consumes a request of `k` bytes and buffers its answer. */
    method Handshake(k: nat)
      modifies this`input, this`buffered
      ensures input == Drop(old(input), k)
      ensures buffered == old(buffered) + [HandshakeReply]
    {
      input := Drop(input, k);
      buffered := buffered + [HandshakeReply];
    }
  }
}
