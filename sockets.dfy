/**
 * Transport selection and the two socket variants (sockets.go). A connection whose first
 * four bytes are `GET ` is taken to open the HTTP handshake of section 4.2 of RFC 6455 and
 * becomes a WebSocket; anything else is a raw TCP line socket. The later revision
 * (src/sockets.go) has the same `isHTTP`, `write` and `close`; only its `makeSocket`
 * differs, and that is `SrcSockets.MakeSocket`.
 */
module Sockets {
  import opened Wrappers
  import opened Net

  /** Status code 1000, normal closure (section 7.4.1 of RFC 6455). */
  const StatusNormal: nat := 1000

  datatype Variant = WebSocket | TcpSocket

  /** An `anySocket`: the variant and the buffered connection it writes through. */
  datatype Socket = Socket(variant: Variant, conn: Conn)

  /** The peer opened with an HTTP GET request line. */
  ghost predicate OpensWithGet(input: string)
  {
    exists rest :: input == "GET " + rest
  }

  /** isHTTP: true exactly when four bytes can be peeked and they are `GET `; peeking consumes nothing. */
  method IsHTTP(c: Conn) returns (http: bool)
    ensures http <==> OpensWithGet(c.input)
  {
    var head := c.Peek(4);
    http := head == Some("GET ");
    if http {
      assert c.input == "GET " + c.input[4..];
    }
  }

  /** makeSocket: a WebSocket exactly when isHTTP holds, a raw socket otherwise. */
  method MakeSocket(c: Conn, upgrade: Result<nat, string>) returns (r: Result<Socket, string>)
    modifies c
    ensures !OpensWithGet(old(c.input)) ==> r == Success(Socket(TcpSocket, c)) && unchanged(c)
    ensures OpensWithGet(old(c.input)) && upgrade.Failure? ==> r == Failure(upgrade.error) && unchanged(c)
    ensures OpensWithGet(old(c.input)) && upgrade.Success? ==>
              r == Success(Socket(WebSocket, c)) && Upgraded(c, upgrade.value)
  {
    var http := IsHTTP(c);
    if http {
      if upgrade.Failure? {
        return Failure(upgrade.error);
      }
      c.Handshake(upgrade.value);
      var _ := c.Flush();
      return Success(Socket(WebSocket, c));
    }
    return Success(Socket(TcpSocket, c));
  }

  /** After a successful upgrade: the request is consumed and the answer flushed, if the flush succeeds. */
  twostate predicate Upgraded(c: Conn, k: nat)
    reads c
  {
    var sent := FaultAt(old(c.faults), 0).None?;
    c.input == Drop(old(c.input), k) && c.incoming == old(c.incoming) &&
    c.faults == Drop(old(c.faults), 1) &&
    c.wire == (if sent then old(c.wire) + old(c.buffered) + [HandshakeReply] else old(c.wire)) &&
    c.buffered == (if sent then [] else old(c.buffered) + [HandshakeReply]) &&
    c.log == old(c.log) + [FlushOp] && c.closed == old(c.closed)
  }

  /**
   * After one `write` of frame p: it was buffered, a flush followed only if buffering met no
   * fault, and with neither fault the earlier buffered frames and p reached the wire.
   */
  twostate predicate WroteFrame(c: Conn, p: Piece)
    reads c
  {
    var f0 := FaultAt(old(c.faults), 0); var f1 := FaultAt(old(c.faults), 1);
    c.log == old(c.log) + [BufferedWrite(p)] + (if f0.None? then [FlushOp] else []) &&
    c.wire == (if f0.None? && f1.None? then old(c.wire) + old(c.buffered) + [p] else old(c.wire))
  }

  /** What one `write(s)` puts in the writer: raw text gets CRLF, WebSocket text becomes one text frame. */
  function Frame(v: Variant, s: string): Piece
  {
    match v
    case TcpSocket => Raw(s + "\r\n")
    case WebSocket => TextFrame(s)
  }

  /**
   * write (both variants, both revisions): the frame goes into the writer and is flushed
   * only if that succeeded; the error is the first one met.
   */
  method Write(sock: Socket, s: string) returns (err: Option<string>)
    modifies sock.conn
    ensures var c := sock.conn; var p := Frame(sock.variant, s);
            var f0 := FaultAt(old(c.faults), 0); var f1 := FaultAt(old(c.faults), 1);
            c.input == old(c.input) && c.incoming == old(c.incoming) && c.closed == old(c.closed) &&
            (f0.Some? ==> err == f0 && c.log == old(c.log) + [BufferedWrite(p)] && c.faults == Drop(old(c.faults), 1) &&
                          c.buffered == old(c.buffered) && c.wire == old(c.wire)) &&
            (f0.None? ==> err == f1 && c.log == old(c.log) + [BufferedWrite(p), FlushOp] && c.faults == Drop(old(c.faults), 2) &&
                          c.wire == (if f1.None? then old(c.wire) + old(c.buffered) + [p] else old(c.wire)) &&
                          c.buffered == (if f1.None? then [] else old(c.buffered) + [p]))
  {
    var c := sock.conn;
    ghost var faults := c.faults;
    err := c.Write(Frame(sock.variant, s));
    if err.None? {
      DropShifts(faults, 1, 0);
      DropDrop(faults, 1, 1);
      err := c.Flush();
    }
  }

  /**
   * close. A raw socket only closes the connection. A WebSocket writes a close frame with
   * status 1000 as two big-endian bytes, flushes and closes: all three always run, the
   * connection ends closed, and the error reported is the first of the three.
   */
  method Close(sock: Socket) returns (err: Option<string>)
    modifies sock.conn
    ensures var c := sock.conn; var fs := old(c.faults);
            c.closed && c.input == old(c.input) && c.incoming == old(c.incoming) &&
            (sock.variant == TcpSocket ==>
               err == FaultAt(fs, 0) && c.faults == Drop(fs, 1) && c.log == old(c.log) + [CloseOp] &&
               c.buffered == old(c.buffered) && c.wire == old(c.wire)) &&
            (sock.variant == WebSocket ==>
               var p := CloseFrame(PutUint16(StatusNormal));
               var held := if FaultAt(fs, 0).None? then old(c.buffered) + [p] else old(c.buffered);
               err == FirstError([FaultAt(fs, 0), FaultAt(fs, 1), FaultAt(fs, 2)]) &&
               c.faults == Drop(fs, 3) && c.log == old(c.log) + [BufferedWrite(p), FlushOp, CloseOp] &&
               c.wire == (if FaultAt(fs, 1).None? then old(c.wire) + held else old(c.wire)) &&
               c.buffered == (if FaultAt(fs, 1).None? then [] else held))
  {
    var c := sock.conn;
    if sock.variant == TcpSocket {
      err := c.Close();
      return;
    }
    ghost var fs := c.faults;
    var msg := PutUint16(StatusNormal);
    var err1 := c.Write(CloseFrame(msg));
    DropShifts(fs, 1, 0);
    DropDrop(fs, 1, 1);
    var err2 := c.Flush();
    DropShifts(fs, 2, 0);
    DropDrop(fs, 2, 1);
    var err3 := c.Close();
    if err1.Some? {
      err := err1;
    } else if err2.Some? {
      err := err2;
    } else {
      err := err3;
    }
    assert err1 == FaultAt(fs, 0) && err2 == FaultAt(fs, 1) && err3 == FaultAt(fs, 2);
    assert [err1, err2, err3][1..] == [err2, err3] && [err2, err3][1..] == [err3] && [err3][1..] == [];
    assert FirstError([err3]) == err3;
    assert FirstError([err2, err3]) == if err2.Some? then err2 else err3;
  }

  /** The close frame's payload is the two bytes 0x03 0xE8, which read back as status 1000. */
  lemma CloseStatusBytes()
    ensures PutUint16(StatusNormal) == [0x03, 0xE8]
    ensures Uint16([0x03, 0xE8]) == StatusNormal
  {
    EncodeDecoded([0x03, 0xE8]);
  }

  /** The next read (a line for a raw socket, a text frame for a WebSocket; framing is the library's). */
  method Read(sock: Socket) returns (r: ReadEvent)
    modifies sock.conn`incoming
    ensures r == if old(sock.conn.incoming) == [] then ReadFailed("EOF") else old(sock.conn.incoming)[0]
    ensures sock.conn.incoming == Drop(old(sock.conn.incoming), 1)
  {
    r := sock.conn.Read();
  }

  /**
   * The peer's side of a raw socket, `textproto.Reader.ReadLine`: the text up to the first
   * line feed, without it and without one carriage return before it; `None` when no line
   * feed has arrived.
   */
  function ReadLine(text: string): (r: Option<(string, string)>)
    ensures r.Some? ==> |r.value.1| < |text|
  {
    if text == [] then None
    else if text[0] == '\n' then Some(([], text[1..]))
    else if text[0] == '\r' && |text| > 1 && text[1] == '\n' then Some(([], text[2..]))
    else
      match ReadLine(text[1..])
      case None => None
      case Some((line, rest)) => Some(([text[0]] + line, rest))
  }

  /** A raw write of a line without line feeds is read back by the peer as exactly that line. */
  lemma {:induction false} RawWriteReadsBack(s: string, rest: string)
    requires forall i :: 0 <= i < |s| ==> s[i] != '\n'
    ensures Frame(TcpSocket, s).text + rest == s + "\r\n" + rest
    ensures ReadLine(s + "\r\n" + rest) == Some((s, rest))
  {
    if s == [] {
      assert s + "\r\n" + rest == "\r\n" + rest;
      assert ("\r\n" + rest)[2..] == rest;
    } else {
      var t := s + "\r\n" + rest;
      assert t[0] == s[0] && t[1..] == s[1..] + "\r\n" + rest;
      assert t[0] != '\n' && t[1] != '\n';
      RawWriteReadsBack(s[1..], rest);
      assert [s[0]] + s[1..] == s;
    }
  }
}

/**
 * makeSocket of the later revision (src/sockets.go): when the upgrade fails it also writes
 * the error text and a blank line straight to the connection, ignoring the result, before
 * returning the error.
 */
module SrcSockets {
  import opened Wrappers
  import opened Net
  import opened Sockets

  method MakeSocket(c: Conn, upgrade: Result<nat, string>) returns (r: Result<Socket, string>)
    modifies c
    ensures !OpensWithGet(old(c.input)) ==> r == Success(Socket(TcpSocket, c)) && unchanged(c)
    ensures OpensWithGet(old(c.input)) && upgrade.Failure? ==>
              r == Failure(upgrade.error) &&
              c.faults == Drop(old(c.faults), 1) &&
              c.wire == (if FaultAt(old(c.faults), 0).None? then old(c.wire) + [Raw(upgrade.error + "\r\n\r\n")] else old(c.wire)) &&
              c.log == old(c.log) + [DirectWrite(upgrade.error + "\r\n\r\n")] &&
              c.input == old(c.input) && c.incoming == old(c.incoming) && c.buffered == old(c.buffered) && c.closed == old(c.closed)
    ensures OpensWithGet(old(c.input)) && upgrade.Success? ==>
              r == Success(Socket(WebSocket, c)) && Upgraded(c, upgrade.value)
  {
    var http := IsHTTP(c);
    if http {
      if upgrade.Failure? {
        var _ := c.WriteDirect(upgrade.error + "\r\n\r\n");
        return Failure(upgrade.error);
      }
      c.Handshake(upgrade.value);
      var _ := c.Flush();
      return Success(Socket(WebSocket, c));
    }
    return Success(Socket(TcpSocket, c));
  }
}
