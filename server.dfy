/**
 * The connection supervisor of the first revision (server.go). One goroutine accepts
 * connections and runs `connParser` on each; the console goroutine calls `Close`, `Exit`
 * and `Send`. The model is sequential: what the console does while the connection
 * goroutine waits in a read, between two writes or in `Accept` is an event of that call's
 * script, applied where the waiting call returns.
 */
module RootServer {
  import opened Wrappers
  import opened Protocol
  import Session

  /** The console commands that change the supervisor's flags. */
  datatype Command = CloseCmd | ExitCmd

  /** One `textproto.Reader.ReadLine` on the connection: a line, an error, or a console command run meanwhile. */
  datatype LineEvent = Line(text: string) | LineFailed(message: string) | Interrupted(cmd: Command)

  /**
   * What the next pass of Send's write loop meets: a `net.Conn.Write` that takes `n` bytes,
   * one that fails after `n` bytes, or a console `Close` that has already cleared `connect`.
   */
  datatype WriteEvent = Accepted(n: nat) | Refused(n: nat, message: string) | HungUp

  /** One `Accept` of the listener. */
  datatype AcceptEvent = Incoming(lines: seq<LineEvent>, writes: seq<WriteEvent>) | AcceptFailed(message: string) | Console(cmd: Command)

  function Min(a: nat, b: nat): nat { if a <= b then a else b }

  /** A `net.Conn` used without a writer buffer. */
  class RawConn {
    var lines: seq<LineEvent>
    var writes: seq<WriteEvent>
    var wire: string
    var closed: bool

    constructor (lines: seq<LineEvent>, writes: seq<WriteEvent>)
      ensures this.lines == lines && this.writes == writes && wire == [] && !closed
    {
      this.lines := lines;
      this.writes := writes;
      wire := [];
      closed := false;
    }

    /** The next line; an exhausted script reads as end of file. */
    method ReadLine() returns (e: LineEvent)
      modifies this`lines
      ensures e == if old(lines) == [] then LineFailed("EOF") else old(lines)[0]
      ensures lines == if old(lines) == [] then [] else old(lines)[1..]
    {
      if lines == [] {
        e := LineFailed("EOF");
      } else {
        e := lines[0];
        lines := lines[1..];
      }
    }

    /** Whether the console hung up before this pass of the write loop. */
    method HungUpNow() returns (b: bool)
      modifies this`writes
      ensures b == (old(writes) != [] && old(writes)[0].HungUp?)
      ensures writes == if b then old(writes)[1..] else old(writes)
    {
      b := writes != [] && writes[0].HungUp?;
      if b {
        writes := writes[1..];
      }
    }

    /** `net.Conn.Write(p)`: the bytes taken reach the peer, in order; an exhausted script takes everything. */
    method Write(p: string) returns (n: nat, err: Option<string>)
      requires writes == [] || !writes[0].HungUp?
      modifies this`writes, this`wire
      ensures old(writes) == [] ==> n == |p| && err == None && writes == []
      ensures old(writes) != [] ==> writes == old(writes)[1..]
      ensures old(writes) != [] && old(writes)[0].Accepted? ==> n == Min(old(writes)[0].n, |p|) && err == None
      ensures old(writes) != [] && old(writes)[0].Refused? ==> n == Min(old(writes)[0].n, |p|) && err == Some(old(writes)[0].message)
      ensures n <= |p| && wire == old(wire) + p[..n]
    {
      if writes == [] {
        n, err := |p|, None;
      } else {
        match writes[0] {
          case Accepted(k) => n, err := Min(k, |p|), None;
          case Refused(k, m) => n, err := Min(k, |p|), Some(m);
        }
        writes := writes[1..];
      }
      wire := wire + p[..n];
    }

    method Close()
      modifies this`closed
      ensures closed
    {
      closed := true;
    }
  }

  /** How Send's write loop ends: bytes on the wire, events used, and whether a hang-up stopped it. */
  datatype Transfer = Transfer(written: nat, used: nat, hungUp: bool, complete: bool)

  /** The write loop of Send as a function of the write script, from `count` of `total` bytes. */
  function Transferred(writes: seq<WriteEvent>, total: nat, count: nat): (r: Transfer)
    requires count <= total
    ensures count <= r.written <= total && r.used <= |writes|
    ensures r.complete ==> r.written == total && !r.hungUp
    decreases |writes|
  {
    if count == total then Transfer(count, 0, false, true)
    else if writes == [] then Transfer(total, 0, false, true)
    else match writes[0]
      case Accepted(n) =>
        var r := Transferred(writes[1..], total, count + Min(n, total - count));
        r.(used := r.used + 1)
      case Refused(n, _) => Transfer(count + Min(n, total - count), 1, false, false)
      case HungUp => Transfer(count, 1, true, false)
  }

  /** A write script without errors or hang-ups delivers every byte. */
  lemma {:induction false} FaultFreeDelivers(writes: seq<WriteEvent>, total: nat, count: nat)
    requires count <= total
    requires forall i :: 0 <= i < |writes| ==> writes[i].Accepted?
    ensures Transferred(writes, total, count).complete
    ensures Transferred(writes, total, count).written == total
    decreases |writes|
  {
    if count < total && writes != [] {
      assert forall i :: 0 <= i < |writes[1..]| ==> writes[1..][i] == writes[i + 1];
      FaultFreeDelivers(writes[1..], total, count + Min(writes[0].n, total - count));
    }
  }

  /** A loop that stops short of the whole buffer was stopped by an error or a hang-up in the script. */
  lemma {:induction false} ShortMeansFault(writes: seq<WriteEvent>, total: nat, count: nat)
    requires count <= total
    requires !Transferred(writes, total, count).complete
    ensures exists i :: 0 <= i < |writes| && !writes[i].Accepted?
    decreases |writes|
  {
    if writes[0].Accepted? {
      ShortMeansFault(writes[1..], total, count + Min(writes[0].n, total - count));
      var i :| 0 <= i < |writes[1..]| && !writes[1..][i].Accepted?;
      assert writes[i + 1] == writes[1..][i];
    }
  }

  /** A loop that stops on a hang-up met the `HungUp` event among the events it used. */
  lemma {:induction false} HangUpUsed(writes: seq<WriteEvent>, total: nat, count: nat)
    requires count <= total
    requires Transferred(writes, total, count).hungUp
    ensures exists i | 0 <= i < Transferred(writes, total, count).used :: writes[i].HungUp?
    decreases |writes|
  {
    if writes[0].Accepted? {
      var next := count + Min(writes[0].n, total - count);
      HangUpUsed(writes[1..], total, next);
      var i :| 0 <= i < Transferred(writes[1..], total, next).used && writes[1..][i].HungUp?;
      assert writes[i + 1] == writes[1..][i];
    }
  }

  /** `after` is what is left of the write script `before` once its first events were used. */
  ghost predicate Spent(before: seq<WriteEvent>, after: seq<WriteEvent>)
  {
    |after| <= |before| && after == before[|before| - |after|..]
  }

  /** The events used between `before` and `after` include a console hang-up. */
  ghost predicate HungUpBetween(before: seq<WriteEvent>, after: seq<WriteEvent>)
  {
    Spent(before, after) && exists i | 0 <= i < |before| - |after| :: before[i].HungUp?
  }

  lemma SpentTrans(a: seq<WriteEvent>, b: seq<WriteEvent>, c: seq<WriteEvent>)
    requires Spent(a, b) && Spent(b, c)
    ensures Spent(a, c)
    ensures HungUpBetween(b, c) ==> HungUpBetween(a, c)
  {
    assert a[|a| - |b|..][|b| - |c|..] == a[|a| - |c|..];
    if HungUpBetween(b, c) {
      var i :| 0 <= i < |b| - |c| && b[i].HungUp?;
      assert a[|a| - |b| + i] == b[i];
    }
  }

  /** The requests a connection hands to the parser: the lines before the first empty line, error or interruption. */
  function Requests(lines: seq<LineEvent>): (r: seq<string>)
    ensures |r| <= |lines|
    ensures forall i :: 0 <= i < |r| ==> r[i] != "" && lines[i] == Line(r[i])
  {
    if lines == [] then []
    else match lines[0]
      case Line(t) => if t == "" then [] else [t] + Requests(lines[1..])
      case _ => []
  }

  class Server {
    var connect: bool
    var work: bool
    var con: RawConn?
    const parser: Parser
    /** The listener is open. */
    var listening: bool
    var accepts: seq<AcceptEvent>
    /** `json.Marshal` of a reply, as the string Parse returns. */
    const render: Text -> string
    /** The lines Send was given while a client was connected, in order. */
    ghost var attempts: seq<string>

    ghost predicate Valid()
      reads this
    {
      connect ==> con != null
    }

    constructor (parser: Parser, render: Text -> string, accepts: seq<AcceptEvent>)
      ensures this.parser == parser && this.render == render && this.accepts == accepts
      ensures !connect && work && con == null && listening && attempts == []
    {
      this.parser := parser;
      this.render := render;
      this.accepts := accepts;
      connect := false;
      work := true;
      con := null;
      listening := true;
      attempts := [];
    }

    /** Close: clears `connect`, and closes the connection if there is one. */
    method Close()
      modifies this`connect, con
      ensures !connect && con == old(con)
      ensures con != null ==> con.closed && con.lines == old(con.lines) && con.writes == old(con.writes) && con.wire == old(con.wire)
    {
      connect := false;
      if con != null {
        con.Close();
      }
    }

    /** Exit: clears `work`, closes the connection and the listener. */
    method Exit()
      modifies this`work, this`connect, this`listening, con
      ensures !work && !connect && !listening && con == old(con)
      ensures con != null ==> con.closed && con.lines == old(con.lines) && con.writes == old(con.writes) && con.wire == old(con.wire)
    {
      work := false;
      Close();
      listening := false;
    }

    method Apply(cmd: Command)
      modifies this`work, this`connect, this`listening, con
      ensures !connect && con == old(con) && listening == (old(listening) && cmd == CloseCmd)
      ensures work == (old(work) && cmd == CloseCmd)
      ensures con != null ==> con.closed && con.lines == old(con.lines) && con.writes == old(con.writes) && con.wire == old(con.wire)
    {
      match cmd
      case CloseCmd => Close();
      case ExitCmd => Exit();
    }

    /**
     * Send: with no client nothing happens. Otherwise line + CRLF is written by a loop that
     * advances by the count each write reports; the bytes that reach the peer are always a
     * prefix of line + CRLF, all of it unless a write failed or the console hung up.
     */
    method Send(line: string)
      requires Valid()
      modifies this`connect, this`attempts, con
      ensures Valid() && con == old(con)
      ensures !old(connect) ==> !connect && attempts == old(attempts) && (con != null ==> unchanged(con))
      ensures old(connect) ==>
                var r := Transferred(old(con.writes), |line| + 2, 0);
                con.wire == old(con.wire) + (line + "\r\n")[..r.written] &&
                con.writes == old(con.writes)[r.used..] &&
                connect == !r.hungUp && attempts == old(attempts) + [line] &&
                con.lines == old(con.lines) && con.closed == old(con.closed)
    {
      var buffer := line + "\r\n";
      var count := 0;
      if !connect {
        return;
      }
      attempts := attempts + [line];
      ghost var w0 := con.writes;
      ghost var r := Transferred(w0, |buffer|, 0);
      while count < |buffer|
        invariant connect && con == old(con) && count <= |buffer|
        invariant con.wire == old(con.wire) + buffer[..count]
        invariant |con.writes| <= |w0| && con.writes == w0[|w0| - |con.writes|..]
        invariant var q := Transferred(con.writes, |buffer|, count);
                  q.written == r.written && q.hungUp == r.hungUp && q.used + (|w0| - |con.writes|) == r.used
        invariant con.lines == old(con.lines) && con.closed == old(con.closed)
        invariant attempts == old(attempts) + [line]
        decreases |con.writes|, |buffer| - count
      {
        ghost var ws := con.writes;
        var stop;
        count, stop := WritePass(buffer, count, old(con.wire));
        if stop {
          return;
        }
        if ws != [] {
          assert w0[|w0| - |ws|..][1..] == w0[|w0| - |con.writes|..];
        }
      }
      assert Transferred(con.writes, |buffer|, count) == Transfer(count, 0, false, true);
    }

    /**
     * One pass of Send's write loop: stop if the console hung up, otherwise one Write of
     * what is left of the buffer, stopping on its error. Stated against Transferred.
     */
    method WritePass(buffer: string, count: nat, ghost sent: string) returns (next: nat, stop: bool)
      requires con != null && connect && count < |buffer| && con.wire == sent + buffer[..count]
      modifies this`connect, con`writes, con`wire
      ensures count <= next <= |buffer| && con.wire == sent + buffer[..next]
      ensures con.writes == if old(con.writes) == [] then [] else old(con.writes)[1..]
      ensures old(con.writes) == [] ==> !stop && next == |buffer|
      ensures stop ==> Transferred(old(con.writes), |buffer|, count) == Transfer(next, 1, !connect, false)
      ensures !stop ==> connect
      ensures !stop ==> var q := Transferred(con.writes, |buffer|, next);
                        Transferred(old(con.writes), |buffer|, count) == q.(used := q.used + |old(con.writes)| - |con.writes|)
    {
      var hung := con.HungUpNow();
      if hung {
        connect := false;
        return count, true;
      }
      var n, err := con.Write(buffer[count..]);
      next := count + n;
      assert buffer[..count] + buffer[count..][..n] == buffer[..next];
      stop := err.Some?;
    }

    /** The stage and the replies sent since `base` are those of the conversation over `handled`. */
    ghost predicate Agrees(handled: seq<string>, base: seq<string>)
      reads this, parser
    {
      var t := Session.Converse(parser.codec, parser.token, 0, handled);
      parser.stage == t.stage && attempts == base + Session.RenderAll(render, t.sent)
    }

    /**
     * One pass of connParser's loop over a non-empty line: Parse it and send the reply if
     * flagged. Stated over the conversation so far, `handled`.
     */
    method Handle(text: string, ghost handled: seq<string>, ghost base: seq<string>)
      requires con != null && connect
      requires Agrees(handled, base)
      modifies this`connect, this`attempts, parser`stage, con
      ensures con == old(con) && Valid() && con.lines == old(con.lines) && con.closed == old(con.closed)
      ensures Agrees(handled + [text], base)
      ensures Spent(old(con.writes), con.writes)
      ensures !connect ==> HungUpBetween(old(con.writes), con.writes)
    {
      Session.StepReplies(parser.codec, parser.token, render, handled, text, base);
      var reply, ok := parser.Parse(text);
      if ok {
        ghost var writes := con.writes;
        Send(render(reply));
        if !connect {
          HangUpUsed(writes, |render(reply)| + 2, 0);
        }
      }
    }

    /**
     * connParser: marks a client connected and resets the stage before the first read, then
     * hands each line to Parse until a read fails, a line is empty or a flag is cleared,
     * sends exactly the replies Parse flags, and always ends with Close. The lines handled
     * are the first requests of the connection, and the stage and the replies are those of
     * the conversation over them.
     */
    method ConnParser() returns (ghost handled: seq<string>, ghost cut: bool)
      requires con != null
      modifies this`connect, this`work, this`listening, this`attempts, parser`stage, con
      ensures con == old(con) && !connect && con.closed && Valid()
      ensures |handled| <= |Requests(old(con.lines))| && handled == Requests(old(con.lines))[..|handled|]
      ensures !old(work) ==> handled == []
      ensures old(work) && !cut ==> handled == Requests(old(con.lines))
      ensures cut ==> handled != [] && HungUpBetween(old(con.writes), con.writes)
      ensures Spent(old(con.writes), con.writes)
      ensures Agrees(handled, old(attempts))
      ensures work ==> old(work)
      ensures listening ==> old(listening)
    {
      connect := true;
      parser.stage := 0;
      handled := ReadLoop();
      cut := old(work) && !connect && handled != Requests(old(con.lines));
      Close();
    }

    /** The read loop of connParser, from a fresh stage with a client connected. */
    method ReadLoop() returns (ghost handled: seq<string>)
      requires con != null && connect && parser.stage == 0
      modifies this`connect, this`work, this`listening, this`attempts, parser`stage, con
      ensures con == old(con) && Valid()
      ensures |handled| <= |Requests(old(con.lines))| && handled == Requests(old(con.lines))[..|handled|]
      ensures !old(work) ==> handled == []
      ensures old(work) ==> handled == Requests(old(con.lines)) || (!connect && handled != [])
      ensures old(work) && handled != Requests(old(con.lines)) ==> HungUpBetween(old(con.writes), con.writes)
      ensures Spent(old(con.writes), con.writes)
      ensures Agrees(handled, old(attempts))
      ensures work ==> old(work)
      ensures listening ==> old(listening)
    {
      handled := [];
      ghost var requests := Requests(con.lines);
      ghost var writes := con.writes;
      var stop := false;
      assert [] + requests == requests;
      while connect && work && !stop
        invariant con == old(con) && Valid()
        invariant Session.Served(requests, handled, Requests(con.lines), stop)
        invariant !old(work) ==> handled == []
        invariant old(work) && !stop ==> work
        invariant !stop && !connect ==> handled != []
        invariant Spent(writes, con.writes)
        invariant !stop && !connect ==> HungUpBetween(writes, con.writes)
        invariant work ==> old(work)
        invariant listening ==> old(listening)
        invariant Agrees(handled, old(attempts))
        decreases |con.lines|, if stop then 0 else 1
      {
        ghost var more;
        ghost var left := con.writes;
        stop, more := Step(handled, old(attempts));
        SpentTrans(writes, left, con.writes);
        if !stop {
          Session.ServedNext(requests, handled, more, Requests(con.lines));
          handled := handled + [more];
        } else {
          Session.ServedAll(requests, handled);
        }
      }
      Session.ServedPrefix(requests, handled, Requests(con.lines), stop);
    }

    /**
     * One pass of connParser's loop: read; stop on an error, an empty line or a console
     * command (which runs first); otherwise handle the line, the next request.
     */
    method Step(ghost handled: seq<string>, ghost base: seq<string>) returns (stop: bool, ghost line: string)
      requires con != null && connect
      requires Agrees(handled, base)
      modifies this`connect, this`work, this`listening, this`attempts, parser`stage, con
      ensures con == old(con) && Valid()
      ensures |con.lines| <= |old(con.lines)|
      ensures !stop ==> |con.lines| < |old(con.lines)|
      ensures stop ==> Requests(old(con.lines)) == [] && Agrees(handled, base)
      ensures !stop ==> Requests(old(con.lines)) == [line] + Requests(con.lines) && Agrees(handled + [line], base)
      ensures !stop ==> work == old(work)
      ensures work ==> old(work)
      ensures listening ==> old(listening)
      ensures Spent(old(con.writes), con.writes)
      ensures !stop && !connect ==> HungUpBetween(old(con.writes), con.writes)
    {
      var e := con.ReadLine();
      line := "";
      if e.LineFailed? {
        return true, line;
      } else if e.Interrupted? {
        Apply(e.cmd);
        return true, line;
      }
      if e.text == "" {
        return true, line;
      }
      line := e.text;
      Handle(e.text, handled, base);
      return false, line;
    }

    /**
     * run: accepts connections while `work` holds and the script lasts, serves each with
     * connParser and clears `con` afterwards; the listener is closed on the way out.
     */
    method Run()
      requires con == null && Valid()
      modifies this, parser`stage
      ensures con == null && !listening && !connect
      ensures work ==> accepts == []
      ensures |accepts| <= |old(accepts)|
    {
      while work && accepts != []
        invariant con == null && !connect
        decreases |accepts|
      {
        var e := accepts[0];
        accepts := accepts[1..];
        match e
        case AcceptFailed(_) =>
        case Console(cmd) => Apply(cmd);
        case Incoming(lines, writes) =>
          var c := new RawConn(lines, writes);
          con := c;
          ghost var _, _ := ConnParser();
          con := null;
      }
      listening := false;
    }
  }
}
