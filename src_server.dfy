/**
 * The connection supervisor of the later revision (src/server.go): connections go through
 * `makeSocket`, and `reload` makes `loop` rebind the listener with the current address.
 * As in the first revision the model is sequential, and what the console does while the
 * connection goroutine waits in a read or in `Accept` is an event of that call's script.
 */
module SrcServer {
  import opened Wrappers
  import opened Protocol
  import opened Net
  import Sockets
  import SrcSockets
  import Session

  /**
   * One `Accept`: a connection (the bytes it opens with, how a WebSocket upgrade of it
   * would end, what its reads return and how its writes fare), an accept error, or a
   * console command run meanwhile.
   */
  datatype Event =
    | Incoming(input: string, upgrade: Result<nat, string>, incoming: seq<ReadEvent>, faults: seq<Option<string>>)
    | AcceptFailed(message: string)
    | Interrupted(cmd: Command)

  /** An address the listener was bound to by `net.Listen`. */
  datatype Address = Address(ip: string, port: nat)

  /** The requests a connection hands to the parser: the lines before the first empty line, error or interruption. */
  function Requests(script: seq<ReadEvent>): (r: seq<string>)
    ensures |r| <= |script|
    ensures forall i :: 0 <= i < |r| ==> r[i] != "" && script[i] == Got(r[i])
  {
    if script == [] then []
    else match script[0]
      case Got(t) => if t == "" then [] else [t] + Requests(script[1..])
      case _ => []
  }

  /** How many reload commands a run of events holds. */
  function ReloadsIn(es: seq<Event>): (n: nat)
    ensures n <= |es|
  {
    if es == [] then 0
    else ReloadsIn(es[..|es| - 1]) + (if es[|es| - 1].Interrupted? && es[|es| - 1].cmd.ReloadCmd? then 1 else 0)
  }

  /** The address of the reload command a run of events ends with, if it ends with one. */
  function ReloadTo(es: seq<Event>): (a: Option<Address>)
    ensures a.Some? ==> ReloadsIn(es) >= 1
  {
    if es != [] && es[|es| - 1].Interrupted? && es[|es| - 1].cmd.ReloadCmd? then
      Some(Address(es[|es| - 1].cmd.ip, es[|es| - 1].cmd.port))
    else None
  }

  /** The events of several passes, one after the other. */
  function Concat(rounds: seq<seq<Event>>): seq<Event>
  {
    if rounds == [] then [] else Concat(rounds[..|rounds| - 1]) + rounds[|rounds| - 1]
  }

  lemma {:induction false} ReloadsAppend(a: seq<Event>, b: seq<Event>)
    ensures ReloadsIn(a + b) == ReloadsIn(a) + ReloadsIn(b)
  {
    if b != [] {
      assert (a + b)[..|a + b| - 1] == a + b[..|b| - 1];
      ReloadsAppend(a, b[..|b| - 1]);
    } else {
      assert a + b == a;
    }
  }

  /**
   * One bind after each pass, in order, after the earlier binds: a pass that ended with a
   * reload command is followed by a bind to that command's address.
   */
  ghost predicate Rebound(rounds: seq<seq<Event>>, before: seq<Address>, after: seq<Address>)
  {
    |after| == |before| + |rounds| && after[..|before|] == before &&
    forall i | 0 <= i < |rounds| :: ReloadTo(rounds[i]).Some? ==> after[|before| + i] == ReloadTo(rounds[i]).value
  }

  lemma ReboundNext(rounds: seq<seq<Event>>, round: seq<Event>, before: seq<Address>, after: seq<Address>, a: Address)
    requires Rebound(rounds, before, after)
    requires ReloadTo(round).Some? ==> ReloadTo(round).value == a
    ensures Rebound(rounds + [round], before, after + [a])
  {
    assert (after + [a])[..|before|] == after[..|before|];
    assert forall i | 0 <= i < |rounds| :: (rounds + [round])[i] == rounds[i];
  }

  /**
   * The state of loop between passes: the passes so far used the script from its start
   * in order, each consumed at most one reload command and was followed by a bind, and the
   * address is the last one bound (or the first, before any bind).
   */
  ghost predicate Looped(events0: seq<Event>, binds0: seq<Address>, address0: Address,
                         consumed: seq<Event>, rounds: seq<seq<Event>>, events: seq<Event>, binds: seq<Address>, address: Address)
  {
    events0 == consumed + events && consumed == Concat(rounds) &&
    Rebound(rounds, binds0, binds) &&
    (forall i | 0 <= i < |rounds| :: ReloadsIn(rounds[i]) <= 1) &&
    |binds0| + ReloadsIn(consumed) <= |binds| &&
    (|binds| > |binds0| ==> binds[|binds| - 1] == address) &&
    (|binds| == |binds0| ==> address == address0)
  }

  lemma LoopedNext(events0: seq<Event>, binds0: seq<Address>, address0: Address,
                   consumed: seq<Event>, rounds: seq<seq<Event>>, events: seq<Event>, binds: seq<Address>, prior: Address,
                   round: seq<Event>, events': seq<Event>, address: Address)
    requires Looped(events0, binds0, address0, consumed, rounds, events, binds, prior)
    requires events == round + events' && ReloadsIn(round) <= 1
    requires ReloadTo(round).Some? ==> ReloadTo(round).value == address
    ensures Looped(events0, binds0, address0, consumed + round, rounds + [round], events', binds + [address], address)
  {
    ReloadsAppend(consumed, round);
    ReboundNext(rounds, round, binds0, binds, address);
    assert (rounds + [round])[..|rounds|] == rounds;
    assert consumed + round + events' == consumed + (round + events');
  }

  lemma LoopedLast(events0: seq<Event>, binds0: seq<Address>, address0: Address,
                   consumed: seq<Event>, rounds: seq<seq<Event>>, events: seq<Event>, binds: seq<Address>, address: Address,
                   round: seq<Event>, events': seq<Event>)
    requires Looped(events0, binds0, address0, consumed, rounds, events, binds, address)
    requires events == round + events' && ReloadsIn(round) == 0
    ensures var rounds' := rounds + [round];
            events0 == consumed + round + events' && consumed + round == Concat(rounds') &&
            Rebound(rounds'[..|rounds'| - 1], binds0, binds) &&
            (forall i | 0 <= i < |rounds'| :: ReloadsIn(rounds'[i]) <= 1) &&
            |binds0| + ReloadsIn(consumed + round) <= |binds|
  {
    ReloadsAppend(consumed, round);
    assert (rounds + [round])[..|rounds|] == rounds;
    assert consumed + round + events' == consumed + (round + events');
  }

  class Server {
    var connect: bool
    var work: bool
    var restart: bool
    var con: Option<Sockets.Socket>
    const parser: Parser
    /** The address `net.Listen` is given (the ip and port of the arguments). */
    var ip: string
    var port: nat
    /** The listener is open. */
    var listening: bool
    /** Every `net.Listen`, in order. */
    var binds: seq<Address>
    var events: seq<Event>
    /** `json.Marshal` of a reply, as the string Parse returns. */
    const render: Text -> string
    /** The lines Send handed to a socket, in order. */
    ghost var attempts: seq<string>

    constructor (parser: Parser, render: Text -> string, ip: string, port: nat, events: seq<Event>)
      ensures this.parser == parser && this.render == render && this.ip == ip && this.port == port && this.events == events
      ensures !connect && !work && !restart && con.None? && !listening && binds == [] && attempts == []
    {
      this.parser := parser;
      this.render := render;
      this.ip := ip;
      this.port := port;
      this.events := events;
      connect := false;
      work := false;
      restart := false;
      con := None;
      listening := false;
      binds := [];
      attempts := [];
    }

    /** The connection object of the current socket, if any. */
    function Footprint(): set<object>
      reads this
    {
      if con.Some? then {con.value.conn} else {}
    }

    /** makeServer: binds the listener to the current address. */
    method MakeServer()
      modifies this`listening, this`binds
      ensures listening && binds == old(binds) + [Address(ip, port)]
    {
      binds := binds + [Address(ip, port)];
      listening := true;
    }

    /** Close: clears `connect`, and closes the socket if there is one. */
    method Close()
      modifies this`connect, Footprint()
      ensures !connect
      ensures con.Some? ==> con.value.conn.closed && con.value.conn.incoming == old(con.value.conn.incoming)
    {
      connect := false;
      if con.Some? {
        var _ := Sockets.Close(con.value);
      }
    }

    /** Exit: clears `work`, closes the socket and the listener. */
    method Exit()
      modifies this`work, this`connect, this`listening, Footprint()
      ensures !work && !connect && !listening
      ensures con.Some? ==> con.value.conn.closed && con.value.conn.incoming == old(con.value.conn.incoming)
    {
      work := false;
      Close();
      listening := false;
    }

    /** reload: asks `loop` to start over, then exits. */
    method Reload()
      modifies this`restart, this`work, this`connect, this`listening, Footprint()
      ensures restart && !work && !connect && !listening
      ensures con.Some? ==> con.value.conn.closed && con.value.conn.incoming == old(con.value.conn.incoming)
    {
      restart := true;
      Exit();
    }

    /** A console command run meanwhile; a reload first stores the address it carries, as parseLine does. */
    method Apply(cmd: Command)
      modifies this`restart, this`work, this`connect, this`listening, this`ip, this`port, Footprint()
      ensures !connect
      ensures work == (old(work) && cmd == CloseCmd)
      ensures listening == (old(listening) && cmd == CloseCmd)
      ensures restart == (old(restart) || cmd.ReloadCmd?)
      ensures cmd.ReloadCmd? ==> ip == cmd.ip && port == cmd.port
      ensures !cmd.ReloadCmd? ==> ip == old(ip) && port == old(port)
      ensures con.Some? ==> con.value.conn.closed && con.value.conn.incoming == old(con.value.conn.incoming)
    {
      match cmd
      case CloseCmd => Close();
      case ExitCmd => Exit();
      case ReloadCmd(a, p) =>
        ip, port := a, p;
        Reload();
    }

    /** Send: a no-op without a connected socket; otherwise exactly one `write` of the line. */
    method Send(line: string)
      modifies this`attempts, Footprint()
      ensures !old(connect) || con.None? ==> attempts == old(attempts) && (con.Some? ==> unchanged(con.value.conn))
      ensures old(connect) && con.Some? ==> attempts == old(attempts) + [line]
      ensures con.Some? ==> con.value.conn.incoming == old(con.value.conn.incoming)
      ensures old(connect) && con.Some? ==> Sockets.WroteFrame(con.value.conn, Sockets.Frame(con.value.variant, line))
    {
      if !connect || con.None? {
        return;
      }
      attempts := attempts + [line];
      var _ := Sockets.Write(con.value, line);
    }

    /** The stage and the replies sent since `base` are those of the conversation over `handled`. */
    ghost predicate Agrees(handled: seq<string>, base: seq<string>)
      reads this, parser
    {
      var t := Session.Converse(parser.codec, parser.token, 0, handled);
      parser.stage == t.stage && attempts == base + Session.RenderAll(render, t.sent)
    }

    /** One pass of connParser's loop over a non-empty line: Parse it and send the reply if flagged. */
    method Handle(text: string, ghost handled: seq<string>, ghost base: seq<string>)
      requires con.Some? && connect
      requires Agrees(handled, base)
      modifies this`attempts, parser`stage, Footprint()
      ensures Agrees(handled + [text], base)
      ensures con.value.conn.incoming == old(con.value.conn.incoming)
    {
      Session.StepReplies(parser.codec, parser.token, render, handled, text, base);
      ghost var o := ParseStep(parser.stage, parser.token, parser.codec.digest, ParseAny(parser.codec, text));
      ghost var t := Session.Converse(parser.codec, parser.token, 0, handled + [text]);
      ghost var before := attempts;
      assert before + (if o.send then [render(o.reply)] else []) == base + Session.RenderAll(render, t.sent);
      var reply, ok := parser.Parse(text);
      assert Outcome(parser.stage, reply, ok) == o;
      if ok {
        Send(render(reply));
      }
      assert attempts == before + (if ok then [render(reply)] else []);
    }

    /**
     * connParser: marks a client connected and resets the stage before the first read, then
     * hands each line to Parse until a read fails, a line is empty or a flag is cleared,
     * sends exactly the replies Parse flags, and always ends with Close. The lines handled
     * are the first requests of the connection, and the stage and the replies are those of
     * the conversation over them.
     */
    method ConnParser() returns (ghost handled: seq<string>)
      requires con.Some?
      modifies this`connect, this`work, this`restart, this`listening, this`ip, this`port, this`attempts, parser`stage, Footprint()
      ensures !connect && con.value.conn.closed
      ensures !old(work) ==> handled == []
      ensures old(work) ==> handled == Requests(old(con.value.conn.incoming))
      ensures Agrees(handled, old(attempts))
      ensures work ==> old(work)
      ensures listening ==> old(listening)
      ensures old(restart) ==> restart
      ensures restart || (ip == old(ip) && port == old(port))
    {
      connect := true;
      parser.stage := 0;
      handled := ReadLoop();
      Close();
    }

    /** The read loop of connParser, from a fresh stage with a client connected. */
    method ReadLoop() returns (ghost handled: seq<string>)
      requires con.Some? && connect && parser.stage == 0
      modifies this`connect, this`work, this`restart, this`listening, this`ip, this`port, this`attempts, parser`stage, Footprint()
      ensures !old(work) ==> handled == []
      ensures old(work) ==> handled == Requests(old(con.value.conn.incoming))
      ensures Agrees(handled, old(attempts))
      ensures work ==> old(work)
      ensures listening ==> old(listening)
      ensures old(restart) ==> restart
      ensures restart || (ip == old(ip) && port == old(port))
    {
      handled := [];
      var sock := con.value;
      ghost var requests := Requests(sock.conn.incoming);
      var stop := false;
      assert [] + requests == requests;
      while connect && work && !stop
        invariant con == Some(sock)
        invariant Session.Served(requests, handled, Requests(sock.conn.incoming), stop)
        invariant !old(work) ==> handled == []
        invariant old(work) && !stop ==> work && connect
        invariant work ==> old(work)
        invariant listening ==> old(listening)
        invariant old(restart) ==> restart
        invariant restart || (ip == old(ip) && port == old(port))
        invariant Agrees(handled, old(attempts))
        decreases |sock.conn.incoming|, if stop then 0 else 1
      {
        ghost var more;
        stop, more := Step(handled, old(attempts));
        if !stop {
          Session.ServedNext(requests, handled, more, Requests(sock.conn.incoming));
          handled := handled + [more];
        } else {
          Session.ServedAll(requests, handled);
        }
      }
    }

    /**
     * One pass of connParser's loop: read; stop on an error, an empty line or a console
     * command (which runs first); otherwise handle the line, the next request.
     */
    method Step(ghost handled: seq<string>, ghost base: seq<string>) returns (stop: bool, ghost line: string)
      requires con.Some? && connect
      requires Agrees(handled, base)
      modifies this`connect, this`work, this`restart, this`listening, this`ip, this`port, this`attempts, parser`stage, Footprint()
      ensures con == old(con)
      ensures |con.value.conn.incoming| <= |old(con.value.conn.incoming)|
      ensures !stop ==> |con.value.conn.incoming| < |old(con.value.conn.incoming)|
      ensures stop ==> Requests(old(con.value.conn.incoming)) == [] && Agrees(handled, base)
      ensures !stop ==> Requests(old(con.value.conn.incoming)) == [line] + Requests(con.value.conn.incoming) &&
                        Agrees(handled + [line], base) && connect && work == old(work)
      ensures work ==> old(work)
      ensures listening ==> old(listening)
      ensures old(restart) ==> restart
      ensures restart || (ip == old(ip) && port == old(port))
    {
      var e := Sockets.Read(con.value);
      line := "";
      if e.ReadFailed? {
        return true, line;
      } else if e.Console? {
        Apply(e.cmd);
        return true, line;
      }
      if e.line == "" {
        return true, line;
      }
      line := e.line;
      Handle(e.line, handled, base);
      return false, line;
    }

    /**
     * One accepted connection: made into a socket and served by connParser, or closed when
     * that fails; `con` is cleared afterwards either way. A failed upgrade leaves the error
     * text written straight to the connection, which is then closed, and nothing handled;
     * otherwise the requests handled are those the connection opens with.
     */
    method Serve(input: string, upgrade: Result<nat, string>, incoming: seq<ReadEvent>, faults: seq<Option<string>>)
      returns (c: Conn, ghost handled: seq<string>)
      requires con.None?
      modifies this`connect, this`work, this`restart, this`listening, this`ip, this`port, this`attempts, this`con, parser`stage
      ensures con.None? && fresh(c) && c.closed
      ensures Sockets.OpensWithGet(input) && upgrade.Failure? ==>
                handled == [] && attempts == old(attempts) && c.log == [DirectWrite(upgrade.error + "\r\n\r\n"), CloseOp]
      ensures !(Sockets.OpensWithGet(input) && upgrade.Failure?) ==> Agrees(handled, old(attempts)) && !connect
      ensures !(Sockets.OpensWithGet(input) && upgrade.Failure?) && old(work) ==> handled == Requests(incoming)
      ensures !old(work) ==> handled == []
      ensures work ==> old(work)
      ensures listening ==> old(listening)
      ensures old(restart) ==> restart
      ensures restart || (ip == old(ip) && port == old(port))
    {
      c := new Conn(input, incoming, faults);
      var made := SrcSockets.MakeSocket(c, upgrade);
      if made.Success? {
        con := Some(made.value);
        handled := ConnParser();
      } else {
        var _ := c.Close();
        handled := [];
      }
      con := None;
    }

    /**
     * run: accepts connections while `work` holds and the script lasts. Each is made into
     * a socket; a socket is served by connParser, a failed one is closed; `con` is cleared
     * afterwards either way. The listener is closed on the way out. A reload command run
     * meanwhile ends the pass with `restart` set and its address stored, so a pass consumes
     * at most one, as its last event.
     */
    method Run() returns (ghost consumed: seq<Event>)
      requires con.None?
      modifies this, parser`stage
      ensures con.None? && !listening
      ensures work ==> events == []
      ensures old(events) == consumed + events
      ensures ReloadsIn(consumed) <= 1
      ensures ReloadsIn(consumed) == 1 ==> restart && ReloadTo(consumed) == Some(Address(ip, port))
      ensures old(restart) ==> restart
      ensures restart && !old(restart) ==> consumed != []
      ensures restart || (ip == old(ip) && port == old(port))
      ensures binds == old(binds)
    {
      consumed := [];
      while work && events != []
        invariant con.None?
        invariant old(events) == consumed + events
        invariant ReloadsIn(consumed) <= 1
        invariant ReloadsIn(consumed) == 1 ==> restart && !work && ReloadTo(consumed) == Some(Address(ip, port))
        invariant old(restart) ==> restart
        invariant restart && !old(restart) ==> consumed != []
        invariant restart || (ip == old(ip) && port == old(port))
        invariant binds == old(binds)
        decreases |events|
      {
        var e := events[0];
        assert consumed + [e] + events[1..] == consumed + events;
        assert (consumed + [e])[..|consumed|] == consumed;
        consumed := consumed + [e];
        events := events[1..];
        match e
        case AcceptFailed(_) =>
        case Interrupted(cmd) => Apply(cmd);
        case Incoming(input, upgrade, incoming, faults) => var _, _ := Serve(input, upgrade, incoming, faults);
      }
      listening := false;
    }

    /**
     * loop: runs the accept loop; after a reload it sets `work` again, clears `restart`
     * and rebinds to the address as it now stands, otherwise it ends. Every pass but the
     * last is followed by one bind, and a pass that consumed a reload command is followed
     * by a bind to that command's address.
     */
    method Loop() returns (ghost consumed: seq<Event>, ghost rounds: seq<seq<Event>>)
      requires con.None? && !restart
      modifies this, parser`stage
      ensures con.None? && !restart && !listening
      ensures work ==> events == []
      ensures old(events) == consumed + events && consumed == Concat(rounds)
      ensures |rounds| > 0 && Rebound(rounds[..|rounds| - 1], old(binds), binds)
      ensures forall i | 0 <= i < |rounds| :: ReloadsIn(rounds[i]) <= 1
      ensures ReloadsIn(rounds[|rounds| - 1]) == 0
      ensures |old(binds)| + ReloadsIn(consumed) <= |binds|
      ensures |binds| > |old(binds)| ==> binds[|binds| - 1] == Address(ip, port)
      ensures |binds| == |old(binds)| ==> ip == old(ip) && port == old(port)
    {
      consumed := [];
      rounds := [];
      while true
        invariant con.None? && !restart
        invariant Looped(old(events), old(binds), Address(old(ip), old(port)), consumed, rounds, events, binds, Address(ip, port))
        decreases |events|
      {
        ghost var before, events0, prior := binds, events, Address(ip, port);
        ghost var round;
        var done;
        round, done := Pass();
        if done {
          LoopedLast(old(events), old(binds), Address(old(ip), old(port)), consumed, rounds, events0, binds, prior, round, events);
          consumed, rounds := consumed + round, rounds + [round];
          break;
        }
        LoopedNext(old(events), old(binds), Address(old(ip), old(port)), consumed, rounds, events0, before, prior, round, events, Address(ip, port));
        consumed, rounds := consumed + round, rounds + [round];
      }
    }

    /**
     * One pass of loop's body: run, then either rebind after a reload or report that the
     * loop ends.
     */
    method Pass() returns (ghost round: seq<Event>, done: bool)
      requires con.None? && !restart
      modifies this, parser`stage
      ensures con.None? && !restart
      ensures old(events) == round + events && ReloadsIn(round) <= 1
      ensures done ==> ReloadsIn(round) == 0 && !listening && (work ==> events == []) &&
                       binds == old(binds) && ip == old(ip) && port == old(port)
      ensures !done ==> round != [] && binds == old(binds) + [Address(ip, port)] &&
                        (ReloadTo(round).Some? ==> ReloadTo(round).value == Address(ip, port))
    {
      round := Run();
      if restart {
        work := true;
        restart := false;
        MakeServer();
        return round, false;
      }
      return round, true;
    }
  }
}
