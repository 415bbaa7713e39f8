/**
 * The console of the first revision (shell.go). It reads standard input a line at a time,
 * strips the line ends, skips empty lines and acts on the rest: `close` drops the client,
 * `exit` ends the console, `ping` sends a ping request, `token <t>` replaces the parser's
 * token, and any other line goes to the client as it is. When the console ends, for any
 * reason, the server exits.
 *
 * Standard input is the string still to be read; the time stamp of a ping comes from a
 * clock handed in as a parameter.
 */
module RootShell {
  import opened Wrappers
  import opened Protocol
  import RootServer

  /** What parseLine does with a line, by its tests in order. */
  datatype Action = CloseConn | Quit | Ping | SetToken(token: string) | Forward(line: string)

  /** parseLine's choice of branch. A token command carries what follows `token `; anything else is forwarded verbatim. */
  function Dispatch(text: string): (a: Action)
    ensures a.SetToken? ==> text == "token " + a.token
    ensures a.Forward? ==> a.line == text
  {
    if text == "close" then CloseConn
    else if text == "exit" then Quit
    else if text == "ping" then Ping
    else if |text| >= 6 && text[..6] == "token " then SetToken(text[6..])
    else Forward(text)
  }

  /** Every `token ` line sets the token to the rest of the line, spaces included. */
  lemma TokenCommand(t: string)
    ensures Dispatch("token " + t) == SetToken(t)
  {
    assert ("token " + t)[..6] == "token ";
    assert ("token " + t)[6..] == t;
  }

  /** A line is forwarded exactly when it is none of the three words and does not open with `token `. */
  lemma Forwarded(text: string)
    ensures Dispatch(text).Forward? <==> text != "close" && text != "exit" && text != "ping" && !(exists t :: text == "token " + t)
  {
    if exists t :: text == "token " + t {
      var t :| text == "token " + t;
      TokenCommand(t);
    }
  }

  /**
   * `bufio.Reader.ReadString('\n')`: the text up to and including the first line feed, and
   * what is left; `None` (an error, io.EOF) when no line feed remains.
   */
  function ReadString(input: string): (r: Option<(string, string)>)
    ensures r.None? <==> '\n' !in input
    ensures r.Some? ==> input == r.value.0 + r.value.1 && |r.value.0| > 0 &&
                        r.value.0[|r.value.0| - 1] == '\n' && '\n' !in r.value.0[..|r.value.0| - 1]
  {
    if input == [] then None
    else if input[0] == '\n' then Some(("\n", input[1..]))
    else
      match ReadString(input[1..])
      case None => None
      case Some((line, rest)) =>
        assert ([input[0]] + line)[..|line|] == [input[0]] + line[..|line| - 1];
        Some(([input[0]] + line, rest))
  }

  predicate IsLineEnd(c: char)
  {
    c == '\r' || c == '\n'
  }

  /** `strings.TrimRight(s, "\r\n")`: the longest prefix that does not end in a carriage return or line feed. */
  function TrimLineEnds(s: string): (r: string)
    ensures r <= s
    ensures r == [] || !IsLineEnd(r[|r| - 1])
    ensures forall i :: |r| <= i < |s| ==> IsLineEnd(s[i])
  {
    if s != [] && IsLineEnd(s[|s| - 1]) then TrimLineEnds(s[..|s| - 1]) else s
  }

  /** The lines parseLine is given: every complete line of the input, trimmed, unless it is then empty. */
  function Commands(input: string): (cs: seq<string>)
    ensures forall i :: 0 <= i < |cs| ==> cs[i] != ""
    decreases |input|
  {
    match ReadString(input)
    case None => []
    case Some((line, rest)) =>
      var text := TrimLineEnds(line);
      if text == "" then Commands(rest) else [text] + Commands(rest)
  }

  /**
   * The parser's token after a run of commands: the one the last token command set, or the
   * initial one when there was none.
   */
  function TokenAfter(token: string, cs: seq<string>): (r: string)
    ensures (forall i :: 0 <= i < |cs| ==> !Dispatch(cs[i]).SetToken?) ==> r == token
    ensures (exists i :: 0 <= i < |cs| && Dispatch(cs[i]).SetToken?) ==>
              exists i :: 0 <= i < |cs| && Dispatch(cs[i]) == SetToken(r) &&
                          forall j :: i < j < |cs| ==> !Dispatch(cs[j]).SetToken?
  {
    if cs == [] then token
    else
      var prev := TokenAfter(token, cs[..|cs| - 1]);
      assert forall i :: 0 <= i < |cs| - 1 ==> cs[..|cs| - 1][i] == cs[i];
      match Dispatch(cs[|cs| - 1])
      case SetToken(t) => t
      case _ => prev
  }

  class Shell {
    const srv: RootServer.Server
    var work: bool
    /** What standard input still holds. */
    var input: string

    constructor (srv: RootServer.Server, input: string)
      ensures this.srv == srv && this.input == input && !work
    {
      this.srv := srv;
      this.input := input;
      work := false;
    }

    /**
     * parseLine: `close` closes the client, `exit` clears the console's flag, `ping` sends a
     * ping request, `token <t>` sets the token, and any other line is sent as it is.
     */
    method ParseLine(text: string, stamp: string)
      requires stamp != ""
      requires srv.Valid()
      modifies this`work, srv`connect, srv`attempts, srv.con, srv.parser`token
      ensures srv.Valid() && srv.con == old(srv.con) && srv.work == old(srv.work) && srv.listening == old(srv.listening)
      ensures work == (old(work) && !Dispatch(text).Quit?)
      ensures srv.parser.token == if Dispatch(text).SetToken? then Dispatch(text).token else old(srv.parser.token)
      ensures Dispatch(text).CloseConn? ==>
                !srv.connect && srv.attempts == old(srv.attempts) && (srv.con != null ==> srv.con.closed)
      ensures Dispatch(text).Quit? || Dispatch(text).SetToken? ==>
                srv.connect == old(srv.connect) && srv.attempts == old(srv.attempts) && (srv.con != null ==> unchanged(srv.con))
      ensures Dispatch(text).Ping? ==>
                srv.attempts == old(srv.attempts) + if old(srv.connect) then [srv.render(PingRequest(stamp).text)] else []
      ensures Dispatch(text).Forward? ==>
                srv.attempts == old(srv.attempts) + if old(srv.connect) then [text] else []
    {
      if text == "close" {
        srv.Close();
      } else if text == "exit" {
        work := false;
      } else if text == "ping" {
        var ping := PingRequest(stamp);
        if ping.ok {
          srv.Send(srv.render(ping.text));
        }
      } else if |text| >= 6 && text[..6] == "token " {
        srv.parser.token := text[6..];
      } else {
        srv.Send(text);
      }
    }

    /**
     * RunForever: reads lines until standard input runs out, `exit` is entered or the server
     * stops working, hands each non-empty trimmed line to parseLine in order, and always
     * ends with the server's Exit. The token is then the one the last token command set.
     * `clock(k)` is the time, printed with `%f`, when the `k`-th line was read.
     */
    method RunForever(clock: nat -> string) returns (ghost handled: seq<string>)
      requires forall k :: clock(k) != ""
      requires srv.Valid()
      modifies this`work, this`input, srv`work, srv`connect, srv`listening, srv`attempts, srv.con, srv.parser`token
      ensures handled <= Commands(old(input))
      ensures forall i :: 0 <= i < |handled| - 1 ==> handled[i] != "exit"
      ensures old(srv.work) && handled != Commands(old(input)) ==> handled != [] && handled[|handled| - 1] == "exit"
      ensures !old(srv.work) ==> handled == []
      ensures srv.parser.token == TokenAfter(old(srv.parser.token), handled)
      ensures !srv.work && !srv.connect && !srv.listening && srv.con == old(srv.con)
    {
      handled := [];
      work := true;
      ghost var origin := input;
      assert [] + Commands(input) == Commands(origin);
      var k := 0;
      var stop := false;
      while work && srv.work && !stop
        invariant srv.Valid() && srv.con == old(srv.con) && srv.work == old(srv.work)
        invariant Consumed(origin, handled, stop) && ExitsLast(handled, work)
        invariant !old(srv.work) ==> handled == []
        invariant srv.parser.token == TokenAfter(old(srv.parser.token), handled)
        decreases |input|, if stop then 0 else 1
      {
        k := k + 1;
        stop, handled := Step(clock(k), origin, handled, old(srv.parser.token));
      }
      if !stop {
        assert (handled + Commands(input))[..|handled|] == handled;
      }
      srv.Exit();
    }

    /** The commands handled so far and what standard input still holds make up those of `origin`. */
    ghost predicate Consumed(origin: string, handled: seq<string>, stop: bool)
      reads this
    {
      (!stop ==> handled + Commands(input) == Commands(origin)) &&
      (stop ==> handled == Commands(origin))
    }

    /**
     * One pass of RunForever's loop: read a line; stop at the end of input; skip a line that
     * is empty once trimmed; otherwise hand it to parseLine.
     */
    method Step(stamp: string, ghost origin: string, ghost handled: seq<string>, ghost token: string)
      returns (stop: bool, ghost handled': seq<string>)
      requires stamp != ""
      requires srv.Valid() && work && Consumed(origin, handled, false) && ExitsLast(handled, work)
      requires srv.parser.token == TokenAfter(token, handled)
      modifies this`work, this`input, srv`connect, srv`attempts, srv.con, srv.parser`token
      ensures srv.Valid() && srv.con == old(srv.con) && srv.work == old(srv.work)
      ensures |input| <= |old(input)| && (!stop ==> |input| < |old(input)|)
      ensures Consumed(origin, handled', stop) && ExitsLast(handled', work)
      ensures srv.parser.token == TokenAfter(token, handled')
    {
      handled' := handled;
      var next := ReadString(input);
      if next.None? {
        assert handled + [] == handled;
        return true, handled';
      }
      ghost var before := input;
      var line := next.value.0;
      input := next.value.1;
      var trimmed := TrimLineEnds(line);
      if trimmed == "" {
        return false, handled';
      }
      Handle(trimmed, stamp, handled, token);
      stop := false;
      handled' := handled + [trimmed];
      NextCommand(Commands(origin), handled, trimmed, Commands(input));
    }

    /** parseLine on a non-empty line, stated over the commands handled before it. */
    method Handle(text: string, stamp: string, ghost handled: seq<string>, ghost token: string)
      requires stamp != ""
      requires srv.Valid() && work && ExitsLast(handled, work)
      requires srv.parser.token == TokenAfter(token, handled)
      modifies this`work, srv`connect, srv`attempts, srv.con, srv.parser`token
      ensures srv.Valid() && srv.con == old(srv.con) && srv.work == old(srv.work)
      ensures ExitsLast(handled + [text], work)
      ensures srv.parser.token == TokenAfter(token, handled + [text])
    {
      ParseLine(text, stamp);
      assert (handled + [text])[..|handled|] == handled;
    }
  }

  /** `exit` can only be the last command handled, and is the last one exactly when the console stopped. */
  ghost predicate ExitsLast(handled: seq<string>, work: bool)
  {
    (forall i :: 0 <= i < |handled| - 1 ==> handled[i] != "exit") &&
    (work <==> handled == [] || handled[|handled| - 1] != "exit")
  }

  /** Handing on the next command keeps the commands handled and those still to come together. */
  lemma NextCommand(all: seq<string>, handled: seq<string>, next: string, rest: seq<string>)
    requires handled + ([next] + rest) == all
    ensures (handled + [next]) + rest == all
  {
    assert (handled + [next]) + rest == handled + ([next] + rest);
  }
}
