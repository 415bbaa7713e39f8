/**
 * The console of the later revision (src/shell.go). Each line typed at the readline prompt
 * loses its leading spaces and is split at its first space into a command word and an
 * argument. `close`, `exit` and `ping` act as in the first revision; `port <n>` and
 * `ip <a>` change the listening address and reload the server; `token <t>` replaces the
 * parser's token; `remote_log` moves the parser to stage 3 and sends the bare word; `help`
 * only prints; anything else goes to the client as it is. When the console ends, the
 * server's restart flag is cleared and it exits.
 *
 * What the prompt returns is a script of entries; the time stamp of a ping comes from a
 * clock handed in as a parameter.
 */
module SrcShell {
  import opened Wrappers
  import opened Protocol
  import Decimal
  import SrcServer

  /** What one `Readline` call returns: a line, an interrupt with the text typed so far, or an error. */
  datatype Entry = Entered(line: string) | Interrupted(partial: string) | Failed(message: string)

  /** Where `text` first has a space, or its length when it has none. */
  function SpaceIndex(text: string): (i: nat)
    ensures i <= |text| && (i < |text| ==> text[i] == ' ')
    ensures forall j :: 0 <= j < i ==> text[j] != ' '
  {
    if text == [] || text[0] == ' ' then 0 else 1 + SpaceIndex(text[1..])
  }

  /**
   * `strings.SplitN(text, " ", 2)`: the text before the first space, and what follows that
   * space if there is one. Nothing is lost, and the command word never holds a space.
   */
  function Split(text: string): (r: (string, Option<string>))
    ensures ' ' !in r.0
    ensures r.1.None? ==> r.0 == text
    ensures r.1.Some? ==> text == r.0 + " " + r.1.value
  {
    var i := SpaceIndex(text);
    if i < |text| then
      assert text == text[..i] + " " + text[i + 1..];
      (text[..i], Some(text[i + 1..]))
    else (text, None)
  }

  /** A word without spaces, a space and anything: Split recovers the word and the rest. */
  lemma SplitJoin(cmd: string, rest: string)
    requires ' ' !in cmd
    ensures Split(cmd + " " + rest) == (cmd, Some(rest))
  {
    var text := cmd + " " + rest;
    var i := SpaceIndex(text);
    assert text[|cmd|] == ' ';
    assert forall j :: 0 <= j < |cmd| ==> text[j] == cmd[j];
    assert i == |cmd|;
    assert text[..i] == cmd && text[i + 1..] == rest;
  }

  /**
   * The argument parseLine uses (`isValue` and `value`): present only when something follows
   * the first space, and a lone space stands for the empty string.
   */
  function Argument(rest: Option<string>): (v: Option<string>)
    ensures v.Some? ==> rest.Some? && rest.value != ""
    ensures rest.Some? && rest.value != "" ==> v.Some?
    ensures v.Some? && v.value != "" ==> v == rest
  {
    if rest.Some? && rest.value != "" then Some(if rest.value == " " then "" else rest.value) else None
  }

  /** What parseLine does with a line, by its tests of the command word in order. */
  datatype Action =
    | Help
    | CloseConn
    | Quit
    | Ping
    | Port(value: Option<string>)
    | Ip(value: Option<string>)
    | Token(value: Option<string>)
    | RemoteLog
    | Forward(line: string)

  function Dispatch(text: string): (a: Action)
    ensures a.Forward? ==> a.line == text
    ensures a.Port? || a.Ip? || a.Token? ==> a.value == Argument(Split(text).1)
  {
    var (cmd, rest) := Split(text);
    var v := Argument(rest);
    if cmd == "help" then Help
    else if cmd == "close" then CloseConn
    else if cmd == "exit" then Quit
    else if cmd == "ping" then Ping
    else if cmd == "port" then Port(v)
    else if cmd == "ip" then Ip(v)
    else if cmd == "token" then Token(v)
    else if cmd == "remote_log" then RemoteLog
    else Forward(text)
  }

  /** The eight command words parseLine tests. */
  predicate IsCommandWord(cmd: string)
  {
    cmd == "help" || cmd == "close" || cmd == "exit" || cmd == "ping" ||
    cmd == "port" || cmd == "ip" || cmd == "token" || cmd == "remote_log"
  }

  /** A line is forwarded to the client, as typed, exactly when its command word is none of the eight. */
  lemma Forwarded(text: string)
    ensures Dispatch(text).Forward? <==> !IsCommandWord(Split(text).0)
    ensures Dispatch(text).Forward? ==> Dispatch(text).line == text
  {
  }

  /** A command word followed by a space and a value that is neither empty nor a lone space receives exactly that value. */
  lemma ValueCommand(cmd: string, v: string)
    requires ' ' !in cmd && v != "" && v != " "
    ensures Argument(Split(cmd + " " + v).1) == Some(v)
    ensures cmd == "token" ==> Dispatch(cmd + " " + v) == Token(Some(v))
    ensures cmd == "ip" ==> Dispatch(cmd + " " + v) == Ip(Some(v))
    ensures cmd == "port" ==> Dispatch(cmd + " " + v) == Port(Some(v))
  {
    SplitJoin(cmd, v);
  }

  /** Two spaces after a command word give it the empty string as its value. */
  lemma EmptyValue(cmd: string)
    requires ' ' !in cmd
    ensures Argument(Split(cmd + "  ").1) == Some("")
  {
    SplitJoin(cmd, " ");
    assert cmd + "  " == cmd + " " + " ";
  }

  /** The address and token the console can change. */
  datatype Settings = Settings(token: string, ip: string, port: nat)

  /** Whether parseLine reloads the server: a port that parses as a 16-bit number, or any ip value. */
  predicate Reloads(text: string)
  {
    match Dispatch(text)
    case Port(Some(v)) => Decimal.ParseUint16(v).Success?
    case Ip(Some(_)) => true
    case _ => false
  }

  /** The settings after one line. */
  function Configure(s: Settings, text: string): (r: Settings)
    ensures s.port <= Decimal.MaxUint16 ==> r.port <= Decimal.MaxUint16
    ensures r.ip != s.ip || r.port != s.port ==> Reloads(text)
  {
    match Dispatch(text)
    case Port(Some(v)) =>
      Decimal.ParseUint16Meaning(v);
      (match Decimal.ParseUint16(v)
       case Success(n) => s.(port := n)
       case Failure(_) => s)
    case Ip(Some(v)) => s.(ip := v)
    case Token(Some(v)) => s.(token := v)
    case _ => s
  }

  /** What the console stores: `token v` and `ip v` store v, for every v but "" and " ". */
  lemma ConfigureStores(s: Settings, v: string)
    requires v != "" && v != " "
    ensures Configure(s, "token " + v) == s.(token := v)
    ensures Configure(s, "ip " + v) == s.(ip := v)
  {
    ValueCommand("token", v);
    assert "token" + " " + v == "token " + v;
    ValueCommand("ip", v);
    assert "ip" + " " + v == "ip " + v;
  }

  /** `port` followed by a 16-bit number in decimal stores that number. */
  lemma ConfigureStoresPort(s: Settings, n: nat)
    requires n <= Decimal.MaxUint16
    ensures Configure(s, "port " + Decimal.Format(n)) == s.(port := n)
  {
    var v := Decimal.Format(n);
    Decimal.ParseFormatted(n);
    assert v != " " by { assert Decimal.IsDigit(v[0]); }
    ValueCommand("port", v);
  }

  /** A command followed by two spaces stores the empty string. */
  lemma ConfigureStoresEmpty(s: Settings)
    ensures Configure(s, "token  ") == s.(token := "")
    ensures Configure(s, "ip  ") == s.(ip := "")
  {
    SplitJoin("token", " ");
    assert "token" + " " + " " == "token  ";
    assert Dispatch("token  ") == Token(Some(""));
    SplitJoin("ip", " ");
    assert "ip" + " " + " " == "ip  ";
    assert Dispatch("ip  ") == Ip(Some(""));
  }

  /** The settings after a run of lines; a port that starts 16-bit stays 16-bit. */
  function SettingsAfter(s: Settings, cs: seq<string>): (r: Settings)
    ensures s.port <= Decimal.MaxUint16 ==> r.port <= Decimal.MaxUint16
  {
    if cs == [] then s
    else
      assert forall i :: 0 <= i < |cs| - 1 ==> cs[..|cs| - 1][i] == cs[i];
      Configure(SettingsAfter(s, cs[..|cs| - 1]), cs[|cs| - 1])
  }

  lemma SettingsSnoc(s: Settings, cs: seq<string>, text: string)
    ensures SettingsAfter(s, cs + [text]) == Configure(SettingsAfter(s, cs), text)
  {
    assert (cs + [text])[..|cs|] == cs;
  }

  /** A run of lines none of which reloads leaves the address as it was; only the token can change. */
  lemma {:induction false} AddressKept(s: Settings, cs: seq<string>)
    requires forall i :: 0 <= i < |cs| ==> !Reloads(cs[i])
    ensures SettingsAfter(s, cs).ip == s.ip && SettingsAfter(s, cs).port == s.port
  {
    if cs != [] {
      var init := cs[..|cs| - 1];
      assert forall i :: 0 <= i < |init| ==> init[i] == cs[i];
      AddressKept(s, init);
    }
  }

  /** `strings.TrimLeft(s, " ")`: the longest suffix that does not start with a space. */
  function TrimSpaces(s: string): (r: string)
    ensures |r| <= |s| && r == s[|s| - |r|..]
    ensures r == [] || r[0] != ' '
    ensures forall i :: 0 <= i < |s| - |r| ==> s[i] == ' '
  {
    if s != [] && s[0] == ' ' then TrimSpaces(s[1..]) else s
  }

  /**
   * The lines parseLine is given: every entered line, trimmed, until an error, the end of
   * the script or an interrupt on an empty prompt; an interrupt with text typed drops that text.
   */
  function Commands(script: seq<Entry>): (cs: seq<string>)
    ensures |cs| <= |script|
    ensures forall i :: 0 <= i < |cs| ==> cs[i] == [] || cs[i][0] != ' '
  {
    if script == [] then []
    else match script[0]
      case Entered(line) => [TrimSpaces(line)] + Commands(script[1..])
      case Interrupted(partial) => if partial == "" then [] else Commands(script[1..])
      case Failed(_) => []
  }

  /** The line ends the console: its command word is `exit`. */
  predicate IsExit(text: string)
  {
    text == "exit" || (|text| > 4 && text[..5] == "exit ")
  }

  lemma ExitWord(text: string)
    ensures IsExit(text) <==> Dispatch(text).Quit?
  {
    var i := SpaceIndex(text);
    if i < |text| && text[..i] == "exit" {
      assert text[..5] == text[..i] + [text[i]];
    }
    if |text| > 4 && text[..5] == "exit " {
      assert text[4] == text[..5][4] == ' ';
      assert forall j :: 0 <= j < 4 ==> text[j] == text[..5][j] != ' ';
      assert text[..i] == text[..5][..4];
    }
  }

  /** An entered line is the next command. */
  lemma EnteredConsumed(origin: seq<Entry>, handled: seq<string>, script: seq<Entry>)
    requires script != [] && script[0].Entered?
    requires handled + Commands(script) == Commands(origin)
    ensures (handled + [TrimSpaces(script[0].line)]) + Commands(script[1..]) == Commands(origin)
  {
    var next := TrimSpaces(script[0].line);
    var rest := Commands(script[1..]);
    assert Commands(script) == [next] + rest;
    assert (handled + [next]) + rest == handled + ([next] + rest);
  }

  /** No line before the last is an exit, and the console still works exactly when the last line is not one either. */
  ghost predicate ExitsLast(handled: seq<string>, work: bool)
  {
    (forall i :: 0 <= i < |handled| - 1 ==> !IsExit(handled[i])) &&
    (work <==> handled == [] || !IsExit(handled[|handled| - 1]))
  }

  class Shell {
    const srv: SrcServer.Server
    var work: bool
    /** What the prompt will return, call by call. */
    var script: seq<Entry>

    constructor (srv: SrcServer.Server, script: seq<Entry>)
      ensures this.srv == srv && this.script == script && !work
    {
      this.srv := srv;
      this.script := script;
      work := false;
    }

    function Current(): Settings
      reads srv, srv.parser
    {
      Settings(srv.parser.token, srv.ip, srv.port)
    }

    /** The settings are those a run of lines leaves, starting from `base`. */
    ghost predicate Tracks(base: Settings, handled: seq<string>)
      reads srv, srv.parser
    {
      Current() == SettingsAfter(base, handled)
    }

    /**
     * parseLine: dispatches on the command word. A port or ip with a valid value is stored
     * and the server reloads; a token value is stored; remote_log puts the parser in stage
     * 3 and sends only the word; `close` closes the client; `exit` clears the console's
     * flag; `help`, or a setting without a usable value, only prints; other lines are sent
     * as typed.
     */
    method ParseLine(text: string, stamp: string)
      requires stamp != ""
      modifies this`work, srv`connect, srv`work, srv`restart, srv`listening, srv`ip, srv`port, srv`attempts,
               srv.Footprint(), srv.parser`token, srv.parser`stage
      ensures work == (old(work) && !Dispatch(text).Quit?)
      ensures Current() == Configure(old(Current()), text)
      ensures srv.parser.stage == if Dispatch(text).RemoteLog? then 3 else old(srv.parser.stage)
      ensures Reloads(text) ==>
                srv.restart && !srv.work && !srv.connect && !srv.listening && srv.attempts == old(srv.attempts) &&
                (srv.con.Some? ==> srv.con.value.conn.closed)
      ensures !Reloads(text) ==>
                srv.work == old(srv.work) && srv.restart == old(srv.restart) && srv.listening == old(srv.listening)
      ensures Dispatch(text).CloseConn? ==>
                !srv.connect && srv.attempts == old(srv.attempts) && (srv.con.Some? ==> srv.con.value.conn.closed)
      ensures (Dispatch(text).Help? || Dispatch(text).Quit? || Dispatch(text).Token? || Dispatch(text).Port? || Dispatch(text).Ip?) && !Reloads(text) ==>
                srv.connect == old(srv.connect) && srv.attempts == old(srv.attempts) && (srv.con.Some? ==> unchanged(srv.con.value.conn))
      ensures Dispatch(text).Ping? ==>
                srv.attempts == old(srv.attempts) + if old(srv.connect) && srv.con.Some? then [srv.render(PingRequest(stamp).text)] else []
      ensures Dispatch(text).RemoteLog? ==>
                srv.attempts == old(srv.attempts) + if old(srv.connect) && srv.con.Some? then ["remote_log"] else []
      ensures Dispatch(text).Forward? ==>
                srv.attempts == old(srv.attempts) + if old(srv.connect) && srv.con.Some? then [text] else []
    {
      match Dispatch(text) {
        case Help =>
        case CloseConn =>
          srv.Close();
        case Quit =>
          work := false;
        case Ping =>
          var ping := PingRequest(stamp);
          if ping.ok {
            srv.Send(srv.render(ping.text));
          }
        case Port(_) =>
          Store(text);
        case Ip(_) =>
          Store(text);
        case Token(_) =>
          Store(text);
        case RemoteLog =>
          srv.parser.stage := 3;
          srv.Send("remote_log");
        case Forward(line) =>
          srv.Send(line);
      }
    }

    /** ParseLine's port, ip and token branches. */
    method Store(text: string)
      requires Dispatch(text).Port? || Dispatch(text).Ip? || Dispatch(text).Token?
      modifies srv`connect, srv`work, srv`restart, srv`listening, srv`ip, srv`port, srv.Footprint(), srv.parser`token
      ensures Current() == Configure(old(Current()), text)
      ensures srv.attempts == old(srv.attempts)
      ensures Reloads(text) ==>
                srv.restart && !srv.work && !srv.connect && !srv.listening && (srv.con.Some? ==> srv.con.value.conn.closed)
      ensures !Reloads(text) ==>
                srv.work == old(srv.work) && srv.restart == old(srv.restart) && srv.listening == old(srv.listening) &&
                srv.connect == old(srv.connect) && (srv.con.Some? ==> unchanged(srv.con.value.conn))
    {
      match Dispatch(text) {
        case Port(value) =>
          if value.Some? {
            var parsed := Decimal.ParseUint16(value.value);
            if parsed.Success? {
              srv.port := parsed.value;
              srv.Reload();
            }
          }
        case Ip(value) =>
          if value.Some? {
            srv.ip := value.value;
            srv.Reload();
          }
        case Token(value) =>
          if value.Some? {
            srv.parser.token := value.value;
          }
      }
    }

    /**
     * RunForever: reads entries until the script ends, an error, an interrupt on an empty
     * prompt or `exit`, or until the server neither works nor is restarting; hands each
     * entered line, without its leading spaces, to parseLine in order. On the way out the
     * restart flag is cleared and the server exits. `clock(k)` is the time, printed with
     * `%f`, when the `k`-th entry was read.
     */
    method RunForever(clock: nat -> string) returns (ghost handled: seq<string>)
      requires forall k :: clock(k) != ""
      modifies this`work, this`script, srv`connect, srv`work, srv`restart, srv`listening, srv`ip, srv`port,
               srv`attempts, srv.Footprint(), srv.parser`token, srv.parser`stage
      ensures handled <= Commands(old(script))
      ensures forall i :: 0 <= i < |handled| - 1 ==> !IsExit(handled[i])
      ensures old(srv.work || srv.restart) && handled != Commands(old(script)) ==> handled != [] && IsExit(handled[|handled| - 1])
      ensures !old(srv.work || srv.restart) ==> handled == []
      ensures Tracks(old(Current()), handled)
      ensures !srv.restart && !srv.work && !srv.connect && !srv.listening
    {
      work := true;
      handled := ReadLoop(clock);
      ghost var settings := Current();
      srv.restart := false;
      srv.Exit();
      assert Current() == settings;
    }

    /** RunForever's loop, with the console's flag set. */
    method ReadLoop(clock: nat -> string) returns (ghost handled: seq<string>)
      requires forall k :: clock(k) != ""
      requires work
      modifies this`work, this`script, srv`connect, srv`work, srv`restart, srv`listening, srv`ip, srv`port,
               srv`attempts, srv.Footprint(), srv.parser`token, srv.parser`stage
      ensures srv.con == old(srv.con)
      ensures handled <= Commands(old(script))
      ensures forall i :: 0 <= i < |handled| - 1 ==> !IsExit(handled[i])
      ensures old(srv.work || srv.restart) && handled != Commands(old(script)) ==> handled != [] && IsExit(handled[|handled| - 1])
      ensures !old(srv.work || srv.restart) ==> handled == []
      ensures Tracks(old(Current()), handled)
    {
      ghost var base := Current();
      ghost var origin := script;
      ghost var active := srv.work || srv.restart;
      handled := [];
      var k := 0;
      var stop := false;
      while work && (srv.work || srv.restart) && !stop
        invariant srv.con == old(srv.con)
        invariant (srv.work || srv.restart) == active
        invariant !active ==> handled == []
        invariant Consumed(origin, handled, stop)
        invariant ExitsLast(handled, work)
        invariant Tracks(base, handled)
        decreases |script|, if stop then 0 else 1
      {
        k := k + 1;
        stop, handled := Step(clock(k), origin, base, handled);
      }
    }

    /** The lines handled are the first ones the entries the console started with give, all of them once it stops reading. */
    ghost predicate Consumed(origin: seq<Entry>, handled: seq<string>, stop: bool)
      reads this
    {
      (!stop ==> handled + Commands(script) == Commands(origin)) &&
      (stop ==> handled == Commands(origin))
    }

    /**
     * One pass of RunForever's loop: stop on an error, the end of the script or an interrupt
     * on an empty prompt; skip an interrupt with text typed; otherwise trim the line and hand
     * it to parseLine.
     */
    method Step(stamp: string, ghost origin: seq<Entry>, ghost base: Settings, ghost handled: seq<string>)
      returns (stop: bool, ghost handled': seq<string>)
      requires stamp != ""
      requires work && Consumed(origin, handled, false) && ExitsLast(handled, work) && Tracks(base, handled)
      modifies this`work, this`script, srv`connect, srv`work, srv`restart, srv`listening, srv`ip, srv`port,
               srv`attempts, srv.Footprint(), srv.parser`token, srv.parser`stage
      ensures |script| <= |old(script)| && (!stop ==> |script| < |old(script)|)
      ensures Consumed(origin, handled', stop) && ExitsLast(handled', work) && Tracks(base, handled')
      ensures old(srv.work || srv.restart) ==> srv.work || srv.restart
    {
      handled' := handled;
      if script == [] {
        assert handled + [] == handled;
        return true, handled';
      }
      var e := script[0];
      script := script[1..];
      match e {
        case Interrupted(partial) =>
          assert handled + [] == handled;
          return partial == "", handled';
        case Failed(_) =>
          assert handled + [] == handled;
          return true, handled';
        case Entered(line) =>
          var trimmed := TrimSpaces(line);
          Handle(trimmed, stamp, base, handled);
          handled' := handled + [trimmed];
          EnteredConsumed(origin, handled, old(script));
          return false, handled';
      }
    }

    /** parseLine on the next line, as it extends the run of lines handled so far. */
    method Handle(text: string, stamp: string, ghost base: Settings, ghost handled: seq<string>)
      requires stamp != ""
      requires work && Tracks(base, handled) && ExitsLast(handled, work)
      modifies this`work, srv`connect, srv`work, srv`restart, srv`listening, srv`ip, srv`port,
               srv`attempts, srv.Footprint(), srv.parser`token, srv.parser`stage
      ensures Tracks(base, handled + [text]) && ExitsLast(handled + [text], work)
      ensures old(srv.work || srv.restart) ==> srv.work || srv.restart
    {
      SettingsSnoc(base, handled, text);
      ExitWord(text);
      ParseLine(text, stamp);
    }
  }
}
