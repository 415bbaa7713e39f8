/**
 * The life of one connection under the parser: both revisions of `connParser` reset the
 * stage to 0, hand each line to `Parse` until the first empty one (which ends the
 * connection) and send exactly the replies whose flag is set. `Converse` is that loop as a
 * function; the lemmas are the properties of the stage machine that only show over
 * several lines.
 */
module Session {
  import opened Wrappers
  import opened Protocol

  /** The stage a run of lines ends in, and the replies it sends, in order. */
  datatype Transcript = Transcript(stage: nat, sent: seq<Text>)

  /** connParser's loop from `stage` over the lines read: at most one reply per line, none from stage 3. */
  function Converse(codec: Codec, token: string, stage: nat, lines: seq<string>): (r: Transcript)
    ensures |r.sent| <= |lines|
    ensures stage > 2 ==> r == Transcript(stage, [])
    decreases |lines|
  {
    if lines == [] then Transcript(stage, [])
    else
      var o := ParseStep(stage, token, codec.digest, ParseAny(codec, lines[0]));
      var rest := Converse(codec, token, o.stage, lines[1..]);
      Transcript(rest.stage, (if o.send then [o.reply] else []) + rest.sent)
  }

  /** Appending one line to a conversation performs one more Parse step on the stage reached so far. */
  lemma {:induction false} ConverseSnoc(codec: Codec, token: string, stage: nat, lines: seq<string>, line: string)
    ensures var t := Converse(codec, token, stage, lines);
            var o := ParseStep(t.stage, token, codec.digest, ParseAny(codec, line));
            Converse(codec, token, stage, lines + [line]) == Transcript(o.stage, t.sent + (if o.send then [o.reply] else []))
    decreases |lines|
  {
    if lines == [] {
      assert [line][1..] == [];
    } else {
      var o := ParseStep(stage, token, codec.digest, ParseAny(codec, lines[0]));
      assert (lines + [line])[1..] == lines[1..] + [line];
      ConverseSnoc(codec, token, o.stage, lines[1..], line);
    }
  }

  /**
   * Over any run of lines the stage never falls, rises by at most one per line, and never
   * leaves 0..2 once inside it; from stage 3 (set by remote_log) every line is dropped unanswered.
   */
  lemma {:induction false} StageBounds(codec: Codec, token: string, stage: nat, lines: seq<string>)
    ensures var t := Converse(codec, token, stage, lines);
            stage <= t.stage <= stage + |lines| &&
            (stage <= 2 ==> t.stage <= 2) &&
            (stage > 2 ==> t == Transcript(stage, []))
    decreases |lines|
  {
    if lines != [] {
      var o := ParseStep(stage, token, codec.digest, ParseAny(codec, lines[0]));
      StageBounds(codec, token, o.stage, lines[1..]);
    }
  }

  /**
   * How far a read loop has got through a connection's requests: all of them once it has
   * stopped, and otherwise those handled followed by those still to come.
   */
  ghost predicate Served(requests: seq<string>, handled: seq<string>, left: seq<string>, stop: bool)
  {
    if stop then handled == requests else handled + left == requests
  }

  /** Handling the next request keeps the split. */
  lemma ServedNext(requests: seq<string>, handled: seq<string>, more: string, left: seq<string>)
    requires handled + ([more] + left) == requests
    ensures (handled + [more]) + left == requests
  {
  }

  /** A loop that finds no request left has handled them all. */
  lemma ServedAll(requests: seq<string>, handled: seq<string>)
    requires handled + [] == requests
    ensures handled == requests
  {
  }

  /** The requests handled so far are the first ones. */
  lemma ServedPrefix(requests: seq<string>, handled: seq<string>, left: seq<string>, stop: bool)
    requires Served(requests, handled, left, stop)
    ensures |handled| <= |requests| && handled == requests[..|handled|]
  {
    if !stop {
      assert (handled + left)[..|handled|] == handled;
    }
  }

  /** The replies as the strings handed to Send. */
  function RenderAll(render: Text -> string, ts: seq<Text>): (r: seq<string>)
    ensures |r| == |ts| && forall i :: 0 <= i < |ts| ==> r[i] == render(ts[i])
  {
    if ts == [] then [] else [render(ts[0])] + RenderAll(render, ts[1..])
  }

  lemma RenderAllAppend(render: Text -> string, a: seq<Text>, b: seq<Text>)
    ensures RenderAll(render, a + b) == RenderAll(render, a) + RenderAll(render, b)
  {
  }

  /** One more line adds one Parse step to the conversation and its flagged reply, rendered, to what is sent. */
  lemma StepReplies(codec: Codec, token: string, render: Text -> string, handled: seq<string>, text: string, base: seq<string>)
    ensures var t := Converse(codec, token, 0, handled);
            var o := ParseStep(t.stage, token, codec.digest, ParseAny(codec, text));
            var t' := Converse(codec, token, 0, handled + [text]);
            t'.stage == o.stage &&
            base + RenderAll(render, t'.sent) == base + RenderAll(render, t.sent) + (if o.send then [render(o.reply)] else [])
  {
    var t := Converse(codec, token, 0, handled);
    var o := ParseStep(t.stage, token, codec.digest, ParseAny(codec, text));
    ConverseSnoc(codec, token, 0, handled, text);
    RenderAllAppend(render, t.sent, if o.send then [o.reply] else []);
    Associative(base, RenderAll(render, t.sent), if o.send then [render(o.reply)] else []);
  }

  /** The line at `i` is an authorization that the stage-0 parser accepts. */
  predicate Authorizes(codec: Codec, token: string, line: string)
  {
    Advances(0, token, codec.digest, ParseAny(codec, line))
  }

  /** The line is an `upgrade duplex` call. */
  predicate Upgrades(codec: Codec, token: string, line: string)
  {
    Advances(1, token, codec.digest, ParseAny(codec, line))
  }

  /** A connection leaves stage 0 only through an accepted authorization line. */
  lemma {:induction false} AuthorizationNeeded(codec: Codec, token: string, lines: seq<string>)
    requires Converse(codec, token, 0, lines).stage >= 1
    ensures exists i :: 0 <= i < |lines| && Authorizes(codec, token, lines[i])
    decreases |lines|
  {
    var o := ParseStep(0, token, codec.digest, ParseAny(codec, lines[0]));
    if o.stage == 0 {
      AuthorizationNeeded(codec, token, lines[1..]);
      var i :| 0 <= i < |lines[1..]| && Authorizes(codec, token, lines[1..][i]);
      assert lines[i + 1] == lines[1..][i];
    } else {
      assert Authorizes(codec, token, lines[0]);
    }
  }

  lemma {:induction false} UpgradeNeeded(codec: Codec, token: string, lines: seq<string>)
    requires Converse(codec, token, 1, lines).stage == 2
    ensures exists j :: 0 <= j < |lines| && Upgrades(codec, token, lines[j])
    decreases |lines|
  {
    var o := ParseStep(1, token, codec.digest, ParseAny(codec, lines[0]));
    if o.stage == 1 {
      UpgradeNeeded(codec, token, lines[1..]);
      var j :| 0 <= j < |lines[1..]| && Upgrades(codec, token, lines[1..][j]);
      assert lines[j + 1] == lines[1..][j];
    } else {
      assert Upgrades(codec, token, lines[0]);
    }
  }

  /** A connection is active (stage 2) only after an accepted authorization followed, later, by `upgrade duplex`. */
  lemma {:induction false} ActiveNeedsHandshake(codec: Codec, token: string, lines: seq<string>)
    requires Converse(codec, token, 0, lines).stage == 2
    ensures exists i, j :: 0 <= i < j < |lines| && Authorizes(codec, token, lines[i]) && Upgrades(codec, token, lines[j])
    decreases |lines|
  {
    var o := ParseStep(0, token, codec.digest, ParseAny(codec, lines[0]));
    if o.stage == 0 {
      ActiveNeedsHandshake(codec, token, lines[1..]);
      var i, j :| 0 <= i < j < |lines[1..]| && Authorizes(codec, token, lines[1..][i]) && Upgrades(codec, token, lines[1..][j]);
      assert lines[i + 1] == lines[1..][i] && lines[j + 1] == lines[1..][j];
    } else {
      assert Authorizes(codec, token, lines[0]);
      UpgradeNeeded(codec, token, lines[1..]);
      var j :| 0 <= j < |lines[1..]| && Upgrades(codec, token, lines[1..][j]);
      assert lines[j + 1] == lines[1..][j];
    }
  }

  /** The three steps of the documented handshake, one line at a time. */
  lemma AuthorizationStep(codec: Codec, token: string, id: Value, line: string)
    requires codec.syntax(line) == Success(Obj(IdMember(id) + [Member("method", Str("authorization")), Member("params", Arr([Str(codec.digest(token))]))]))
    ensures ParseStep(0, token, codec.digest, ParseAny(codec, line)) == Outcome(1, MakeReply("authorized", id).text, id != Null)
  {
    RequestDecodes("authorization", codec.digest(token), id);
  }

  lemma UpgradeStep(codec: Codec, token: string, id: Value, line: string)
    requires codec.syntax(line) == Success(Obj(IdMember(id) + [Member("method", Str("upgrade duplex"))]))
    ensures ParseStep(1, token, codec.digest, ParseAny(codec, line)) == Outcome(2, MakeReply("upgraded", id).text, id != Null)
  {
    CallDecodes("upgrade duplex", id);
    assert ParseAny(codec, line) == Success(Envelope(id, "", None, "upgrade duplex", Null));
  }

  lemma PingStep(codec: Codec, token: string, id: Value, line: string, param: string)
    requires codec.syntax(line) == Success(Obj(IdMember(id) + [Member("method", Str("ping")), Member("params", Arr([Str(param)]))]))
    ensures ParseStep(2, token, codec.digest, ParseAny(codec, line)) == Outcome(2, MakeReply(param, id).text, id != Null)
  {
    RequestDecodes("ping", param, id);
  }

  /** The replies one Parse step sends. */
  function Sent(o: Outcome): seq<Text>
  {
    if o.send then [o.reply] else []
  }

  /** Two lines are two Parse steps, the second from the stage the first reached. */
  lemma ConverseTwo(codec: Codec, token: string, stage: nat, b: string, c: string)
    ensures var o2 := ParseStep(stage, token, codec.digest, ParseAny(codec, b));
            var o3 := ParseStep(o2.stage, token, codec.digest, ParseAny(codec, c));
            Converse(codec, token, stage, [b, c]) == Transcript(o3.stage, Sent(o2) + Sent(o3))
  {
    var o2 := ParseStep(stage, token, codec.digest, ParseAny(codec, b));
    ConverseCons(codec, token, o2.stage, c, []);
    assert [c] + [] == [c];
    ConverseCons(codec, token, stage, b, [c]);
    assert [b] + [c] == [b, c];
  }

  /** Three lines are three Parse steps, each from the stage the previous one reached. */
  lemma ConverseThree(codec: Codec, token: string, stage: nat, a: string, b: string, c: string)
    ensures var o1 := ParseStep(stage, token, codec.digest, ParseAny(codec, a));
            var o2 := ParseStep(o1.stage, token, codec.digest, ParseAny(codec, b));
            var o3 := ParseStep(o2.stage, token, codec.digest, ParseAny(codec, c));
            Converse(codec, token, stage, [a, b, c]) == Transcript(o3.stage, Sent(o1) + Sent(o2) + Sent(o3))
  {
    var o1 := ParseStep(stage, token, codec.digest, ParseAny(codec, a));
    var o2 := ParseStep(o1.stage, token, codec.digest, ParseAny(codec, b));
    var o3 := ParseStep(o2.stage, token, codec.digest, ParseAny(codec, c));
    ConverseTwo(codec, token, o1.stage, b, c);
    ConverseCons(codec, token, stage, a, [b, c]);
    assert [a] + [b, c] == [a, b, c];
    Associative(Sent(o1), Sent(o2), Sent(o3));
  }

  lemma Associative<T>(x: seq<T>, y: seq<T>, z: seq<T>)
    ensures x + (y + z) == x + y + z
  {
  }

  /** A conversation opening with `line` is one Parse step followed by the rest of the conversation. */
  lemma ConverseCons(codec: Codec, token: string, stage: nat, line: string, rest: seq<string>)
    ensures var o := ParseStep(stage, token, codec.digest, ParseAny(codec, line));
            var t := Converse(codec, token, o.stage, rest);
            Converse(codec, token, stage, [line] + rest) == Transcript(t.stage, Sent(o) + t.sent)
  {
    assert ([line] + rest)[1..] == rest;
  }

  /**
   * The documented handshake: authorization with the hex digest of the token, then
   * `upgrade duplex`, then `ping` with parameter "42". The stage reaches 2 whether or not
   * the requests carry an id, but the three replies ("authorized", "upgraded", the echoed
   * "42") are sent only when they do: without an id nothing at all is sent.
   */
  lemma HandshakeScenario(codec: Codec, token: string, id: Value, auth: string, upgrade: string, ping: string)
    requires codec.syntax(auth) == Success(Obj(IdMember(id) + [Member("method", Str("authorization")), Member("params", Arr([Str(codec.digest(token))]))]))
    requires codec.syntax(upgrade) == Success(Obj(IdMember(id) + [Member("method", Str("upgrade duplex"))]))
    requires codec.syntax(ping) == Success(Obj(IdMember(id) + [Member("method", Str("ping")), Member("params", Arr([Str("42")]))]))
    ensures var t := Converse(codec, token, 0, [auth, upgrade, ping]);
            t.stage == 2 &&
            (id == Null ==> t.sent == []) &&
            (id != Null ==> |t.sent| == 3 && ResultOf(t.sent[0]) == Some("authorized") &&
                            ResultOf(t.sent[1]) == Some("upgraded") && ResultOf(t.sent[2]) == Some("42"))
  {
    AuthorizationStep(codec, token, id, auth);
    UpgradeStep(codec, token, id, upgrade);
    PingStep(codec, token, id, ping, "42");
    ConverseThree(codec, token, 0, auth, upgrade, ping);
  }
}
