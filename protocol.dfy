/**
 * The envelope codec and the per-connection protocol engine of parser.go.
 *
 * JSON text is represented by the document it denotes: `Value` for what the peer sends,
 * `Text` for what the builders marshal. Turning characters into a `Value` (the JSON
 * grammar of encoding/json) and SHA-512 rendered as lowercase hex are library work and
 * enter as the two opaque functions of a `Codec`. Decoding a document into the `jsonALL`
 * record (`Unmarshal`) and everything after it is modelled.
 */
module Protocol {
  import opened Wrappers
  import Decimal

  // ---------------------------------------------------------------- JSON documents

  datatype Value =
    | Null
    | Bool(b: bool)
    | Num(n: int)
    | Str(s: string)
    | Arr(items: seq<Value>)
    | Obj(members: seq<Member>)

  datatype Member = Member(key: string, value: Value)

  /**
   * What a builder returns: the empty string (only on a marshalling failure) or one JSON
   * object, its members in the order of the Go struct's fields.
   */
  datatype Text = NoText | Object(members: seq<Member>)

  /**
   * `len(text) > 2` for compact encoding/json output: "" has length 0, "{}" has length 2,
   * and an object with at least one member is longer.
   */
  predicate LongerThanTwo(t: Text)
  {
    t.Object? && |t.members| > 0
  }

  /** The library functions the parser relies on. */
  datatype Codec = Codec(syntax: string -> Result<Value, string>, digest: string -> string)

  // ---------------------------------------------------------------- reading texts back

  /** The value of the first member named `key`. */
  function Find(ms: seq<Member>, key: string): (v: Option<Value>)
    ensures v.None? <==> forall i | 0 <= i < |ms| :: ms[i].key != key
    ensures |ms| > 0 && ms[0].key == key ==> v == Some(ms[0].value)
    ensures |ms| > 0 && ms[0].key != key ==> v == Find(ms[1..], key)
  {
    if ms == [] then None
    else if ms[0].key == key then Some(ms[0].value)
    else
      var v := Find(ms[1..], key);
      assert forall i | 1 <= i < |ms| :: ms[i] == ms[1..][i - 1];
      v
  }

  /** The value a text holds under `key`, if any. */
  function Field(t: Text, key: string): Option<Value>
  {
    if t.NoText? then None else Find(t.members, key)
  }

  /** The `error.code` of an error reply. */
  function ErrorCode(t: Text): Option<int>
  {
    match Field(t, "error")
    case Some(Obj(ms)) =>
      (match Find(ms, "code")
       case Some(Num(c)) => Some(c)
       case _ => None)
    case _ => None
  }

  /** The `error.message` of an error reply. */
  function ErrorMessage(t: Text): Option<string>
  {
    match Field(t, "error")
    case Some(Obj(ms)) =>
      (match Find(ms, "message")
       case Some(Str(m)) => Some(m)
       case _ => None)
    case _ => None
  }

  /** The `result` of a success reply. */
  function ResultOf(t: Text): Option<string>
  {
    match Field(t, "result")
    case Some(Str(r)) => Some(r)
    case _ => None
  }

  // ---------------------------------------------------------------- builders

  /** Go's `(string, bool)` pair returned by the builders. */
  datatype Built = Built(text: Text, ok: bool)

  /** The promoted `ID` field of idData, tagged `id,omitempty`: a nil id is left out. */
  function IdMember(id: Value): seq<Member>
  {
    if id == Null then [] else [Member("id", id)]
  }

  /**
   * makeRequest as written. `Params` is a `[1]string`, and omitempty never drops an array
   * of length one, so an empty param is still marshalled, as `"params":[""]`.
   */
  function MakeRequest(methodName: string, param: string, id: Value): (r: Built)
    ensures r.ok <==> id != Null
    ensures Field(r.text, "method") == Some(Str(methodName))
    ensures Field(r.text, "params") == Some(Arr([Str(param)]))
  {
    var params := if |param| > 0 then [param] else [""];
    Built(Object(IdMember(id) + [Member("method", Str(methodName)), Member("params", Arr([Str(params[0])]))]), id != Null)
  }

  /** makeRequest as its `if len(param) > 0` and omitempty tag intend: no `params` for an empty param. */
  function MakeRequestOmitting(methodName: string, param: string, id: Value): (r: Built)
    ensures r.ok <==> id != Null
    ensures Field(r.text, "method") == Some(Str(methodName))
    ensures Field(r.text, "params") == if param == "" then None else Some(Arr([Str(param)]))
  {
    var params := if |param| > 0 then [Member("params", Arr([Str(param)]))] else [];
    Built(Object(IdMember(id) + [Member("method", Str(methodName))] + params), id != Null)
  }

  /**
   * makePingRequest: a ping whose parameter is the clock printed with `%f`, with id "pong",
   * built by the corrected makeRequest.
   */
  function PingRequest(stamp: string): (b: Built)
    ensures b.ok
    ensures Field(b.text, "method") == Some(Str("ping")) && Field(b.text, "id") == Some(Str("pong"))
  {
    MakeRequestOmitting("ping", stamp, Str("pong"))
  }

  /** A clock printed with `%f` is never empty, so makeRequest as written builds the same ping. */
  lemma PingAsWritten(stamp: string)
    requires stamp != ""
    ensures MakeRequest("ping", stamp, Str("pong")) == PingRequest(stamp)
  {
    RequestsAgree("ping", stamp, Str("pong"));
  }

  /** makeError: the id is written even when nil (as null); the flag still reports a nil id as false. */
  function MakeError(code: int, message: string, id: Value): (r: Built)
    ensures r.ok <==> id != Null
    ensures LongerThanTwo(r.text)
    ensures Field(r.text, "id") == Some(id)
    ensures ErrorCode(r.text) == Some(code) && ErrorMessage(r.text) == Some(message)
    ensures ResultOf(r.text).None?
  {
    Built(Object([Member("id", id), Member("error", Obj([Member("code", Num(code)), Member("message", Str(message))]))]), id != Null)
  }

  /** makeReply: `result` is always written, the id only when it is not nil. */
  function MakeReply(result: string, id: Value): (r: Built)
    ensures r.ok <==> id != Null
    ensures LongerThanTwo(r.text)
    ensures Field(r.text, "id") == if id == Null then None else Some(id)
    ensures ResultOf(r.text) == Some(result) && ErrorCode(r.text).None?
  {
    Built(Object(IdMember(id) + [Member("result", Str(result))]), id != Null)
  }

  // ---------------------------------------------------------------- decoding (parseAny)

  datatype ErrorData = ErrorData(code: int, message: string)

  /** The `jsonALL` record: nil interfaces are `Null`, a nil `*errorData` is `None`. */
  datatype Envelope = Envelope(id: Value, result: string, error: Option<ErrorData>, methodName: string, params: Value)

  const Blank := Envelope(Null, "", None, "", Null)

  /** The word encoding/json uses for a JSON value's kind in an UnmarshalTypeError. */
  function Kind(v: Value): string
  {
    match v
    case Null => "null"
    case Bool(_) => "bool"
    case Num(_) => "number"
    case Str(_) => "string"
    case Arr(_) => "array"
    case Obj(_) => "object"
  }

  /**
   * The text of an UnmarshalTypeError: it names the innermost struct being decoded and the
   * path of the field from the top-level record.
   */
  function TypeError(v: Value, owner: string, field: string, goType: string): string
  {
    "json: cannot unmarshal " + Kind(v) + " into Go struct field " + owner + "." + field + " of type " + goType
  }

  /** ASCII lower case; every other character is left alone. */
  function Lower(c: char): char
  {
    if 'A' <= c <= 'Z' then (c as int + 32) as char else c
  }

  /**
   * encoding/json matches an object key to a field's tag without regard to case. The
   * tags of jsonALL and errorData are distinct lower-case words, so "some tag equals the
   * key folded to lower case" is the same as "the exact tag, or else a case-folded one".
   */
  predicate KeyIs(key: string, tag: string)
  {
    |key| == |tag| && forall i | 0 <= i < |key| :: Lower(key[i]) == tag[i]
  }

  /** The tags as written match themselves and no other tag. */
  lemma TagsMatch()
    ensures KeyIs("id", "id") && KeyIs("params", "params") && KeyIs("result", "result")
    ensures KeyIs("method", "method") && KeyIs("error", "error") && KeyIs("code", "code") && KeyIs("message", "message")
    ensures !KeyIs("method", "params") && !KeyIs("method", "result") && !KeyIs("params", "result")
    ensures !KeyIs("params", "method") && !KeyIs("result", "method") && !KeyIs("result", "params")
  {
    assert Lower("method"[0]) != "params"[0] && Lower("method"[0]) != "result"[0];
    assert Lower("params"[0]) != "result"[0] && Lower("params"[0]) != "method"[0];
    assert Lower("result"[0]) != "method"[0] && Lower("result"[0]) != "params"[0];
  }

  /** A key that names one of jsonALL's fields. */
  predicate EnvelopeKey(key: string)
  {
    KeyIs(key, "id") || KeyIs(key, "params") || KeyIs(key, "result") || KeyIs(key, "method") || KeyIs(key, "error")
  }

  /** json.Unmarshal of a document into a zero jsonALL: only an object or null can decode. */
  function Unmarshal(doc: Value): (r: Result<Envelope, string>)
    ensures doc == Null ==> r == Success(Blank)
    ensures !doc.Obj? && !doc.Null? ==>
              r == Failure("json: cannot unmarshal " + Kind(doc) + " into Go value of type main.jsonALL")
    ensures doc.Obj? && (forall i | 0 <= i < |doc.members| :: !EnvelopeKey(doc.members[i].key)) ==> r == Success(Blank)
  {
    match doc
    case Null => Success(Blank)
    case Obj(ms) => Fill(Blank, ms)
    case _ => Failure("json: cannot unmarshal " + Kind(doc) + " into Go value of type main.jsonALL")
  }

  /**
   * Decode the members of the top-level object in order, each into the field its key
   * names; unknown keys are ignored, the first type mismatch is the error. A decoded field
   * holds the value of a member under its key (the last one), or is untouched.
   */
  function Fill(e: Envelope, ms: seq<Member>): (r: Result<Envelope, string>)
    ensures (forall i | 0 <= i < |ms| :: !EnvelopeKey(ms[i].key)) ==> r == Success(e)
    ensures r.Failure? ==> exists i | 0 <= i < |ms| :: EnvelopeKey(ms[i].key) && !ms[i].value.Null?
    decreases |ms|
  {
    if ms == [] then Success(e)
    else
      assert forall i | 1 <= i < |ms| :: ms[i] == ms[1..][i - 1];
      match FillMember(e, ms[0])
      case Success(e') => Fill(e', ms[1..])
      case Failure(f) => Failure(f)
  }

  /** One member of the top-level object, decoded into the field its key names. */
  function FillMember(e: Envelope, m: Member): Result<Envelope, string>
  {
    if KeyIs(m.key, "id") then Success(e.(id := m.value))
    else if KeyIs(m.key, "params") then Success(e.(params := m.value))
    else if KeyIs(m.key, "result") then
      (match m.value
       case Str(s) => Success(e.(result := s))
       case Null => Success(e)
       case _ => Failure(TypeError(m.value, "jsonALL", "result", "string")))
    else if KeyIs(m.key, "method") then
      (match m.value
       case Str(s) => Success(e.(methodName := s))
       case Null => Success(e)
       case _ => Failure(TypeError(m.value, "jsonALL", "method", "string")))
    else if KeyIs(m.key, "error") then
      (match m.value
       case Null => Success(e.(error := None))
       case Obj(fs) =>
         var base := if e.error.Some? then e.error.value else ErrorData(0, "");
         (match FillError(base, fs)
          case Success(d) => Success(e.(error := Some(d)))
          case Failure(f) => Failure(f))
       case _ => Failure(TypeError(m.value, "jsonALL", "error", "main.errorData")))
    else Success(e)
  }

  /** One member changes id, method or result only when its key names that field. */
  lemma MemberSources(e: Envelope, m: Member)
    requires FillMember(e, m).Success?
    ensures var e' := FillMember(e, m).value;
            (e'.id == e.id || (KeyIs(m.key, "id") && m.value == e'.id)) &&
            (e'.methodName == e.methodName || (KeyIs(m.key, "method") && m.value == Str(e'.methodName))) &&
            (e'.result == e.result || (KeyIs(m.key, "result") && m.value == Str(e'.result)))
  {
  }

  /**
   * Where a decoded envelope's fields come from: each of id, method and result is either
   * the one it started with or the value of a member under that field's key.
   */
  lemma {:induction false} FillSources(e: Envelope, ms: seq<Member>)
    requires Fill(e, ms).Success?
    ensures var d := Fill(e, ms).value;
            (d.id == e.id || exists i | 0 <= i < |ms| :: KeyIs(ms[i].key, "id") && ms[i].value == d.id) &&
            (d.methodName == e.methodName || exists i | 0 <= i < |ms| :: KeyIs(ms[i].key, "method") && ms[i].value == Str(d.methodName)) &&
            (d.result == e.result || exists i | 0 <= i < |ms| :: KeyIs(ms[i].key, "result") && ms[i].value == Str(d.result))
    decreases |ms|
  {
    if ms != [] {
      var e' := FillMember(e, ms[0]).value;
      FillCons(e, ms[0], ms[1..]);
      assert [ms[0]] + ms[1..] == ms;
      FillSources(e', ms[1..]);
      var d := Fill(e, ms).value;
      assert forall i | 1 <= i < |ms| :: ms[i] == ms[1..][i - 1];
      MemberSources(e, ms[0]);
    }
  }

  /** Fill over a leading member: that member's field, then the rest. */
  lemma FillCons(e: Envelope, m: Member, rest: seq<Member>)
    ensures FillMember(e, m).Success? ==> Fill(e, [m] + rest) == Fill(FillMember(e, m).value, rest)
    ensures FillMember(e, m).Failure? ==> Fill(e, [m] + rest) == Failure(FillMember(e, m).error)
  {
    assert ([m] + rest)[1..] == rest;
  }

  /** Decode the members of `error` into errorData, in the same way as Fill. */
  function FillError(d: ErrorData, fs: seq<Member>): (r: Result<ErrorData, string>)
    ensures (forall i | 0 <= i < |fs| :: !KeyIs(fs[i].key, "code") && !KeyIs(fs[i].key, "message")) ==> r == Success(d)
    ensures r.Success? ==> r.value.code == d.code ||
                           exists i | 0 <= i < |fs| :: KeyIs(fs[i].key, "code") && fs[i].value == Num(r.value.code)
    ensures r.Success? ==> r.value.message == d.message ||
                           exists i | 0 <= i < |fs| :: KeyIs(fs[i].key, "message") && fs[i].value == Str(r.value.message)
    decreases |fs|
  {
    if fs == [] then Success(d)
    else
      assert forall i | 1 <= i < |fs| :: fs[i] == fs[1..][i - 1];
      match FillErrorMember(d, fs[0])
      case Success(d') => FillError(d', fs[1..])
      case Failure(err) => Failure(err)
  }

  /** One member of `error`, decoded into the field its key names. */
  function FillErrorMember(d: ErrorData, f: Member): Result<ErrorData, string>
  {
    if KeyIs(f.key, "code") then
      (match f.value
       case Num(c) => Success(d.(code := c))
       case Null => Success(d)
       case _ => Failure(TypeError(f.value, "errorData", "error.code", "int")))
    else if KeyIs(f.key, "message") then
      (match f.value
       case Str(s) => Success(d.(message := s))
       case Null => Success(d)
       case _ => Failure(TypeError(f.value, "errorData", "error.message", "string")))
    else Success(d)
  }

  /** parseAny: the JSON grammar (opaque) followed by the structural decode into jsonALL. */
  function ParseAny(codec: Codec, line: string): (r: Result<Envelope, string>)
    ensures codec.syntax(line).Failure? ==> r == Failure(codec.syntax(line).error)
    ensures r.Success? ==> codec.syntax(line).Success? && (codec.syntax(line).value.Obj? || codec.syntax(line).value.Null?)
  {
    match codec.syntax(line)
    case Failure(err) => Failure(err)
    case Success(doc) => Unmarshal(doc)
  }

  /** The defensive reading of `params`: only a list whose first element is a string yields a parameter. */
  function Param(params: Value): (p: string)
    ensures p != "" ==> params.Arr? && |params.items| > 0 && params.items[0] == Str(p)
    ensures !params.Arr? || params.items == [] ==> p == ""
  {
    match params
    case Arr(items) => if |items| > 0 && items[0].Str? then items[0].s else ""
    case _ => ""
  }

  /** hashMatch: the hex digest of the configured token equals the candidate. */
  predicate HashMatch(digest: string -> string, token: string, hash: string)
  {
    digest(token) == hash
  }

  /** A SHA-512 digest rendered by `%x`: 128 lowercase hexadecimal characters. */
  ghost predicate IsHexDigest(digest: string -> string)
  {
    forall s :: |digest(s)| == 128 && forall i | 0 <= i < |digest(s)| :: digest(s)[i] in "0123456789abcdef"
  }

  /** A candidate that is not 128 lowercase hex characters never matches a SHA-512 hex digest. */
  lemma MalformedHashNeverMatches(digest: string -> string, token: string, hash: string)
    requires IsHexDigest(digest)
    requires |hash| != 128 || exists i :: 0 <= i < |hash| && hash[i] !in "0123456789abcdef"
    ensures !HashMatch(digest, token, hash)
  {
  }

  // ---------------------------------------------------------------- round trips

  /** The document a marshalled object denotes. */
  function Document(t: Text): Value
    requires t.Object?
  {
    Obj(t.members)
  }

  /** Members under the tags as written go to their own fields. */
  lemma MembersDecode(e: Envelope, v: Value, s: string)
    ensures FillMember(e, Member("id", v)) == Success(e.(id := v))
    ensures FillMember(e, Member("params", v)) == Success(e.(params := v))
    ensures FillMember(e, Member("method", Str(s))) == Success(e.(methodName := s))
    ensures FillMember(e, Member("result", Str(s))) == Success(e.(result := s))
  {
    TagsMatch();
  }

  /** The members of a request, in the order makeRequest writes them, decode into the request's fields. */
  lemma RequestMembersDecode(methodName: string, params: Value, id: Value)
    ensures Fill(Blank, IdMember(id) + [Member("method", Str(methodName)), Member("params", params)]) ==
            Success(Envelope(id, "", None, methodName, params))
  {
    var m := Member("method", Str(methodName));
    var p := Member("params", params);
    var e := Blank.(id := id);
    MembersDecode(e.(methodName := methodName), params, "");
    MembersDecode(e, Null, methodName);
    FillCons(e.(methodName := methodName), p, []);
    FillCons(e, m, [p]);
    assert [m] + [p] == [m, p];
    if id != Null {
      MembersDecode(Blank, id, "");
      FillCons(Blank, Member("id", id), [m, p]);
    }
  }

  /** A call without `params`, in makeRequest's member order, decodes into its id and method. */
  lemma CallDecodes(methodName: string, id: Value)
    ensures Fill(Blank, IdMember(id) + [Member("method", Str(methodName))]) == Success(Envelope(id, "", None, methodName, Null))
  {
    var m := Member("method", Str(methodName));
    MembersDecode(Blank.(id := id), Null, methodName);
    FillCons(Blank.(id := id), m, []);
    if id != Null {
      MembersDecode(Blank, id, "");
      FillCons(Blank, Member("id", id), [m]);
    }
  }

  /** A request decodes to its method, and its parameter is read back by the defensive `params` rule. */
  lemma RequestDecodes(methodName: string, param: string, id: Value)
    ensures Unmarshal(Document(MakeRequest(methodName, param, id).text)) == Success(Envelope(id, "", None, methodName, Arr([Str(param)])))
    ensures Param(Arr([Str(param)])) == param
  {
    RequestMembersDecode(methodName, Arr([Str(param)]), id);
  }

  /** The members of a success reply decode into its result and id. */
  lemma ReplyMembersDecode(result: string, id: Value)
    ensures Fill(Blank, IdMember(id) + [Member("result", Str(result))]) == Success(Envelope(id, result, None, "", Null))
  {
    var r := Member("result", Str(result));
    MembersDecode(Blank.(id := id), Null, result);
    FillCons(Blank.(id := id), r, []);
    if id != Null {
      MembersDecode(Blank, id, "");
      FillCons(Blank, Member("id", id), [r]);
    }
  }

  /** A success reply decodes to its result and id. */
  lemma ReplyDecodes(result: string, id: Value)
    ensures Unmarshal(Document(MakeReply(result, id).text)) == Success(Envelope(id, result, None, "", Null))
  {
    ReplyMembersDecode(result, id);
  }

  /** The fields of makeError's `error` member decode into a fresh errorData. */
  lemma ErrorFieldsDecode(code: int, message: string)
    ensures FillError(ErrorData(0, ""), [Member("code", Num(code)), Member("message", Str(message))]) == Success(ErrorData(code, message))
  {
    TagsMatch();
    var c := Member("code", Num(code));
    var m := Member("message", Str(message));
    assert FillErrorMember(ErrorData(code, ""), m) == Success(ErrorData(code, message));
    assert [m][1..] == [];
    assert FillError(ErrorData(code, ""), [m]) == Success(ErrorData(code, message));
    assert FillErrorMember(ErrorData(0, ""), c) == Success(ErrorData(code, ""));
    assert [c, m][1..] == [m];
  }

  /** The `error` member of makeError decodes into a fresh errorData with its code and message. */
  lemma ErrorMemberDecodes(e: Envelope, code: int, message: string)
    requires e.error.None?
    ensures FillMember(e, Member("error", Obj([Member("code", Num(code)), Member("message", Str(message))]))) ==
            Success(e.(error := Some(ErrorData(code, message))))
  {
    TagsMatch();
    ErrorFieldsDecode(code, message);
  }

  /** The members of an error reply decode into its id, code and message. */
  lemma ErrorMembersDecode(code: int, message: string, id: Value)
    ensures var err := Member("error", Obj([Member("code", Num(code)), Member("message", Str(message))]));
            Fill(Blank, [Member("id", id), err]) == Success(Envelope(id, "", Some(ErrorData(code, message)), "", Null))
  {
    var err := Member("error", Obj([Member("code", Num(code)), Member("message", Str(message))]));
    ErrorMemberDecodes(Blank.(id := id), code, message);
    MembersDecode(Blank, id, "");
    FillCons(Blank.(id := id), err, []);
    FillCons(Blank, Member("id", id), [err]);
    assert [Member("id", id)] + [err] == [Member("id", id), err];
  }

  /** An error reply decodes to its code, message and id. */
  lemma ErrorDecodes(code: int, message: string, id: Value)
    ensures Unmarshal(Document(MakeError(code, message, id).text)) == Success(Envelope(id, "", Some(ErrorData(code, message)), "", Null))
  {
    ErrorMembersDecode(code, message, id);
  }

  /** Keys are matched without regard to case: `{"Method":"authorization","ID":1}` is a call with id 1. */
  lemma FoldedKeysDecode()
    ensures Unmarshal(Obj([Member("Method", Str("authorization")), Member("ID", Num(1))])) ==
            Success(Envelope(Num(1), "", None, "authorization", Null))
  {
    assert KeyIs("Method", "method") by {
      assert forall i | 0 <= i < 6 :: Lower("Method"[i]) == "method"[i];
    }
    assert KeyIs("ID", "id");
    assert Lower("Method"[0]) != "params"[0] && Lower("Method"[0]) != "result"[0];
    var m := Member("Method", Str("authorization"));
    var i := Member("ID", Num(1));
    FillCons(Blank.(methodName := "authorization"), i, []);
    FillCons(Blank, m, [i]);
    assert [m] + [i] == [m, i];
  }

  /** A mistyped member of `error` is reported against errorData, the struct that holds it. */
  lemma NestedTypeError()
    ensures Unmarshal(Obj([Member("error", Obj([Member("code", Str("x"))]))])) ==
            Failure("json: cannot unmarshal " + "string" + " into Go struct field " + "errorData" + "." + "error.code" + " of type " + "int")
  {
    assert KeyIs("error", "error") && KeyIs("code", "code");
    assert !KeyIs("error", "id") && !KeyIs("error", "params") && !KeyIs("error", "result") && !KeyIs("error", "method");
    var f := Member("code", Str("x"));
    assert FillError(ErrorData(0, ""), [f]) == Failure(TypeError(Str("x"), "errorData", "error.code", "int"));
    var m := Member("error", Obj([f]));
    assert FillMember(Blank, m) == Failure(TypeError(Str("x"), "errorData", "error.code", "int"));
    FillCons(Blank, m, []);
    assert [m] + [] == [m];
  }

  /**
   * The console's ping request, decoded by a parser at stage 2, is answered with its own
   * parameter as the result, and the answer is sent exactly when the request carried an id.
   */
  lemma PingIsEchoed(param: string, id: Value, token: string, digest: string -> string)
    ensures var r := ParseStep(2, token, digest, Unmarshal(Document(MakeRequest("ping", param, id).text)));
            r.stage == 2 && ResultOf(r.reply) == Some(param) && r.send == (id != Null)
  {
    RequestDecodes("ping", param, id);
  }

  /** As written, an empty parameter is still marshalled, as a list holding the empty string. */
  lemma EmptyParamIsMarshalled(methodName: string, id: Value)
    ensures Field(MakeRequest(methodName, "", id).text, "params") == Some(Arr([Str("")]))
    ensures Field(MakeRequestOmitting(methodName, "", id).text, "params") == None
  {
  }

  /** For a non-empty parameter the two readings of makeRequest produce the same text. */
  lemma RequestsAgree(methodName: string, param: string, id: Value)
    requires param != ""
    ensures MakeRequest(methodName, param, id) == MakeRequestOmitting(methodName, param, id)
  {
  }

  // ---------------------------------------------------------------- the stage machine

  /** What one call yields: the stage afterwards, the reply and its send flag. */
  datatype Outcome = Outcome(stage: nat, reply: Text, send: bool)

  function WithStage(stage: nat, b: Built): Outcome
  {
    Outcome(stage, b.text, b.ok)
  }

  /**
   * makeWrongMethodReply. The word it quotes as the received method is its second argument,
   * and both callers pass the parameter there, not the method name.
   */
  function WrongMethodReply(stage: nat, wait: string, methodName: string, id: Value): (r: Built)
    ensures r.ok <==> id != Null
    ensures ErrorCode(r.text) == Some(-32600)
    ensures ErrorMessage(r.text) == Some("Wrong method \"" + methodName + "\", i wait \"" + wait + "\" in stage " + Decimal.Format(stage))
  {
    MakeError(-32600, "Wrong method \"" + methodName + "\", i wait \"" + wait + "\" in stage " + Decimal.Format(stage), id)
  }

  /** The stage-0 request that authenticates: `authorization` with a matching hash, or any hash when no token is set. */
  predicate Grants(digest: string -> string, token: string, methodName: string, param: string)
  {
    methodName == "authorization" && (token == "" || digest(token) == param)
  }

  /** handleMethod as a function of the stage before the call. */
  function MethodStep(stage: nat, token: string, digest: string -> string, methodName: string, param: string, id: Value): (r: Outcome)
    ensures r.stage == if (stage == 0 && Grants(digest, token, methodName, param)) || (stage == 1 && methodName == "upgrade duplex") then stage + 1 else stage
    ensures r.send <==> id != Null && (stage <= 1 || (stage == 2 && methodName == "ping"))
    ensures stage == 0 && methodName != "authorization" ==>
              ErrorCode(r.reply) == Some(-32600) &&
              ErrorMessage(r.reply) == Some("Wrong method \"" + param + "\", i wait \"" + "authorization" + "\" in stage " + Decimal.Format(0))
    ensures stage == 0 && methodName == "authorization" && !Grants(digest, token, methodName, param) ==>
              ErrorCode(r.reply) == Some(102) && ErrorMessage(r.reply) == Some("forbidden: wrong hash")
    ensures stage == 0 && Grants(digest, token, methodName, param) ==> ResultOf(r.reply) == Some("authorized")
    ensures stage == 1 && methodName != "upgrade duplex" ==>
              ErrorCode(r.reply) == Some(-32600) &&
              ErrorMessage(r.reply) == Some("Wrong method \"" + param + "\", i wait \"" + "upgrade duplex" + "\" in stage " + Decimal.Format(1))
    ensures stage == 1 && methodName == "upgrade duplex" ==> ResultOf(r.reply) == Some("upgraded")
    ensures stage == 2 && methodName == "ping" ==> ResultOf(r.reply) == Some(param)
    ensures (stage > 2 || (stage == 2 && methodName != "ping")) ==> r.reply == NoText
    ensures ErrorCode(r.reply).Some? ==> Field(r.reply, "id") == Some(id)
    ensures ResultOf(r.reply).Some? ==> Field(r.reply, "id") == if id == Null then None else Some(id)
  {
    if stage == 0 then
      if methodName != "authorization" then WithStage(stage, WrongMethodReply(stage, "authorization", param, id))
      else if token == "" || HashMatch(digest, token, param) then WithStage(stage + 1, MakeReply("authorized", id))
      else WithStage(stage, MakeError(102, "forbidden: wrong hash", id))
    else if stage == 1 then
      if methodName != "upgrade duplex" then WithStage(stage, WrongMethodReply(stage, "upgrade duplex", param, id))
      else WithStage(stage + 1, MakeReply("upgraded", id))
    else if stage == 2 && methodName == "ping" then WithStage(stage, MakeReply(param, id))
    else Outcome(stage, NoText, false)
  }

  /** A decoded line that reaches handleMethod: no `error`, an empty `result` and a non-empty `method`. */
  predicate IsCall(decoded: Result<Envelope, string>)
  {
    decoded.Success? && decoded.value.error.None? && decoded.value.result == "" && decoded.value.methodName != ""
  }

  /** The calls that move the stage forward: an accepted authorization at stage 0, `upgrade duplex` at stage 1. */
  predicate Advances(stage: nat, token: string, digest: string -> string, decoded: Result<Envelope, string>)
  {
    IsCall(decoded) &&
    ((stage == 0 && Grants(digest, token, decoded.value.methodName, Param(decoded.value.params))) ||
     (stage == 1 && decoded.value.methodName == "upgrade duplex"))
  }

  /** Parser.Parse as a function of the stage before the call and the outcome of parseAny. */
  function ParseStep(stage: nat, token: string, digest: string -> string, decoded: Result<Envelope, string>): (r: Outcome)
    ensures stage > 2 ==> r == Outcome(stage, NoText, false)
    ensures r.stage == if Advances(stage, token, digest, decoded) then stage + 1 else stage
    ensures r.send ==> LongerThanTwo(r.reply)
    ensures stage <= 2 && decoded.Failure? ==>
              r.send && ErrorCode(r.reply) == Some(-32700) && Field(r.reply, "id") == Some(Null) &&
              ErrorMessage(r.reply) == Some("Wrong JSON: " + decoded.error)
    ensures stage < 2 && decoded.Success? && decoded.value.error.None? && decoded.value.result != "" ==>
              ErrorCode(r.reply) == Some(100) && ErrorMessage(r.reply) == Some("forbidden: authorization is necessary") &&
              Field(r.reply, "id") == Some(decoded.value.id) && r.send == (decoded.value.id != Null)
    ensures stage <= 2 && IsCall(decoded) ==>
              r == MethodStep(stage, token, digest, decoded.value.methodName, Param(decoded.value.params), decoded.value.id)
    ensures decoded.Success? && (decoded.value.error.Some? || (decoded.value.result != "" && stage == 2)) ==> !r.send
    ensures decoded.Success? && !IsCall(decoded) && decoded.value.error.None? && decoded.value.result == "" ==> !r.send
    ensures decoded.Success? && r.send && !(decoded.value.result != "" && stage < 2) ==> decoded.value.id != Null
  {
    if stage > 2 then Outcome(stage, NoText, false)
    else match decoded
      case Failure(err) =>
        var b := MakeError(-32700, "Wrong JSON: " + err, Null);
        Outcome(stage, b.text, LongerThanTwo(b.text))
      case Success(e) =>
        if e.error.Some? then Outcome(stage, NoText, false)
        else if e.result != "" then
          if stage == 2 then Outcome(stage, NoText, false)
          else WithStage(stage, MakeError(100, "forbidden: authorization is necessary", e.id))
        else if e.methodName != "" then MethodStep(stage, token, digest, e.methodName, Param(e.params), e.id)
        else Outcome(stage, NoText, false)
  }

  // ---------------------------------------------------------------- the Parser object

  class Parser {
    var token: string
    var stage: nat
    const codec: Codec

    constructor (token: string, codec: Codec)
      ensures this.token == token && stage == 0 && this.codec == codec
    {
      this.token := token;
      this.stage := 0;
      this.codec := codec;
    }

    method MakeWrongMethodReply(wait: string, methodName: string, id: Value) returns (reply: Text, ok: bool)
      ensures Built(reply, ok) == WrongMethodReply(stage, wait, methodName, id)
    {
      var msg := "Wrong method \"" + methodName + "\", i wait \"" + wait + "\" in stage " + Decimal.Format(stage);
      var b := MakeError(-32600, msg, id);
      reply, ok := b.text, b.ok;
    }

    method HandleMethod(methodName: string, param: string, id: Value) returns (reply: Text, ok: bool)
      modifies this`stage
      ensures Outcome(stage, reply, ok) == MethodStep(old(stage), token, codec.digest, methodName, param, id)
    {
      if stage == 0 {
        if methodName != "authorization" {
          reply, ok := MakeWrongMethodReply("authorization", param, id);
          return;
        }
        if token == "" || HashMatch(codec.digest, token, param) {
          stage := stage + 1;
          var b := MakeReply("authorized", id);
          reply, ok := b.text, b.ok;
        } else {
          var b := MakeError(102, "forbidden: wrong hash", id);
          reply, ok := b.text, b.ok;
        }
        return;
      } else if stage == 1 {
        if methodName != "upgrade duplex" {
          reply, ok := MakeWrongMethodReply("upgrade duplex", param, id);
          return;
        }
        stage := stage + 1;
        var b := MakeReply("upgraded", id);
        reply, ok := b.text, b.ok;
        return;
      } else if stage == 2 {
        if methodName == "ping" {
          var b := MakeReply(param, id);
          reply, ok := b.text, b.ok;
          return;
        }
      }
      reply, ok := NoText, false;
    }

    method Parse(line: string) returns (reply: Text, ok: bool)
      modifies this`stage
      ensures Outcome(stage, reply, ok) == ParseStep(old(stage), token, codec.digest, ParseAny(codec, line))
    {
      if stage > 2 {
        return NoText, false;
      }
      var decoded := ParseAny(codec, line);
      if decoded.Failure? {
        var b := MakeError(-32700, "Wrong JSON: " + decoded.error, Null);
        return b.text, LongerThanTwo(b.text);
      }
      var any := decoded.value;
      if any.error.Some? {
        // handleError only logs the notification
      } else if any.result != "" {
        if stage == 2 {
          // handleResult only measures and prints the latency
        } else {
          var b := MakeError(100, "forbidden: authorization is necessary", any.id);
          return b.text, b.ok;
        }
      } else if any.methodName != "" {
        var param := "";
        if any.params.Arr? && |any.params.items| > 0 {
          if any.params.items[0].Str? {
            param := any.params.items[0].s;
          }
        }
        reply, ok := HandleMethod(any.methodName, param, any.id);
        return;
      }
      return NoText, false;
    }
  }
}
