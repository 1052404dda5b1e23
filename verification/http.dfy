/**
  `Client::HTTP`: builds one signed request per operation, hands it to the
  transport, and turns the transport's outcome into a decoded value or an
  exception. `execute` propagates taxonomy errors; `wait`, `fetch_tasks` and
  `fetch_task` are best-effort and swallow every StandardError into `nil` or
  `[]`.

  Library code is abstract: JSON parsing and dumping and the HMAC digest come
  in a `Codec`, the transport is a function from the prepared request to its
  outcome, and the clock reading is a parameter.
 */
module HttpClient {
  import opened Wrappers
  import opened Json
  import opened Errors
  import opened Decimal
  import Hmac
  import opened Settings

  datatype Verb = Get | Post

  /** A request target: the resolved URL without its query, and the query's name-value pairs before form encoding. */
  datatype Uri = Uri(path: string, query: seq<(string, string)>)

  /** The request `request` prepares: verb, target, header fields, optional body and the timeouts set on the connection. */
  datatype HttpRequest = HttpRequest(verb: Verb, uri: Uri, fields: map<string, string>, body: Option<string>, timeouts: Timeouts)

  /** What the transport gives back: the status text and body of a response, or an exception it raised. */
  datatype Outcome = Response(code: string, body: string) | Raised(error: Exception)

  /** `JSON.parse`, `JSON.dump` and `OpenSSL::HMAC.hexdigest('SHA256', key, message)`. */
  datatype Codec = Codec(parse: string -> Result<Json>, dump: Json -> string, digest: (string, string) -> Hmac.HexDigest)

  const ContentType := "Content-Type"
  const JsonMediaType := "application/json"

  // ---------------------------------------------------------------------------
  // Helpers: base URL, blank arguments, Ruby value operations, parse_message
  // ---------------------------------------------------------------------------

  /** `normalized_base`: the configured base URL with a trailing slash. */
  function NormalizedBase(hostBase: string): (r: string)
    ensures |r| > 0 && r[|r| - 1] == '/'
    ensures hostBase <= r && |r| <= |hostBase| + 1
    ensures hostBase != [] && hostBase[|hostBase| - 1] == '/' ==> r == hostBase
  {
    if hostBase != [] && hostBase[|hostBase| - 1] == '/' then hostBase else hostBase + "/"
  }

  /** `URI.join(normalized_base, relative)` for a relative reference made of plain path segments. */
  function Join(hostBase: string, relative: string): string {
    NormalizedBase(hostBase) + relative
  }

  /** The characters `String#strip` removes: whitespace and NUL. */
  predicate IsStripped(c: char) {
    IsSpace(c) || c == '\0'
  }

  /** `s.to_s.strip.empty?` */
  predicate IsBlank(s: string) {
    forall i | 0 <= i < |s| :: IsStripped(s[i])
  }

  /** Everything except nil and false is true in a Ruby condition. */
  predicate Truthy(v: Json) {
    v != JNull && v != JBool(false)
  }

  /** Whether `needle` occurs in `hay`. */
  predicate Contains(hay: string, needle: string)
    decreases |hay|
  {
    needle <= hay || (hay != [] && Contains(hay[1..], needle))
  }

  /**
    `v[name]` for a String `name`, evaluated on a decoded value: a hash looks
    the key up, a String or Symbol answers `name` when it contains it and nil
    otherwise, an Array or Integer raises TypeError, and nil, booleans and
    floats have no such method.
   */
  function Index(v: Json, name: string): Result<Option<Json>> {
    match v
    case JObj(ms) => Ok(Lookup(ms, Str(name)))
    case JStr(s) => Ok(if Contains(s, name) then Some(JStr(name)) else None)
    case JSym(s) => Ok(if Contains(s, name) then Some(JStr(name)) else None)
    case JArr(_) => Err(Exception(TypeError, JStr("no implicit conversion of String into Integer")))
    case JInt(_) => Err(Exception(TypeError, JStr("no implicit conversion of String into Integer")))
    case _ => Err(Exception(NoMethodError, JStr("undefined method '[]'")))
  }

  function KeyValue(k: Key): Json {
    match k
    case Str(s) => JStr(s)
    case Sym(s) => JSym(s)
  }

  /** `Kernel#Array`: nil gives [], an array itself, a hash its key-value pairs, anything else a one-element array. */
  function ToArray(v: Option<Json>): (r: seq<Json>)
    ensures v.None? || v == Some(JNull) ==> r == []
    ensures v.Some? && v.value.JArr? ==> r == v.value.items
    ensures v.Some? && v.value.JObj? ==> |r| == |v.value.members|
  {
    match v
    case None => []
    case Some(JNull) => []
    case Some(JArr(items)) => items
    case Some(JObj(ms)) => seq(|ms|, i requires 0 <= i < |ms| => JArr([KeyValue(ms[i].key), ms[i].value]))
    case Some(x) => [x]
  }

  /**
    `parse_message`: the body's `message` field when the body parses to a
    value whose `message` is truthy, and the raw body otherwise. A parse
    failure that is a StandardError falls back to the raw body; indexing a
    parsed array, integer, true or float raises, and that exception leaves
    `parse_message`.
   */
  function ParseMessage(body: string, parse: string -> Result<Json>): (r: Result<Json>)
    ensures r.Ok? ==> r.value == JStr(body) || Truthy(r.value)
    ensures r.Err? ==> (parse(body).Err? && r == parse(body) && !IsA(r.error.cls, StandardError))
                       || (parse(body).Ok? && r.error.cls in {TypeError, NoMethodError})
  {
    var parsed := parse(body);
    if parsed.Err? then
      if IsA(parsed.error.cls, StandardError) then Ok(JStr(body)) else Err(parsed.error)
    else if !Truthy(parsed.value) then Ok(JStr(body))
    else match Index(parsed.value, "message")
      case Err(e) => Err(e)
      case Ok(field) => if field.Some? && Truthy(field.value) then Ok(field.value) else Ok(JStr(body))
  }

  // ---------------------------------------------------------------------------
  // Status tables and rescue clauses
  // ---------------------------------------------------------------------------

  /** The taxonomy kind `execute` raises for an error status. */
  function StatusKind(code: int): Option<Kind> {
    if code == 401 then Some(Unauthorized)
    else if code == 403 then Some(Forbidden)
    else if code == 404 then Some(NotFound)
    else if code == 409 then Some(Conflict)
    else if code == 422 then Some(ValidationError)
    else if 500 <= code <= 599 then Some(ServerError)
    else None
  }

  /** `raise kind, message`, where computing the message may itself raise. */
  function Raise<T>(k: Kind, message: Result<Json>): Result<T> {
    match message
    case Ok(m) => Err(Exception(Client(k), m))
    case Err(e) => Err(e)
  }

  /** `raise Client::UnexpectedResponse, "HTTP #{code}: #{body}"` */
  function Unexpected<T>(code: string, body: string): Result<T> {
    Err(Exception(Client(UnexpectedResponse), JStr("HTTP " + code + ": " + body)))
  }

  /** `rescue StandardError` followed by a degraded value. */
  function BestEffort<T>(r: Result<T>, fallback: T): (b: Result<T>)
    ensures b.Err? ==> b == r && !IsA(b.error.cls, StandardError)
    ensures r.Ok? ==> b == r
    ensures r.Err? && IsA(r.error.cls, StandardError) ==> b == Ok(fallback)
    ensures r.Err? && !IsA(r.error.cls, StandardError) ==> b == r
  {
    if r.Err? && IsA(r.error.cls, StandardError) then Ok(fallback) else r
  }

  /** The two rescue clauses of `execute`. */
  function RescueTransport(r: Result<Json>): Result<Json> {
    match r
    case Ok(_) => r
    case Err(e) =>
      if IsA(e.cls, OpenTimeout) || IsA(e.cls, ReadTimeout) then
        Err(Exception(Client(Timeout), JStr("request timed out")))
      else if IsA(e.cls, ConnectionRefused) || IsA(e.cls, SocketError) then
        Err(Exception(Client(ConnectionError), e.message))
      else r
  }

  /** The `case res.code.to_i` of `execute` on status `c`; `code` is the status text the message quotes. */
  function ExecuteOnStatus(c: int, code: string, body: string, parse: string -> Result<Json>): Result<Json> {
    if c == 200 || c == 202 then parse(body)
    else match StatusKind(c)
      case Some(k) => Raise(k, ParseMessage(body, parse))
      case None => Unexpected(code, body)
  }

  function ExecuteCases(code: string, body: string, parse: string -> Result<Json>): Result<Json> {
    ExecuteOnStatus(ToI(code), code, body, parse)
  }

  /** What `execute` returns or raises for a transport outcome. */
  function ExecuteResult(o: Outcome, parse: string -> Result<Json>): Result<Json> {
    match o
    case Raised(e) => RescueTransport(Err(e))
    case Response(code, body) => RescueTransport(ExecuteCases(code, body, parse))
  }

  /** The `case` of `wait`, before its rescue. */
  function WaitCases(o: Outcome, parse: string -> Result<Json>): Result<Option<Json>> {
    match o
    case Raised(e) => Err(e)
    case Response(code, body) => WaitOnStatus(ToI(code), body, parse)
  }

  /** The `case res.code.to_i` of `wait` on status `c`. */
  function WaitOnStatus(c: int, body: string, parse: string -> Result<Json>): Result<Option<Json>> {
    if c == 200 || c == 202 then
      match parse(body)
      case Ok(j) => Ok(Some(SymbolizeKeys(j)))
      case Err(e) => Err(e)
    else if c == 401 then Raise(Unauthorized, ParseMessage(body, parse))
    else Unexpected(IntToString(c), body)
  }

  /** What `wait` returns for a transport outcome. */
  function WaitResult(o: Outcome, parse: string -> Result<Json>): Result<Option<Json>> {
    BestEffort(WaitCases(o, parse), None)
  }

  /** `map(&:deep_symbolize_keys)`: every element comes out with Symbol keys all the way down. */
  function SymbolizeAll(items: seq<Json>): (r: seq<Json>)
    ensures |r| == |items|
    ensures forall i | 0 <= i < |items| :: r[i] == SymbolizeKeys(items[i])
    ensures forall i | 0 <= i < |r| :: Symbolized(r[i])
  {
    var r := seq(|items|, i requires 0 <= i < |items| => SymbolizeKeys(items[i]));
    assert forall i | 0 <= i < |r| :: Symbolized(r[i]) by {
      forall i | 0 <= i < |r|
        ensures Symbolized(r[i])
      {
        SymbolizeKeysSymbolizes(items[i]);
      }
    }
    r
  }

  /** The `case` of `fetch_tasks`, before its rescue. */
  function FetchTasksCases(o: Outcome, parse: string -> Result<Json>): Result<seq<Json>> {
    match o
    case Raised(e) => Err(e)
    case Response(code, body) => FetchTasksOnStatus(ToI(code), body, parse)
  }

  /** The `case res.code.to_i` of `fetch_tasks` on status `c`. */
  function FetchTasksOnStatus(c: int, body: string, parse: string -> Result<Json>): Result<seq<Json>> {
    if c == 200 then
      match parse(body)
      case Err(e) => Err(e)
      case Ok(j) =>
        match Index(j, "tasks")
        case Err(e) => Err(e)
        case Ok(tasks) => Ok(SymbolizeAll(ToArray(tasks)))
    else if c == 401 then Raise(Unauthorized, ParseMessage(body, parse))
    else if c == 403 then Raise(Forbidden, ParseMessage(body, parse))
    else Unexpected(IntToString(c), body)
  }

  /** What `fetch_tasks` returns for a transport outcome. */
  function FetchTasksResult(o: Outcome, parse: string -> Result<Json>): Result<seq<Json>> {
    BestEffort(FetchTasksCases(o, parse), [])
  }

  /** The `case` of `fetch_task`, before its rescue. */
  function FetchTaskCases(o: Outcome, parse: string -> Result<Json>): Result<Option<Json>> {
    match o
    case Raised(e) => Err(e)
    case Response(code, body) => FetchTaskOnStatus(ToI(code), body, parse)
  }

  /** The `case res.code.to_i` of `fetch_task` on status `c`. */
  function FetchTaskOnStatus(c: int, body: string, parse: string -> Result<Json>): Result<Option<Json>> {
    if c == 200 then
      match parse(body)
      case Ok(j) => Ok(Some(SymbolizeKeys(j)))
      case Err(e) => Err(e)
    else if c == 404 then Raise(NotFound, ParseMessage(body, parse))
    else if c == 401 then Raise(Unauthorized, ParseMessage(body, parse))
    else Unexpected(IntToString(c), body)
  }

  /** What `fetch_task` returns for a transport outcome. */
  function FetchTaskResult(o: Outcome, parse: string -> Result<Json>): Result<Option<Json>> {
    BestEffort(FetchTaskCases(o, parse), None)
  }

  // ---------------------------------------------------------------------------
  // The requests each operation sends
  // ---------------------------------------------------------------------------

  /** `timeouts || @config.timeouts` */
  function ChosenTimeouts(timeouts: Option<Timeouts>, config: Config): Timeouts {
    if timeouts.Some? then timeouts.value else config.timeouts
  }

  /** The header fields of a request: the signing headers, plus a JSON content type when there is a body. */
  function Fields(headers: map<string, string>, body: Option<string>): map<string, string> {
    if body.Some? then headers[ContentType := JsonMediaType] else headers
  }

  /** The JSON object `execute` posts. */
  function ExecutionBody(operation: string, callerId: string, params: Json, idemKey: Option<string>): Json {
    JObj([
      Member(Sym("operation"), JStr(operation)),
      Member(Sym("caller"), JStr(callerId)),
      Member(Sym("params"), params),
      Member(Sym("idem_key"), if idemKey.Some? then JStr(idemKey.value) else JNull)])
  }

  function ExecuteRequest(config: Config, codec: Codec, operation: string, callerId: string, params: Json,
                          async: bool, idemKey: Option<string>, timeouts: Option<Timeouts>, now: int): HttpRequest
  {
    var body := codec.dump(ExecutionBody(operation, callerId, params, idemKey));
    HttpRequest(
      Post,
      Uri(Join(config.hostBase, "executions"), if async then [("async", "1")] else []),
      Fields(Hmac.Sign(codec.digest, callerId, config.hmacSecret, body, now), Some(body)),
      Some(body),
      ChosenTimeouts(timeouts, config))
  }

  /** A bodiless GET signed over the empty string, with the configured timeouts. */
  function SignedGet(config: Config, codec: Codec, uri: Uri, callerId: string, now: int): HttpRequest {
    HttpRequest(Get, uri, Fields(Hmac.Sign(codec.digest, callerId, config.hmacSecret, "", now), None), None, config.timeouts)
  }

  function WaitRequest(config: Config, codec: Codec, idemKey: string, callerId: string, now: int): HttpRequest {
    SignedGet(config, codec, Uri(Join(config.hostBase, "executions/wait/" + idemKey), []), callerId, now)
  }

  function FetchTasksRequest(config: Config, codec: Codec, callerId: string, now: int): HttpRequest {
    SignedGet(config, codec, Uri(Join(config.hostBase, "executions/fetch_tasks"), []), callerId, now)
  }

  function FetchTaskRequest(config: Config, codec: Codec, taskName: string, callerId: string, now: int): HttpRequest {
    SignedGet(config, codec, Uri(Join(config.hostBase, "executions/fetch_task"), [("task", taskName)]), callerId, now)
  }

  // ---------------------------------------------------------------------------
  // Properties of the tables
  // ---------------------------------------------------------------------------

  /** A body that parses to a hash gives its truthy `message` field, or else the raw body. */
  lemma ParseMessageOfHash(body: string, parse: string -> Result<Json>, ms: seq<Member>)
    requires parse(body) == Ok(JObj(ms))
    ensures var field := Lookup(ms, Str("message"));
            ParseMessage(body, parse) == if field.Some? && Truthy(field.value) then Ok(field.value) else Ok(JStr(body))
  {
  }

  /** A body that does not parse, or parses to null or false, is returned verbatim. */
  lemma ParseMessageFallsBack(body: string, parse: string -> Result<Json>)
    requires (parse(body).Err? && IsA(parse(body).error.cls, StandardError)) || parse(body) == Ok(JNull) || parse(body) == Ok(JBool(false))
    ensures ParseMessage(body, parse) == Ok(JStr(body))
  {
  }

  /** A body that parses to an array or an integer makes `parse_message` raise TypeError. */
  lemma ParseMessageRaisesOnArray(body: string, parse: string -> Result<Json>)
    requires parse(body).Ok? && (parse(body).value.JArr? || parse(body).value.JInt?)
    ensures ParseMessage(body, parse).Err? && ParseMessage(body, parse).error.cls == TypeError
  {
  }

  /** No status code maps to the transport kinds, to BadGateway, or to the fallback kinds. */
  lemma StatusKindsAreStatusKinds(code: int)
    ensures StatusKind(code) !in {Some(Timeout), Some(ConnectionError), Some(BadGateway), Some(Error), Some(UnexpectedResponse)}
    ensures StatusKind(code) == Some(ServerError) <==> 500 <= code <= 599
  {
  }

  /** `raise kind, parse_message(res)` raises a StandardError, or what the parser raised. */
  lemma RaiseWithMessage<T>(k: Kind, body: string, parse: string -> Result<Json>)
    ensures var r: Result<T> := Raise(k, ParseMessage(body, parse));
            r.Err? && (IsA(r.error.cls, StandardError) || parse(body) == Err(r.error))
  {
    KindIsStandardError(k);
    assert IsA(TypeError, StandardError) && IsA(NoMethodError, StandardError);
  }

  /** The rescue clauses of `execute` leave every taxonomy error as it is. */
  lemma RescueKeepsTaxonomyErrors(k: Kind, m: Json)
    ensures RescueTransport(Err(Exception(Client(k), m))) == Err(Exception(Client(k), m))
  {
    TransportClassesAreForeign(k, OpenTimeout);
    TransportClassesAreForeign(k, ReadTimeout);
    TransportClassesAreForeign(k, ConnectionRefused);
    TransportClassesAreForeign(k, SocketError);
  }

  /** An exception of none of the four transport classes passes the rescue clauses of `execute` unchanged. */
  lemma RescueTransportKeeps(e: Exception)
    requires !IsA(e.cls, OpenTimeout) && !IsA(e.cls, ReadTimeout) && !IsA(e.cls, ConnectionRefused) && !IsA(e.cls, SocketError)
    ensures RescueTransport(Err(e)) == Err(e)
  {
  }

  /** A parser failure is not a transport failure: the rescue clauses of `execute` let it through. */
  lemma RescueTransportOfParserError(e: Exception)
    ensures e.cls == ParserError ==> RescueTransport(Err(e)) == Err(e)
  {
    if e.cls == ParserError {
      assert Ancestors(ParserError) == [ParserError, StandardError, RubyException];
      RescueTransportKeeps(e);
    }
  }

  /** The rescue clauses of `execute` either keep the result or turn a transport failure into Timeout or ConnectionError. */
  lemma RescueTransportOutcomes(r: Result<Json>)
    ensures RescueTransport(r) == r
            || (r.Err? && RescueTransport(r) == Err(Exception(Client(Timeout), JStr("request timed out"))))
            || (r.Err? && RescueTransport(r) == Err(Exception(Client(ConnectionError), r.error.message)))
  {
  }

  /**
    Before its rescue clauses, `execute` has a value exactly on 200 and 202
    with a body that parses, and that value is the parsed body. Otherwise it
    fails with what the parser raised, with the TypeError or NoMethodError of
    `parse_message`, or with a status kind or UnexpectedResponse.
   */
  lemma ExecuteOnStatusOutcomes(c: int, code: string, body: string, parse: string -> Result<Json>)
    ensures var r := ExecuteOnStatus(c, code, body, parse);
            r.Ok? <==> c in {200, 202} && parse(body).Ok?
    ensures var r := ExecuteOnStatus(c, code, body, parse);
            r.Ok? ==> r == parse(body)
    ensures var r := ExecuteOnStatus(c, code, body, parse);
            r.Err? ==> r == parse(body) || r.error.cls in {TypeError, NoMethodError}
                       || (r.error.cls.Client? && r.error.cls.kind in {Unauthorized, Forbidden, NotFound, Conflict, ValidationError, ServerError, UnexpectedResponse})
  {
  }

  /** A status with a kind raises that kind with the message `parse_message` extracts. */
  lemma ExecuteOnErrorStatus(c: int, code: string, body: string, parse: string -> Result<Json>)
    requires StatusKind(c).Some?
    ensures ExecuteOnStatus(c, code, body, parse) == Raise(StatusKind(c).value, ParseMessage(body, parse))
  {
  }

  /** `execute` succeeds exactly on 200 and 202 with a body that parses, and returns the parsed body with its String keys. */
  lemma ExecuteSucceeds(o: Outcome, parse: string -> Result<Json>)
    ensures ExecuteResult(o, parse).Ok? <==> o.Response? && ToI(o.code) in {200, 202} && parse(o.body).Ok?
    ensures ExecuteResult(o, parse).Ok? ==> ExecuteResult(o, parse) == parse(o.body)
  {
    match o
    case Raised(e) =>
      RescueTransportOutcomes(Err(e));
    case Response(code, body) =>
      ExecuteOnStatusOutcomes(ToI(code), code, body, parse);
      RescueTransportOutcomes(ExecuteCases(code, body, parse));
  }

  /** On 200 and 202 `execute` returns or raises what parsing the body gives, through its rescue clauses. */
  lemma ExecuteOnSuccessStatus(code: string, body: string, parse: string -> Result<Json>)
    requires ToI(code) in {200, 202}
    ensures ExecuteResult(Response(code, body), parse) == RescueTransport(parse(body))
  {
    assert ExecuteOnStatus(ToI(code), code, body, parse) == parse(body);
  }

  /**
    On 200 and 202 a body that does not parse makes `execute` raise the
    parser's exception unchanged, unless its class is one the transport
    rescue clauses convert; a ParserError is never one of those.
   */
  lemma ExecuteParseFailure(code: string, body: string, parse: string -> Result<Json>)
    requires ToI(code) in {200, 202}
    ensures var p := parse(body);
            p.Err? && !IsA(p.error.cls, OpenTimeout) && !IsA(p.error.cls, ReadTimeout)
            && !IsA(p.error.cls, ConnectionRefused) && !IsA(p.error.cls, SocketError)
            ==> ExecuteResult(Response(code, body), parse) == p
    ensures parse(body).Err? && parse(body).error.cls == ParserError ==> ExecuteResult(Response(code, body), parse) == parse(body)
  {
    ExecuteOnSuccessStatus(code, body, parse);
    var p := parse(body);
    if p.Err? {
      RescueTransportOfParserError(p.error);
      if !IsA(p.error.cls, OpenTimeout) && !IsA(p.error.cls, ReadTimeout) && !IsA(p.error.cls, ConnectionRefused) && !IsA(p.error.cls, SocketError) {
        RescueTransportKeeps(p.error);
      }
    }
  }

  /** On 401, 403, 404, 409, 422 and 500 to 599, `execute` raises the status's kind with the extracted message. */
  lemma ExecuteStatusError(code: string, body: string, parse: string -> Result<Json>)
    requires StatusKind(ToI(code)).Some? && ParseMessage(body, parse).Ok?
    ensures ExecuteResult(Response(code, body), parse)
            == Err(Exception(Client(StatusKind(ToI(code)).value), ParseMessage(body, parse).value))
  {
    var k := StatusKind(ToI(code)).value;
    var m := ParseMessage(body, parse).value;
    ExecuteOnErrorStatus(ToI(code), code, body, parse);
    RescueKeepsTaxonomyErrors(k, m);
  }

  /** The status text "401" reads as 401. */
  lemma StatusText401()
    ensures ToI("401") == 401
  {
    assert NatToString(4) == "4";
    assert NatToString(40) == "40";
    assert IntToString(401) == "401";
    ToIOfIntToString(401);
  }

  /** Scenario: a 401 whose body carries `"message": "nope"` raises Unauthorized with message "nope". */
  lemma ExecuteUnauthorizedMessage(body: string, parse: string -> Result<Json>, m: string)
    requires parse(body) == Ok(JObj([Member(Str("message"), JStr(m))]))
    ensures ExecuteResult(Response("401", body), parse) == Err(Exception(Client(Unauthorized), JStr(m)))
  {
    StatusText401();
    ParseMessageOfHash(body, parse, [Member(Str("message"), JStr(m))]);
    ExecuteStatusError("401", body, parse);
  }

  /** Any other status raises UnexpectedResponse carrying the status text and the raw body. */
  lemma ExecuteUnexpectedStatus(code: string, body: string, parse: string -> Result<Json>)
    requires ToI(code) !in {200, 202} && StatusKind(ToI(code)).None?
    ensures ExecuteResult(Response(code, body), parse)
            == Err(Exception(Client(UnexpectedResponse), JStr("HTTP " + code + ": " + body)))
  {
    RescueKeepsTaxonomyErrors(UnexpectedResponse, JStr("HTTP " + code + ": " + body));
  }

  /**
    Transport failures: timeouts become Timeout("request timed out"), refused
    connections and socket errors become ConnectionError with the original
    message, and every other exception leaves `execute` unchanged.
   */
  lemma ExecuteTransportFailure(e: Exception, parse: string -> Result<Json>)
    ensures e.cls in {OpenTimeout, ReadTimeout} ==>
              ExecuteResult(Raised(e), parse) == Err(Exception(Client(Timeout), JStr("request timed out")))
    ensures e.cls in {ConnectionRefused, SocketError} ==>
              ExecuteResult(Raised(e), parse) == Err(Exception(Client(ConnectionError), e.message))
    ensures e.cls !in {OpenTimeout, ReadTimeout, ConnectionRefused, SocketError} && !e.cls.Client? ==>
              ExecuteResult(Raised(e), parse) == Err(e)
  {
  }

  /** `execute` never raises BadGateway unless the transport or the parser itself raised it. */
  lemma ExecuteNeverBadGateway(o: Outcome, parse: string -> Result<Json>)
    requires o.Raised? ==> !o.error.cls.Client?
    requires o.Response? && parse(o.body).Err? ==> !parse(o.body).error.cls.Client?
    ensures ExecuteResult(o, parse).Err? ==> ExecuteResult(o, parse).error.cls != Client(BadGateway)
  {
    match o
    case Raised(e) =>
      RescueTransportOutcomes(Err(e));
    case Response(code, body) =>
      ExecuteOnStatusOutcomes(ToI(code), code, body, parse);
      RescueTransportOutcomes(ExecuteCases(code, body, parse));
  }

  /**
    Before its rescue, `wait` has a value exactly on 200 and 202 with a body
    that parses, and fails otherwise with a StandardError or with what the
    parser raised.
   */
  lemma WaitOnStatusOutcomes(c: int, body: string, parse: string -> Result<Json>)
    ensures var r := WaitOnStatus(c, body, parse);
            r.Ok? <==> c in {200, 202} && parse(body).Ok?
    ensures var r := WaitOnStatus(c, body, parse);
            r.Ok? ==> r.value == Some(SymbolizeKeys(parse(body).value))
    ensures var r := WaitOnStatus(c, body, parse);
            r.Err? ==> IsA(r.error.cls, StandardError) || parse(body) == Err(r.error)
  {
    if c == 401 {
      RaiseWithMessage<Option<Json>>(Unauthorized, body, parse);
    } else if c != 200 && c != 202 {
      KindIsStandardError(UnexpectedResponse);
    }
  }

  /**
    `wait` returns a value exactly on 200 and 202 with a body that parses,
    and that value is the body with Symbol keys. It raises only an exception
    outside StandardError that the transport or the parser raised; every
    other outcome is nil.
   */
  lemma WaitOutcomes(o: Outcome, parse: string -> Result<Json>)
    ensures var r := WaitResult(o, parse);
            (r.Ok? && r.value.Some?) <==> (o.Response? && ToI(o.code) in {200, 202} && parse(o.body).Ok?)
    ensures var r := WaitResult(o, parse);
            r.Ok? && r.value.Some? ==> r.value.value == SymbolizeKeys(parse(o.body).value) && Symbolized(r.value.value)
    ensures var r := WaitResult(o, parse);
            r.Err? ==> !IsA(r.error.cls, StandardError) && (o == Raised(r.error) || (o.Response? && parse(o.body) == Err(r.error)))
  {
    match o
    case Raised(_) =>
    case Response(code, body) =>
      WaitOnStatusOutcomes(ToI(code), body, parse);
      if parse(body).Ok? {
        SymbolizeKeysSymbolizes(parse(body).value);
      }
  }

  /** Every taxonomy error, every transport failure that is a StandardError and every status but 200 and 202 give nil. */
  lemma WaitDegradesToNil(o: Outcome, parse: string -> Result<Json>)
    requires o.Raised? ==> IsA(o.error.cls, StandardError)
    requires o.Response? ==> ToI(o.code) !in {200, 202} && (parse(o.body).Err? ==> IsA(parse(o.body).error.cls, StandardError))
    ensures WaitResult(o, parse) == Ok(None)
  {
    WaitOutcomes(o, parse);
  }

  /**
    Before its rescue, `fetch_tasks` has a value only on 200, and fails
    otherwise with a StandardError or with what the parser raised.
   */
  lemma FetchTasksOnStatusOutcomes(c: int, body: string, parse: string -> Result<Json>)
    ensures var r := FetchTasksOnStatus(c, body, parse);
            r.Ok? ==> c == 200
    ensures var r := FetchTasksOnStatus(c, body, parse);
            r.Err? ==> IsA(r.error.cls, StandardError) || parse(body) == Err(r.error)
  {
    if c == 200 {
      assert IsA(TypeError, StandardError) && IsA(NoMethodError, StandardError);
    } else if c == 401 {
      RaiseWithMessage<seq<Json>>(Unauthorized, body, parse);
    } else if c == 403 {
      RaiseWithMessage<seq<Json>>(Forbidden, body, parse);
    } else {
      KindIsStandardError(UnexpectedResponse);
    }
  }

  /** On 200 with a hash body, `fetch_tasks` returns its `tasks` as an array, each element with Symbol keys; no `tasks` gives []. */
  lemma FetchTasksOfHash(code: string, body: string, parse: string -> Result<Json>, ms: seq<Member>)
    requires ToI(code) == 200 && parse(body) == Ok(JObj(ms))
    ensures FetchTasksResult(Response(code, body), parse) == Ok(SymbolizeAll(ToArray(Lookup(ms, Str("tasks")))))
    ensures Str("tasks") !in KeySet(ms) ==> FetchTasksResult(Response(code, body), parse) == Ok([])
    ensures var tasks := Lookup(ms, Str("tasks"));
            tasks.Some? && tasks.value.JArr? ==> FetchTasksResult(Response(code, body), parse) == Ok(SymbolizeAll(tasks.value.items))
  {
    var tasks := Lookup(ms, Str("tasks"));
    FetchTasksOnStatusOfHash(body, parse, ms);
    assert FetchTasksResult(Response(code, body), parse) == Ok(SymbolizeAll(ToArray(tasks)));
    if Str("tasks") !in KeySet(ms) {
      assert ToArray(tasks) == [];
      assert SymbolizeAll([]) == [];
    }
  }

  /** The 200 branch of `fetch_tasks` on a hash body. */
  lemma FetchTasksOnStatusOfHash(body: string, parse: string -> Result<Json>, ms: seq<Member>)
    requires parse(body) == Ok(JObj(ms))
    ensures FetchTasksOnStatus(200, body, parse) == Ok(SymbolizeAll(ToArray(Lookup(ms, Str("tasks")))))
  {
    assert Index(JObj(ms), "tasks") == Ok(Lookup(ms, Str("tasks")));
  }

  /**
    `fetch_tasks` raises only an exception outside StandardError that the
    transport or the parser raised, and returns a non-empty list only on 200.
    A StandardError from the transport, a 200 whose body fails to parse with
    a StandardError, and a 200 whose `body['tasks']` raises all give [].
   */
  lemma FetchTasksOutcomes(o: Outcome, parse: string -> Result<Json>)
    ensures var r := FetchTasksResult(o, parse);
            r.Err? ==> !IsA(r.error.cls, StandardError) && (o == Raised(r.error) || (o.Response? && parse(o.body) == Err(r.error)))
    ensures var r := FetchTasksResult(o, parse);
            r.Ok? && r.value != [] ==> o.Response? && ToI(o.code) == 200
    ensures var r := FetchTasksResult(o, parse);
            o.Raised? && IsA(o.error.cls, StandardError) ==> r == Ok([])
    ensures var r := FetchTasksResult(o, parse);
            o.Response? && ToI(o.code) == 200 && parse(o.body).Err? && IsA(parse(o.body).error.cls, StandardError) ==> r == Ok([])
    ensures var r := FetchTasksResult(o, parse);
            o.Response? && ToI(o.code) == 200 && parse(o.body).Ok? && Index(parse(o.body).value, "tasks").Err? ==> r == Ok([])
  {
    match o
    case Raised(_) =>
    case Response(code, body) =>
      FetchTasksOnStatusOutcomes(ToI(code), body, parse);
      FetchTasksDegradesToEmpty(code, body, parse);
  }

  /** Every task `fetch_tasks` returns has Symbol keys throughout. */
  lemma FetchTasksSymbolized(o: Outcome, parse: string -> Result<Json>)
    ensures var r := FetchTasksResult(o, parse);
            r.Ok? ==> forall i | 0 <= i < |r.value| :: Symbolized(r.value[i])
  {
    match o
    case Raised(_) =>
    case Response(code, body) =>
      FetchTasksOnStatusSymbolized(ToI(code), body, parse);
      assert FetchTasksResult(o, parse) == BestEffort(FetchTasksOnStatus(ToI(code), body, parse), []);
  }

  /** The value of the 200 branch of `fetch_tasks` has Symbol keys throughout. */
  lemma FetchTasksOnStatusSymbolized(c: int, body: string, parse: string -> Result<Json>)
    ensures var r := FetchTasksOnStatus(c, body, parse);
            r.Ok? ==> forall i | 0 <= i < |r.value| :: Symbolized(r.value[i])
  {
    var r := FetchTasksOnStatus(c, body, parse);
    if c == 200 && parse(body).Ok? && Index(parse(body).value, "tasks").Ok? {
      var xs := ToArray(Index(parse(body).value, "tasks").value);
      assert r.value == SymbolizeAll(xs);
    } else if c == 401 {
      assert r == Raise(Unauthorized, ParseMessage(body, parse));
    } else if c == 403 {
      assert r == Raise(Forbidden, ParseMessage(body, parse));
    }
  }

  /** The cases below fail, before the rescue, with a StandardError. */
  lemma FetchTasksOnStatusFailures(c: int, body: string, parse: string -> Result<Json>)
    ensures var p := parse(body);
            (c == 200 && p.Err? && IsA(p.error.cls, StandardError))
            || (c == 200 && p.Ok? && Index(p.value, "tasks").Err?)
            || (c != 200 && (p.Err? ==> IsA(p.error.cls, StandardError)))
            ==> FetchTasksOnStatus(c, body, parse).Err? && IsA(FetchTasksOnStatus(c, body, parse).error.cls, StandardError)
  {
    FetchTasksOnStatusOutcomes(c, body, parse);
    var p := parse(body);
    if c == 200 && p.Ok? {
      match Index(p.value, "tasks")
      case Err(e) =>
        assert IsA(TypeError, StandardError) && IsA(NoMethodError, StandardError);
      case Ok(_) =>
    }
  }

  /**
    A 200 whose body fails to parse with a StandardError, or whose parsed
    value cannot be indexed by `"tasks"` (nil, an array, an integer), gives
    []; so does any other status when the body's parse errors, if any, are
    StandardErrors.
   */
  lemma FetchTasksDegradesToEmpty(code: string, body: string, parse: string -> Result<Json>)
    ensures var p := parse(body);
            ToI(code) == 200 && p.Err? && IsA(p.error.cls, StandardError)
            ==> FetchTasksResult(Response(code, body), parse) == Ok([])
    ensures var p := parse(body);
            ToI(code) == 200 && p.Ok? && Index(p.value, "tasks").Err?
            ==> FetchTasksResult(Response(code, body), parse) == Ok([])
    ensures var p := parse(body);
            ToI(code) != 200 && (p.Err? ==> IsA(p.error.cls, StandardError))
            ==> FetchTasksResult(Response(code, body), parse) == Ok([])
  {
    FetchTasksOnStatusFailures(ToI(code), body, parse);
    assert FetchTasksResult(Response(code, body), parse) == BestEffort(FetchTasksOnStatus(ToI(code), body, parse), []);
  }

  /**
    Before its rescue, `fetch_task` has a value exactly on 200 with a body
    that parses, and fails otherwise with a StandardError or with what the
    parser raised.
   */
  lemma FetchTaskOnStatusOutcomes(c: int, body: string, parse: string -> Result<Json>)
    ensures var r := FetchTaskOnStatus(c, body, parse);
            r.Ok? <==> c == 200 && parse(body).Ok?
    ensures var r := FetchTaskOnStatus(c, body, parse);
            r.Ok? ==> r.value == Some(SymbolizeKeys(parse(body).value))
    ensures var r := FetchTaskOnStatus(c, body, parse);
            r.Err? ==> IsA(r.error.cls, StandardError) || parse(body) == Err(r.error)
  {
    if c == 404 {
      RaiseWithMessage<Option<Json>>(NotFound, body, parse);
    } else if c == 401 {
      RaiseWithMessage<Option<Json>>(Unauthorized, body, parse);
    } else if c != 200 {
      KindIsStandardError(UnexpectedResponse);
    }
  }

  /**
    `fetch_task` returns a value exactly on 200 with a body that parses, and
    that value is the body with Symbol keys; 401, 404 and every other status
    give nil, and it raises only an exception outside StandardError that the
    transport or the parser raised.
   */
  lemma FetchTaskOutcomes(o: Outcome, parse: string -> Result<Json>)
    ensures var r := FetchTaskResult(o, parse);
            (r.Ok? && r.value.Some?) <==> (o.Response? && ToI(o.code) == 200 && parse(o.body).Ok?)
    ensures var r := FetchTaskResult(o, parse);
            r.Ok? && r.value.Some? ==> r.value.value == SymbolizeKeys(parse(o.body).value) && Symbolized(r.value.value)
    ensures var r := FetchTaskResult(o, parse);
            r.Err? ==> !IsA(r.error.cls, StandardError) && (o == Raised(r.error) || (o.Response? && parse(o.body) == Err(r.error)))
  {
    match o
    case Raised(_) =>
    case Response(code, body) =>
      FetchTaskOnStatusOutcomes(ToI(code), body, parse);
      if parse(body).Ok? {
        SymbolizeKeysSymbolizes(parse(body).value);
      }
  }

  /** A request with a body carries the signing headers unchanged plus the JSON content type. */
  lemma FieldsWithBody(headers: map<string, string>, body: string)
    requires ContentType !in headers
    ensures var fields := Fields(headers, Some(body));
            && fields.Keys == headers.Keys + {ContentType}
            && fields[ContentType] == JsonMediaType
            && fields - {ContentType} == headers
  {
    var fields := Fields(headers, Some(body));
    assert fields.Keys - {ContentType} == headers.Keys;
  }

  /**
    The request `execute` sends: a POST to `<base>/executions`, with the
    query `async=1` exactly when asynchronous, the dumped execution as body,
    and the per-call timeouts when given, else the configured ones.
   */
  lemma ExecuteRequestShape(config: Config, codec: Codec, operation: string, callerId: string, params: Json,
                            async: bool, idemKey: Option<string>, timeouts: Option<Timeouts>, now: int)
    ensures var req := ExecuteRequest(config, codec, operation, callerId, params, async, idemKey, timeouts, now);
            && req.verb == Post
            && req.uri.path == NormalizedBase(config.hostBase) + "executions"
            && (req.uri.query == [] <==> !async)
            && (async ==> req.uri.query == [("async", "1")])
            && req.body == Some(codec.dump(ExecutionBody(operation, callerId, params, idemKey)))
            && (timeouts.Some? ==> req.timeouts == timeouts.value)
            && (timeouts.None? ==> req.timeouts == config.timeouts)
  {
  }

  /**
    The headers of `execute`'s request: the three signing headers over the
    body plus a JSON content type. They verify for the same secret and body
    within the skew of the clock reading.
   */
  lemma ExecuteRequestHeaders(config: Config, codec: Codec, operation: string, callerId: string, params: Json,
                              async: bool, idemKey: Option<string>, timeouts: Option<Timeouts>, now: int, later: int, skew: int)
    requires Hmac.Abs(later - now) <= skew
    ensures var req := ExecuteRequest(config, codec, operation, callerId, params, async, idemKey, timeouts, now);
            && req.body.Some?
            && req.fields.Keys == {Hmac.TimestampHeader, Hmac.CallerHeader, Hmac.SignatureHeader, ContentType}
            && req.fields[ContentType] == JsonMediaType
            && req.fields[Hmac.CallerHeader] == callerId
            && ToI(req.fields[Hmac.TimestampHeader]) == now
            && Hmac.Verify(codec.digest, callerId, config.hmacSecret, req.body.value, req.fields - {ContentType}, later, skew)
  {
    var body := codec.dump(ExecutionBody(operation, callerId, params, idemKey));
    var headers := Hmac.Sign(codec.digest, callerId, config.hmacSecret, body, now);
    var req := ExecuteRequest(config, codec, operation, callerId, params, async, idemKey, timeouts, now);
    assert req.body == Some(body) && req.fields == Fields(headers, Some(body));
    FieldsWithBody(headers, body);
    Hmac.SignThenVerify(codec.digest, callerId, callerId, config.hmacSecret, body, now, later, skew);
  }

  /**
    The requests of `wait`, `fetch_tasks` and `fetch_task` are bodiless GETs
    with exactly the three signing headers, signed over the empty body, with
    the configured timeouts.
   */
  lemma SignedGetShape(config: Config, codec: Codec, uri: Uri, callerId: string, now: int, later: int, skew: int)
    requires Hmac.Abs(later - now) <= skew
    ensures var req := SignedGet(config, codec, uri, callerId, now);
            && req.verb == Get && req.uri == uri && req.body.None?
            && req.fields.Keys == {Hmac.TimestampHeader, Hmac.CallerHeader, Hmac.SignatureHeader}
            && req.fields[Hmac.CallerHeader] == callerId
            && req.timeouts == config.timeouts
            && Hmac.Verify(codec.digest, callerId, config.hmacSecret, "", req.fields, later, skew)
  {
    Hmac.SignThenVerify(codec.digest, callerId, callerId, config.hmacSecret, "", now, later, skew);
  }

  /** `wait` asks for `<base>/executions/wait/<key>`; `fetch_task` for `<base>/executions/fetch_task` with the query `task=<name>`. */
  lemma LookupTargets(config: Config, codec: Codec, key: string, callerId: string, now: int)
    ensures WaitRequest(config, codec, key, callerId, now).uri == Uri(NormalizedBase(config.hostBase) + ("executions/wait/" + key), [])
    ensures FetchTaskRequest(config, codec, key, callerId, now).uri == Uri(NormalizedBase(config.hostBase) + "executions/fetch_task", [("task", key)])
    ensures FetchTasksRequest(config, codec, callerId, now).uri == Uri(NormalizedBase(config.hostBase) + "executions/fetch_tasks", [])
  {
  }

  // ---------------------------------------------------------------------------
  // The client object
  // ---------------------------------------------------------------------------

  class Http {
    const config: Config

    constructor(config: Config)
      ensures this.config == config
    {
      this.config := config;
    }

    /**
      `request`: sets the chosen timeouts, copies every signing header onto
      the request, declares a JSON body when there is one, and sends it.
     */
    method Request(verb: Verb, uri: Uri, body: Option<string>, headers: map<string, string>,
                   timeouts: Option<Timeouts>, send: HttpRequest -> Outcome)
      returns (res: Outcome, req: HttpRequest)
      ensures req == HttpRequest(verb, uri, Fields(headers, body), body, ChosenTimeouts(timeouts, config))
      ensures res == send(req)
    {
      var opts := if timeouts.Some? then timeouts.value else config.timeouts;
      var fields: map<string, string> := map[];
      var pending := headers.Keys;
      while pending != {}
        invariant pending <= headers.Keys
        invariant fields.Keys == headers.Keys - pending
        invariant forall k | k in fields :: fields[k] == headers[k]
        decreases pending
      {
        var k :| k in pending;
        fields := fields[k := headers[k]];
        pending := pending - {k};
      }
      assert fields == headers;
      if body.Some? {
        fields := fields[ContentType := JsonMediaType];
      }
      req := HttpRequest(verb, uri, fields, body, opts);
      res := send(req);
    }

    /** `execute`: POST the execution and classify the response; taxonomy errors propagate. */
    method Execute(codec: Codec, now: int, send: HttpRequest -> Outcome,
                   nameonly operation: string, nameonly callerId: string, nameonly params: Json,
                   nameonly async: bool, nameonly idemKey: Option<string>, nameonly timeouts: Option<Timeouts> := None)
      returns (r: Result<Json>, req: HttpRequest)
      ensures req == ExecuteRequest(config, codec, operation, callerId, params, async, idemKey, timeouts, now)
      ensures r == ExecuteResult(send(req), codec.parse)
    {
      var uri := Uri(Join(config.hostBase, "executions"), if async then [("async", "1")] else []);
      var body := codec.dump(ExecutionBody(operation, callerId, params, idemKey));
      var headers := Hmac.Sign(codec.digest, callerId, config.hmacSecret, body, now);
      var res;
      res, req := Request(Post, uri, Some(body), headers, timeouts, send);
      r := ExecuteResult(res, codec.parse);
    }

    /** `wait`: one GET for the execution's result; a blank key sends nothing; every StandardError becomes nil. */
    method Wait(codec: Codec, now: int, send: HttpRequest -> Outcome, nameonly idemKey: string, nameonly callerId: string)
      returns (r: Result<Option<Json>>, req: Option<HttpRequest>)
      ensures IsBlank(idemKey) ==> r == Ok(None) && req == None
      ensures !IsBlank(idemKey) ==> req == Some(WaitRequest(config, codec, idemKey, callerId, now))
                                    && r == WaitResult(send(req.value), codec.parse)
    {
      if IsBlank(idemKey) {
        r := BestEffort(Err(Exception(ArgumentError, JStr("idem_key required"))), None);
        req := None;
        return;
      }
      var uri := Uri(Join(config.hostBase, "executions/wait/" + idemKey), []);
      var headers := Hmac.Sign(codec.digest, callerId, config.hmacSecret, "", now);
      var res, sent := Request(Get, uri, None, headers, None, send);
      r := WaitResult(res, codec.parse);
      req := Some(sent);
    }

    /** `fetch_tasks`: one GET for the task list; every StandardError becomes []. */
    method FetchTasks(codec: Codec, now: int, send: HttpRequest -> Outcome, nameonly callerId: string)
      returns (r: Result<seq<Json>>, req: HttpRequest)
      ensures req == FetchTasksRequest(config, codec, callerId, now)
      ensures r == FetchTasksResult(send(req), codec.parse)
    {
      var uri := Uri(Join(config.hostBase, "executions/fetch_tasks"), []);
      var headers := Hmac.Sign(codec.digest, callerId, config.hmacSecret, "", now);
      var res;
      res, req := Request(Get, uri, None, headers, None, send);
      r := FetchTasksResult(res, codec.parse);
    }

    /** `fetch_task`: one GET for a named task; a blank name sends nothing; every StandardError becomes nil. */
    method FetchTask(codec: Codec, now: int, send: HttpRequest -> Outcome, nameonly taskName: string, nameonly callerId: string)
      returns (r: Result<Option<Json>>, req: Option<HttpRequest>)
      ensures IsBlank(taskName) ==> r == Ok(None) && req == None
      ensures !IsBlank(taskName) ==> req == Some(FetchTaskRequest(config, codec, taskName, callerId, now))
                                     && r == FetchTaskResult(send(req.value), codec.parse)
    {
      if IsBlank(taskName) {
        r := BestEffort(Err(Exception(ArgumentError, JStr("task_name required"))), None);
        req := None;
        return;
      }
      var uri := Uri(Join(config.hostBase, "executions/fetch_task"), [("task", taskName)]);
      var headers := Hmac.Sign(codec.digest, callerId, config.hmacSecret, "", now);
      var res, sent := Request(Get, uri, None, headers, None, send);
      r := FetchTaskResult(res, codec.parse);
      req := Some(sent);
    }
  }
}
