/**
 * The webhook gateway (services/webhookService.ts): the request it posts and
 * the normalisation of the workflow's heterogeneous reply.
 *
 * The HTTP exchange is a parameter `fetch` from request to outcome; the
 * JSON parser and serialiser, which the model does not define, are the
 * parameters `parse` (partial: `None` where `JSON.parse` throws) and
 * `stringify`. The result of a call is a JSON value, not necessarily a
 * string: `{"output": 5}` yields the number 5.
 */
module Webhook {
  import opened Wrappers
  import opened Json
  import JsString

  /** The constant `source` field of every payload. */
  const Source: string := "web-chat-interface"
  /** The media type whose presence in the content-type selects the JSON branch. */
  const JsonMediaType: string := "application/json"
  /** The reply fields tried, in this order, on an object reply. */
  const FieldPriority: seq<string> := ["output", "text", "message", "response"]
  /** The prefix of the error raised on a non-ok HTTP status. */
  const HttpErrorPrefix: string := "Webhook error: "

  /** The JSON body posted to the workflow. */
  datatype Payload = Payload(
    message: string,
    sessionId: string,
    email: string,
    name: string,
    timestamp: string,
    source: string)

  /** The POST request: method, content-type header and JSON body. */
  datatype Request = Request(httpMethod: string, contentType: string, body: Json)

  /** What `fetch` gives back: a network failure (the promise rejects) or a response. */
  datatype Exchange =
    | NetworkFailure
    | Response(ok: bool, statusText: string, contentType: Option<string>, body: string)

  /** Every way a call can throw. All are rethrown to the caller unchanged. */
  datatype WebhookError =
    | TransportError           // fetch itself rejected
    | HttpError(message: string) // a non-ok status
    | BodyNotJson              // `response.json()` rejected
    | ParseError(text: string)  // `JSON.parse` on a bare string reply rejected

  /** The payload as the JSON object that is serialised into the request body. */
  function PayloadToJson(p: Payload): Json
  {
    Object(map[
      "message" := Str(p.message),
      "sessionId" := Str(p.sessionId),
      "email" := Str(p.email),
      "name" := Str(p.name),
      "timestamp" := Str(p.timestamp),
      "source" := Str(p.source)])
  }

  /** Reads a string-valued field of an object. */
  function StringField(fields: map<string, Json>, key: string): Option<string>
  {
    if key in fields && fields[key].Str? then Some(fields[key].s) else None
  }

  /** What the workflow reads back from a request body. */
  function PayloadFromJson(j: Json): Option<Payload>
  {
    if !j.Object? then None
    else
      var f := j.fields;
      var message := StringField(f, "message");
      var sessionId := StringField(f, "sessionId");
      var email := StringField(f, "email");
      var name := StringField(f, "name");
      var timestamp := StringField(f, "timestamp");
      var source := StringField(f, "source");
      if message.Some? && sessionId.Some? && email.Some? && name.Some?
         && timestamp.Some? && source.Some?
      then Some(Payload(message.value, sessionId.value, email.value, name.value,
                        timestamp.value, source.value))
      else None
  }

  /** The body the workflow receives decodes to exactly the payload that was built. */
  lemma PayloadRoundTrip(p: Payload)
    ensures PayloadFromJson(PayloadToJson(p)) == Some(p)
  {
  }

  /** The request `sendMessageToWebhook` posts; `timestamp` is the ISO-8601 text of the current time. */
  function BuildRequest(message: string, sessionId: string, userEmail: string, userName: string,
                        timestamp: string): (req: Request)
    ensures req.httpMethod == "POST" && req.contentType == JsonMediaType
    ensures PayloadFromJson(req.body)
            == Some(Payload(message, sessionId, userEmail, userName, timestamp, Source))
  {
    var p := Payload(message, sessionId, userEmail, userName, timestamp, Source);
    PayloadRoundTrip(p);
    Request("POST", JsonMediaType, PayloadToJson(p))
  }

  /** The JSON branch is taken when a content-type header is present (and
      non-empty, i.e. truthy) and `indexOf("application/json") !== -1`. */
  predicate IsJsonContentType(contentType: Option<string>): (json: bool)
    ensures json <==> contentType.Some?
                      && exists i :: JsString.OccursAt(contentType.value, JsonMediaType, i)
  {
    contentType.Some? && contentType.value != ""
    && JsString.IndexOf(contentType.value, JsonMediaType) != -1
  }

  /** `a || b || ... || fallback` over the fields named by `keys`. */
  function FirstTruthyOr(fields: map<string, Json>, keys: seq<string>, fallback: Json): Json
  {
    if keys == [] then fallback
    else if TruthyField(fields, keys[0]) then fields[keys[0]]
    else FirstTruthyOr(fields, keys[1..], fallback)
  }

  /** Normalises the working value (the reply, or its first element when it was an array).
      Only a string that is not JSON text makes it fail. */
  function FromWorkingValue(v: Json, parse: string -> Option<Json>, stringify: Json -> string)
    : (r: Result<Json, WebhookError>)
    ensures r.Err? <==> v.Str? && parse(v.s).None?
    ensures r.Err? ==> r == Err(ParseError(v.s))
  {
    match v
    case Object(fields) => Ok(FirstTruthyOr(fields, FieldPriority, Str(stringify(v))))
    // An array is an object to `typeof` but has none of the four properties.
    case Array(_) => Ok(Str(stringify(v)))
    case Str(s) => (match parse(s) case Some(w) => Ok(w) case None => Err(ParseError(s)))
    // `JSON.parse` coerces null, booleans and integers to text and reads back the same value.
    case _ => Ok(v)
  }

  /** Normalises the value that `response.json()` produced. */
  function NormaliseData(data: Json, parse: string -> Option<Json>, stringify: Json -> string)
    : (r: Result<Json, WebhookError>)
    ensures r.Err? ==> r.error.ParseError? && parse(r.error.text).None?
    ensures r.Err? ==> !data.Array? || |data.items| > 0
    ensures !data.Array? ==> r == FromWorkingValue(data, parse, stringify)
  {
    if data.Array? then
      if |data.items| > 0 then FromWorkingValue(data.items[0], parse, stringify)
      else Ok(Str(""))
    else FromWorkingValue(data, parse, stringify)
  }

  /** Turns the outcome of the HTTP exchange into the call's result or its error. */
  function NormaliseResponse(x: Exchange, parse: string -> Option<Json>, stringify: Json -> string)
    : (r: Result<Json, WebhookError>)
    ensures r.Ok? ==> x.Response? && x.ok
    ensures r == Err(BodyNotJson)
            <==> x.Response? && x.ok && IsJsonContentType(x.contentType) && parse(x.body).None?
    ensures r.Err? && r.error.ParseError? ==>
              x.Response? && x.ok && IsJsonContentType(x.contentType) && parse(x.body).Some?
  {
    match x
    case NetworkFailure => Err(TransportError)
    case Response(ok, statusText, contentType, body) =>
      if !ok then Err(HttpError(HttpErrorPrefix + statusText))
      else if IsJsonContentType(contentType) then
        match parse(body)
        case None => Err(BodyNotJson)
        case Some(data) => NormaliseData(data, parse, stringify)
      else Ok(Str(body))
  }

  /** `sendMessageToWebhook(message, sessionId, userEmail, userName)`. */
  function SendMessageToWebhook(message: string, sessionId: string, userEmail: string,
                                userName: string, timestamp: string,
                                fetch: Request -> Exchange,
                                parse: string -> Option<Json>, stringify: Json -> string)
    : (r: Result<Json, WebhookError>)
    ensures fetch(BuildRequest(message, sessionId, userEmail, userName, timestamp)).NetworkFailure? ==>
              r == Err(TransportError)
    ensures r.Ok? ==> fetch(BuildRequest(message, sessionId, userEmail, userName, timestamp)).Response?
                      && fetch(BuildRequest(message, sessionId, userEmail, userName, timestamp)).ok
  {
    NormaliseResponse(fetch(BuildRequest(message, sessionId, userEmail, userName, timestamp)),
                      parse, stringify)
  }

  // ---------------------------------------------------------------------------
  // Properties of the normalisation

  /** A failed fetch or a non-ok status is an error, whatever the headers and body say. */
  lemma FailedExchangeIsError(x: Exchange, parse: string -> Option<Json>, stringify: Json -> string)
    requires x.NetworkFailure? || !x.ok
    ensures NormaliseResponse(x, parse, stringify)
            == if x.NetworkFailure? then Err(TransportError)
               else Err(HttpError(HttpErrorPrefix + x.statusText))
  {
  }

  /** A successful reply without a JSON content-type is returned verbatim as text. */
  lemma TextReplyVerbatim(x: Exchange, parse: string -> Option<Json>, stringify: Json -> string)
    requires x.Response? && x.ok
    requires x.contentType.None?
             || !exists i :: JsString.OccursAt(x.contentType.value, JsonMediaType, i)
    ensures NormaliseResponse(x, parse, stringify) == Ok(Str(x.body))
  {
  }

  /** With a JSON content-type the body is parsed and the parsed value is
      normalised; a body that is not JSON text is an error. */
  lemma JsonBranchDecodes(x: Exchange, parse: string -> Option<Json>, stringify: Json -> string)
    requires x.Response? && x.ok && x.contentType.Some?
    requires exists i :: JsString.OccursAt(x.contentType.value, JsonMediaType, i)
    ensures parse(x.body).None? ==> NormaliseResponse(x, parse, stringify) == Err(BodyNotJson)
    ensures parse(x.body).Some? ==>
              NormaliseResponse(x, parse, stringify) == NormaliseData(parse(x.body).value, parse, stringify)
  {
  }

  /** An array found at element 0 is neither parsed nor searched: it is serialised. */
  lemma NestedArraySerialised(items: seq<Json>, parse: string -> Option<Json>, stringify: Json -> string)
    ensures NormaliseData(Array([Array(items)]), parse, stringify) == Ok(Str(stringify(Array(items))))
  {
  }

  /** A top-level empty array gives the empty string. */
  lemma EmptyArrayGivesEmptyString(parse: string -> Option<Json>, stringify: Json -> string)
    ensures NormaliseData(Array([]), parse, stringify) == Ok(Str(""))
  {
  }

  /** Only element 0 of a non-empty top-level array affects the result. */
  lemma OnlyFirstElementMatters(a: seq<Json>, b: seq<Json>,
                                parse: string -> Option<Json>, stringify: Json -> string)
    requires |a| > 0 && |b| > 0 && a[0] == b[0]
    ensures NormaliseData(Array(a), parse, stringify) == NormaliseData(Array(b), parse, stringify)
    ensures NormaliseData(Array(a), parse, stringify) == FromWorkingValue(a[0], parse, stringify)
  {
  }

  /** `FirstTruthyOr` returns the first truthy field among `keys`, skipping
      fields that are absent or present but falsy. */
  lemma {:induction false} FirstTruthyOrPicks(fields: map<string, Json>, keys: seq<string>,
                                              fallback: Json, i: nat)
    requires i < |keys| && TruthyField(fields, keys[i])
    requires forall j :: 0 <= j < i ==> !TruthyField(fields, keys[j])
    ensures FirstTruthyOr(fields, keys, fallback) == fields[keys[i]]
  {
    if i > 0 {
      assert !TruthyField(fields, keys[0]);
      FirstTruthyOrPicks(fields, keys[1..], fallback, i - 1);
    }
  }

  /** With no truthy field among `keys`, `FirstTruthyOr` returns the fallback. */
  lemma {:induction false} FirstTruthyOrFallsBack(fields: map<string, Json>, keys: seq<string>,
                                                  fallback: Json)
    requires forall j :: 0 <= j < |keys| ==> !TruthyField(fields, keys[j])
    ensures FirstTruthyOr(fields, keys, fallback) == fallback
  {
    if keys != [] {
      assert !TruthyField(fields, keys[0]);
      FirstTruthyOrFallsBack(fields, keys[1..], fallback);
    }
  }

  /** An object reply yields its first truthy field among output, text,
      message, response, never consulting `JSON.parse`. */
  lemma ObjectPicksFirstTruthyField(fields: map<string, Json>, i: nat,
                                    parse: string -> Option<Json>, stringify: Json -> string)
    requires i < |FieldPriority| && TruthyField(fields, FieldPriority[i])
    requires forall j :: 0 <= j < i ==> !TruthyField(fields, FieldPriority[j])
    ensures FromWorkingValue(Object(fields), parse, stringify) == Ok(fields[FieldPriority[i]])
  {
    FirstTruthyOrPicks(fields, FieldPriority, Str(stringify(Object(fields))), i);
  }

  /** An object reply with none of the four fields truthy yields its serialisation. */
  lemma ObjectFallsBackToSerialisation(fields: map<string, Json>,
                                       parse: string -> Option<Json>, stringify: Json -> string)
    requires forall j :: 0 <= j < |FieldPriority| ==> !TruthyField(fields, FieldPriority[j])
    ensures FromWorkingValue(Object(fields), parse, stringify) == Ok(Str(stringify(Object(fields))))
  {
    FirstTruthyOrFallsBack(fields, FieldPriority, Str(stringify(Object(fields))));
  }

  /** A working value that is neither an object nor an array goes through
      `JSON.parse`: a string is decoded or the call fails; null, booleans and
      numbers come back unchanged. */
  lemma ScalarGoesThroughParse(v: Json, parse: string -> Option<Json>, stringify: Json -> string)
    requires !v.Object? && !v.Array?
    ensures v.Str? && parse(v.s).None? ==> FromWorkingValue(v, parse, stringify) == Err(ParseError(v.s))
    ensures v.Str? && parse(v.s).Some? ==> FromWorkingValue(v, parse, stringify) == Ok(parse(v.s).value)
    ensures !v.Str? ==> FromWorkingValue(v, parse, stringify) == Ok(v)
  {
  }

  /** Worked replies: `{"output":"Hi there"}`, `[{"text":"Hello"}]`, `[]`,
      `{"output":5}` and `{"output":"","text":"x"}`. */
  lemma ReplyExamples(parse: string -> Option<Json>, stringify: Json -> string)
    ensures NormaliseData(Object(map["output" := Str("Hi there")]), parse, stringify)
            == Ok(Str("Hi there"))
    ensures NormaliseData(Array([Object(map["text" := Str("Hello")])]), parse, stringify)
            == Ok(Str("Hello"))
    ensures NormaliseData(Array([]), parse, stringify) == Ok(Str(""))
    ensures NormaliseData(Object(map["output" := Number(5)]), parse, stringify) == Ok(Number(5))
    ensures NormaliseData(Object(map["output" := Str(""), "text" := Str("x")]), parse, stringify)
            == Ok(Str("x"))
  {
    ObjectPicksFirstTruthyField(map["output" := Str("Hi there")], 0, parse, stringify);
    ObjectPicksFirstTruthyField(map["text" := Str("Hello")], 1, parse, stringify);
    ObjectPicksFirstTruthyField(map["output" := Number(5)], 0, parse, stringify);
    ObjectPicksFirstTruthyField(map["output" := Str(""), "text" := Str("x")], 1, parse, stringify);
  }

  /** A reply `["Hello"]` whose element is plain text that is not itself JSON
      makes the call fail instead of returning the text. */
  lemma PlainStringInArrayFails(parse: string -> Option<Json>, stringify: Json -> string)
    requires parse("Hello").None?
    ensures NormaliseData(Array([Str("Hello")]), parse, stringify) == Err(ParseError("Hello"))
  {
  }

  /** The request carries the caller's arguments unchanged and a non-ok
      status is reported as an error without decoding the body. */
  lemma SendCarriesArguments(message: string, sessionId: string, userEmail: string,
                             userName: string, timestamp: string,
                             fetch: Request -> Exchange,
                             parse: string -> Option<Json>, stringify: Json -> string)
    ensures var req := BuildRequest(message, sessionId, userEmail, userName, timestamp);
            var r := SendMessageToWebhook(message, sessionId, userEmail, userName, timestamp,
                                          fetch, parse, stringify);
            && PayloadFromJson(req.body)
               == Some(Payload(message, sessionId, userEmail, userName, timestamp, Source))
            && (fetch(req).NetworkFailure? ==> r == Err(TransportError))
            && (fetch(req).Response? && !fetch(req).ok ==>
                  r == Err(HttpError(HttpErrorPrefix + fetch(req).statusText)))
  {
  }

  /** What an ok response to the posted request yields: its body text outside
      the JSON branch, the normalised parsed body inside it, and an error when
      a JSON-typed body does not parse. */
  lemma SendOkResponse(message: string, sessionId: string, userEmail: string,
                       userName: string, timestamp: string,
                       fetch: Request -> Exchange,
                       parse: string -> Option<Json>, stringify: Json -> string)
    requires fetch(BuildRequest(message, sessionId, userEmail, userName, timestamp)).Response?
    requires fetch(BuildRequest(message, sessionId, userEmail, userName, timestamp)).ok
    ensures var x := fetch(BuildRequest(message, sessionId, userEmail, userName, timestamp));
            var r := SendMessageToWebhook(message, sessionId, userEmail, userName, timestamp,
                                          fetch, parse, stringify);
            && (x.contentType.None? || !(exists i :: JsString.OccursAt(x.contentType.value, JsonMediaType, i))
                ==> r == Ok(Str(x.body)))
            && (x.contentType.Some? && (exists i :: JsString.OccursAt(x.contentType.value, JsonMediaType, i))
                && parse(x.body).Some?
                ==> r == NormaliseData(parse(x.body).value, parse, stringify))
            && (x.contentType.Some? && (exists i :: JsString.OccursAt(x.contentType.value, JsonMediaType, i))
                && parse(x.body).None?
                ==> r == Err(BodyNotJson))
  {
  }
}
