// request.go: the Response record, the response classifier and the
// RequestService builder.
//
// The classifier is a function of the HTTP status and the decoded body. The
// body is `None` when encoding/json could not decode it into an object, on
// which the source calls log.Fatalln (request.go:99-101). The HTTP round trip
// itself (DoRequest, request.go:75-88) is not part of this model: the card
// flow hands the classifier a reply from its Gateway instead.

/** What every request of the SDK returns. */
datatype Response = Response(
  statusCode: int,
  responseCode: string,
  responseMessage: string,
  responseData: Option<JsonMap>,  // None is Go's nil map
  requiresValidation: bool,
  isSuccessfulResponse: bool)
{
  function GetResponseCode(): string { responseCode }
  function GetStatusCode(): int { statusCode }
  function IsSuccessful(): bool { isSuccessfulResponse }
  function RequiresValidation(): bool { requiresValidation }
  function GetResponseMessage(): string { responseMessage }
  function GetResponseData(): Option<JsonMap> { responseData }
}

/** The response parseResponse gives for a server error: only the status. */
function ServerErrorResponse(statusCode: int): Response
{
  Response(statusCode, "", "", None, false, false)
}

/** The response codes the classifier counts as a success. */
const SuccessCodes: set<string> := {"00", "0", "02"}

/** The response code that asks the caller for a validation step. */
const ValidationCode: string := "02"

// ---------------------------------------------------------------------------
// parseResponse as written

/** `if x != "" { v = x.(string) }` on an interface value x: an absent key
    (nil) compares unequal to "" and then fails the assertion, as does any
    non-string; only a string other than "" is taken. */
function GuardedString(v: Option<Json>): (r: Result<Option<string>>)
  ensures r.Ok? <==> v.Some? && v.value.JString?
  ensures r.Ok? ==> (r.value.Some? <==> v.value.s != "")
  ensures r.Ok? && r.value.Some? ==> r.value.value == v.value.s
{
  if v == Some(JString("")) then Ok(None)
  else
    var s :- AssertString(v);
    Ok(Some(s))
}

/** The bodies on which parseResponse as written gets through every type
    assertion: "data" is an object holding both spellings of the response
    code as strings, and a string "responsemessage" unless the misspelled
    "resposemessage" is set to "". */
predicate AsWrittenCompletes(body: JsonMap)
{
  && "data" in body && body["data"].JObject?
  && var d := body["data"].fields;
     && "responseCode" in d && d["responseCode"].JString?
     && "responsecode" in d && d["responsecode"].JString?
     && (("resposemessage" in d && d["resposemessage"] == JString(""))
         || ("responsemessage" in d && d["responsemessage"].JString?))
}

/** The message as parseResponse as written reads it: the "responsemessage"
    string, asserted whenever the misspelled "resposemessage" is not "". */
function MessageAsWritten(inner: JsonMap): (r: Result<string>)
  ensures r.Ok? <==> (Lookup(inner, "resposemessage") == Some(JString(""))
                      || ("responsemessage" in inner && inner["responsemessage"].JString?))
  ensures r.Err? ==> r.failure.Abort?
{
  if Lookup(inner, "resposemessage") != Some(JString("")) then AssertString(Lookup(inner, "responsemessage"))
  else Ok("")
}

/** parseResponse exactly as the source writes it. Every read of
    data["data"] asserts an object, both spellings of the response code must
    be present strings, and the message is read whenever the misspelled key
    "resposemessage" is not the empty string, which includes its absence. */
function ParseResponseAsWritten(statusCode: int, body: Option<JsonMap>): (r: Result<Response>)
  ensures r.Ok? ==> r.value.statusCode == statusCode
  ensures statusCode >= 500 ==> r == Ok(ServerErrorResponse(statusCode))
  ensures r.Err? ==> r.failure.Abort?
  ensures statusCode < 500 ==> (r.Ok? <==> body.Some? && AsWrittenCompletes(body.value))
{
  if statusCode >= 500 then Ok(ServerErrorResponse(statusCode))
  else if body.None? then Err(Abort(UndecodableBody))
  else
    var inner :- AssertObject(Lookup(body.value, "data"));
    ClassifyAsWritten(statusCode, body.value, inner)
}

/** The rest of parseResponse as written, once data["data"] is the object
    `inner`: read both spellings of the code, then the message. */
function ClassifyAsWritten(statusCode: int, data: JsonMap, inner: JsonMap): (r: Result<Response>)
  ensures r.Ok? <==> && "responseCode" in inner && inner["responseCode"].JString?
                     && "responsecode" in inner && inner["responsecode"].JString?
                     && MessageAsWritten(inner).Ok?
  ensures r.Ok? ==> r.value.statusCode == statusCode
  ensures r.Err? ==> r.failure.Abort?
{
  var upper :- GuardedString(Lookup(inner, "responseCode"));
  var lower :- GuardedString(Lookup(inner, "responsecode"));
  var code := if lower.Some? then lower.value else if upper.Some? then upper.value else "";
  var message :- MessageAsWritten(inner);
  Ok(Response(statusCode, code, message, Some(data),
              code != "" && code == ValidationCode,
              Lookup(data, "status") == Some(JString("success")) && statusCode == 200 && code in SuccessCodes))
}

// ---------------------------------------------------------------------------
// parseResponse as intended

/** The string under `key`, with "" standing for an absent key or a value
    that is not a string. */
function StringField(m: JsonMap, key: string): (r: string)
  ensures r != "" ==> Lookup(m, key) == Some(JString(r))
  ensures (key in m && m[key].JString?) ==> r == m[key].s
{
  match Lookup(m, key)
  case Some(JString(s)) => s
  case _ => ""
}

/** The object under "data", with an empty object standing for anything else. */
function DataObject(body: JsonMap): (r: JsonMap)
  ensures ("data" in body && body["data"].JObject?) ==> r == body["data"].fields
  ensures !("data" in body && body["data"].JObject?) ==> r == map[]
{
  match Lookup(body, "data")
  case Some(JObject(m)) => m
  case _ => map[]
}

/** The response code a body carries: the lower-case spelling wins, the
    camel-case spelling is the fallback. */
function ResponseCodeOf(inner: JsonMap): string
{
  var lower := StringField(inner, "responsecode");
  if lower != "" then lower else StringField(inner, "responseCode")
}

/** parseResponse with its evident intent: a missing or non-string field
    reads as "", a missing "data" object as an empty one, and the message is
    the "responsemessage" string. A body that does not decode still ends the
    process, as log.Fatalln does. */
function ParseResponse(statusCode: int, body: Option<JsonMap>): (r: Result<Response>)
  ensures r.Err? <==> statusCode < 500 && body.None?
  ensures r.Err? ==> r.failure.Abort?
  ensures r.Ok? ==> r.value.statusCode == statusCode
  ensures statusCode >= 500 ==> r == Ok(ServerErrorResponse(statusCode))
  ensures r.Ok? && statusCode < 500 ==>
    var inner := DataObject(body.value);
    && r.value.responseData == body
    && (StringField(inner, "responsecode") != "" ==> r.value.responseCode == StringField(inner, "responsecode"))
    && (StringField(inner, "responsecode") == "" ==> r.value.responseCode == StringField(inner, "responseCode"))
    && r.value.responseMessage == StringField(inner, "responsemessage")
  ensures r.Ok? ==> (r.value.requiresValidation <==> r.value.responseCode == ValidationCode)
  ensures r.Ok? ==>
    (r.value.isSuccessfulResponse <==>
       && r.value.responseData.Some?
       && Lookup(r.value.responseData.value, "status") == Some(JString("success"))
       && statusCode == 200
       && r.value.responseCode in SuccessCodes)
{
  if statusCode >= 500 then Ok(ServerErrorResponse(statusCode))
  else if body.None? then Err(Abort(UndecodableBody))
  else
    var data := body.value;
    var inner := DataObject(data);
    var code := ResponseCodeOf(inner);
    var requiresValidation := code == ValidationCode;
    var successful := Lookup(data, "status") == Some(JString("success")) && statusCode == 200 && code in SuccessCodes;
    Ok(Response(statusCode, code, StringField(inner, "responsemessage"), body, requiresValidation, successful))
}

/** The documented "02" reply is at once successful and in need of validation. */
lemma ValidationReplyIsSuccessful(body: JsonMap, inner: JsonMap)
  requires body == map["status" := JString("success"), "data" := JObject(inner)]
  requires StringField(inner, "responsecode") == ValidationCode
  ensures ParseResponse(200, Some(body)).Ok?
  ensures ParseResponse(200, Some(body)).value.requiresValidation
  ensures ParseResponse(200, Some(body)).value.isSuccessfulResponse
{
  assert Lookup(body, "status") == Some(JString("success"));
}

/** Wherever the source completes without a panic and its misspelled message
    guard lets the message through, it agrees with the intended classifier. */
lemma ParseResponseAgrees(statusCode: int, body: Option<JsonMap>)
  requires ParseResponseAsWritten(statusCode, body).Ok?
  requires statusCode < 500 ==> Lookup(DataObject(body.value), "resposemessage") != Some(JString(""))
  ensures ParseResponse(statusCode, body) == ParseResponseAsWritten(statusCode, body)
{
}

/** Where the misspelled guard key "resposemessage" is "", the source skips
    the message; everything else it reports agrees with the intended
    classifier. */
lemma ParseResponseSkipsMessage(statusCode: int, body: Option<JsonMap>)
  requires ParseResponseAsWritten(statusCode, body).Ok?
  requires statusCode < 500 && Lookup(DataObject(body.value), "resposemessage") == Some(JString(""))
  ensures ParseResponse(statusCode, body).Ok?
  ensures ParseResponseAsWritten(statusCode, body).value == ParseResponse(statusCode, body).value.(responseMessage := "")
{
}

/** A reply that carries only the lower-case response code ends the process
    in the source (the camel-case key is nil), while the intended classifier
    reports a success. */
lemma ParseResponsePanicsOnOneSpelling()
  ensures
    var body := map["status" := JString("success"), "data" := JObject(map["responsecode" := JString("00")])];
    && ParseResponseAsWritten(200, Some(body)).Err?
    && ParseResponse(200, Some(body)) == Ok(Response(200, "00", "", Some(body), false, true))
{
  var inner := map["responsecode" := JString("00")];
  var body := map["status" := JString("success"), "data" := JObject(inner)];
  assert Lookup(inner, "responseCode") == None;
  assert Lookup(body, "data") == Some(JObject(inner));
  assert Lookup(body, "status") == Some(JString("success"));
}

/** A reply carrying both spellings of the code but no message: the
    misspelled guard key is absent, so the source asserts the missing
    "responsemessage" to be a string and ends the process, while the intended
    classifier reports a success with an empty message. */
lemma ParseResponsePanicsWithoutMessage()
  ensures
    var body := map["status" := JString("success"),
                    "data" := JObject(map["responsecode" := JString("00"), "responseCode" := JString("00")])];
    && ParseResponseAsWritten(200, Some(body)).Err?
    && ParseResponse(200, Some(body)) == Ok(Response(200, "00", "", Some(body), false, true))
{
  var inner := map["responsecode" := JString("00"), "responseCode" := JString("00")];
  var body := map["status" := JString("success"), "data" := JObject(inner)];
  assert Lookup(body, "data") == Some(JObject(inner));
  assert Lookup(inner, "resposemessage") == None && Lookup(inner, "responsemessage") == None;
  assert Lookup(body, "status") == Some(JString("success"));
}

/** A validation error with `"data": null` also ends the process in the
    source, and classifies as an unsuccessful reply with no code as intended. */
lemma ParseResponsePanicsOnNullData()
  ensures
    var body := map["status" := JString("error"), "message" := JString("Cardno is required"), "data" := JNull];
    && ParseResponseAsWritten(400, Some(body)).Err?
    && ParseResponse(400, Some(body)) == Ok(Response(400, "", "", Some(body), false, false))
{
  var body := map["status" := JString("error"), "message" := JString("Cardno is required"), "data" := JNull];
  assert Lookup(body, "data") == Some(JNull);
}

// ---------------------------------------------------------------------------
// RequestService

/** The request builder every service shares through its Client. */
class RequestService {
  var client: Client?
  var baseURL: string
  var data: Option<map<string, string>>  // None is the nil map of a fresh builder

  /** `&RequestService{Client: c}`: no URL and a nil body map. */
  constructor (client: Client?)
    ensures this.client == client && baseURL == "" && data == None
  {
    this.client := client;
    baseURL := "";
    data := None;
  }

  /** NewRequest: point the shared builder at `url` with an empty body, and
      hand back the same builder, so whatever an earlier caller added is gone. */
  method NewRequest(url: string) returns (r: RequestService)
    modifies this
    ensures r == this
    ensures baseURL == url && data == Some(map[])
    ensures client == old(client)
  {
    baseURL := url;
    data := Some(map[]);
    r := this;
  }

  /** AddBody: set one entry of the body map. Writing to the nil map of a
      builder on which NewRequest was never called panics in Go. */
  method AddBody(key: string, value: string)
    requires data.Some?
    modifies this
    ensures data.Some? && key in data.value && data.value[key] == value
    ensures forall k | k != key :: (k in data.value <==> k in old(data.value)) &&
                                    (k in data.value ==> data.value[k] == old(data.value)[k])
    ensures baseURL == old(baseURL) && client == old(client)
  {
    data := Some(data.value[key := value]);
  }

  /** GetBody: the body map built so far. */
  function GetBody(): Option<map<string, string>>
    reads this
  {
    data
  }
}
