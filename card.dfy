// card.go: the card charge flow.
//
// The caller's payload is a Go map, shared by reference, so it is an object
// here (Payload) that the service methods update in place. Every request goes
// through a Gateway: it stands for DoRequest and the Rave API, answers from a
// script of replies and records each submission in order. The card methods
// read the client's keys the way CryptoService does: the public key is the
// merchant key and the secret key is the API key.

/** A caller's `map[string]interface{}` payload. */
class Payload {
  var fields: JsonMap

  constructor (fields: JsonMap)
    ensures this.fields == fields
  {
    this.fields := fields;
  }
}

const ChargePath: string := "/flwv3-pug/getpaidx/api/charge"
const ValidatePath: string := "/flwv3-pug/getpaidx/api/validate"
const ValidateChargePath: string := "/flwv3-pug/getpaidx/api/validatecharge"
const VerifyPath: string := "/flwv3-pug/getpaidx/api/verify"

/** What one request met on the wire: a reply (status and the decoded body,
    None when it did not decode), or a transport error. */
datatype Transport = Delivered(statusCode: int, body: Option<JsonMap>) | Unreachable(reason: string)

/** One request the SDK posted: its path and its body. */
datatype Submission = Submission(path: string, body: JsonMap)

/** Which reading of parseResponse classifies the replies: the source's own
    (`AsWritten`, which ends the process on every reply that lacks either
    spelling of the response code) or the intended one. The flow lemmas below hold for either. */
datatype Classifier = AsWritten | Intended

function Classify(cls: Classifier, statusCode: int, body: Option<JsonMap>): (r: Result<Response>)
  ensures cls.AsWritten? ==> r == ParseResponseAsWritten(statusCode, body)
  ensures cls.Intended? ==> r == ParseResponse(statusCode, body)
{
  match cls
  case AsWritten => ParseResponseAsWritten(statusCode, body)
  case Intended => ParseResponse(statusCode, body)
}

/** What DoRequest returns for the next scripted transport outcome; with no
    script left, the request fails as an unreachable host does. */
function Answer(cls: Classifier, pending: seq<Transport>): (r: Result<Response>)
  ensures pending == [] ==> r.Err? && r.failure.NetworkError?
  ensures pending != [] && pending[0].Unreachable? ==> r == Err(NetworkError(pending[0].reason))
  ensures pending != [] && pending[0].Delivered? ==> r == Classify(cls, pending[0].statusCode, pending[0].body)
  ensures r.Ok? ==> pending != [] && pending[0].Delivered? && r.value.statusCode == pending[0].statusCode
{
  if pending == [] then Err(NetworkError("no reply"))
  else match pending[0]
    case Unreachable(reason) => Err(NetworkError(reason))
    case Delivered(status, body) => Classify(cls, status, body)
}

/** The script once one request has used its head. */
function Rest(pending: seq<Transport>): (r: seq<Transport>)
  ensures pending != [] ==> r == pending[1..]
  ensures pending == [] ==> r == []
{
  if pending == [] then [] else pending[1..]
}

/** The Rave API as the SDK sees it. */
class Gateway {
  const classifier: Classifier
  var pending: seq<Transport>
  var sent: seq<Submission>

  constructor (classifier: Classifier, script: seq<Transport>)
    ensures this.classifier == classifier && pending == script && sent == []
  {
    this.classifier := classifier;
    pending := script;
    sent := [];
  }

  /** Post `body` to `path` and classify the reply. */
  method Submit(path: string, body: JsonMap) returns (r: Result<Response>)
    modifies this
    ensures r == Answer(classifier, old(pending))
    ensures pending == Rest(old(pending))
    ensures sent == old(sent) + [Submission(path, body)]
  {
    r := Answer(classifier, pending);
    pending := Rest(pending);
    sent := sent + [Submission(path, body)];
  }
}

// ---------------------------------------------------------------------------
// keysExists

/** The first of `keys`, in list order, that `data` lacks. */
function FirstMissingKey(keys: seq<string>, data: JsonMap): (r: Option<string>)
  ensures r.None? <==> forall i | 0 <= i < |keys| :: keys[i] in data
  ensures r.Some? ==> exists i | 0 <= i < |keys| :: keys[i] == r.value && keys[i] !in data &&
                                                    forall j | 0 <= j < i :: keys[j] in data
{
  if keys == [] then None
  else if keys[0] !in data then Some(keys[0])
  else
    var r := FirstMissingKey(keys[1..], data);
    if r.Some? then
      var i :| 0 <= i < |keys[1..]| && keys[1..][i] == r.value && keys[1..][i] !in data &&
               forall j | 0 <= j < i :: keys[1..][j] in data;
      assert keys[i + 1] == r.value;
      r
    else r
}

/** keysExists as the error it returns: nil, or one naming the first missing key. */
function KeysCheck(keys: seq<string>, data: JsonMap): (r: Option<Failure>)
{
  match FirstMissingKey(keys, data)
  case None => None
  case Some(k) => Some(MissingKey(k))
}

/** keysExists: walk the keys in order and stop at the first one missing. */
method KeysExists(keys: seq<string>, data: JsonMap) returns (err: Option<Failure>)
  ensures err == KeysCheck(keys, data)
  ensures err.None? <==> forall i | 0 <= i < |keys| :: keys[i] in data
{
  var i := 0;
  while i < |keys|
    invariant 0 <= i <= |keys|
    invariant forall j | 0 <= j < i :: keys[j] in data
    invariant FirstMissingKey(keys, data) == FirstMissingKey(keys[i..], data)
  {
    if keys[i] !in data {
      return Some(MissingKey(keys[i]));
    }
    assert keys[i..][1..] == keys[i + 1..];
    i := i + 1;
  }
  return None;
}

/** A check of one key fails exactly when that key is absent. */
lemma KeysCheckOne(key: string, data: JsonMap)
  ensures KeysCheck([key], data) == if key in data then None else Some(MissingKey(key))
{
  assert [key][1..] == [];
}

// ---------------------------------------------------------------------------
// initialzeCard

/** initialzeCard: the envelope holding the public key, the payload encrypted
    under the secret key, and the algorithm name. The secret key is read
    first, then the public key; either one missing ends the process. */
function InitializeCard(p: Primitives, publicKey: string, secretKey: string, data: JsonMap): (r: Result<JsonMap>)
  ensures r.Ok? <==> DerivedKey(p, secretKey).Ok? && publicKey != ""
  ensures r.Err? ==> r.failure.Abort?
  ensures r.Ok? ==> r.value.Keys == {"PBFPubKey", "client", "alg"}
  ensures r.Ok? ==> r.value["PBFPubKey"] == JString(publicKey) && r.value["alg"] == JString("3DES-24")
  ensures r.Ok? ==> r.value["client"] == JString(SecretEncrypted(p, secretKey, p.marshal(data)).value)
{
  match SecretEncrypted(p, secretKey, p.marshal(data))
  case Err(f) => Err(f)
  case Ok(encrypted) =>
    var pub :- GetPublicKey(publicKey);
    Ok(map["PBFPubKey" := JString(pub), "client" := JString(encrypted), "alg" := JString("3DES-24")])
}

/** The "client" field of the envelope decrypts, under the same secret key,
    to the JSON encoding of the payload. */
lemma EnvelopeDecrypts(p: Primitives, publicKey: string, secretKey: string, data: JsonMap)
  requires Lawful(p)
  requires InitializeCard(p, publicKey, secretKey, data).Ok?
  requires p.marshal(data) != Sentinel
  ensures SecretDecrypted(p, secretKey, InitializeCard(p, publicKey, secretKey, data).value["client"].s) == Ok(p.marshal(data))
{
  SecretRoundTrip(p, secretKey, p.marshal(data));
}

// ---------------------------------------------------------------------------
// ChargeCard

/** The authentication model a charge reply suggests, read along the path
    data.data.suggested_auth of the reply body; each step asserts its type,
    so a reply without that path ends the process. */
function SuggestedAuth(resp: Response): (r: Result<string>)
  ensures r.Err? ==> r.failure.Abort?
  ensures r.Ok? <==>
    && resp.responseData.Some?
    && "data" in resp.responseData.value && resp.responseData.value["data"].JObject?
    && "data" in resp.responseData.value["data"].fields
    && resp.responseData.value["data"].fields["data"].JObject?
    && "suggested_auth" in resp.responseData.value["data"].fields["data"].fields
    && resp.responseData.value["data"].fields["data"].fields["suggested_auth"].JString?
  ensures r.Ok? ==> resp.responseData.value["data"].fields["data"].fields["suggested_auth"] == JString(r.value)
{
  var d := if resp.responseData.Some? then resp.responseData.value else map[];
  var authData :- AssertObject(Lookup(d, "data"));
  var inner :- AssertObject(Lookup(authData, "data"));
  AssertString(Lookup(inner, "suggested_auth"))
}

/** The outcome of a card-service call: its result, the caller's payload and
    the submissions it made, and what remains of the reply script. */
datatype Run = Run(result: Result<Response>, data: JsonMap, sent: seq<Submission>, pending: seq<Transport>)

/** The second half of ChargeCard once the first reply asked for a PIN:
    stamp suggested_auth = "PIN" into the payload, check for a "pin", and
    charge again; the first reply `resp` is what a completed call returns. */
function PinResubmit(p: Primitives, publicKey: string, secretKey: string, data: JsonMap, cls: Classifier,
                     pending: seq<Transport>, resp: Response): (run: Run)
  ensures run.data == data["suggested_auth" := JString("PIN")]
  ensures run.sent == [] || run.sent == [Submission(ChargePath, run.data)]
  ensures run.result.Ok? ==> run.result == Ok(resp) && run.sent != [] && Answer(cls, pending).Ok?
{
  var withAuth := data["suggested_auth" := JString("PIN")];
  match KeysCheck(["pin"], withAuth)
  case Some(f) => Run(Err(f), withAuth, [], pending)
  case None =>
    var envelope := InitializeCard(p, publicKey, secretKey, withAuth);
    if envelope.Err? then Run(Err(envelope.failure), withAuth, [], pending)
    else
      var sent := [Submission(ChargePath, withAuth)];
      match Answer(cls, pending)
      case Err(f) => Run(Err(f), withAuth, sent, Rest(pending))
      case Ok(_) => Run(Ok(resp), withAuth, sent, Rest(pending))
}

/** ChargeCard once the first request has been answered with `answer`: a
    failed request is returned; a reply is read for its suggested_auth, and a
    "PIN" suggestion leads to the resubmission. */
function ChargeAfterReply(p: Primitives, publicKey: string, secretKey: string, data: JsonMap, cls: Classifier,
                          answer: Result<Response>, pending: seq<Transport>): (run: Run)
  ensures run.sent == [] || run.sent == [Submission(ChargePath, data["suggested_auth" := JString("PIN")])]
  ensures run.result.Ok? ==> run.result == answer && SuggestedAuth(answer.value).Ok?
  ensures answer.Err? ==> run == Run(answer, data, [], pending)
{
  match answer
  case Err(f) => Run(Err(f), data, [], pending)
  case Ok(resp) =>
    match SuggestedAuth(resp)
    case Err(f) => Run(Err(f), data, [], pending)
    case Ok(auth) =>
      if auth != "PIN" then Run(Ok(resp), data, [], pending)
      else PinResubmit(p, publicKey, secretKey, data, cls, pending, resp)
}

/** What ChargeCard does from the payload `data` and the reply script. */
function ChargeCardRun(p: Primitives, publicKey: string, secretKey: string, data: JsonMap, cls: Classifier, pending: seq<Transport>): (run: Run)
  ensures || run.sent == []
          || run.sent == [Submission(ChargePath, data)]
          || run.sent == [Submission(ChargePath, data), Submission(ChargePath, data["suggested_auth" := JString("PIN")])]
  ensures run.result.Ok? ==> run.result == Answer(cls, pending)
  ensures run.result.Ok? ==> SuggestedAuth(run.result.value).Ok?
{
  match KeysCheck(["redirect_url"], data)
  case Some(f) => Run(Err(f), data, [], pending)
  case None =>
    var envelope := InitializeCard(p, publicKey, secretKey, data);
    if envelope.Err? then Run(Err(envelope.failure), data, [], pending)
    else
      var after := ChargeAfterReply(p, publicKey, secretKey, data, cls, Answer(cls, pending), Rest(pending));
      Run(after.result, after.data, [Submission(ChargePath, data)] + after.sent, after.pending)
}

/** A payload without "redirect_url" is refused before anything is sent. */
lemma ChargeNeedsRedirectUrl(p: Primitives, publicKey: string, secretKey: string, data: JsonMap, cls: Classifier, pending: seq<Transport>)
  requires "redirect_url" !in data
  ensures ChargeCardRun(p, publicKey, secretKey, data, cls, pending) == Run(Err(MissingKey("redirect_url")), data, [], pending)
{
}

/** The envelope cannot be built (no usable secret key, or no public key):
    initialzeCard ends the process before any request is sent. */
lemma ChargeNeedsKeys(p: Primitives, publicKey: string, secretKey: string, data: JsonMap, cls: Classifier, pending: seq<Transport>)
  requires "redirect_url" in data
  requires InitializeCard(p, publicKey, secretKey, data).Err?
  ensures
    var run := ChargeCardRun(p, publicKey, secretKey, data, cls, pending);
    && run == Run(Err(InitializeCard(p, publicKey, secretKey, data).failure), data, [], pending)
    && run.result.failure.Abort?
{
  KeysCheckOne("redirect_url", data);
}

/** A first request that fails (a transport error, or a reply the classifier
    rejects) is returned as it is, after exactly that one request. */
lemma ChargeFirstRequestFails(p: Primitives, publicKey: string, secretKey: string, data: JsonMap, cls: Classifier, pending: seq<Transport>)
  requires "redirect_url" in data
  requires InitializeCard(p, publicKey, secretKey, data).Ok?
  requires Answer(cls, pending).Err?
  ensures ChargeCardRun(p, publicKey, secretKey, data, cls, pending) ==
          Run(Answer(cls, pending), data, [Submission(ChargePath, data)], Rest(pending))
{
  KeysCheckOne("redirect_url", data);
}

/** A "PIN" suggestion without a "pin" in the payload: the payload has
    already been given suggested_auth = "PIN", one request was sent, and the
    call fails naming "pin". */
lemma ChargePinMissing(p: Primitives, publicKey: string, secretKey: string, data: JsonMap, cls: Classifier, pending: seq<Transport>)
  requires "redirect_url" in data && "pin" !in data
  requires InitializeCard(p, publicKey, secretKey, data).Ok?
  requires Answer(cls, pending).Ok? && SuggestedAuth(Answer(cls, pending).value) == Ok("PIN")
  ensures
    var run := ChargeCardRun(p, publicKey, secretKey, data, cls, pending);
    && run.result == Err(MissingKey("pin"))
    && run.data == data["suggested_auth" := JString("PIN")]
    && run.sent == [Submission(ChargePath, data)]
{
  assert "pin" !in data["suggested_auth" := JString("PIN")];
}

/** A "PIN" suggestion with a "pin" in the payload: exactly two requests,
    the second carrying suggested_auth = "PIN", and the answer to the first
    is what the call returns once the second one goes through. */
lemma ChargePinPresent(p: Primitives, publicKey: string, secretKey: string, data: JsonMap, cls: Classifier, pending: seq<Transport>)
  requires "redirect_url" in data && "pin" in data
  requires InitializeCard(p, publicKey, secretKey, data).Ok?
  requires Answer(cls, pending).Ok? && SuggestedAuth(Answer(cls, pending).value) == Ok("PIN")
  ensures
    var run := ChargeCardRun(p, publicKey, secretKey, data, cls, pending);
    && |run.sent| == 2
    && run.sent[1].body == data["suggested_auth" := JString("PIN")]
    && run.sent[1].body["suggested_auth"] == JString("PIN")
    && run.data == run.sent[1].body
    && (Answer(cls, Rest(pending)).Ok? ==> run.result == Answer(cls, pending))
    && (Answer(cls, Rest(pending)).Err? ==> run.result == Answer(cls, Rest(pending)))
{
  var withAuth := data["suggested_auth" := JString("PIN")];
  assert "pin" in withAuth && "redirect_url" in withAuth;
  assert InitializeCard(p, publicKey, secretKey, withAuth).Ok?;
}

/** Any other suggestion: exactly one request, whose answer is returned, and
    the payload is left as it was. */
lemma ChargeOtherAuth(p: Primitives, publicKey: string, secretKey: string, data: JsonMap, cls: Classifier, pending: seq<Transport>, auth: string)
  requires "redirect_url" in data
  requires InitializeCard(p, publicKey, secretKey, data).Ok?
  requires Answer(cls, pending).Ok? && SuggestedAuth(Answer(cls, pending).value) == Ok(auth) && auth != "PIN"
  ensures ChargeCardRun(p, publicKey, secretKey, data, cls, pending) ==
          Run(Answer(cls, pending), data, [Submission(ChargePath, data)], Rest(pending))
{
}

/** A first reply without a string at data.data.suggested_auth ends the
    process after that one request, the payload untouched. */
lemma ChargeAbortsWithoutSuggestedAuth(p: Primitives, publicKey: string, secretKey: string, data: JsonMap, cls: Classifier, pending: seq<Transport>)
  requires "redirect_url" in data
  requires InitializeCard(p, publicKey, secretKey, data).Ok?
  requires Answer(cls, pending).Ok? && SuggestedAuth(Answer(cls, pending).value).Err?
  ensures
    var run := ChargeCardRun(p, publicKey, secretKey, data, cls, pending);
    && run.result.Err? && run.result.failure.Abort?
    && run.sent == [Submission(ChargePath, data)]
    && run.data == data && run.pending == Rest(pending)
{
  KeysCheckOne("redirect_url", data);
}

/** Under the source's own classifier, a charge reply that suggests an
    authentication model but carries no response code ends the process after
    the first request; the intended classifier lets the flow go on. */
lemma ChargeAbortsWithoutResponseCode(p: Primitives, publicKey: string, secretKey: string, data: JsonMap, rest: seq<Transport>)
  requires "redirect_url" in data
  requires InitializeCard(p, publicKey, secretKey, data).Ok?
  ensures
    var reply := map["status" := JString("success"),
                     "data" := JObject(map["data" := JObject(map["suggested_auth" := JString("OTP")])])];
    var script := [Delivered(200, Some(reply))] + rest;
    var run := ChargeCardRun(p, publicKey, secretKey, data, AsWritten, script);
    && run.result.Err? && run.result.failure.Abort?
    && run.sent == [Submission(ChargePath, data)]
    && ChargeCardRun(p, publicKey, secretKey, data, Intended, script).result.Ok?
{
  var auth := map["suggested_auth" := JString("OTP")];
  var inner := map["data" := JObject(auth)];
  var reply := map["status" := JString("success"), "data" := JObject(inner)];
  var script := [Delivered(200, Some(reply))] + rest;
  KeysCheckOne("redirect_url", data);
  assert script[0] == Delivered(200, Some(reply));
  // as written: the camel-case code is missing, so the classifier aborts
  assert !AsWrittenCompletes(reply) by {
    assert reply["data"].fields == inner && "responseCode" !in inner;
  }
  assert Answer(AsWritten, script).Err?;
  // as intended: a reply suggesting OTP, returned after one request
  var answer := Answer(Intended, script);
  assert answer == ParseResponse(200, Some(reply));
  assert answer.Ok? && answer.value.responseData == Some(reply);
  assert SuggestedAuth(answer.value) == Ok("OTP") by {
    assert Lookup(reply, "data") == Some(JObject(inner));
    assert Lookup(inner, "data") == Some(JObject(auth));
    assert Lookup(auth, "suggested_auth") == Some(JString("OTP"));
  }
  ChargeOtherAuth(p, publicKey, secretKey, data, Intended, script, "OTP");
}

// ---------------------------------------------------------------------------
// ValidateCharge, ValidateCardCharge, VerifyTransaction

/** ValidateCharge and ValidateCardCharge: stamp the public key into the
    payload and post it once to `path`. */
function ValidateRun(path: string, publicKey: string, data: JsonMap, cls: Classifier, pending: seq<Transport>): (run: Run)
  ensures publicKey == "" ==> run.result.Err? && run.result.failure.Abort? && run.sent == [] && run.data == data
  ensures publicKey != "" ==>
    && run.data == data["PBFPubKey" := JString(publicKey)]
    && run.sent == [Submission(path, run.data)]
    && run.result == Answer(cls, pending)
    && run.pending == Rest(pending)
{
  match GetPublicKey(publicKey)
  case Err(f) => Run(Err(f), data, [], pending)
  case Ok(pub) =>
    var stamped := data["PBFPubKey" := JString(pub)];
    Run(Answer(cls, pending), stamped, [Submission(path, stamped)], Rest(pending))
}

/** The reference, charge code, currency and amount VerifyTransaction reads
    back from a verification reply; a value is None when its key is absent. */
datatype Reconciled = Reconciled(ref: Option<Json>, chargeCode: Option<Json>, currency: Option<Json>, amount: Option<Json>)

/** The verification reply read in either of its two layouts: with a
    "flwMeta" object the charge code is nested in it and the currency and
    amount use the transaction_currency and charged_amount names; without
    one, all three are flat. The reference is "flw_ref", falling back to
    "flwref". A "flwMeta" that is not an object holding a string "chargecode"
    fails a type assertion. */
function Reconcile(dd: JsonMap): (r: Result<Reconciled>)
  ensures r.Err? <==> "flwMeta" in dd && !(dd["flwMeta"].JObject? && AssertString(Lookup(dd["flwMeta"].fields, "chargecode")).Ok?)
  ensures r.Err? ==> r.failure.Abort?
  ensures r.Ok? ==> r.value.ref == (if "flw_ref" in dd then Some(dd["flw_ref"]) else Lookup(dd, "flwref"))
  ensures r.Ok? && "flwMeta" in dd ==>
    && r.value.chargeCode == Lookup(dd["flwMeta"].fields, "chargecode")
    && r.value.currency == Lookup(dd, "transaction_currency")
    && r.value.amount == Lookup(dd, "charged_amount")
  ensures r.Ok? && "flwMeta" !in dd ==>
    && r.value.chargeCode == Lookup(dd, "chargecode")
    && r.value.currency == Lookup(dd, "currency")
    && r.value.amount == Lookup(dd, "chargedamount")
{
  var ref := if "flw_ref" in dd then Some(dd["flw_ref"]) else Lookup(dd, "flwref");
  if "flwMeta" in dd then
    var meta :- AssertObject(Some(dd["flwMeta"]));
    var charge :- AssertString(Lookup(meta, "chargecode"));
    Ok(Reconciled(ref, Some(JString(charge)), Lookup(dd, "transaction_currency"), Lookup(dd, "charged_amount")))
  else
    Ok(Reconciled(ref, Lookup(dd, "chargecode"), Lookup(dd, "currency"), Lookup(dd, "chargedamount")))
}

/** A flat reply and a nested one carrying the same values read back the same. */
lemma ReconcileLayoutsAgree(flat: JsonMap, nested: JsonMap, meta: JsonMap)
  requires "flwMeta" !in flat
  requires "flwMeta" in nested && nested["flwMeta"] == JObject(meta)
  requires Lookup(meta, "chargecode").Some? && Lookup(meta, "chargecode").value.JString?
  requires Lookup(flat, "chargecode") == Lookup(meta, "chargecode")
  requires Lookup(flat, "currency") == Lookup(nested, "transaction_currency")
  requires Lookup(flat, "chargedamount") == Lookup(nested, "charged_amount")
  requires Lookup(flat, "flw_ref") == Lookup(nested, "flw_ref")
  requires Lookup(flat, "flwref") == Lookup(nested, "flwref")
  ensures Reconcile(flat).Ok? && Reconcile(flat) == Reconcile(nested)
{
}

/** The decoded body of a reply, with Go's nil map read as an empty one. */
function ReplyData(resp: Response): (d: JsonMap)
  ensures resp.responseData.Some? ==> d == resp.responseData.value
  ensures resp.responseData.None? ==> d == map[]
{
  if resp.responseData.Some? then resp.responseData.value else map[]
}

/** What VerifyTransaction does from the payload and the reply script. */
function VerifyRun(secretKey: string, data: JsonMap, cls: Classifier, pending: seq<Transport>): (run: Run)
  ensures |run.sent| <= 1
  ensures run.sent != [] ==> run.sent == [Submission(VerifyPath, data["SECKEY" := JString(secretKey)])]
  ensures run.result.Ok? ==> run.result == Answer(cls, pending)
{
  match KeysCheck(["flw_ref", "currency", "amount"], data)
  case Some(f) => Run(Err(f), data, [], pending)
  case None =>
    match GetSecretKey(secretKey)
    case Err(f) => Run(Err(f), data, [], pending)
    case Ok(sec) =>
      var withKey := data["SECKEY" := JString(sec)];
      var sent := [Submission(VerifyPath, withKey)];
      match Answer(cls, pending)
      case Err(f) => Run(Err(f), withKey, sent, Rest(pending))
      case Ok(resp) =>
        match Reconcile(ReplyData(resp))
        case Err(f) => Run(Err(f), withKey, sent, Rest(pending))
        case Ok(_) => Run(Ok(resp), withKey, sent, Rest(pending))
}

/** VerifyTransaction sends nothing unless flw_ref, currency and amount are
    all present, and names the first one missing. */
lemma VerifyNeedsKeys(secretKey: string, data: JsonMap, cls: Classifier, pending: seq<Transport>)
  requires !({"flw_ref", "currency", "amount"} <= data.Keys)
  ensures FirstMissingKey(["flw_ref", "currency", "amount"], data).Some?
  ensures VerifyRun(secretKey, data, cls, pending) ==
          Run(Err(MissingKey(FirstMissingKey(["flw_ref", "currency", "amount"], data).value)), data, [], pending)
{
  var keys := ["flw_ref", "currency", "amount"];
  if "flw_ref" !in data { assert keys[0] !in data; }
  else if "currency" !in data { assert keys[1] !in data; }
  else { assert keys[2] !in data; }
}

/** With the keys present but no secret key, GetSecretKey ends the process
    before the request is built: nothing is sent and the payload is untouched. */
lemma VerifyNeedsSecretKey(data: JsonMap, cls: Classifier, pending: seq<Transport>)
  requires {"flw_ref", "currency", "amount"} <= data.Keys
  ensures
    var run := VerifyRun("", data, cls, pending);
    && run.result.Err? && run.result.failure.Abort?
    && run.sent == [] && run.data == data && run.pending == pending
{
  var keys := ["flw_ref", "currency", "amount"];
  assert forall i | 0 <= i < |keys| :: keys[i] in data;
}

/** With the keys present and a secret key set, exactly one request is sent,
    and its body is the payload plus SECKEY = the secret key. A failed
    request is returned as it is; a reply that cannot be read back ends the
    process; a reply that can is returned. */
lemma VerifySendsSecretKey(secretKey: string, data: JsonMap, cls: Classifier, pending: seq<Transport>)
  requires {"flw_ref", "currency", "amount"} <= data.Keys
  requires secretKey != ""
  ensures
    var run := VerifyRun(secretKey, data, cls, pending);
    && run.sent == [Submission(VerifyPath, data["SECKEY" := JString(secretKey)])]
    && run.data == data["SECKEY" := JString(secretKey)]
    && run.pending == Rest(pending)
  ensures
    var run := VerifyRun(secretKey, data, cls, pending);
    var answer := Answer(cls, pending);
    && (answer.Err? ==> run.result == answer)
    && (answer.Ok? && Reconcile(ReplyData(answer.value)).Err? ==>
          run.result == Err(Reconcile(ReplyData(answer.value)).failure) && run.result.failure.Abort?)
    && (answer.Ok? && Reconcile(ReplyData(answer.value)).Ok? ==> run.result == answer)
{
  var keys := ["flw_ref", "currency", "amount"];
  assert forall i | 0 <= i < |keys| :: keys[i] in data;
}

// ---------------------------------------------------------------------------
// CardService

/** The card service of a Client. */
class CardService {
  var client: Client?

  /** `&CardService{Client: c}`. */
  constructor (client: Client?)
    ensures this.client == client
  {
    this.client := client;
  }

  /** ChargeCard: check the payload, send it, and send it again with
      suggested_auth = "PIN" when the reply asks for a PIN. The envelope
      initialzeCard builds is computed but never sent: the raw payload is. */
  method ChargeCard(p: Primitives, data: Payload, gw: Gateway) returns (r: Result<Response>)
    requires client != null
    modifies data, gw
    ensures
      var run := ChargeCardRun(p, client.PublicKey(), client.SecretKey(), old(data.fields), gw.classifier, old(gw.pending));
      && r == run.result && data.fields == run.data
      && gw.sent == old(gw.sent) + run.sent && gw.pending == run.pending
  {
    var err := KeysExists(["redirect_url"], data.fields);
    if err.Some? {
      return Err(err.value);
    }
    var payload := InitializeCard(p, client.PublicKey(), client.SecretKey(), data.fields);
    if payload.Err? {
      return Err(payload.failure);
    }
    var resp := gw.Submit(ChargePath, data.fields);
    r := AfterFirstReply(p, data, gw, resp);
  }

  /** ChargeCard once the first charge request has been answered with `resp`. */
  method AfterFirstReply(p: Primitives, data: Payload, gw: Gateway, resp: Result<Response>) returns (r: Result<Response>)
    requires client != null
    modifies data, gw
    ensures
      var run := ChargeAfterReply(p, client.PublicKey(), client.SecretKey(), old(data.fields), gw.classifier, resp, old(gw.pending));
      && r == run.result && data.fields == run.data
      && gw.sent == old(gw.sent) + run.sent && gw.pending == run.pending
  {
    if resp.Err? {
      return resp;
    }
    var auth := SuggestedAuth(resp.value);
    if auth.Err? {
      return Err(auth.failure);
    }
    if auth.value == "PIN" {
      r := ResubmitWithPin(p, data, gw, resp.value);
      return r;
    }
    return resp;
  }

  /** The PIN branch of ChargeCard: stamp suggested_auth = "PIN", check for a
      "pin", and charge again; `resp` is the first reply. */
  method ResubmitWithPin(p: Primitives, data: Payload, gw: Gateway, resp: Response) returns (r: Result<Response>)
    requires client != null
    modifies data, gw
    ensures
      var run := PinResubmit(p, client.PublicKey(), client.SecretKey(), old(data.fields), gw.classifier, old(gw.pending), resp);
      && r == run.result && data.fields == run.data
      && gw.sent == old(gw.sent) + run.sent && gw.pending == run.pending
  {
    data.fields := data.fields["suggested_auth" := JString("PIN")];
    var err := KeysExists(["pin"], data.fields);
    if err.Some? {
      return Err(err.value);
    }
    var cardSetup := InitializeCard(p, client.PublicKey(), client.SecretKey(), data.fields);
    if cardSetup.Err? {
      return Err(cardSetup.failure);
    }
    var response := gw.Submit(ChargePath, data.fields);
    if response.Err? {
      return response;
    }
    return Ok(resp);
  }

  /** The shared body of ValidateCharge and ValidateCardCharge. */
  method Validate(path: string, data: Payload, gw: Gateway) returns (r: Result<Response>)
    requires client != null
    modifies data, gw
    ensures
      var run := ValidateRun(path, client.PublicKey(), old(data.fields), gw.classifier, old(gw.pending));
      && r == run.result && data.fields == run.data
      && gw.sent == old(gw.sent) + run.sent && gw.pending == run.pending
  {
    var pub := GetPublicKey(client.PublicKey());
    if pub.Err? {
      return Err(pub.failure);
    }
    data.fields := data.fields["PBFPubKey" := JString(pub.value)];
    r := gw.Submit(path, data.fields);
  }

  /** ValidateCharge: validate an account charge with an OTP. */
  method ValidateCharge(data: Payload, gw: Gateway) returns (r: Result<Response>)
    requires client != null
    modifies data, gw
    ensures
      var run := ValidateRun(ValidatePath, client.PublicKey(), old(data.fields), gw.classifier, old(gw.pending));
      && r == run.result && data.fields == run.data
      && gw.sent == old(gw.sent) + run.sent && gw.pending == run.pending
  {
    r := Validate(ValidatePath, data, gw);
  }

  /** ValidateCardCharge: validate a card charge with an OTP. */
  method ValidateCardCharge(data: Payload, gw: Gateway) returns (r: Result<Response>)
    requires client != null
    modifies data, gw
    ensures
      var run := ValidateRun(ValidateChargePath, client.PublicKey(), old(data.fields), gw.classifier, old(gw.pending));
      && r == run.result && data.fields == run.data
      && gw.sent == old(gw.sent) + run.sent && gw.pending == run.pending
  {
    r := Validate(ValidateChargePath, data, gw);
  }

  /** VerifyTransaction: check the payload, add the secret key, send it, and
      read the reply back in whichever layout it has. */
  method VerifyTransaction(data: Payload, gw: Gateway) returns (r: Result<Response>)
    requires client != null
    modifies data, gw
    ensures
      var run := VerifyRun(client.SecretKey(), old(data.fields), gw.classifier, old(gw.pending));
      && r == run.result && data.fields == run.data
      && gw.sent == old(gw.sent) + run.sent && gw.pending == run.pending
  {
    var err := KeysExists(["flw_ref", "currency", "amount"], data.fields);
    if err.Some? {
      return Err(err.value);
    }
    var sec := GetSecretKey(client.SecretKey());
    if sec.Err? {
      return Err(sec.failure);
    }
    data.fields := data.fields["SECKEY" := JString(sec.value)];
    var resp := gw.Submit(VerifyPath, data.fields);
    if resp.Err? {
      return resp;
    }
    var dd := if resp.value.responseData.Some? then resp.value.responseData.value else map[];
    var reconciled := Reconcile(dd);
    if reconciled.Err? {
      return Err(reconciled.failure);
    }
    return resp;
  }
}
