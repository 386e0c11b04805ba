// Shared vocabulary of the model of the go-ravepay SDK (Go package `ravepay`).
//
// The Go package is a single flat namespace in which Client, CardService and
// RequestService point at each other, so the model uses Dafny's default
// module as well: every file of the project contributes to it, one file per
// Go source file plus this one.

/** A Go byte. */
type byte = bv8

/** The byte with value `n`, counted up from 0 (the solver handles this more
    cheaply than the bit-vector conversion `n as byte`). */
function ToByte(n: int): (b: byte)
  requires 0 <= n < 256
  ensures b as int == n
  decreases n
{
  if n == 0 then 0 else ToByte(n - 1) + 1
}

/** Optional values: a Go map lookup that may miss, a nil pointer. */
datatype Option<+T> = None | Some(value: T)

/** The ways an SDK operation can end other than with a value. */
datatype Failure =
  | MissingKey(key: string)   // keysExists: "<key> is required, and isn't set in payload"
  | KeySizeError(size: nat)   // des.NewTripleDESCipher rejects a key that is not 24 bytes
  | Base64Error               // base64.StdEncoding.DecodeString rejects its input
  | UnpaddingError            // tripleDesDecrypt met the "unpadding error" sentinel
  | NetworkError(msg: string) // the transport failed; nothing was classified
  | Abort(reason: Panic)      // log.Fatal or a runtime panic: the process ends here

/** What ended the process: a failed type assertion, an out-of-range slice
    or index, or a log.Fatal call. */
datatype Panic =
  | NotAString       // `v.(string)` on a value that is not a string
  | NotAnObject      // `v.(map[string]interface{})` on a value that is not an object
  | SliceOutOfRange  // a slice bound beyond the length
  | IndexOutOfRange  // an index beyond the length
  | PartialBlocks    // crypto/cipher: input not full blocks
  | NoPublicKey      // log.Fatal: the public key was not set
  | NoSecretKey      // log.Fatal: the secret key was not set
  | UndecodableBody  // log.Fatalln: the reply body is not JSON

/** A Go `(value, error)` pair, or a process that ended. */
datatype Result<+T> = Ok(value: T) | Err(failure: Failure)
{
  predicate IsFailure() { Err? }

  function PropagateFailure<U>(): Result<U>
    requires Err?
  {
    Err(failure)
  }

  function Extract(): T
    requires Ok?
  {
    value
  }
}

/** A decoded JSON value, as `encoding/json` stores it in `interface{}`. */
datatype Json =
  | JNull
  | JBool(b: bool)
  | JNumber(n: int)
  | JString(s: string)
  | JArray(items: seq<Json>)
  | JObject(fields: map<string, Json>)

/** A decoded JSON object: Go's `map[string]interface{}`. */
type JsonMap = map<string, Json>

/** Go's `[]byte(s)`: the bytes of a string. A character stands for the
    byte with its code modulo 256, which is the UTF-8 encoding for ASCII. */
function StringBytes(s: string): (r: seq<byte>)
  ensures |r| == |s|
{
  seq(|s|, i requires 0 <= i < |s| => ToByte((s[i] as int) % 256))
}

/** Go's `m[key]` on a map of interface values: nil (None) when absent. */
function Lookup(m: JsonMap, key: string): (r: Option<Json>)
  ensures r.Some? <==> key in m
  ensures r.Some? ==> r.value == m[key]
{
  if key in m then Some(m[key]) else None
}

/** Go's type assertion `v.(string)`: a panic unless v holds a string. */
function AssertString(v: Option<Json>): (r: Result<string>)
  ensures r.Ok? <==> v.Some? && v.value.JString?
  ensures r.Ok? ==> v == Some(JString(r.value))
{
  if v.Some? && v.value.JString? then Ok(v.value.s)
  else Err(Abort(NotAString))
}

/** Go's type assertion `v.(map[string]interface{})`: a panic unless v holds an object. */
function AssertObject(v: Option<Json>): (r: Result<JsonMap>)
  ensures r.Ok? <==> v.Some? && v.value.JObject?
  ensures r.Ok? ==> v == Some(JObject(r.value))
{
  if v.Some? && v.value.JObject? then Ok(v.value.fields)
  else Err(Abort(NotAnObject))
}
