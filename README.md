# go-ravepay card SDK, modelled in Dafny

This project models the core of `go-ravepay`, a Go client for the Rave
(Flutterwave) card-payment API. It covers four parts:

- **The transaction cipher** (`crypto.go`, modelled in `crypto.dfy`). A 24-byte
  triple-DES key is derived from the merchant's secret key. The first
  occurrence of `FLWSECK-` is removed wherever it appears in the key, the
  first 12 characters of what remains are kept, and 12 lowercase hex digits
  of the key's MD5 digest follow. Payloads get PKCS#5 padding (or
  zero padding) and are encrypted in CBC mode (section 6.2 of NIST SP
  800-38A) with the IV fixed to the first 8 key bytes. The wire form is
  base64 (section 4 of RFC 4648). Decryption reports a plaintext equal to
  the string `"unpadding error"` as an error.
- **The response classifier and request builder** (`request.go`, modelled in
  `request.dfy`). `parseResponse` turns an HTTP status and a decoded JSON body
  into a `Response`: status, response code, message, data, and the
  `RequiresValidation` and `IsSuccessfulResponse` flags. `RequestService` is a
  mutable builder holding a URL and a body map.
- **The card flow** (`card.go`, modelled in `card.dfy`). `ChargeCard` charges
  a card and charges it once more when the API suggests PIN
  authentication. `ValidateCharge` and `ValidateCardCharge` stamp the public
  key into the payload and post it. `VerifyTransaction` adds the secret key,
  posts, and reads the reply back in either of its two layouts.
- **Client set-up** (`ravepay.go`, modelled in `ravepay.dfy`). `NewClient`
  normalises the API version, picks the staging or production endpoint table
  into a package-level variable, stores the credentials and wires up the
  services.

`common.dfy` holds the shared vocabulary. It defines bytes, `Option` and
`Result`, the failures, and a `Json` datatype for what `encoding/json`
decodes into `interface{}`.

The Go package is one flat namespace in which `Client`, `CardService` and
`RequestService` point at each other. The model therefore lives in Dafny's
default module.

How Go behaviour is represented:

- **Process exits.** `log.Fatal` and runtime panics (a failed type
  assertion, an out-of-range slice) end the process. Where an operation
  returns a `Result`, such an exit is the failure `Abort(reason)`, where
  the `Panic` value names the cause (a failed string or object assertion,
  a slice or index out of range, partial blocks, a missing key, an
  undecodable body). Small pure helpers state the condition under which
  they would panic as a `requires` instead: `Pkcs5UnPadding` (empty
  buffer), `Pkcs5Padding`, `ZeroPadding`, `PaddingLength` and `Pad`
  (`blockSize > 0`, since Go divides by the block size there), `GetKey`
  (fewer than 12 bytes after the prefix is removed), `CbcEncryptBlocks` and
  `CbcDecryptBlocks` (partial blocks) and `RequestService.AddBody` (a nil
  body map). Where the model calls them, the caller either rules the
  condition out (padding always yields whole blocks) or checks it and
  returns `Abort` (`Decrypted`, `DerivedKey`, `DecryptWithKey`).
- **Library code.** The DES block function, MD5, base64 and `json.Marshal`
  are function values in a `Primitives` record. The round-trip lemmas
  assume the laws `Lawful(p)`: block decryption inverts block encryption,
  and base64 decoding inverts encoding.
- **The network.** Each request goes to a `Gateway` object. It answers
  from a script of transport outcomes and records every submission (path
  and body) in order, so lemmas can count requests and check what each one
  carried.
- **Caller payloads.** A payload is a Go map that the services update in
  place, so it is a `Payload` object.
- **State-changing operations.** Each card-service method is proved
  against a run function (`ChargeCardRun`, `ValidateRun`, `VerifyRun`). The
  run function gives the result, the final payload, the submissions and
  the remaining script. Lemmas about that function state the flow's
  properties.

Several source lines do not compile. The model follows their evident intent:

- `card.go:137` reads `key`; the model reads the loop variable `k`.
- `card.go:48` and `card.go:59` pass `d`; the model posts the caller's
  `data`.
- `crypto.go:109` and `crypto.go:122` read `PublicKey` and `SecretKey`,
  which `Client` does not have. The model uses `MerchantKey` as the public
  key and `APIKey` as the secret key (`Client.PublicKey`,
  `Client.SecretKey`).
- `request.go:78` and `card.go:48,59,73,113` give `NewRequest`/`newRequest`
  an extra argument. The model reads this as "post this payload to this
  path".
- `card.go:25-27` decodes the `*Response` as bytes and indexes an
  `interface{}`. The model reads `suggested_auth` along the literal path
  `data` → `data` → `suggested_auth` of the reply's decoded body, asserting
  each step's type as the code does. Even with the types repaired, the code
  could not reach the PIN branch. `jsonFromBytes` (`card.go:144-150`)
  unmarshals into its by-value map parameter, so `d` (`card.go:24`) stays
  nil, and the assertion at `card.go:27` would end the process on every
  reply. The model reads the reply that `charge` returned instead, so that
  the PIN resubmission is reachable.
- `card.go:127` assigns two results to one variable. The encryption error
  is dropped. With the derived 24-byte key that error cannot occur.
- `card.go:94-100` assigns `interface{}` values to typed variables. The
  model keeps the raw JSON values in `Reconciled`. It keeps the one explicit
  `.(string)` assertion at `card.go:98`.
- `ChargeCard` is declared to return `[]byte` but returns a `*Response`.
  The model returns the response.
- Variables are declared and never used at `card.go:18` (`payload`),
  `card.go:36-37` (`cardSetup`, `response`) and `card.go:81-103`
  (`successMessage`, `ref`, `charge`, `currency`, `amount`,
  `transactionRef`, `currencyCode`). The model computes them and then
  discards them, as the code would.
- `card.go:126` redeclares the parameter `data` with `:=`. The model
  encrypts the marshalled payload.
- `crypto.go:113` and `crypto.go:126` have a bare `return` in functions
  returning `string`. The line after `log.Fatal` is unreachable, so the
  model ends with `Abort`.
- `jsonFromBytes` (`card.go:144-150`) has no return at its end.
- `ravepay.go:93,96,100,103` read `cfg.V1`, but `cfg` is a
  `*types.Resources`, whose only field is `CardResources`
  (`types/types.go:35-37`). The model reads the V1 tables of
  `cfg.CardResources`.

Where the code differs from what it appears to intend, the model follows
the code and proves the difference:

- `ChargeCard` posts the raw payload, not the encrypted envelope.
  `ChargeCardRun` ensures the first submission's body is the payload.
- `ChargeCard` returns the first reply even after the PIN resubmission
  (`ChargePinPresent`).
- `NewClient` replaces every non-empty version with `"v1"`, so its `"v2"`
  branch cannot run (`NormalizedVersionIsEmptyOrV1`).
- An unrecognised environment leaves the resource table as it was
  (`SelectResources`).

`parseResponse` as written ends the process on any reply that lacks either
spelling of the response code, including the validation error whose
`"data"` is `null` that the SDK documents at `types/types.go:27-31` (see
Findings). The `Gateway` therefore carries a `Classifier`:
`AsWritten` classifies replies with the source's own `parseResponse`, and
`Intended` with the corrected one. Every flow lemma holds for either
classifier. `ChargeAbortsWithoutResponseCode` shows where the two part ways
on a charge.

The getters of `Response` and `Client` and `RequestService.GetBody` are
plain member functions that return one field. `NewClient` states what the
client getters return.

## Model

| member | source | states |
|---|---|---|
| PaddingLength | crypto.go:85 | the PKCS#5/zero padding count is between 1 and the block size and brings the length to a multiple of it |
| Pkcs5Padding | crypto.go:84-88 | appends between 1 and blockSize bytes; the input is a prefix of the output; the output length is a multiple of blockSize; every appended byte is the pad count truncated to a byte |
| Pkcs5UnPadding | crypto.go:90-97 | on a non-empty buffer: the sentinel when the count in the last byte exceeds the length; otherwise the buffer minus that many trailing bytes |
| Pkcs5RoundTrip | crypto.go:84-97 | for 0 < blockSize ≤ 255, unpadding a padded buffer gives it back |
| Pkcs5PaddingWrapsAt256 | crypto.go:86 | with block size 256, data whose length is a multiple of 256 gets 256 padding bytes whose count byte wraps to 0; unpadding returns the data followed by 256 zero bytes, so the round trip fails |
| Pkcs5ZeroCountKeepsAll | crypto.go:92-96 | a last byte of 0 returns the whole buffer |
| Pkcs5UnPaddingIgnoresPadBytes | crypto.go:90-97 | only the last byte is checked: any bytes it claims as padding are dropped |
| Pkcs7Padding | crypto.go:99-101 | is PKCS5Padding |
| Pkcs7UnPadding | crypto.go:103-105 | is PKCS5UnPadding |
| ZeroPadding | crypto.go:71-75 | appends 1..blockSize zero bytes up to a multiple of blockSize |
| TrimLeadingZeros | crypto.go:77-82 | the input is zeros followed by the result, which does not start with 0 |
| TrimTrailingZeros | crypto.go:77-82 | the input is the result followed by zeros, which does not end with 0 |
| ZeroUnPadding | crypto.go:77-82 | the result has no zero at either end and the input is zeros + result + zeros |
| ZeroRoundTrip | crypto.go:71-82 | the zero-padding round trip holds exactly when the data has no zero byte at either end |
| ZeroRoundTripLosesZeros | crypto.go:71-82 | the data [0] comes back empty |
| Pad | crypto.go:43 | either padding scheme gives a length that is a multiple of the block size and longer than the data |
| IndexOf | crypto.go:132 | the first position where the pattern occurs, or None when it occurs nowhere |
| ReplaceFirst | crypto.go:132 | removes the first occurrence of the pattern, wherever it is, and nothing else |
| ReplaceFirstStripsPrefix | crypto.go:132 | a key starting with the prefix loses exactly the prefix |
| HexDigit | crypto.go:135 | a nibble becomes a lowercase hex digit |
| HexEncode | crypto.go:135 | two lowercase hex digits per byte |
| HexValue | crypto.go:135 | exactly the hex digits have a value |
| HexRoundTrip | crypto.go:135 | decoding the hex encoding gives the bytes back |
| GetKey | crypto.go:129-136 | 24 bytes: the first 12 bytes left after removing "FLWSECK-", then hex digits that decode to MD5 bytes 10..15 of the whole key; needs 12 bytes after removal |
| DerivedKey | crypto.go:117-136 | a key is derived exactly when the secret key is set and 12 bytes remain after removing the prefix, and it is GetKey of the secret key's bytes; otherwise the process ends |
| GetPublicKey | crypto.go:108-114 | the public key when set, otherwise the process ends |
| GetSecretKey | crypto.go:117-127 | the secret key when set, otherwise the process ends |
| CbcEncrypt | crypto.go:44-46 | CBC encryption keeps the length |
| CbcDecrypt | crypto.go:61-63 | CBC decryption keeps the length |
| CbcRoundTrip | crypto.go:44-63 | with a block cipher whose decryption inverts encryption, CBC decryption inverts CBC encryption under the same key and IV |
| CbcSharedPrefix | crypto.go:38-46 | with the fixed IV, plaintexts sharing their first n blocks get ciphertexts sharing their first n blocks |
| CbcEncryptBlocks | crypto.go:44-46 | the block-by-block loop over the buffer leaves in dst the CBC encryption of src |
| CbcDecryptBlocks | crypto.go:61-63 | the block-by-block loop leaves in dst the CBC decryption of src |
| Encrypted | crypto.go:37-48 | a key-size error exactly when the key is not 24 bytes |
| Decrypted | crypto.go:50-69 | undecodable base64 is a base64 error; a key not of 24 bytes a key-size error; a ciphertext not of whole blocks ends the process; under PKCS#5 an empty plaintext ends the process, otherwise the result is an unpadding error exactly when the last byte exceeds the length or the unpadded bytes are the sentinel, and is else the plaintext minus that many trailing bytes; under zero padding it is an unpadding error exactly when the trimmed plaintext is the sentinel, else that trimmed plaintext; a successful decryption is never the sentinel |
| EncryptWithKey | crypto.go:37-48 | tripleDesEncrypt returns base64 of the CBC encryption of the padded data under IV = key[0..8], or the key-size error |
| DecryptWithKey | crypto.go:50-69 | the array implementation of tripleDesDecrypt returns exactly what Decrypted states |
| CiphertextLength | crypto.go:43-47 | the raw ciphertext is as long as the padded plaintext: whole blocks, 1..8 bytes longer than the data |
| EncryptDecryptRoundTrip | crypto.go:37-69 | under the library laws, decrypting an encryption under the same 24-byte key gives every plaintext but the sentinel back |
| SentinelPlaintextRejected | crypto.go:64-67 | a genuine plaintext equal to the sentinel comes back as an unpadding error |
| OversizedPadCountRejected | crypto.go:64-67 | a decrypted last byte beyond the buffer length is an unpadding error |
| SecretEncrypted | crypto.go:21-26 | encryption under the client's secret key fails only by ending the process |
| TripleDesEncrypt | crypto.go:21-26 | CryptoService.TripleDesEncrypt derives the key from the secret key and encrypts with PKCS#5 |
| TripleDesDecrypt | crypto.go:30-35 | CryptoService.TripleDesDecrypt derives the key and decrypts with PKCS#5 unpadding |
| SecretRoundTrip | crypto.go:21-35 | with a usable secret key, TripleDesDecrypt inverts TripleDesEncrypt for every plaintext but the sentinel |
| GuardedString | request.go:103-107 | comparing an interface value with "" and then asserting string: only a non-empty string is taken, "" is skipped, anything else panics |
| ParseResponseAsWritten | request.go:90-123 | the status is always copied; a status ≥ 500 gives an otherwise empty response; below 500 it completes exactly when the body decodes, `data` is an object holding both `responseCode` and `responsecode` as strings, and either `resposemessage` is "" or `responsemessage` is a string (`AsWrittenCompletes`); every other failure ends the process |
| MessageAsWritten | request.go:118-120 | the message is read exactly when the misspelled `resposemessage` is not ""; it is then asserted to be a string, which succeeds exactly when `responsemessage` is one |
| ClassifyAsWritten | request.go:103-120 | once `data` is an object, completes exactly when both code spellings are strings and the message read completes; keeps the status |
| ParseResponse | request.go:90-123 | fails only on an undecodable body under 500; copies status and data; code is responsecode if non-empty, else responseCode; message is responsemessage; RequiresValidation iff the code is "02"; IsSuccessfulResponse iff status "success", HTTP 200 and code in {"00","0","02"}; a status ≥ 500 gives an empty response |
| ValidationReplyIsSuccessful | request.go:110-116 | a successful 200 reply with code "02" is both successful and in need of validation |
| ParseResponseAgrees | request.go:90-123 | on every reply the source completes on, except one whose `resposemessage` is "" (the guard then skips the message), it agrees with ParseResponse |
| ParseResponseSkipsMessage | request.go:118-120 | on a completed reply whose `resposemessage` is "", the source's response is the intended one with an empty message |
| ParseResponsePanicsOnOneSpelling | request.go:103-108 | a reply with only "responsecode" ends the process in the source and is a success as intended |
| ParseResponsePanicsWithoutMessage | request.go:118-120 | a reply with both code spellings but no message ends the process in the source and is a success with an empty message as intended |
| ParseResponsePanicsOnNullData | request.go:103 | a validation error with "data": null ends the process in the source and is an unsuccessful reply as intended |
| Response.GetResponseCode | request.go:27-29 | returns the response code |
| Response.GetStatusCode | request.go:32-34 | returns the HTTP status |
| Response.IsSuccessful | request.go:37-39 | returns the success flag |
| Response.RequiresValidation | request.go:46-48 | returns the validation flag |
| Response.GetResponseMessage | request.go:51-53 | returns the message |
| Response.GetResponseData | request.go:56-58 | returns the decoded body |
| RequestService.GetBody | request.go:71-73 | returns the body map built so far |
| RequestService.constructor | ravepay.go:128 | a new builder points at its client, with no URL and a nil body |
| RequestService.NewRequest | request.go:61-65 | sets the URL, replaces the body with an empty map and returns the same builder |
| RequestService.AddBody | request.go:67-69 | sets body[key] = value and leaves every other entry and the URL unchanged; a nil body is not written to |
| Classify | request.go:87 | the source's classifier is ParseResponseAsWritten, the intended one ParseResponse |
| Answer | request.go:75-88 | a transport error or a missing reply is a network error; a reply is classified by the chosen classifier; a successful answer carries the reply's status |
| Gateway.Submit | card.go:112-119 | each request takes the next scripted reply and is recorded with its path and body |
| KeysCheckOne | card.go:135-142 | with one key, the check passes exactly when the key is present and otherwise names it |
| FirstMissingKey | card.go:135-142 | None exactly when every key is present; otherwise the first missing key in list order |
| KeysExists | card.go:135-142 | the loop succeeds exactly when every key is present, and otherwise names the first missing one |
| InitializeCard | card.go:120-133 | the envelope has exactly the keys PBFPubKey, client and alg, with the public key, the encrypted payload and "3DES-24"; the secret and public keys must be set |
| EnvelopeDecrypts | card.go:120-133 | under the library laws the envelope's client field decrypts to the payload's JSON encoding |
| SuggestedAuth | card.go:24-27 | succeeds exactly when the reply body holds a string at data.data.suggested_auth, and returns that string; anything else ends the process |
| ChargeCardRun | card.go:14-43 | the requests sent are none, the raw payload to the charge path, or that followed by the payload with suggested_auth = PIN; a successful result is the first reply, and that reply holds a string suggested_auth |
| ChargeAfterReply | card.go:19-42 | after the first reply: a failed first request is returned as it is, with nothing more sent and the payload untouched; at most the PIN resubmission is sent; a successful result is that reply, which holds a string suggested_auth |
| PinResubmit | card.go:29-40 | the payload gains suggested_auth = PIN; at most one request, carrying it, to the charge path; success returns the first reply and needs the second answer to succeed |
| ChargeNeedsRedirectUrl | card.go:15-17 | without redirect_url nothing is sent and the call fails naming it |
| ChargeNeedsKeys | card.go:18 | when the envelope cannot be built (no usable secret key, or no public key) the process ends before anything is sent, with the payload untouched |
| ChargeFirstRequestFails | card.go:19-22 | a failed first request is returned unchanged after exactly that one request, with the payload untouched |
| ChargePinMissing | card.go:29-34 | a PIN suggestion without pin: the payload already holds suggested_auth = PIN, one request was sent, the call fails naming pin |
| ChargePinPresent | card.go:29-42 | a PIN suggestion with pin: exactly two requests, the second carrying suggested_auth = PIN; the first reply is returned once the second goes through |
| ChargeOtherAuth | card.go:18-42 | any other suggestion: exactly one request, its reply returned, the payload untouched |
| ChargeAbortsWithoutSuggestedAuth | card.go:18-27 | a first reply without a string at data.data.suggested_auth ends the process after exactly one request, with the payload untouched |
| ChargeAbortsWithoutResponseCode | card.go:18-27 | under the source's classifier a charge reply without responseCode ends the process after one request; under the intended one the charge succeeds |
| CardService.constructor | ravepay.go:118 | a new card service points at its client |
| CardService.ChargeCard | card.go:14-43 | result, final payload, requests sent and replies used are those of ChargeCardRun |
| CardService.AfterFirstReply | card.go:23-42 | result, final payload, requests sent and replies used are those of ChargeAfterReply |
| CardService.ResubmitWithPin | card.go:29-40 | result, final payload, requests sent and replies used are those of PinResubmit |
| ValidateRun | card.go:46-65 | with a public key set: the payload gains PBFPubKey and is posted once to the given path, and the reply is returned; without one the process ends before anything is sent |
| CardService.Validate | card.go:46-65 | the shared body of the two validations follows ValidateRun |
| CardService.ValidateCharge | card.go:46-54 | follows ValidateRun on the /validate path |
| CardService.ValidateCardCharge | card.go:57-65 | follows ValidateRun on the /validatecharge path |
| Reconcile | card.go:82-101 | reference from flw_ref, else flwref; with flwMeta the charge code comes from flwMeta.chargecode and currency and amount from transaction_currency and charged_amount; without it from chargecode, currency and chargedamount; a flwMeta without a string chargecode ends the process |
| ReconcileLayoutsAgree | card.go:83-101 | a flat and a nested reply carrying the same values read back the same |
| VerifyRun | card.go:67-105 | at most one request, to the verify path, whose body is the payload plus SECKEY = the secret key; a successful result is the reply |
| VerifyNeedsKeys | card.go:68-70 | without flw_ref, currency or amount nothing is sent, the payload is untouched, and the call fails naming the first missing key |
| VerifyNeedsSecretKey | card.go:71-72 | with the keys present but no secret key the process ends before anything is sent, with the payload untouched and no reply used |
| VerifySendsSecretKey | card.go:71-101 | with the keys present and a secret key set: exactly one request, whose body is the payload plus SECKEY, using one reply; the result is the transport or classifier error if the answer failed, the reconciliation's abort if reading the reply back fails, and the reply otherwise |
| CardService.VerifyTransaction | card.go:67-105 | result, final payload, requests sent and replies used are those of VerifyRun |
| PackageState.constructor | ravepay.go:17-20 | the package starts with a zero resource table and DefaultVersion "v1" |
| LowerChar | ravepay.go:92 | upper-case ASCII letters become lower case, every other character is kept |
| ToLower | ravepay.go:92 | lower-cases character by character, keeping the length |
| ToLowerIdempotent | ravepay.go:92 | lower-casing twice is lower-casing once |
| NormalizeVersion | ravepay.go:84-86 | a non-empty version becomes the default, an empty one stays empty |
| NormalizedVersionIsEmptyOrV1 | ravepay.go:84-98 | under the default "v1" the version is "" or "v1", never "v2" |
| SelectResources | ravepay.go:90-105 | for v1 or v2: staging/test select the V1 staging table, production the V1 production table; otherwise the table is unchanged |
| SelectionIgnoresCase | ravepay.go:92-103 | environment names that agree up to letter case select the same table |
| V2SelectsV1Tables | ravepay.go:98-104 | "v2" selects what "v1" does and never reads the V2 tables |
| Client.GetMerchantKey | ravepay.go:143-145 | returns the merchant key |
| Client.GetAPIKey | ravepay.go:148-150 | returns the API key |
| Client.GetEnv | ravepay.go:153-155 | returns the environment |
| Client.constructor | ravepay.go:109-115 | the client holds the given keys, environment and HTTP client; every other field is zero |
| NewClient | ravepay.go:79-133 | the package table becomes SelectResources of the normalised version; a nil HTTP client becomes the default one; the getters return the given merchant key, API key and environment; the version is never stored; card service and request builder point back at the client |

## Left out

- Answer: the `Gateway` may be built with the `Intended` classifier, in which case `ChargeCardRun`, `ValidateRun` and `VerifyRun` describe the flow with the corrected `parseResponse`, not the source's (`request.go:87`). Only runs with the `AsWritten` classifier are the source's behaviour.
- HTTP transport. `DoRequest`, `newRequest`, `do` and `SetBaseURL` are left out. Requests go to the `Gateway` oracle instead. The card calls do not update the shared `RequestService` builder. As written, the transport would fail before any reply is classified: `DoRequest` sets a client timeout of 60 nanoseconds (`request.go:77`), and `do` decodes and closes `resp.Body` (`ravepay.go:186-188`) before `parseResponse` reads it again (`request.go:95`), so the read error reaches `log.Fatalln`. `AsWritten` is the source's classification of a reply once one reaches it through the `Gateway`.
- JSON encoding and decoding. `json.Marshal` is the parameter `p.marshal`. A decoded body is a `Json` value, or `None` when it does not decode. JSON numbers are integers, not `float64`.
- Library internals. The 3DES block function (NIST SP 800-67), MD5 (RFC 1321) and base64 are parameters. Only the laws in `Lawful` are assumed of them.
- `types.LoadConfigs` reads a file. The `CardResources` table it loads is the parameter `cfg` of `NewClient`. The `log.Printf` of the resource table is left out.
- Service objects outside the core (Auth, Bank, Disbursement, Currencies, Validator, Account, BVN, BIN, Countries, Check, Ach) are left out. `CryptoService` is modelled by functions of the key strings rather than as an object on the client.
- `cmd/go-ravepay/main.go` is a demo with no logic of its own.
- Concurrency. The shared request builder is not safe across goroutines, and the model is sequential.
- ToLower: only ASCII letters are lower-cased. Go's `strings.ToLower` also maps other Unicode upper-case letters. For example, it maps `İ` (U+0130) to `i`, so Go selects the staging table for the environment "STAGİNG", while `SelectResources` leaves the table unchanged.
- StringBytes: a character stands for one byte (its code modulo 256). This is exact for ASCII keys and payloads, not for multi-byte UTF-8.
- Encrypted: a key shorter than 8 bytes is reported as a key-size error. In Go, slicing `key[:8]` may panic first, depending on the slice's capacity. The derived key always has 24 bytes.
- DecryptWithKey: same reading of a key shorter than 8 bytes as `Encrypted`.

## Findings

| source | as written | input that shows it | evidently intended | confidence | as-written member | corrected member |
|---|---|---|---|---|---|---|
| request.go:103-108 | each spelling of the response code is compared with "" as an `interface{}`; an absent key is nil, compares unequal, and `nil.(string)` panics, so any reply lacking either spelling, or whose `data` is not an object, ends the process | status 200, body `{"status":"success","data":{"responsecode":"00"}}`; also `{"status":"error","data":null}` | a missing or non-string code reads as "", with the lower-case spelling taking precedence | not executed | ParseResponsePanicsOnOneSpelling | ParseResponse |
| request.go:118-120 | the guard tests the misspelled key `resposemessage`; a reply that spells the key correctly lacks it, so `responsemessage` is always asserted to be a string and the process ends when it is missing | status 200, body `{"status":"success","data":{"responsecode":"00","responseCode":"00"}}` | the message is `responsemessage` when it is a string, "" otherwise | not executed | ParseResponsePanicsWithoutMessage | ParseResponse |
