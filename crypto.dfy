// The transaction cipher of crypto.go: key derivation from the merchant's
// secret key, PKCS#5 and zero padding, triple-DES in CBC mode (section 6.2 of
// NIST SP 800-38A) with the IV fixed to the first 8 key bytes, and base64
// (section 4 of RFC 4648) on the wire.
//
// The library primitives the file calls (the DES-EDE3 block function, MD5,
// base64 and json.Marshal) are not re-implemented: they are function values
// bundled in `Primitives`, and the laws the proofs rely on are the predicate
// `Lawful`, which the lemmas take as a hypothesis.

const DesBlockSize: nat := 8
const TripleKeySize: nat := 24

/** One DES block. */
type Block = b: seq<byte> | |b| == DesBlockSize witness [0, 0, 0, 0, 0, 0, 0, 0]

/** A three-key triple-DES key. */
type TripleKey = k: seq<byte> | |k| == TripleKeySize
  witness [0, 0, 0, 0, 0, 0, 0, 0, 0, 0, 0, 0, 0, 0, 0, 0, 0, 0, 0, 0, 0, 0, 0, 0]

/** An MD5 digest (RFC 1321). */
type Digest = d: seq<byte> | |d| == 16 witness [0, 0, 0, 0, 0, 0, 0, 0, 0, 0, 0, 0, 0, 0, 0, 0]

/** The block function of des.NewTripleDESCipher, in both directions. */
datatype BlockCipher = BlockCipher(encrypt: (TripleKey, Block) -> Block, decrypt: (TripleKey, Block) -> Block)

/** base64.StdEncoding; `decode` yields None where DecodeString returns an error. */
datatype Base64Codec = Base64Codec(encode: seq<byte> -> string, decode: string -> Option<seq<byte>>)

/** The library code the SDK calls into. */
datatype Primitives = Primitives(
  cipher: BlockCipher,
  md5: seq<byte> -> Digest,
  base64: Base64Codec,
  marshal: JsonMap -> seq<byte>)

/** Block decryption undoes block encryption under the same key. */
ghost predicate Inverts(c: BlockCipher)
{
  forall k: TripleKey, b: Block :: c.decrypt(k, c.encrypt(k, b)) == b
}

/** Decoding undoes encoding. */
ghost predicate RoundTrips(b: Base64Codec)
{
  forall s: seq<byte> :: b.decode(b.encode(s)) == Some(s)
}

ghost predicate Lawful(p: Primitives)
{
  Inverts(p.cipher) && RoundTrips(p.base64)
}

// ---------------------------------------------------------------------------
// Padding

/** The sentinel that PKCS5UnPadding returns instead of an error. */
const Sentinel: seq<byte> := StringBytes("unpadding error")

/** The padding count is between 1 and the block size and completes a block. */
lemma PaddingCount(n: nat, blockSize: int)
  requires blockSize > 0
  ensures 0 < blockSize - n % blockSize <= blockSize
  ensures (n + (blockSize - n % blockSize)) % blockSize == 0
{
  var q := n / blockSize;
  assert n + (blockSize - n % blockSize) == (q + 1) * blockSize;
  MultipleMod(q + 1, blockSize);
}

lemma MultipleMod(q: nat, b: int)
  requires b > 0
  ensures (q * b) % b == 0
{
  var d := q - (q * b) / b;
  assert q * b == ((q * b) / b) * b + (q * b) % b;
  assert d * b == (q * b) % b;
  if d >= 1 {
    MulAtLeast(b, d);
  }
}

lemma {:induction false} MulAtLeast(b: int, k: int)
  requires b > 0 && k >= 1
  ensures k * b >= b
  decreases k
{
  if k > 1 {
    MulAtLeast(b, k - 1);
    assert k * b == (k - 1) * b + b;
  }
}

/** The number of padding bytes: between 1 and the block size, completing a block. */
function PaddingLength(n: nat, blockSize: int): (k: nat)
  requires blockSize > 0
  ensures 0 < k <= blockSize && (n + k) % blockSize == 0
{
  PaddingCount(n, blockSize);
  blockSize - n % blockSize
}

/** PKCS5Padding: append `n` copies of the byte `n` (truncated to a byte),
    where `n` brings the length to the next multiple of the block size. */
function Pkcs5Padding(ciphertext: seq<byte>, blockSize: int): (r: seq<byte>)
  requires blockSize > 0  // blockSize 0 divides by zero
  ensures |ciphertext| < |r| <= |ciphertext| + blockSize
  ensures |r| % blockSize == 0
  ensures r[..|ciphertext|] == ciphertext
  ensures forall i | |ciphertext| <= i < |r| :: r[i] as int == (|r| - |ciphertext|) % 256
{
  var padding := PaddingLength(|ciphertext|, blockSize);
  var count := ToByte(padding % 256);  // Go's byte(padding) keeps the low 8 bits
  ciphertext + seq(padding, _ => count)
}

/** PKCS5UnPadding: drop as many trailing bytes as the last byte says, without
    checking the other padding bytes; a count beyond the length yields the
    sentinel. */
function Pkcs5UnPadding(origData: seq<byte>): (r: seq<byte>)
  requires |origData| > 0  // origData[length-1] panics on an empty slice
  ensures var n := origData[|origData| - 1] as int;
    && (n > |origData| ==> r == Sentinel)
    && (n <= |origData| ==> |r| == |origData| - n && r + origData[|r|..] == origData)
{
  var length := |origData|;
  var unpadding := origData[length - 1] as int;
  if length < unpadding then Sentinel else origData[..length - unpadding]
}

/** PKCS7Padding and PKCS7UnPadding are the same functions under another name. */
function Pkcs7Padding(ciphertext: seq<byte>, blockSize: int): (r: seq<byte>)
  requires blockSize > 0
  ensures r == Pkcs5Padding(ciphertext, blockSize)
{
  Pkcs5Padding(ciphertext, blockSize)
}

function Pkcs7UnPadding(origData: seq<byte>): (r: seq<byte>)
  requires |origData| > 0
  ensures r == Pkcs5UnPadding(origData)
{
  Pkcs5UnPadding(origData)
}

lemma Pkcs5RoundTrip(x: seq<byte>, blockSize: int)
  requires 0 < blockSize <= 255
  ensures Pkcs5UnPadding(Pkcs5Padding(x, blockSize)) == x
{
  var padded := Pkcs5Padding(x, blockSize);
  assert padded[|padded| - 1] as int == |padded| - |x|;
}

/** With a block size of 256, data whose length is a multiple of 256 gets a
    full block of padding whose count byte wraps to 0: unpadding keeps the
    padding, and the round trip fails. */
lemma Pkcs5PaddingWrapsAt256(x: seq<byte>)
  requires |x| % 256 == 0
  ensures Pkcs5UnPadding(Pkcs5Padding(x, 256)) == x + Zeros(256)
  ensures Pkcs5UnPadding(Pkcs5Padding(x, 256)) != x
{
  var padded := Pkcs5Padding(x, 256);
  assert |padded| == |x| + 256;
  assert padded[..|x|] == x;
  assert forall i | |x| <= i < |padded| :: padded[i] == 0;
  assert padded == x + Zeros(256);
}

/** A trailing 0 byte is read as "no padding": the whole buffer comes back. */
lemma Pkcs5ZeroCountKeepsAll(origData: seq<byte>)
  requires |origData| > 0 && origData[|origData| - 1] == 0
  ensures Pkcs5UnPadding(origData) == origData
{
}

/** Only the last byte is read: the bytes it claims as padding may be anything. */
lemma Pkcs5UnPaddingIgnoresPadBytes(x: seq<byte>, pad: seq<byte>)
  requires |pad| > 0 && pad[|pad| - 1] as int == |pad|
  ensures Pkcs5UnPadding(x + pad) == x
{
  assert (x + pad)[|x + pad| - 1] == pad[|pad| - 1];
  assert (x + pad)[..|x|] == x;
}

/** Sequences of `n` zero bytes. */
function Zeros(n: nat): (r: seq<byte>)
  ensures |r| == n && forall i | 0 <= i < n :: r[i] == 0
{
  seq(n, _ => 0)
}

/** One more zero byte, at either end. */
lemma ZerosGrow(n: nat)
  ensures Zeros(n + 1) == [0] + Zeros(n) == Zeros(n) + [0]
{
}

/** ZeroPadding: append 1 to blockSize zero bytes up to a multiple of blockSize. */
function ZeroPadding(ciphertext: seq<byte>, blockSize: int): (r: seq<byte>)
  requires blockSize > 0
  ensures |ciphertext| < |r| <= |ciphertext| + blockSize
  ensures |r| % blockSize == 0
  ensures r == ciphertext + Zeros(|r| - |ciphertext|)
{
  ciphertext + Zeros(PaddingLength(|ciphertext|, blockSize))
}

/** No zero byte at either end. */
predicate ZeroFree(s: seq<byte>)
{
  s == [] || (s[0] != 0 && s[|s| - 1] != 0)
}

function TrimLeadingZeros(s: seq<byte>): (r: seq<byte>)
  ensures |r| <= |s|
  ensures s == Zeros(|s| - |r|) + r
  ensures r == [] || r[0] != 0
  decreases |s|
{
  if s != [] && s[0] == 0 then
    var r := TrimLeadingZeros(s[1..]);
    var k := |s| - 1 - |r|;
    ZerosGrow(k);
    assert s == [0] + (Zeros(k) + r) == ([0] + Zeros(k)) + r;
    r
  else
    assert Zeros(0) == [];
    s
}

function TrimTrailingZeros(s: seq<byte>): (r: seq<byte>)
  ensures |r| <= |s|
  ensures s == r + Zeros(|s| - |r|)
  ensures r == [] || r[|r| - 1] != 0
  decreases |s|
{
  if s != [] && s[|s| - 1] == 0 then
    var r := TrimTrailingZeros(s[..|s| - 1]);
    var k := |s| - 1 - |r|;
    ZerosGrow(k);
    assert s == (r + Zeros(k)) + [0] == r + (Zeros(k) + [0]);
    r
  else
    assert Zeros(0) == [];
    s
}

/** ZeroUnPadding (bytes.TrimFunc with "rune is 0"): strip every leading and
    every trailing zero byte. A zero byte is always the one-byte rune 0, and
    no other byte decodes to rune 0, so trimming runes is trimming bytes. */
function ZeroUnPadding(origData: seq<byte>): (r: seq<byte>)
  ensures ZeroFree(r)
  ensures exists a: nat, b: nat :: origData == Zeros(a) + r + Zeros(b)
{
  var r := TrimTrailingZeros(TrimLeadingZeros(origData));
  TrimBothEnds(origData);
  r
}

/** Trimming the front and then the back leaves a zero-free middle between
    two runs of zeros. */
lemma TrimBothEnds(origData: seq<byte>)
  ensures var left := TrimLeadingZeros(origData);
    var r := TrimTrailingZeros(left);
    && ZeroFree(r)
    && origData == Zeros(|origData| - |left|) + r + Zeros(|left| - |r|)
{
  var left := TrimLeadingZeros(origData);
  var r := TrimTrailingZeros(left);
  Sandwich(Zeros(|origData| - |left|), left, r, Zeros(|left| - |r|));
}

/** Splitting the back off a buffer that does not start with 0 leaves a
    middle that does not start with 0 either. */
lemma Sandwich(front: seq<byte>, left: seq<byte>, r: seq<byte>, back: seq<byte>)
  requires left == r + back
  requires left == [] || left[0] != 0
  requires r == [] || r[|r| - 1] != 0
  ensures ZeroFree(r)
  ensures front + left == front + r + back
{
  if r != [] {
    assert r[0] == left[0];
  }
}

/** Trimming the front of an all-zero buffer leaves nothing. */
lemma {:induction false} TrimLeadingZerosOfZeros(n: nat)
  ensures TrimLeadingZeros(Zeros(n)) == []
{
  if n > 0 {
    assert Zeros(n)[1..] == Zeros(n - 1);
    TrimLeadingZerosOfZeros(n - 1);
  }
}

/** Trimming the back of data followed by zeros gives the data back when its
    last byte is not zero. */
lemma {:induction false} TrimTrailingZerosOfPadded(x: seq<byte>, n: nat)
  requires x == [] || x[|x| - 1] != 0
  ensures TrimTrailingZeros(x + Zeros(n)) == x
{
  if n > 0 {
    var s := x + Zeros(n);
    assert s[|s| - 1] == 0;
    assert s[..|s| - 1] == x + Zeros(n - 1);
    TrimTrailingZerosOfPadded(x, n - 1);
  } else {
    assert x + Zeros(0) == x;
  }
}

/** Zero padding round-trips exactly for data with no zero at either end. */
lemma ZeroRoundTrip(x: seq<byte>, blockSize: int)
  requires blockSize > 0
  ensures ZeroUnPadding(ZeroPadding(x, blockSize)) == x <==> ZeroFree(x)
{
  var padded := ZeroPadding(x, blockSize);
  var n := |padded| - |x|;
  if ZeroFree(x) {
    if x == [] {
      assert padded == Zeros(n);
      TrimLeadingZerosOfZeros(n);
      assert TrimTrailingZeros(TrimLeadingZeros(padded)) == [];
    } else {
      assert padded == x + Zeros(n) && padded[0] == x[0] != 0;
      assert TrimLeadingZeros(padded) == padded;
      TrimTrailingZerosOfPadded(x, n);
    }
  } else {
    assert ZeroFree(ZeroUnPadding(padded));
  }
}

/** The zero round trip loses a data byte that is itself zero. */
lemma ZeroRoundTripLosesZeros()
  ensures ZeroUnPadding(ZeroPadding([0], 8)) == []
{
  assert ZeroPadding([0], 8) == Zeros(8);
  TrimLeadingZerosOfZeros(8);
}

/** The two padding schemes a caller can pass as paddingFunc/unPaddingFunc. */
datatype Padding = Pkcs5 | ZeroBytes

function Pad(scheme: Padding, data: seq<byte>, blockSize: int): (r: seq<byte>)
  requires blockSize > 0
  ensures |r| % blockSize == 0 && |data| < |r|
{
  match scheme
  case Pkcs5 => Pkcs5Padding(data, blockSize)
  case ZeroBytes => ZeroPadding(data, blockSize)
}

function Unpad(scheme: Padding, data: seq<byte>): seq<byte>
  requires scheme.Pkcs5? ==> |data| > 0
{
  match scheme
  case Pkcs5 => Pkcs5UnPadding(data)
  case ZeroBytes => ZeroUnPadding(data)
}

// ---------------------------------------------------------------------------
// Key derivation

/** The prefix getKey removes from the secret key. */
const SecretKeyPrefix: seq<byte> := StringBytes("FLWSECK-")

predicate OccursAt(s: seq<byte>, pat: seq<byte>, i: int)
{
  0 <= i && i + |pat| <= |s| && s[i..i + |pat|] == pat
}

/** The first position where `pat` occurs in `s`. */
function IndexOf(s: seq<byte>, pat: seq<byte>): (r: Option<nat>)
  ensures r.Some? ==> OccursAt(s, pat, r.value) && forall j | 0 <= j < r.value :: !OccursAt(s, pat, j)
  ensures r.None? ==> forall j :: !OccursAt(s, pat, j)
  decreases |s|
{
  if |s| < |pat| then None
  else if s[..|pat|] == pat then Some(0)
  else
    var rest := IndexOf(s[1..], pat);
    assert forall j | 0 <= j :: OccursAt(s[1..], pat, j) <==> OccursAt(s, pat, j + 1) by {
      forall j | 0 <= j
        ensures OccursAt(s[1..], pat, j) <==> OccursAt(s, pat, j + 1)
      {
        if j + |pat| <= |s[1..]| {
          assert s[1..][j..j + |pat|] == s[j + 1..j + 1 + |pat|];
        }
      }
    }
    assert !OccursAt(s, pat, 0);
    match rest
    case None =>
      assert forall j :: !OccursAt(s, pat, j) by {
        forall j ensures !OccursAt(s, pat, j) {
          if j > 0 {
            assert !OccursAt(s[1..], pat, j - 1);
          }
        }
      }
      None
    case Some(i) =>
      assert forall j | 0 <= j < i + 1 :: !OccursAt(s, pat, j) by {
        forall j | 0 <= j < i + 1 ensures !OccursAt(s, pat, j) {
          if j > 0 {
            assert !OccursAt(s[1..], pat, j - 1);
          }
        }
      }
      Some(i + 1)
}

/** strings.Replace(s, pat, "", 1): remove the first occurrence, wherever it is. */
function ReplaceFirst(s: seq<byte>, pat: seq<byte>): (r: seq<byte>)
  ensures IndexOf(s, pat).None? ==> r == s
  ensures IndexOf(s, pat).Some? ==>
    var i := IndexOf(s, pat).value; |r| == |s| - |pat| && r == s[..i] + s[i + |pat|..]
{
  match IndexOf(s, pat)
  case None => s
  case Some(i) => s[..i] + s[i + |pat|..]
}

/** A key that starts with the prefix loses exactly the prefix. */
lemma ReplaceFirstStripsPrefix(s: seq<byte>, pat: seq<byte>)
  requires |pat| <= |s| && s[..|pat|] == pat
  ensures ReplaceFirst(s, pat) == s[|pat|..]
{
  assert OccursAt(s, pat, 0);
}

predicate IsLowerHexDigit(d: byte)
{
  (0x30 <= d <= 0x39) || (0x61 <= d <= 0x66)
}

/** The lowercase hex digit of a nibble. */
function HexDigit(n: byte): (d: byte)
  requires n < 16
  ensures IsLowerHexDigit(d)
{
  if n < 10 then 0x30 + n else 0x61 + (n - 10)
}

/** hex.EncodeToString: two lowercase digits per byte, high nibble first. */
function HexEncode(b: seq<byte>): (r: seq<byte>)
  ensures |r| == 2 * |b|
  ensures forall i | 0 <= i < |r| :: IsLowerHexDigit(r[i])
{
  if b == [] then [] else [HexDigit(b[0] >> 4), HexDigit(b[0] & 0xF)] + HexEncode(b[1..])
}

/** The value of a hex digit; the reference definition HexEncode is checked against. */
function HexValue(d: byte): (r: Option<byte>)
  ensures r.Some? <==> IsLowerHexDigit(d) || (0x41 <= d <= 0x46)
{
  if 0x30 <= d <= 0x39 then Some(d - 0x30)
  else if 0x61 <= d <= 0x66 then Some(d - 0x61 + 10)
  else if 0x41 <= d <= 0x46 then Some(d - 0x41 + 10)
  else None
}

/** hex.DecodeString. */
function HexDecode(s: seq<byte>): Option<seq<byte>>
  decreases |s|
{
  if s == [] then Some([])
  else if |s| == 1 then None
  else
    match (HexValue(s[0]), HexValue(s[1]), HexDecode(s[2..]))
    case (Some(hi), Some(lo), Some(rest)) => Some([(hi << 4) | lo] + rest)
    case _ => None
}

lemma {:induction false} HexRoundTrip(b: seq<byte>)
  ensures HexDecode(HexEncode(b)) == Some(b)
  decreases |b|
{
  if b != [] {
    var e := HexEncode(b);
    assert e[2..] == HexEncode(b[1..]);
    HexRoundTrip(b[1..]);
    HexByteRoundTrip(b[0]);
    assert b == [b[0]] + b[1..];
  }
}

/** The two digits of one byte decode to its nibbles, which rebuild it. */
lemma HexByteRoundTrip(x: byte)
  ensures HexValue(HexDigit(x >> 4)) == Some(x >> 4)
  ensures HexValue(HexDigit(x & 0xF)) == Some(x & 0xF)
  ensures ((x >> 4) << 4) | (x & 0xF) == x
{
}

/** getKey: the first 12 bytes of the secret key once "FLWSECK-" is removed,
    then the hex of the last 6 bytes of the MD5 of the whole secret key. */
function GetKey(p: Primitives, key: seq<byte>): (r: TripleKey)
  requires |ReplaceFirst(key, SecretKeyPrefix)| >= 12  // replacePrefix[:12] panics otherwise
  ensures r[..12] == ReplaceFirst(key, SecretKeyPrefix)[..12]
  ensures forall i | 12 <= i < TripleKeySize :: IsLowerHexDigit(r[i])
  ensures HexDecode(r[12..]) == Some(p.md5(key)[10..])
{
  var hashedSubstr := p.md5(key)[10..];
  var r := ReplaceFirst(key, SecretKeyPrefix)[..12] + HexEncode(hashedSubstr);
  HexRoundTrip(hashedSubstr);
  assert r[12..] == HexEncode(hashedSubstr);
  r
}

/** The key the CryptoService derives from the client's secret key: the
    secret key must be set (else log.Fatal) and long enough (else a panic). */
function DerivedKey(p: Primitives, secretKey: string): (r: Result<TripleKey>)
  ensures r.Ok? <==> secretKey != "" && |ReplaceFirst(StringBytes(secretKey), SecretKeyPrefix)| >= 12
  ensures r.Ok? ==> r.value == GetKey(p, StringBytes(secretKey))
  ensures r.Err? ==> r.failure.Abort?
{
  match GetSecretKey(secretKey)
  case Err(f) => Err(f)
  case Ok(k) =>
    var bytes := StringBytes(k);
    if |ReplaceFirst(bytes, SecretKeyPrefix)| < 12 then Err(Abort(SliceOutOfRange))
    else Ok(GetKey(p, bytes))
}

/** GetPublicKey: the client's public key, or log.Fatal when it is empty. */
function GetPublicKey(publicKey: string): (r: Result<string>)
  ensures r.Ok? <==> publicKey != ""
  ensures r.Ok? ==> r.value == publicKey
  ensures r.Err? ==> r.failure.Abort?
{
  if publicKey != "" then Ok(publicKey) else Err(Abort(NoPublicKey))
}

/** GetSecretKey: the client's secret key, or log.Fatal when it is empty. */
function GetSecretKey(secretKey: string): (r: Result<string>)
  ensures r.Ok? <==> secretKey != ""
  ensures r.Ok? ==> r.value == secretKey
  ensures r.Err? ==> r.failure.Abort?
{
  if secretKey != "" then Ok(secretKey) else Err(Abort(NoSecretKey))
}

// ---------------------------------------------------------------------------
// Triple-DES in CBC mode

function XorBytes(a: seq<byte>, b: seq<byte>): (r: seq<byte>)
  requires |a| == |b|
  ensures |r| == |a|
{
  seq(|a|, i requires 0 <= i < |a| => a[i] ^ b[i])
}

/** CBC encryption: each plaintext block is XORed with the previous
    ciphertext block (the IV for the first) and then enciphered. */
function CbcEncrypt(c: BlockCipher, key: TripleKey, iv: Block, src: seq<byte>): (r: seq<byte>)
  requires |src| % DesBlockSize == 0
  ensures |r| == |src|
  decreases |src|
{
  if |src| == 0 then []
  else
    var out := c.encrypt(key, XorBytes(src[..DesBlockSize], iv));
    out + CbcEncrypt(c, key, out, src[DesBlockSize..])
}

/** CBC decryption: each block is deciphered and XORed with the previous
    ciphertext block (the IV for the first). */
function CbcDecrypt(c: BlockCipher, key: TripleKey, iv: Block, src: seq<byte>): (r: seq<byte>)
  requires |src| % DesBlockSize == 0
  ensures |r| == |src|
  decreases |src|
{
  if |src| == 0 then []
  else
    var block: Block := src[..DesBlockSize];
    XorBytes(c.decrypt(key, block), iv) + CbcDecrypt(c, key, block, src[DesBlockSize..])
}

lemma {:induction false} CbcRoundTrip(c: BlockCipher, key: TripleKey, iv: Block, p: seq<byte>)
  requires Inverts(c)
  requires |p| % DesBlockSize == 0
  ensures CbcDecrypt(c, key, iv, CbcEncrypt(c, key, iv, p)) == p
  decreases |p|
{
  if |p| > 0 {
    var x := XorBytes(p[..DesBlockSize], iv);
    var out := c.encrypt(key, x);
    var ct := CbcEncrypt(c, key, iv, p);
    assert ct == out + CbcEncrypt(c, key, out, p[DesBlockSize..]);
    assert ct[..DesBlockSize] == out;
    assert ct[DesBlockSize..] == CbcEncrypt(c, key, out, p[DesBlockSize..]);
    assert c.decrypt(key, out) == x;
    assert XorBytes(x, iv) == p[..DesBlockSize];
    CbcRoundTrip(c, key, out, p[DesBlockSize..]);
    assert p == p[..DesBlockSize] + p[DesBlockSize..];
  }
}

/** With a fixed IV, plaintexts that share their first n blocks share their
    first n ciphertext blocks: CBC here hides no repeated payload prefix. */
lemma {:induction false} CbcSharedPrefix(c: BlockCipher, key: TripleKey, iv: Block, p1: seq<byte>, p2: seq<byte>, n: nat)
  requires |p1| % DesBlockSize == 0 && |p2| % DesBlockSize == 0
  requires n * DesBlockSize <= |p1| && n * DesBlockSize <= |p2|
  requires p1[..n * DesBlockSize] == p2[..n * DesBlockSize]
  ensures CbcEncrypt(c, key, iv, p1)[..n * DesBlockSize] == CbcEncrypt(c, key, iv, p2)[..n * DesBlockSize]
  decreases n
{
  if n > 0 {
    assert p1[..DesBlockSize] == p1[..n * DesBlockSize][..DesBlockSize];
    assert p2[..DesBlockSize] == p2[..n * DesBlockSize][..DesBlockSize];
    var out := c.encrypt(key, XorBytes(p1[..DesBlockSize], iv));
    var m := (n - 1) * DesBlockSize;
    assert p1[DesBlockSize..][..m] == p1[..n * DesBlockSize][DesBlockSize..];
    assert p2[DesBlockSize..][..m] == p2[..n * DesBlockSize][DesBlockSize..];
    CbcSharedPrefix(c, key, out, p1[DesBlockSize..], p2[DesBlockSize..], n - 1);
    var e1, e2 := CbcEncrypt(c, key, iv, p1), CbcEncrypt(c, key, iv, p2);
    var r1, r2 := CbcEncrypt(c, key, out, p1[DesBlockSize..]), CbcEncrypt(c, key, out, p2[DesBlockSize..]);
    assert e1 == out + r1 && e2 == out + r2;
    assert e1[..n * DesBlockSize] == out + r1[..m];
    assert e2[..n * DesBlockSize] == out + r2[..m];
  }
}

/** One step of the encryption loop: with `done` the ciphertext of the first
    `i` bytes, appending the next block's ciphertext keeps the chain whole. */
lemma CbcEncryptStep(c: BlockCipher, key: TripleKey, iv: Block, prev: Block, input: seq<byte>, done: seq<byte>, i: nat)
  requires |input| % DesBlockSize == 0 && i % DesBlockSize == 0 && i < |input|
  requires done + CbcEncrypt(c, key, prev, input[i..]) == CbcEncrypt(c, key, iv, input)
  ensures
    var out := c.encrypt(key, XorBytes(input[i..i + DesBlockSize], prev));
    (done + out) + CbcEncrypt(c, key, out, input[i + DesBlockSize..]) == CbcEncrypt(c, key, iv, input)
{
  assert input[i..][..DesBlockSize] == input[i..i + DesBlockSize];
  assert input[i..][DesBlockSize..] == input[i + DesBlockSize..];
}

/** One step of the decryption loop, in the same shape. */
lemma CbcDecryptStep(c: BlockCipher, key: TripleKey, iv: Block, prev: Block, input: seq<byte>, done: seq<byte>, i: nat)
  requires |input| % DesBlockSize == 0 && i % DesBlockSize == 0 && i < |input|
  requires done + CbcDecrypt(c, key, prev, input[i..]) == CbcDecrypt(c, key, iv, input)
  ensures
    var block: Block := input[i..i + DesBlockSize];
    (done + XorBytes(c.decrypt(key, block), prev)) + CbcDecrypt(c, key, block, input[i + DesBlockSize..]) == CbcDecrypt(c, key, iv, input)
{
  assert input[i..][..DesBlockSize] == input[i..i + DesBlockSize];
  assert input[i..][DesBlockSize..] == input[i + DesBlockSize..];
}

/** The next block of a whole-block buffer fits in it. */
lemma NextBlockFits(n: nat, i: nat)
  requires n % DesBlockSize == 0 && i % DesBlockSize == 0 && i < n
  ensures i + DesBlockSize <= n && (i + DesBlockSize) % DesBlockSize == 0
{
  var a, b := n / 8, i / 8;
  assert n == 8 * a && i == 8 * b;
  assert i + 8 == 8 * (b + 1);
}

/** Copy one block into `dst` at offset `i`, leaving every other byte alone. */
method WriteBlock(dst: array<byte>, i: nat, b: Block)
  requires i + DesBlockSize <= dst.Length
  modifies dst
  ensures dst[..i + DesBlockSize] == old(dst[..i]) + b
  ensures forall j | i + DesBlockSize <= j < dst.Length :: dst[j] == old(dst[j])
{
  forall j | i <= j < i + DesBlockSize {
    dst[j] := b[j - i];
  }
  assert dst[..i + DesBlockSize] == old(dst[..i]) + b;
}

/** cipher.NewCBCEncrypter(block, iv).CryptBlocks(dst, src). Exact overlap
    of dst and src is allowed, as in the Go library. */
method CbcEncryptBlocks(c: BlockCipher, key: TripleKey, iv: Block, dst: array<byte>, src: array<byte>)
  requires src.Length % DesBlockSize == 0  // "input not full blocks" panics
  requires dst.Length == src.Length        // both callers allocate dst with make([]byte, len(src))
  modifies dst
  ensures dst[..] == CbcEncrypt(c, key, iv, old(src[..]))
{
  ghost var input := src[..];
  var i := 0;
  var prev: Block := iv;
  while i < src.Length
    invariant 0 <= i <= src.Length && i % DesBlockSize == 0
    invariant forall j | i <= j < src.Length :: src[j] == input[j]
    invariant dst[..i] + CbcEncrypt(c, key, prev, input[i..]) == CbcEncrypt(c, key, iv, input)
  {
    NextBlockFits(src.Length, i);
    assert src[i..i + DesBlockSize] == input[i..i + DesBlockSize];
    var out := c.encrypt(key, XorBytes(src[i..i + DesBlockSize], prev));
    CbcEncryptStep(c, key, iv, prev, input, dst[..i], i);
    WriteBlock(dst, i, out);
    prev := out;
    i := i + DesBlockSize;
  }
  assert dst[..] == dst[..i];
}

/** cipher.NewCBCDecrypter(block, iv).CryptBlocks(dst, src). */
method CbcDecryptBlocks(c: BlockCipher, key: TripleKey, iv: Block, dst: array<byte>, src: array<byte>)
  requires src.Length % DesBlockSize == 0  // "input not full blocks" panics
  requires dst.Length == src.Length        // both callers allocate dst with make([]byte, len(src))
  modifies dst
  ensures dst[..] == CbcDecrypt(c, key, iv, old(src[..]))
{
  ghost var input := src[..];
  var i := 0;
  var prev: Block := iv;
  while i < src.Length
    invariant 0 <= i <= src.Length && i % DesBlockSize == 0
    invariant forall j | i <= j < src.Length :: src[j] == input[j]
    invariant dst[..i] + CbcDecrypt(c, key, prev, input[i..]) == CbcDecrypt(c, key, iv, input)
  {
    NextBlockFits(src.Length, i);
    var block: Block := src[i..i + DesBlockSize];
    assert block == input[i..i + DesBlockSize];
    var plain := XorBytes(c.decrypt(key, block), prev);
    CbcDecryptStep(c, key, iv, prev, input, dst[..i], i);
    WriteBlock(dst, i, plain);
    prev := block;
    i := i + DesBlockSize;
  }
  assert dst[..] == dst[..i];
}

/** What tripleDesEncrypt returns: a key that is not 24 bytes is refused by
    des.NewTripleDESCipher; otherwise the base64 of the CBC encryption of
    the padded data under IV = the first 8 key bytes. */
function Encrypted(p: Primitives, origData: seq<byte>, key: seq<byte>, padding: Padding): (r: Result<string>)
  ensures r.Err? <==> |key| != TripleKeySize
  ensures r.Err? ==> r.failure == KeySizeError(|key|)
{
  if |key| != TripleKeySize then Err(KeySizeError(|key|))
  else
    var k: TripleKey := key;
    Ok(p.base64.encode(CbcEncrypt(p.cipher, k, k[..DesBlockSize], Pad(padding, origData, DesBlockSize))))
}

/** The ciphertext gets as far as CBC decryption: it is valid base64, the
    key has 24 bytes and the decoded ciphertext is whole blocks. */
predicate ReachesCbc(p: Primitives, encrypted: string, key: seq<byte>)
{
  && p.base64.decode(encrypted).Some?
  && |key| == TripleKeySize
  && |p.base64.decode(encrypted).value| % DesBlockSize == 0
}

/** The CBC decryption of the decoded ciphertext, with IV = key[0..8]. */
function CbcPlaintext(p: Primitives, encrypted: string, key: seq<byte>): (plain: seq<byte>)
  requires ReachesCbc(p, encrypted, key)
  ensures |plain| == |p.base64.decode(encrypted).value|
{
  var k: TripleKey := key;
  CbcDecrypt(p.cipher, k, k[..DesBlockSize], p.base64.decode(encrypted).value)
}

/** What tripleDesDecrypt returns. Beside the errors it returns, it panics on
    a ciphertext that is not whole blocks and, under PKCS#5, on an empty one;
    a plaintext equal to the sentinel is reported as an unpadding error. */
function Decrypted(p: Primitives, encrypted: string, key: seq<byte>, unpadding: Padding): (r: Result<seq<byte>>)
  ensures p.base64.decode(encrypted).None? ==> r == Err(Base64Error)
  ensures p.base64.decode(encrypted).Some? && |key| != TripleKeySize ==> r == Err(KeySizeError(|key|))
  ensures && p.base64.decode(encrypted).Some? && |key| == TripleKeySize
          && |p.base64.decode(encrypted).value| % DesBlockSize != 0
          ==> r == Err(Abort(PartialBlocks))
  ensures r.Ok? ==> r.value != Sentinel
  ensures ReachesCbc(p, encrypted, key) && unpadding.Pkcs5? ==>
    var plain := CbcPlaintext(p, encrypted, key);
    if plain == [] then r == Err(Abort(IndexOutOfRange))
    else
      var n := plain[|plain| - 1] as int;
      && (r.Ok? || r == Err(UnpaddingError))
      && (r == Err(UnpaddingError) <==> n > |plain| || plain[..|plain| - n] == Sentinel)
      && (r.Ok? ==> n <= |plain| && r.value + plain[|plain| - n..] == plain)
  ensures ReachesCbc(p, encrypted, key) && unpadding.ZeroBytes? ==>
    var plain := CbcPlaintext(p, encrypted, key);
    && (r.Ok? || r == Err(UnpaddingError))
    && (r == Err(UnpaddingError) <==> ZeroUnPadding(plain) == Sentinel)
    && (r.Ok? ==> r.value == ZeroUnPadding(plain))
{
  match p.base64.decode(encrypted)
  case None => Err(Base64Error)
  case Some(e) =>
    if |key| != TripleKeySize then Err(KeySizeError(|key|))
    else if |e| % DesBlockSize != 0 then Err(Abort(PartialBlocks))
    else
      var plain := CbcPlaintext(p, encrypted, key);
      if unpadding.Pkcs5? && |plain| == 0 then Err(Abort(IndexOutOfRange))
      else
        var origData := Unpad(unpadding, plain);
        if origData == Sentinel then Err(UnpaddingError) else Ok(origData)
}

/** tripleDesEncrypt. */
method EncryptWithKey(p: Primitives, origData: seq<byte>, key: seq<byte>, padding: Padding) returns (r: Result<string>)
  ensures r == Encrypted(p, origData, key, padding)
{
  if |key| != TripleKeySize {
    return Err(KeySizeError(|key|));
  }
  var k: TripleKey := key;
  var iv: Block := k[..DesBlockSize];
  var orig := Pad(padding, origData, DesBlockSize);
  var src := new byte[|orig|](i requires 0 <= i < |orig| => orig[i]);
  assert src[..] == orig;
  var crypted := new byte[|orig|];
  CbcEncryptBlocks(p.cipher, k, iv, crypted, src);
  return Ok(p.base64.encode(crypted[..]));
}

/** tripleDesDecrypt. */
method DecryptWithKey(p: Primitives, encrypted: string, key: seq<byte>, unpadding: Padding) returns (r: Result<seq<byte>>)
  ensures r == Decrypted(p, encrypted, key, unpadding)
{
  var decoded := p.base64.decode(encrypted);
  if decoded.None? {
    return Err(Base64Error);
  }
  var e := decoded.value;
  if |key| != TripleKeySize {
    return Err(KeySizeError(|key|));
  }
  if |e| % DesBlockSize != 0 {
    return Err(Abort(PartialBlocks));
  }
  var k: TripleKey := key;
  var iv: Block := k[..DesBlockSize];
  var src := new byte[|e|](i requires 0 <= i < |e| => e[i]);
  assert src[..] == e;
  var origData := new byte[|e|];
  CbcDecryptBlocks(p.cipher, k, iv, origData, src);
  if unpadding.Pkcs5? && origData.Length == 0 {
    return Err(Abort(IndexOutOfRange));
  }
  var unpadded := Unpad(unpadding, origData[..]);
  if unpadded == Sentinel {
    return Err(UnpaddingError);
  }
  return Ok(unpadded);
}

/** The raw ciphertext is exactly as long as the padded plaintext, a whole
    number of blocks and longer than the plaintext. */
lemma CiphertextLength(c: BlockCipher, key: TripleKey, origData: seq<byte>)
  ensures var ct := CbcEncrypt(c, key, key[..DesBlockSize], Pkcs5Padding(origData, DesBlockSize));
    |ct| == |Pkcs5Padding(origData, DesBlockSize)| && |ct| % DesBlockSize == 0
    && |origData| < |ct| <= |origData| + DesBlockSize
{
}

/** Decrypting what was encrypted under the same 24-byte key gives the data
    back, unless the data is the sentinel itself. */
lemma EncryptDecryptRoundTrip(p: Primitives, origData: seq<byte>, key: TripleKey)
  requires Lawful(p)
  requires origData != Sentinel
  ensures Encrypted(p, origData, key, Pkcs5).Ok?
  ensures Decrypted(p, Encrypted(p, origData, key, Pkcs5).value, key, Pkcs5) == Ok(origData)
{
  var padded := Pkcs5Padding(origData, DesBlockSize);
  var ct := CbcEncrypt(p.cipher, key, key[..DesBlockSize], padded);
  assert p.base64.decode(p.base64.encode(ct)) == Some(ct);
  CbcRoundTrip(p.cipher, key, key[..DesBlockSize], padded);
  Pkcs5RoundTrip(origData, DesBlockSize);
}

/** A genuine plaintext equal to the sentinel cannot be told from a padding
    error: its round trip fails. */
lemma SentinelPlaintextRejected(p: Primitives, key: TripleKey)
  requires Lawful(p)
  ensures Decrypted(p, Encrypted(p, Sentinel, key, Pkcs5).value, key, Pkcs5) == Err(UnpaddingError)
{
  var padded := Pkcs5Padding(Sentinel, DesBlockSize);
  var ct := CbcEncrypt(p.cipher, key, key[..DesBlockSize], padded);
  assert p.base64.decode(p.base64.encode(ct)) == Some(ct);
  CbcRoundTrip(p.cipher, key, key[..DesBlockSize], padded);
  Pkcs5RoundTrip(Sentinel, DesBlockSize);
}

/** A last byte beyond the buffer length is rejected with an error, never
    returned as truncated plaintext. */
lemma OversizedPadCountRejected(p: Primitives, encrypted: string, key: TripleKey)
  requires p.base64.decode(encrypted).Some?
  requires var e := p.base64.decode(encrypted).value;
    |e| % DesBlockSize == 0 && |e| > 0 &&
    var plain := CbcDecrypt(p.cipher, key, key[..DesBlockSize], e);
    plain[|plain| - 1] as int > |plain|
  ensures Decrypted(p, encrypted, key, Pkcs5) == Err(UnpaddingError)
{
}

/** What CryptoService.TripleDesEncrypt returns for the client's secret key. */
function SecretEncrypted(p: Primitives, secretKey: string, origData: seq<byte>): (r: Result<string>)
  ensures r.Err? ==> r.failure.Abort?
{
  match DerivedKey(p, secretKey)
  case Err(f) => Err(f)
  case Ok(key) => Encrypted(p, origData, key, Pkcs5)
}

/** What CryptoService.TripleDesDecrypt returns for the client's secret key. */
function SecretDecrypted(p: Primitives, secretKey: string, encrypted: string): Result<seq<byte>>
{
  match DerivedKey(p, secretKey)
  case Err(f) => Err(f)
  case Ok(key) => Decrypted(p, encrypted, key, Pkcs5)
}

/** CryptoService.TripleDesEncrypt: derive the key from the secret key and
    encrypt with PKCS#5 padding. */
method TripleDesEncrypt(p: Primitives, secretKey: string, origData: seq<byte>) returns (r: Result<string>)
  ensures r == SecretEncrypted(p, secretKey, origData)
{
  var key := DerivedKey(p, secretKey);
  if key.Err? {
    return Err(key.failure);
  }
  r := EncryptWithKey(p, origData, key.value, Pkcs5);
}

/** CryptoService.TripleDesDecrypt. */
method TripleDesDecrypt(p: Primitives, secretKey: string, encrypted: string) returns (r: Result<seq<byte>>)
  ensures r == SecretDecrypted(p, secretKey, encrypted)
{
  var key := DerivedKey(p, secretKey);
  if key.Err? {
    return Err(key.failure);
  }
  r := DecryptWithKey(p, encrypted, key.value, Pkcs5);
}

/** With any usable secret key, the service-level round trip holds for every
    plaintext but the sentinel; the derived key never trips the key-size check. */
lemma SecretRoundTrip(p: Primitives, secretKey: string, origData: seq<byte>)
  requires Lawful(p)
  requires DerivedKey(p, secretKey).Ok?
  requires origData != Sentinel
  ensures SecretEncrypted(p, secretKey, origData).Ok?
  ensures SecretDecrypted(p, secretKey, SecretEncrypted(p, secretKey, origData).value) == Ok(origData)
{
  EncryptDecryptRoundTrip(p, origData, DerivedKey(p, secretKey).value);
}
