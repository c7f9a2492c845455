/**
 * The library calls the core relies on but does not implement: SHA-256
 * (`sha2`), AES-256-CBC with PKCS padding (`crypto`), UTF-8 decoding,
 * `serde_json`, `base32::decode` and the HOTP value behind `totp_lite` /
 * `oath`.  They are passed around as one bundle of function values, so
 * nothing about them is assumed except what `Sound` states.  UTF-8
 * encoding is simple enough to be written out.
 */
module Foreign {
  import opened Common
  import opened Entities

  /** A SHA-256 digest: `[u8; 32]`. */
  type Digest = s: seq<byte> | |s| == 32 witness seq(32, _ => 0)

  datatype Primitives = Primitives(
    /** SHA-256 of a byte string. */
    sha256: seq<byte> -> Digest,
    /** AES-256-CBC encryption of (plaintext, key, iv), PKCS padding. */
    aesEncrypt: (seq<byte>, seq<byte>, seq<byte>) -> seq<byte>,
    /** AES-256-CBC decryption of (ciphertext, key, iv); None on a padding or cipher error. */
    aesDecrypt: (seq<byte>, seq<byte>, seq<byte>) -> Option<seq<byte>>,
    /** `String::from_utf8`. */
    utf8Decode: seq<byte> -> Option<string>,
    /** `serde_json::to_string` of the schema. */
    toJson: Schema -> string,
    /** `serde_json::from_str` into the schema. */
    fromJson: string -> Option<Schema>,
    /** `base32::decode` with the RFC 4648 alphabet, no padding. */
    base32Decode: string -> Option<seq<byte>>,
    /** HMAC-SHA1 HOTP value (dynamic truncation, before `mod 10^digits`) of (secret, counter). */
    hotp: (seq<byte>, nat) -> nat)

  /**
   * The round trips the libraries promise: decryption with the same 32-byte
   * key and 16-byte IV undoes encryption, UTF-8 decoding undoes encoding, and
   * parsing undoes serialisation.
   */
  ghost predicate Sound(p: Primitives)
  {
    && (forall plain, key, iv | |key| == 32 && |iv| == 16 ::
          p.aesDecrypt(p.aesEncrypt(plain, key, iv), key, iv) == Some(plain))
    && (forall text :: p.utf8Decode(Utf8Encode(text)) == Some(text))
    && (forall schema :: p.fromJson(p.toJson(schema)) == Some(schema))
  }

  /** The UTF-8 encoding of one character (RFC 3629). */
  function CharUtf8(c: char): (bytes: seq<byte>)
    ensures 1 <= |bytes| <= 4
    ensures |bytes| == 1 <==> (c as int) < 0x80
  {
    var cp := c as int;
    if cp < 0x80 then [cp as byte]
    else if cp < 0x800 then [(0xC0 + cp / 64) as byte, (0x80 + cp % 64) as byte]
    else if cp < 0x10000 then
      [(0xE0 + cp / 4096) as byte, (0x80 + (cp / 64) % 64) as byte, (0x80 + cp % 64) as byte]
    else
      [(0xF0 + cp / 262144) as byte, (0x80 + (cp / 4096) % 64) as byte,
       (0x80 + (cp / 64) % 64) as byte, (0x80 + cp % 64) as byte]
  }

  /** `str::as_bytes`: the UTF-8 encoding of a string. */
  function Utf8Encode(s: string): (bytes: seq<byte>)
    ensures |bytes| >= |s|
    ensures (forall i | 0 <= i < |s| :: (s[i] as int) < 0x80) ==> |bytes| == |s|
  {
    if s == [] then [] else CharUtf8(s[0]) + Utf8Encode(s[1..])
  }

  /** `str::len`: the number of bytes of the UTF-8 encoding, not of characters. */
  function Utf8Len(s: string): nat
  {
    |Utf8Encode(s)|
  }
}
