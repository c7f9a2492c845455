/**
 * The encrypted database file of the library (`JsonDatabase` with
 * `JsonDatabaseTrait`): the key is the SHA-256 digest of the passphrase and
 * the file holds `iv(16) ++ AES-256-CBC(json)`.  A missing file reads as the
 * empty schema.
 */
module Vault {
  import opened Common
  import opened Entities
  import opened Foreign

  const IV_SIZE: nat := 16
  const KEY_SIZE: nat := 32

  /** An initialisation vector; `create_iv` fills one from the thread RNG. */
  type Iv = s: seq<byte> | |s| == IV_SIZE witness seq(16, _ => 0)

  /** `form_secret_key`: SHA-256 of the passphrase's UTF-8 bytes. */
  function FormSecretKey(p: Primitives, passphrase: string): (key: Digest)
    ensures |key| == KEY_SIZE
  {
    p.sha256(Utf8Encode(passphrase))
  }

  /** `encrypt_data`: the IV followed by the ciphertext of the text's UTF-8 bytes. */
  function EncryptData(p: Primitives, data: string, passphrase: string, iv: Iv): (blob: seq<byte>)
    ensures |blob| >= IV_SIZE && blob[..IV_SIZE] == iv
    ensures blob[IV_SIZE..] == p.aesEncrypt(Utf8Encode(data), FormSecretKey(p, passphrase), iv)
  {
    iv + p.aesEncrypt(Utf8Encode(data), FormSecretKey(p, passphrase), iv)
  }

  /**
   * `decrypt_data`: split the IV off at offset 16, decrypt the rest and read
   * it as UTF-8.  Each `[..IV_SIZE]`, `expect` and `unwrap` that panics in
   * the source is an `Err` here.
   */
  function DecryptData(p: Primitives, blob: seq<byte>, passphrase: string): (r: Result<string, Panic>)
    ensures |blob| < IV_SIZE ==> r == Err(FileTooShort)
    ensures r.Ok? ==> exists plain :: p.aesDecrypt(blob[IV_SIZE..], FormSecretKey(p, passphrase), blob[..IV_SIZE]) == Some(plain)
                                      && p.utf8Decode(plain) == Some(r.value)
  {
    if |blob| < IV_SIZE then Err(FileTooShort)
    else
      match p.aesDecrypt(blob[IV_SIZE..], FormSecretKey(p, passphrase), blob[..IV_SIZE])
      case None => Err(DecryptFailed)
      case Some(plain) =>
        match p.utf8Decode(plain)
        case None => Err(InvalidUtf8)
        case Some(text) => Ok(text)
  }

  /** With a sound cipher, decrypting what `encrypt_data` produced gives the text back. */
  lemma DecryptEncrypt(p: Primitives, data: string, passphrase: string, iv: Iv)
    requires Sound(p)
    ensures DecryptData(p, EncryptData(p, data, passphrase, iv), passphrase) == Ok(data)
  {
    var blob := EncryptData(p, data, passphrase, iv);
    assert blob[..IV_SIZE] == iv;
  }

  /** Two saves under different IVs never write the same bytes. */
  lemma FreshIvFreshBlob(p: Primitives, data: string, passphrase: string, iv1: Iv, iv2: Iv)
    requires iv1 != iv2
    ensures EncryptData(p, data, passphrase, iv1) != EncryptData(p, data, passphrase, iv2)
  {
    assert EncryptData(p, data, passphrase, iv1)[..IV_SIZE] == iv1;
  }

  /**
   * `read_database_file`: a path that does not exist gives the empty schema;
   * otherwise the file is decrypted and parsed.
   */
  function ReadDatabaseFile(p: Primitives, files: map<Path, seq<byte>>, path: Path, passphrase: string): (r: Result<Schema, Panic>)
    ensures path !in files ==> r == Ok(EmptySchema())
    ensures path in files && |files[path]| < IV_SIZE ==> r == Err(FileTooShort)
  {
    if path !in files then Ok(EmptySchema())
    else
      match DecryptData(p, files[path], passphrase)
      case Err(e) => Err(e)
      case Ok(text) =>
        match p.fromJson(text)
        case None => Err(InvalidJson)
        case Some(schema) => Ok(schema)
  }

  /** The bytes `save_database_file` writes for a schema, with `iv` as the random IV. */
  function DatabaseFileBytes(p: Primitives, content: Schema, passphrase: string, iv: Iv): (bytes: seq<byte>)
    ensures |bytes| >= IV_SIZE && bytes[..IV_SIZE] == iv
  {
    EncryptData(p, p.toJson(content), passphrase, iv)
  }

  /** Reading a file back under the same passphrase gives the schema that was saved. */
  lemma ReadAfterSave(p: Primitives, files: map<Path, seq<byte>>, path: Path, passphrase: string, content: Schema, iv: Iv)
    requires Sound(p)
    ensures ReadDatabaseFile(p, files[path := DatabaseFileBytes(p, content, passphrase, iv)], path, passphrase) == Ok(content)
  {
    DecryptEncrypt(p, p.toJson(content), passphrase, iv);
  }
}
