/**
 * The persisted entities: a generator entry (`GenApp`) and the versioned
 * database schema `{ version, content: { applications } }`.  `src/lib.rs` and
 * `src/main.rs` declare the same structs.
 */
module Entities {
  import opened Common

  /** A filesystem path, as text. */
  type Path = string

  /** The directory used when the home directory cannot be determined. */
  const HOME_FALLBACK: Path := "."

  /** Whether `PathBuf::push` puts a separator after `base`: it is non-empty and does not end in one. */
  predicate NeedsSeparator(base: Path)
  {
    base != [] && base[|base| - 1] != '/'
  }

  /**
   * `PathBuf::join` with a relative path: the base, then a separator only
   * when the base is non-empty and does not already end in one, then the
   * relative path.
   */
  function Join(base: Path, rel: Path): (path: Path)
    ensures |path| == |base| + |rel| + (if NeedsSeparator(base) then 1 else 0)
    ensures path[..|base|] == base
    ensures path[|path| - |rel|..] == rel
    ensures base != [] ==> path[|path| - |rel| - 1] == '/'
    ensures base == [] ==> path == rel
  {
    if NeedsSeparator(base) then base + "/" + rel else base + rel
  }

  /** Under one base, different relative paths join to different paths. */
  lemma JoinInjective(base: Path, rel1: Path, rel2: Path)
    requires Join(base, rel1) == Join(base, rel2)
    ensures rel1 == rel2
  {
    var path := Join(base, rel1);
    assert |rel1| == |rel2|;
    assert rel1 == path[|path| - |rel1|..] == rel2;
  }

  /** `DATABASE_VERSION`: the schema version every save writes. */
  const DATABASE_VERSION: byte := 1

  /**
   * One OTP generator.  `secretBytes` is the Base32-decoded `secret`,
   * computed once at creation and stored beside it.
   */
  datatype GenApp = GenApp(name: string, secret: string, username: string, secretBytes: seq<byte>)

  /** `GenApp::new`: its parameters come in a different order than the fields. */
  function NewGenApp(name: string, username: string, secret: string, secretBytes: seq<byte>): (g: GenApp)
    ensures g.name == name && g.secret == secret && g.username == username && g.secretBytes == secretBytes
  {
    GenApp(name, secret, username, secretBytes)
  }

  /** The registry's `HashMap<String, GenApp>`, keyed by the name given at creation. */
  type Applications = map<string, GenApp>

  datatype Content = Content(applications: Applications)

  datatype Schema = Schema(version: byte, content: Content)

  /** `get_empty_schema`: the current version and no applications. */
  function EmptySchema(): (s: Schema)
    ensures s.version == DATABASE_VERSION && s.content.applications == map[]
  {
    Schema(DATABASE_VERSION, Content(map[]))
  }

  /**
   * The places where reading a database file panics in the source:
   * a blob too short to hold the IV (slice out of range), a failed
   * decryption, plaintext that is not UTF-8, and text that is not a schema.
   */
  datatype Panic = FileTooShort | DecryptFailed | InvalidUtf8 | InvalidJson
}
