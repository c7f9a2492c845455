/**
 * The `Database` trait (`get_applications` / `save_applications`) over the
 * two file formats, and the filesystem they read and write.  The trait's
 * implementations form a closed set, so it is a datatype here.
 */
module Storage {
  import opened Common
  import opened Entities
  import opened Foreign
  import Vault
  import LegacyStore

  /**
   * The files the program sees: a path that is not a key does not exist
   * (`ErrorKind::NotFound`).  Other I/O failures are not modelled.
   */
  class FileSystem {
    var files: map<Path, seq<byte>>

    constructor (files: map<Path, seq<byte>>)
      ensures this.files == files
    {
      this.files := files;
    }

    /** `Path::exists`. */
    function Exists(path: Path): (b: bool)
      reads this
      ensures b <==> path in files
    {
      path in files
    }

    /**
     * Open with `write`, `truncate` and `create` (creating the parent
     * directory on `NotFound`) and `write_all`: the file holds exactly `data`.
     */
    method Write(path: Path, data: seq<byte>)
      modifies this
      ensures files == old(files)[path := data]
    {
      files := files[path := data];
    }
  }

  datatype Database =
    /** The library's encrypted store: a path and the passphrase. */
    | JsonDatabase(filePath: Path, secret: string)
    /** The older binary's plain JSON store. */
    | LegacyJsonDatabase(filePath: Path)

  /** `read_database_file` of the store's format. */
  function ReadSchema(p: Primitives, db: Database, files: map<Path, seq<byte>>): (r: Result<Schema, Panic>)
    ensures db.filePath !in files ==> r == Ok(EmptySchema())
    ensures db.JsonDatabase? && db.filePath in files && |files[db.filePath]| < Vault.IV_SIZE ==> r == Err(FileTooShort)
    ensures db.LegacyJsonDatabase? && r.Err? ==> r.error == InvalidJson
  {
    match db
    case JsonDatabase(path, secret) => Vault.ReadDatabaseFile(p, files, path, secret)
    case LegacyJsonDatabase(path) => LegacyStore.ReadLegacyFile(p, files, path)
  }

  /** `Database::get_applications`: the applications of the stored schema, whatever its version. */
  function GetApplications(p: Primitives, db: Database, files: map<Path, seq<byte>>): (r: Result<Applications, Panic>)
    ensures db.filePath !in files ==> r == Ok(map[])
    ensures r.Ok? <==> ReadSchema(p, db, files).Ok?
  {
    match ReadSchema(p, db, files)
    case Err(e) => Err(e)
    case Ok(schema) => Ok(schema.content.applications)
  }

  /**
   * The schema `save_applications` writes: the empty schema with its
   * applications replaced, so always at `DATABASE_VERSION`.
   */
  function SavedSchema(apps: Applications): (s: Schema)
    ensures s.version == DATABASE_VERSION && s.content.applications == apps
  {
    var empty := EmptySchema();
    empty.(content := empty.content.(applications := apps))
  }

  /** The bytes `save_applications` writes, `iv` standing for the random IV. */
  function SavedBytes(p: Primitives, db: Database, apps: Applications, iv: Vault.Iv): (bytes: seq<byte>)
    ensures db.JsonDatabase? ==> |bytes| >= Vault.IV_SIZE && bytes[..Vault.IV_SIZE] == iv
    ensures db.LegacyJsonDatabase? ==> bytes == Utf8Encode(p.toJson(SavedSchema(apps)))
  {
    match db
    case JsonDatabase(_, secret) => Vault.DatabaseFileBytes(p, SavedSchema(apps), secret, iv)
    case LegacyJsonDatabase(_) => LegacyStore.LegacyFileBytes(p, SavedSchema(apps))
  }

  /** `Database::save_applications`: the whole file is rewritten. */
  method SaveApplications(p: Primitives, db: Database, fs: FileSystem, apps: Applications, iv: Vault.Iv)
    modifies fs
    ensures fs.files == old(fs.files)[db.filePath := SavedBytes(p, db, apps, iv)]
  {
    fs.Write(db.filePath, SavedBytes(p, db, apps, iv));
  }

  /**
   * Saving then loading through the same store gives back the same
   * applications, the file now being at `DATABASE_VERSION`.
   */
  lemma LoadAfterSave(p: Primitives, db: Database, files: map<Path, seq<byte>>, apps: Applications, iv: Vault.Iv)
    requires Sound(p)
    ensures ReadSchema(p, db, files[db.filePath := SavedBytes(p, db, apps, iv)]) == Ok(SavedSchema(apps))
    ensures GetApplications(p, db, files[db.filePath := SavedBytes(p, db, apps, iv)]) == Ok(apps)
  {
    match db
    case JsonDatabase(path, secret) =>
      Vault.ReadAfterSave(p, files, path, secret, SavedSchema(apps), iv);
    case LegacyJsonDatabase(path) =>
      LegacyStore.LegacyReadAfterSave(p, files, path, SavedSchema(apps));
  }
}
