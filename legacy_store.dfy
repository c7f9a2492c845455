/**
 * The older binary's database file: plain JSON text, no encryption.  A
 * missing file reads as the empty schema.
 */
module LegacyStore {
  import opened Common
  import opened Entities
  import opened Foreign

  /**
   * `read_database_file` of the older binary: `serde_json::from_reader` on
   * the file's bytes; a read that is not JSON (including bytes that are not
   * UTF-8) hits the one `expect`.
   */
  function ReadLegacyFile(p: Primitives, files: map<Path, seq<byte>>, path: Path): (r: Result<Schema, Panic>)
    ensures path !in files ==> r == Ok(EmptySchema())
    ensures r.Err? ==> r.error == InvalidJson
  {
    if path !in files then Ok(EmptySchema())
    else
      match p.utf8Decode(files[path])
      case None => Err(InvalidJson)
      case Some(text) =>
        match p.fromJson(text)
        case None => Err(InvalidJson)
        case Some(schema) => Ok(schema)
  }

  /** The bytes `serde_json::to_writer` writes for a schema. */
  function LegacyFileBytes(p: Primitives, content: Schema): (bytes: seq<byte>)
    ensures |bytes| >= |p.toJson(content)|
  {
    Utf8Encode(p.toJson(content))
  }

  /** Reading back what was written gives the same schema. */
  lemma LegacyReadAfterSave(p: Primitives, files: map<Path, seq<byte>>, path: Path, content: Schema)
    requires Sound(p)
    ensures ReadLegacyFile(p, files[path := LegacyFileBytes(p, content)], path) == Ok(content)
  {
  }
}
