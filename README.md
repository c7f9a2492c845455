# RusTOTPony in Dafny

RusTOTPony is a command-line manager of TOTP generators (RFC 6238). It keeps a
map from application names to generator entries (`GenApp`: name, Base32
secret, username, decoded secret bytes) in a file under the home directory.
The library (`src/lib.rs`) stores that file encrypted: the schema
`{version: 1, content: {applications}}` is serialised to JSON, encrypted with
AES-256-CBC under the SHA-256 digest of a passphrase, and written as
`iv(16 bytes) ++ ciphertext`. An older front end (`src/main.rs`) stores the
same schema as plain JSON in `~/.rustotpony/db.json`. The current front end
(`src/bin/totp.rs`) opens `~/.rustotpony/totp.safe`. When only the old file
exists, it first migrates that file into the new one.

This project models:

- **the application registry** `RusTOTPony`. This is a class whose `applications` map the
  create, delete, rename and clear methods update in place. The create, delete
  and rename methods are each proved equal to a pure function on maps
  (`Registry.Create`, `Delete`, `Rename`). The clear method
  (`DeleteAllApplications`) is the exception: its contract states the empty map
  directly. The two lookups state their results directly as well, in the same
  terms as `Registry.List` and `Lookup`. The properties of the pure functions
  are stated in their contracts and in lemmas.
- **the store behind it.** `Storage.Database` is either the encrypted store or the
  plain-JSON store. Files are a `map<Path, seq<byte>>` held by a `FileSystem`
  class. Its constructor only sets up the environment (the files present
  before the program runs) and models no source function. Two things are proved:
  - the vault framing (`Vault`): IV prefix, digest key, and a file that is too
    short to hold an IV;
  - the load-after-save round trip through both formats.
- **the display arithmetic**:
  - the progress bar and its index;
  - the listing table, with its width folds, delimiter and padded rows;
  - the collection loops, run in an arbitrary map iteration order;
  - the dashboard's in-place key sort and its frame height.
- **the front ends.** The migration decision and `app()` (`TotpCli`),
  `Cli::new` (`LegacyCli`), and the commands, which flush only on success
  (`Commands`).

The foreign primitives are bundled in `Foreign.Primitives` as function values.
These are SHA-256, AES-CBC encryption and decryption, UTF-8 decoding, JSON
printing and parsing, Base32 decoding, and HOTP. They are passed to every
operation that uses them. Their round trips are the predicate `Foreign.Sound`,
which the round-trip lemmas take as a precondition. UTF-8 *encoding* is written
out (`Foreign.Utf8Encode`), because the table widths use `str::len()`, which is
the byte length.

Where the code departs from what a user might expect, the code is followed:

- **Panics.** The code panics on a file shorter than 16 bytes, a failed
  decryption, invalid UTF-8 and unparsable JSON. Recoverable errors
  would be expected, and a caller cannot be required to guarantee file
  contents. Each of these load failures is therefore a `Result` carrying an
  `Entities.Panic` value. `RusTOTPony`'s constructor requires a successful
  load; `TotpCli.App` and `LegacyCli.CliNew` return the panic instead of
  constructing.
- **Rename.** One might expect the list to contain "b" and not "a" after
  renaming "a" to "b". The code only overwrites the entry's `name`
  field and keeps it under key "a". It also does not check whether the new
  name is taken. Both behaviours are modelled as written, and
  `Registry.RenameDoesNotRekey` and `Registry.RenameOntoTakenName` show them.
- **Migration source.** The migration reads `~/.rustotpony/db.json` with the
  *encrypted* reader. That path is the very file the plain-JSON front end
  writes (`LegacyCli.MigrationSourceIsLegacyFile`). Whether such a file
  decrypts is up to the foreign cipher; if it does not, the model's `App`
  returns the failure and leaves every file unchanged.

## Model

| member | source | states |
|---|---|---|
| Common.UnwrapOr | src/bin/totp.rs:74-95 | `Option::unwrap_or`: the value if present, otherwise the default; used for the home directory with fallback `.` (src/bin/totp.rs:95, src/main.rs:311) and the `add` command's missing username as `""` (src/bin/totp.rs:74) |
| Entities.Join | src/bin/totp.rs:96-97 | `PathBuf::join` with a relative path: the base, then one `/` only when the base is non-empty and does not already end in `/`, then the relative path; an empty base gives the relative path alone |
| Entities.JoinInjective | src/bin/totp.rs:96-97 | joining two relative paths onto the same base gives the same path only when they are equal |
| Entities.NewGenApp | src/lib.rs:417-424 | the entry holds exactly the given name, secret, username and decoded bytes |
| Entities.EmptySchema | src/lib.rs:214-221 | the empty schema has version `DATABASE_VERSION` (1) and no applications |
| Registry.Create | src/lib.rs:43-60 | Ok iff the secret decodes and the name is new; an undecodable secret is reported even for a taken name; a taken name gives AlreadyExists; errors leave the map unchanged; success adds exactly key `name` with `GenApp(name, secret, username, decoded bytes)` and keeps every other entry (same in src/main.rs:36-48) |
| Registry.Delete | src/lib.rs:62-71 | Ok iff `name` is a key; the result has the old keys minus `name` and unchanged entries; Err is DoesNotExist and leaves the map unchanged (same in src/main.rs:50-59) |
| Registry.Rename | src/lib.rs:73-80 | Ok iff `name` is a key; the key set never changes; only the entry under `name` changes, and only its `name` field, to `newname`; Err is NotFound and leaves the map unchanged (same in src/main.rs:61-68) |
| Registry.List | src/lib.rs:82-88 | Err(NoApplications) iff the map is empty, otherwise the whole map (same in src/main.rs:70-76) |
| Registry.Lookup | src/lib.rs:90-96 | Ok iff the key is present, with the entry stored there; otherwise NotFound (same in src/main.rs:78-84) |
| Registry.SecretsStayDecoded | src/lib.rs:49-55 | create, delete and rename preserve "every entry's bytes are its secret's Base32 decoding" |
| Registry.CreateDeleteKeepKeying | src/lib.rs:43-71 | create and delete preserve "every entry is stored under its own name" |
| Registry.RenameDoesNotRekey | src/lib.rs:73-80 | after renaming to a fresh name, the old key still finds the entry, now carrying the new name; the new name is not a key; entries are no longer keyed by their names |
| Registry.RenameOntoTakenName | src/lib.rs:73-80 | renaming onto another entry's name succeeds and leaves two entries with that name |
| Registry.CreateThenDelete | src/lib.rs:43-71 | deleting what a successful create added restores the original map |
| Registry.RenameBack | src/lib.rs:73-80 | renaming back to the original name restores the original map |
| Registry.RusTOTPony.constructor | src/lib.rs:36-41 | the registry holds the store and exactly the map the store loads (same in src/main.rs:29-34) |
| Registry.RusTOTPony.CreateApplication | src/lib.rs:43-60 | the result and new map are `Registry.Create` of the old map |
| Registry.RusTOTPony.DeleteApplication | src/lib.rs:62-71 | the result and new map are `Registry.Delete` of the old map |
| Registry.RusTOTPony.RenameApplication | src/lib.rs:73-80 | the result and new map are `Registry.Rename` of the old map |
| Registry.RusTOTPony.GetApplications | src/lib.rs:82-88 | Err(NoApplications) iff the map is empty; otherwise the registry's whole map (same in src/main.rs:70-76) |
| Registry.RusTOTPony.GetApplication | src/lib.rs:90-96 | Ok iff the name is a key, with the entry stored there; otherwise NotFound for that name (same in src/main.rs:78-84) |
| Registry.MessageInjective | src/lib.rs:52-94 | the five error texts of `Registry.Message` (`Couldn't decode secret key`, `There are no applications`, `Application with name '…' already exists!`, `Application with the name '…' doesn't exist`, `Application '…' wasn't found`) are pairwise distinct, and each name-carrying text determines its name |
| Registry.RusTOTPony.DeleteAllApplications | src/lib.rs:98-100 | the map is empty afterwards (same in src/main.rs:86-88) |
| Registry.RusTOTPony.Flush | src/lib.rs:102-104 | only the store's file changes, and it then holds the saved bytes of the current map |
| Registry.FlushThenReopen | src/lib.rs:102-104 | flushing, then opening the same store, gives back the same map (given sound primitives) |
| Storage.FileSystem.Exists | src/bin/totp.rs:102-104 | `Path::exists` holds iff the path is a file of the filesystem |
| Storage.FileSystem.Write | src/lib.rs:183-195 | only the target path changes, and it then holds exactly the written bytes |
| Storage.ReadSchema | src/lib.rs:165-174 | a missing file reads as the empty schema; an encrypted file shorter than the IV fails with FileTooShort; a plain-JSON file can only fail with InvalidJson (src/main.rs:133-140) |
| Storage.SavedSchema | src/lib.rs:120-124 | the saved schema is version 1 and holds exactly the given applications |
| Storage.SavedBytes | src/lib.rs:120-124 | the encrypted store writes bytes that start with the IV; the plain-JSON store writes the UTF-8 of the saved schema's JSON (src/main.rs:142-150) |
| Storage.GetApplications | src/lib.rs:112-118 | a missing file loads as the empty map; the load succeeds iff reading the schema does |
| Storage.SaveApplications | src/lib.rs:120-124 | only the store's file changes, and it then holds the empty schema with these applications, encoded in the store's format |
| Storage.LoadAfterSave | src/lib.rs:112-124 | reading back a saved map gives the version-1 schema with exactly that map, for both stores |
| Vault.EncryptData | src/lib.rs:263-269 | the blob is the 16-byte IV followed by the cipher output for the UTF-8 bytes under the digest key |
| Vault.DecryptData | src/lib.rs:271-277 | a blob shorter than 16 bytes fails; success means the cipher accepted the bytes after the IV, under the IV in front |
| Vault.DecryptEncrypt | src/lib.rs:263-277 | decrypting an encrypted text with the same passphrase gives the text back |
| Vault.FormSecretKey | src/lib.rs:257-261 | the key formed from the passphrase is exactly `KEY_SIZE` (32) bytes, the AES-256 key length |
| Vault.DatabaseFileBytes | src/lib.rs:191-193 | the bytes written are at least 16 long and start with the IV |
| Vault.FreshIvFreshBlob | src/lib.rs:176-181 | different IVs give different blobs for the same text and passphrase |
| Vault.ReadDatabaseFile | src/lib.rs:165-174 | a missing file reads as the empty version-1 schema; a file shorter than the IV fails |
| Vault.ReadAfterSave | src/lib.rs:183-195 | reading the file just saved gives back the saved schema |
| LegacyStore.ReadLegacyFile | src/main.rs:133-140 | a missing file reads as the empty version-1 schema; the only failure is unparsable JSON |
| LegacyStore.LegacyFileBytes | src/main.rs:149 | `serde_json::to_writer` writes at least as many bytes as the JSON text has characters (its UTF-8 encoding) |
| LegacyStore.LegacyReadAfterSave | src/main.rs:142-150 | reading the plain-JSON file just saved gives back the saved schema |
| Totp.ZeroPad6 | src/main.rs:329 | a value below 10^6 prints as six digits whose decimal value is the value |
| Totp.DigitsValue | src/main.rs:329 | the zero-padded decimal digits of a value below 10^width read back as that value |
| Totp.Code | src/lib.rs:438-452 | the code is six digits whose value is the HOTP value for window `seconds / 30`, modulo 10^6 (src/main.rs:206-208 likewise) |
| Totp.SameWindowSameCode | src/main.rs:198-208 | two instants in the same 30-second window give the same code |
| Display.MillisSinceEpoch | src/bin/totp.rs:172-173 | the milliseconds split back into the seconds and the milliseconds within the second |
| Display.ScaleToBar | src/bin/totp.rs:174-175 | for a step within the window, `step * 60 / 30000` equals `step / 500` |
| Display.ProgressIndex | src/bin/totp.rs:174-175 | the index is below 60 and equals `(ms % 30000) / 500` |
| Display.PadRight | src/bin/totp.rs:176 | left-aligned padding keeps the text and fills with spaces up to the width |
| Display.ProgressBar | src/bin/totp.rs:176 | the bar is 62 characters long, bracketed, with `=` exactly at positions 1 through the index and spaces after (src/main.rs:338-346 likewise) |
| Display.Repeat | src/bin/totp.rs:217-219 | `"-".repeat(n)`: exactly n copies of the character |
| Display.MaxLength | src/bin/totp.rs:206-214 | the fold is at least its start and at least every value's byte length, and equals the start or one of those lengths |
| Display.Delimiter | src/bin/totp.rs:215-220 | the delimiter is `nameW + keyW + userW + 10` long, made of `+` and `-`, with `+` at both ends (src/main.rs:383-388 likewise) |
| Display.ColumnWidths | src/bin/totp.rs:206-214 | each column width is exactly the largest of its header's byte length (4, 3, 8) and the byte lengths of the values in that column: at least each of them, and equal to one of them (src/main.rs:374-382 likewise) |
| Display.Table | src/bin/totp.rs:215-248 | the table has count + 4 lines: the delimiter of the column widths at lines 0, 2 and last, the header row at line 1 |
| Display.Row | src/bin/totp.rs:238-246 | a row's length is the three padded field widths plus 10 |
| Display.RowFits | src/bin/totp.rs:238-246 | a row whose values fit the column widths is exactly as wide as the delimiter |
| Display.RowsFit | src/bin/totp.rs:234-247 | every application row is exactly as wide as the delimiter when the values fit |
| Display.HeaderFits | src/bin/totp.rs:222-232 | the header block is as wide as the delimiter for widths at least the header lengths 4, 3 and 8 |
| Display.ValuesFitWidths | src/bin/totp.rs:206-214 | the folded widths hold every value, since a string's byte length is at least its character count |
| Display.LayoutFits | src/bin/totp.rs:222-248 | with fitting widths, the table has count + 4 lines, all as wide as the delimiter, and line i + 3 is row i |
| Display.TableIsRectangular | src/bin/totp.rs:206-248 | the table has count + 4 lines, all as wide as the delimiter, and line i + 3 is row i padded to the column widths |
| Display.NameColumn | src/bin/totp.rs:193-196 | reference definition of the column the loop builds: element i is the name of the entry under key i of the order |
| Display.SecretColumn | src/bin/totp.rs:197-200 | reference definition of the column the loop builds: element i is the secret of the entry under key i of the order |
| Display.UsernameColumn | src/bin/totp.rs:201-204 | reference definition of the column the loop builds: element i is the username of the entry under key i of the order |
| Display.CollectColumns | src/bin/totp.rs:191-205 | the visit order lists every key exactly once; the count is the number of applications; the three columns hold the entries' fields in that order (src/main.rs:359-373 likewise) |
| Display.AppendRows | src/bin/totp.rs:234-247 | the loop appends exactly one padded row per application, in column order |
| Display.RenderTable | src/bin/totp.rs:206-248 | the printed lines are the table of the collected columns |
| Dashboard.LexReflexive | src/bin/totp.rs:149 | the string order sorted by is reflexive |
| Dashboard.LexTotal | src/bin/totp.rs:149 | the string order sorted by is total |
| Dashboard.LexTransitive | src/bin/totp.rs:149 | the string order sorted by is transitive |
| Dashboard.LexAntisymmetric | src/bin/totp.rs:149 | the string order sorted by is antisymmetric |
| Dashboard.SwapAdjacent | src/bin/totp.rs:149 | two neighbouring elements trade places; every other element and the multiset are unchanged |
| Dashboard.InsertAt | src/bin/totp.rs:149 | one sorting pass extends the sorted prefix by one element, keeps the array a permutation, and leaves every element after position i unchanged |
| Dashboard.SortKeys | src/bin/totp.rs:149 | in place, the array ends sorted and a permutation of what it held |
| Dashboard.CollectKeys | src/bin/totp.rs:148 | the collected keys are the map's keys, each once |
| Dashboard.SortedArrangementUnique | src/bin/totp.rs:148-149 | two sorted sequences with the same elements are equal, so the dashboard order does not depend on the map's iteration order |
| Dashboard.ArrangementOfKeys | src/bin/totp.rs:148 | an arrangement of the key set has one element per application, each of them a key |
| Dashboard.SortedKeys | src/bin/totp.rs:148-149 | the keys come out sorted, as a permutation of the map's keys |
| Dashboard.Frame | src/bin/totp.rs:156-160 | reference definition of one redraw: a frame is `|keys| + 1` lines: the progress bar, then `code name` for each key in order, line i + 1 computed from its own clock reading `seconds[i]`, since every `get_code` reads the clock (src/lib.rs:447-450) |
| Dashboard.FrameWithinOneWindow | src/bin/totp.rs:156-160 | when all of a frame's clock readings fall in one 30-second window, every line shows the code of the first reading |
| TotpCli.PathsUnderHome | src/bin/totp.rs:95-97 | `OldPath` and `NewPath` each start with the home directory and end with `.rustotpony/db.json` and `.rustotpony/totp.safe` respectively |
| TotpCli.PathsDiffer | src/bin/totp.rs:96-97 | the old and new database paths are never the same file |
| TotpCli.ChooseOpening | src/bin/totp.rs:102-124 | migrate iff only the old file exists; use the new one as-is iff both exist; open the new one directly iff there is no old file |
| TotpCli.App | src/bin/totp.rs:94-125 | without migration no file changes. A migration whose old file fails to load fails and changes nothing. Otherwise the new file then holds exactly the old map under the same passphrase. The old file is always kept. The result is the registry over the new store holding its loaded map; with sound primitives a migrated registry holds exactly the old map; with neither file it is empty |
| TotpCli.ShowDashboard | src/bin/totp.rs:135-166 | the error text when there are no applications; otherwise the frame over the sorted permutation of the keys, one clock reading per entry, and `lines_count` is the number of applications + 1, which is the frame's height |
| Commands.CreateCommand | src/bin/totp.rs:251-265 | the registry changes as in `Registry.Create`; the file is rewritten with the new map only on success and untouched on error; the printed line is the success or `… Aborting…` text (src/main.rs:423-432 likewise) |
| Commands.DeleteCommand | src/bin/totp.rs:267-276 | the registry changes as in `Registry.Delete`; flush only on success; the exact success or failure line (src/main.rs:434-442 likewise) |
| Commands.RenameCommand | src/bin/totp.rs:278-290 | the registry changes as in `Registry.Rename`; flush only on success; the exact success or failure line (src/main.rs:444-452 likewise) |
| Commands.EradicateCommand | src/bin/totp.rs:292-297 | the map is emptied and always flushed; prints `Done.` (src/main.rs:454-458 likewise) |
| Commands.ShowApplicationsList | src/bin/totp.rs:179-249 | the error text when there are no applications; otherwise the table of every entry in some iteration order that lists each key once, with count + 4 lines all of equal width (src/main.rs:348-417 likewise) |
| LegacyCli.DatabasePath | src/main.rs:310-313 | the path starts with the home directory (or `.`) and ends with `.rustotpony/db.json` |
| LegacyCli.MigrationSourceIsLegacyFile | src/main.rs:310-313 | the plain-JSON front end's database path is the path the encrypted front end migrates from |
| LegacyCli.CliNew | src/main.rs:216-221 | opening succeeds iff the plain-JSON file at `~/.rustotpony/db.json` loads, then holds exactly its map; a missing file gives an empty registry |
| LegacyCli.ShowApplication | src/main.rs:419-421 | the printed value is the entry under the name, or NotFound |
| LegacyCli.ShowDashboard | src/main.rs:315-336 | the error text when there are no applications; otherwise the frame over the keys in the map's order, each key once, one clock reading per entry (src/main.rs:207, 329), and `lines_count` is the frame's height |

## Left out

- AgeJsonDatabase (src/lib.rs:379-406) is not modelled, because it is a thin wrapper over the `age` crate.
- The AES-256-CBC cipher, its PKCS padding and its 4096-byte buffer loop (src/lib.rs:281-377) are not modelled. They are the foreign functions `aesEncrypt` and `aesDecrypt`.
- SHA-256, Base32 decoding (RFC 4648 alphabet, no padding), HMAC-SHA1 with the truncation of section 5.3 of RFC 4226, and JSON printing and parsing are not modelled either. They are foreign functions, and only the round trips in `Foreign.Sound` are assumed.
- Vault.EncryptData: encryption is total; the `expect("Couldn't encrypt data")` failure of the cipher is not modelled.
- The home-directory lookup is a parameter. `dirs::home_dir` (src/bin/totp.rs:95, src/lib.rs:198) and `std::env::home_dir` (src/main.rs:311) are not modelled; they differ on an empty `HOME`, which only the caller's choice of parameter can reflect.
- Entities.Join: models joining a relative path onto the base. Joining an absolute path, which makes `PathBuf::join` discard the base, is not modelled; every path joined here is a relative constant.
- The random IV from `create_iv` (src/lib.rs:176-181) is a parameter of every save.
- The clock is not modelled. The progress bar's milliseconds and the codes' seconds are separate parameters, because the source reads the clock separately for each: once for the bar, and once per entry for its code, so a dashboard frame takes one seconds reading per line (`Dashboard.Frame`), and the readings' order in time is not constrained. u64 overflow of `in_ms` is not modelled.
- Only the `NotFound` I/O error is modelled: a file is either in the map or missing. Other I/O errors are not modelled. Neither is directory creation on first save (src/lib.rs:197-212).
- `export_database` (src/bin/totp.rs:300-311) is not modelled, because it only prints the map through serde_json's pretty printer.
- The following are not modelled: `clap` parsing and the dispatch in `main`, the passphrase and secret prompts, the `ctrlc` handler, ANSI cursor movement, the welcome and migration messages, and the redraw loop with its `sleep`. The dashboard is modelled as one frame. Every command is modelled as running on a registry already opened by `TotpCli.App` or `LegacyCli.CliNew`.
- LegacyCli.ShowApplication: it returns the looked-up value rather than its `{:?}` debug text.
- Display.TableIsRectangular: column widths count UTF-8 bytes (`str::len()`) while padding counts characters. The table is proved rectangular in characters, and a non-ASCII value gets more padding than its visible width needs. This is stated, not corrected.
