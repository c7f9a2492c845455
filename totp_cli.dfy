/**
 * The command-line front end of the encrypted store (`src/bin/totp.rs`):
 * opening the database, with the one-time migration from the old file
 * `~/.rustotpony/db.json` to `~/.rustotpony/totp.safe`, and the dashboard
 * frame in sorted key order.  Every command first opens the store with
 * `App`; the commands themselves are in `Commands`.  The passphrase prompt,
 * the random IV and the clock are parameters.
 */
module TotpCli {
  import opened Common
  import opened Entities
  import opened Foreign
  import opened Storage
  import opened Registry
  import Vault
  import Dashboard

  /** The database the first releases wrote, relative to the home directory. */
  const OLD_DATABASE: Path := ".rustotpony/db.json"
  /** The database this release reads and writes. */
  const NEW_DATABASE: Path := ".rustotpony/totp.safe"

  function OldPath(home: Option<Path>): (path: Path)
  {
    Join(UnwrapOr(home, HOME_FALLBACK), OLD_DATABASE)
  }

  function NewPath(home: Option<Path>): (path: Path)
  {
    Join(UnwrapOr(home, HOME_FALLBACK), NEW_DATABASE)
  }

  /** Both database files lie under the home directory, at their fixed relative paths. */
  lemma PathsUnderHome(home: Option<Path>)
    ensures |UnwrapOr(home, HOME_FALLBACK)| + |OLD_DATABASE| <= |OldPath(home)| && |UnwrapOr(home, HOME_FALLBACK)| + |NEW_DATABASE| <= |NewPath(home)|
    ensures OldPath(home)[..|UnwrapOr(home, HOME_FALLBACK)|] == UnwrapOr(home, HOME_FALLBACK) && NewPath(home)[..|UnwrapOr(home, HOME_FALLBACK)|] == UnwrapOr(home, HOME_FALLBACK)
    ensures OldPath(home)[|OldPath(home)| - |OLD_DATABASE|..] == OLD_DATABASE
    ensures NewPath(home)[|NewPath(home)| - |NEW_DATABASE|..] == NEW_DATABASE
  {
  }

  /** The old and new files can never be the same file. */
  lemma PathsDiffer(home: Option<Path>)
    ensures OldPath(home) != NewPath(home)
  {
    assert |OldPath(home)| != |NewPath(home)|;
  }

  /** Both files are opened as encrypted stores under the one passphrase. */
  function OldDatabase(home: Option<Path>, secret: string): Database
  {
    JsonDatabase(OldPath(home), secret)
  }

  function NewDatabase(home: Option<Path>, secret: string): Database
  {
    JsonDatabase(NewPath(home), secret)
  }

  /** How `app()` opens the store, from which of the two files exist. */
  datatype Opening =
    | BothFound   // both exist: use the new one, leave the old one alone
    | Migrate     // only the old one exists: copy its applications into the new one
    | OpenNew     // no old file: open the new one (missing means empty)

  function ChooseOpening(oldExists: bool, newExists: bool): (o: Opening)
    ensures o == Migrate <==> oldExists && !newExists
    ensures o == BothFound <==> oldExists && newExists
    ensures o == OpenNew <==> !oldExists
  {
    if oldExists then (if newExists then BothFound else Migrate) else OpenNew
  }

  /** Whether opening from `files` migrates the old database. */
  predicate Migrates(files: map<Path, seq<byte>>, home: Option<Path>)
  {
    ChooseOpening(OldPath(home) in files, NewPath(home) in files) == Migrate
  }

  /**
   * `app()`: open the new store, first migrating the old one when only it
   * exists.  A load that panics in the source is `Err(panic)` here.  The
   * old file is never removed or changed.
   */
  method App(p: Primitives, fs: FileSystem, home: Option<Path>, secret: string, iv: Vault.Iv) returns (r: Result<RusTOTPony, Panic>)
    modifies fs
    ensures !Migrates(old(fs.files), home) ==> fs.files == old(fs.files)
    ensures Migrates(old(fs.files), home) && GetApplications(p, OldDatabase(home, secret), old(fs.files)).Err? ==>
              fs.files == old(fs.files) && r == Err(GetApplications(p, OldDatabase(home, secret), old(fs.files)).error)
    ensures Migrates(old(fs.files), home) && GetApplications(p, OldDatabase(home, secret), old(fs.files)).Ok? ==>
              fs.files == old(fs.files)[NewPath(home) := SavedBytes(p, NewDatabase(home, secret), GetApplications(p, OldDatabase(home, secret), old(fs.files)).value, iv)]
    ensures OldPath(home) in old(fs.files) ==> OldPath(home) in fs.files && fs.files[OldPath(home)] == old(fs.files)[OldPath(home)]
    ensures r.Ok? <==>
              !(Migrates(old(fs.files), home) && GetApplications(p, OldDatabase(home, secret), old(fs.files)).Err?)
              && GetApplications(p, NewDatabase(home, secret), fs.files).Ok?
    ensures r.Ok? ==> fresh(r.value) && r.value.database == NewDatabase(home, secret)
                      && Ok(r.value.applications) == GetApplications(p, NewDatabase(home, secret), fs.files)
    ensures Sound(p) && Migrates(old(fs.files), home) && GetApplications(p, OldDatabase(home, secret), old(fs.files)).Ok? ==>
              r.Ok? && r.value.applications == GetApplications(p, OldDatabase(home, secret), old(fs.files)).value
    ensures OldPath(home) !in old(fs.files) && NewPath(home) !in old(fs.files) ==> r.Ok? && r.value.applications == map[]
  {
    PathsDiffer(home);
    var oldPath, newPath := OldPath(home), NewPath(home);
    var newDb := NewDatabase(home, secret);
    if fs.Exists(oldPath) && !fs.Exists(newPath) {
      var oldDb := OldDatabase(home, secret);
      var apps := GetApplications(p, oldDb, fs.files);
      if apps.Err? {
        return Err(apps.error);
      }
      ghost var before := fs.files;
      SaveApplications(p, newDb, fs, apps.value, iv);
      if Sound(p) {
        LoadAfterSave(p, newDb, before, apps.value, iv);
      }
    }
    var loaded := GetApplications(p, newDb, fs.files);
    if loaded.Err? {
      return Err(loaded.error);
    }
    var app := new RusTOTPony(p, newDb, fs);
    r := Ok(app);
  }

  /**
   * `show_dashboard`, one frame: the error text when there is nothing to
   * show, otherwise the progress bar and one `"{code} {name}"` line per entry
   * in sorted key order, entry i with its own clock reading `seconds[i]`;
   * `linesCount` is the frame's height.
   */
  method ShowDashboard(p: Primitives, app: RusTOTPony, ms: nat, seconds: seq<nat>) returns (lines: seq<string>, linesCount: nat, keys: seq<string>)
    requires |seconds| == |app.applications|
    ensures app.GetApplications().Err? ==> lines == [Message(app.GetApplications().error)]
    ensures app.GetApplications().Ok? ==>
              && Dashboard.Sorted(keys) && multiset(keys) == multiset(app.applications.Keys)
              && (forall i | 0 <= i < |keys| :: keys[i] in app.applications)
              && |keys| == |app.applications|
              && lines == Dashboard.Frame(p, app.applications, keys, ms, seconds)
              && linesCount == |app.applications| + 1 == |lines|
  {
    var listed := app.GetApplications();
    if listed.Err? {
      lines, linesCount, keys := [Message(listed.error)], 0, [];
      return;
    }
    var apps := listed.value;
    linesCount := |apps| + 1;
    keys := Dashboard.SortedKeys(apps);
    lines := Dashboard.Frame(p, apps, keys, ms, seconds);
  }
}
