/**
 * The command-line front end of the plain-JSON store (`src/main.rs`): `Cli`
 * opens `~/.rustotpony/db.json` once, with no migration, and its dashboard
 * prints the entries in the map's own (unspecified) order.  The commands
 * shared with the encrypted front end are in `Commands`.
 */
module LegacyCli {
  import opened Common
  import opened Entities
  import opened Foreign
  import opened Storage
  import opened Registry
  import Dashboard
  import TotpCli

  /** `CONFIG_PATH`, relative to the home directory. */
  const CONFIG_PATH: Path := ".rustotpony/db.json"

  /** `get_database_path`. */
  function DatabasePath(home: Option<Path>): (path: Path)
    ensures |UnwrapOr(home, HOME_FALLBACK)| + |CONFIG_PATH| <= |path|
    ensures path[..|UnwrapOr(home, HOME_FALLBACK)|] == UnwrapOr(home, HOME_FALLBACK) && path[|path| - |CONFIG_PATH|..] == CONFIG_PATH
  {
    Join(UnwrapOr(home, HOME_FALLBACK), CONFIG_PATH)
  }

  /**
   * The file this front end writes is the one the encrypted front end
   * migrates from, which it reads with the encrypted reader.
   */
  lemma MigrationSourceIsLegacyFile(home: Option<Path>)
    ensures TotpCli.OldPath(home) == DatabasePath(home)
  {
  }

  /** `Cli::new`: open the plain-JSON store; a load that panics in the source is `Err(panic)`. */
  method CliNew(p: Primitives, fs: FileSystem, home: Option<Path>) returns (r: Result<RusTOTPony, Panic>)
    ensures r.Ok? <==> GetApplications(p, LegacyJsonDatabase(DatabasePath(home)), fs.files).Ok?
    ensures r.Err? ==> r == Err(GetApplications(p, LegacyJsonDatabase(DatabasePath(home)), fs.files).error)
    ensures r.Ok? ==> fresh(r.value) && r.value.database == LegacyJsonDatabase(DatabasePath(home))
                      && r.value.applications == GetApplications(p, LegacyJsonDatabase(DatabasePath(home)), fs.files).value
    ensures DatabasePath(home) !in fs.files ==> r.Ok? && r.value.applications == map[]
  {
    var db := LegacyJsonDatabase(DatabasePath(home));
    var loaded := GetApplications(p, db, fs.files);
    if loaded.Err? {
      return Err(loaded.error);
    }
    var app := new RusTOTPony(p, db, fs);
    r := Ok(app);
  }

  /** `show_application`: the lookup result that is debug-printed. */
  method ShowApplication(app: RusTOTPony, name: string) returns (r: Result<GenApp, RegistryError>)
    ensures r.Ok? <==> name in app.applications
    ensures r.Ok? ==> r.value == app.applications[name]
    ensures r.Err? ==> r.error == NotFound(name)
  {
    r := app.GetApplication(name);
  }

  /**
   * `show_dashboard`, one frame: the error text when there is nothing to
   * show, otherwise the progress bar and one line per entry, each entry
   * exactly once, in the map's iteration order `keys`, entry i with its
   * own clock reading `seconds[i]`.
   */
  method ShowDashboard(p: Primitives, app: RusTOTPony, ms: nat, seconds: seq<nat>) returns (lines: seq<string>, linesCount: nat, keys: seq<string>)
    requires |seconds| == |app.applications|
    ensures app.GetApplications().Err? ==> lines == [Message(app.GetApplications().error)]
    ensures app.GetApplications().Ok? ==>
              && multiset(keys) == multiset(app.applications.Keys)
              && (forall i | 0 <= i < |keys| :: keys[i] in app.applications)
              && |keys| == |app.applications|
              && lines == Dashboard.Frame(p, app.applications, keys, ms, seconds)
              && linesCount == |app.applications| + 1 == |lines|
  {
    var listed := app.GetApplications();
    if listed.Err? {
      lines, linesCount, keys := [Message(listed.error)], 0, [];
      return;
    }
    var apps := listed.value;
    linesCount := |apps| + 1;
    keys := Dashboard.CollectKeys(apps);
    Dashboard.ArrangementOfKeys(keys, apps);
    lines := Dashboard.Frame(p, apps, keys, ms, seconds);
  }
}
