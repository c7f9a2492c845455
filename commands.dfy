/**
 * The commands both front ends offer (`src/bin/totp.rs` as functions,
 * `src/main.rs` as methods of `Cli`, with the same texts): run one registry
 * operation on an opened store, flush only when it succeeded, and return the
 * line printed; and the listing table.  Printed output is returned as lines.
 */
module Commands {
  import opened Common
  import opened Foreign
  import opened Storage
  import opened Registry
  import Vault
  import Display

  /** `create_application`: add, flush on success, report. */
  method CreateCommand(p: Primitives, app: RusTOTPony, fs: FileSystem, name: string, username: Option<string>, secret: string, iv: Vault.Iv)
    returns (r: Result<(), RegistryError>, line: string)
    modifies app, fs
    ensures Change(r, app.applications) == Create(p.base32Decode, old(app.applications), name, UnwrapOr(username, ""), secret)
    ensures r.Ok? ==> fs.files == old(fs.files)[app.database.filePath := SavedBytes(p, app.database, app.applications, iv)]
    ensures r.Err? ==> fs.files == old(fs.files)
    ensures line == if r.Ok? then "New application created: " + name else Message(r.error) + " Aborting…"
  {
    r := app.CreateApplication(p, name, UnwrapOr(username, ""), secret);
    if r.Ok? {
      app.Flush(p, fs, iv);
      line := "New application created: " + name;
    } else {
      line := Message(r.error) + " Aborting…";
    }
  }

  /** `delete_application`: delete, flush on success, report. */
  method DeleteCommand(p: Primitives, app: RusTOTPony, fs: FileSystem, name: string, iv: Vault.Iv)
    returns (r: Result<(), RegistryError>, line: string)
    modifies app, fs
    ensures Change(r, app.applications) == Delete(old(app.applications), name)
    ensures r.Ok? ==> fs.files == old(fs.files)[app.database.filePath := SavedBytes(p, app.database, app.applications, iv)]
    ensures r.Err? ==> fs.files == old(fs.files)
    ensures line == if r.Ok? then "Application '" + name + "' successfully deleted"
                    else "Couldn't delete application '" + name + "': " + Message(r.error)
  {
    r := app.DeleteApplication(name);
    if r.Ok? {
      app.Flush(p, fs, iv);
      line := "Application '" + name + "' successfully deleted";
    } else {
      line := "Couldn't delete application '" + name + "': " + Message(r.error);
    }
  }

  /** `rename_application`: rename, flush on success, report. */
  method RenameCommand(p: Primitives, app: RusTOTPony, fs: FileSystem, name: string, newname: string, iv: Vault.Iv)
    returns (r: Result<(), RegistryError>, line: string)
    modifies app, fs
    ensures Change(r, app.applications) == Rename(old(app.applications), name, newname)
    ensures r.Ok? ==> fs.files == old(fs.files)[app.database.filePath := SavedBytes(p, app.database, app.applications, iv)]
    ensures r.Err? ==> fs.files == old(fs.files)
    ensures line == if r.Ok? then "Application '" + name + "' successfully renamed to '" + newname + "'"
                    else "Couldn't rename application '" + name + "': " + Message(r.error)
  {
    r := app.RenameApplication(name, newname);
    if r.Ok? {
      app.Flush(p, fs, iv);
      line := "Application '" + name + "' successfully renamed to '" + newname + "'";
    } else {
      line := "Couldn't rename application '" + name + "': " + Message(r.error);
    }
  }

  /** `eradicate_database`: empty the map and always flush. */
  method EradicateCommand(p: Primitives, app: RusTOTPony, fs: FileSystem, iv: Vault.Iv) returns (line: string)
    modifies app, fs
    ensures app.applications == map[]
    ensures fs.files == old(fs.files)[app.database.filePath := SavedBytes(p, app.database, map[], iv)]
    ensures line == "Done."
  {
    app.DeleteAllApplications();
    app.Flush(p, fs, iv);
    line := "Done.";
  }

  /**
   * `show_applications_list`: the error text when there is nothing to list,
   * otherwise the table of every entry, in the map's iteration order
   * `order`; the table is rectangular and has one row per entry.
   */
  method ShowApplicationsList(app: RusTOTPony) returns (lines: seq<string>, ghost order: seq<string>)
    ensures app.GetApplications().Err? ==> lines == [Message(app.GetApplications().error)]
    ensures app.GetApplications().Ok? ==>
              && Display.Enumerates(order, app.applications)
              && (forall i | 0 <= i < |order| :: order[i] in app.applications)
              && lines == Display.Table(Display.NameColumn(app.applications, order),
                                        Display.SecretColumn(app.applications, order),
                                        Display.UsernameColumn(app.applications, order))
    ensures app.GetApplications().Ok? ==> |lines| == |app.applications| + 4
                                          && forall i | 0 <= i < |lines| :: |lines[i]| == |lines[0]|
  {
    var listed := app.GetApplications();
    if listed.Err? {
      lines, order := [Message(listed.error)], [];
      return;
    }
    var names, keys, usernames, count;
    names, keys, usernames, count, order := Display.CollectColumns(listed.value);
    lines := Display.RenderTable(names, keys, usernames, count);
    Display.TableIsRectangular(names, keys, usernames);
  }

}
