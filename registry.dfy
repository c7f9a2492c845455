/**
 * The application registry `RusTOTPony`: an in-memory map from names to
 * entries over a `Database`, with create, delete, rename, get, list and
 * clear, and an explicit `flush` that rewrites the whole store.  The
 * library and the older binary carry the same registry; it is modelled
 * once, with the store as a parameter.
 *
 * Each operation is first given as a function on the map (its result and
 * the new map); the class methods are proved against those functions.
 */
module Registry {
  import opened Common
  import opened Entities
  import opened Foreign
  import opened Storage
  import Vault

  datatype RegistryError =
    | CouldNotDecode
    | AlreadyExists(name: string)
    | DoesNotExist(name: string)
    | NotFound(name: string)
    | NoApplications

  /** The error texts the registry returns. */
  function Message(e: RegistryError): string
  {
    match e
    case CouldNotDecode => "Couldn't decode secret key"
    case AlreadyExists(name) => "Application with name '" + name + "' already exists!"
    case DoesNotExist(name) => "Application with the name '" + name + "' doesn't exist"
    case NotFound(name) => "Application '" + name + "' wasn't found"
    case NoApplications => "There are no applications"
  }

  /** Text wrapped in a fixed prefix and suffix determines what was wrapped. */
  lemma UnwrapName(prefix: string, n1: string, n2: string, suffix: string)
    requires prefix + n1 + suffix == prefix + n2 + suffix
    ensures n1 == n2
  {
    var m := prefix + n1 + suffix;
    assert |n1| == |n2|;
    assert n1 == m[|prefix|..|prefix| + |n1|] == n2;
  }

  /** Each error has its own text: the printed message tells which error, and for which name. */
  lemma {:induction false} MessageInjective(e1: RegistryError, e2: RegistryError)
    requires Message(e1) == Message(e2)
    ensures e1 == e2
  {
    var m := Message(e1);
    match e1
    case CouldNotDecode =>
      assert m[0] == 'C';
    case NoApplications =>
      assert m[0] == 'T';
    case AlreadyExists(n1) =>
      assert m[0] == 'A' && m[12] == 'w' && m[17] == 'n';
      if e2.AlreadyExists? {
        UnwrapName("Application with name '", n1, e2.name, "' already exists!");
      }
    case DoesNotExist(n1) =>
      assert m[0] == 'A' && m[12] == 'w' && m[17] == 't';
      if e2.DoesNotExist? {
        UnwrapName("Application with the name '", n1, e2.name, "' doesn't exist");
      }
    case NotFound(n1) =>
      assert m[0] == 'A' && m[12] == '\'';
      if e2.NotFound? {
        UnwrapName("Application '", n1, e2.name, "' wasn't found");
      }
  }

  /** What a mutating operation returns, and the map it leaves. */
  datatype Change = Change(result: Result<(), RegistryError>, apps: Applications)

  /**
   * `create_application`: the secret is decoded first, so an undecodable
   * secret is reported even when the name is taken; then a taken name is
   * refused; otherwise exactly one entry is added under `name`.
   */
  function Create(decode: string -> Option<seq<byte>>, apps: Applications, name: string, username: string, secret: string): (c: Change)
    ensures c.result.Ok? <==> decode(secret).Some? && name !in apps
    ensures c.result == Err(CouldNotDecode) <==> decode(secret).None?
    ensures c.result == Err(AlreadyExists(name)) <==> decode(secret).Some? && name in apps
    ensures c.result.Err? ==> c.apps == apps
    ensures c.result.Ok? ==> c.apps.Keys == apps.Keys + {name} && |c.apps| == |apps| + 1
    ensures c.result.Ok? ==> c.apps[name] == GenApp(name, secret, username, decode(secret).value)
    ensures forall k :: k in apps ==> k in c.apps && c.apps[k] == apps[k]
  {
    match decode(secret)
    case None => Change(Err(CouldNotDecode), apps)
    case Some(secretBytes) =>
      var newApp := NewGenApp(name, username, secret, secretBytes);
      if name in apps then Change(Err(AlreadyExists(name)), apps)
      else Change(Ok(()), apps[name := newApp])
  }

  /** `delete_application`: succeeds iff the key exists, and removes that key alone. */
  function Delete(apps: Applications, name: string): (c: Change)
    ensures c.result.Ok? <==> name in apps
    ensures c.result.Err? ==> c.result.error == DoesNotExist(name) && c.apps == apps
    ensures c.apps.Keys == apps.Keys - {name}
    ensures forall k :: k in c.apps ==> c.apps[k] == apps[k]
  {
    if name in apps then Change(Ok(()), apps - {name}) else Change(Err(DoesNotExist(name)), apps)
  }

  /**
   * `rename_application`: overwrites the `name` field of the entry stored
   * under `name`.  The map is not re-keyed and `newname` is not checked
   * against the other entries.
   */
  function Rename(apps: Applications, name: string, newname: string): (c: Change)
    ensures c.result.Ok? <==> name in apps
    ensures c.result.Err? ==> c.result.error == NotFound(name) && c.apps == apps
    ensures c.apps.Keys == apps.Keys
    ensures forall k :: k in apps && k != name ==> c.apps[k] == apps[k]
    ensures name in apps ==> c.apps[name] == apps[name].(name := newname)
  {
    if name in apps then Change(Ok(()), apps[name := apps[name].(name := newname)])
    else Change(Err(NotFound(name)), apps)
  }

  /** `get_applications`: the whole map, or an error when it is empty. */
  function List(apps: Applications): (r: Result<Applications, RegistryError>)
    ensures r.Err? <==> |apps| == 0
    ensures r.Err? ==> r.error == NoApplications
    ensures r.Ok? ==> r.value == apps
  {
    if |apps| == 0 then Err(NoApplications) else Ok(apps)
  }

  /** `get_application`: the entry stored under `name`, if any. */
  function Lookup(apps: Applications, name: string): (r: Result<GenApp, RegistryError>)
    ensures r.Ok? <==> name in apps
    ensures r.Ok? ==> r.value == apps[name]
    ensures r.Err? ==> r.error == NotFound(name)
  {
    if name in apps then Ok(apps[name]) else Err(NotFound(name))
  }

  /** Every stored entry's bytes are the decoding of its text secret. */
  ghost predicate SecretsDecoded(decode: string -> Option<seq<byte>>, apps: Applications)
  {
    forall k :: k in apps ==> decode(apps[k].secret) == Some(apps[k].secretBytes)
  }

  /** Every entry's `name` field equals the key it is stored under. */
  ghost predicate KeyedByName(apps: Applications)
  {
    forall k :: k in apps ==> apps[k].name == k
  }

  /** Create, delete and rename keep every entry's bytes equal to its decoded secret. */
  lemma SecretsStayDecoded(decode: string -> Option<seq<byte>>, apps: Applications, name: string, newname: string, username: string, secret: string)
    requires SecretsDecoded(decode, apps)
    ensures SecretsDecoded(decode, Create(decode, apps, name, username, secret).apps)
    ensures SecretsDecoded(decode, Delete(apps, name).apps)
    ensures SecretsDecoded(decode, Rename(apps, name, newname).apps)
  {
    var c := Create(decode, apps, name, username, secret);
    forall k | k in c.apps
      ensures decode(c.apps[k].secret) == Some(c.apps[k].secretBytes)
    {
      if k !in apps {
        assert k == name;
      }
    }
  }

  /** Create and delete keep entries keyed by their own names. */
  lemma CreateDeleteKeepKeying(decode: string -> Option<seq<byte>>, apps: Applications, name: string, username: string, secret: string)
    requires KeyedByName(apps)
    ensures KeyedByName(Create(decode, apps, name, username, secret).apps)
    ensures KeyedByName(Delete(apps, name).apps)
  {
    var c := Create(decode, apps, name, username, secret);
    forall k | k in c.apps
      ensures c.apps[k].name == k
    {
      if k !in apps {
        assert k == name;
      }
    }
  }

  /**
   * Rename to a different name leaves the entry under its old key: the old
   * key still finds it (now carrying the new name), the new name is still
   * not a key, and entries are no longer keyed by their names.
   */
  lemma RenameDoesNotRekey(apps: Applications, name: string, newname: string)
    requires name in apps && newname !in apps && newname != name
    ensures var renamed := Rename(apps, name, newname).apps;
      && Lookup(renamed, name).Ok? && Lookup(renamed, name).value.name == newname
      && Lookup(renamed, newname) == Err(NotFound(newname))
      && !KeyedByName(renamed)
  {
  }

  /**
   * Renaming onto a name another entry already has is accepted, and leaves
   * two entries with the same `name` field.
   */
  lemma RenameOntoTakenName(apps: Applications, name: string, other: string)
    requires KeyedByName(apps) && name in apps && other in apps && name != other
    ensures var c := Rename(apps, name, other);
      && c.result.Ok? && |c.apps| == |apps|
      && c.apps[name].name == other && c.apps[other].name == other
  {
  }

  /** Deleting what a successful create added restores the map it started from. */
  lemma CreateThenDelete(decode: string -> Option<seq<byte>>, apps: Applications, name: string, username: string, secret: string)
    requires Create(decode, apps, name, username, secret).result.Ok?
    ensures Delete(Create(decode, apps, name, username, secret).apps, name) == Change(Ok(()), apps)
  {
    var created := Create(decode, apps, name, username, secret).apps;
    assert created - {name} == apps;
  }

  /** Renaming back to the original name restores the map. */
  lemma RenameBack(apps: Applications, name: string, newname: string)
    requires name in apps
    ensures Rename(Rename(apps, name, newname).apps, name, apps[name].name) == Change(Ok(()), apps)
  {
    var once := Rename(apps, name, newname).apps;
    assert once[name := once[name].(name := apps[name].name)] == apps;
  }

  class RusTOTPony {
    const database: Database
    var applications: Applications

    /** `RusTOTPony::new`: load the applications from the store (which panics on an unreadable file). */
    constructor (p: Primitives, db: Database, fs: FileSystem)
      requires Storage.GetApplications(p, db, fs.files).Ok?
      ensures database == db
      ensures applications == Storage.GetApplications(p, db, fs.files).value
    {
      database := db;
      applications := Storage.GetApplications(p, db, fs.files).value;
    }

    method CreateApplication(p: Primitives, name: string, username: string, secret: string) returns (r: Result<(), RegistryError>)
      modifies this
      ensures Change(r, applications) == Create(p.base32Decode, old(applications), name, username, secret)
    {
      var secretBytes := p.base32Decode(secret);
      if secretBytes.Some? {
        var newApp := NewGenApp(name, username, secret, secretBytes.value);
        if name in applications {
          r := Err(AlreadyExists(name));
        } else {
          applications := applications[name := newApp];
          r := Ok(());
        }
      } else {
        r := Err(CouldNotDecode);
      }
    }

    method DeleteApplication(name: string) returns (r: Result<(), RegistryError>)
      modifies this
      ensures Change(r, applications) == Delete(old(applications), name)
    {
      if name in applications {
        applications := applications - {name};
        r := Ok(());
      } else {
        r := Err(DoesNotExist(name));
      }
    }

    method RenameApplication(name: string, newname: string) returns (r: Result<(), RegistryError>)
      modifies this
      ensures Change(r, applications) == Rename(old(applications), name, newname)
    {
      if name in applications {
        var app := applications[name];
        applications := applications[name := app.(name := newname)];
        r := Ok(());
      } else {
        r := Err(NotFound(name));
      }
    }

    function GetApplications(): (r: Result<Applications, RegistryError>)
      reads this
      ensures r.Err? <==> |applications| == 0
      ensures r.Err? ==> r.error == NoApplications
      ensures r.Ok? ==> r.value == applications
    {
      List(applications)
    }

    function GetApplication(name: string): (r: Result<GenApp, RegistryError>)
      reads this
      ensures r.Ok? <==> name in applications
      ensures r.Ok? ==> r.value == applications[name]
      ensures r.Err? ==> r.error == NotFound(name)
    {
      Lookup(applications, name)
    }

    method DeleteAllApplications()
      modifies this
      ensures applications == map[]
    {
      applications := map[];
    }

    /** `flush`: write the whole map back through the store; `iv` stands for the random IV. */
    method Flush(p: Primitives, fs: FileSystem, iv: Vault.Iv)
      modifies fs
      ensures fs.files == old(fs.files)[database.filePath := SavedBytes(p, database, applications, iv)]
    {
      SaveApplications(p, database, fs, applications, iv);
    }
  }

  /** `flush` followed by `new` on the same store restores the same map. */
  method FlushThenReopen(p: Primitives, app: RusTOTPony, fs: FileSystem, iv: Vault.Iv) returns (reopened: RusTOTPony)
    requires Sound(p)
    modifies fs
    ensures reopened.database == app.database && reopened.applications == app.applications
  {
    app.Flush(p, fs, iv);
    LoadAfterSave(p, app.database, old(fs.files), app.applications, iv);
    reopened := new RusTOTPony(p, app.database, fs);
  }
}
