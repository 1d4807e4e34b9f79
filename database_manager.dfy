/** database_manager.go: one `DBService` handle per user, opened on demand
    from `<dataDir>/<userID>.db`. The data directory is the set of paths of
    the files in it. */
module DatabaseManagerModel {
  import opened Wrappers
  import opened History
  import opened MessageLog

  /** `filepath.Join(dir, name)` for a plain file name. */
  function Join(dir: string, name: string): (p: string)
    ensures dir == "" ==> p == name
    ensures dir != "" ==> |p| == |dir| + 1 + |name| && p[..|dir|] == dir && p[|dir|] == '/' && p[|dir| + 1..] == name
  {
    if dir == "" then name else dir + "/" + name
  }

  /** The file that holds user `u`'s log. */
  function DbPath(dataDir: string, u: string): (p: string)
    ensures |p| >= |u| + 3 && p[|p| - 3..] == ".db"
  {
    Join(dataDir, u + ".db")
  }

  /** Different users' logs live in different files. */
  lemma DbPathInjective(dataDir: string, u: string, v: string)
    requires DbPath(dataDir, u) == DbPath(dataDir, v)
    ensures u == v
  {
    var p := DbPath(dataDir, u);
    if dataDir == "" {
      assert u == p[..|p| - 3] == v;
    } else {
      var tail := p[|dataDir| + 1..];
      assert tail == u + ".db" && tail == v + ".db";
      assert u == tail[..|tail| - 3] == v;
    }
  }

  const CreateServiceError: string := "could not create new DB service for user "

  /** The error `NewDB` returns: the connection's, else the migration's. */
  function OpenError(connectErr: Option<string>, createErr: Option<string>, alterErr: Option<string>): (e: Option<string>)
    ensures e.None? <==> connectErr.None? && MigrationError(createErr, alterErr).None?
    ensures connectErr.Some? ==> e == connectErr
  {
    if connectErr.Some? then connectErr else MigrationError(createErr, alterErr)
  }
  const DataDirError: string := "could not create data directory: "

  class DatabaseManager {
    const dataDir: string
    /** The open handles, by user. */
    var dbs: map<string, DBService>
    /** Paths of the files in the data directory. */
    var files: set<string>

    /** Every cached handle is opened on its user's file. */
    predicate Valid()
      reads this
    {
      forall u :: u in dbs ==> dbs[u].path == DbPath(dataDir, u)
    }

    constructor (dataDir: string, files: set<string>)
      ensures this.dataDir == dataDir && dbs == map[] && this.files == files
      ensures Valid()
    {
      this.dataDir := dataDir;
      dbs := map[];
      this.files := files;
    }

    /** The user's handle: the cached one when there is one; otherwise a new
        handle on the user's file (holding `stored` when the file exists),
        cached only when `NewDB` succeeds. The error parameters are those of
        `NewDB`. */
    method GetUserDB(u: string, stored: seq<Row>, connectErr: Option<string>,
                     createErr: Option<string>, alterErr: Option<string>)
      returns (r: Result<DBService, string>)
      requires Valid()
      modifies this
      ensures Valid()
      ensures u in old(dbs) ==> r == Success(old(dbs)[u]) && dbs == old(dbs) && files == old(files)
      ensures u !in old(dbs) ==> (r.Failure? <==> connectErr.Some? || MigrationError(createErr, alterErr).Some?)
      ensures u !in old(dbs) && r.Failure? ==>
        dbs == old(dbs) && files == old(files)
        && r.error == CreateServiceError + u + ": " + OpenError(connectErr, createErr, alterErr).value
      ensures u !in old(dbs) && r.Success? ==>
        var path := DbPath(dataDir, u);
        && fresh(r.value) && r.value.path == path && r.value.open
        && r.value.rows == (if path in old(files) then stored else [])
        && dbs == old(dbs)[u := r.value] && files == old(files) + {path}
      ensures u in dbs ==> r.Success? && dbs[u] == r.value
    {
      if u in dbs {
        return Success(dbs[u]);
      }
      var path := DbPath(dataDir, u);
      var contents := if path in files then stored else [];
      var created := NewDB(path, contents, connectErr, createErr, alterErr);
      if created.Failure? {
        return Failure(CreateServiceError + u + ": " + created.error);
      }
      dbs := dbs[u := created.value];
      files := files + {path};
      r := created;
    }

    /** Closes every cached handle; the cache keeps its entries. */
    method CloseAll()
      modifies dbs.Values
      ensures forall u :: u in dbs ==> !dbs[u].open && dbs[u].rows == old(dbs[u].rows)
    {
      var pending := dbs.Keys;
      while pending != {}
        invariant pending <= dbs.Keys
        invariant forall u :: u in dbs && u !in pending ==> !dbs[u].open
        invariant forall u :: u in dbs ==> dbs[u].rows == old(dbs[u].rows)
        decreases pending
      {
        var u :| u in pending;
        dbs[u].Close();
        pending := pending - {u};
      }
    }

    /** Drops the user's cached handle, closing it; the other handles and
        the files are left alone. */
    method Evict(u: string)
      requires Valid()
      modifies this, dbs.Values
      ensures Valid()
      ensures dbs == old(dbs) - {u} && files == old(files)
      ensures u in old(dbs) ==> !old(dbs)[u].open
      ensures forall v :: v in dbs ==> dbs[v].rows == old(dbs[v].rows)
      ensures forall v :: v in dbs && (u !in old(dbs) || dbs[v] != old(dbs)[u]) ==> dbs[v].open == old(dbs[v].open)
    {
      if u in dbs {
        dbs[u].Close();
        dbs := dbs - {u};
      }
    }

    /** Removes the user's file. A missing file is not an error; a failed
        removal returns the error and leaves the file in place. */
    method RemoveFile(u: string, removeErr: Option<string>) returns (err: Option<string>)
      modifies this
      ensures dbs == old(dbs)
      ensures var path := DbPath(dataDir, u);
        if path !in old(files) then err.None? && files == old(files)
        else if removeErr.Some? then err == removeErr && files == old(files)
        else err.None? && files == old(files) - {path}
      ensures err.None? ==> DbPath(dataDir, u) !in files
    {
      var path := DbPath(dataDir, u);
      if path !in files {
        return None;
      }
      if removeErr.Some? {
        return removeErr;
      }
      files := files - {path};
      err := None;
    }

    /** Drops the user's cached handle (closing it) and removes the user's
        file. A missing file is not an error; a failed removal returns the
        error and leaves the file in place. */
    method DeleteUserDB(u: string, removeErr: Option<string>) returns (err: Option<string>)
      requires Valid()
      modifies this, dbs.Values
      ensures Valid()
      ensures dbs == old(dbs) - {u}
      ensures u in old(dbs) ==> !old(dbs)[u].open
      ensures forall v :: v in dbs ==> dbs[v].rows == old(dbs[v].rows)
      ensures forall v :: v in dbs && (u !in old(dbs) || dbs[v] != old(dbs)[u]) ==> dbs[v].open == old(dbs[v].open)
      ensures var path := DbPath(dataDir, u);
        if path !in old(files) then err.None? && files == old(files)
        else if removeErr.Some? then err == removeErr && files == old(files)
        else err.None? && files == old(files) - {path}
      ensures err.None? ==> DbPath(dataDir, u) !in files
    {
      Evict(u);
      err := RemoveFile(u, removeErr);
    }

    /** Clears the user's history through `GetUserDB`, which may first open
        the handle. `ClearHistory` is not part of this model: its outcome is
        `clearErr`. */
    method ClearUserHistory(u: string, stored: seq<Row>, connectErr: Option<string>,
                            createErr: Option<string>, alterErr: Option<string>,
                            clearErr: Option<string>) returns (err: Option<string>)
      requires Valid()
      modifies this
      ensures Valid()
      ensures u in old(dbs) ==> err == clearErr && dbs == old(dbs) && files == old(files)
      ensures u !in old(dbs) ==>
        if OpenError(connectErr, createErr, alterErr).Some? then
          err == Some(CreateServiceError + u + ": " + OpenError(connectErr, createErr, alterErr).value)
          && dbs == old(dbs) && files == old(files)
        else
          err == clearErr && u in dbs && fresh(dbs[u]) && dbs[u].open
          && dbs == old(dbs)[u := dbs[u]] && files == old(files) + {DbPath(dataDir, u)}
    {
      var db := GetUserDB(u, stored, connectErr, createErr, alterErr);
      if db.Failure? {
        return Some(db.error);
      }
      err := clearErr;
    }
  }

  /** `NewDatabaseManager`: creates the data directory (`mkdirErr` is the
      failure of `os.MkdirAll`) and an empty cache. */
  method NewDatabaseManager(dataDir: string, files: set<string>, mkdirErr: Option<string>)
    returns (r: Result<DatabaseManager, string>)
    ensures mkdirErr.Some? ==> r == Failure(DataDirError + mkdirErr.value)
    ensures mkdirErr.None? ==>
      r.Success? && fresh(r.value) && r.value.Valid()
      && r.value.dataDir == dataDir && r.value.dbs == map[] && r.value.files == files
  {
    if mkdirErr.Some? {
      return Failure(DataDirError + mkdirErr.value);
    }
    var m := new DatabaseManager(dataDir, files);
    r := Success(m);
  }
}
