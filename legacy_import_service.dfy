/** DirectoryDataImportServiceBean: the older import run. It walks the same
    subdirectories as the import service, but it imports the `.xls` files of
    each through the Path overload of `execute`, fires no events, writes no
    log items, and never closes the connections it opens.

    Inside a directory the first `execute` that throws abandons the rest of
    that directory; the exception is caught (and only logged) by the handler
    around the directory, and the loop moves on to the next one. */
module LegacyImportService {
  import opened Common
  import opened DbUnitExecutor
  import opened Environment

  // ------------------------------------------------------ the files of one directory

  /** The files `execute` was called on, the database actions those calls
      took, and the exception that ended the walk early, if any. */
  datatype FilesRun = FilesRun(called: seq<Entry>, actions: seq<DbAction>, thrown: Option<Exception>)

  /** `tmp.forEach(file -> execute(connection, operation, file))` over `files`
      in listing order, stopping at the first call that throws. */
  function XlsImport(execute: Executor, c: Connection, files: seq<Entry>): (run: FilesRun)
    ensures |run.called| <= |files|
    ensures forall j :: 0 <= j < |run.called| ==> run.called[j] == files[j]
    ensures run.thrown.None? ==> |run.called| == |files|
  {
    if files == [] then FilesRun([], [], None)
    else
      var init := files[..|files| - 1];
      var prev := XlsImport(execute, c, init);
      assert init[..|prev.called|] == files[..|prev.called|];
      if prev.thrown.Some? then prev
      else
        var last := files[|files| - 1];
        var outcome := execute(c, last.path);
        assert init + [last] == files;
        FilesRun(prev.called + [last], prev.actions + Runs(outcome.applied), outcome.thrown)
  }

  lemma XlsImportSnoc(execute: Executor, c: Connection, files: seq<Entry>, k: nat)
    requires k < |files|
    ensures var prev := XlsImport(execute, c, files[..k]);
      XlsImport(execute, c, files[..k + 1]) ==
        if prev.thrown.Some? then prev
        else
          var outcome := execute(c, files[k].path);
          FilesRun(prev.called + [files[k]], prev.actions + Runs(outcome.applied), outcome.thrown)
  {
    assert files[..k + 1][..k] == files[..k];
  }

  /** The walk calls `execute` on a prefix of the files, in order: on all of
      them when none throws; otherwise every call before the last returned
      normally and the last one threw the exception that ended the walk. */
  lemma {:induction false} XlsImportStopsAtFirstFailure(execute: Executor, c: Connection, files: seq<Entry>)
    ensures var run := XlsImport(execute, c, files);
      && run.called == files[..|run.called|]
      && (run.thrown.None? ==> run.called == files)
      && (forall j :: 0 <= j < |run.called| - 1 ==> execute(c, run.called[j].path).thrown.None?)
      && (run.thrown.None? ==> forall j :: 0 <= j < |run.called| ==> execute(c, run.called[j].path).thrown.None?)
      && (run.thrown.Some? ==> run.called != [] && run.thrown == execute(c, run.called[|run.called| - 1].path).thrown)
  {
    if files != [] {
      var init := files[..|files| - 1];
      XlsImportStopsAtFirstFailure(execute, c, init);
      var prev := XlsImport(execute, c, init);
      assert init[..|prev.called|] == files[..|prev.called|];
      if prev.thrown.None? {
        assert prev.called + [files[|files| - 1]] == files;
      }
    }
  }

  /** Every action of `actions` runs an operation. */
  predicate OnlyRuns(actions: seq<DbAction>)
  {
    forall i :: 0 <= i < |actions| ==> actions[i].Run?
  }

  /** The walk takes no action on the database other than running
      operations. */
  lemma {:induction false} XlsImportOnlyRuns(execute: Executor, c: Connection, files: seq<Entry>)
    ensures OnlyRuns(XlsImport(execute, c, files).actions)
  {
    if files != [] {
      var init := files[..|files| - 1];
      XlsImportOnlyRuns(execute, c, init);
      var prev := XlsImport(execute, c, init);
      if prev.thrown.None? {
        var outcome := execute(c, files[|files| - 1].path);
        RunsAreRuns(outcome.applied);
        var actions := prev.actions + Runs(outcome.applied);
        assert XlsImport(execute, c, files).actions == actions;
        forall i | 0 <= i < |actions| ensures actions[i].Run? {
          if i < |prev.actions| {
            assert actions[i] == prev.actions[i];
          } else {
            assert actions[i] == Runs(outcome.applied)[i - |prev.actions|];
          }
        }
      }
    }
  }

  /** The body of `forEach`: each file in turn, until one throws. */
  method ImportFiles(execute: Executor, c: Connection, files: seq<Entry>, db: Database)
    returns (thrown: Option<Exception>, ghost called: seq<Entry>)
    modifies db`history
    ensures thrown == XlsImport(execute, c, files).thrown
    ensures called == XlsImport(execute, c, files).called
    ensures db.history == old(db.history) + XlsImport(execute, c, files).actions
  {
    thrown, called := None, [];
    for k := 0 to |files|
      invariant thrown == XlsImport(execute, c, files[..k]).thrown
      invariant called == XlsImport(execute, c, files[..k]).called
      invariant db.history == old(db.history) + XlsImport(execute, c, files[..k]).actions
    {
      XlsImportSnoc(execute, c, files, k);
      if thrown.None? {
        var outcome := execute(c, files[k].path);
        db.Record(Runs(outcome.applied));
        called := called + [files[k]];
        thrown := outcome.thrown;
      }
    }
    assert files[..|files|] == files;
  }

  // ------------------------------------------------------------ one directory

  /** What processing one subdirectory does: the files `execute` was called
      on, the database actions, and the exception the handler caught. */
  datatype LegacyRun = LegacyRun(called: seq<Entry>, actions: seq<DbAction>, error: Option<Exception>)

  /** One iteration of the legacy loop: the connection is acquired and never
      released; the `.xls` regular files of the directory are imported with
      it; a listing that fails or an `execute` that throws is caught. */
  function LegacyDirectory(env: Env, execute: Executor, entry: Entry): LegacyRun
  {
    match DirectoryConnection(env, entry.path)
    case Err(e) => LegacyRun([], [], Some(e))
    case Ok(c) =>
      if !entry.isDirectory then LegacyRun([], [Acquire(c)], None)
      else match env.listing(entry.path)
        case Err(e) => LegacyRun([], [Acquire(c)], Some(e))
        case Ok(entries) =>
          var run := XlsImport(execute, c, MatchingFiles(entries, ".xls"));
          LegacyRun(run.called, [Acquire(c)] + run.actions, run.thrown)
  }

  /** Only regular `.xls` files of the directory's own listing are passed to
      `execute`, in listing order; a directory that connects acquires one
      connection, first, then only runs operations, and never releases it. */
  lemma LegacyDirectoryShape(env: Env, execute: Executor, entry: Entry)
    ensures var run := LegacyDirectory(env, execute, entry);
      && (run.called != [] ==>
            && entry.isDirectory
            && env.listing(entry.path).Ok?
            && forall f :: f in run.called ==>
                 f in env.listing(entry.path).value && f.isRegularFile && MatchesGlob(f.path, ".xls"))
      && match DirectoryConnection(env, entry.path)
         case Err(e) => run.actions == [] && run.error == Some(e)
         case Ok(c) =>
           && run.actions != []
           && run.actions[0] == Acquire(c)
           && (forall i :: 0 < i < |run.actions| ==> run.actions[i].Run?)
           && Replay(run.actions, false) == Some(true)
  {
    match DirectoryConnection(env, entry.path)
    case Err(_) =>
    case Ok(c) =>
      if entry.isDirectory && env.listing(entry.path).Ok? {
        var files := MatchingFiles(env.listing(entry.path).value, ".xls");
        XlsImportStopsAtFirstFailure(execute, c, files);
        XlsImportOnlyRuns(execute, c, files);
        var run := XlsImport(execute, c, files);
        forall f | f in run.called ensures f in files {
          var j :| 0 <= j < |run.called| && run.called[j] == f;
          assert files[j] == f;
        }
        ReplayConcat([Acquire(c)], run.actions, false);
        OnlyRunsWhileHolding(run.actions);
        var actions := [Acquire(c)] + run.actions;
        forall i | 0 < i < |actions| ensures actions[i].Run? {
          assert actions[i] == run.actions[i - 1];
        }
      }
  }

  /** Operations run on a held connection keep it held. */
  lemma {:induction false} OnlyRunsWhileHolding(actions: seq<DbAction>)
    requires forall i :: 0 <= i < |actions| ==> actions[i].Run?
    ensures Replay(actions, true) == Some(true)
  {
    if actions != [] {
      assert actions[0].Run?;
      assert forall i :: 0 <= i < |actions[1..]| ==> actions[1..][i] == actions[i + 1];
      OnlyRunsWhileHolding(actions[1..]);
    }
  }

  /** The body of the legacy loop for one subdirectory. */
  method LegacyOne(env: Env, execute: Executor, entry: Entry, db: Database)
    returns (error: Option<Exception>, ghost called: seq<Entry>)
    modifies db`history
    ensures error == LegacyDirectory(env, execute, entry).error
    ensures called == LegacyDirectory(env, execute, entry).called
    ensures db.history == old(db.history) + LegacyDirectory(env, execute, entry).actions
  {
    error, called := None, [];
    match DirectoryConnection(env, entry.path) {
      case Err(e) =>
        error := Some(e);
      case Ok(connection) =>
        db.Record([Acquire(connection)]);
        if entry.isDirectory {
          match env.listing(entry.path) {
            case Err(e) =>
              error := Some(e);
            case Ok(entries) =>
              error, called := ImportFiles(execute, connection, MatchingFiles(entries, ".xls"), db);
          }
        }
    }
  }

  // ---------------------------------------------------------------- the loop

  /** The database actions of the legacy loop over `dirs`, in order. */
  function LegacyActions(env: Env, execute: Executor, dirs: seq<Entry>): seq<DbAction>
  {
    if dirs == [] then []
    else LegacyActions(env, execute, dirs[..|dirs| - 1]) + LegacyDirectory(env, execute, dirs[|dirs| - 1]).actions
  }

  lemma LegacyActionsSnoc(env: Env, execute: Executor, dirs: seq<Entry>, k: nat)
    requires k < |dirs|
    ensures LegacyActions(env, execute, dirs[..k + 1]) ==
      LegacyActions(env, execute, dirs[..k]) + LegacyDirectory(env, execute, dirs[k]).actions
  {
    assert dirs[..k + 1][..k] == dirs[..k];
  }

  /** The legacy run never releases a connection. */
  lemma {:induction false} LegacyNeverReleases(env: Env, execute: Executor, dirs: seq<Entry>)
    ensures forall i :: 0 <= i < |LegacyActions(env, execute, dirs)| ==> !LegacyActions(env, execute, dirs)[i].Release?
  {
    if dirs != [] {
      var init := dirs[..|dirs| - 1];
      LegacyNeverReleases(env, execute, init);
      LegacyDirectoryShape(env, execute, dirs[|dirs| - 1]);
      var prev := LegacyActions(env, execute, init);
      var mine := LegacyDirectory(env, execute, dirs[|dirs| - 1]).actions;
      var all: seq<DbAction> := prev + mine;
      forall i | 0 <= i < |all| ensures !all[i].Release? {
        if i >= |prev| {
          assert all[i] == mine[i - |prev|];
        }
      }
    }
  }

  /** The legacy run keeps the discipline of releasing each connection
      before acquiring the next exactly when no directory connects at all:
      as soon as one does, a connection is left open. */
  lemma {:induction false} LegacyLeaks(env: Env, execute: Executor, dirs: seq<Entry>)
    ensures ReleasedInTurn(LegacyActions(env, execute, dirs)) <==>
      forall k :: 0 <= k < |dirs| ==> DirectoryConnection(env, dirs[k].path).Err?
  {
    if dirs != [] {
      var init := dirs[..|dirs| - 1];
      var last := dirs[|dirs| - 1];
      LegacyLeaks(env, execute, init);
      LegacyDirectoryShape(env, execute, last);
      var prev := LegacyActions(env, execute, init);
      var mine := LegacyDirectory(env, execute, last).actions;
      ReplayConcat(prev, mine, false);
      assert forall k :: 0 <= k < |init| ==> init[k] == dirs[k];
      if ReleasedInTurn(prev + mine) {
        assert mine != [] ==> Replay(mine, true) == None;
      }
    }
  }

  /** The legacy loop over the subdirectories, in listing order; every
      failure inside a directory is caught. */
  method LegacyDirectories(env: Env, execute: Executor, dirs: seq<Entry>, db: Database)
    modifies db`history
    ensures db.history == old(db.history) + LegacyActions(env, execute, dirs)
  {
    for k := 0 to |dirs|
      invariant db.history == old(db.history) + LegacyActions(env, execute, dirs[..k])
    {
      var error;
      ghost var called;
      error, called := LegacyOne(env, execute, dirs[k], db);
      LegacyActionsSnoc(env, execute, dirs, k);
    }
    assert dirs[..|dirs|] == dirs;
  }

  /** executeOperation: nothing at all when the root is missing; a root that
      cannot be listed makes the call throw before any directory is touched;
      otherwise the legacy loop over the root's subdirectories. */
  method ExecuteOperation(lib: DbUnit, env: Env, operation: string, db: Database)
    returns (thrown: Option<Exception>)
    modifies db`history
    ensures !env.isPresent(env.rootDirectory) ==> thrown == None && db.history == old(db.history)
    ensures thrown.Some? <==> RootSubdirectories(env).None?
    ensures thrown.Some? ==> env.listing(env.rootDirectory) == Err(thrown.value) && db.history == old(db.history)
    ensures thrown.None? ==>
      db.history == old(db.history) + LegacyActions(env, PathExecutor(lib, operation), RootSubdirectories(env).value)
  {
    thrown := None;
    var root := env.rootDirectory;
    if env.isPresent(root) {
      match env.listing(root) {
        case Err(e) =>
          thrown := Some(e);
        case Ok(entries) =>
          LegacyDirectories(env, PathExecutor(lib, operation), Subdirectories(entries), db);
      }
    }
  }
}
