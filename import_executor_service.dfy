/** DirectoryDataImportExecutorService: the import run over the `.csv` data
    sources under the harvester root, bracketed by an open and a close event
    and firing one ImportLogItem per subdirectory, and the inventory of the
    root (`getDirectoryData`).

    The three CDI event channels the service fires on are one `EventBus`
    trace, so their relative order is kept. Each `execute` call's effect on
    the database, and each connection acquired and closed, is appended to a
    `Database` history. */
module ImportExecutorService {
  import opened Common
  import opened DbUnitExecutor
  import opened Environment
  import opened Model

  /** The events the service fires, on the open, update and close channels.
      An update carries the contents of the ImportLogItem fired: the service
      never changes an item once it has fired it. */
  datatype Event = OnOpen(message: string) | OnUpdate(item: LogEntry) | OnClose(message: string)

  /** The events fired so far, in firing order. */
  class EventBus {
    var fired: seq<Event>

    constructor ()
      ensures fired == []
    {
      fired := [];
    }

    method Fire(e: Event)
      modifies this`fired
      ensures fired == old(fired) + [e]
    {
      fired := fired + [e];
    }
  }

  // ------------------------------------------------------------ one directory

  /** What processing one subdirectory does: the `jndi` property read, the
      database actions, and the exception caught, if any. */
  datatype DirectoryRun = DirectoryRun(jndi: Option<string>, actions: seq<DbAction>, error: Option<Exception>)

  /** One iteration of the import loop, as try-with-resources runs it: the
      connection is closed whether or not `execute` threw, and a failure to
      close is reported only when `execute` did not throw. When reading the
      properties throws, `jndi` is never set. */
  function ImportDirectory(env: Env, execute: Executor, entry: Entry): DirectoryRun
  {
    var jndi := Jndi(env, entry.path);
    match DirectoryConnection(env, entry.path)
    case Err(e) => DirectoryRun(jndi, [], Some(e))
    case Ok(c) =>
      var body := if entry.isDirectory then execute(c, entry.path) else Outcome([], None);
      var error := if body.thrown.Some? then body.thrown else env.close(c);
      DirectoryRun(jndi, [Acquire(c)] + Runs(body.applied) + [Release(c)], error)
  }

  /** ex.toString() of the exception caught, or null. */
  function Message(error: Option<Exception>): Option<string>
  {
    match error
    case None => None
    case Some(e) => Some(e.description)
  }

  /** The contents of the ImportLogItem fired for a subdirectory. */
  function LogFor(env: Env, execute: Executor, operation: string, entry: Entry): LogEntry
  {
    var run := ImportDirectory(env, execute, entry);
    LogEntry(run.jndi, Some(entry.path), Message(run.error), Some(operation))
  }

  /** A directory either fails to connect and touches no database, or holds
      one connection from its acquisition to its release, running only what
      `execute` ran on it. */
  lemma DirectoryActions(env: Env, execute: Executor, entry: Entry)
    ensures var run := ImportDirectory(env, execute, entry);
      match DirectoryConnection(env, entry.path)
      case Err(e) => run.actions == [] && run.error == Some(e)
      case Ok(c) =>
        && |run.actions| >= 2
        && run.actions[0] == Acquire(c)
        && run.actions[|run.actions| - 1] == Release(c)
        && (forall i :: 0 < i < |run.actions| - 1 ==> run.actions[i].Run?)
        && ReleasedInTurn(run.actions)
  {
    match DirectoryConnection(env, entry.path)
    case Err(_) =>
    case Ok(c) =>
      var body := if entry.isDirectory then execute(c, entry.path) else Outcome([], None);
      AcquireRunsRelease(c, body.applied);
      RunsAreRuns(body.applied);
      var actions := [Acquire(c)] + Runs(body.applied) + [Release(c)];
      forall i | 0 < i < |actions| - 1 ensures actions[i].Run? {
        assert actions[i] == Runs(body.applied)[i - 1];
      }
  }

  /** The ImportLogItem of a directory carries no message exactly when the
      properties were read, the connection opened, `execute` (if it ran) did
      not throw and the connection closed cleanly; when `execute` threw, its
      exception is reported even if closing failed as well. The `jndi` read is
      kept whatever fails after it. */
  lemma MessageOnFailure(env: Env, execute: Executor, operation: string, entry: Entry)
    ensures var log := LogFor(env, execute, operation, entry);
      && log.file == Some(entry.path)
      && log.operation == Some(operation)
      && (env.jndiOf(entry.path).Ok? ==> log.jndi == env.jndiOf(entry.path).value)
      && (env.jndiOf(entry.path).Err? ==> log.jndi == None)
      && match DirectoryConnection(env, entry.path)
         case Err(e) => log.message == Some(e.description)
         case Ok(c) =>
           var thrown := if entry.isDirectory then execute(c, entry.path).thrown else None;
           && (thrown.Some? ==> log.message == Some(thrown.value.description))
           && (thrown.None? ==> log.message == Message(env.close(c)))
  {
  }

  /** An operation name that is not registered does not abort the run: the
      directory's connection is opened and closed, nothing runs on it, and
      its ImportLogItem reports the exception. */
  lemma UnknownOperationReported(lib: DbUnit, env: Env, operation: string, entry: Entry, c: Connection)
    requires LookupOperation(operation).None?
    requires entry.isDirectory && lib.readCsv(entry.path).None?
    requires DirectoryConnection(env, entry.path) == Ok(c)
    ensures ImportDirectory(env, PathExecutor(lib, operation), entry).actions == [Acquire(c), Release(c)]
    ensures LogFor(env, PathExecutor(lib, operation), operation, entry).message ==
      Some("java.lang.Exception: The operation: " + operation + " is not registred")
  {
    ExecutePathOutcome(lib, c, operation, entry.path);
    assert Runs([]) == [];
  }

  // ---------------------------------------------------------------- the loop

  /** The update events fired for `dirs`, in order. */
  function ImportEvents(env: Env, execute: Executor, operation: string, dirs: seq<Entry>): (events: seq<Event>)
    ensures |events| == |dirs|
  {
    if dirs == [] then []
    else
      var last := dirs[|dirs| - 1];
      ImportEvents(env, execute, operation, dirs[..|dirs| - 1]) + [OnUpdate(LogFor(env, execute, operation, last))]
  }

  /** The database actions of importing `dirs` one after the other. */
  function ImportActions(env: Env, execute: Executor, dirs: seq<Entry>): seq<DbAction>
  {
    if dirs == [] then []
    else
      var last := dirs[|dirs| - 1];
      ImportActions(env, execute, dirs[..|dirs| - 1]) + ImportDirectory(env, execute, last).actions
  }

  lemma ImportSnoc(env: Env, execute: Executor, operation: string, dirs: seq<Entry>, k: nat)
    requires k < |dirs|
    ensures ImportEvents(env, execute, operation, dirs[..k + 1]) ==
      ImportEvents(env, execute, operation, dirs[..k]) + [OnUpdate(LogFor(env, execute, operation, dirs[k]))]
    ensures ImportActions(env, execute, dirs[..k + 1]) ==
      ImportActions(env, execute, dirs[..k]) + ImportDirectory(env, execute, dirs[k]).actions
  {
    assert dirs[..k + 1][..k] == dirs[..k];
  }

  /** Exactly one ImportLogItem is fired per subdirectory, in listing order,
      each naming its directory and the operation. */
  lemma {:induction false} OneLogPerDirectory(env: Env, execute: Executor, operation: string, dirs: seq<Entry>, i: nat)
    requires i < |dirs|
    ensures ImportEvents(env, execute, operation, dirs)[i] == OnUpdate(LogFor(env, execute, operation, dirs[i]))
    ensures ImportEvents(env, execute, operation, dirs)[i].item.file == Some(dirs[i].path)
    ensures ImportEvents(env, execute, operation, dirs)[i].item.operation == Some(operation)
  {
    if i < |dirs| - 1 {
      OneLogPerDirectory(env, execute, operation, dirs[..|dirs| - 1], i);
    }
  }

  /** Over the whole run every connection acquired is released before the
      next directory's connection is acquired, and none is left open. */
  lemma {:induction false} ImportReleasesInTurn(env: Env, execute: Executor, dirs: seq<Entry>)
    ensures ReleasedInTurn(ImportActions(env, execute, dirs))
  {
    if dirs != [] {
      ImportReleasesInTurn(env, execute, dirs[..|dirs| - 1]);
      var last := dirs[|dirs| - 1];
      DirectoryActions(env, execute, last);
      if ImportDirectory(env, execute, last).actions == [] {
        assert ReleasedInTurn([]);
      }
      ReleasedInTurnConcat(ImportActions(env, execute, dirs[..|dirs| - 1]), ImportDirectory(env, execute, last).actions);
    }
  }

  /** The subdirectories the import loop visits: those of the root, in
      listing order; none when the root is missing or cannot be listed (the
      listing failure is caught by the outer handler). */
  function VisitedDirectories(env: Env): seq<Entry>
  {
    match RootSubdirectories(env)
    case None => []
    case Some(dirs) => dirs
  }

  /** The body of the import loop for one subdirectory: a new ImportLogItem
      filled through its setters, the connection opened, used and closed. */
  method ImportOne(env: Env, execute: Executor, operation: string, entry: Entry, db: Database)
    returns (log: ImportLogItem)
    modifies db`history
    ensures fresh(log) && log.View() == LogFor(env, execute, operation, entry)
    ensures db.history == old(db.history) + ImportDirectory(env, execute, entry).actions
  {
    log := new ImportLogItem();
    log.SetFile(Some(entry.path));
    log.SetOperation(Some(operation));
    var error: Option<Exception> := None;
    match env.jndiOf(entry.path) {
      case Err(e) =>
        error := Some(e);
      case Ok(jndi) =>
        log.SetJndi(jndi);
        match GetConnection(env, jndi) {
          case Err(e) =>
            error := Some(e);
          case Ok(connection) =>
            db.Record([Acquire(connection)]);
            var outcome := Outcome([], None);
            if entry.isDirectory {
              outcome := execute(connection, entry.path);
              db.Record(Runs(outcome.applied));
              error := outcome.thrown;
            }
            db.Record([Release(connection)]);
            if error.None? {
              error := env.close(connection);
            }
            assert db.history == old(db.history) + ([Acquire(connection)] + Runs(outcome.applied) + [Release(connection)]);
        }
    }
    if error.Some? {
      log.SetMessage(Some(error.value.description));
    }
  }

  /** The import loop over the subdirectories, in listing order. */
  method ImportDirectories(env: Env, execute: Executor, operation: string, dirs: seq<Entry>, bus: EventBus, db: Database)
    modifies bus`fired, db`history
    ensures bus.fired == old(bus.fired) + ImportEvents(env, execute, operation, dirs)
    ensures db.history == old(db.history) + ImportActions(env, execute, dirs)
  {
    for k := 0 to |dirs|
      invariant bus.fired == old(bus.fired) + ImportEvents(env, execute, operation, dirs[..k])
      invariant db.history == old(db.history) + ImportActions(env, execute, dirs[..k])
    {
      ImportSnoc(env, execute, operation, dirs, k);
      var log := ImportOne(env, execute, operation, dirs[k], db);
      bus.Fire(OnUpdate(log.View()));
    }
    assert dirs[..|dirs|] == dirs;
  }

  /** The events of a whole run: the open event, one update per visited
      directory, the close event. */
  function RunEvents(env: Env, execute: Executor, operation: string): seq<Event>
  {
    [OnOpen("Start")] + ImportEvents(env, execute, operation, VisitedDirectories(env)) + [OnClose("Close")]
  }

  /** executeOperation: fires "Start", then one ImportLogItem for every
      subdirectory of the root, then "Close"; failures never escape. */

  method ExecuteOperation(lib: DbUnit, env: Env, operation: string, bus: EventBus, db: Database)
    modifies bus`fired, db`history
    ensures bus.fired == old(bus.fired) + RunEvents(env, PathExecutor(lib, operation), operation)
    ensures db.history == old(db.history) + ImportActions(env, PathExecutor(lib, operation), VisitedDirectories(env))
  {
    bus.Fire(OnOpen("Start"));
    var root := env.rootDirectory;
    if env.isPresent(root) {
      match env.listing(root)
      case Err(_) =>
      case Ok(entries) =>
        var dirs := Subdirectories(entries);
        ImportDirectories(env, PathExecutor(lib, operation), operation, dirs, bus, db);
    }
    bus.Fire(OnClose("Close"));
  }

  // --------------------------------------------------------- getDirectoryData

  /** The names of `files`. */
  function FileNames(files: seq<Entry>): set<string>
  {
    set i | 0 <= i < |files| :: files[i].fileName
  }

  /** The inventory record of one subdirectory: its name, the names of its
      `.csv` files, its `jndi`, and the error met while reading its
      properties, listing it or looking its data source up. */
  function InventoryEntry(env: Env, entry: Entry): DatasourceView
  {
    match env.jndiOf(entry.path)
    case Err(e) => DatasourceView(Some(entry.fileName), Some({}), None, Some(e.description))
    case Ok(jndi) =>
      match env.listing(entry.path)
      case Err(e) => DatasourceView(Some(entry.fileName), Some({}), jndi, Some(e.description))
      case Ok(entries) =>
        DatasourceView(Some(entry.fileName), Some(FileNames(MatchingFiles(entries, ".csv"))), jndi, Message(env.lookup(jndi)))
  }

  /** A listed file is in the record exactly when it is a regular file whose
      path ends in ".csv"; properties that cannot be read, a directory that
      cannot be listed or a data source that cannot be looked up is reported
      as the record's error, by that exception's toString(), and the record
      is still complete. */
  lemma InventoryEntryContents(env: Env, entry: Entry, name: string)
    ensures var view := InventoryEntry(env, entry);
      && view.name == Some(entry.fileName)
      && view.jndi == Jndi(env, entry.path)
      && view.files.Some?
      && match env.jndiOf(entry.path)
         case Err(e) => view.files.value == {} && view.error == Some(e.description)
         case Ok(jndi) =>
           match env.listing(entry.path)
           case Err(e) => view.files.value == {} && view.error == Some(e.description)
           case Ok(entries) =>
             && (name in view.files.value <==>
                   exists f :: f in entries && f.isRegularFile && MatchesGlob(f.path, ".csv") && f.fileName == name)
             && (env.lookup(jndi).None? ==> view.error.None?)
             && (env.lookup(jndi).Some? ==> view.error == Some(env.lookup(jndi).value.description))
  {
    match env.listing(entry.path)
    case Err(_) =>
    case Ok(entries) =>
      var csv := MatchingFiles(entries, ".csv");
      if name in FileNames(csv) {
        var i :| 0 <= i < |csv| && csv[i].fileName == name;
        assert csv[i] in csv;
      }
  }

  lemma FileNamesSnoc(files: seq<Entry>, j: nat)
    requires j < |files|
    ensures FileNames(files[..j + 1]) == FileNames(files[..j]) + {files[j].fileName}
  {
    assert forall i :: 0 <= i < j ==> files[..j + 1][i] == files[..j][i];
  }

  /** `tmp.forEach(file -> item.getFiles().add(file.getFileName().toString()))`. */
  method AddFileNames(names: MutableSet<string>, files: seq<Entry>)
    modifies names`elems
    ensures names.elems == old(names.elems) + FileNames(files)
  {
    for j := 0 to |files|
      invariant names.elems == old(names.elems) + FileNames(files[..j])
    {
      FileNamesSnoc(files, j);
      names.Add(files[j].fileName);
    }
    assert files[..|files|] == files;
  }

  /** The body of the inventory loop for one subdirectory. */
  method InventoryOne(env: Env, entry: Entry) returns (item: DatasourceDirectoryData)
    ensures fresh(item) && item.files != null && fresh(item.files)
    ensures item.View() == InventoryEntry(env, entry)
  {
    item := new DatasourceDirectoryData();
    item.SetName(Some(entry.fileName));
    var files := new MutableSet<string>();
    item.SetFiles(files);
    match env.jndiOf(entry.path) {
      case Err(e) =>
        item.SetError(Some(e.description));
        assert files.elems == {};
      case Ok(jndi) =>
        item.SetJndi(jndi);
        match env.listing(entry.path) {
          case Err(e) =>
            item.SetError(Some(e.description));
            assert files.elems == {};
          case Ok(entries) =>
            AddFileNames(item.files, MatchingFiles(entries, ".csv"));
            assert files.elems == FileNames(MatchingFiles(entries, ".csv"));
            match env.lookup(jndi) {
              case Some(e) => item.SetError(Some(e.description));
              case None =>
            }
        }
    }
  }

  /** A sequence without repetitions has as many distinct elements as it is
      long. */
  lemma {:induction false} DistinctCount<T>(s: seq<T>)
    requires forall i, j :: 0 <= i < j < |s| ==> s[i] != s[j]
    ensures |set x | x in s| == |s|
  {
    if s != [] {
      var init := s[..|s| - 1];
      DistinctCount(init);
      assert (set x | x in s) == (set x | x in init) + {s[|s| - 1]};
      assert s[|s| - 1] !in init;
    }
  }

  /** The inventory loop: one fresh record per subdirectory, each added to
      `datasources`. */
  method InventoryDirectories(env: Env, dirs: seq<Entry>, datasources: MutableSet<DatasourceDirectoryData>)
    returns (ghost items: seq<DatasourceDirectoryData>)
    modifies datasources`elems
    ensures |items| == |dirs|
    ensures forall i :: 0 <= i < |dirs| ==> fresh(items[i]) && items[i].View() == InventoryEntry(env, dirs[i])
    ensures forall i, j :: 0 <= i < j < |items| ==> items[i] != items[j]
    ensures forall x :: x in datasources.elems <==> x in old(datasources.elems) || x in items
  {
    items := [];
    for k := 0 to |dirs|
      invariant |items| == k
      invariant forall i :: 0 <= i < k ==> fresh(items[i]) && fresh(items[i].files)
      invariant forall i :: 0 <= i < k ==> items[i].View() == InventoryEntry(env, dirs[i])
      invariant forall i, j :: 0 <= i < j < k ==> items[i] != items[j]
      invariant forall x :: x in datasources.elems <==> x in old(datasources.elems) || x in items
    {
      var item := InventoryOne(env, dirs[k]);
      datasources.Add(item);
      items := items + [item];
    }
  }

  /** getDirectoryData: the name and existence of the root and, when it
      exists, one fresh record per subdirectory; a root that cannot be listed
      makes the call throw. */
  method GetDirectoryData(env: Env) returns (r: Result<DirectoryData>, ghost items: seq<DatasourceDirectoryData>)
    ensures r.Err? <==> RootSubdirectories(env).None?
    ensures r.Err? ==> env.listing(env.rootDirectory) == Err(r.error)
    ensures r.Ok? ==>
      && fresh(r.value)
      && r.value.name == Some(env.absolutePath(env.rootDirectory))
      && r.value.rootExists == env.isPresent(env.rootDirectory)
      && (r.value.datasources == null <==> !env.isPresent(env.rootDirectory))
    ensures r.Ok? ==> |items| == |RootSubdirectories(env).value|
    ensures r.Ok? ==> forall i :: 0 <= i < |items| ==>
      fresh(items[i]) && items[i].View() == InventoryEntry(env, RootSubdirectories(env).value[i])
    ensures r.Ok? && r.value.datasources != null ==>
      && fresh(r.value.datasources)
      && (forall x :: x in r.value.datasources.elems <==> x in items)
      && |r.value.datasources.elems| == |items|
  {
    items := [];
    var result := new DirectoryData();
    var root := env.rootDirectory;
    result.SetName(Some(env.absolutePath(root)));
    var present := env.isPresent(root);
    result.SetExists(present);
    if present {
      var datasources := new MutableSet<DatasourceDirectoryData>();
      result.SetDatasources(datasources);
      match env.listing(root) {
        case Err(e) =>
          r := Err(e);
          return;
        case Ok(entries) =>
          items := InventoryDirectories(env, Subdirectories(entries), result.datasources);
          DistinctCount(items);
          assert result.datasources.elems == set x | x in items;
      }
    }
    r := Ok(result);
  }
}
