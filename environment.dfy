/** The world the import loops act on, taken as given: the harvester root
    directory and its listings, the `jndi` property of each data-source
    directory, JNDI lookup and JDBC connections. What the loops do to that
    world is recorded in a `Database` history of connection acquisitions,
    operation runs and releases. */
module Environment {
  import opened Common
  import opened DbUnitExecutor

  /** One entry of a directory listing: its path as Path.toString() renders
      it, its last name element, and what Files reports about it. */
  datatype Entry = Entry(path: string, fileName: string, isDirectory: bool, isRegularFile: bool)

  datatype Env = Env(
    rootDirectory: string,                         // HarvesterProperties.getRootDirectory()
    absolutePath: string -> string,                // Path.toAbsolutePath().toString()
    isPresent: string -> bool,                     // Files.exists
    listing: string -> Result<seq<Entry>>,         // Files.newDirectoryStream, unfiltered, in listing order
    jndiOf: string -> Result<Option<string>>,      // property "jndi" of <dir>/harvester.properties
    lookup: Option<string> -> Option<Exception>,   // InitialContext.lookup of the DataSource
    open: Option<string> -> Result<Connection>,    // DataSource.getConnection() on the looked-up source
    close: Connection -> Option<Exception>)        // Connection.close()

  /** DataSourceUtil.getConnection: look the data source up, then open a
      connection on it. */
  function GetConnection(env: Env, jndi: Option<string>): Result<Connection>
  {
    match env.lookup(jndi)
    case Some(e) => Err(e)
    case None => env.open(jndi)
  }

  /** The `jndi` property of a directory, as the loops store it: null when
      reading the properties threw. */
  function Jndi(env: Env, dir: string): Option<string>
  {
    match env.jndiOf(dir)
    case Err(_) => None
    case Ok(jndi) => jndi
  }

  /** Reading a directory's `jndi` property, then DataSourceUtil.getConnection
      on it: the first of the two that throws decides the failure. */
  function DirectoryConnection(env: Env, dir: string): Result<Connection>
  {
    match env.jndiOf(dir)
    case Err(e) => Err(e)
    case Ok(jndi) => GetConnection(env, jndi)
  }

  /** A directory stream filtered with Files::isDirectory. */
  function Subdirectories(entries: seq<Entry>): (dirs: seq<Entry>)
    ensures forall e :: e in dirs <==> e in entries && e.isDirectory
  {
    if entries == [] then []
    else (if entries[0].isDirectory then [entries[0]] else []) + Subdirectories(entries[1..])
  }

  /** A directory stream filtered with `isRegularFile && matches glob:**<suffix>`. */
  function MatchingFiles(entries: seq<Entry>, suffix: string): (files: seq<Entry>)
    ensures forall e :: e in files <==> e in entries && e.isRegularFile && MatchesGlob(e.path, suffix)
  {
    if entries == [] then []
    else
      var head := if entries[0].isRegularFile && MatchesGlob(entries[0].path, suffix) then [entries[0]] else [];
      head + MatchingFiles(entries[1..], suffix)
  }

  /** The filter keeps the stream's order and multiplicity: filtering a
      stream in two parts is filtering each part. */
  lemma {:induction false} SubdirectoriesConcat(a: seq<Entry>, b: seq<Entry>)
    ensures Subdirectories(a + b) == Subdirectories(a) + Subdirectories(b)
  {
    if a != [] {
      assert (a + b)[1..] == a[1..] + b;
      SubdirectoriesConcat(a[1..], b);
    } else {
      assert a + b == b;
    }
  }

  /** The same for the file filter. */
  lemma {:induction false} MatchingFilesConcat(a: seq<Entry>, b: seq<Entry>, suffix: string)
    ensures MatchingFiles(a + b, suffix) == MatchingFiles(a, suffix) + MatchingFiles(b, suffix)
  {
    if a != [] {
      assert (a + b)[1..] == a[1..] + b;
      MatchingFilesConcat(a[1..], b, suffix);
    } else {
      assert a + b == b;
    }
  }

  /** The subdirectories a loop over the root visits: none when the root does
      not exist; when its listing fails, None. */
  function RootSubdirectories(env: Env): Option<seq<Entry>>
  {
    if !env.isPresent(env.rootDirectory) then Some([])
    else match env.listing(env.rootDirectory)
      case Err(_) => None
      case Ok(entries) => Some(Subdirectories(entries))
  }

  /** What the import loops do to the databases. */
  datatype DbAction = Acquire(connection: Connection) | Run(call: Applied) | Release(connection: Connection)

  function Runs(calls: seq<Applied>): (actions: seq<DbAction>)
    ensures |actions| == |calls|
  {
    if calls == [] then [] else [Run(calls[0])] + Runs(calls[1..])
  }

  lemma {:induction false} RunsAreRuns(calls: seq<Applied>)
    ensures forall i :: 0 <= i < |calls| ==> Runs(calls)[i] == Run(calls[i])
  {
    if calls != [] {
      RunsAreRuns(calls[1..]);
    }
  }

  /** The history of database actions, appended to as they happen. */
  class Database {
    var history: seq<DbAction>

    constructor ()
      ensures history == []
    {
      history := [];
    }

    method Record(actions: seq<DbAction>)
      modifies this`history
      ensures history == old(history) + actions
    {
      history := history + actions;
    }
  }

  /** Replays a history, tracking whether a connection is held: None when an
      action breaks the discipline of acquiring a connection, running on it
      and releasing it before acquiring the next. */
  function Replay(history: seq<DbAction>, holding: bool): Option<bool>
  {
    if history == [] then Some(holding)
    else match history[0]
      case Acquire(_) => if holding then None else Replay(history[1..], true)
      case Run(_) => if holding then Replay(history[1..], true) else None
      case Release(_) => if holding then Replay(history[1..], false) else None
  }

  /** Every connection acquired is released before the next is acquired, and
      none is held at the end. */
  predicate ReleasedInTurn(history: seq<DbAction>)
  {
    Replay(history, false) == Some(false)
  }

  /** Replaying a concatenation replays the second part from where the first
      part left off. */
  lemma {:induction false} ReplayConcat(a: seq<DbAction>, b: seq<DbAction>, holding: bool)
    ensures Replay(a + b, holding) ==
      match Replay(a, holding)
      case None => None
      case Some(h) => Replay(b, h)
  {
    if a != [] {
      assert (a + b)[0] == a[0];
      assert (a + b)[1..] == a[1..] + b;
      match a[0]
      case Acquire(_) => ReplayConcat(a[1..], b, true);
      case Run(_) => ReplayConcat(a[1..], b, true);
      case Release(_) => ReplayConcat(a[1..], b, false);
    } else {
      assert a + b == b;
    }
  }

  /** Two histories that each release what they acquire can be run one
      after the other. */
  lemma ReleasedInTurnConcat(a: seq<DbAction>, b: seq<DbAction>)
    requires ReleasedInTurn(a) && ReleasedInTurn(b)
    ensures ReleasedInTurn(a + b)
  {
    ReplayConcat(a, b, false);
  }

  /** Acquiring a connection, running on it and releasing it keeps the
      discipline. */
  lemma {:induction false} AcquireRunsRelease(c: Connection, calls: seq<Applied>)
    ensures ReleasedInTurn([Acquire(c)] + Runs(calls) + [Release(c)])
  {
    RunsWhileHolding(calls);
    ReplayConcat([Acquire(c)], Runs(calls) + [Release(c)], false);
    ReplayConcat(Runs(calls), [Release(c)], true);
    assert [Acquire(c)] + Runs(calls) + [Release(c)] == [Acquire(c)] + (Runs(calls) + [Release(c)]);
  }

  lemma {:induction false} RunsWhileHolding(calls: seq<Applied>)
    ensures Replay(Runs(calls), true) == Some(true)
  {
    if calls != [] {
      RunsWhileHolding(calls[1..]);
    }
  }
}
