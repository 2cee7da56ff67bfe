/** DashboardViewController: the application-scoped view state behind the
    dashboard page. It keeps the root inventory, lets at most one import run
    start at a time, collects the ImportLogItems the import service fires,
    and forwards "start", "logs" and "close" to the page on the update-view
    channel. */
module Dashboard {
  import opened Common
  import opened DbUnitExecutor
  import opened Environment
  import opened Model
  import opened ImportExecutorService

  /** The part of the controller's state the service's events change: the
      `running` flag, the `logs` list (None while it is still null) and the
      view events fired so far. */
  datatype Observation = Observation(running: bool, logs: Option<seq<LogEntry>>, viewEvents: seq<string>)

  /** The controller's reaction to one event of the import service. An
      update that arrives while `logs` is still null throws a
      NullPointerException in `logs.add` and changes nothing. */
  function Step(s: Observation, e: Event): Observation
  {
    match e
    case OnOpen(_) => s.(viewEvents := s.viewEvents + ["start"])
    case OnUpdate(item) =>
      if s.logs.None? then s
      else s.(logs := Some(s.logs.value + [item]), viewEvents := s.viewEvents + ["logs"])
    case OnClose(_) => s.(running := false, viewEvents := s.viewEvents + ["close"])
  }

  /** The controller's state after observing `events` in order. */
  function AfterEvents(s: Observation, events: seq<Event>): Observation
  {
    if events == [] then s
    else Step(AfterEvents(s, events[..|events| - 1]), events[|events| - 1])
  }

  lemma AfterEventsSnoc(s: Observation, events: seq<Event>, k: nat)
    requires k < |events|
    ensures AfterEvents(s, events[..k + 1]) == Step(AfterEvents(s, events[..k]), events[k])
  {
    assert events[..k + 1][..k] == events[..k];
  }

  /** Observing two traces one after the other is observing their
      concatenation. */
  lemma {:induction false} AfterEventsConcat(s: Observation, a: seq<Event>, b: seq<Event>)
    ensures AfterEvents(s, a + b) == AfterEvents(AfterEvents(s, a), b)
  {
    if b == [] {
      assert a + b == a;
    } else {
      var init := b[..|b| - 1];
      AfterEventsConcat(s, a, init);
      assert (a + b)[..|a + b| - 1] == a + init;
    }
  }

  /** `n` copies of `x`. */
  function Repeat(x: string, n: nat): (r: seq<string>)
    ensures |r| == n && forall i :: 0 <= i < n ==> r[i] == x
  {
    if n == 0 then [] else Repeat(x, n - 1) + [x]
  }

  /** Observing the update events of an import run appends one log entry per
      directory, in order, each the contents of that directory's
      ImportLogItem, and forwards one "logs" per directory. */
  lemma {:induction false} ObserveImportEvents(s: Observation, env: Env, execute: Executor, operation: string, dirs: seq<Entry>)
    requires s.logs.Some?
    ensures var r := AfterEvents(s, ImportEvents(env, execute, operation, dirs));
      && r.running == s.running
      && r.logs.Some?
      && |r.logs.value| == |s.logs.value| + |dirs|
      && r.logs.value[..|s.logs.value|] == s.logs.value
      && (forall i :: 0 <= i < |dirs| ==> r.logs.value[|s.logs.value| + i] == LogFor(env, execute, operation, dirs[i]))
      && r.viewEvents == s.viewEvents + Repeat("logs", |dirs|)
  {
    if dirs != [] {
      var init := dirs[..|dirs| - 1];
      var last := dirs[|dirs| - 1];
      ObserveImportEvents(s, env, execute, operation, init);
      var events := ImportEvents(env, execute, operation, init);
      var all := ImportEvents(env, execute, operation, dirs);
      assert all == events + [OnUpdate(LogFor(env, execute, operation, last))];
      assert all[..|all| - 1] == events;
      var prev := AfterEvents(s, events);
      var r := AfterEvents(s, all);
      assert r.logs.value == prev.logs.value + [LogFor(env, execute, operation, last)];
      forall i | 0 <= i < |dirs| ensures r.logs.value[|s.logs.value| + i] == LogFor(env, execute, operation, dirs[i]) {
        if i < |init| {
          assert init[i] == dirs[i];
        }
      }
      assert Repeat("logs", |dirs|) == Repeat("logs", |init|) + ["logs"];
    }
  }

  /** A whole import run, as the dashboard observes it after starting it:
      the run's log entries, one per directory in order, are appended to the
      fresh list, `running` is cleared by the close event, and the page is
      sent "start", one "logs" per directory, then "close". */
  lemma ObserveImportRun(s: Observation, env: Env, execute: Executor, operation: string, dirs: seq<Entry>)
    requires s.logs.Some?
    ensures var r := AfterEvents(s, [OnOpen("Start")] + ImportEvents(env, execute, operation, dirs) + [OnClose("Close")]);
      && !r.running
      && r.logs.Some?
      && |r.logs.value| == |s.logs.value| + |dirs|
      && r.logs.value[..|s.logs.value|] == s.logs.value
      && (forall i :: 0 <= i < |dirs| ==> r.logs.value[|s.logs.value| + i] == LogFor(env, execute, operation, dirs[i]))
      && r.viewEvents == s.viewEvents + ["start"] + Repeat("logs", |dirs|) + ["close"]
  {
    var updates := ImportEvents(env, execute, operation, dirs);
    AfterEventsConcat(s, [OnOpen("Start")], updates);
    AfterEventsConcat(s, [OnOpen("Start")] + updates, [OnClose("Close")]);
    var afterOpen := AfterEvents(s, [OnOpen("Start")]);
    assert [OnOpen("Start")][..0] == [];
    assert afterOpen == s.(viewEvents := s.viewEvents + ["start"]);
    ObserveImportEvents(afterOpen, env, execute, operation, dirs);
    assert [OnClose("Close")][..0] == [];
  }

  /** What the page is told for `events`: "start" per open event, "close"
      per close event, nothing for an update. */
  function PageEvents(events: seq<Event>): seq<string>
  {
    if events == [] then []
    else
      PageEvents(events[..|events| - 1]) +
        match events[|events| - 1]
        case OnOpen(_) => ["start"]
        case OnClose(_) => ["close"]
        case OnUpdate(_) => []
  }

  /** Before the first start, `logs` is null: updates are lost (each throws),
      while the open and close events are still forwarded to the page. */
  lemma {:induction false} UpdatesLostBeforeStart(s: Observation, events: seq<Event>)
    requires s.logs.None?
    ensures AfterEvents(s, events).logs.None?
    ensures AfterEvents(s, events).viewEvents == s.viewEvents + PageEvents(events)
  {
    if events != [] {
      UpdatesLostBeforeStart(s, events[..|events| - 1]);
    }
  }

  class DashboardViewController {
    var directory: DirectoryData?
    var running: bool
    var logs: Option<seq<LogEntry>>
    /** The strings fired on the update-view channel, in order. */
    var viewEvents: seq<string>
    /** The operations handed to the import service, in order. */
    var requested: seq<string>

    /** A new controller, before `reloadDirectory` has run. */
    constructor ()
      ensures directory == null && !running && logs == None
      ensures viewEvents == [] && requested == []
    {
      directory, running, logs := null, false, None;
      viewEvents, requested := [], [];
    }

    function View(): Observation
      reads this
    {
      Observation(running, logs, viewEvents)
    }

    /** reloadDirectory: `directory` is the service's inventory of the root,
      or null when the service throws. */
    method ReloadDirectory(env: Env) returns (ghost items: seq<DatasourceDirectoryData>)
      modifies this`directory
      ensures directory == null <==> RootSubdirectories(env).None?
      ensures directory != null ==>
        && fresh(directory)
        && directory.name == Some(env.absolutePath(env.rootDirectory))
        && directory.rootExists == env.isPresent(env.rootDirectory)
        && (directory.datasources == null <==> !env.isPresent(env.rootDirectory))
        && |items| == |RootSubdirectories(env).value|
        && (forall i :: 0 <= i < |items| ==>
              fresh(items[i]) && items[i].View() == InventoryEntry(env, RootSubdirectories(env).value[i]))
        && (directory.datasources != null ==>
              fresh(directory.datasources) && forall x :: x in directory.datasources.elems <==> x in items)
    {
      directory := null;
      var r;
      r, items := GetDirectoryData(env);
      match r {
        case Ok(data) => directory := data;
        case Err(_) =>
      }
    }

    /** startImportData: ignored while a run is in progress; otherwise marks
      the controller running, starts a new empty log list and asks the
      service for an "insert" run. */
    method StartImportData()
      modifies this`running, this`logs, this`requested
      ensures old(running) ==> running && logs == old(logs) && requested == old(requested)
      ensures !old(running) ==> running && logs == Some([]) && requested == old(requested) + ["insert"]
    {
      if !running {
        running := true;
        logs := Some([]);
        requested := requested + ["insert"];
      }
    }

    /** onUpdateEvent: appends the item and tells the page; with `logs` still
      null it throws a NullPointerException and nothing changes. */
    method OnUpdateEvent(item: LogEntry) returns (thrown: Option<Exception>)
      modifies this`logs, this`viewEvents
      ensures old(logs).None? ==>
        thrown == Some(Exception("java.lang.NullPointerException")) && logs == None && viewEvents == old(viewEvents)
      ensures old(logs).Some? ==>
        thrown == None && logs == Some(old(logs).value + [item]) && viewEvents == old(viewEvents) + ["logs"]
    {
      thrown := None;
      match logs {
        case None =>
          thrown := Some(Exception("java.lang.NullPointerException"));
        case Some(items) =>
          logs := Some(items + [item]);
          viewEvents := viewEvents + ["logs"];
      }
    }

    /** onOpenEvent: only tells the page. */
    method OnOpenEvent(message: string)
      modifies this`viewEvents
      ensures viewEvents == old(viewEvents) + ["start"]
    {
      viewEvents := viewEvents + ["start"];
    }

    /** onCloseEvent: the run is over, so a later start is accepted again. */
    method OnCloseEvent(message: string)
      modifies this`running, this`viewEvents
      ensures !running && viewEvents == old(viewEvents) + ["close"]
    {
      running := false;
      viewEvents := viewEvents + ["close"];
    }

    /** CDI delivery of one event of the import service to its observer. */
    method Observe(e: Event)
      modifies this`running, this`logs, this`viewEvents
      ensures View() == Step(old(View()), e)
    {
      match e {
        case OnOpen(message) => OnOpenEvent(message);
        case OnUpdate(item) => var _ := OnUpdateEvent(item);
        case OnClose(message) => OnCloseEvent(message);
      }
    }

    /** Delivery of a trace of events, in order. */
    method ObserveAll(events: seq<Event>)
      modifies this`running, this`logs, this`viewEvents
      ensures View() == AfterEvents(old(View()), events)
    {
      for k := 0 to |events|
        invariant View() == AfterEvents(old(View()), events[..k])
      {
        AfterEventsSnoc(old(View()), events, k);
        Observe(events[k]);
      }
      assert events[..|events|] == events;
    }
  }

  /** A whole run observed from any state with a log list: the run's
      entries follow the ones already there, `running` is cleared, and the
      page is told "start", one "logs" per visited directory, then "close". */
  lemma ObserveRun(s: Observation, env: Env, execute: Executor, operation: string)
    requires s.logs.Some?
    ensures var r := AfterEvents(s, RunEvents(env, execute, operation));
      var dirs := VisitedDirectories(env);
      && !r.running
      && r.logs.Some?
      && |r.logs.value| == |s.logs.value| + |dirs|
      && r.logs.value[..|s.logs.value|] == s.logs.value
      && (forall i :: 0 <= i < |dirs| ==> r.logs.value[|s.logs.value| + i] == LogFor(env, execute, operation, dirs[i]))
      && r.viewEvents == s.viewEvents + ["start"] + Repeat("logs", |dirs|) + ["close"]
  {
    ObserveImportRun(s, env, execute, operation, VisitedDirectories(env));
  }

  /** The service's "insert" run with its events delivered back to the
      controller, in the order they were fired. */
  method RunAndObserve(lib: DbUnit, env: Env, dashboard: DashboardViewController, bus: EventBus, db: Database)
    modifies dashboard`running, dashboard`logs, dashboard`viewEvents, bus`fired, db`history
    ensures dashboard.View() == AfterEvents(old(dashboard.View()), RunEvents(env, PathExecutor(lib, "insert"), "insert"))
    ensures db.history == old(db.history) + ImportActions(env, PathExecutor(lib, "insert"), VisitedDirectories(env))
  {
    var before := bus.fired;
    ExecuteOperation(lib, env, "insert", bus, db);
    var trace := bus.fired[|before|..];
    assert trace == RunEvents(env, PathExecutor(lib, "insert"), "insert");
    dashboard.ObserveAll(trace);
  }

  /** Pressing start on the dashboard: when no run is in progress, the
      service runs "insert" and its events are delivered back to the
      controller; the run's log entries end up in `logs` and `running` is
      cleared again, so the next start is accepted. While a run is in
      progress nothing happens at all. */
  method StartAndObserve(lib: DbUnit, env: Env, dashboard: DashboardViewController, bus: EventBus, db: Database)
    modifies dashboard`running, dashboard`logs, dashboard`viewEvents, dashboard`requested, bus`fired, db`history
    ensures old(dashboard.running) ==>
      && dashboard.View() == old(dashboard.View()) && dashboard.requested == old(dashboard.requested)
      && bus.fired == old(bus.fired) && db.history == old(db.history)
    ensures !old(dashboard.running) ==>
      var dirs := VisitedDirectories(env);
      && !dashboard.running
      && dashboard.requested == old(dashboard.requested) + ["insert"]
      && dashboard.logs.Some?
      && |dashboard.logs.value| == |dirs|
      && (forall i :: 0 <= i < |dirs| ==>
            dashboard.logs.value[i] == LogFor(env, PathExecutor(lib, "insert"), "insert", dirs[i]))
      && dashboard.viewEvents == old(dashboard.viewEvents) + ["start"] + Repeat("logs", |dirs|) + ["close"]
      && db.history == old(db.history) + ImportActions(env, PathExecutor(lib, "insert"), dirs)
  {
    if !dashboard.running {
      dashboard.StartImportData();
      ghost var started := dashboard.View();
      RunAndObserve(lib, env, dashboard, bus, db);
      ObserveRun(started, env, PathExecutor(lib, "insert"), "insert");
    }
  }
}
