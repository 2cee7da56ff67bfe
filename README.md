# Harvester import engine, modelled in Dafny

Harvester loads fixture data into databases. Under a root directory, every
immediate subdirectory is a data source. Its `harvester.properties` names a
JNDI data source (`jndi`), and its files hold the data: `.csv` for the import
service, `.xls` for the older REST bean. A run opens a connection per
directory and applies one DbUnit operation (`insert`, `refresh`, ...) to the
directory's data. It reports each directory as an `ImportLogItem` to the
dashboard, which shows the run live.

This project models the engine's control and lookup rules and proves what
they promise:

- `common.dfy`, module `Common`: Java null as `Option`, thrown exceptions,
  JDBC connections, `String.contains` and a `glob:**<suffix>` path matcher.
- `model.dfy`, module `Model`: the records the loops fill through setters.
  These are `ImportLogItem`, `DatasourceDirectoryData` and `DirectoryData`,
  plus the `HashSet` they share by reference.
- `dbunit_executor.dfy`, module `DbUnitExecutor` (`DbUnitExecutorUtil`):
  - the operation table;
  - the data-type factory table and the first-match dialect search;
  - the three `execute` overloads.

  DbUnit itself is a parameter that either succeeds or throws.
- `environment.dfy`, module `Environment`: the world the loops act on, taken
  as given. This covers the root directory, listings, `jndi` properties, JNDI
  lookup and connections. A `Database` history records the connections
  acquired, the operations run and the connections released. `ReleasedInTurn`
  is the discipline a history keeps when it releases each connection before
  acquiring the next.
- `import_executor_service.dfy`, module `ImportExecutorService`
  (`DirectoryDataImportExecutorService`):
  - `executeOperation`, with its open/update/close event trace and
    per-directory failure isolation;
  - `getDirectoryData`, the inventory of the root.
- `legacy_import_service.dfy`, module `LegacyImportService`
  (`DirectoryDataImportServiceBean`): the `.xls` loop. It fires no events and
  never closes its connections.
- `dashboard.dfy`, module `Dashboard` (`DashboardViewController`):
  - the single-flight start guard;
  - the log list the update events fill;
  - the view events sent to the page.

Each loop is a method proved against a specification function of the inputs.
The loops are `executeOperation` (both services), `getDirectoryData`, the
dialect search and the dashboard's event delivery. The lemmas beside each
function prove what the source promises.

Three behaviours of the code are easy to miss:

- The truncate operation is registered as `runcateTable`, so `truncateTable`
  is an unknown name.
- The `byte[]` overload of `execute` ignores an unknown name after logging a
  warning; it does not reject it.
- The Path overload loads the CSV data set before it looks the name up. A
  load failure therefore hides an unknown name.

## Model

| member | source | states |
|---|---|---|
| Model.MutableSet.Add | src/main/java/org/lorislab/harvester/web/service/DirectoryDataImportExecutorService.java:152 | `HashSet.add` adds the element to the set in place, and every holder of the reference sees it |
| Model.ImportLogItem.constructor | src/main/java/org/lorislab/harvester/web/model/ImportLogItem.java:28-34 | a new item has `jndi`, `file`, `message` and `operation` all null |
| Model.ImportLogItem.SetJndi | src/main/java/org/lorislab/harvester/web/model/ImportLogItem.java:39-48 | after the setter the field holds the value set; no other field changes |
| Model.ImportLogItem.SetFile | src/main/java/org/lorislab/harvester/web/model/ImportLogItem.java:53-62 | after the setter the field holds the value set; no other field changes |
| Model.ImportLogItem.SetMessage | src/main/java/org/lorislab/harvester/web/model/ImportLogItem.java:67-76 | after the setter the field holds the value set; no other field changes |
| Model.ImportLogItem.SetOperation | src/main/java/org/lorislab/harvester/web/model/ImportLogItem.java:78-84 | after the setter the field holds the value set; no other field changes |
| Model.DatasourceDirectoryData.constructor | src/main/java/org/lorislab/harvester/web/model/DatasourceDirectoryData.java:26-32 | a new record has all four fields null |
| Model.DatasourceDirectoryData.SetName | src/main/java/org/lorislab/harvester/web/model/DatasourceDirectoryData.java:34-40 | after the setter the field holds the value set; no other field changes |
| Model.DatasourceDirectoryData.SetFiles | src/main/java/org/lorislab/harvester/web/model/DatasourceDirectoryData.java:42-48 | the record keeps the very set object it was given, not a copy |
| Model.DatasourceDirectoryData.SetJndi | src/main/java/org/lorislab/harvester/web/model/DatasourceDirectoryData.java:50-56 | after the setter the field holds the value set; no other field changes |
| Model.DatasourceDirectoryData.SetError | src/main/java/org/lorislab/harvester/web/model/DatasourceDirectoryData.java:58-64 | after the setter the field holds the value set; no other field changes |
| Model.SharedFilesSet | src/main/java/org/lorislab/harvester/web/model/DatasourceDirectoryData.java:42-48 | for any record holding a files set, a name added to that set afterwards is visible through the record, and nothing else in the record changes |
| Model.DirectoryData.constructor | src/main/java/org/lorislab/harvester/web/model/DirectoryData.java:26-30 | a new record has `name` null, `exists` false and `datasources` null |
| Model.DirectoryData.SetName | src/main/java/org/lorislab/harvester/web/model/DirectoryData.java:32-38 | after the setter the field holds the value set; no other field changes |
| Model.DirectoryData.SetExists | src/main/java/org/lorislab/harvester/web/model/DirectoryData.java:48-54 | after the setter `exists` holds the value set; no other field changes |
| Model.DirectoryData.SetDatasources | src/main/java/org/lorislab/harvester/web/model/DirectoryData.java:40-46 | the record keeps the very set object it was given |
| DbUnitExecutor.LookupOperation | src/main/java/org/lorislab/harvester/util/DbUnitExecutorUtil.java:83-91 | `OPERATION.get(name)` over the table the static block fills: the registered operation, or null; its properties are the three lemmas below |
| DbUnitExecutor.RegisteredOperations | src/main/java/org/lorislab/harvester/util/DbUnitExecutorUtil.java:83-91 | exactly seven names are registered (insert, refresh, cleanInsert, delete, deleteAll, runcateTable, update); `truncateTable` is not one of them |
| DbUnitExecutor.LookupOperationInverse | src/main/java/org/lorislab/harvester/util/DbUnitExecutorUtil.java:83-91 | a lookup finds the operation registered under that very name, and finds nothing exactly when no operation has that name |
| DbUnitExecutor.LookupRegisteredName | src/main/java/org/lorislab/harvester/util/DbUnitExecutorUtil.java:83-91 | every operation is found again under the name it is registered with |
| DbUnitExecutor.TypeFactories | src/main/java/org/lorislab/harvester/util/DbUnitExecutorUtil.java:62-73 | "H2" is always registered with the H2 factory; "Oracle" is registered, with the Oracle 10 factory, exactly when the driver class loads; there are no other keys |
| DbUnitExecutor.TypeFactoryKeys | src/main/java/org/lorislab/harvester/util/DbUnitExecutorUtil.java:178 | the key iteration visits every key of the table exactly once |
| DbUnitExecutor.FirstMatch | src/main/java/org/lorislab/harvester/util/DbUnitExecutorUtil.java:178-184 | a key found by the search is a key that occurs in the product name |
| DbUnitExecutor.FirstMatchIsEarliest | src/main/java/org/lorislab/harvester/util/DbUnitExecutorUtil.java:178-184 | the search stops at the earliest matching key in iteration order, and finds none exactly when no key occurs in the product name |
| DbUnitExecutor.SelectedFactoryChoice | src/main/java/org/lorislab/harvester/util/DbUnitExecutorUtil.java:178-192 | H2 is chosen exactly when "H2" occurs; Oracle 10 exactly when its driver loaded, "Oracle" occurs and "H2" does not; the default stays exactly when no key occurs |
| DbUnitExecutor.GetIDatabaseConnection | src/main/java/org/lorislab/harvester/util/DbUnitExecutorUtil.java:170-194 | the while loop wraps the given connection and installs exactly the factory the first-match search selects, or none |
| DbUnitExecutor.ExecuteXls | src/main/java/org/lorislab/harvester/util/DbUnitExecutorUtil.java:108-122 | a load failure is thrown first; an unknown name runs nothing and returns normally; otherwise exactly one call runs the registered operation on the spreadsheet data set through the configured connection, and throws what that call throws |
| DbUnitExecutor.ExecutePath | src/main/java/org/lorislab/harvester/util/DbUnitExecutorUtil.java:147-161 | the Path overload: wrap the connection, load the CSV data set, look the name up, then run it once or throw "not registred"; what it promises is the next row |
| DbUnitExecutor.ExecutePathOutcome | src/main/java/org/lorislab/harvester/util/DbUnitExecutorUtil.java:147-161 | a CSV load failure is thrown first; an unknown name then throws "The operation: <name> is not registred" and runs nothing; otherwise exactly one call runs the registered operation on the CSV data set |
| DbUnitExecutor.ExecuteFileName | src/main/java/org/lorislab/harvester/util/DbUnitExecutorUtil.java:131-138 | a path that is not readable does nothing; a readable one is handed to the Path overload with the same connection and operation |
| DbUnitExecutor.UnregisteredNameByOverload | src/main/java/org/lorislab/harvester/util/DbUnitExecutorUtil.java:115-120 | once the data set has loaded, an unknown name makes the Path overload throw but lets the `byte[]` overload return normally; neither runs anything |
| Environment.Subdirectories | src/main/java/org/lorislab/harvester/web/service/DirectoryDataImportExecutorService.java:80 | the filtered root stream holds exactly the listed entries that are directories |
| Environment.SubdirectoriesConcat | src/main/java/org/lorislab/harvester/web/service/DirectoryDataImportExecutorService.java:80 | the filter keeps listing order and multiplicity: filtering a listing in two parts gives the two filtered parts, one after the other |
| Environment.MatchingFiles | src/main/java/org/lorislab/harvester/web/service/DirectoryDataImportExecutorService.java:149-151 | the filtered stream holds exactly the listed regular files whose path ends with the glob's suffix |
| Environment.MatchingFilesConcat | src/main/java/org/lorislab/harvester/web/service/DirectoryDataImportExecutorService.java:149-151 | the file filter keeps listing order and multiplicity in the same way |
| Environment.AcquireRunsRelease | src/main/java/org/lorislab/harvester/web/service/DirectoryDataImportExecutorService.java:95-101 | acquiring a connection, running on it and closing it keeps the release-before-next-acquire discipline |
| ImportExecutorService.EventBus.Fire | src/main/java/org/lorislab/harvester/web/service/DirectoryDataImportExecutorService.java:109 | firing an event appends it to the trace and changes nothing else |
| ImportExecutorService.ImportDirectory | src/main/java/org/lorislab/harvester/web/service/DirectoryDataImportExecutorService.java:88-107 | one iteration's try block: read the properties, connect, run `execute` on a directory, close in try-with-resources; the first exception is caught; its promises are the next three rows |
| ImportExecutorService.LogFor | src/main/java/org/lorislab/harvester/web/service/DirectoryDataImportExecutorService.java:82-107 | the ImportLogItem one iteration fills: file, operation, the `jndi` once read, and the caught exception's `toString()` |
| ImportExecutorService.DirectoryActions | src/main/java/org/lorislab/harvester/web/service/DirectoryDataImportExecutorService.java:95-101 | a directory whose connection fails touches no database; otherwise its actions start with the acquisition, end with the release of the same connection, and only run operations in between |
| ImportExecutorService.MessageOnFailure | src/main/java/org/lorislab/harvester/web/service/DirectoryDataImportExecutorService.java:82-107 | the item names the directory and the operation, and the `jndi` read before connecting (null when reading the properties throws); its message is the failure's `toString()`, with `execute`'s exception winning over a failing close, and stays null exactly when nothing failed |
| ImportExecutorService.UnknownOperationReported | src/main/java/org/lorislab/harvester/web/service/DirectoryDataImportExecutorService.java:95-106 | with an unknown operation name, the directory's connection is opened and closed with nothing run, and its item reports "java.lang.Exception: The operation: <name> is not registred" |
| ImportExecutorService.ImportEvents | src/main/java/org/lorislab/harvester/web/service/DirectoryDataImportExecutorService.java:81-110 | the loop fires as many update events as there are subdirectories |
| ImportExecutorService.OneLogPerDirectory | src/main/java/org/lorislab/harvester/web/service/DirectoryDataImportExecutorService.java:81-109 | the i-th update event is the item of the i-th subdirectory, carrying its path and the operation |
| ImportExecutorService.ImportReleasesInTurn | src/main/java/org/lorislab/harvester/web/service/DirectoryDataImportExecutorService.java:80-111 | over the whole loop, each directory's connection is closed before the next one is acquired, and none is left open |
| ImportExecutorService.ImportOne | src/main/java/org/lorislab/harvester/web/service/DirectoryDataImportExecutorService.java:82-109 | the loop body builds a fresh item with the directory's log contents and appends the directory's actions to the database history |
| ImportExecutorService.ImportDirectories | src/main/java/org/lorislab/harvester/web/service/DirectoryDataImportExecutorService.java:80-111 | the for loop fires exactly the update events of the subdirectories, in listing order, and performs exactly their actions |
| ImportExecutorService.ExecuteOperation | src/main/java/org/lorislab/harvester/web/service/DirectoryDataImportExecutorService.java:71-122 | "Start" is fired first and "Close" last, even when the root is missing or cannot be listed; in between, one update per visited subdirectory |
| ImportExecutorService.InventoryEntry | src/main/java/org/lorislab/harvester/web/service/DirectoryDataImportExecutorService.java:140-159 | the record one inventory iteration builds; what it promises is the next row |
| ImportExecutorService.InventoryEntryContents | src/main/java/org/lorislab/harvester/web/service/DirectoryDataImportExecutorService.java:140-159 | the record names the directory and its `jndi`; its files are exactly the names of its regular `.csv` files; a properties read, listing or lookup failure becomes the record's error as that exception's `toString()`, and the record is still added |
| ImportExecutorService.AddFileNames | src/main/java/org/lorislab/harvester/web/service/DirectoryDataImportExecutorService.java:152 | `forEach` adds exactly the names of the given files to the shared set |
| ImportExecutorService.InventoryOne | src/main/java/org/lorislab/harvester/web/service/DirectoryDataImportExecutorService.java:140-159 | the loop body builds a fresh record, with its own fresh files set, whose contents are the directory's inventory |
| ImportExecutorService.InventoryDirectories | src/main/java/org/lorislab/harvester/web/service/DirectoryDataImportExecutorService.java:137-163 | the inventory loop adds one distinct fresh record per subdirectory, each with that directory's inventory, and nothing else |
| ImportExecutorService.GetDirectoryData | src/main/java/org/lorislab/harvester/web/service/DirectoryDataImportExecutorService.java:124-166 | `name` is the root's absolute path and `exists` mirrors the root; `datasources` is null exactly when the root is absent, and otherwise holds one record per subdirectory; a root that cannot be listed makes the call throw |
| LegacyImportService.XlsImport | src/main/java/org/lorislab/harvester/web/rs/service/DirectoryDataImportServiceBean.java:80-84 | the walk over a directory's files calls `execute` on a prefix of them, in order, so at most once per file, and on all of them when none throws |
| LegacyImportService.XlsImportStopsAtFirstFailure | src/main/java/org/lorislab/harvester/web/rs/service/DirectoryDataImportServiceBean.java:80-84 | `execute` is called on a prefix of the files, in order: on all of them when none throws; otherwise the last call made is the first that threw |
| LegacyImportService.XlsImportOnlyRuns | src/main/java/org/lorislab/harvester/web/rs/service/DirectoryDataImportServiceBean.java:83 | the walk over the files only runs operations; it neither opens nor closes a connection |
| LegacyImportService.ImportFiles | src/main/java/org/lorislab/harvester/web/rs/service/DirectoryDataImportServiceBean.java:80-84 | the loop over the files makes exactly the walk's calls and actions and reports its exception |
| LegacyImportService.LegacyDirectory | src/main/java/org/lorislab/harvester/web/rs/service/DirectoryDataImportServiceBean.java:68-93 | one iteration of the bean's loop: read the properties, connect, walk the `.xls` files of a directory, catch any exception; its promises are the next row and the leak lemmas |
| LegacyImportService.LegacyDirectoryShape | src/main/java/org/lorislab/harvester/web/rs/service/DirectoryDataImportServiceBean.java:72-88 | only regular `.xls` files of the directory's own listing reach `execute`; a directory that connects acquires one connection first, then only runs operations and never releases it |
| LegacyImportService.LegacyOne | src/main/java/org/lorislab/harvester/web/rs/service/DirectoryDataImportServiceBean.java:68-93 | the loop body performs exactly one directory's actions and reports the exception its handler catches |
| LegacyImportService.LegacyNeverReleases | src/main/java/org/lorislab/harvester/web/rs/service/DirectoryDataImportServiceBean.java:76 | no connection is ever closed by the legacy run |
| LegacyImportService.LegacyLeaks | src/main/java/org/lorislab/harvester/web/rs/service/DirectoryDataImportServiceBean.java:66-94 | the legacy run releases each connection before acquiring the next exactly when no directory connects at all |
| LegacyImportService.LegacyDirectories | src/main/java/org/lorislab/harvester/web/rs/service/DirectoryDataImportServiceBean.java:66-94 | the for loop performs exactly the actions of every subdirectory, in listing order; no failure inside a directory escapes |
| LegacyImportService.ExecuteOperation | src/main/java/org/lorislab/harvester/web/rs/service/DirectoryDataImportServiceBean.java:60-97 | a missing root does nothing at all; a root that cannot be listed makes the call throw with nothing done; otherwise the loop runs over the immediate subdirectories of the root |
| Dashboard.Step | src/main/java/org/lorislab/harvester/web/view/DashboardViewController.java:93-107 | the observer methods' effect on `running`, `logs` and the page, one event at a time; an update with `logs` null changes nothing |
| Dashboard.AfterEvents | src/main/java/org/lorislab/harvester/web/view/DashboardViewController.java:93-107 | the effect of a trace of events delivered in order |
| Dashboard.ObserveImportEvents | src/main/java/org/lorislab/harvester/web/view/DashboardViewController.java:93-96 | observing a run's update events appends one log entry per directory, in order, keeps the earlier entries, and sends one "logs" per directory |
| Dashboard.ObserveImportRun | src/main/java/org/lorislab/harvester/web/view/DashboardViewController.java:93-107 | observing a whole run clears `running`, leaves the run's entries after the earlier ones, and sends "start", one "logs" per directory, then "close" |
| Dashboard.UpdatesLostBeforeStart | src/main/java/org/lorislab/harvester/web/view/DashboardViewController.java:93-96 | while `logs` is null every update is lost, and the page receives exactly "start" per open event and "close" per close event, in order |
| Dashboard.ObserveRun | src/main/java/org/lorislab/harvester/web/view/DashboardViewController.java:93-107 | the same for the trace `executeOperation` fires over the visited subdirectories |
| Dashboard.DashboardViewController.constructor | src/main/java/org/lorislab/harvester/web/view/DashboardViewController.java:55-59 | a new controller is idle, with no directory and a null log list |
| Dashboard.DashboardViewController.ReloadDirectory | src/main/java/org/lorislab/harvester/web/view/DashboardViewController.java:70-77 | `directory` is the service's inventory of the root, or null exactly when the service throws |
| Dashboard.DashboardViewController.StartImportData | src/main/java/org/lorislab/harvester/web/view/DashboardViewController.java:83-91 | while running, nothing changes; otherwise `running` becomes true, `logs` a new empty list, and one "insert" run is requested |
| Dashboard.DashboardViewController.OnUpdateEvent | src/main/java/org/lorislab/harvester/web/view/DashboardViewController.java:93-96 | the item is appended to the end of `logs` and "logs" is sent; with `logs` null a NullPointerException is thrown and nothing changes |
| Dashboard.DashboardViewController.OnOpenEvent | src/main/java/org/lorislab/harvester/web/view/DashboardViewController.java:98-101 | only "start" is sent; no state changes |
| Dashboard.DashboardViewController.OnCloseEvent | src/main/java/org/lorislab/harvester/web/view/DashboardViewController.java:103-107 | `running` becomes false, so a later start is accepted, and "close" is sent |
| Dashboard.DashboardViewController.Observe | src/main/java/org/lorislab/harvester/web/view/DashboardViewController.java:93-107 | delivering one event to its observer changes the state as `Step` says |
| Dashboard.DashboardViewController.ObserveAll | src/main/java/org/lorislab/harvester/web/view/DashboardViewController.java:93-107 | delivering a trace of events in order changes the state as `AfterEvents` says |
| Dashboard.RunAndObserve | src/main/java/org/lorislab/harvester/web/view/DashboardViewController.java:88-107 | the service's "insert" run delivers its events to the controller in firing order |
| Dashboard.StartAndObserve | src/main/java/org/lorislab/harvester/web/view/DashboardViewController.java:83-107 | a start while running does nothing at all; otherwise the "insert" run's entries, one per subdirectory in order, end up in `logs`, and `running` is cleared again |

## Left out

- DbUnit internals: parsing data sets, what an operation does to the tables, and the data-type factories' behaviour. Each load and each operation is an opaque call that succeeds or throws.
- `HarvesterProperties` and `DataSourceUtil`: file I/O and JNDI are inputs of the model (`Env`). Reading a directory's `jndi` either yields a value (possibly null) or throws; an IOException is caught inside `getHarvesterProperties`, but an IllegalArgumentException from a malformed escape escapes it, and both loops catch it. Which keys a load that stopped part way keeps is not modelled; the `jndi` it yields is just some value of the input.
- `Files.isReadable`, `Files.exists`, `Path.toAbsolutePath`: inputs of the model. `Paths.get` rejecting a malformed path (InvalidPathException) is not modelled.
- An exception thrown by a directory stream's iterator in the middle of a listing is not modelled. A listing either fails as a whole or yields all its entries.
- The iteration order of the `TYPE_FACTORY` HashMap is fixed as "H2" before "Oracle", the order of a default sixteen-bucket table. Another JDK could differ. The first-match property is proved for any key order.
- Getters are plain field reads and have no members of their own.
- ImportExecutorService.ImportEvents: an update event carries the contents of the ImportLogItem, not the reference. The service never changes an item after firing it.
- Dashboard.DashboardViewController.OnUpdateEvent: the NullPointerException is returned to the caller. Its propagation back through `events.fire` into the service's loop is not modelled.
- Dashboard.StartAndObserve: the asynchronous service call and the CDI event delivery run one after the other. Interleavings with other requests are not modelled, and neither is `synchronized`.
- Logging, `printStackTrace` and the WebSocket transport to the page are left out. So are `@Asynchronous` and CDI event delivery; the events become an append-only trace.
- `getMetaData` failing inside `getIDatabaseConnection` is not modelled. The product name is part of the connection.
- Closing the directory streams is not modelled.
- LegacyImportService.XlsImport: the lambda that calls `execute` inside `forEach` cannot throw a checked exception, so the bean does not compile as written. The model takes the evident intent: a failing file abandons the rest of its directory.
