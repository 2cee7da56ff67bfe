/** DbUnitExecutorUtil: the fixed table of operation names, the table of
    data-type factories keyed by database product name, the dialect search
    that configures a DbUnit connection, and the three `execute` overloads.

    DbUnit itself (CsvDataSet/XlsDataSet parsing, what an operation does to
    the database) is opaque: loading a data set and running an operation are
    calls that either succeed or throw, supplied by a `DbUnit` value. An
    overload does not touch the database directly; it returns the operation
    calls it made, in order, and the exception it threw. */
module DbUnitExecutor {
  import opened Common

  /** The DbUnit DatabaseOperation constants that are registered. */
  datatype Operation = Insert | Refresh | CleanInsert | Delete | DeleteAll | TruncateTable | Update

  /** The data-type factories that can be installed on a connection. */
  datatype DataTypeFactory = Oracle10DataTypeFactory | H2DataTypeFactory

  /** A loaded IDataSet, identified by what it was read from. */
  datatype DataSet = CsvDataSet(path: string) | XlsDataSet(data: seq<bv8>)

  /** A DbUnit DatabaseConnection over a JDBC connection; `factory` is the
      data-type factory set in its config, None when DbUnit's default stays. */
  datatype DatabaseConnection = DatabaseConnection(connection: Connection, factory: Option<DataTypeFactory>)

  /** One call of DatabaseOperation.execute. */
  datatype Applied = Applied(operation: Operation, target: DatabaseConnection, dataSet: DataSet)

  /** What one call of an `execute` overload did: the operations it ran, in
      order, and the exception it threw, if any. */
  datatype Outcome = Outcome(applied: seq<Applied>, thrown: Option<Exception>)

  /** The library and file-system calls the overloads depend on. */
  datatype DbUnit = DbUnit(
    oracleDriverFound: bool,                // Class.forName("oracle.jdbc.driver.OracleDriver") succeeded
    isReadable: string -> bool,             // Files.isReadable
    readCsv: string -> Option<Exception>,   // new CsvDataSet(path.toFile())
    readXls: seq<bv8> -> Option<Exception>, // new XlsDataSet(in)
    run: Applied -> Option<Exception>)      // dbOperation.execute(idbConnection, dataSet)

  // ---------------------------------------------------------------- OPERATION

  /** The OPERATION table as its static initialiser fills it. The key of
      TRUNCATE_TABLE is "runcateTable", exactly as registered. */
  const OperationTable: map<string, Operation> := map[
    "insert" := Insert,
    "refresh" := Refresh,
    "cleanInsert" := CleanInsert,
    "delete" := Delete,
    "deleteAll" := DeleteAll,
    "runcateTable" := TruncateTable,
    "update" := Update]

  /** The name each operation is registered under, written per operation. */
  function RegisteredName(op: Operation): string
  {
    match op
    case Insert => "insert"
    case Refresh => "refresh"
    case CleanInsert => "cleanInsert"
    case Delete => "delete"
    case DeleteAll => "deleteAll"
    case TruncateTable => "runcateTable"
    case Update => "update"
  }

  /** OPERATION.get(name): the operation registered under `name`, or null. */
  function LookupOperation(name: string): Option<Operation>
  {
    if name in OperationTable then Some(OperationTable[name]) else None
  }

  /** A name is found exactly when some operation is registered under it, and
      what is found is that operation. */
  lemma LookupOperationInverse(name: string)
    ensures LookupOperation(name).Some? ==> RegisteredName(LookupOperation(name).value) == name
    ensures LookupOperation(name).None? <==> forall op: Operation :: RegisteredName(op) != name
  {
  }

  /** Exactly seven names are registered; "truncateTable" is not one of them. */
  lemma RegisteredOperations(name: string)
    ensures LookupOperation(name).Some? <==>
      name in {"insert", "refresh", "cleanInsert", "delete", "deleteAll", "runcateTable", "update"}
    ensures |OperationTable| == 7
    ensures LookupOperation("truncateTable") == None
  {
    assert OperationTable.Keys == {"insert", "refresh", "cleanInsert", "delete", "deleteAll", "runcateTable", "update"};
  }

  /** Every operation is found again under its registered name. */
  lemma LookupRegisteredName(op: Operation)
    ensures LookupOperation(RegisteredName(op)) == Some(op)
  {
  }

  // ------------------------------------------------------------- TYPE_FACTORY

  /** The TYPE_FACTORY table as its static initialiser fills it: "Oracle" only
      when the Oracle driver class loads, "H2" always. */
  function TypeFactories(oracleDriverFound: bool): (m: map<string, DataTypeFactory>)
    ensures "H2" in m && m["H2"] == H2DataTypeFactory
    ensures "Oracle" in m <==> oracleDriverFound
    ensures oracleDriverFound ==> m["Oracle"] == Oracle10DataTypeFactory
    ensures forall k :: k in m ==> k == "H2" || k == "Oracle"
  {
    if oracleDriverFound then map["Oracle" := Oracle10DataTypeFactory, "H2" := H2DataTypeFactory]
    else map["H2" := H2DataTypeFactory]
  }

  /** `keys` lists the keys of `m`, each once. */
  predicate EnumeratesKeys<V>(m: map<string, V>, keys: seq<string>)
  {
    && (forall i :: 0 <= i < |keys| ==> keys[i] in m)
    && (forall k :: k in m ==> k in keys)
    && (forall i, j :: 0 <= i < j < |keys| ==> keys[i] != keys[j])
  }

  /** The order in which TYPE_FACTORY.keySet() is iterated. A default
      sixteen-bucket HashMap places "H2" (hash 2282, bucket 10) before
      "Oracle" (bucket 12). */
  function TypeFactoryKeys(oracleDriverFound: bool): (keys: seq<string>)
    ensures EnumeratesKeys(TypeFactories(oracleDriverFound), keys)
  {
    if oracleDriverFound then ["H2", "Oracle"] else ["H2"]
  }

  /** The first key, in iteration order, that occurs in the product name. */
  function FirstMatch(keys: seq<string>, productName: string): (r: Option<string>)
    ensures r.Some? ==> r.value in keys && Contains(productName, r.value)
  {
    if keys == [] then None
    else if Contains(productName, keys[0]) then Some(keys[0])
    else FirstMatch(keys[1..], productName)
  }

  /** FirstMatch is the earliest matching key, and there is none exactly when
      no key matches. */
  lemma {:induction false} FirstMatchIsEarliest(keys: seq<string>, productName: string)
    ensures FirstMatch(keys, productName).None? <==>
      forall i :: 0 <= i < |keys| ==> !Contains(productName, keys[i])
    ensures FirstMatch(keys, productName).Some? ==>
      exists i :: 0 <= i < |keys| && keys[i] == FirstMatch(keys, productName).value
        && forall j :: 0 <= j < i ==> !Contains(productName, keys[j])
  {
    if keys != [] && !Contains(productName, keys[0]) {
      FirstMatchIsEarliest(keys[1..], productName);
      if FirstMatch(keys, productName).Some? {
        var i :| 0 <= i < |keys[1..]| && keys[1..][i] == FirstMatch(keys, productName).value
          && forall j :: 0 <= j < i ==> !Contains(productName, keys[1..][j]);
        assert keys[i + 1] == FirstMatch(keys, productName).value;
        forall j | 0 <= j < i + 1 ensures !Contains(productName, keys[j]) {
          if j > 0 { assert keys[j] == keys[1..][j - 1]; }
        }
      } else {
        forall i | 0 <= i < |keys| ensures !Contains(productName, keys[i]) {
          if i > 0 { assert keys[i] == keys[1..][i - 1]; }
        }
      }
    } else if keys != [] {
      assert keys[0] == FirstMatch(keys, productName).value;
    }
  }

  /** The factory getIDatabaseConnection installs for a product name; None
      leaves DbUnit's default factory in place. */
  function SelectedFactory(oracleDriverFound: bool, productName: string): Option<DataTypeFactory>
  {
    match FirstMatch(TypeFactoryKeys(oracleDriverFound), productName)
    case None => None
    case Some(key) => Some(TypeFactories(oracleDriverFound)[key])
  }

  /** "H2" wins whenever it occurs in the product name; the Oracle factory is
      chosen only when its driver loaded, "Oracle" occurs and "H2" does not;
      the default stays exactly when no key occurs. */
  lemma SelectedFactoryChoice(oracleDriverFound: bool, productName: string)
    ensures SelectedFactory(oracleDriverFound, productName) == Some(H2DataTypeFactory) <==>
      Contains(productName, "H2")
    ensures SelectedFactory(oracleDriverFound, productName) == Some(Oracle10DataTypeFactory) <==>
      oracleDriverFound && Contains(productName, "Oracle") && !Contains(productName, "H2")
    ensures SelectedFactory(oracleDriverFound, productName).None? <==>
      forall k :: k in TypeFactories(oracleDriverFound) ==> !Contains(productName, k)
  {
    FirstMatchIsEarliest(TypeFactoryKeys(oracleDriverFound), productName);
  }

  /** getIDatabaseConnection: wraps the connection and scans the factory keys
      in iteration order until one occurs in the reported product name. */
  method GetIDatabaseConnection(lib: DbUnit, connection: Connection) returns (result: DatabaseConnection)
    ensures result.connection == connection
    ensures result.factory == SelectedFactory(lib.oracleDriverFound, connection.productName)
  {
    var factories := TypeFactories(lib.oracleDriverFound);
    var keys := TypeFactoryKeys(lib.oracleDriverFound);
    var dbName := connection.productName;
    var idf: Option<DataTypeFactory> := None;
    var i := 0;
    while idf == None && i < |keys|
      invariant 0 <= i <= |keys|
      invariant idf == None ==> FirstMatch(keys, dbName) == FirstMatch(keys[i..], dbName)
      invariant idf != None ==> idf == SelectedFactory(lib.oracleDriverFound, dbName)
    {
      var key := keys[i];
      assert keys[i..][1..] == keys[i + 1..];
      if Contains(dbName, key) {
        idf := Some(factories[key]);
      }
      i := i + 1;
    }
    result := DatabaseConnection(connection, idf);
  }

  // ------------------------------------------------------------------ execute

  /** The exception execute(Connection, String, Path) throws for a name that
      is not registered, as its toString() renders it. */
  function NotRegistered(operation: string): Exception
  {
    Exception("java.lang.Exception: The operation: " + operation + " is not registred")
  }

  /** execute(Connection, String, byte[]): loads a spreadsheet data set, then
      runs the registered operation on it; an unregistered name only logs a
      warning and returns normally. */
  function ExecuteXls(lib: DbUnit, connection: Connection, operation: string, data: seq<bv8>): (r: Outcome)
    ensures lib.readXls(data).Some? ==> r == Outcome([], lib.readXls(data))
    ensures lib.readXls(data).None? && LookupOperation(operation).None? ==> r == Outcome([], None)
    ensures r.applied != [] <==> lib.readXls(data).None? && LookupOperation(operation).Some?
    ensures r.applied != [] ==>
      && |r.applied| == 1
      && RegisteredName(r.applied[0].operation) == operation
      && r.applied[0].dataSet == XlsDataSet(data)
      && r.applied[0].target.connection == connection
      && r.applied[0].target.factory == SelectedFactory(lib.oracleDriverFound, connection.productName)
      && r.thrown == lib.run(r.applied[0])
  {
    var target := DatabaseConnection(connection, SelectedFactory(lib.oracleDriverFound, connection.productName));
    match lib.readXls(data)
    case Some(e) => Outcome([], Some(e))
    case None =>
      match LookupOperation(operation)
      case None => Outcome([], None)
      case Some(op) =>
        var call := Applied(op, target, XlsDataSet(data));
        Outcome([call], lib.run(call))
  }

  /** execute(Connection, String, Path): loads a CSV data set from the path,
      and only then looks the name up; an unregistered name throws. */
  function ExecutePath(lib: DbUnit, connection: Connection, operation: string, path: string): Outcome
  {
    var target := DatabaseConnection(connection, SelectedFactory(lib.oracleDriverFound, connection.productName));
    match lib.readCsv(path)
    case Some(e) => Outcome([], Some(e))
    case None =>
      match LookupOperation(operation)
      case None => Outcome([], Some(NotRegistered(operation)))
      case Some(op) =>
        var call := Applied(op, target, CsvDataSet(path));
        Outcome([call], lib.run(call))
  }

  /** What the Path overload promises: a load failure surfaces first; an
      unregistered name then throws; otherwise exactly one call runs the
      registered operation on the CSV data set through the configured
      connection, and what it throws is what the overload throws. */
  lemma ExecutePathOutcome(lib: DbUnit, connection: Connection, operation: string, path: string)
    ensures var r := ExecutePath(lib, connection, operation, path);
      && (lib.readCsv(path).Some? ==> r == Outcome([], lib.readCsv(path)))
      && (lib.readCsv(path).None? && LookupOperation(operation).None? ==>
            r == Outcome([], Some(NotRegistered(operation))))
      && (r.applied != [] <==> lib.readCsv(path).None? && LookupOperation(operation).Some?)
      && (r.applied != [] ==>
            && |r.applied| == 1
            && RegisteredName(r.applied[0].operation) == operation
            && r.applied[0].dataSet == CsvDataSet(path)
            && r.applied[0].target.connection == connection
            && r.applied[0].target.factory == SelectedFactory(lib.oracleDriverFound, connection.productName)
            && r.thrown == lib.run(r.applied[0]))
  {
    LookupOperationInverse(operation);
  }

  /** An `execute` call on a connection and a path, as the import loops make
      it for one operation name. */
  type Executor = (Connection, string) -> Outcome

  /** execute(Connection, String, Path) for a fixed operation name. */
  function PathExecutor(lib: DbUnit, operation: string): Executor
  {
    (c: Connection, path: string) => ExecutePath(lib, c, operation, path)
  }

  /** execute(Connection, String, String): a path that is not readable is
      only logged; a readable one goes to the Path overload unchanged. */
  function ExecuteFileName(lib: DbUnit, connection: Connection, operation: string, fileName: string): (r: Outcome)
    ensures !lib.isReadable(fileName) ==> r == Outcome([], None)
    ensures lib.isReadable(fileName) ==> r == ExecutePath(lib, connection, operation, fileName)
  {
    if lib.isReadable(fileName) then ExecutePath(lib, connection, operation, fileName)
    else Outcome([], None)
  }

  /** The overloads disagree on an unregistered name: once the data set has
      loaded, the Path overload throws while the byte[] overload returns
      normally; neither runs anything. */
  lemma UnregisteredNameByOverload(lib: DbUnit, connection: Connection, operation: string, path: string, data: seq<bv8>)
    requires LookupOperation(operation).None?
    requires lib.readCsv(path).None? && lib.readXls(data).None?
    ensures ExecutePath(lib, connection, operation, path) == Outcome([], Some(NotRegistered(operation)))
    ensures ExecuteXls(lib, connection, operation, data) == Outcome([], None)
  {
  }
}
