/** The three mutable records the import loops fill through their setters:
    ImportLogItem (one per imported directory), DatasourceDirectoryData (one
    per inventoried directory) and DirectoryData (the inventory of the root).
    A Java null field is `None` (or a null reference); Java getters are plain
    field reads here. */
module Model {
  import opened Common

  /** A java.util.HashSet that the records share by reference: whoever holds
      the reference sees every later `add`. */
  class MutableSet<T(==)> {
    var elems: set<T>

    constructor ()
      ensures elems == {}
    {
      elems := {};
    }

    method Add(x: T)
      modifies this`elems
      ensures elems == old(elems) + {x}
    {
      elems := elems + {x};
    }
  }

  /** The contents of an ImportLogItem at one moment. */
  datatype LogEntry = LogEntry(
    jndi: Option<string>,
    file: Option<string>,
    message: Option<string>,
    operation: Option<string>)

  /** One log record of an import run. */
  class ImportLogItem {
    var jndi: Option<string>
    var file: Option<string>
    var message: Option<string>
    var operation: Option<string>

    constructor ()
      ensures jndi == None && file == None && message == None && operation == None
    {
      jndi, file, message, operation := None, None, None, None;
    }

    function View(): LogEntry
      reads this
    {
      LogEntry(jndi, file, message, operation)
    }

    method SetJndi(jndi: Option<string>)
      modifies this`jndi
      ensures this.jndi == jndi
    {
      this.jndi := jndi;
    }

    method SetFile(file: Option<string>)
      modifies this`file
      ensures this.file == file
    {
      this.file := file;
    }

    method SetMessage(message: Option<string>)
      modifies this`message
      ensures this.message == message
    {
      this.message := message;
    }

    method SetOperation(operation: Option<string>)
      modifies this`operation
      ensures this.operation == operation
    {
      this.operation := operation;
    }
  }

  /** The contents of a DatasourceDirectoryData at one moment, with the
      contents of the file-name set it refers to. */
  datatype DatasourceView = DatasourceView(
    name: Option<string>,
    files: Option<set<string>>,
    jndi: Option<string>,
    error: Option<string>)

  /** The inventory record of one data-source subdirectory. */
  class DatasourceDirectoryData {
    var name: Option<string>
    var files: MutableSet?<string>
    var jndi: Option<string>
    var error: Option<string>

    constructor ()
      ensures name == None && files == null && jndi == None && error == None
    {
      name, files, jndi, error := None, null, None, None;
    }

    function View(): DatasourceView
      reads this, files
    {
      DatasourceView(name, if files == null then None else Some(files.elems), jndi, error)
    }

    method SetName(name: Option<string>)
      modifies this`name
      ensures this.name == name
    {
      this.name := name;
    }

    /** Stores the reference itself, not a copy. */
    method SetFiles(files: MutableSet?<string>)
      modifies this`files
      ensures this.files == files
    {
      this.files := files;
    }

    method SetJndi(jndi: Option<string>)
      modifies this`jndi
      ensures this.jndi == jndi
    {
      this.jndi := jndi;
    }

    method SetError(error: Option<string>)
      modifies this`error
      ensures this.error == error
    {
      this.error := error;
    }
  }

  /** The inventory of the harvester root directory. */
  class DirectoryData {
    var name: Option<string>
    var rootExists: bool
    var datasources: MutableSet?<DatasourceDirectoryData>

    constructor ()
      ensures name == None && !rootExists && datasources == null
    {
      name, rootExists, datasources := None, false, null;
    }

    method SetName(name: Option<string>)
      modifies this`name
      ensures this.name == name
    {
      this.name := name;
    }

    method SetExists(value: bool)
      modifies this`rootExists
      ensures rootExists == value
    {
      rootExists := value;
    }

    /** Stores the reference itself, not a copy. */
    method SetDatasources(datasources: MutableSet?<DatasourceDirectoryData>)
      modifies this`datasources
      ensures this.datasources == datasources
    {
      this.datasources := datasources;
    }
  }

  /** Because SetFiles keeps the reference, a file name added through the
      shared set after it was stored is visible in the record, and nothing
      else in the record changes. */
  method SharedFilesSet(item: DatasourceDirectoryData, files: MutableSet<string>, x: string)
    requires item.files == files
    modifies files`elems
    ensures item.View().files == Some(old(files.elems) + {x})
    ensures item.View() == old(item.View()).(files := Some(old(files.elems) + {x}))
  {
    files.Add(x);
  }
}
