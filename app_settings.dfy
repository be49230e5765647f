/** The unique unit-test database name helpers of TestSupport.Helpers.AppSettings.

    A test asks for a connection string whose database name is the configured
    unit-test database name with the test class name (and optionally a method
    name) appended, so that each test class gets a database of its own. The
    configured name must end with "Test": this guards against a later
    "delete all unit-test databases" clean-up touching a production database.

    The configuration file and the connection-string libraries are outside
    this model: the loaded ConnectionStrings section is a map parameter, and
    the library's parser is a function parameter that yields the parsed
    connection (database name plus every other setting), or None when the
    library rejects the text. */
module AppSettings {

  datatype Option<T> = None | Some(value: T)

  /** The exceptions the helpers raise. The first and last are the
      InvalidOperationException messages of the source; the second is the
      connection-string library refusing to parse the configured text. */
  datatype SettingsError =
    | MissingConnectionString(connectionName: string)
    | InvalidConnectionString(text: string)
    | DatabaseNameNotForUnitTests(databaseName: string)
    | DatabaseNameTooLong(databaseName: string, length: nat)

  datatype Result<T> = Ok(value: T) | Err(error: SettingsError)

  /** Name of the SQL Server connection string in the configuration. */
  const UnitTestConnectionStringName: string := "UnitTestConnection"

  /** Name of the PostgreSQL connection string in the configuration. */
  const PostgreSqlConnectionString: string := "PostgreSqlConnection"

  /** Every unit-test database name must end with this. */
  const RequiredEndingToUnitTestDatabaseName: string := "Test"

  /** Separator placed before the class name and before the method name. */
  const DefaultSeparator: char := '_'

  /** Longest database name the PostgreSQL helper accepts. */
  const MaxPostgreSqlDatabaseNameLength: nat := 64

  /** A parsed connection string: its database name (InitialCatalog for
      SQL Server, Database for PostgreSQL) and all its other settings. */
  datatype Connection = Connection(database: string, settings: map<string, string>)

  /** The ConnectionStrings section of the loaded configuration. */
  type ConnectionStrings = map<string, string>

  /** The parser of a connection-string library; None when it rejects the text. */
  type Parser = string -> Option<Connection>

  /** Stands for the configuration library's GetConnectionString: a name
      that is not configured reads as null. The map's keys are taken to be
      spelled as the constants above; the library's own lookup ignores case. */
  function GetConnectionString(config: ConnectionStrings, name: string): Option<string>
  {
    if name in config then Some(config[name]) else None
  }

  predicate IsNullOrEmpty(s: Option<string>)
  {
    s.None? || s.value == ""
  }

  /** Ordinal suffix test. */
  predicate EndsWith(s: string, suffix: string)
  {
    |suffix| <= |s| && s[|s| - |suffix|..] == suffix
  }

  /** The text appended to the database name: the separator and the class
      name, then the separator and the method name when one is given. */
  function ExtraDatabaseName(className: string, optionalMethodName: Option<string>, separator: char): (extra: string)
    ensures |extra| > |className|
    ensures extra[0] == separator
  {
    [separator] + className
    + (if IsNullOrEmpty(optionalMethodName) then [] else [separator] + optionalMethodName.value)
  }

  /** The first two steps both helpers share: look the connection string up
      (missing or empty fails), parse it, and insist its database name ends
      with RequiredEndingToUnitTestDatabaseName. */
  function UnitTestConnection(config: ConnectionStrings, connectionName: string, parse: Parser): Result<Connection>
  {
    var orgConnect := GetConnectionString(config, connectionName);
    if IsNullOrEmpty(orgConnect) then
      Err(MissingConnectionString(connectionName))
    else
      match parse(orgConnect.value)
      case None => Err(InvalidConnectionString(orgConnect.value))
      case Some(c) =>
        if !EndsWith(c.database, RequiredEndingToUnitTestDatabaseName) then
          Err(DatabaseNameNotForUnitTests(c.database))
        else
          Ok(c)
  }

  /** What GetUniqueDatabaseConnectionString computes. */
  function UniqueSqlServerConnection(className: string, config: ConnectionStrings, parse: Parser,
                                     optionalMethodName: Option<string> := None,
                                     separator: char := DefaultSeparator): Result<Connection>
  {
    match UnitTestConnection(config, UnitTestConnectionStringName, parse)
    case Err(e) => Err(e)
    case Ok(c) => Ok(c.(database := c.database + ExtraDatabaseName(className, optionalMethodName, separator)))
  }

  /** What GetUniquePostgreSqlConnectionString computes: the same name, then
      refused when it is longer than MaxPostgreSqlDatabaseNameLength. */
  function UniquePostgreSqlConnection(className: string, config: ConnectionStrings, parse: Parser,
                                      optionalMethodName: Option<string> := None,
                                      separator: char := DefaultSeparator): Result<Connection>
  {
    match UnitTestConnection(config, PostgreSqlConnectionString, parse)
    case Err(e) => Err(e)
    case Ok(c) =>
      var name := c.database + ExtraDatabaseName(className, optionalMethodName, separator);
      if |name| > MaxPostgreSqlDatabaseNameLength then Err(DatabaseNameTooLong(name, |name|))
      else Ok(c.(database := name))
  }

  /** The mutable connection-string builder once it has parsed its text. */
  class ConnectionStringBuilder {
    var database: string
    var settings: map<string, string>

    constructor (c: Connection)
      ensures database == c.database && settings == c.settings
    {
      database := c.database;
      settings := c.settings;
    }

    /** The settings the builder would write back out. */
    function ToConnection(): Connection
      reads this
    {
      Connection(database, settings)
    }

    /** `builder.InitialCatalog += extra` / `builder.Database += extra`. */
    method AppendToDatabase(extra: string)
      modifies this
      ensures database == old(database) + extra
      ensures settings == old(settings)
    {
      database := database + extra;
    }
  }

  /** GetUniqueDatabaseConnectionString: the SQL Server connection string
      for the test class `className`. */
  method GetUniqueDatabaseConnectionString(className: string, config: ConnectionStrings, parse: Parser,
                                           optionalMethodName: Option<string> := None,
                                           separator: char := DefaultSeparator)
    returns (r: Result<Connection>)
    ensures r == UniqueSqlServerConnection(className, config, parse, optionalMethodName, separator)
  {
    var orgConnect := GetConnectionString(config, UnitTestConnectionStringName);
    if IsNullOrEmpty(orgConnect) {
      return Err(MissingConnectionString(UnitTestConnectionStringName));
    }
    var parsed := parse(orgConnect.value);
    if parsed.None? {
      return Err(InvalidConnectionString(orgConnect.value));
    }
    var builder := new ConnectionStringBuilder(parsed.value);
    if !EndsWith(builder.database, RequiredEndingToUnitTestDatabaseName) {
      return Err(DatabaseNameNotForUnitTests(builder.database));
    }

    var extraDatabaseName := [separator] + className;
    if !IsNullOrEmpty(optionalMethodName) {
      extraDatabaseName := extraDatabaseName + [separator] + optionalMethodName.value;
    }
    assert extraDatabaseName == ExtraDatabaseName(className, optionalMethodName, separator);

    builder.AppendToDatabase(extraDatabaseName);

    r := Ok(builder.ToConnection());
  }

  /** GetUniquePostgreSqlConnectionString: the PostgreSQL connection string
      for the test class `className`. */
  method GetUniquePostgreSqlConnectionString(className: string, config: ConnectionStrings, parse: Parser,
                                             optionalMethodName: Option<string> := None,
                                             separator: char := DefaultSeparator)
    returns (r: Result<Connection>)
    ensures r == UniquePostgreSqlConnection(className, config, parse, optionalMethodName, separator)
  {
    var orgConnect := GetConnectionString(config, PostgreSqlConnectionString);
    if IsNullOrEmpty(orgConnect) {
      return Err(MissingConnectionString(PostgreSqlConnectionString));
    }
    var parsed := parse(orgConnect.value);
    if parsed.None? {
      return Err(InvalidConnectionString(orgConnect.value));
    }
    var builder := new ConnectionStringBuilder(parsed.value);
    if !EndsWith(builder.database, RequiredEndingToUnitTestDatabaseName) {
      return Err(DatabaseNameNotForUnitTests(builder.database));
    }

    var extraDatabaseName := [separator] + className;
    if !IsNullOrEmpty(optionalMethodName) {
      extraDatabaseName := extraDatabaseName + [separator] + optionalMethodName.value;
    }
    assert extraDatabaseName == ExtraDatabaseName(className, optionalMethodName, separator);

    builder.AppendToDatabase(extraDatabaseName);

    if |builder.database| > MaxPostgreSqlDatabaseNameLength {
      return Err(DatabaseNameTooLong(builder.database, |builder.database|));
    }

    r := Ok(builder.ToConnection());
  }
}
