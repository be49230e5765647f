/** What the unique-database-name helpers promise: the order of their error
    checks, the exact shape of the new database name, the PostgreSQL length
    bound, that nothing but the database name changes, and that different
    test classes (and method names) get different databases. */
module AppSettingsProperties {
  import opened AppSettings

  /** The connection configured under `connectionName`, as the library parses it. */
  function ConfiguredConnection(config: ConnectionStrings, connectionName: string, parse: Parser): Option<Connection>
  {
    if connectionName in config then parse(config[connectionName]) else None
  }

  /** How the helpers read the optional method name: null and "" both mean none. */
  function MethodPart(optionalMethodName: Option<string>): string
  {
    if IsNullOrEmpty(optionalMethodName) then "" else optionalMethodName.value
  }

  // ---------------------------------------------------------------------------
  // The checks shared by both helpers
  // ---------------------------------------------------------------------------

  /** The shared checks succeed exactly when the connection string is
      configured and non-empty, parses, and names a database ending in
      "Test"; the connection they pass on is the parsed one, untouched. */
  lemma UnitTestConnectionSucceeds(config: ConnectionStrings, connectionName: string, parse: Parser)
    ensures UnitTestConnection(config, connectionName, parse).Ok?
            <==> (connectionName in config && config[connectionName] != ""
                  && parse(config[connectionName]).Some?
                  && EndsWith(parse(config[connectionName]).value.database, RequiredEndingToUnitTestDatabaseName))
    ensures UnitTestConnection(config, connectionName, parse).Ok?
            ==> Some(UnitTestConnection(config, connectionName, parse).value) == ConfiguredConnection(config, connectionName, parse)
  {
  }

  /** A missing or empty connection string is reported before anything
      else, whatever the class name, method name and separator, in both
      helpers; and that error is reported for no other reason. */
  lemma MissingConnectionStringFailsFirst(className: string, config: ConnectionStrings, parse: Parser,
                                          optionalMethodName: Option<string>, separator: char)
    ensures UniqueSqlServerConnection(className, config, parse, optionalMethodName, separator)
              == Err(MissingConnectionString(UnitTestConnectionStringName))
            <==> IsNullOrEmpty(GetConnectionString(config, UnitTestConnectionStringName))
    ensures UniquePostgreSqlConnection(className, config, parse, optionalMethodName, separator)
              == Err(MissingConnectionString(PostgreSqlConnectionString))
            <==> IsNullOrEmpty(GetConnectionString(config, PostgreSqlConnectionString))
  {
  }

  /** SQL Server: once the connection string is present and parses, the
      call succeeds exactly when the ORIGINAL database name ends with
      "Test", and otherwise fails naming that original name. */
  lemma SqlServerRequiresTestEnding(className: string, config: ConnectionStrings, parse: Parser,
                                    optionalMethodName: Option<string>, separator: char)
    requires !IsNullOrEmpty(GetConnectionString(config, UnitTestConnectionStringName))
    requires parse(config[UnitTestConnectionStringName]).Some?
    ensures var db := parse(config[UnitTestConnectionStringName]).value.database;
            var r := UniqueSqlServerConnection(className, config, parse, optionalMethodName, separator);
            && (r.Ok? <==> EndsWith(db, RequiredEndingToUnitTestDatabaseName))
            && (!EndsWith(db, RequiredEndingToUnitTestDatabaseName) ==> r == Err(DatabaseNameNotForUnitTests(db)))
  {
  }

  /** PostgreSQL: the "Test" ending is checked on the original name before
      the length, so a wrongly named database is reported as such however
      long the new name would be; with the right ending the call succeeds
      exactly when the new name fits in 64 characters. */
  lemma PostgreSqlRequiresTestEnding(className: string, config: ConnectionStrings, parse: Parser,
                                     optionalMethodName: Option<string>, separator: char)
    requires !IsNullOrEmpty(GetConnectionString(config, PostgreSqlConnectionString))
    requires parse(config[PostgreSqlConnectionString]).Some?
    ensures var db := parse(config[PostgreSqlConnectionString]).value.database;
            var name := db + ExtraDatabaseName(className, optionalMethodName, separator);
            var r := UniquePostgreSqlConnection(className, config, parse, optionalMethodName, separator);
            && (!EndsWith(db, RequiredEndingToUnitTestDatabaseName) ==> r == Err(DatabaseNameNotForUnitTests(db)))
            && (EndsWith(db, RequiredEndingToUnitTestDatabaseName) && |name| > MaxPostgreSqlDatabaseNameLength
                ==> r == Err(DatabaseNameTooLong(name, |name|)))
            && (r.Ok? <==> EndsWith(db, RequiredEndingToUnitTestDatabaseName) && |name| <= MaxPostgreSqlDatabaseNameLength)
  {
  }

  // ---------------------------------------------------------------------------
  // The new database name
  // ---------------------------------------------------------------------------

  /** SQL Server success: the new name is the original, the separator and the
      class name, then the separator and the method name if one was given;
      the original (which ends with "Test") is a strict prefix of it; every
      other setting is returned unchanged. */
  lemma SqlServerDatabaseName(className: string, config: ConnectionStrings, parse: Parser,
                              optionalMethodName: Option<string>, separator: char)
    requires UniqueSqlServerConnection(className, config, parse, optionalMethodName, separator).Ok?
    ensures ConfiguredConnection(config, UnitTestConnectionStringName, parse).Some?
    ensures var orig := ConfiguredConnection(config, UnitTestConnectionStringName, parse).value;
            var r := UniqueSqlServerConnection(className, config, parse, optionalMethodName, separator).value;
            && (IsNullOrEmpty(optionalMethodName) ==> r.database == orig.database + [separator] + className)
            && (!IsNullOrEmpty(optionalMethodName)
                ==> r.database == orig.database + [separator] + className + [separator] + optionalMethodName.value)
            && |orig.database| < |r.database| && r.database[..|orig.database|] == orig.database
            && EndsWith(orig.database, RequiredEndingToUnitTestDatabaseName)
            && r.settings == orig.settings
  {
  }

  /** PostgreSQL success: the same name as for SQL Server, with the same
      unchanged settings, and at most 64 characters long. */
  lemma PostgreSqlDatabaseName(className: string, config: ConnectionStrings, parse: Parser,
                               optionalMethodName: Option<string>, separator: char)
    requires UniquePostgreSqlConnection(className, config, parse, optionalMethodName, separator).Ok?
    ensures ConfiguredConnection(config, PostgreSqlConnectionString, parse).Some?
    ensures var orig := ConfiguredConnection(config, PostgreSqlConnectionString, parse).value;
            var r := UniquePostgreSqlConnection(className, config, parse, optionalMethodName, separator).value;
            && (IsNullOrEmpty(optionalMethodName) ==> r.database == orig.database + [separator] + className)
            && (!IsNullOrEmpty(optionalMethodName)
                ==> r.database == orig.database + [separator] + className + [separator] + optionalMethodName.value)
            && |orig.database| < |r.database| && r.database[..|orig.database|] == orig.database
            && EndsWith(orig.database, RequiredEndingToUnitTestDatabaseName)
            && r.settings == orig.settings
            && |r.database| <= MaxPostgreSqlDatabaseNameLength
  {
  }

  /** Called with only the test class, the SQL Server helper uses '_' as
      separator and adds no method name. */
  lemma SqlServerDefaultSeparatorIsUnderscore(className: string, config: ConnectionStrings, parse: Parser)
    requires UniqueSqlServerConnection(className, config, parse).Ok?
    ensures ConfiguredConnection(config, UnitTestConnectionStringName, parse).Some?
    ensures UniqueSqlServerConnection(className, config, parse).value.database
            == ConfiguredConnection(config, UnitTestConnectionStringName, parse).value.database + "_" + className
  {
  }

  /** Called with only the test class, the PostgreSQL helper uses '_' as
      separator and adds no method name. */
  lemma PostgreSqlDefaultSeparatorIsUnderscore(className: string, config: ConnectionStrings, parse: Parser)
    requires UniquePostgreSqlConnection(className, config, parse).Ok?
    ensures ConfiguredConnection(config, PostgreSqlConnectionString, parse).Some?
    ensures UniquePostgreSqlConnection(className, config, parse).value.database
            == ConfiguredConnection(config, PostgreSqlConnectionString, parse).value.database + "_" + className
  {
  }

  /** Given the same configured text under both keys and the same parse
      result for it, the two helpers differ only in the key they name when
      it is missing and in the length limit: PostgreSQL returns what SQL
      Server returns unless that name is longer than 64 characters. (In the
      source the two helpers parse with different libraries.) */
  lemma PostgreSqlIsSqlServerWithLengthLimit(className: string, config: ConnectionStrings, parse: Parser,
                                             optionalMethodName: Option<string>, separator: char)
    requires UnitTestConnectionStringName in config <==> PostgreSqlConnectionString in config
    requires UnitTestConnectionStringName in config
             ==> config[UnitTestConnectionStringName] == config[PostgreSqlConnectionString]
    ensures var sql := UniqueSqlServerConnection(className, config, parse, optionalMethodName, separator);
            var pg := UniquePostgreSqlConnection(className, config, parse, optionalMethodName, separator);
            pg == if sql.Ok? && |sql.value.database| > MaxPostgreSqlDatabaseNameLength
                  then Err(DatabaseNameTooLong(sql.value.database, |sql.value.database|))
                  else if sql == Err(MissingConnectionString(UnitTestConnectionStringName))
                  then Err(MissingConnectionString(PostgreSqlConnectionString))
                  else sql
  {
  }

  /** A class name of this many 'a's. */
  function Repeat(n: nat): (s: string)
    ensures |s| == n
  {
    if n == 0 then "" else Repeat(n - 1) + "a"
  }

  /** Only the PostgreSQL helper bounds the length: a 61-character class
      name on "UnitTest" gives SQL Server a 70-character database name and
      makes PostgreSQL refuse it. */
  lemma SqlServerHasNoLengthLimit()
    ensures var config := map[UnitTestConnectionStringName := "Database=UnitTest",
                              PostgreSqlConnectionString := "Database=UnitTest"];
            var parse: Parser := (s: string) => Some(Connection("UnitTest", map[]));
            var sql := UniqueSqlServerConnection(Repeat(61), config, parse);
            var pg := UniquePostgreSqlConnection(Repeat(61), config, parse);
            && sql.Ok? && |sql.value.database| == 70
            && pg == Err(DatabaseNameTooLong(sql.value.database, 70))
  {
  }

  // ---------------------------------------------------------------------------
  // Uniqueness: reading the class and method name back out
  // ---------------------------------------------------------------------------

  /** The longest prefix of `s` that does not contain `x`. */
  function TakeUntil(s: string, x: char): (r: string)
    ensures |r| <= |s| && r == s[..|r|]
    ensures x !in r
    ensures |r| < |s| ==> s[|r|] == x
  {
    if s == [] || s[0] == x then [] else [s[0]] + TakeUntil(s[1..], x)
  }

  lemma {:induction false} TakeUntilStopsAtSeparator(c: string, t: string, x: char)
    requires x !in c
    requires t == [] || t[0] == x
    ensures TakeUntil(c + t, x) == c
  {
    if c != [] {
      assert (c + t)[0] == c[0];
      assert (c + t)[1..] == c[1..] + t;
      TakeUntilStopsAtSeparator(c[1..], t, x);
    }
  }

  /** Reads the class name and the method name ("" for none) back out of
      the text the helpers append. */
  function SplitExtraDatabaseName(extra: string, separator: char): (parts: (string, string))
    requires |extra| > 0
  {
    var className := TakeUntil(extra[1..], separator);
    var rest := extra[1 + |className|..];
    (className, if rest == [] then "" else rest[1..])
  }

  /** When the class name does not contain the separator, the appended text
      determines the class name and the method name it was built from. */
  lemma SplitExtraDatabaseNameRoundTrip(className: string, optionalMethodName: Option<string>, separator: char)
    requires separator !in className
    ensures SplitExtraDatabaseName(ExtraDatabaseName(className, optionalMethodName, separator), separator)
            == (className, MethodPart(optionalMethodName))
  {
    var tail: string := if IsNullOrEmpty(optionalMethodName) then [] else [separator] + optionalMethodName.value;
    var extra := ExtraDatabaseName(className, optionalMethodName, separator);
    assert extra == [separator] + className + tail;
    assert extra[1..] == className + tail;
    TakeUntilStopsAtSeparator(className, tail, separator);
    assert extra[1 + |className|..] == tail;
  }

  /** Appended to the same original name, two separator-free class names
      give the same database name only with the same class and method. */
  lemma ExtraDatabaseNameInjective(orig: string, separator: char,
                                   className1: string, optionalMethodName1: Option<string>,
                                   className2: string, optionalMethodName2: Option<string>)
    requires separator !in className1 && separator !in className2
    requires (className1, MethodPart(optionalMethodName1)) != (className2, MethodPart(optionalMethodName2))
    ensures orig + ExtraDatabaseName(className1, optionalMethodName1, separator)
            != orig + ExtraDatabaseName(className2, optionalMethodName2, separator)
  {
    var extra1 := ExtraDatabaseName(className1, optionalMethodName1, separator);
    var extra2 := ExtraDatabaseName(className2, optionalMethodName2, separator);
    SplitExtraDatabaseNameRoundTrip(className1, optionalMethodName1, separator);
    SplitExtraDatabaseNameRoundTrip(className2, optionalMethodName2, separator);
    assert extra1 != extra2;
    assert (orig + extra1)[|orig|..] == extra1;
    assert (orig + extra2)[|orig|..] == extra2;
  }

  /** Two tests whose class names do not contain the separator get the same
      SQL Server database (from the same configuration) only if they have
      the same class name and the same method name. */
  lemma DistinctTestsGetDistinctSqlServerDatabases(config: ConnectionStrings, parse: Parser, separator: char,
                                                   className1: string, optionalMethodName1: Option<string>,
                                                   className2: string, optionalMethodName2: Option<string>)
    requires separator !in className1 && separator !in className2
    requires (className1, MethodPart(optionalMethodName1)) != (className2, MethodPart(optionalMethodName2))
    requires UniqueSqlServerConnection(className1, config, parse, optionalMethodName1, separator).Ok?
    requires UniqueSqlServerConnection(className2, config, parse, optionalMethodName2, separator).Ok?
    ensures UniqueSqlServerConnection(className1, config, parse, optionalMethodName1, separator).value.database
            != UniqueSqlServerConnection(className2, config, parse, optionalMethodName2, separator).value.database
  {
    var orig := UnitTestConnection(config, UnitTestConnectionStringName, parse).value.database;
    ExtraDatabaseNameInjective(orig, separator, className1, optionalMethodName1, className2, optionalMethodName2);
  }

  /** The same for PostgreSQL databases. */
  lemma DistinctTestsGetDistinctPostgreSqlDatabases(config: ConnectionStrings, parse: Parser, separator: char,
                                                    className1: string, optionalMethodName1: Option<string>,
                                                    className2: string, optionalMethodName2: Option<string>)
    requires separator !in className1 && separator !in className2
    requires (className1, MethodPart(optionalMethodName1)) != (className2, MethodPart(optionalMethodName2))
    requires UniquePostgreSqlConnection(className1, config, parse, optionalMethodName1, separator).Ok?
    requires UniquePostgreSqlConnection(className2, config, parse, optionalMethodName2, separator).Ok?
    ensures UniquePostgreSqlConnection(className1, config, parse, optionalMethodName1, separator).value.database
            != UniquePostgreSqlConnection(className2, config, parse, optionalMethodName2, separator).value.database
  {
    var orig := UnitTestConnection(config, PostgreSqlConnectionString, parse).value.database;
    ExtraDatabaseNameInjective(orig, separator, className1, optionalMethodName1, className2, optionalMethodName2);
  }

  /** With a separator inside a class name the names can collide: class
      "Book_Tests" alone and class "Book" with method "Tests" both give
      "UnitTest_Book_Tests". */
  lemma SeparatorInClassNameCanCollide()
    ensures var config := map[UnitTestConnectionStringName := "Database=UnitTest"];
            var parse: Parser := (s: string) => Some(Connection("UnitTest", map[]));
            var r1 := UniqueSqlServerConnection("Book_Tests", config, parse);
            var r2 := UniqueSqlServerConnection("Book", config, parse, Some("Tests"));
            r1.Ok? && r2.Ok? && r1.value.database == r2.value.database == "UnitTest_Book_Tests"
  {
  }
}
