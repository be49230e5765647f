# Unique unit-test database names (EfCore.TestSupport `AppSettings`)

This project models the helpers that give each unit-test class its own
database. `GetUniqueDatabaseConnectionString` (SQL Server) and
`GetUniquePostgreSqlConnectionString` (PostgreSQL) each work in four steps:

1. They read the connection string `UnitTestConnection` or `PostgreSqlConnection`
   from the loaded configuration. A missing or empty string is refused.
2. They parse it and check that the configured database name ends with `Test`.
   This is the safety measure that keeps a later "delete all unit-test
   databases" clean-up away from production databases.
3. They append the separator (default `'_'`) and the test class name. If a
   method name is given, they also append the separator and the method name.
4. The PostgreSQL helper also refuses a final name longer than 64 characters.
   Every other connection setting is handed back unchanged.

Files:

- `app_settings.dfy`, module `AppSettings`, holds the following:
  - the constants;
  - the `Connection` record, meaning the database name plus all other settings;
  - the error kinds;
  - the specification functions `UniqueSqlServerConnection` and `UniquePostgreSqlConnection`;
  - the mutable `ConnectionStringBuilder`;
  - the two helpers as imperative methods, each proved equal to its specification function.
- `app_settings_properties.dfy`, module `AppSettingsProperties`, holds the
  properties: the order of the error checks, the exact new name, the prefix
  relation, the length bound, unchanged settings, and uniqueness. Uniqueness
  is shown by reading the class and method names back out of the appended
  text.

The configuration and the connection-string library are parameters:

- `config` is the ConnectionStrings section as a `map`.
- `parse` is the library's parser. It gives a `Connection`, or `None` when the
  library refuses the text.
- The test class is represented by its type name, `className`.

## Model

| member | source | states |
|---|---|---|
| `AppSettings.GetUniqueDatabaseConnectionString` | TestSupport/Helpers/AppSettings.cs:86-103 | The SQL Server helper reads the configuration, parses, checks the ending, accumulates the extra name and updates the builder. It returns exactly `UniqueSqlServerConnection` of its inputs: every error and every success case. |
| `AppSettings.GetUniquePostgreSqlConnectionString` | TestSupport/Helpers/AppSettings.cs:112-134 | The PostgreSQL helper returns exactly `UniquePostgreSqlConnection` of its inputs. This covers the same steps plus the 64-character refusal after the name is formed. |
| `AppSettings.ExtraDatabaseName` | TestSupport/Helpers/AppSettings.cs:97-98 | The appended text starts with the separator and is longer than the class name. |
| `AppSettings.ConnectionStringBuilder.constructor` | TestSupport/Helpers/AppSettings.cs:92 | The builder starts with the parsed database name and settings. |
| `AppSettings.ConnectionStringBuilder.AppendToDatabase` | TestSupport/Helpers/AppSettings.cs:100 | `InitialCatalog += extra` (or `Database += extra` at :126) extends the database name by `extra` and leaves every other setting unchanged. |
| `AppSettingsProperties.UnitTestConnectionSucceeds` | TestSupport/Helpers/AppSettings.cs:89-95 | The shared checks pass exactly when the string is configured and non-empty, parses, and names a database ending in `Test`. They then pass on the parsed connection untouched. |
| `AppSettingsProperties.MissingConnectionStringFailsFirst` | TestSupport/Helpers/AppSettings.cs:89-91 | In both helpers, a missing or empty connection string fails with the missing-connection error, whatever the other arguments are. That error arises for no other reason. (The PostgreSQL case is at :115-117.) |
| `AppSettingsProperties.SqlServerRequiresTestEnding` | TestSupport/Helpers/AppSettings.cs:93-95 | Once the string parses, SQL Server succeeds exactly when the original name ends with `Test`. Otherwise it fails and names the original name. |
| `AppSettingsProperties.PostgreSqlRequiresTestEnding` | TestSupport/Helpers/AppSettings.cs:119-131 | PostgreSQL checks the `Test` ending before the length. A correctly named database then fails only when the new name exceeds 64 characters, and the error reports that name and its length. |
| `AppSettingsProperties.SqlServerDatabaseName` | TestSupport/Helpers/AppSettings.cs:97-102 | On SQL Server success, the name is `orig + sep + class`, plus `sep + method` when a method is given. `orig` is a strict prefix that ends with `Test`. The other settings are unchanged. |
| `AppSettingsProperties.PostgreSqlDatabaseName` | TestSupport/Helpers/AppSettings.cs:123-133 | PostgreSQL success gives the same name shape, strict prefix and unchanged settings. The name is at most 64 characters long. |
| `AppSettingsProperties.SqlServerDefaultSeparatorIsUnderscore` | TestSupport/Helpers/AppSettings.cs:86 | Called with only the class, the SQL Server helper uses `'_'` as separator and appends no method name. |
| `AppSettingsProperties.PostgreSqlDefaultSeparatorIsUnderscore` | TestSupport/Helpers/AppSettings.cs:112 | Called with only the class, the PostgreSQL helper uses `'_'` as separator and appends no method name. |
| `AppSettingsProperties.PostgreSqlIsSqlServerWithLengthLimit` | TestSupport/Helpers/AppSettings.cs:112-134 | Given the same configured text and the same parse result for it, PostgreSQL returns what SQL Server returns, with two exceptions: a too-long name is refused, and the missing-string error names the PostgreSQL key. |
| `AppSettingsProperties.SqlServerHasNoLengthLimit` | TestSupport/Helpers/AppSettings.cs:86-103 | Example: a 70-character name is accepted by SQL Server and refused by PostgreSQL. |
| `AppSettingsProperties.SplitExtraDatabaseNameRoundTrip` | TestSupport/Helpers/AppSettings.cs:97-98 | If the class name has no separator in it, the appended text gives back the class name and the method name. |
| `AppSettingsProperties.ExtraDatabaseNameInjective` | TestSupport/Helpers/AppSettings.cs:97-100 | Appended to the same original name, two separator-free class names give the same database name only when the class and the method name (null and empty alike) are the same. |
| `AppSettingsProperties.DistinctTestsGetDistinctSqlServerDatabases` | TestSupport/Helpers/AppSettings.cs:80-100 | Take two separator-free class names under one configuration. If the (class, method) pairs differ, the SQL Server database names differ. |
| `AppSettingsProperties.DistinctTestsGetDistinctPostgreSqlDatabases` | TestSupport/Helpers/AppSettings.cs:106-126 | The same for PostgreSQL: different (class, method) pairs with separator-free class names give different database names. |
| `AppSettingsProperties.SeparatorInClassNameCanCollide` | TestSupport/Helpers/AppSettings.cs:97-98 | Without that condition, names can collide. Class `Book_Tests` alone and class `Book` with method `Tests` both give `UnitTest_Book_Tests`. |

## Left out

- `GetConfiguration` (TestSupport/Helpers/AppSettings.cs:45-76) reads `appsettings.json` from the calling assembly's directory. That is file I/O and reflection, so the loaded ConnectionStrings section is the `config` parameter. `AppSettingFilename` only appears there and in error messages.
- `AppSettings.GetConnectionString` stands for the configuration library's `GetConnectionString` (:89, :115). The model matches keys exactly, while .NET configuration matches them without regard to case. The `config` map's keys are taken to be already spelled as `UnitTestConnection` / `PostgreSqlConnection`, so a key such as `unittestconnection` counts as missing in the model but not in the source. The "for no other reason" direction of `MissingConnectionStringFailsFirst` holds under this assumption.
- `SqlConnectionStringBuilder` and `NpgsqlConnectionStringBuilder` are external libraries. Their parsing is the `parse` parameter. `builder.ToString()` is not modelled: the helpers return the `Connection` record, which is taken to be what the string prints.
- Npgsql reports a connection string without a `Database` key as a null name. The source then throws `NullReferenceException` at :119. The model has no null names, so it assumes the parser produces some string there.
- `testClass.GetType().Name` is the `className` parameter. A null `testClass` (`NullReferenceException`) is not modelled. The type name leaves out the namespace, so two classes with the same name in different namespaces share a database. The model shows this only through the class-name parameter.
- `EndsWith` is modelled as an ordinal suffix test. The .NET call compares culture-sensitively, and for `"Test"` this differs only with unusual cultures or characters.
- The 64-character limit counts Dafny characters. .NET `Length` counts UTF-16 code units, so names with characters outside the Basic Multilingual Plane are measured differently.
- PostgreSQL's own identifier limit (63 bytes) is not modelled. The limit is modelled as written, 64 characters.
- Exception message texts are not modelled. Each error kind carries the values its message quotes.
- The in-memory connection disposal controller (`SqliteInMemory`, with `StopNextDispose` / `TurnOffDispose`) and the log-message decoder are not part of this model. They are separate components with logic of their own, outside the database-name helpers modelled here.
- `TestSupport/EfHelpers/TimeThings.cs` (stopwatch timing) and `DataLayer/SpecialisedEntities/BookSummary.cs` (a property bag with no behaviour) are not modelled.
