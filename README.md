# YOURLS database wrapper, modelled in Dafny

This project models `YOURLS\MySQL` (`includes/src/MySQL.php`). That class decides how YOURLS talks
to its database:

- `set_DB_driver` picks a driver. A defined `DB_DRIVER` wins, lower-cased. Otherwise the first
  loaded extension wins, in the order `pdo_mysql`, `mysqli`, `mysql`.
- `require_db_files` loads the ezSQL files for that driver and names its class.
- `db_connect` checks the four credential constants, then either uses WordPress's `wpdb` or
  calls `set_DB_driver`.
- `is_db_alive` checks the connection by its driver tag.
- `db_dead` terminates the process.

The model is written in three modules:

- `PhpString` models PHP's `strtolower`, with the ASCII-only behaviour PHP has had since 8.2.
- `Runtime` holds the environment record `Env`, which replaces every runtime probe the class makes
  (`defined`, `extension_loaded`, `class_exists`, `file_exists`, the `is_db_alive_custom` filter,
  `$ydb->dbh`, `mysqli_connect_error()`). It also holds the values `$ydb` can take and the outcome
  type. `die(message, title, status)` becomes `Fatal(Message(message, title, status))`, and a bare
  `die()` becomes `Fatal(Silent)`.
- `MySQL` holds the five operations. `Process` is a class whose fields are the global `$ydb`, the
  set of files `require_once` has loaded, and a trace of the actions fired and database classes
  constructed, kept in order. `set_DB_driver`, `db_connect` and `require_db_files` change that
  state, so they are methods of `Process`. `is_db_alive` and `db_dead` are functions. The value of
  `$ydb` is an explicit parameter of `IsDbAlive`.

Three details of the code that the model keeps:

- When no driver class is usable, `set_DB_driver` dies with a message that names the three
  extensions `mysql`, `mysqli` and `pdo_mysql` (includes/src/MySQL.php:50-54).
- For `pdo`, liveness is PHP `isset($ydb->dbh)` (includes/src/MySQL.php:122). That test is also
  true when `dbh` is `false`.
- For `mysqli`, liveness is the loose comparison `null == mysqli_connect_error()`
  (includes/src/MySQL.php:130). That comparison is also true for an empty error string.

PHP looks class names up without regard to case, so `class_exists` is modelled by `ClassExists`,
which compares the lower-cased names.

`ConnectWithPdo` is an example scenario of `db_connect`, not a function of the wrapper.

## Model

| member | source | states |
|---|---|---|
| `PhpString.ToLower` | includes/src/MySQL.php:30 | strtolower keeps the length and maps each character through ASCII lower-casing |
| `PhpString.ToLowerHasNoUpper` | includes/src/MySQL.php:30 | a lower-cased driver name never holds an upper-case letter |
| `PhpString.ToLowerFixpoint` | includes/src/MySQL.php:30 | lower-casing leaves a name unchanged if and only if it already has no upper-case letter |
| `PhpString.ToLowerIdempotent` | includes/src/MySQL.php:30 | lower-casing twice is the same as lower-casing once |
| `MySQL.FirstLoaded` | includes/src/MySQL.php:31-39 | the driver picked from a priority table is the one at the first loaded extension, with every earlier extension absent; when no extension is loaded the result is "" |
| `MySQL.PriorityOrder` | includes/src/MySQL.php:28-39 | the table is tried as pdo_mysql to pdo, then mysqli, then mysql, then "" |
| `MySQL.ChosenDriver` | includes/src/MySQL.php:28-39 | a defined DB_DRIVER gives its lower-cased form; otherwise pdo beats mysqli, mysqli beats mysql, and no extension gives ""; the driver never holds an upper-case letter |
| `MySQL.OverrideIgnoresExtensions` | includes/src/MySQL.php:29-30 | with DB_DRIVER defined, the loaded extensions change neither the driver nor whether selection succeeds |
| `MySQL.MixedCaseOverride` | includes/src/MySQL.php:29-30 | DB_DRIVER "MySQLi" selects mysqli |
| `MySQL.UnknownOverrideIsFatal` | includes/src/MySQL.php:29-55 | DB_DRIVER "postgres" makes set_DB_driver terminate |
| `MySQL.FatalIffNoKnownDriver` | includes/src/MySQL.php:28-55 | when all three driver classes load, selection fails exactly when DB_DRIVER lower-cases to an unknown name, or when it is undefined and no extension is loaded |
| `MySQL.ClassName` | includes/src/MySQL.php:80 | the class name is "ezSQL_", then the driver, then "_yourls"; its length is the driver's plus 13 |
| `MySQL.ClassNameRoundTrip` | includes/src/MySQL.php:74-81 | the driver can be read back out of its class name |
| `MySQL.DriverOfClassRoundTrip` | includes/src/MySQL.php:74-81 | every ezSQL class name read back to a driver is that driver's class name |
| `MySQL.ClassNameInjective` | includes/src/MySQL.php:74-81 | two drivers with the same class name are the same driver, so a class fixes its driver tag |
| `MySQL.ClassNameCaseInjective` | includes/src/MySQL.php:74-81 | two lower-case drivers whose class names agree up to case are the same driver |
| `MySQL.ClassLookupIgnoresCase` | includes/src/MySQL.php:42-48 | with DB_DRIVER "pdo", a class declared as "ezSQL_pdo_YOURLS" is found and selection succeeds |
| `MySQL.Process.RequireDbFiles` | includes/src/MySQL.php:74-81 | the four ezSQL files of the driver are added to the loaded set; a second call for the same driver changes nothing; the returned name is the driver's class name |
| `MySQL.Process.SetDbDriver` | includes/src/MySQL.php:26-63 | the driver is ChosenDriver. If it is unknown or no class of its name exists (ignoring case), `$ydb` becomes an empty stdClass, no action fires, no object is built, and the result is Fatal with 503. Otherwise the action fires with the driver, and then the class is built from (DB_USER, DB_PASS, DB_NAME, DB_HOST) and tagged with the driver. The files are loaded exactly when the driver is known. The tag always matches the class |
| `MySQL.Process.DbConnect` | includes/src/MySQL.php:88-106 | a missing credential gives Fatal("Incorrect DB config, or could not connect to DB", "Fatal error", 503) and changes nothing. If wpdb exists, `$ydb` becomes a wpdb built from the credentials and selection is skipped. Otherwise the outcome is set_DB_driver's. On success `$ydb` is returned |
| `MySQL.IsDbAlive` | includes/src/MySQL.php:116-139 | pdo: dbh is set; mysql: dbh holds a real link rather than unset, null or false; mysqli: the connect error is null or empty; any other tag, and no `$ydb` at all: the custom filter returned true, with false when there is no callback |
| `MySQL.SelectedHandleIgnoresFilter` | includes/src/MySQL.php:116-139 | the liveness of a handle set_DB_driver built never depends on the custom filter |
| `MySQL.ValidTagIgnoresFilter` | includes/src/MySQL.php:116-139 | for any `$ydb` that keeps the process invariant and carries a driver tag, liveness follows the tag and never the custom filter |
| `MySQL.ConnectWithPdo` | includes/src/MySQL.php:88-106 | an example scenario of `db_connect`: with the credentials defined, no DB_DRIVER, no wpdb, pdo_mysql loaded and the pdo class defined, a fresh process connects to an `ezSQL_pdo_yourls` built from the credentials and tagged pdo |
| `MySQL.DbDead` | includes/src/MySQL.php:148-156 | it always terminates: silently after the user's db_error.php when that file exists, otherwise with the configuration error, "Fatal error" and 503 |

## Left out

- `extension_loaded`, `class_exists`, `defined`, `file_exists`: these are probes of the PHP runtime, so the model takes their answers as fields of `Env`. For `class_exists` the field holds the declared class names, and `ClassExists` compares them without regard to case.
- The ezSQL and `wpdb` classes: they are foreign code. The model records only their constructor arguments and the `DB_driver` tag. The connection state they leave (`dbh`, `mysqli_connect_error()`) is an input.
- The code in the user's `db_error.php`: it is foreign. Whatever it prints or terminates with is folded into `Silent`.
- The `do_action` and `apply_filter` hook machinery: the model keeps only the fired action in the trace and the filter's return value as an input. Listeners that change `$ydb` are not modelled.
- `debug_log` and the localisation `_()`: they are logging and translation. Messages are the untranslated English strings.
- Real process termination: the model returns a `Fatal` outcome instead, and no later step of the same call runs.
- A missing ezSQL file: `require_once` would stop PHP with a compile error. The model assumes the four files of a known driver exist.
- MySQL.Process.SetDbDriver requires the four credential constants to be defined only when a usable class exists. On the failing path the code dies before it reads them. On the succeeding path PHP would fire the action and then stop with an "undefined constant" error, which is not modelled. Its only caller, db_connect, checks the constants first.
- The model reads the source as a class, and the readings are these. The unqualified calls `require_db_files( $driver )` and `set_DB_driver()` are calls of the wrapper's own operations, though inside `namespace YOURLS` PHP would resolve them to functions named `YOURLS\…` or `\…`. The three-argument `die(message, title, status)` is a termination carrying that triple.
- A non-scalar `DB_DRIVER`: this is not modelled. `strtolower` turns null into `""` with a deprecation notice, and an array makes PHP 8 throw a TypeError, which ends in a fatal error rather than the 503 `die`. An int, float or bool becomes a string first (`true` becomes `"1"`), so it is already covered as that string.
- A `DB_driver` tag that is not a string, set on `$ydb` by foreign code: this is not modelled. `switch( $ydb->DB_driver )` compares loosely, so for example a tag `true` would take the `pdo` branch.
- PHP before 8.2 lowered letters by locale in `strtolower`: the model uses ASCII only.
