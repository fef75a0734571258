/** The YOURLS MySQL wrapper: picks a database driver, loads its class, builds the global `$ydb`,
    checks that the connection is alive, and terminates the process when no database is usable. */
module MySQL {
  import opened Runtime
  import opened PhpString

  const NoExtensionMessage: string :=
    "YOURLS requires the mysql, mysqli or pdo_mysql PHP extension. No extension found. Check your server config, or contact your host."
  const ConfigErrorMessage: string := "Incorrect DB config, or could not connect to DB"
  const FatalTitle: string := "Fatal error"
  const ServiceUnavailable: int := 503

  /** The termination set_DB_driver ends in when no driver class is usable. */
  const NoExtensionError: Termination := Message(NoExtensionMessage, FatalTitle, ServiceUnavailable)
  /** The termination db_connect and db_dead end in on a bad configuration or a dead database. */
  const ConfigError: Termination := Message(ConfigErrorMessage, FatalTitle, ServiceUnavailable)

  /** The drivers that have an ezSQL class. */
  const KnownDrivers: set<string> := {"mysql", "mysqli", "pdo"}

  /** The action fired once a driver is chosen. */
  const DriverAction: string := "set_DB_driver"

  // ---------------------------------------------------------------------------------------------
  // Driver choice

  /** A PHP extension and the driver it provides. */
  datatype Probe = Probe(extension: string, driver: string)

  /** The extensions probed when no DB_DRIVER is defined, most preferred first. */
  const ExtensionPriority: seq<Probe> :=
    [Probe("pdo_mysql", "pdo"), Probe("mysqli", "mysqli"), Probe("mysql", "mysql")]

  /** Probe k is the first of `probes` whose extension is loaded. */
  ghost predicate FirstLoadedAt(probes: seq<Probe>, loaded: set<string>, k: nat) {
    k < |probes| && probes[k].extension in loaded &&
    forall j :: 0 <= j < k ==> probes[j].extension !in loaded
  }

  ghost predicate NoneLoaded(probes: seq<Probe>, loaded: set<string>) {
    forall j :: 0 <= j < |probes| ==> probes[j].extension !in loaded
  }

  /** The driver of the first probe whose extension is loaded, or "" when none is. */
  function FirstLoaded(probes: seq<Probe>, loaded: set<string>): (d: string)
    ensures (exists k: nat :: FirstLoadedAt(probes, loaded, k) && d == probes[k].driver)
         || (NoneLoaded(probes, loaded) && d == "")
  {
    if probes == [] then ""
    else if probes[0].extension in loaded then
      assert FirstLoadedAt(probes, loaded, 0);
      probes[0].driver
    else
      var d := FirstLoaded(probes[1..], loaded);
      assert (exists k: nat :: FirstLoadedAt(probes, loaded, k) && d == probes[k].driver)
          || (NoneLoaded(probes, loaded) && d == "") by {
        ShiftProbes(probes, loaded);
        if !(NoneLoaded(probes[1..], loaded) && d == "") {
          var k: nat :| FirstLoadedAt(probes[1..], loaded, k) && d == probes[1..][k].driver;
          assert FirstLoadedAt(probes, loaded, k + 1);
        }
      }
      d
  }

  /** Skipping a probe whose extension is not loaded shifts every position by one. */
  lemma ShiftProbes(probes: seq<Probe>, loaded: set<string>)
    requires probes != [] && probes[0].extension !in loaded
    ensures forall k: nat :: FirstLoadedAt(probes[1..], loaded, k) ==> FirstLoadedAt(probes, loaded, k + 1)
    ensures NoneLoaded(probes[1..], loaded) ==> NoneLoaded(probes, loaded)
  {
  }

  /** The driver set_DB_driver settles on: DB_DRIVER lower-cased when defined, otherwise the
      most preferred loaded extension, otherwise "". */
  function ChosenDriver(env: Env): (d: string)
    ensures env.dbDriver.Some? ==> d == ToLower(env.dbDriver.value)
    ensures env.dbDriver.None? && "pdo_mysql" in env.extensions ==> d == "pdo"
    ensures env.dbDriver.None? && "pdo_mysql" !in env.extensions && "mysqli" in env.extensions
            ==> d == "mysqli"
    ensures (env.dbDriver.None? && "pdo_mysql" !in env.extensions && "mysqli" !in env.extensions
             && "mysql" in env.extensions) ==> d == "mysql"
    ensures (env.dbDriver.None? && "pdo_mysql" !in env.extensions && "mysqli" !in env.extensions
             && "mysql" !in env.extensions) ==> d == ""
    ensures HasNoUpper(d)
  {
    match env.dbDriver
    case Some(s) => ToLowerHasNoUpper(s); ToLower(s)
    case None =>
      var d := FirstLoaded(ExtensionPriority, env.extensions);
      PriorityOrder(env.extensions);
      d
  }

  /** The priority table tried in order: pdo_mysql, then mysqli, then mysql, then nothing. */
  lemma PriorityOrder(loaded: set<string>)
    ensures "pdo_mysql" in loaded ==> FirstLoaded(ExtensionPriority, loaded) == "pdo"
    ensures ("pdo_mysql" !in loaded && "mysqli" in loaded) ==> FirstLoaded(ExtensionPriority, loaded) == "mysqli"
    ensures ("pdo_mysql" !in loaded && "mysqli" !in loaded && "mysql" in loaded)
            ==> FirstLoaded(ExtensionPriority, loaded) == "mysql"
    ensures ("pdo_mysql" !in loaded && "mysqli" !in loaded && "mysql" !in loaded)
            ==> FirstLoaded(ExtensionPriority, loaded) == ""
  {
    var d := FirstLoaded(ExtensionPriority, loaded);
    if NoneLoaded(ExtensionPriority, loaded) && d == "" {
      assert ExtensionPriority[0].extension !in loaded;
      assert ExtensionPriority[1].extension !in loaded;
      assert ExtensionPriority[2].extension !in loaded;
    } else {
      var k: nat :| FirstLoadedAt(ExtensionPriority, loaded, k) && d == ExtensionPriority[k].driver;
      if k == 1 {
        assert ExtensionPriority[0].extension !in loaded;
      } else if k == 2 {
        assert ExtensionPriority[0].extension !in loaded;
        assert ExtensionPriority[1].extension !in loaded;
      }
    }
  }

  // ---------------------------------------------------------------------------------------------
  // Class names and files of a driver

  /** The ezSQL class that serves `driver`: "ezSQL_", the driver, then "_yourls". */
  function ClassName(driver: string): (cls: string)
    ensures |cls| == |driver| + 13
    ensures cls[..6] == "ezSQL_" && cls[6..6 + |driver|] == driver && cls[6 + |driver|..] == "_yourls"
  {
    "ezSQL_" + driver + "_yourls"
  }

  /** Reads the driver back out of an ezSQL class name. */
  function DriverOfClass(cls: string): Option<string> {
    if |cls| >= 13 && cls[..6] == "ezSQL_" && cls[|cls| - 7..] == "_yourls"
    then Some(cls[6..|cls| - 7])
    else None
  }

  /** The driver named in a class name is the one the class was named from. */
  lemma ClassNameRoundTrip(driver: string)
    ensures DriverOfClass(ClassName(driver)) == Some(driver)
  {
  }

  /** Every class name DriverOfClass accepts is the class name of the driver it returns. */
  lemma DriverOfClassRoundTrip(cls: string, driver: string)
    requires DriverOfClass(cls) == Some(driver)
    ensures ClassName(driver) == cls
  {
  }

  /** As strings, distinct drivers never share a class name, so the class fixes the driver tag.
      PHP class names ignore case; ClassNameCaseInjective covers that for lower-case drivers. */
  lemma ClassNameInjective(a: string, b: string)
    requires ClassName(a) == ClassName(b)
    ensures a == b
  {
  }

  /** Two lower-case drivers whose class names agree up to case are the same driver. Every driver
      set_DB_driver passes to require_db_files is lower-case (ChosenDriver), so even PHP's
      case-insensitive class table fixes the driver tag. */
  lemma ClassNameCaseInjective(a: string, b: string)
    requires HasNoUpper(a) && HasNoUpper(b)
    requires ToLower(ClassName(a)) == ToLower(ClassName(b))
    ensures a == b
  {
  }

  /** The four files require_db_files loads for `driver`, in load order. */
  function DriverFiles(inc: string, driver: string): seq<string> {
    [inc + "/ezSQL/ez_sql_core.php",
     inc + "/ezSQL/ez_sql_core_yourls.php",
     inc + "/ezSQL/ez_sql_" + driver + ".php",
     inc + "/ezSQL/ez_sql_" + driver + "_yourls.php"]
  }

  function FileSet(files: seq<string>): set<string> {
    set f | f in files
  }

  // ---------------------------------------------------------------------------------------------
  // Whether set_DB_driver succeeds

  /** PHP `class_exists(name, false)`: some defined class has the same name up to ASCII case. */
  predicate ClassExists(name: string, classes: set<string>) {
    ToLower(name) in (set c | c in classes :: ToLower(c))
  }

  /** The chosen driver is a known one and its class exists once its files are loaded. */
  predicate Usable(env: Env) {
    ChosenDriver(env) in KnownDrivers && ClassExists(ClassName(ChosenDriver(env)), env.classesAfterLoad)
  }

  /** A class declared as "ezSQL_pdo_YOURLS" still serves the pdo driver. */
  lemma ClassLookupIgnoresCase(env: Env)
    requires env.dbDriver == Some("pdo") && "ezSQL_pdo_YOURLS" in env.classesAfterLoad
    ensures Usable(env)
  {
    assert ToLower("pdo") == "pdo";
    assert ToLower("ezSQL_pdo_YOURLS") == ToLower(ClassName("pdo"));
  }

  /** The object set_DB_driver stores on success. */
  function DriverInstance(env: Env): DbObject
    requires CredentialsDefined(env)
  {
    Instance(ClassName(ChosenDriver(env)), Credentials(env), Some(ChosenDriver(env)))
  }

  /** The object db_connect stores inside WordPress. */
  function WpdbInstance(env: Env): DbObject
    requires CredentialsDefined(env)
  {
    Instance("wpdb", Credentials(env), None)
  }

  /** With all three driver classes available, set_DB_driver fails exactly when DB_DRIVER names
      something other than the three drivers, or when it is undefined and no extension is loaded. */
  lemma FatalIffNoKnownDriver(env: Env)
    requires ClassExists(ClassName("pdo"), env.classesAfterLoad)
    requires ClassExists(ClassName("mysqli"), env.classesAfterLoad)
    requires ClassExists(ClassName("mysql"), env.classesAfterLoad)
    ensures !Usable(env) <==>
      match env.dbDriver
      case Some(s) => ToLower(s) !in KnownDrivers
      case None => "pdo_mysql" !in env.extensions && "mysqli" !in env.extensions && "mysql" !in env.extensions
  {
  }

  /** A defined DB_DRIVER decides the driver whatever extensions are loaded. */
  lemma OverrideIgnoresExtensions(e1: Env, e2: Env)
    requires e1.dbDriver.Some? && e1.dbDriver == e2.dbDriver
    requires e1.classesAfterLoad == e2.classesAfterLoad
    ensures ChosenDriver(e1) == ChosenDriver(e2)
    ensures Usable(e1) == Usable(e2)
  {
  }

  /** DB_DRIVER "MySQLi" selects the mysqli driver. */
  lemma MixedCaseOverride(env: Env)
    requires env.dbDriver == Some("MySQLi")
    ensures ChosenDriver(env) == "mysqli"
  {
  }

  /** DB_DRIVER "postgres" names no known driver, so set_DB_driver terminates. */
  lemma UnknownOverrideIsFatal(env: Env)
    requires env.dbDriver == Some("postgres")
    ensures !Usable(env)
  {
  }

  // ---------------------------------------------------------------------------------------------
  // Liveness and the fatal path

  /** The DB_driver property of `$ydb`; None when `$ydb` is unset, a placeholder or has none. */
  function DriverTag(ydb: Option<DbObject>): Option<string> {
    if ydb.Some? && ydb.value.Instance? then ydb.value.driver else None
  }

  /** PHP's loose `null == $e` for a value that is null or a string: true for null and for "". */
  predicate LooselyNull(e: Option<string>) {
    e == None || e == Some("")
  }

  /** is_db_alive: a point-in-time check of the connection in `ydb`, chosen by its driver tag. */
  function IsDbAlive(ydb: Option<DbObject>, env: Env): (alive: bool)
    ensures DriverTag(ydb) == Some("pdo") ==> (alive <==> env.dbh == Link || env.dbh == FalseSentinel)
    ensures DriverTag(ydb) == Some("mysql") ==> (alive <==> env.dbh == Link)
    ensures DriverTag(ydb) == Some("mysqli") ==>
              (alive <==> env.mysqliConnectError.None? || |env.mysqliConnectError.value| == 0)
    ensures DriverTag(ydb) != Some("pdo") && DriverTag(ydb) != Some("mysql") && DriverTag(ydb) != Some("mysqli")
            ==> (alive <==> env.aliveCustomFilter == Some(true))
  {
    var tag := DriverTag(ydb);
    if tag == Some("pdo") then Isset(env.dbh)
    else if tag == Some("mysql") then Isset(env.dbh) && env.dbh != FalseSentinel
    else if tag == Some("mysqli") then LooselyNull(env.mysqliConnectError)
    else env.aliveCustomFilter.GetOr(false)
  }

  /** A handle set_DB_driver built is checked by its own driver's test: the custom filter is
      never consulted for it. */
  lemma SelectedHandleIgnoresFilter(env: Env, b: bool)
    requires CredentialsDefined(env) && Usable(env)
    ensures IsDbAlive(Some(DriverInstance(env)), env) ==
            IsDbAlive(Some(DriverInstance(env)), env.(aliveCustomFilter := Some(b)))
  {
  }

  /** The process invariant is what lets is_db_alive trust the tag: whenever `$ydb` carries a
      driver tag, liveness is decided by that driver's test and never by the custom filter. */
  lemma ValidTagIgnoresFilter(p: Process, env: Env, b: bool)
    requires p.Valid() && DriverTag(p.ydb).Some?
    ensures IsDbAlive(p.ydb, env) == IsDbAlive(p.ydb, env.(aliveCustomFilter := Some(b)))
  {
  }

  /** db_dead: never returns. It runs the user's db_error.php and stops when that file exists,
      otherwise it dies with the configuration error and status 503. */
  function DbDead(env: Env): (r: Outcome<()>)
    ensures r.Fatal?
    ensures r.termination == Silent <==> env.userDbErrorExists
    ensures !env.userDbErrorExists ==>
              r.termination.message == ConfigErrorMessage && r.termination.title == FatalTitle &&
              r.termination.status == 503
  {
    if env.userDbErrorExists then Fatal(Silent) else Fatal(ConfigError)
  }

  // ---------------------------------------------------------------------------------------------
  // The process-wide state

  /** What the wrapper changes: the global `$ydb`, the files require_once has loaded, and the
      trace of actions fired and database classes constructed. */
  class Process {
    var ydb: Option<DbObject>
    var included: set<string>
    var trace: seq<Event>

    /** A driver tag on `$ydb` is a known driver and matches the class behind it. */
    ghost predicate Valid()
      reads this
    {
      ydb.Some? && ydb.value.Instance? && ydb.value.driver.Some? ==>
        ydb.value.driver.value in KnownDrivers && ydb.value.className == ClassName(ydb.value.driver.value)
    }

    constructor ()
      ensures Valid() && ydb == None && included == {} && trace == []
    {
      ydb := None;
      included := {};
      trace := [];
    }

    /** require_db_files: loads the driver's four files once each and names its class. Because
        require_once only adds to the set of loaded files, a second call for the same driver
        changes nothing and returns the same name. */
    method RequireDbFiles(inc: string, driver: string) returns (cls: string)
      modifies this`included
      ensures included == old(included) + FileSet(DriverFiles(inc, driver))
      ensures FileSet(DriverFiles(inc, driver)) <= old(included) ==> included == old(included)
      ensures cls == ClassName(driver)
    {
      included := included + {inc + "/ezSQL/ez_sql_core.php"};
      included := included + {inc + "/ezSQL/ez_sql_core_yourls.php"};
      included := included + {inc + "/ezSQL/ez_sql_" + driver + ".php"};
      included := included + {inc + "/ezSQL/ez_sql_" + driver + "_yourls.php"};
      cls := "ezSQL_" + driver + "_yourls";
    }

    /** set_DB_driver: chooses a driver and stores an instance of its class in `$ydb`, firing the
        action first; without a usable class it leaves a placeholder and terminates with 503. */
    method SetDbDriver(env: Env) returns (r: Outcome<()>)
      requires Usable(env) ==> CredentialsDefined(env)
      modifies this
      ensures Valid()
      ensures r == if Usable(env) then Ok(()) else Fatal(NoExtensionError)
      ensures ydb == Some(if Usable(env) then DriverInstance(env) else StdClass)
      ensures trace == old(trace) +
        if Usable(env)
        then [Action(DriverAction, ChosenDriver(env)), Construct(ClassName(ChosenDriver(env)), Credentials(env))]
        else []
      ensures included == old(included) +
        if ChosenDriver(env) in KnownDrivers then FileSet(DriverFiles(env.inc, ChosenDriver(env))) else {}
    {
      var driver: string;
      if env.dbDriver.Some? {
        driver := ToLower(env.dbDriver.value);
      } else if "pdo_mysql" in env.extensions {
        driver := "pdo";
      } else if "mysqli" in env.extensions {
        driver := "mysqli";
      } else if "mysql" in env.extensions {
        driver := "mysql";
      } else {
        driver := "";
      }

      var cls: Option<string> := None;
      if driver in KnownDrivers {
        var name := RequireDbFiles(env.inc, driver);
        cls := Some(name);
      }

      if !(cls.Some? && ClassExists(cls.value, env.classesAfterLoad)) {
        ydb := Some(StdClass);
        return Fatal(NoExtensionError);
      }

      trace := trace + [Action(DriverAction, driver)];

      var args := [env.dbUser.value, env.dbPass.value, env.dbName.value, env.dbHost.value];
      trace := trace + [Construct(cls.value, args)];
      var obj := Instance(cls.value, args, None);
      ydb := Some(obj.(driver := Some(driver)));
      r := Ok(());
    }

    /** db_connect: refuses a configuration missing a credential, uses WordPress's wpdb when that
        class exists, and otherwise lets set_DB_driver build `$ydb`; it returns `$ydb`. */
    method DbConnect(env: Env) returns (r: Outcome<DbObject>)
      requires Valid()
      modifies this
      ensures Valid()
      ensures !CredentialsDefined(env) ==>
        r == Fatal(ConfigError) && ydb == old(ydb) && trace == old(trace) && included == old(included)
      ensures CredentialsDefined(env) && env.wpdbExists ==>
        ydb == Some(WpdbInstance(env)) && r == Ok(WpdbInstance(env)) &&
        trace == old(trace) + [Construct("wpdb", Credentials(env))] && included == old(included)
      ensures CredentialsDefined(env) && !env.wpdbExists ==>
        (r == if Usable(env) then Ok(DriverInstance(env)) else Fatal(NoExtensionError)) &&
        ydb == Some(if Usable(env) then DriverInstance(env) else StdClass) &&
        trace == old(trace) +
          (if Usable(env)
           then [Action(DriverAction, ChosenDriver(env)), Construct(ClassName(ChosenDriver(env)), Credentials(env))]
           else []) &&
        included == old(included) +
          if ChosenDriver(env) in KnownDrivers then FileSet(DriverFiles(env.inc, ChosenDriver(env))) else {}
    {
      if env.dbUser.None? || env.dbPass.None? || env.dbName.None? || env.dbHost.None? {
        return Fatal(ConfigError);
      }

      if env.wpdbExists {
        var args := [env.dbUser.value, env.dbPass.value, env.dbName.value, env.dbHost.value];
        trace := trace + [Construct("wpdb", args)];
        ydb := Some(Instance("wpdb", args, None));
      } else {
        var s := SetDbDriver(env);
        if s.Fatal? {
          return Fatal(s.termination);
        }
      }

      r := Ok(ydb.value);
    }
  }

  /** An example scenario of db_connect, not a function of the wrapper: a fresh process with the credentials defined,
      no DB_DRIVER, pdo_mysql loaded and the pdo class available connects with the pdo driver and
      does not terminate. */
  method ConnectWithPdo(env: Env) returns (r: Outcome<DbObject>)
    requires CredentialsDefined(env) && env.dbDriver.None? && !env.wpdbExists
    requires "pdo_mysql" in env.extensions && ClassExists(ClassName("pdo"), env.classesAfterLoad)
    ensures r == Ok(Instance("ezSQL_pdo_yourls", Credentials(env), Some("pdo")))
  {
    assert ChosenDriver(env) == "pdo" && Usable(env);
    var p := new Process();
    r := p.DbConnect(env);
    assert r == Ok(DriverInstance(env));
    assert ClassName("pdo") == "ezSQL_pdo_yourls";
    assert p.trace[0] == Action(DriverAction, "pdo");
  }
}
