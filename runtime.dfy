/** The PHP runtime as the MySQL wrapper sees it: the probes it makes (`defined`, `extension_loaded`,
    `class_exists`, `file_exists`), the hook and foreign-call results it reads, how it terminates,
    and the values it stores in the global `$ydb`. */
module Runtime {

  datatype Option<T> = None | Some(value: T) {
    function GetOr(default: T): T {
      match this
      case Some(v) => v
      case None => default
    }
  }

  /** The `dbh` property of `$ydb`, as the foreign driver constructor left it. */
  datatype Dbh = Unset | Null | FalseSentinel | Link

  /** PHP `isset`: the property exists and is not null. */
  predicate Isset(h: Dbh) {
    h != Unset && h != Null
  }

  /** Everything the wrapper reads from its surroundings. */
  datatype Env = Env(
    dbDriver: Option<string>,           // the DB_DRIVER constant, when defined
    extensions: set<string>,            // the names extension_loaded() reports true for
    dbUser: Option<string>,             // DB_USER, DB_PASS, DB_NAME, DB_HOST when defined
    dbPass: Option<string>,
    dbName: Option<string>,
    dbHost: Option<string>,
    inc: string,                        // the INC directory constant
    wpdbExists: bool,                   // class_exists('wpdb', false)
    classesAfterLoad: set<string>,      // names of the classes defined once the ezSQL files are loaded,
                                        // as declared; PHP looks them up without regard to case
    userDbErrorExists: bool,            // file_exists(USERDIR . '/db_error.php')
    aliveCustomFilter: Option<bool>,    // what a callback on 'is_db_alive_custom' returns; None: no callback
    dbh: Dbh,                           // $ydb->dbh
    mysqliConnectError: Option<string>  // mysqli_connect_error(): null or a message
  )

  predicate CredentialsDefined(env: Env) {
    env.dbUser.Some? && env.dbPass.Some? && env.dbName.Some? && env.dbHost.Some?
  }

  /** The constructor arguments DB_USER, DB_PASS, DB_NAME, DB_HOST, in that order. */
  function Credentials(env: Env): seq<string>
    requires CredentialsDefined(env)
  {
    [env.dbUser.value, env.dbPass.value, env.dbName.value, env.dbHost.value]
  }

  /** How the process ends: `die(message, title, status)`, or a bare `die()`. */
  datatype Termination = Message(message: string, title: string, status: int) | Silent

  /** An operation either returns normally or terminates the process. */
  datatype Outcome<T> = Ok(value: T) | Fatal(termination: Termination)

  /** A value of `$ydb`: an empty `stdClass` placeholder, or an instance of a database class built
      with the given constructor arguments, whose `DB_driver` property is `driver` (None: not set). */
  datatype DbObject =
    | StdClass
    | Instance(className: string, args: seq<string>, driver: Option<string>)

  /** Observable steps, in order: an action hook fired with its argument, a database class constructed. */
  datatype Event =
    | Action(hook: string, arg: string)
    | Construct(className: string, args: seq<string>)
}
