/**
 * The manifest command: it reads the database settings from the
 * environment and the command line, connects to MySQL, and inserts a
 * plugin's manifest.
 */
module PluginManifestCmd {
  import opened Wrappers
  import opened Cli

  /** The values the command works with. */
  datatype ManifestContext = ManifestContext(manifestPath: string, dbName: string, dbUser: string,
                                             dbPassword: string, dbServer: string)

  /** The --database, --user, --password and --server values ("" when not given). */
  datatype DbFlags = DbFlags(database: string, user: string, password: string, server: string)

  const DB_NAME_MISSING := "database must be specified. It was not found in the environment vars, .env file, or cli flags.\n"
  const DB_USER_MISSING := "name must be specified. It was not found in the environment vars, .env file, or cli flags.\n"
  const DB_PASSWORD_MISSING := "password must be specified. It was not found in the environment vars, .env file, or cli flags.\n"
  const DB_SERVER_MISSING := "server must be specified. It was not found in the environment vars, .env file, or cli flags.\n"
  const MANIFEST_MISSING := "A manifest file must be specified"

  /** GetEnvVar: os.Getenv, which gives "" for an unset variable. */
  function GetEnvVar(env: map<string, string>, name: string): (r: string)
    ensures name !in env ==> r == ""
    ensures name in env ==> r == env[name]
  {
    if name in env then env[name] else ""
  }

  /** A setting's value: the flag when it is non-empty, the environment otherwise. */
  function Setting(env: map<string, string>, variable: string, flag: string): (r: string)
    ensures flag != "" ==> r == flag
    ensures flag == "" ==> r == GetEnvVar(env, variable)
  {
    if flag != "" then flag else GetEnvVar(env, variable)
  }

  /**
   * buildContextFromFlags: the four settings are checked in the order
   * database, user, password, server, then the manifest path; the first
   * empty one is the error.
   */
  method BuildContextFromFlags(env: map<string, string>, flags: DbFlags, args: seq<string>)
    returns (r: Result<ManifestContext, string>)
    ensures var name := Setting(env, "DB_NAME", flags.database);
      var user := Setting(env, "DB_USER", flags.user);
      var password := Setting(env, "DB_PASSWORD", flags.password);
      var server := Setting(env, "DB_SERVER", flags.server);
      && (r == Err(DB_NAME_MISSING) <==> name == "")
      && (r == Err(DB_USER_MISSING) <==> name != "" && user == "")
      && (r == Err(DB_PASSWORD_MISSING) <==> name != "" && user != "" && password == "")
      && (r == Err(DB_SERVER_MISSING) <==> name != "" && user != "" && password != "" && server == "")
      && (r == Err(MANIFEST_MISSING) <==> name != "" && user != "" && password != "" && server != "" && Arg(args, 0) == "")
      && (r.Ok? <==> name != "" && user != "" && password != "" && server != "" && Arg(args, 0) != "")
      && (r.Ok? ==> r.value == ManifestContext(Arg(args, 0), name, user, password, server))
  {
    var pctx := ManifestContext("", GetEnvVar(env, "DB_NAME"), GetEnvVar(env, "DB_USER"),
                                GetEnvVar(env, "DB_PASSWORD"), GetEnvVar(env, "DB_SERVER"));
    if flags.database != "" {
      pctx := pctx.(dbName := flags.database);
    }
    if pctx.dbName == "" {
      return Err(DB_NAME_MISSING);
    }
    if flags.user != "" {
      pctx := pctx.(dbUser := flags.user);
    }
    if pctx.dbUser == "" {
      return Err(DB_USER_MISSING);
    }
    if flags.password != "" {
      pctx := pctx.(dbPassword := flags.password);
    }
    if pctx.dbPassword == "" {
      return Err(DB_PASSWORD_MISSING);
    }
    if flags.server != "" {
      pctx := pctx.(dbServer := flags.server);
    }
    if pctx.dbServer == "" {
      return Err(DB_SERVER_MISSING);
    }
    var manifestPath := Arg(args, 0);
    if manifestPath == "" {
      return Err(MANIFEST_MISSING);
    }
    pctx := pctx.(manifestPath := manifestPath);
    return Ok(pctx);
  }

  // ---------------------------------------------------------------------
  // The connection string.

  /** The data source name as written: the database name stands where the user belongs. */
  function ConnectionStringAsWritten(ctx: ManifestContext): string
  {
    ctx.dbName + ":" + ctx.dbPassword + "@" + ctx.dbServer + "/" + ctx.dbName + "?parseTime=true"
  }

  /** The data source name in the MySQL driver's user:password@server/database form. */
  function ConnectionString(ctx: ManifestContext): string
  {
    ctx.dbUser + ":" + ctx.dbPassword + "@" + ctx.dbServer + "/" + ctx.dbName + "?parseTime=true"
  }

  /** The part of `s` before the first `c` (all of `s` when there is none): where the driver reads the user. */
  function {:induction false} Before(s: string, c: char): (r: string)
    ensures r <= s && c !in r
  {
    if s == [] || s[0] == c then []
    else [s[0]] + Before(s[1..], c)
  }

  lemma {:induction false} BeforeJoin(a: string, c: char, b: string)
    requires c !in a
    ensures Before(a + [c] + b, c) == a
  {
    if a != [] {
      assert (a + [c] + b)[1..] == a[1..] + [c] + b;
      BeforeJoin(a[1..], c, b);
    }
  }

  /** The driver logs in as the configured user, for a user name without ':'. */
  lemma ConnectionUser(ctx: ManifestContext)
    requires ':' !in ctx.dbUser
    ensures Before(ConnectionString(ctx), ':') == ctx.dbUser
  {
    assert ConnectionString(ctx) == ctx.dbUser + [':'] + (ctx.dbPassword + "@" + ctx.dbServer + "/" + ctx.dbName + "?parseTime=true");
    BeforeJoin(ctx.dbUser, ':', ctx.dbPassword + "@" + ctx.dbServer + "/" + ctx.dbName + "?parseTime=true");
  }

  /**
   * As written, the driver logs in as a user named after the database, and
   * the user setting, though required, makes no difference.
   */
  lemma ConnectionIgnoresUser(ctx: ManifestContext, user: string)
    requires ':' !in ctx.dbName
    ensures Before(ConnectionStringAsWritten(ctx), ':') == ctx.dbName
    ensures ConnectionStringAsWritten(ctx.(dbUser := user)) == ConnectionStringAsWritten(ctx)
  {
    var rest := ctx.dbPassword + "@" + ctx.dbServer + "/" + ctx.dbName + "?parseTime=true";
    assert ConnectionStringAsWritten(ctx) == ctx.dbName + [':'] + rest;
    BeforeJoin(ctx.dbName, ':', rest);
  }

  // ---------------------------------------------------------------------
  // The command.

  /** How the command ends. */
  datatype ManifestOutcome =
    | ContextError(message: string)
    | OpenError
    | PingError
    | InsertAttempted(manifestPath: string, dataSource: string, err: Option<string>)

  /**
   * cmd_update_manifest with the database calls as parameters: sql.Open and
   * Ping report whether they succeed for a data source name, and the insert
   * gives its error, if any.
   */
  method CmdUpdateManifest(env: map<string, string>, flags: DbFlags, args: seq<string>,
                           open: string -> bool, ping: string -> bool, insert: (string, string) -> Option<string>)
    returns (r: ManifestOutcome)
    ensures r.InsertAttempted? ==> open(r.dataSource) && ping(r.dataSource) && r.manifestPath == Arg(args, 0) != ""
    ensures r.InsertAttempted? ==> r.err == insert(r.manifestPath, r.dataSource)
    ensures r.ContextError? <==> (Setting(env, "DB_NAME", flags.database) == "" || Setting(env, "DB_USER", flags.user) == ""
      || Setting(env, "DB_PASSWORD", flags.password) == "" || Setting(env, "DB_SERVER", flags.server) == "" || Arg(args, 0) == "")
    ensures !r.ContextError? ==> var ctx := ManifestContext(Arg(args, 0), Setting(env, "DB_NAME", flags.database),
        Setting(env, "DB_USER", flags.user), Setting(env, "DB_PASSWORD", flags.password), Setting(env, "DB_SERVER", flags.server));
      && (r == OpenError <==> !open(ConnectionString(ctx)))
      && (r == PingError <==> open(ConnectionString(ctx)) && !ping(ConnectionString(ctx)))
      && (r.InsertAttempted? ==> r.dataSource == ConnectionString(ctx))
  {
    var c := BuildContextFromFlags(env, flags, args);
    if c.Err? {
      return ContextError(c.error);
    }
    var dsn := ConnectionString(c.value);
    if !open(dsn) {
      return OpenError;
    }
    if !ping(dsn) {
      return PingError;
    }
    return InsertAttempted(c.value.manifestPath, dsn, insert(c.value.manifestPath, dsn));
  }
}
