/**
 * `buildSqlConnectionFromEnv` of api/diag/index.js: choose the SQL
 * connection settings either from four discrete environment variables or,
 * failing that, from fields extracted out of an ADO-style connection string.
 * The tedious `Connection` object is represented by the settings it is
 * constructed with; `null` is `None`.
 */
module SqlConfig {
  import opened Wrappers
  import opened ConnectionString

  /** The environment variables the function reads; `None` is `undefined`. */
  datatype SqlEnv = SqlEnv(
    sqlServer: Option<string>,
    sqlDatabase: Option<string>,
    sqlUser: Option<string>,
    sqlPassword: Option<string>,
    sqlConnectionString: Option<string>)

  /** The settings a `Connection` is built from (authentication type "default"). */
  datatype SqlSettings = SqlSettings(
    server: string,
    database: string,
    user: string,
    password: string,
    encrypt: bool)

  const ServerKey := "Server=tcp:"
  const CatalogKey := "Initial Catalog="
  const UserKey := "User ID="
  const PasswordKey := "Password="

  /** JavaScript truthiness of an environment variable: set and non-empty. */
  predicate Truthy(v: Option<string>) {
    v.Some? && v.value != ""
  }

  /** All four discrete variables are truthy (also `out.env.hasSqlVars`). */
  predicate HasSqlVars(env: SqlEnv) {
    Truthy(env.sqlServer) && Truthy(env.sqlDatabase) && Truthy(env.sqlUser) && Truthy(env.sqlPassword)
  }

  /** Both accepted forms of a result: all four fields non-empty, encryption on. */
  predicate WellFormed(c: SqlSettings) {
    c.server != "" && c.database != "" && c.user != "" && c.password != "" && c.encrypt
  }

  function BuildSqlConnection(env: SqlEnv): (r: Option<SqlSettings>)
    ensures r.Some? ==> WellFormed(r.value)
  {
    if HasSqlVars(env) then
      Some(SqlSettings(env.sqlServer.value, env.sqlDatabase.value, env.sqlUser.value,
                       env.sqlPassword.value, true))
    else if !Truthy(env.sqlConnectionString) then None
    else
      var cs := env.sqlConnectionString.value;
      var srv := Capture(cs, ServerKey, ',');
      var db := Capture(cs, CatalogKey, ';');
      var user := Capture(cs, UserKey, ';');
      var pass := Capture(cs, PasswordKey, ';');
      if srv.None? || db.None? || user.None? || pass.None? then None
      else Some(SqlSettings(srv.value, db.value, user.value, pass.value, true))
  }

  /** With all four discrete variables set, they are used and the connection string is ignored. */
  lemma DiscreteVariablesWin(env: SqlEnv, otherCs: Option<string>)
    requires HasSqlVars(env)
    ensures BuildSqlConnection(env) ==
      Some(SqlSettings(env.sqlServer.value, env.sqlDatabase.value, env.sqlUser.value,
                       env.sqlPassword.value, true))
    ensures BuildSqlConnection(env.(sqlConnectionString := otherCs)) == BuildSqlConnection(env)
  {
  }

  /** Incomplete discrete variables and a missing or empty connection string give `null`. */
  lemma NoConnectionStringNoConfig(env: SqlEnv)
    requires !HasSqlVars(env) && (env.sqlConnectionString.None? || env.sqlConnectionString.value == "")
    ensures BuildSqlConnection(env).None?
  {
  }

  /**
   * On the connection-string path the result is present exactly when all
   * four patterns match, and then each field is the group of the leftmost,
   * greedy match of its pattern: the server has no comma, the other three
   * have no semicolon.
   */
  lemma ConnectionStringFields(env: SqlEnv)
    requires !HasSqlVars(env) && Truthy(env.sqlConnectionString)
    ensures var cs := env.sqlConnectionString.value;
      BuildSqlConnection(env).Some? <==>
        (exists k: nat :: MatchesAt(cs, ServerKey, ',', k)) &&
        (exists k: nat :: MatchesAt(cs, CatalogKey, ';', k)) &&
        (exists k: nat :: MatchesAt(cs, UserKey, ';', k)) &&
        (exists k: nat :: MatchesAt(cs, PasswordKey, ';', k))
    ensures var cs := env.sqlConnectionString.value;
      BuildSqlConnection(env).Some? ==>
        var c := BuildSqlConnection(env).value;
        && IsCapture(cs, ServerKey, ',', c.server) && ',' !in c.server
        && IsCapture(cs, CatalogKey, ';', c.database) && ';' !in c.database
        && IsCapture(cs, UserKey, ';', c.user) && ';' !in c.user
        && IsCapture(cs, PasswordKey, ';', c.password) && ';' !in c.password
  {
    var cs := env.sqlConnectionString.value;
    if BuildSqlConnection(env).Some? {
      var c := BuildSqlConnection(env).value;
      CaptureIsLeftmostGreedyGroup(cs, ServerKey, ',');
      CaptureIsLeftmostGreedyGroup(cs, CatalogKey, ';');
      CaptureIsLeftmostGreedyGroup(cs, UserKey, ';');
      CaptureIsLeftmostGreedyGroup(cs, PasswordKey, ';');
    }
  }

  /**
   * The server group stops only at a comma: after a comma-free host with no
   * ",port" suffix it runs on through the following semicolon-separated fields.
   */
  lemma ServerRunsThroughSemicolons(host: string, rest: string)
    requires host != [] && ',' !in host && ',' !in rest
    ensures Capture(ServerKey + host + ";" + rest, ServerKey, ',') == Some(host + ";" + rest)
  {
    var s := ServerKey + host + ";" + rest;
    var v := host + ";" + rest;
    assert s == ServerKey + v;
    assert MatchesAt(s, ServerKey, ',', 0) by {
      assert s[..|ServerKey|] == ServerKey;
      assert s[|ServerKey|] == host[0];
    }
    assert IsLeftmostMatch(s, ServerKey, ',', 0);
    assert IsMaximalRun(s, |ServerKey|, ',', v) by {
      assert s[|ServerKey|..|ServerKey| + |v|] == v;
    }
    LeftmostGreedyGroupIsCapture(s, ServerKey, ',', v);
  }
}
