/**
 * database/env.go: loading KEY=VALUE lines from the database env file into the
 * process environment, and overriding the default database configuration from
 * that environment.
 *
 * The process environment is a `ProcessEnv` object whose `vars` map the loader
 * updates through `Setenv`; the file is given as what the loader can observe
 * of it (missing, not openable, or the lines the scanner yields).
 */
module DatabaseEnv {
  import opened Wrappers
  import opened Text

  /** What loadEnvFile can observe of its file: os.Stat says it does not
      exist; os.Open fails; or the scanner yields `lines` and then stops,
      with `scanError` the scanner's error (a read error or an over-long line). */
  datatype EnvFile =
    | Missing
    | Unopenable(reason: string)
    | Readable(lines: seq<string>, scanError: Option<string>)

  /** os.Setenv on Unix rejects an empty key, a key holding '=' or NUL, and a
      value holding NUL; a rejected call changes nothing. */
  predicate SetenvAccepts(key: string, value: string) {
    key != "" && '=' !in key && '\0' !in key && '\0' !in value
  }

  /** os.Getenv: the empty string for an unset variable. */
  function Getenv(vars: map<string, string>, key: string): string {
    if key in vars then vars[key] else ""
  }

  /** The process environment. */
  class ProcessEnv {
    var vars: map<string, string>

    constructor (initial: map<string, string>)
      ensures vars == initial
    {
      vars := initial;
    }

    /** os.Setenv; `ok` is false when the call returns an error. */
    method Setenv(key: string, value: string) returns (ok: bool)
      modifies this
      ensures ok == SetenvAccepts(key, value)
      ensures vars == if ok then old(vars)[key := value] else old(vars)
    {
      ok := SetenvAccepts(key, value);
      if ok {
        vars := vars[key := value];
      }
    }
  }

  /** One scanned line (env.go:27-35): trimmed; a blank line, a '#' comment or a
      line without '=' yields nothing; otherwise the line is split at its
      first '=', and the trimmed text before it is the key and the trimmed
      text after it, any later '=' included, the value. */
  function ParseLine(raw: string): (r: Option<(string, string)>)
    ensures r.None? <==>
      (var line := TrimSpace(raw); line == [] || line[0] == '#' || '=' !in line)
    ensures r.Some? ==> '=' !in r.value.0 && NoEdgeSpace(r.value.0) && NoEdgeSpace(r.value.1)
  {
    var line := TrimSpace(raw);
    HasCharPrefix(line, '#');
    if line == "" || HasPrefix(line, "#") then None
    else
      var cut := CutFirst(line, '=');
      if cut.None? then None
      else
        var key, value := cut.value.0, cut.value.1;
        TrimSpaceKeepsOut(key, '=');
        Some((TrimSpace(key), TrimSpace(value)))
  }

  /** What a line that yields something parses to: the trimmed line is split
      at its first '=', and key and value are the trimmed text before and
      after it. */
  lemma ParseLineSplitsAtFirstEquals(raw: string)
    requires ParseLine(raw).Some?
    ensures exists head, tail :: TrimSpace(raw) == head + "=" + tail && '=' !in head
                                 && ParseLine(raw).value == (TrimSpace(head), TrimSpace(tail))
  {
    var line := TrimSpace(raw);
    HasCharPrefix(line, '#');
    var cut := CutFirst(line, '=');
    assert line == cut.value.0 + "=" + cut.value.1;
  }

  /** A canonical assignment line parses back to its key and value; the value
      may itself contain '=', since only the first '=' splits. */
  lemma ParseLineOfAssignment(key: string, value: string)
    requires key != [] && key[0] != '#' && '=' !in key
    requires NoEdgeSpace(key) && NoEdgeSpace(value)
    ensures ParseLine(key + "=" + value) == Some((key, value))
  {
    var line := key + "=" + value;
    assert line[0] == key[0];
    assert line[|line| - 1] == if value == [] then '=' else value[|value| - 1];
    TrimSpaceOfTrimmed(line);
    CutFirstOfJoin(key, '=', value);
    TrimSpaceOfTrimmed(key);
    TrimSpaceOfTrimmed(value);
  }

  /** os.Setenv applied to what one line parsed to, if anything; a call
      os.Setenv rejects changes nothing. */
  function Assign(vars: map<string, string>, parsed: Option<(string, string)>): map<string, string> {
    match parsed
    case None => vars
    case Some((key, value)) => if SetenvAccepts(key, value) then vars[key := value] else vars
  }

  /** The environment after one line has been processed. */
  function ApplyLine(vars: map<string, string>, raw: string): map<string, string> {
    Assign(vars, ParseLine(raw))
  }

  /** What each line parses to, in order. */
  function ParseLines(lines: seq<string>): (r: seq<Option<(string, string)>>)
    ensures |r| == |lines|
  {
    if lines == [] then [] else ParseLines(lines[..|lines| - 1]) + [ParseLine(lines[|lines| - 1])]
  }

  /** ParseLines parses each line on its own. */
  lemma {:induction false} ParseLinesAt(lines: seq<string>, k: int)
    requires 0 <= k < |lines|
    ensures ParseLines(lines)[k] == ParseLine(lines[k])
  {
    if k < |lines| - 1 {
      var init := lines[..|lines| - 1];
      ParseLinesAt(init, k);
      assert init[k] == lines[k];
    }
  }

  /** os.Setenv applied to the parsed lines in order. */
  function AssignAll(vars: map<string, string>, parsed: seq<Option<(string, string)>>): map<string, string> {
    if parsed == [] then vars
    else Assign(AssignAll(vars, parsed[..|parsed| - 1]), parsed[|parsed| - 1])
  }

  /** The environment after the lines have been processed in order. */
  function ApplyLines(vars: map<string, string>, lines: seq<string>): map<string, string> {
    AssignAll(vars, ParseLines(lines))
  }

  /** Processing one more line is one more ApplyLine. */
  lemma ApplyLinesSnoc(vars: map<string, string>, lines: seq<string>, raw: string)
    ensures ApplyLines(vars, lines + [raw]) == ApplyLine(ApplyLines(vars, lines), raw)
  {
    var all := lines + [raw];
    assert all[..|all| - 1] == lines;
    var parsed := ParseLines(all);
    assert parsed == ParseLines(lines) + [ParseLine(raw)];
    assert parsed[..|parsed| - 1] == ParseLines(lines);
  }

  /** The parsed line sets `key`. */
  predicate Assigns(parsed: Option<(string, string)>, key: string) {
    parsed.Some? && parsed.value.0 == key && SetenvAccepts(key, parsed.value.1)
  }

  /** The line sets `key` in the environment. */
  predicate AssignsKey(raw: string, key: string) {
    Assigns(ParseLine(raw), key)
  }

  /** A line that sets `key` gives it the parsed value; any other line leaves
      `key` as it was. */
  lemma AssignEffect(vars: map<string, string>, parsed: Option<(string, string)>, key: string)
    ensures Assigns(parsed, key) ==>
      key in Assign(vars, parsed) && Assign(vars, parsed)[key] == parsed.value.1
    ensures !Assigns(parsed, key) ==>
      (key in Assign(vars, parsed) <==> key in vars) &&
      (key in vars ==> Assign(vars, parsed)[key] == vars[key])
  {
  }

  /** A key no line sets keeps its prior value, or stays unset. */
  lemma {:induction false} UnassignedKeyKept(vars: map<string, string>, parsed: seq<Option<(string, string)>>,
                                            key: string)
    requires forall j :: 0 <= j < |parsed| ==> !Assigns(parsed[j], key)
    ensures key in AssignAll(vars, parsed) <==> key in vars
    ensures key in vars ==> AssignAll(vars, parsed)[key] == vars[key]
  {
    if parsed != [] {
      var init, last := parsed[..|parsed| - 1], parsed[|parsed| - 1];
      UnassignedKeyKept(vars, init, key);
      AssignEffect(AssignAll(vars, init), last, key);
    }
  }

  /** For a repeated key, the last line that sets it decides its value. */
  lemma {:induction false} LastAssignmentWins(vars: map<string, string>, parsed: seq<Option<(string, string)>>,
                                             i: int, key: string)
    requires 0 <= i < |parsed| && Assigns(parsed[i], key)
    requires forall j :: i < j < |parsed| ==> !Assigns(parsed[j], key)
    ensures key in AssignAll(vars, parsed)
    ensures AssignAll(vars, parsed)[key] == parsed[i].value.1
    decreases |parsed|
  {
    var init, last := parsed[..|parsed| - 1], parsed[|parsed| - 1];
    if i < |parsed| - 1 {
      assert init[i] == parsed[i];
      LastAssignmentWins(vars, init, i, key);
    }
    AssignEffect(AssignAll(vars, init), last, key);
  }

  /** In terms of the lines: the last line that sets a key decides its value. */
  lemma LastLineWins(vars: map<string, string>, lines: seq<string>, i: int, key: string)
    requires 0 <= i < |lines| && AssignsKey(lines[i], key)
    requires forall j :: i < j < |lines| ==> !AssignsKey(lines[j], key)
    ensures key in ApplyLines(vars, lines)
    ensures ApplyLines(vars, lines)[key] == ParseLine(lines[i]).value.1
  {
    var parsed := ParseLines(lines);
    ParseLinesAt(lines, i);
    forall j | i < j < |parsed|
      ensures !Assigns(parsed[j], key)
    {
      ParseLinesAt(lines, j);
    }
    LastAssignmentWins(vars, parsed, i, key);
  }

  /** The body of loadEnvFile's scan loop (env.go:27-37): a line that parses
      as an assignment is passed to os.Setenv, whose error is ignored. */
  method ScanLine(raw: string, env: ProcessEnv)
    modifies env
    ensures env.vars == ApplyLine(old(env.vars), raw)
  {
    var parsed := ParseLine(raw);
    if parsed.Some? {
      var _ := env.Setenv(parsed.value.0, parsed.value.1);
    }
  }

  /** loadEnvFile (env.go:14-41). A missing file is not an error and sets
      nothing; a file that cannot be opened sets nothing and reports the error;
      otherwise every scanned line is processed and the scanner's error, if
      any, is reported. */
  method LoadEnvFile(file: EnvFile, env: ProcessEnv) returns (err: Option<string>)
    modifies env
    ensures file.Missing? ==> err == None && env.vars == old(env.vars)
    ensures file.Unopenable? ==> err == Some(file.reason) && env.vars == old(env.vars)
    ensures file.Readable? ==>
      err == file.scanError && env.vars == ApplyLines(old(env.vars), file.lines)
  {
    match file
    case Missing =>
      err := None;
    case Unopenable(reason) =>
      err := Some(reason);
    case Readable(lines, scanError) =>
      var i := 0;
      while i < |lines|
        invariant 0 <= i <= |lines|
        invariant env.vars == ApplyLines(old(env.vars), lines[..i])
      {
        assert lines[..i + 1] == lines[..i] + [lines[i]];
        ApplyLinesSnoc(old(env.vars), lines[..i], lines[i]);
        ScanLine(lines[i], env);
        i := i + 1;
      }
      assert lines[..i] == lines;
      err := scanError;
  }

  datatype SQLiteConfig = SQLiteConfig(path: string)

  datatype PostgresConfig = PostgresConfig(
    host: string, port: int, database: string, username: string,
    password: string, sslMode: string, timeZone: string)

  /** config.DatabaseConfig; the type is config.DatabaseType, a string. */
  datatype DatabaseConfig = DatabaseConfig(dbType: string, sqlite: SQLiteConfig, postgres: PostgresConfig)

  /** A non-empty environment variable replaces the current value. */
  function NonEmptyOr(fromEnv: string, current: string): string {
    if fromEnv != "" then fromEnv else current
  }

  /** The Postgres settings after the overrides of env.go:60-82: each non-empty
      variable replaces its field, DB_PORT only when it parses as an integer. */
  ghost predicate PostgresOverriddenFrom(pg: PostgresConfig, d: PostgresConfig,
                                         vars: map<string, string>, atoi: string -> Option<int>)
  {
    var port := Getenv(vars, "DB_PORT");
    && pg.host == NonEmptyOr(Getenv(vars, "DB_HOST"), d.host)
    && pg.port == (if port != "" && atoi(port).Some? then atoi(port).value else d.port)
    && pg.database == NonEmptyOr(Getenv(vars, "DB_NAME"), d.database)
    && pg.username == NonEmptyOr(Getenv(vars, "DB_USER"), d.username)
    && pg.password == NonEmptyOr(Getenv(vars, "DB_PASSWORD"), d.password)
    && pg.sslMode == NonEmptyOr(Getenv(vars, "DB_SSLMODE"), d.sslMode)
    && pg.timeZone == NonEmptyOr(Getenv(vars, "DB_TIMEZONE"), d.timeZone)
  }

  /** The configuration getDatabaseConfig derives from `defaults` and the
      environment (env.go:52-83): DB_TYPE replaces the type when non-empty; only
      when the resulting type is PostgreSQL are the Postgres settings
      overridden; nothing else changes. */
  ghost predicate OverriddenFrom(cfg: DatabaseConfig, defaults: DatabaseConfig,
                                 vars: map<string, string>, postgresType: string,
                                 atoi: string -> Option<int>)
  {
    && cfg.dbType == NonEmptyOr(Getenv(vars, "DB_TYPE"), defaults.dbType)
    && cfg.sqlite == defaults.sqlite
    && (cfg.dbType != postgresType ==> cfg.postgres == defaults.postgres)
    && (cfg.dbType == postgresType ==>
          PostgresOverriddenFrom(cfg.postgres, defaults.postgres, vars, atoi))
  }

  /** The Postgres overrides of getDatabaseConfig, applied field by field. */
  method OverridePostgres(d: PostgresConfig, vars: map<string, string>, atoi: string -> Option<int>)
    returns (pg: PostgresConfig)
    ensures PostgresOverriddenFrom(pg, d, vars, atoi)
  {
    pg := d;
    var host := Getenv(vars, "DB_HOST");
    if host != "" {
      pg := pg.(host := host);
    }
    assert pg.host == NonEmptyOr(host, d.host);
    var port := Getenv(vars, "DB_PORT");
    if port != "" {
      var p := atoi(port);
      if p.Some? {
        pg := pg.(port := p.value);
      }
    }
    assert pg.port == if port != "" && atoi(port).Some? then atoi(port).value else d.port;
    var database := Getenv(vars, "DB_NAME");
    if database != "" {
      pg := pg.(database := database);
    }
    assert pg.database == NonEmptyOr(database, d.database);
    var username := Getenv(vars, "DB_USER");
    if username != "" {
      pg := pg.(username := username);
    }
    assert pg.username == NonEmptyOr(username, d.username);
    var password := Getenv(vars, "DB_PASSWORD");
    if password != "" {
      pg := pg.(password := password);
    }
    assert pg.password == NonEmptyOr(password, d.password);
    var sslMode := Getenv(vars, "DB_SSLMODE");
    if sslMode != "" {
      pg := pg.(sslMode := sslMode);
    }
    assert pg.sslMode == NonEmptyOr(sslMode, d.sslMode);
    var timeZone := Getenv(vars, "DB_TIMEZONE");
    if timeZone != "" {
      pg := pg.(timeZone := timeZone);
    }
    assert pg.timeZone == NonEmptyOr(timeZone, d.timeZone);
  }

  /** The override steps of getDatabaseConfig (env.go:52-83). */
  method ApplyEnvOverrides(defaults: DatabaseConfig, vars: map<string, string>,
                           postgresType: string, atoi: string -> Option<int>)
    returns (cfg: DatabaseConfig)
    ensures OverriddenFrom(cfg, defaults, vars, postgresType, atoi)
  {
    cfg := defaults;
    var dbType := Getenv(vars, "DB_TYPE");
    if dbType != "" {
      cfg := cfg.(dbType := dbType);
    }
    if cfg.dbType == postgresType {
      var pg := OverridePostgres(cfg.postgres, vars, atoi);
      cfg := cfg.(postgres := pg);
    }
  }

  /** getDatabaseConfig (env.go:44-86): loads the env file /etc/x-ui/db.env
      (given as what can be observed of it) into the process environment,
      logs a failure to load as `loadWarning` and carries on, then overrides
      `defaults` from the environment. Its error is always nil. */
  method GetDatabaseConfig(file: EnvFile, env: ProcessEnv, defaults: DatabaseConfig,
                           postgresType: string, atoi: string -> Option<int>)
    returns (cfg: DatabaseConfig, err: Option<string>, loadWarning: Option<string>)
    modifies env
    ensures err == None
    ensures env.vars == if file.Readable? then ApplyLines(old(env.vars), file.lines) else old(env.vars)
    ensures loadWarning == match file
                           case Missing => None
                           case Unopenable(reason) => Some(reason)
                           case Readable(_, scanError) => scanError
    ensures OverriddenFrom(cfg, defaults, env.vars, postgresType, atoi)
  {
    loadWarning := LoadEnvFile(file, env);
    cfg := ApplyEnvOverrides(defaults, env.vars, postgresType, atoi);
    err := None;
  }
}
