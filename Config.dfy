/** The configuration of the stand: an object per section whose fields
    start at class defaults and are overlaid, in order, by a section of
    `environment.json` and by environment variables, then validated.
    `__dict__` is a map from field names to values plus the order in which
    the fields were first assigned; nested configuration objects appear in
    their parent's map as `Nested`. */
module Config {
  import opened Wrappers
  import opened Text
  import DbTools

  /** A scalar read from JSON or assigned by the class: strings, `None`,
      booleans and integers. */
  datatype Json = JStr(s: string) | JNull | JBool(b: bool) | JNum(n: int)

  /** A field value: a scalar, or a nested configuration object. */
  datatype Value = Plain(j: Json) | Nested

  /** `ConfigObject.UNDEFINED`, the marker of a field nobody set yet. */
  const Undefined: Value := Plain(JStr("undefined"))

  /** A section of `environment.json`: the items of its object, in order. */
  type Items = seq<(string, Json)>

  /** The `CONF_NAME` of the three sections. */
  const RootName: string := ""
  const DbName: string := "db"
  const JenkinsName: string := "jenkins"

  /** The fields of one configuration object, in insertion order. */
  datatype Section = Section(keys: seq<string>, fields: map<string, Value>)

  /** The order lists exactly the mapped keys. */
  predicate WellFormed(s: Section) {
    (forall k :: k in s.fields ==> k in s.keys) && (forall i :: 0 <= i < |s.keys| ==> s.keys[i] in s.fields)
  }

  // ---------------------------------------------------------------------
  // the two overlays

  /** `_update_from_dict(items)`: an item overwrites a field that exists
      and is not a nested object; any other item is only warned about. */
  function FromDict(fields: map<string, Value>, items: Items): (r: map<string, Value>)
    ensures r.Keys == fields.Keys
    ensures forall k :: k in fields ==> (r[k].Nested? <==> fields[k].Nested?)
    decreases |items|
  {
    if items == [] then fields
    else
      var k := items[0].0;
      var next := if k in fields && !fields[k].Nested? then fields[k := Plain(items[0].1)] else fields;
      FromDict(next, items[1..])
  }

  /** The value the last item for `k` carries, if any item does. */
  function LastFor(items: Items, k: string): (r: Option<Json>)
    ensures r.Some? <==> exists i :: 0 <= i < |items| && items[i].0 == k
    decreases |items|
  {
    if items == [] then None
    else match LastFor(items[1..], k)
      case Some(v) => Some(v)
      case None => if items[0].0 == k then Some(items[0].1) else None
  }

  /** The dictionary overlay, field by field: a nested object or a field no
      item names keeps its value; any other field takes the last value the
      items give it; the set of fields never changes. */
  lemma {:induction false} FromDictPointwise(fields: map<string, Value>, items: Items, k: string)
    requires k in fields
    ensures var v := LastFor(items, k);
            FromDict(fields, items)[k] == (if fields[k].Nested? || v.None? then fields[k] else Plain(v.value))
    decreases |items|
  {
    if items != [] {
      var key := items[0].0;
      var next := if key in fields && !fields[key].Nested? then fields[key := Plain(items[0].1)] else fields;
      FromDictPointwise(next, items[1..], k);
    }
  }

  /** The name of the environment variable for `key`: the key itself in
      the root section, `CONF_NAME_key` in the others. */
  function EnvName(confName: string, key: string): string {
    if confName == "" then key else confName + "_" + key
  }

  /** Within one section, distinct fields read distinct variables. */
  lemma EnvNameInjective(confName: string, k1: string, k2: string)
    ensures EnvName(confName, k1) == EnvName(confName, k2) ==> k1 == k2
  {
    if confName != "" && EnvName(confName, k1) == EnvName(confName, k2) {
      var p := confName + "_";
      assert EnvName(confName, k1)[|p|..] == k1;
      assert EnvName(confName, k2)[|p|..] == k2;
    }
  }

  /** The value field `key` has after `_update_from_env`: the variable's
      text when it is set and the field is not a nested object. */
  function EnvValue(confName: string, key: string, v: Value, environ: map<string, string>): Value {
    if v.Nested? || EnvName(confName, key) !in environ then v else Plain(JStr(environ[EnvName(confName, key)]))
  }

  /** `_update_from_env(environ)`. */
  function FromEnv(confName: string, fields: map<string, Value>, environ: map<string, string>): (r: map<string, Value>)
    ensures r.Keys == fields.Keys
    ensures forall k :: k in fields && fields[k].Nested? ==> r[k] == Nested
  {
    map k | k in fields :: EnvValue(confName, k, fields[k], environ)
  }

  /** The documented priority of the layers for one field: a nested
      object is never overlaid; otherwise an environment variable beats
      `environment.json`, which beats the class default. */
  function Layered(default: Value, json: Option<Json>, environ: map<string, string>, variable: string): Value {
    if default.Nested? then default
    else if variable in environ then Plain(JStr(environ[variable]))
    else if json.Some? then Plain(json.value)
    else default
  }

  /** Field `k` of `after` is at the value the priority of the layers
      gives it, from its value in `before`. */
  predicate LayeredAt(confName: string, before: Section, after: Section, items: Items,
                      environ: map<string, string>, k: string) {
    k in before.fields ==>
      k in after.fields && after.fields[k] == Layered(before.fields[k], LastFor(items, k), environ, EnvName(confName, k))
  }

  /** Applying the dictionary and then the environment gives every field
      its value by the priority of the layers. */
  lemma OverlaysArePrioritised(confName: string, defaults: map<string, Value>, items: Items,
                               environ: map<string, string>, k: string)
    requires k in defaults
    ensures var r := FromEnv(confName, FromDict(defaults, items), environ);
            k in r && r[k] == Layered(defaults[k], LastFor(items, k), environ, EnvName(confName, k))
  {
    FromDictPointwise(defaults, items, k);
  }

  // ---------------------------------------------------------------------
  // validation

  /** The position of the first field from `i` on still `'undefined'`. */
  function FirstUndefined(keys: seq<string>, fields: map<string, Value>, i: nat): (r: Option<nat>)
    requires i <= |keys| && forall j :: 0 <= j < |keys| ==> keys[j] in fields
    ensures r.Some? ==> i <= r.value < |keys| && fields[keys[r.value]] == Undefined &&
                        forall j :: i <= j < r.value ==> fields[keys[j]] != Undefined
    ensures r.None? <==> forall j :: i <= j < |keys| ==> fields[keys[j]] != Undefined
    decreases |keys| - i
  {
    if i == |keys| then None
    else if fields[keys[i]] == Undefined then Some(i)
    else FirstUndefined(keys, fields, i + 1)
  }

  /** The `RuntimeError` text; the underscore is there even in the root. */
  function RequiredMessage(confName: string, key: string): string {
    "Param " + confName + "_" + key + " required"
  }

  /** `_assert_and_log`: raise for the first field still `'undefined'`. */
  function Check(confName: string, s: Section): (r: Outcome<string>)
    requires WellFormed(s)
    ensures r.Fail? <==> exists j :: 0 <= j < |s.keys| && s.fields[s.keys[j]] == Undefined
    ensures r.Pass? <==> forall k :: k in s.fields ==> s.fields[k] != Undefined
  {
    match FirstUndefined(s.keys, s.fields, 0)
    case None => Pass
    case Some(j) => Fail(RequiredMessage(confName, s.keys[j]))
  }

  /** The message names the first undefined field in insertion order. */
  lemma CheckNamesFirst(confName: string, s: Section, j: nat)
    requires WellFormed(s) && j < |s.keys| && s.fields[s.keys[j]] == Undefined
    requires forall i :: 0 <= i < j ==> s.fields[s.keys[i]] != Undefined
    ensures Check(confName, s) == Fail(RequiredMessage(confName, s.keys[j]))
  {
    var f := FirstUndefined(s.keys, s.fields, 0);
    assert f.Some?;
  }

  // ---------------------------------------------------------------------
  // the class defaults

  const WorkDir: string := "/usr/local/test_tools_data"
  const BackupDir: string := WorkDir + "/backup"
  const DebugPort: string := "8081"
  const CatalinaOpts: string :=
    "-Dapp.install.path=" + WorkDir + " -Xmx1500m -Djava.awt.headless=true -Dfile.encoding=UTF-8 -Xdebug -Xnoagent" +
    " -Xrunjdwp:transport=dt_socket,server=y,suspend=n,address=" + DebugPort

  function Str(s: string): Value {
    Plain(JStr(s))
  }

  /** `RootConfig.__init__`: the root's own fields, in the order they are
      assigned. */
  function RootDefaults(): (r: Section)
    ensures WellFormed(r) && "db_type" in r.fields && r.fields["db_type"] == Str(DbTools.DbType(DbTools.Pgdocker))
    ensures "log_level" in r.fields && LevelAccepted(r.fields["log_level"])
    ensures "jenkins" in r.fields && r.fields["jenkins"] == Nested && "db" in r.fields && r.fields["db"] == Nested
  {
    Section(["log_level", "db_type", "catalina_opts", "jenkins", "db"],
            map["log_level" := Str("INFO"), "db_type" := Str("pgdocker"),
                "catalina_opts" := Str(CatalinaOpts), "jenkins" := Nested, "db" := Nested])
  }

  /** `JenkinsConfig.__init__`. */
  function JenkinsDefaults(): (r: Section)
    ensures WellFormed(r)
  {
    Section(["url", "user", "password", "project", "branch"],
            map["url" := Undefined, "user" := Undefined, "password" := Undefined,
                "project" := Str("product_uni"), "branch" := Plain(JNull)])
  }

  /** `DBConfig.__init__('mssql')`: the common fields, then the MSSQL
      server directory; the port is reassigned in place. */
  function MssqlDefaults(): (r: Section)
    ensures WellFormed(r)
  {
    Section(["ip", "port", "name", "user", "password", "backup_dir", "validate_entity_code", "rm", "mssql_db_dir"],
            map["ip" := Undefined, "port" := Str("1433"), "name" := Undefined, "user" := Undefined,
                "password" := Undefined, "backup_dir" := Undefined, "validate_entity_code" := Plain(JBool(true)),
                "rm" := Plain(JBool(false)), "mssql_db_dir" := Undefined])
  }

  /** `DBConfig.__init__('postgres')`. */
  function PostgresDefaults(): (r: Section)
    ensures WellFormed(r)
  {
    Section(["ip", "port", "name", "user", "password", "backup_dir", "validate_entity_code", "rm",
             "postgres_ignore_restore_errors"],
            map["ip" := Undefined, "port" := Str("5432"), "name" := Undefined, "user" := Undefined,
                "password" := Undefined, "backup_dir" := Str(BackupDir), "validate_entity_code" := Plain(JBool(true)),
                "rm" := Plain(JBool(false)), "postgres_ignore_restore_errors" := Plain(JBool(true))])
  }

  /** `DBConfig.__init__('pgdocker')`: the container's fixed address,
      database and credentials. */
  function PgdockerDefaults(): (r: Section)
    ensures WellFormed(r)
  {
    Section(["ip", "port", "name", "user", "password", "backup_dir", "validate_entity_code", "rm",
             "postgres_ignore_restore_errors", "container", "pgdocker_image"],
            map["ip" := Str("172.17.0.1"), "port" := Plain(JNull), "name" := Str("uni"), "user" := Str("postgres"),
                "password" := Str("postgres"), "backup_dir" := Str(BackupDir),
                "validate_entity_code" := Plain(JBool(true)), "rm" := Plain(JBool(false)),
                "postgres_ignore_restore_errors" := Plain(JBool(true)), "container" := Plain(JNull),
                "pgdocker_image" := Str("tandemservice/postgres")])
  }

  /** `DBConfig.__init__(db_type)`: `None` where it raises for a type no
      backend has. */
  function DbDefaults(dbType: string): (r: Option<Section>)
    ensures r.Some? <==> DbTools.VariantNamed(dbType).Some?
    ensures r.Some? ==> WellFormed(r.value)
  {
    match DbTools.VariantNamed(dbType)
    case None => None
    case Some(v) =>
      if v == DbTools.Mssql then Some(MssqlDefaults())
      else if v == DbTools.Postgres then Some(PostgresDefaults())
      else Some(PgdockerDefaults())
  }

  /** The port each backend defaults to: `1433` for MSSQL, `5432` for
      Postgres, none for the container (its port is chosen at random). */
  lemma DefaultPorts()
    ensures MssqlDefaults().fields["port"] == Str("1433")
    ensures PostgresDefaults().fields["port"] == Str("5432")
    ensures PgdockerDefaults().fields["port"] == Plain(JNull)
  {
  }

  /** `DBConfig` accepts exactly the three backend names, each selecting
      its own defaults. */
  lemma DbDefaultsByName(dbType: string)
    ensures DbDefaults("mssql") == Some(MssqlDefaults())
    ensures DbDefaults("postgres") == Some(PostgresDefaults())
    ensures DbDefaults("pgdocker") == Some(PgdockerDefaults())
    ensures dbType !in {"mssql", "postgres", "pgdocker"} ==> DbDefaults(dbType) == None
  {
  }

  /** The container backend needs nothing from its user: its defaults
      validate. */
  lemma PgdockerDefaultsValidate()
    ensures Check(DbName, PgdockerDefaults()).Pass?
  {
    var d := PgdockerDefaults();
    assert forall k :: k in d.fields ==> d.fields[k] != Undefined;
  }

  /** The MSSQL backend must be given exactly its address, database name,
      credentials, backup directory and server directory. */
  lemma MssqlRequiredFields()
    ensures var d := MssqlDefaults();
            forall k :: k in d.fields ==>
              (d.fields[k] == Undefined <==> k in {"ip", "name", "user", "password", "backup_dir", "mssql_db_dir"})
  {
  }

  /** The Jenkins section must be given its address and credentials. */
  lemma JenkinsRequiredFields()
    ensures var d := JenkinsDefaults();
            forall k :: k in d.fields ==> (d.fields[k] == Undefined <==> k in {"url", "user", "password"})
    ensures Check(JenkinsName, JenkinsDefaults()) == Fail(RequiredMessage(JenkinsName, "url"))
  {
    CheckNamesFirst(JenkinsName, JenkinsDefaults(), 0);
  }

  // ---------------------------------------------------------------------
  // what the backends and the engine read from the db section

  /** Python truthiness of a field: `None`, `False`, `0` and the empty
      string are false, everything else (any other string included) true. */
  predicate Truthy(v: Value) {
    match v
    case Plain(JStr(t)) => t != ""
    case Plain(JNull) => false
    case Plain(JBool(b)) => b
    case Plain(JNum(n)) => n != 0
    case Nested => true
  }

  /** `str(v)`, as `format` and the command lines show a field. */
  function Show(v: Value): string {
    match v
    case Plain(JStr(t)) => t
    case Plain(JNull) => "None"
    case Plain(JBool(b)) => if b then "True" else "False"
    case Plain(JNum(n)) => if n < 0 then "-" + NatToString(-n) else NatToString(n)
    case Nested => ""
  }

  /** A text field, `""` where the section has no such field. */
  function TextOf(d: Section, k: string): string {
    if k in d.fields then Show(d.fields[k]) else ""
  }

  /** A field that may be `None`. */
  function OptionOf(d: Section, k: string): Option<string> {
    if k in d.fields && d.fields[k] != Plain(JNull) then Some(Show(d.fields[k])) else None
  }

  /** A field tested with `if`. */
  predicate Flag(d: Section, k: string) {
    k in d.fields && Truthy(d.fields[k])
  }

  /** The typed view of the db section the backends and the engine read. */
  function DbConfigOf(d: Section): (c: DbTools.DbConfig)
    ensures c.rm <==> Flag(d, "rm")
    ensures c.validateEntityCode <==> Flag(d, "validate_entity_code")
    ensures c.postgresIgnoreRestoreErrors <==> Flag(d, "postgres_ignore_restore_errors")
    ensures c.port.None? <==> "port" !in d.fields || d.fields["port"] == Plain(JNull)
    ensures c.container.None? <==> "container" !in d.fields || d.fields["container"] == Plain(JNull)
  {
    DbTools.DbConfig(TextOf(d, "ip"), OptionOf(d, "port"), TextOf(d, "name"), TextOf(d, "user"), TextOf(d, "password"),
                     TextOf(d, "backup_dir"), TextOf(d, "mssql_db_dir"), Flag(d, "postgres_ignore_restore_errors"),
                     OptionOf(d, "container"), TextOf(d, "pgdocker_image"), Flag(d, "validate_entity_code"), Flag(d, "rm"))
  }

  /** The default backend's defaults switch the entity check on, ignore
      restore errors and leave the database in place on exit. */
  lemma DefaultFlags()
    ensures var d := PgdockerDefaults();
            Flag(d, "validate_entity_code") && Flag(d, "postgres_ignore_restore_errors") && !Flag(d, "rm")
  {
  }

  /** Environment variables are text, so a flag set from the environment
      is on exactly when the variable is not empty: `db_rm=false` and
      `db_rm=0` switch it on, `db_rm=` switches it off. */
  lemma EnvironmentFlag(d: Section, items: Items, environ: map<string, string>, k: string)
    requires k in d.fields && !d.fields[k].Nested? && EnvName(DbName, k) in environ
    ensures Flag(Overlay(DbName, d, items, environ), k) <==> environ[EnvName(DbName, k)] != ""
  {
    OverlaysArePrioritised(DbName, d.fields, items, environ, k);
  }

  /** A flag set only by `environment.json` follows the truthiness of the
      JSON value: `false`, `0`, `null` and `""` switch it off. */
  lemma JsonFlag(d: Section, items: Items, k: string, j: Json)
    requires k in d.fields && !d.fields[k].Nested? && LastFor(items, k) == Some(j)
    ensures Flag(Overlay(DbName, d, items, map[]), k) <==> Truthy(Plain(j))
  {
    OverlaysArePrioritised(DbName, d.fields, items, map[], k);
  }

  // ---------------------------------------------------------------------
  // make_config

  datatype ConfigError =
    | MissingSection(name: string)   // the `KeyError` of a section absent from environment.json
    | Unsupported                    // `RuntimeError('Unsupported db_type')`
    | Required(message: string)      // `_assert_and_log`
    | BadLogLevel                    // `ValueError('Unable to configure root logger')` from `dictConfig`

  datatype Sections = Sections(root: Section, jenkins: Section, db: Section)

  predicate RootShaped(s: Sections) {
    WellFormed(s.root) && WellFormed(s.jenkins) && WellFormed(s.db) &&
    "db_type" in s.root.fields && "log_level" in s.root.fields
  }

  /** The level names the `logging` module knows. */
  const LevelNames: set<string> := {"CRITICAL", "FATAL", "ERROR", "WARN", "WARNING", "INFO", "DEBUG", "NOTSET"}

  /** Whether `dictConfig` accepts `v` as the root logger's level: `None`
      sets no level, any integer (a boolean among them) is a level, and a
      string must be one of the names, in capitals; anything else makes
      `dictConfig` raise. */
  predicate LevelAccepted(v: Value) {
    match v
    case Plain(JStr(t)) => t in LevelNames
    case Plain(JNull) => true
    case Plain(JBool(_)) => true
    case Plain(JNum(_)) => true
    case Nested => false
  }

  datatype Made = Made(s: Sections, outcome: Outcome<ConfigError>)

  /** The backend a `db_type` value names, if it is a string naming one. */
  function TypeNamed(v: Value): Option<string> {
    if v.Plain? && v.j.JStr? && DbTools.VariantNamed(v.j.s).Some? then Some(v.j.s) else None
  }

  /** Both overlays of one section, the dictionary first. */
  function Overlay(name: string, s: Section, items: Items, environ: map<string, string>): (r: Section)
    ensures r.keys == s.keys && r.fields.Keys == s.fields.Keys
    ensures WellFormed(s) ==> WellFormed(r)
  {
    s.(fields := FromEnv(name, FromDict(s.fields, items), environ))
  }

  /** The end of `make_config` once the db section is rebuilt for `t`: the
      db and Jenkins dictionaries, then each one's environment and check. */
  function FinishSpec(s: Sections, t: string, envConfig: map<string, Items>, environ: map<string, string>): (r: Made)
    requires RootShaped(s) && t in envConfig
    ensures RootShaped(r.s) && r.s.root == s.root
    ensures r.s.jenkins.keys == s.jenkins.keys && r.s.db.keys == s.db.keys && r.s.db.fields.Keys == s.db.fields.Keys
    ensures r.outcome.Fail? ==> r.outcome.error == MissingSection(JenkinsName) || r.outcome.error.Required?
  {
    var dict := s.db.(fields := FromDict(s.db.fields, envConfig[t]));
    if JenkinsName !in envConfig then Made(s.(db := dict), Fail(MissingSection(JenkinsName)))
    else
      var jenkins := s.jenkins.(fields := FromDict(s.jenkins.fields, envConfig[JenkinsName]));
      var db := dict.(fields := FromEnv(DbName, dict.fields, environ));
      var checkDb := Check(DbName, db);
      if checkDb.Fail? then Made(Sections(s.root, jenkins, db), Fail(Required(checkDb.error)))
      else
        var jenkins' := jenkins.(fields := FromEnv(JenkinsName, jenkins.fields, environ));
        var checkJenkins := Check(JenkinsName, jenkins');
        Made(Sections(s.root, jenkins', db), if checkJenkins.Fail? then Fail(Required(checkJenkins.error)) else Pass)
  }

  /** `make_config`: the root section first (its overlays, the logging
      configuration at its level, then its check), then the db section
      rebuilt for the chosen type, then the rest. */
  function MakeSpec(s: Sections, envConfig: map<string, Items>, environ: map<string, string>): (r: Made)
    requires RootShaped(s)
    ensures RootShaped(r.s) && r.s.root.keys == s.root.keys && r.s.jenkins.keys == s.jenkins.keys
  {
    if RootName !in envConfig then Made(s, Fail(MissingSection(RootName)))
    else
      var root := Overlay(RootName, s.root, envConfig[RootName], environ);
      var s1 := s.(root := root);
      if !LevelAccepted(root.fields["log_level"]) then Made(s1, Fail(BadLogLevel))
      else
        var c := Check(RootName, root);
        if c.Fail? then Made(s1, Fail(Required(c.error)))
        else match TypeNamed(root.fields["db_type"])
          case None => Made(s1, Fail(Unsupported))
          case Some(t) =>
            var s2 := s1.(db := DbDefaults(t).value);
            if t !in envConfig then Made(s2, Fail(MissingSection(t)))
            else FinishSpec(s2, t, envConfig, environ)
  }

  /** The root section as `make_config` leaves it after its overlays. */
  function OverlaidRoot(s: Sections, envConfig: map<string, Items>, environ: map<string, string>): (r: Section)
    requires RootShaped(s) && RootName in envConfig
    ensures WellFormed(r) && "db_type" in r.fields && "log_level" in r.fields
  {
    Overlay(RootName, s.root, envConfig[RootName], environ)
  }

  /** Once the root section's level is accepted, the section validates
      and it names a backend that environment.json has a section for, the
      rest is `FinishSpec`. */
  lemma MakeSpecFinishes(s: Sections, envConfig: map<string, Items>, environ: map<string, string>, t: string)
    requires RootShaped(s) && RootName in envConfig
    requires LevelAccepted(OverlaidRoot(s, envConfig, environ).fields["log_level"])
    requires Check(RootName, OverlaidRoot(s, envConfig, environ)).Pass?
    requires TypeNamed(OverlaidRoot(s, envConfig, environ).fields["db_type"]) == Some(t) && t in envConfig
    ensures DbDefaults(t).Some?
    ensures MakeSpec(s, envConfig, environ) ==
            FinishSpec(s.(root := OverlaidRoot(s, envConfig, environ), db := DbDefaults(t).value), t, envConfig, environ)
  {
  }

  /** Once the db section is rebuilt: accepted means both remaining
      sections validate, and each of their fields is at the value the
      priority of the layers gives it. */
  lemma FinishIsLayered(s: Sections, t: string, envConfig: map<string, Items>, environ: map<string, string>, k: string)
    requires RootShaped(s) && t in envConfig
    ensures var r := FinishSpec(s, t, envConfig, environ);
            r.outcome.Pass? ==> Check(DbName, r.s.db).Pass? && Check(JenkinsName, r.s.jenkins).Pass?
    ensures var r := FinishSpec(s, t, envConfig, environ);
            r.outcome.Pass? ==>
              JenkinsName in envConfig &&
              LayeredAt(DbName, s.db, r.s.db, envConfig[t], environ, k) &&
              LayeredAt(JenkinsName, s.jenkins, r.s.jenkins, envConfig[JenkinsName], environ, k)
  {
    if JenkinsName in envConfig {
      if k in s.db.fields {
        OverlaysArePrioritised(DbName, s.db.fields, envConfig[t], environ, k);
      }
      if k in s.jenkins.fields {
        OverlaysArePrioritised(JenkinsName, s.jenkins.fields, envConfig[JenkinsName], environ, k);
      }
    }
  }

  /** A configuration that `make_config` accepts has a log level the
      logging module knows, every field of every section defined, a db type `t` some backend has, and every field of
      the db and Jenkins sections at the value the priority of the layers
      gives it, the db section starting from the class defaults `d` of
      that type. */
  lemma MadeConfigIsLayered(s: Sections, envConfig: map<string, Items>, environ: map<string, string>, k: string)
    returns (t: string, d: Section)
    requires RootShaped(s)
    ensures var r := MakeSpec(s, envConfig, environ);
            r.outcome.Pass? ==>
              LevelAccepted(r.s.root.fields["log_level"]) &&
              Check(RootName, r.s.root).Pass? && Check(DbName, r.s.db).Pass? && Check(JenkinsName, r.s.jenkins).Pass? &&
              TypeNamed(r.s.root.fields["db_type"]) == Some(t) && DbDefaults(t) == Some(d) && t in envConfig
    ensures var r := MakeSpec(s, envConfig, environ);
            r.outcome.Pass? ==>
              JenkinsName in envConfig && r.s.db.keys == d.keys &&
              LayeredAt(DbName, d, r.s.db, envConfig[t], environ, k) &&
              LayeredAt(JenkinsName, s.jenkins, r.s.jenkins, envConfig[JenkinsName], environ, k)
  {
    t, d := "", s.db;
    if RootName in envConfig {
      var root := OverlaidRoot(s, envConfig, environ);
      var named := TypeNamed(root.fields["db_type"]);
      if LevelAccepted(root.fields["log_level"]) && Check(RootName, root).Pass? && named.Some? && named.value in envConfig {
        t := named.value;
        MakeSpecFinishes(s, envConfig, environ, t);
        d := DbDefaults(t).value;
        FinishIsLayered(s.(root := root, db := d), t, envConfig, environ, k);
      }
    }
  }

  /** `make_config` fails with a `KeyError` for the root section exactly
      when environment.json has none, and then changes nothing. */
  lemma MakeConfigNeedsRoot(s: Sections, envConfig: map<string, Items>, environ: map<string, string>)
    requires RootShaped(s)
    ensures var r := MakeSpec(s, envConfig, environ);
            (RootName !in envConfig ==> r == Made(s, Fail(MissingSection(RootName)))) &&
            (RootName in envConfig ==> r.outcome != Fail(MissingSection(RootName)))
  {
    var r := MakeSpec(s, envConfig, environ);
    if RootName in envConfig {
      var root := OverlaidRoot(s, envConfig, environ);
      var s1 := s.(root := root);
      var c := Check(RootName, root);
      if !LevelAccepted(root.fields["log_level"]) {
        assert r == Made(s1, Fail(BadLogLevel));
      } else if c.Fail? {
        assert r == Made(s1, Fail(Required(c.error)));
      } else {
        match TypeNamed(root.fields["db_type"])
        case None =>
          assert r == Made(s1, Fail(Unsupported));
        case Some(t) =>
          assert DbTools.VariantNamed(t).Some?;
          assert t != RootName;
          if t in envConfig {
            MakeSpecFinishes(s, envConfig, environ, t);
          } else {
            assert r == Made(s1.(db := DbDefaults(t).value), Fail(MissingSection(t)));
          }
      }
    }
  }

  /** `make_config` raises from `dictConfig` exactly when the overlaid
      root section holds a level the logging module does not know; it
      does so before any section is checked and leaves the db and Jenkins
      sections as they were. A level from the environment is accepted
      exactly when it is one of the names: `log_level=debug` is not. */
  lemma MakeConfigChecksLogLevel(s: Sections, envConfig: map<string, Items>, environ: map<string, string>)
    requires RootShaped(s)
    ensures var r := MakeSpec(s, envConfig, environ);
            r.outcome == Fail(BadLogLevel) <==> RootName in envConfig && !LevelAccepted(r.s.root.fields["log_level"])
    ensures var r := MakeSpec(s, envConfig, environ);
            r.outcome == Fail(BadLogLevel) ==> r.s.jenkins == s.jenkins && r.s.db == s.db
    ensures RootName in envConfig && "log_level" in environ && !s.root.fields["log_level"].Nested? ==>
              (LevelAccepted(OverlaidRoot(s, envConfig, environ).fields["log_level"]) <==> environ["log_level"] in LevelNames)
  {
    var r := MakeSpec(s, envConfig, environ);
    if RootName in envConfig {
      var root := OverlaidRoot(s, envConfig, environ);
      var s1 := s.(root := root);
      OverlaysArePrioritised(RootName, s.root.fields, envConfig[RootName], environ, "log_level");
      if !LevelAccepted(root.fields["log_level"]) {
        assert r == Made(s1, Fail(BadLogLevel));
      } else {
        var c := Check(RootName, root);
        if c.Fail? {
          assert r == Made(s1, Fail(Required(c.error)));
        } else {
          match TypeNamed(root.fields["db_type"])
          case None =>
            assert r == Made(s1, Fail(Unsupported));
          case Some(t) =>
            if t in envConfig {
              MakeSpecFinishes(s, envConfig, environ, t);
            } else {
              assert r == Made(s1.(db := DbDefaults(t).value), Fail(MissingSection(t)));
            }
        }
      }
    }
  }

  /** `make_config` rejects the db type exactly when the root section, its
      level accepted and its fields validated, names no backend, and then keeps the db section it had. */
  lemma MakeConfigRejectsType(s: Sections, envConfig: map<string, Items>, environ: map<string, string>)
    requires RootShaped(s)
    ensures var r := MakeSpec(s, envConfig, environ);
            r.outcome == Fail(Unsupported) <==>
              RootName in envConfig && LevelAccepted(r.s.root.fields["log_level"]) &&
              Check(RootName, Overlay(RootName, s.root, envConfig[RootName], environ)).Pass? &&
              TypeNamed(r.s.root.fields["db_type"]).None?
    ensures var r := MakeSpec(s, envConfig, environ);
            r.outcome == Fail(Unsupported) ==> r.s.db == s.db
  {
    var r := MakeSpec(s, envConfig, environ);
    if RootName in envConfig {
      var root := OverlaidRoot(s, envConfig, environ);
      var s1 := s.(root := root);
      var c := Check(RootName, root);
      if !LevelAccepted(root.fields["log_level"]) {
        assert r == Made(s1, Fail(BadLogLevel));
      } else if c.Fail? {
        assert r == Made(s1, Fail(Required(c.error)));
      } else {
        match TypeNamed(root.fields["db_type"])
        case None =>
          assert r == Made(s1, Fail(Unsupported));
        case Some(t) =>
          if t in envConfig {
            MakeSpecFinishes(s, envConfig, environ, t);
          } else {
            assert r == Made(s1.(db := DbDefaults(t).value), Fail(MissingSection(t)));
          }
      }
    }
  }

  /** Once the root section's level is accepted and the section validates
      and names a backend, the db section that results does not depend on the db section there was before. */
  lemma MakeRebuildsDb(s: Sections, other: Section, envConfig: map<string, Items>, environ: map<string, string>)
    requires RootShaped(s) && WellFormed(other)
    requires RootName in envConfig
    requires var root := Overlay(RootName, s.root, envConfig[RootName], environ);
             LevelAccepted(root.fields["log_level"]) && Check(RootName, root).Pass? && TypeNamed(root.fields["db_type"]).Some?
    ensures MakeSpec(s, envConfig, environ) == MakeSpec(s.(db := other), envConfig, environ)
  {
  }

  // ---------------------------------------------------------------------
  // the objects

  class ConfigObject {
    /** `CONF_NAME` */
    const confName: string
    /** The keys of `__dict__`, in insertion order; overlays never add one. */
    const keys: seq<string>
    var fields: map<string, Value>

    function Contents(): Section
      reads this
    {
      Section(keys, fields)
    }

    predicate Valid()
      reads this
    {
      WellFormed(Contents())
    }

    constructor (confName: string, s: Section)
      requires WellFormed(s)
      ensures this.confName == confName && Contents() == s && Valid()
    {
      this.confName := confName;
      keys := s.keys;
      fields := s.fields;
    }

    method UpdateFromDict(items: Items)
      requires Valid()
      modifies this
      ensures Valid() && fields == FromDict(old(fields), items)
    {
      var i := 0;
      while i < |items|
        invariant 0 <= i <= |items|
        invariant fields.Keys == old(fields).Keys
        invariant FromDict(fields, items[i..]) == FromDict(old(fields), items)
      {
        var key := items[i].0;
        if key in fields {
          if !fields[key].Nested? {
            fields := fields[key := Plain(items[i].1)];
          }
        }
        // otherwise a warning about the unknown key is logged
        assert items[i..][1..] == items[i + 1..];
        i := i + 1;
      }
    }

    method UpdateFromEnv(environ: map<string, string>)
      requires Valid()
      modifies this
      ensures Valid() && fields == FromEnv(confName, old(fields), environ)
    {
      ghost var target := FromEnv(confName, old(fields), environ);
      ghost var done: set<string> := {};
      var i := 0;
      while i < |keys|
        invariant 0 <= i <= |keys|
        invariant fields.Keys == old(fields).Keys
        invariant forall j :: 0 <= j < i ==> keys[j] in done
        invariant forall k :: k in fields ==> fields[k] == (if k in done then target[k] else old(fields)[k])
      {
        var key := keys[i];
        if !fields[key].Nested? {
          var variable := EnvName(confName, key);
          if variable in environ {
            fields := fields[key := Plain(JStr(environ[variable]))];
          }
        }
        assert fields[key] == target[key];
        done := done + {key};
        i := i + 1;
      }
    }

    /** Raises for the first field still `'undefined'`; logging is left
        out. */
    method AssertAndLog() returns (o: Outcome<string>)
      requires Valid()
      ensures o == Check(confName, Contents())
    {
      var i := 0;
      while i < |keys|
        invariant 0 <= i <= |keys|
        invariant FirstUndefined(keys, fields, 0) == FirstUndefined(keys, fields, i)
      {
        if fields[keys[i]] == Undefined {
          return Fail(RequiredMessage(confName, keys[i]));
        }
        i := i + 1;
      }
      return Pass;
    }
  }

  class RootConfig {
    /** The root's own fields, `jenkins` and `db` shown as nested. */
    const root: ConfigObject
    const jenkins: ConfigObject
    var db: ConfigObject

    function State(): Sections
      reads this, root, jenkins, db
    {
      Sections(root.Contents(), jenkins.Contents(), db.Contents())
    }

    predicate Valid()
      reads this, root, jenkins, db
    {
      root != jenkins && root != db && jenkins != db &&
      root.confName == RootName && jenkins.confName == JenkinsName && db.confName == DbName &&
      RootShaped(State())
    }

    /** `RootConfig.__init__`. */
    constructor ()
      ensures Valid() && State() == Sections(RootDefaults(), JenkinsDefaults(), DbDefaults("pgdocker").value)
    {
      root := new ConfigObject(RootName, RootDefaults());
      jenkins := new ConfigObject(JenkinsName, JenkinsDefaults());
      db := new ConfigObject(DbName, DbDefaults("pgdocker").value);
    }

    /** `make_config`, with the parsed `environment.json` and the process
        environment as inputs. */
    method MakeConfig(envConfig: map<string, Items>, environ: map<string, string>) returns (o: Outcome<ConfigError>)
      requires Valid()
      modifies this, root, jenkins
      ensures Valid() && (db == old(db) || fresh(db))
      ensures Made(State(), o) == MakeSpec(old(State()), envConfig, environ)
    {
      if RootName !in envConfig {
        return Fail(MissingSection(RootName));
      }
      root.UpdateFromDict(envConfig[RootName]);
      root.UpdateFromEnv(environ);
      if !LevelAccepted(root.fields["log_level"]) {
        return Fail(BadLogLevel);
      }
      var c := root.AssertAndLog();
      if c.Fail? {
        return Fail(Required(c.error));
      }
      var t := TypeNamed(root.fields["db_type"]);
      if t.None? {
        return Fail(Unsupported);
      }
      db := new ConfigObject(DbName, DbDefaults(t.value).value);
      if t.value !in envConfig {
        return Fail(MissingSection(t.value));
      }
      o := Finish(t.value, envConfig, environ);
    }

    method Finish(t: string, envConfig: map<string, Items>, environ: map<string, string>) returns (o: Outcome<ConfigError>)
      requires Valid() && t in envConfig
      modifies root, jenkins, db
      ensures Valid()
      ensures Made(State(), o) == FinishSpec(old(State()), t, envConfig, environ)
    {
      db.UpdateFromDict(envConfig[t]);
      if JenkinsName !in envConfig {
        return Fail(MissingSection(JenkinsName));
      }
      jenkins.UpdateFromDict(envConfig[JenkinsName]);
      db.UpdateFromEnv(environ);
      var c := db.AssertAndLog();
      if c.Fail? {
        return Fail(Required(c.error));
      }
      jenkins.UpdateFromEnv(environ);
      c := jenkins.AssertAndLog();
      o := if c.Fail? then Fail(Required(c.error)) else Pass;
    }
  }
}
