/** The database backend capability contract (`DBTools`): the connection
    descriptor copied from the configuration, the fixed operation
    timeouts, the capability set and which class of the hierarchy
    provides each capability for each variant. */
module DbTools {
  import opened Wrappers

  /** The typed view of a `db` configuration section that the backends read. */
  datatype DbConfig = DbConfig(
    ip: string,
    port: Option<string>,
    name: string,
    user: string,
    password: string,
    backupDir: string,
    mssqlDbDir: string,
    postgresIgnoreRestoreErrors: bool,
    container: Option<string>,
    pgdockerImage: string,
    validateEntityCode: bool,
    rm: bool)

  /** The connection descriptor every backend starts from. `port` is
      `None` when the configuration leaves it unset. */
  datatype Connection = Connection(addr: string, port: Option<string>, name: string, user: string, password: string)

  /** `DBTools.__init__`: host, port, name, user and password are copied
      from the configuration unchanged. */
  function FromConfig(cfg: DbConfig): (c: Connection)
    ensures c.addr == cfg.ip && c.port == cfg.port && c.name == cfg.name
    ensures c.user == cfg.user && c.password == cfg.password
  {
    Connection(cfg.ip, cfg.port, cfg.name, cfg.user, cfg.password)
  }

  /** The operation timeouts, in seconds. */
  const QuickTimeout: nat := 120
  const MiddleTimeout: nat := 1200
  const BackupTimeout: nat := 3600
  const RestoreTimeout: nat := 10800

  /** The operations of the contract. `Set11` is `set_1_1`. */
  datatype Capability = Create | Restore | Backup | HasDefaultBackup | Reduce | Set11 | CustomerPatch | Drop

  /** The classes of the hierarchy: the abstract base and its three variants. */
  datatype Variant = AbstractDatabase | Postgres | Mssql | Pgdocker

  /** The class attribute `DB_TYPE`. */
  function DbType(v: Variant): string {
    match v
    case AbstractDatabase => "abstract_database"
    case Postgres => "postgres"
    case Mssql => "mssql"
    case Pgdocker => "pgdocker"
  }

  /** The variant named by a `db_type` setting, if it names one. */
  function VariantNamed(dbType: string): (r: Option<Variant>)
    ensures r.Some? ==> r.value != AbstractDatabase && DbType(r.value) == dbType
    ensures r.None? ==> forall v: Variant :: v != AbstractDatabase ==> DbType(v) != dbType
  {
    if dbType == DbType(Postgres) then Some(Postgres)
    else if dbType == DbType(Mssql) then Some(Mssql)
    else if dbType == DbType(Pgdocker) then Some(Pgdocker)
    else None
  }

  function Parent(v: Variant): Option<Variant> {
    match v
    case AbstractDatabase => None
    case Postgres => Some(AbstractDatabase)
    case Mssql => Some(AbstractDatabase)
    case Pgdocker => Some(Postgres)
  }

  function Depth(v: Variant): nat {
    match v
    case AbstractDatabase => 0
    case Postgres => 1
    case Mssql => 1
    case Pgdocker => 2
  }

  /** Whether the body of class `v` itself defines capability `c`. The base
      class defines every capability, each as `raise NotImplementedError`;
      `Mssql` defines all but drop, and `Pgdocker` redefines only create,
      drop, backup and restore. */
  predicate Defines(v: Variant, c: Capability) {
    match v
    case AbstractDatabase => true
    case Postgres => true
    case Mssql => c != Drop
    case Pgdocker => c in {Create, Drop, Backup, Restore}
  }

  /** The class whose definition of `c` runs for an instance of `v`
      (Python's method resolution along the single-inheritance chain). */
  function Provider(v: Variant, c: Capability): Variant
    decreases Depth(v)
  {
    if Defines(v, c) then v else Provider(Parent(v).value, c)
  }

  /** The base class's `NotImplementedError` is reached by the base class
      itself and, because `Mssql` has no `drop`, by dropping an MSSQL
      database; every other capability of a concrete variant resolves to a
      concrete definition, and the containerised variant inherits exactly
      the four it does not redefine from the Postgres variant. */
  lemma {:induction false} ConcreteVariantsImplementAll(v: Variant, c: Capability)
    ensures (Provider(v, c) == AbstractDatabase) <==> (v == AbstractDatabase || (v == Mssql && c == Drop))
    ensures v == Pgdocker ==>
              Provider(v, c) == (if c in {Create, Drop, Backup, Restore} then Pgdocker else Postgres)
  {
  }
}
