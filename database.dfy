/** Opening the SQL database: which driver and connection string the
    configuration selects, the log level, and the nil guards around the
    global handle. The drivers themselves are outside the model; what they
    report is passed in. */
module Database {
  import opened Wrappers
  import Strings
  import Config

  datatype Dialect = Postgres | MySql

  /** A driver and the connection string handed to it. */
  datatype Dsn = Dsn(dialect: Dialect, dsn: string)

  /** The key=value form used for a local PostgreSQL. */
  function PostgresDsn(d: Config.DatabaseConfig): string {
    "host=" + d.host + " port=" + d.port + " user=" + d.user + " password=" + d.password
    + " dbname=" + d.name + " sslmode=disable"
  }

  /** The go-sql-driver form used for MySQL. */
  function MySqlDsn(d: Config.DatabaseConfig): string {
    d.user + ":" + d.password + "@tcp(" + d.host + ":" + d.port + ")/" + d.name
    + "?charset=utf8mb4&parseTime=True&loc=Local"
  }

  /** A full URL wins and names its driver by its scheme; without one,
      port 5432 means PostgreSQL and any other port MySQL. */
  function SelectDsn(d: Config.DatabaseConfig): (r: Dsn)
    ensures d.url != "" ==> r.dsn == d.url
    ensures d.url != "" ==>
      (r.dialect == Postgres <==> Strings.HasPrefix(d.url, "postgres://") || Strings.HasPrefix(d.url, "postgresql://"))
    ensures d.url == "" && d.port == "5432" ==> r == Dsn(Postgres, PostgresDsn(d))
    ensures d.url == "" && d.port != "5432" ==> r == Dsn(MySql, MySqlDsn(d))
  {
    if d.url != "" then
      Dsn(if Strings.HasPrefix(d.url, "postgres://") || Strings.HasPrefix(d.url, "postgresql://") then Postgres else MySql,
          d.url)
    else if d.port == "5432" then Dsn(Postgres, PostgresDsn(d))
    else Dsn(MySql, MySqlDsn(d))
  }

  /** The MySQL string states the account, then the server address, then
      the database, in that order. */
  lemma MySqlDsnShape(d: Config.DatabaseConfig)
    ensures Strings.HasPrefix(MySqlDsn(d), d.user + ":" + d.password + "@tcp(" + d.host + ":" + d.port + ")/" + d.name + "?")
  {
    var p := d.user + ":" + d.password + "@tcp(" + d.host + ":" + d.port + ")/" + d.name + "?";
    assert MySqlDsn(d) == p + "charset=utf8mb4&parseTime=True&loc=Local";
    assert MySqlDsn(d)[..|p|] == p;
  }

  /** With the defaults the backend talks to a local MySQL. */
  lemma DefaultIsLocalMySql()
    ensures SelectDsn(Config.Load(map[]).database).dialect == MySql
  {
    Config.LoadDefaults();
  }

  datatype LogLevel = Info | Warn

  /** `logLevel := logger.Warn`, raised to `Info` in development. */
  function LogLevelFor(c: Config.Config): (l: LogLevel)
    ensures l == Info <==> Config.IsDevelopment(c)
  {
    if Config.IsDevelopment(c) then Info else Warn
  }

  /** An open connection and the pool settings applied to it. */
  datatype Connection = Connection(
    dialect: Dialect, dsn: string, logLevel: LogLevel,
    maxIdleConns: int, maxOpenConns: int, connMaxLifetimeSeconds: int, pooled: bool)

  /** The package's global `DB`. */
  class Handle {
    var db: Option<Connection>

    constructor()
      ensures db == None
    {
      db := None;
    }

    /** `Init`. `openError` is what the driver's open reports and
        `poolError` what fetching the underlying pool reports (`None` for
        success). A failed open leaves the handle as it was; a failed pool
        lookup leaves the opened connection unpooled. */
    method Init(cfg: Config.Config, openError: Option<string>, poolError: Option<string>) returns (err: Option<string>)
      modifies this
      ensures var d := SelectDsn(cfg.database);
              openError.Some? ==>
                db == old(db)
                && err == Some((if d.dialect == Postgres then "failed to connect to postgres database: "
                                else "failed to connect to mysql database: ") + openError.value)
      ensures var d := SelectDsn(cfg.database);
              openError.None? && poolError.Some? ==>
                db == Some(Connection(d.dialect, d.dsn, LogLevelFor(cfg), 0, 0, 0, false))
                && err == Some("failed to get underlying sql.DB: " + poolError.value)
      ensures var d := SelectDsn(cfg.database);
              openError.None? && poolError.None? ==>
                db == Some(Connection(d.dialect, d.dsn, LogLevelFor(cfg), 10, 100, 3600, true)) && err == None
    {
      var dsn: string;
      var isPostgres: bool;
      if cfg.database.url != "" {
        dsn := cfg.database.url;
        isPostgres := Strings.HasPrefix(dsn, "postgres://") || Strings.HasPrefix(dsn, "postgresql://");
      } else if cfg.database.port == "5432" {
        dsn := PostgresDsn(cfg.database);
        isPostgres := true;
      } else {
        dsn := MySqlDsn(cfg.database);
        isPostgres := false;
      }
      var logLevel := Warn;
      if Config.IsDevelopment(cfg) {
        logLevel := Info;
      }
      var dialect := if isPostgres then Postgres else MySql;
      assert Dsn(dialect, dsn) == SelectDsn(cfg.database);
      if openError.Some? {
        if isPostgres {
          return Some("failed to connect to postgres database: " + openError.value);
        }
        return Some("failed to connect to mysql database: " + openError.value);
      }
      db := Some(Connection(dialect, dsn, logLevel, 0, 0, 0, false));
      if poolError.Some? {
        return Some("failed to get underlying sql.DB: " + poolError.value);
      }
      db := Some(db.value.(maxIdleConns := 10, maxOpenConns := 100, connMaxLifetimeSeconds := 3600, pooled := true));
      return None;
    }

    /** `Migrate`: refused before `Init`; otherwise the migration's own
        error, wrapped. */
    method Migrate(migrateError: Option<string>) returns (err: Option<string>)
      ensures db.None? ==> err == Some("database not initialized")
      ensures db.Some? && migrateError.Some? ==> err == Some("failed to run migrations: " + migrateError.value)
      ensures db.Some? && migrateError.None? ==> err == None
    {
      if db.None? {
        return Some("database not initialized");
      }
      if migrateError.Some? {
        return Some("failed to run migrations: " + migrateError.value);
      }
      return None;
    }

    /** `Close`: nothing to do and no error before `Init`; otherwise the
        pool lookup's error, then the close's. */
    method Close(poolError: Option<string>, closeError: Option<string>) returns (err: Option<string>)
      ensures db.None? ==> err == None
      ensures db.Some? && poolError.Some? ==> err == poolError
      ensures db.Some? && poolError.None? ==> err == closeError
    {
      if db.None? {
        return None;
      }
      if poolError.Some? {
        return poolError;
      }
      return closeError;
    }
  }

  /** Before `Init`, migrating fails and closing succeeds. */
  method GuardsBeforeInit(migrateError: Option<string>, closeError: Option<string>)
    returns (migrated: Option<string>, closed: Option<string>)
    ensures migrated == Some("database not initialized") && closed == None
  {
    var h := new Handle();
    migrated := h.Migrate(migrateError);
    closed := h.Close(None, closeError);
  }
}
