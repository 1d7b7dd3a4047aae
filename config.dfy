/** Application configuration read from the environment, loaded once. */
module Config {
  import opened Wrappers
  import Strings

  /** The process environment; a variable that is not set reads as "",
      as with `os.Getenv`. */
  type Environment = map<string, string>

  function Getenv(env: Environment, key: string): string {
    if key in env then env[key] else ""
  }

  /** `getEnv`: the variable when it is non-empty, the default otherwise. */
  function GetEnv(env: Environment, key: string, default: string): (v: string)
    ensures Getenv(env, key) != "" ==> v == Getenv(env, key)
    ensures Getenv(env, key) == "" ==> v == default
    ensures v == "" ==> default == ""
  {
    var value := Getenv(env, key);
    if value != "" then value else default
  }

  /** Setting a variable to "" is the same as leaving it unset. */
  lemma EmptyCountsAsUnset(env: Environment, key: string, default: string)
    ensures GetEnv(env[key := ""], key, default) == GetEnv(env - {key}, key, default) == default
  {
  }

  /** `getEnvInt`: the variable's integer value when it is set and parses,
      the default otherwise. */
  function GetEnvInt(env: Environment, key: string, default: int): (v: int)
    ensures Strings.Atoi(Getenv(env, key)).Some? ==> v == Strings.Atoi(Getenv(env, key)).value
    ensures Strings.Atoi(Getenv(env, key)).None? ==> v == default
  {
    var value := Getenv(env, key);
    if value != "" then
      var i := Strings.Atoi(value);
      if i.Some? then i.value else default
    else default
  }

  /** An integer written in decimal is read back as itself. */
  lemma GetEnvIntRoundTrip(env: Environment, key: string, n: int, default: int)
    requires Strings.MinInt64 <= n <= Strings.MaxInt64
    ensures GetEnvInt(env[key := Strings.Itoa(n)], key, default) == n
  {
    Strings.AtoiItoa(n);
  }

  datatype AppConfig = AppConfig(env: string, port: string)
  datatype DatabaseConfig = DatabaseConfig(
    host: string, port: string, user: string, password: string, name: string, url: string)
  datatype RedisConfig = RedisConfig(host: string, port: string, password: string, url: string)
  datatype JwtConfig = JwtConfig(secret: string, expireHour: int)
  datatype CorsConfig = CorsConfig(origins: string)
  datatype WebRtcConfig = WebRtcConfig(turnServerUrl: string, turnUsername: string, turnPassword: string)
  datatype Config = Config(
    app: AppConfig, database: DatabaseConfig, redis: RedisConfig, jwt: JwtConfig,
    cors: CorsConfig, webRtc: WebRtcConfig)

  /** `load`: each field from its variable, with its default. Every setting
      whose default is non-empty is never empty. */
  function Load(env: Environment): (c: Config)
    ensures c.app.env != "" && c.app.port != ""
    ensures c.database.host != "" && c.database.port != "" && c.database.user != ""
            && c.database.password != "" && c.database.name != ""
    ensures c.redis.host != "" && c.redis.port != "" && c.jwt.secret != "" && c.cors.origins != ""
    ensures c.database.url == Getenv(env, "DATABASE_URL") && c.webRtc.turnServerUrl == Getenv(env, "TURN_SERVER_URL")
  {
    Config(
      AppConfig(GetEnv(env, "APP_ENV", "development"), GetEnv(env, "PORT", "8080")),
      DatabaseConfig(
        GetEnv(env, "DB_HOST", "localhost"), GetEnv(env, "DB_PORT", "3306"), GetEnv(env, "DB_USER", "gochatroom"),
        GetEnv(env, "DB_PASSWORD", "gochatroom"), GetEnv(env, "DB_NAME", "gochatroom"), GetEnv(env, "DATABASE_URL", "")),
      RedisConfig(
        GetEnv(env, "REDIS_HOST", "localhost"), GetEnv(env, "REDIS_PORT", "6379"),
        GetEnv(env, "REDIS_PASSWORD", ""), GetEnv(env, "REDIS_URL", "")),
      JwtConfig(GetEnv(env, "JWT_SECRET", "default-secret-change-in-production"), GetEnvInt(env, "JWT_EXPIRE_HOUR", 24)),
      CorsConfig(GetEnv(env, "CORS_ORIGINS", "http://localhost:5173")),
      WebRtcConfig(GetEnv(env, "TURN_SERVER_URL", ""), GetEnv(env, "TURN_USERNAME", ""), GetEnv(env, "TURN_PASSWORD", "")))
  }

  /** With nothing set, the configuration is the development one. */
  lemma LoadDefaults()
    ensures Load(map[]) == Config(
      AppConfig("development", "8080"),
      DatabaseConfig("localhost", "3306", "gochatroom", "gochatroom", "gochatroom", ""),
      RedisConfig("localhost", "6379", "", ""),
      JwtConfig("default-secret-change-in-production", 24),
      CorsConfig("http://localhost:5173"),
      WebRtcConfig("", "", ""))
    ensures IsDevelopment(Load(map[]))
  {
  }

  predicate IsDevelopment(c: Config) {
    c.app.env == "development"
  }

  predicate IsProduction(c: Config) {
    c.app.env == "production"
  }

  /** No configuration is both development and production, and the
      environment variable alone decides which. */
  lemma ModesExclusive(env: Environment)
    ensures !(IsDevelopment(Load(env)) && IsProduction(Load(env)))
    ensures IsProduction(Load(env)) <==> Getenv(env, "APP_ENV") == "production"
    ensures IsDevelopment(Load(env)) <==> Getenv(env, "APP_ENV") in {"", "development"}
  {
  }

  /** The package's `cfg` and `once`: the first `Get` loads, every later
      one returns the stored configuration whatever the environment. */
  class Holder {
    var cfg: Option<Config>

    constructor()
      ensures cfg == None
    {
      cfg := None;
    }

    method Get(env: Environment) returns (c: Config)
      modifies this
      ensures old(cfg).None? ==> c == Load(env)
      ensures old(cfg).Some? ==> c == old(cfg).value
      ensures cfg == Some(c)
    {
      if cfg.None? {
        cfg := Some(Load(env));
      }
      c := cfg.value;
    }
  }

  /** Two calls with different environments see the same configuration,
      the one the first call loaded. */
  method GetTwice(env1: Environment, env2: Environment) returns (first: Config, second: Config)
    ensures first == second == Load(env1)
  {
    var h := new Holder();
    first := h.Get(env1);
    second := h.Get(env2);
  }
}
