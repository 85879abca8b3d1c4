/**
  Application configuration read from the process environment: the integer
  reader with a fallback, the defaults, and the Redis connection options.
 */
module Config {
  import opened Common
  import opened JsText

  /** The process environment: variable name to value. */
  type Env = map<string, string>

  /** `process.env[name]`, undefined when the variable is unset. */
  function Lookup(env: Env, name: string): Option<string> {
    if name in env then Some(env[name]) else None
  }

  /** `process.env[name] || dflt`: an unset or empty variable gives the default. */
  function EnvOr(env: Env, name: string, dflt: string): (r: string)
    ensures dflt != "" ==> r != ""
    ensures TruthyOpt(Lookup(env, name)) ==> r == env[name]
    ensures !TruthyOpt(Lookup(env, name)) ==> r == dflt
  {
    OrElse(Lookup(env, name), dflt)
  }

  /** `parseIntEnv(name, fallback)`: the fallback for an unset or empty variable or a NaN parse. */
  function ParseIntEnv(env: Env, name: string, fallback: int): int {
    var v := Lookup(env, name);
    if !TruthyOpt(v) then fallback
    else
      match ParseInt(v.value)
      case None => fallback
      case Some(n) => n
  }

  const DefaultPort: int := 3000
  const DefaultRedisHost: string := "127.0.0.1"
  const DefaultRedisPort: int := 6379
  const DefaultQueuePrefix: string := "nestjs-crawler"
  const DefaultQueueName: string := "crawl-queue"
  const DefaultAxiosTimeout: int := 15000
  const DefaultUserAgent: string := "Mozilla/5.0 (compatible; NestCrawler/1.0)"

  datatype RedisConfig = RedisConfig(host: string, port: int, password: Option<string>)

  datatype AppConfig = AppConfig(
    port: int,
    redis: RedisConfig,
    queuePrefix: string,
    queueName: string,
    axiosTimeout: int,
    userAgent: string)

  /** The configuration object built once from the environment. */
  function LoadConfig(env: Env): (c: AppConfig)
    ensures c.redis.host != "" && c.queuePrefix != "" && c.queueName != "" && c.userAgent != ""
    ensures c.redis.password.Some? ==> c.redis.password.value != ""
  {
    AppConfig(
      ParseIntEnv(env, "PORT", DefaultPort),
      RedisConfig(
        EnvOr(env, "REDIS_HOST", DefaultRedisHost),
        ParseIntEnv(env, "REDIS_PORT", DefaultRedisPort),
        if TruthyOpt(Lookup(env, "REDIS_PASSWORD")) then Some(env["REDIS_PASSWORD"]) else None),
      EnvOr(env, "QUEUE_PREFIX", DefaultQueuePrefix),
      EnvOr(env, "QUEUE_NAME", DefaultQueueName),
      ParseIntEnv(env, "AXIOS_TIMEOUT", DefaultAxiosTimeout),
      EnvOr(env, "USER_AGENT", DefaultUserAgent))
  }

  datatype ConnectionOptions = ConnectionOptions(host: string, port: int, password: Option<string>)

  /** `getRedisConnectionOptions()`: host and port always, the password only when one is set. */
  function RedisConnectionOptions(c: AppConfig): (o: ConnectionOptions)
    ensures o.host == c.redis.host && o.port == c.redis.port
    ensures o.password.Some? <==> TruthyOpt(c.redis.password)
    ensures o.password.Some? ==> o.password == c.redis.password
  {
    var base := ConnectionOptions(c.redis.host, c.redis.port, None);
    if TruthyOpt(c.redis.password) then base.(password := c.redis.password) else base
  }

  // ---------------------------------------------------------------------
  // Properties

  /** An unset or empty variable, or one with no leading digits, yields the fallback. */
  lemma ParseIntEnvFallback(env: Env, name: string, fallback: int)
    requires name !in env || !HasLeadingDigits(env[name])
    ensures ParseIntEnv(env, name, fallback) == fallback
  {
    if name in env {
      ParseIntNaN(env[name]);
    }
  }

  /** A variable spelling an integer, with any white space before it and any non-digit text after it, yields that integer. */
  lemma ParseIntEnvReads(env: Env, name: string, fallback: int, pre: string, negative: bool, n: nat, rest: string)
    requires AllSpace(pre)
    requires rest == [] || !IsDigit(rest[0])
    requires name in env && env[name] == pre + (if negative then "-" else "") + NatToDecimal(n) + rest
    ensures ParseIntEnv(env, name, fallback) == if negative then -(n as int) else n
  {
    ParseIntDecimal(pre, negative, n, rest);
  }

  /** "42abc" reads as 42: the digits are taken and the rest ignored. */
  lemma TrailingTextIgnored(env: Env, name: string, fallback: int)
    requires name in env && env[name] == "42abc"
    ensures ParseIntEnv(env, name, fallback) == 42
  {
    assert NatToDecimal(42) == "42";
    assert env[name] == "" + "" + NatToDecimal(42) + "abc";
    ParseIntEnvReads(env, name, fallback, "", false, 42, "abc");
  }

  /** With nothing set, every field takes its documented default. */
  lemma DefaultsOnEmptyEnvironment()
    ensures LoadConfig(map[]) == AppConfig(
      DefaultPort,
      RedisConfig(DefaultRedisHost, DefaultRedisPort, None),
      DefaultQueuePrefix,
      DefaultQueueName,
      DefaultAxiosTimeout,
      DefaultUserAgent)
  {
  }

  /** A variable that is set and non-empty wins over its default: each field is read from its own variable. */
  lemma ConfiguredValuesWin(env: Env)
    ensures TruthyOpt(Lookup(env, "REDIS_HOST")) ==> LoadConfig(env).redis.host == env["REDIS_HOST"]
    ensures TruthyOpt(Lookup(env, "QUEUE_PREFIX")) ==> LoadConfig(env).queuePrefix == env["QUEUE_PREFIX"]
    ensures TruthyOpt(Lookup(env, "QUEUE_NAME")) ==> LoadConfig(env).queueName == env["QUEUE_NAME"]
    ensures TruthyOpt(Lookup(env, "USER_AGENT")) ==> LoadConfig(env).userAgent == env["USER_AGENT"]
    ensures LoadConfig(env).port == ParseIntEnv(env, "PORT", DefaultPort)
    ensures LoadConfig(env).redis.port == ParseIntEnv(env, "REDIS_PORT", DefaultRedisPort)
    ensures LoadConfig(env).axiosTimeout == ParseIntEnv(env, "AXIOS_TIMEOUT", DefaultAxiosTimeout)
  {
  }

  /** The connection options carry a password exactly when `REDIS_PASSWORD` is set to a non-empty value, and then that value. */
  lemma PasswordOnlyWhenConfigured(env: Env)
    ensures RedisConnectionOptions(LoadConfig(env)).password.Some? <==> TruthyOpt(Lookup(env, "REDIS_PASSWORD"))
    ensures TruthyOpt(Lookup(env, "REDIS_PASSWORD")) ==>
      RedisConnectionOptions(LoadConfig(env)).password == Some(env["REDIS_PASSWORD"])
  {
  }
}
