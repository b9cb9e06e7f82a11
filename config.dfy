/** The server configuration: its defaults, the overrides `from_env` reads
    from environment variables, and the numeric checks of `validate`. The
    environment is a map from variable name to value; a variable that is
    not set is absent from it. */
module AppConfig {
  import opened Wrappers
  import opened Ints

  datatype CorsConfig = CorsConfig(
    allowedOrigins: seq<string>,
    allowedMethods: seq<string>,
    allowedHeaders: seq<string>,
    maxAge: U32)

  datatype WebSocketConfig = WebSocketConfig(
    connectionTimeout: U64,
    maxContinuationSize: USize,
    pingInterval: U64,
    pongTimeout: U64)

  datatype PersistenceConfig = PersistenceConfig(
    persistMessagesDefault: bool,
    maxMessagesPerChannel: USize,
    messageRetentionDays: U32,
    autoBackup: bool,
    backupIntervalHours: U32)

  datatype Config = Config(
    host: string,
    port: U16,
    dbPath: string,
    maxConnectionsPerChannel: USize,
    messageSizeLimit: USize,
    logLevel: string,
    cors: CorsConfig,
    websocket: WebSocketConfig,
    persistence: PersistenceConfig)

  const DefaultCors := CorsConfig(
    ["http://localhost:3000", "http://localhost:8080", "http://127.0.0.1:3000", "http://127.0.0.1:8080"],
    ["GET", "POST", "PUT", "DELETE", "OPTIONS"],
    ["Content-Type", "Authorization", "Accept", "Origin", "X-Requested-With"],
    3600)

  const DefaultWebSocket := WebSocketConfig(30, 1_048_576, 30, 10)

  const DefaultPersistence := PersistenceConfig(false, 10_000, 30, false, 24)

  const DefaultConfig := Config("127.0.0.1", 8080, "emit_hub.redb", 1000, 1_048_576, "info",
                                DefaultCors, DefaultWebSocket, DefaultPersistence)

  /** `validate` without the database directory check: the first zero among
      port, connections per channel, message size limit, connection timeout
      and retention days is reported. */
  function Validate(c: Config): (r: Outcome<string>)
    ensures r.Pass? <==>
              && c.port != 0 && c.maxConnectionsPerChannel != 0 && c.messageSizeLimit != 0
              && c.websocket.connectionTimeout != 0 && c.persistence.messageRetentionDays != 0
    ensures c.port == 0 ==> r == Fail("Port cannot be 0")
  {
    if c.port == 0 then Fail("Port cannot be 0")
    else if c.maxConnectionsPerChannel == 0 then Fail("Max connections per channel must be greater than 0")
    else if c.messageSizeLimit == 0 then Fail("Message size limit must be greater than 0")
    else if c.websocket.connectionTimeout == 0 then Fail("WebSocket connection timeout must be greater than 0")
    else if c.persistence.messageRetentionDays == 0 then Fail("Message retention days must be greater than 0")
    else Pass
  }

  /** The default configuration has the documented values and passes
      validation; zeroing the port or the per-channel connection cap makes
      it fail. */
  lemma DefaultConfigChecks()
    ensures DefaultConfig.host == "127.0.0.1" && DefaultConfig.port == 8080
    ensures DefaultConfig.maxConnectionsPerChannel == 1000 && DefaultConfig.messageSizeLimit == 1_048_576
    ensures Validate(DefaultConfig).Pass?
    ensures Validate(DefaultConfig.(port := 0)).Fail?
    ensures Validate(DefaultConfig.(maxConnectionsPerChannel := 0)).Fail?
  {
  }

  // ---- Decimal numbers, as Rust's `str::parse` reads unsigned integers ----

  predicate IsDigit(c: char)
  {
    '0' <= c <= '9'
  }

  predicate AllDigits(s: string)
  {
    forall i :: 0 <= i < |s| ==> IsDigit(s[i])
  }

  function DigitsValue(s: string): nat
    requires AllDigits(s)
  {
    if s == [] then 0
    else DigitsValue(s[..|s| - 1]) * 10 + (s[|s| - 1] as int - '0' as int)
  }

  /** `<uN as FromStr>::from_str`: an optional '+', then at least one ASCII
      digit (no sign '-', no spaces), with a value below `limit`. */
  function ParseUnsigned(s: string, limit: int): (r: Option<nat>)
    ensures r.Some? ==> r.value < limit
  {
    var digits := if |s| > 0 && s[0] == '+' then s[1..] else s;
    if digits != [] && AllDigits(digits) && DigitsValue(digits) < limit then Some(DigitsValue(digits))
    else None
  }

  /** The decimal text of `n`, as `to_string` prints it. */
  function Decimal(n: nat): string
  {
    if n < 10 then [('0' as int + n) as char]
    else Decimal(n / 10) + [('0' as int + n % 10) as char]
  }

  /** Printing a number and parsing it back gives the number, with or
      without a leading '+', exactly when it fits. */
  lemma {:induction false} ParseDecimal(n: nat, limit: int)
    ensures AllDigits(Decimal(n)) && Decimal(n) != [] && DigitsValue(Decimal(n)) == n
    ensures ParseUnsigned(Decimal(n), limit) == if n < limit then Some(n) else None
    ensures ParseUnsigned("+" + Decimal(n), limit) == if n < limit then Some(n) else None
    decreases n
  {
    var d := Decimal(n);
    if n >= 10 {
      ParseDecimal(n / 10, limit);
      assert d[..|d| - 1] == Decimal(n / 10);
    }
    assert ("+" + d)[1..] == d;
  }

  /** Text without digits, a lone sign, or a minus sign never parses. */
  lemma ParseRejects(s: string, limit: int)
    ensures s == [] || s == "+" || s[0] == '-' ==> ParseUnsigned(s, limit).None?
  {
  }

  /** `<bool as FromStr>::from_str`: exactly "true" or "false". */
  function ParseBool(s: string): (r: Option<bool>)
    ensures r.Some? <==> s == "true" || s == "false"
    ensures r.Some? ==> (r.value <==> s == "true")
  {
    if s == "true" then Some(true) else if s == "false" then Some(false) else None
  }

  // ---- The CORS origins list: split on ',' and trim each piece ----

  /** `s.split(sep)`: the pieces between separators, empty ones included. */
  function Split(s: string, sep: char): (parts: seq<string>)
    ensures |parts| >= 1
  {
    if s == [] then [[]]
    else
      var rest := Split(s[1..], sep);
      if s[0] == sep then [[]] + rest else [[s[0]] + rest[0]] + rest[1..]
  }

  function Join(parts: seq<string>, sep: char): string
    requires |parts| >= 1
  {
    if |parts| == 1 then parts[0] else parts[0] + [sep] + Join(parts[1..], sep)
  }

  /** Splitting loses nothing: joining the pieces gives the text back. */
  lemma {:induction false} SplitJoin(s: string, sep: char)
    ensures Join(Split(s, sep), sep) == s
    decreases |s|
  {
    if s != [] {
      var rest := Split(s[1..], sep);
      SplitJoin(s[1..], sep);
      var parts := Split(s, sep);
      if s[0] == sep {
        assert parts[1..] == rest;
      } else if |rest| > 1 {
        assert parts[1..] == rest[1..];
        assert Join(rest, sep) == rest[0] + [sep] + Join(rest[1..], sep);
      }
      assert s == [s[0]] + s[1..];
    }
  }

  /** No piece holds the separator, and there is one piece more than there
      are separators. */
  lemma {:induction false} SplitPieces(s: string, sep: char)
    ensures forall i :: 0 <= i < |Split(s, sep)| ==> sep !in Split(s, sep)[i]
    ensures |Split(s, sep)| == multiset(s)[sep] + 1
    decreases |s|
  {
    if s != [] {
      var rest := Split(s[1..], sep);
      SplitPieces(s[1..], sep);
      assert s == [s[0]] + s[1..];
      assert multiset(s) == multiset{s[0]} + multiset(s[1..]);
      var parts := Split(s, sep);
      if s[0] == sep {
        assert parts[1..] == rest;
      } else {
        assert parts[1..] == rest[1..];
      }
    }
  }

  /** `char::is_whitespace`: the Unicode White_Space characters. */
  predicate IsWhitespace(c: char)
  {
    || '\t' <= c <= '\r' || c == ' ' || c == '\U{85}' || c == '\U{A0}' || c == '\U{1680}'
    || '\U{2000}' <= c <= '\U{200A}' || c == '\U{2028}' || c == '\U{2029}' || c == '\U{202F}'
    || c == '\U{205F}' || c == '\U{3000}'
  }

  function TrimStart(s: string): (r: string)
    ensures |r| <= |s|
  {
    if s != [] && IsWhitespace(s[0]) then TrimStart(s[1..]) else s
  }

  function TrimEnd(s: string): (r: string)
    ensures |r| <= |s|
  {
    if s != [] && IsWhitespace(s[|s| - 1]) then TrimEnd(s[..|s| - 1]) else s
  }

  /** `str::trim`. */
  function Trim(s: string): (r: string)
    ensures |r| <= |s|
  {
    TrimEnd(TrimStart(s))
  }

  lemma {:induction false} TrimStartSpec(s: string)
    ensures |TrimStart(s)| <= |s| && TrimStart(s) == s[|s| - |TrimStart(s)|..]
    ensures forall k :: 0 <= k < |s| - |TrimStart(s)| ==> IsWhitespace(s[k])
    ensures TrimStart(s) != [] ==> !IsWhitespace(TrimStart(s)[0])
    decreases |s|
  {
    if s != [] && IsWhitespace(s[0]) {
      TrimStartSpec(s[1..]);
    }
  }

  lemma {:induction false} TrimEndSpec(s: string)
    ensures |TrimEnd(s)| <= |s| && TrimEnd(s) == s[..|TrimEnd(s)|]
    ensures forall k :: |TrimEnd(s)| <= k < |s| ==> IsWhitespace(s[k])
    ensures TrimEnd(s) != [] ==> !IsWhitespace(TrimEnd(s)[|TrimEnd(s)| - 1])
    decreases |s|
  {
    if s != [] && IsWhitespace(s[|s| - 1]) {
      TrimEndSpec(s[..|s| - 1]);
    }
  }

  /** Trimming cuts a run of whitespace off each end and nothing else: the
      result is the slice of `s` between them, and starts and ends with
      something other than whitespace. */
  lemma TrimSpec(s: string)
    ensures var lead := |s| - |TrimStart(s)|;
            && lead + |Trim(s)| <= |s|
            && Trim(s) == s[lead..lead + |Trim(s)|]
            && (forall k :: 0 <= k < lead ==> IsWhitespace(s[k]))
            && (forall k :: lead + |Trim(s)| <= k < |s| ==> IsWhitespace(s[k]))
    ensures Trim(s) != [] ==> !IsWhitespace(Trim(s)[0]) && !IsWhitespace(Trim(s)[|Trim(s)| - 1])
  {
    var t := TrimStart(s);
    TrimStartSpec(s);
    TrimEndSpec(t);
    var lead := |s| - |t|;
    forall k | lead + |Trim(s)| <= k < |s| ensures IsWhitespace(s[k]) {
      assert s[k] == t[k - lead];
    }
  }

  /** The origins an override names: the pieces of the value between commas,
      each trimmed. */
  function SplitOrigins(value: string): seq<string>
  {
    var parts := Split(value, ',');
    seq(|parts|, i requires 0 <= i < |parts| => Trim(parts[i]))
  }

  /** An override yields one origin per comma-separated piece, none holding
      a comma or surrounding whitespace. */
  lemma OriginsSpec(value: string)
    ensures |SplitOrigins(value)| == multiset(value)[','] + 1
    ensures forall i :: 0 <= i < |SplitOrigins(value)| ==>
              var o := SplitOrigins(value)[i];
              ',' !in o && (o != [] ==> !IsWhitespace(o[0]) && !IsWhitespace(o[|o| - 1]))
  {
    SplitPieces(value, ',');
    var parts := Split(value, ',');
    forall i | 0 <= i < |parts|
      ensures var o := SplitOrigins(value)[i];
              ',' !in o && (o != [] ==> !IsWhitespace(o[0]) && !IsWhitespace(o[|o| - 1]))
    {
      TrimSpec(parts[i]);
      var o := Trim(parts[i]);
      var lead := |parts[i]| - |TrimStart(parts[i])|;
      assert o == parts[i][lead..lead + |o|];
    }
  }

  // ---- from_env ----

  const HostVar := "EMIT_HUB_HOST"
  const PortVar := "EMIT_HUB_PORT"
  const DbPathVar := "EMIT_HUB_DB_PATH"
  const MaxConnectionsVar := "EMIT_HUB_MAX_CONNECTIONS"
  const MessageSizeLimitVar := "EMIT_HUB_MESSAGE_SIZE_LIMIT"
  const LogLevelVar := "EMIT_HUB_LOG_LEVEL"
  const CorsOriginsVar := "EMIT_HUB_CORS_ORIGINS"
  const WsTimeoutVar := "EMIT_HUB_WS_TIMEOUT"
  const WsPingIntervalVar := "EMIT_HUB_WS_PING_INTERVAL"
  const PersistMessagesVar := "EMIT_HUB_PERSIST_MESSAGES"
  const RetentionDaysVar := "EMIT_HUB_MESSAGE_RETENTION_DAYS"
  const AutoBackupVar := "EMIT_HUB_AUTO_BACKUP"

  datatype ConfigError =
    | InvalidValue(variable: string, value: string)
    | Rejected(reason: string)

  ghost predicate NumberParses(env: map<string, string>, name: string, limit: int)
  {
    name in env ==> ParseUnsigned(env[name], limit).Some?
  }

  ghost predicate BoolParses(env: map<string, string>, name: string)
  {
    name in env ==> ParseBool(env[name]).Some?
  }

  ghost predicate ServerParses(env: map<string, string>)
  {
    && NumberParses(env, PortVar, U16_LIMIT)
    && NumberParses(env, MaxConnectionsVar, U64_LIMIT)
    && NumberParses(env, MessageSizeLimitVar, U64_LIMIT)
  }

  ghost predicate WebSocketParses(env: map<string, string>)
  {
    NumberParses(env, WsTimeoutVar, U64_LIMIT) && NumberParses(env, WsPingIntervalVar, U64_LIMIT)
  }

  ghost predicate PersistenceParses(env: map<string, string>)
  {
    && BoolParses(env, PersistMessagesVar)
    && NumberParses(env, RetentionDaysVar, U32_LIMIT)
    && BoolParses(env, AutoBackupVar)
  }

  /** Every numeric or boolean variable that is set holds a valid value. */
  ghost predicate Parses(env: map<string, string>)
  {
    ServerParses(env) && WebSocketParses(env) && PersistenceParses(env)
  }

  /** The value a variable selects: its own if set, `current` otherwise. */
  function TextOr(env: map<string, string>, name: string, current: string): string
  {
    if name in env then env[name] else current
  }

  function NumberOr(env: map<string, string>, name: string, limit: int, current: int): int
  {
    if name in env && ParseUnsigned(env[name], limit).Some? then ParseUnsigned(env[name], limit).value else current
  }

  function BoolOr(env: map<string, string>, name: string, current: bool): bool
  {
    if name in env && ParseBool(env[name]).Some? then ParseBool(env[name]).value else current
  }

  /** The server fields of `c` are what the environment selects over
      `base`; the sections are left to the predicates below. */
  ghost predicate ServerOverrides(env: map<string, string>, base: Config, c: Config)
  {
    && c.host == TextOr(env, HostVar, base.host)
    && c.port as int == NumberOr(env, PortVar, U16_LIMIT, base.port as int)
    && c.dbPath == TextOr(env, DbPathVar, base.dbPath)
    && c.maxConnectionsPerChannel as int ==
         NumberOr(env, MaxConnectionsVar, U64_LIMIT, base.maxConnectionsPerChannel as int)
    && c.messageSizeLimit as int == NumberOr(env, MessageSizeLimitVar, U64_LIMIT, base.messageSizeLimit as int)
    && c.logLevel == TextOr(env, LogLevelVar, base.logLevel)
  }

  /** An origins override replaces the whole list; nothing else changes. */
  ghost predicate CorsOverrides(env: map<string, string>, base: CorsConfig, c: CorsConfig)
  {
    c == base.(allowedOrigins := if CorsOriginsVar in env then SplitOrigins(env[CorsOriginsVar])
                                 else base.allowedOrigins)
  }

  ghost predicate WebSocketOverrides(env: map<string, string>, base: WebSocketConfig, c: WebSocketConfig)
  {
    && c.connectionTimeout as int == NumberOr(env, WsTimeoutVar, U64_LIMIT, base.connectionTimeout as int)
    && c.pingInterval as int == NumberOr(env, WsPingIntervalVar, U64_LIMIT, base.pingInterval as int)
    && c.maxContinuationSize == base.maxContinuationSize
    && c.pongTimeout == base.pongTimeout
  }

  ghost predicate PersistenceOverrides(env: map<string, string>, base: PersistenceConfig, c: PersistenceConfig)
  {
    && c.persistMessagesDefault == BoolOr(env, PersistMessagesVar, base.persistMessagesDefault)
    && c.messageRetentionDays as int == NumberOr(env, RetentionDaysVar, U32_LIMIT, base.messageRetentionDays as int)
    && c.autoBackup == BoolOr(env, AutoBackupVar, base.autoBackup)
    && c.maxMessagesPerChannel == base.maxMessagesPerChannel
    && c.backupIntervalHours == base.backupIntervalHours
  }

  /** `c` holds, field by field, what the environment selects: each set
      variable's value, the default wherever the variable is unset, and the
      default for every field no variable names. */
  ghost predicate Reflects(env: map<string, string>, c: Config)
  {
    && ServerOverrides(env, DefaultConfig, c)
    && CorsOverrides(env, DefaultCors, c.cors)
    && WebSocketOverrides(env, DefaultWebSocket, c.websocket)
    && PersistenceOverrides(env, DefaultPersistence, c.persistence)
  }

  /** One numeric override: `if let Ok(v) = env::var(name) { field = v.parse()? }`.
      The field keeps `current` when the variable is unset. */
  method ReadNumber(env: map<string, string>, name: string, limit: int, current: int) returns (r: Result<int, ConfigError>)
    ensures r.Ok? <==> NumberParses(env, name, limit)
    ensures r.Ok? ==> r.value == NumberOr(env, name, limit, current)
    ensures r.Ok? && name in env ==> 0 <= r.value < limit
    ensures r.Err? ==> name in env && r.error == InvalidValue(name, env[name])
  {
    r := Ok(current);
    if name in env {
      var parsed := ParseUnsigned(env[name], limit);
      if parsed.None? {
        return Err(InvalidValue(name, env[name]));
      }
      r := Ok(parsed.value);
    }
  }

  /** One boolean override, as ReadNumber. */
  method ReadBool(env: map<string, string>, name: string, current: bool) returns (r: Result<bool, ConfigError>)
    ensures r.Ok? <==> BoolParses(env, name)
    ensures r.Ok? ==> r.value == BoolOr(env, name, current)
    ensures r.Err? ==> name in env && r.error == InvalidValue(name, env[name])
  {
    r := Ok(current);
    if name in env {
      var parsed := ParseBool(env[name]);
      if parsed.None? {
        return Err(InvalidValue(name, env[name]));
      }
      r := Ok(parsed.value);
    }
  }

  /** The server block of `from_env`: host, port, database path, connection
      cap, message size limit and log level. */
  method ApplyServerVars(env: map<string, string>, config: Config) returns (r: Result<Config, ConfigError>)
    ensures r.Ok? <==> ServerParses(env)
    ensures r.Err? ==> r.error.InvalidValue?
    ensures r.Ok? ==> && ServerOverrides(env, config, r.value) && r.value.cors == config.cors
                      && r.value.websocket == config.websocket && r.value.persistence == config.persistence
  {
    var c := config;
    if HostVar in env {
      c := c.(host := env[HostVar]);
    }
    var port := ReadNumber(env, PortVar, U16_LIMIT, c.port as int);
    if port.Err? {
      return Err(port.error);
    }
    c := c.(port := port.value as U16);
    if DbPathVar in env {
      c := c.(dbPath := env[DbPathVar]);
    }
    var maxConnections := ReadNumber(env, MaxConnectionsVar, U64_LIMIT, c.maxConnectionsPerChannel as int);
    if maxConnections.Err? {
      return Err(maxConnections.error);
    }
    c := c.(maxConnectionsPerChannel := maxConnections.value as USize);
    var sizeLimit := ReadNumber(env, MessageSizeLimitVar, U64_LIMIT, c.messageSizeLimit as int);
    if sizeLimit.Err? {
      return Err(sizeLimit.error);
    }
    c := c.(messageSizeLimit := sizeLimit.value as USize);
    if LogLevelVar in env {
      c := c.(logLevel := env[LogLevelVar]);
    }
    r := Ok(c);
  }

  /** The CORS block of `from_env`: the origins override. */
  method ApplyCorsVars(env: map<string, string>, cors: CorsConfig) returns (c: CorsConfig)
    ensures CorsOverrides(env, cors, c)
    ensures CorsOriginsVar in env ==> c.allowedOrigins == SplitOrigins(env[CorsOriginsVar])
  {
    c := cors;
    if CorsOriginsVar in env {
      c := c.(allowedOrigins := SplitOrigins(env[CorsOriginsVar]));
    }
  }

  /** The WebSocket block of `from_env`: connection timeout and ping interval. */
  method ApplyWebSocketVars(env: map<string, string>, websocket: WebSocketConfig)
    returns (r: Result<WebSocketConfig, ConfigError>)
    ensures r.Ok? <==> WebSocketParses(env)
    ensures r.Err? ==> r.error.InvalidValue?
    ensures r.Ok? ==> WebSocketOverrides(env, websocket, r.value)
  {
    var c := websocket;
    var timeout := ReadNumber(env, WsTimeoutVar, U64_LIMIT, c.connectionTimeout as int);
    if timeout.Err? {
      return Err(timeout.error);
    }
    c := c.(connectionTimeout := timeout.value as U64);
    var pingInterval := ReadNumber(env, WsPingIntervalVar, U64_LIMIT, c.pingInterval as int);
    if pingInterval.Err? {
      return Err(pingInterval.error);
    }
    c := c.(pingInterval := pingInterval.value as U64);
    r := Ok(c);
  }

  /** The persistence block of `from_env`: default persistence, retention
      days and automatic backup. */
  method ApplyPersistenceVars(env: map<string, string>, persistence: PersistenceConfig)
    returns (r: Result<PersistenceConfig, ConfigError>)
    ensures r.Ok? <==> PersistenceParses(env)
    ensures r.Err? ==> r.error.InvalidValue?
    ensures r.Ok? ==> PersistenceOverrides(env, persistence, r.value)
  {
    var c := persistence;
    var persist := ReadBool(env, PersistMessagesVar, c.persistMessagesDefault);
    if persist.Err? {
      return Err(persist.error);
    }
    c := c.(persistMessagesDefault := persist.value);
    var retention := ReadNumber(env, RetentionDaysVar, U32_LIMIT, c.messageRetentionDays as int);
    if retention.Err? {
      return Err(retention.error);
    }
    c := c.(messageRetentionDays := retention.value as U32);
    var autoBackup := ReadBool(env, AutoBackupVar, c.autoBackup);
    if autoBackup.Err? {
      return Err(autoBackup.error);
    }
    c := c.(autoBackup := autoBackup.value);
    r := Ok(c);
  }

  /** `Config::from_env`: starts from the defaults and overrides one field
      per set variable, block by block; a value that does not parse fails at
      once, and the result is returned only if it passes validation. */
  method FromEnv(env: map<string, string>) returns (r: Result<Config, ConfigError>)
    ensures !Parses(env) ==> r.Err? && r.error.InvalidValue?
    ensures r.Ok? ==> Parses(env) && Reflects(env, r.value) && Validate(r.value).Pass?
    ensures Parses(env) ==> exists c :: Reflects(env, c) && (r.Ok? <==> Validate(c).Pass?)
  {
    var config := DefaultConfig;
    var server := ApplyServerVars(env, config);
    if server.Err? {
      return Err(server.error);
    }
    config := server.value;
    var cors := ApplyCorsVars(env, config.cors);
    config := config.(cors := cors);
    var websocket := ApplyWebSocketVars(env, config.websocket);
    if websocket.Err? {
      return Err(websocket.error);
    }
    config := config.(websocket := websocket.value);
    var persistence := ApplyPersistenceVars(env, config.persistence);
    if persistence.Err? {
      return Err(persistence.error);
    }
    config := config.(persistence := persistence.value);
    assert Reflects(env, config);
    var checked := Validate(config);
    if checked.Fail? {
      return Err(Rejected(checked.error));
    }
    r := Ok(config);
  }
}
