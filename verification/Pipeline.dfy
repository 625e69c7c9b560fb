/** The processing every loaded configuration goes through in internal/config/config.go: resolve
    secrets, set defaults, normalize, validate. */
module Pipeline {
  import opened Wrappers
  import opened ConfigModel
  import opened Filters
  import opened Secrets
  import opened Text

  const DEFAULT_READ_HEADER_TIMEOUT := 30 * SECOND
  const DEFAULT_WRITE_TIMEOUT := 30 * SECOND
  const DEFAULT_IDLE_TIMEOUT := 120 * SECOND
  const DEFAULT_SHUTDOWN_TIMEOUT := 30 * SECOND
  const DEFAULT_STARTUP_TIMEOUT := 30 * SECOND
  const DEFAULT_WHOIS_TIMEOUT := 5 * SECOND
  const DEFAULT_DIAL_TIMEOUT := 30 * SECOND
  const DEFAULT_KEEP_ALIVE_TIMEOUT := 30 * SECOND
  const DEFAULT_IDLE_CONN_TIMEOUT := 90 * SECOND
  const DEFAULT_TLS_HANDSHAKE_TIMEOUT := 10 * SECOND
  const DEFAULT_EXPECT_CONTINUE_TIMEOUT := 1 * SECOND
  const DEFAULT_METRICS_READ_HEADER_TIMEOUT := 5 * SECOND
  const DEFAULT_ACCESS_LOG_ENABLED := true
  const DEFAULT_WHOIS_ENABLED := false
  const DEFAULT_MAX_REQUEST_BODY_SIZE := 50 * 1024 * 1024
  const IMMEDIATE_FLUSH_INTERVAL := -1_000_000

  /** The value of a pointer that is set, else `d`. */
  function Or<T>(x: Option<T>, d: Option<T>): Option<T> {
    if x.Some? then x else d
  }

  function DefaultedGlobal(g: Global): Global {
    g.(readHeaderTimeout := Or(g.readHeaderTimeout, Some(DEFAULT_READ_HEADER_TIMEOUT)),
       writeTimeout := Or(g.writeTimeout, Some(DEFAULT_WRITE_TIMEOUT)),
       idleTimeout := Or(g.idleTimeout, Some(DEFAULT_IDLE_TIMEOUT)),
       shutdownTimeout := Or(g.shutdownTimeout, Some(DEFAULT_SHUTDOWN_TIMEOUT)),
       startupTimeout := Or(g.startupTimeout, Some(DEFAULT_STARTUP_TIMEOUT)),
       accessLog := Or(g.accessLog, Some(DEFAULT_ACCESS_LOG_ENABLED)),
       maxRequestBodySize := Or(g.maxRequestBodySize, Some(DEFAULT_MAX_REQUEST_BODY_SIZE)),
       dialTimeout := Or(g.dialTimeout, Some(DEFAULT_DIAL_TIMEOUT)),
       keepAliveTimeout := Or(g.keepAliveTimeout, Some(DEFAULT_KEEP_ALIVE_TIMEOUT)),
       idleConnTimeout := Or(g.idleConnTimeout, Some(DEFAULT_IDLE_CONN_TIMEOUT)),
       tlsHandshakeTimeout := Or(g.tlsHandshakeTimeout, Some(DEFAULT_TLS_HANDSHAKE_TIMEOUT)),
       expectContinueTimeout := Or(g.expectContinueTimeout, Some(DEFAULT_EXPECT_CONTINUE_TIMEOUT)),
       metricsReadHeaderTimeout := Or(g.metricsReadHeaderTimeout, Some(DEFAULT_METRICS_READ_HEADER_TIMEOUT)))
  }

  function DefaultedTailscale(t: Tailscale): Tailscale {
    t.(oauthPreauthorized := Or(t.oauthPreauthorized, Some(true)))
  }

  function DefaultedService(s: Service): Service {
    s.(whoisEnabled := Or(s.whoisEnabled, Some(DEFAULT_WHOIS_ENABLED)),
       whoisTimeout := Or(s.whoisTimeout, Some(DEFAULT_WHOIS_TIMEOUT)),
       tlsMode := if s.tlsMode == "" then TLS_MODE_AUTO else s.tlsMode)
  }

  function NormalizedService(s: Service, g: Global, t: Tailscale): Service {
    s.(startupTimeout := Or(s.startupTimeout, g.startupTimeout),
       readHeaderTimeout := Or(s.readHeaderTimeout, g.readHeaderTimeout),
       writeTimeout := Or(s.writeTimeout, g.writeTimeout),
       idleTimeout := Or(s.idleTimeout, g.idleTimeout),
       responseHeaderTimeout := Or(s.responseHeaderTimeout, g.responseHeaderTimeout),
       accessLog := Or(s.accessLog, g.accessLog),
       flushInterval := Or(s.flushInterval, g.flushInterval),
       maxRequestBodySize := Or(s.maxRequestBodySize, g.maxRequestBodySize),
       tags := Or(s.tags, t.defaultTags))
  }

  function DefaultedServices(ss: seq<Service>): (r: seq<Service>)
    ensures |r| == |ss| && forall i | 0 <= i < |ss| :: r[i] == DefaultedService(ss[i])
  {
    seq(|ss|, i requires 0 <= i < |ss| => DefaultedService(ss[i]))
  }

  function NormalizedServices(ss: seq<Service>, g: Global, t: Tailscale): (r: seq<Service>)
    ensures |r| == |ss| && forall i | 0 <= i < |ss| :: r[i] == NormalizedService(ss[i], g, t)
  {
    seq(|ss|, i requires 0 <= i < |ss| => NormalizedService(ss[i], g, t))
  }

  /** A configuration with its defaults set and its global values copied down. */
  function Completed(c: Config): Config {
    var g, t := DefaultedGlobal(c.global), DefaultedTailscale(c.tailscale);
    Config(t, g, NormalizedServices(DefaultedServices(c.services), g, t))
  }

  /** The parsers of Go's net and url packages that validation asks. */
  datatype Net = Net(
    urlOk: string -> bool,      // an http or https URL with a host and, if any, a valid port
    addrOk: string -> bool,     // host:port with a valid port and host
    metricsOk: string -> bool,  // a resolvable TCP address
    cidrOk: string -> bool,
    ipOk: string -> bool)

  predicate FlushIntervalOk(d: Option<Duration>) {
    d.Some? ==> d.value >= 0 || d.value == IMMEDIATE_FLUSH_INTERVAL
  }

  predicate PositiveOk(d: Option<Duration>) {
    d.Some? ==> d.value > 0
  }

  predicate BackendOk(addr: string, net: Net) {
    if addr == "" then false
    else if "unix:" <= addr then
      "unix://" <= addr &&
      var path := addr[7..];
      ':' !in path && !ContainsPair(path, '.', '.') && "/" <= path
    else if "http://" <= addr || "https://" <= addr then net.urlOk(addr)
    else net.addrOk(addr)
  }

  /** validateGlobal. */
  predicate GlobalOk(g: Global, net: Net) {
    && NonNegative(g.readHeaderTimeout) && NonNegative(g.writeTimeout) && NonNegative(g.idleTimeout)
    && PositiveOk(g.shutdownTimeout) && PositiveOk(g.startupTimeout)
    && NonNegative(g.responseHeaderTimeout)
    && NonNegative(g.dialTimeout) && NonNegative(g.keepAliveTimeout) && NonNegative(g.idleConnTimeout)
    && NonNegative(g.tlsHandshakeTimeout) && NonNegative(g.expectContinueTimeout)
    && NonNegative(g.metricsReadHeaderTimeout)
    && FlushIntervalOk(g.flushInterval)
    && (g.metricsAddr != "" ==> net.metricsOk(g.metricsAddr))
    && (forall i | 0 <= i < |g.trustedProxies| ::
          if '/' in g.trustedProxies[i] then net.cidrOk(g.trustedProxies[i]) else net.ipOk(g.trustedProxies[i]))
  }

  /** validateService. */
  predicate ServiceOk(s: Service, t: Tailscale, net: Net) {
    && BackendOk(s.backendAddr, net)
    && (IsTrue(s.insecureSkipVerify) ==> "https://" <= ToLower(s.backendAddr))
    && (s.whoisEnabled.None? || s.whoisEnabled.value ==> NonNegative(s.whoisTimeout))
    && (s.tlsMode == "" || s.tlsMode == TLS_MODE_AUTO || s.tlsMode == TLS_MODE_OFF)
    && PositiveOk(s.startupTimeout)
    && NonNegative(s.readHeaderTimeout) && NonNegative(s.writeTimeout) && NonNegative(s.idleTimeout)
    && NonNegative(s.responseHeaderTimeout)
    && FlushIntervalOk(s.flushInterval)
    && (s.listenAddr != "" ==> net.addrOk(s.listenAddr))
    && (t.oauthClientID != "" || t.oauthClientSecret != "" ==> s.tags.Some? && |s.tags.value| > 0)
  }

  predicate OAuthOk(t: Tailscale) {
    && !(t.authKey != "" && (t.oauthClientID != "" || t.oauthClientSecret != ""))
    && (t.authKey != "" || (t.oauthClientID != "" <==> t.oauthClientSecret != ""))
  }

  ghost predicate Validated(c: Config, docker: bool, net: Net) {
    && OAuthOk(c.tailscale)
    && GlobalOk(c.global, net)
    && (c.services == [] ==> docker)
    && NonEmptyNames(c.services) && UniqueNames(c.services)
    && forall i | 0 <= i < |c.services| :: ServiceOk(c.services[i], c.tailscale, net)
  }

  datatype LoadError = SecretFailed(cause: SecretError) | Invalid

  datatype Processing = Processing(result: Result<Config, LoadError>, env: Vars)

  ghost function Processed(c: Config, env: Vars, files: Files, docker: bool, net: Net): Processing {
    var r := ResolveTailscale(c.tailscale, env, files);
    if r.result.Failure? then Processing(Failure(SecretFailed(r.result.error)), r.env)
    else
      var c' := Completed(c.(tailscale := r.result.value));
      Processing(if Validated(c', docker, net) then Success(c') else Failure(Invalid), r.env)
  }

  /** A configuration on its way through the pipeline, changed in place. */
  class Draft {
    var tailscale: Tailscale
    var global: Global
    var services: seq<Service>

    function View(): Config
      reads this
    {
      Config(tailscale, global, services)
    }

    constructor (c: Config)
      ensures View() == c
    {
      tailscale, global, services := c.tailscale, c.global, c.services;
    }

    /** One secret: explicitly configured sources first, else the default variable if it is set. */
    static method ResolveField(value: string, envVar: string, filePath: string, defaultVar: string,
                               env: Environment, files: Files)
      returns (r: Result<string, SecretError>)
      ensures r == ResolveOne(value, envVar, filePath, defaultVar, env.vars, files)
    {
      if envVar != "" || filePath != "" || value != "" {
        return ResolveSecretWithFallback(value, envVar, filePath, defaultVar, env.vars, files);
      }
      if env.Get(defaultVar) != "" {
        return Success(env.Get(defaultVar));
      }
      return Success(value);
    }

    /** resolveSecrets; on an error the draft is not used any further. */
    method ResolveSecrets(env: Environment, files: Files) returns (err: Option<SecretError>)
      modifies this`tailscale, env
      ensures
        var r := ResolveTailscale(old(tailscale), old(env.vars), files);
        && env.vars == r.env
        && (if r.result.Success? then err.None? && tailscale == r.result.value else err == Some(r.result.error))
    {
      var t := tailscale;
      var id := ResolveField(t.oauthClientID, t.oauthClientIDEnv, t.oauthClientIDFile, OAUTH_CLIENT_ID, env, files);
      if id.Failure? {
        return Some(id.error);
      }
      var secret := ResolveField(t.oauthClientSecret, t.oauthClientSecretEnv, t.oauthClientSecretFile,
                                 OAUTH_CLIENT_SECRET, env, files);
      if secret.Failure? {
        return Some(secret.error);
      }
      var key := ResolveField(t.authKey, t.authKeyEnv, t.authKeyFile, AUTHKEY, env, files);
      if key.Failure? {
        return Some(key.error);
      }
      tailscale := t.(oauthClientID := id.value, oauthClientIDEnv := "", oauthClientIDFile := "",
                      oauthClientSecret := secret.value, oauthClientSecretEnv := "", oauthClientSecretFile := "",
                      authKey := key.value, authKeyEnv := "", authKeyFile := "");

      env.Unsetenv(AUTHKEY);
      env.Unsetenv(AUTH_KEY);
      assert env.vars == Scrubbed(old(env.vars));

      if tailscale.stateDir == "" && tailscale.stateDirEnv != "" {
        var resolved := env.Get(tailscale.stateDirEnv);
        if resolved == "" {
          return Some(Unset);
        }
        tailscale := tailscale.(stateDir := resolved, stateDirEnv := "");
      }
      return None;
    }

    /** A pointer that is nil is pointed at a copy of the inherited value. */
    static method Inherit<T>(x: Option<T>, d: Option<T>) returns (r: Option<T>)
      ensures r == Or(x, d)
    {
      r := x;
      if x.None? && d.Some? {
        r := Some(d.value);
      }
    }

    method SetDefaults()
      modifies this
      ensures tailscale == DefaultedTailscale(old(tailscale))
      ensures global == DefaultedGlobal(old(global))
      ensures services == DefaultedServices(old(services))
    {
      SetGlobalDefaults();
      if tailscale.oauthPreauthorized.None? {
        tailscale := tailscale.(oauthPreauthorized := Some(true));
      }
      for i := 0 to |services|
        invariant |services| == |old(services)|
        invariant tailscale == DefaultedTailscale(old(tailscale)) && global == DefaultedGlobal(old(global))
        invariant forall j | 0 <= j < i :: services[j] == DefaultedService(old(services)[j])
        invariant forall j | i <= j < |services| :: services[j] == old(services)[j]
      {
        var svc := services[i];
        if svc.whoisEnabled.None? {
          svc := svc.(whoisEnabled := Some(DEFAULT_WHOIS_ENABLED));
        }
        if svc.whoisTimeout.None? {
          svc := svc.(whoisTimeout := Some(DEFAULT_WHOIS_TIMEOUT));
        }
        if svc.tlsMode == "" {
          svc := svc.(tlsMode := TLS_MODE_AUTO);
        }
        services := services[i := svc];
      }
    }

    method SetGlobalDefaults()
      modifies this`global
      ensures global == DefaultedGlobal(old(global))
    {
      var g := global;
      var readHeader := Inherit(g.readHeaderTimeout, Some(DEFAULT_READ_HEADER_TIMEOUT));
      var write := Inherit(g.writeTimeout, Some(DEFAULT_WRITE_TIMEOUT));
      var idle := Inherit(g.idleTimeout, Some(DEFAULT_IDLE_TIMEOUT));
      var shutdown := Inherit(g.shutdownTimeout, Some(DEFAULT_SHUTDOWN_TIMEOUT));
      var startup := Inherit(g.startupTimeout, Some(DEFAULT_STARTUP_TIMEOUT));
      var accessLog := Inherit(g.accessLog, Some(DEFAULT_ACCESS_LOG_ENABLED));
      var bodySize := Inherit(g.maxRequestBodySize, Some(DEFAULT_MAX_REQUEST_BODY_SIZE));
      var dial := Inherit(g.dialTimeout, Some(DEFAULT_DIAL_TIMEOUT));
      var keepAlive := Inherit(g.keepAliveTimeout, Some(DEFAULT_KEEP_ALIVE_TIMEOUT));
      var idleConn := Inherit(g.idleConnTimeout, Some(DEFAULT_IDLE_CONN_TIMEOUT));
      var handshake := Inherit(g.tlsHandshakeTimeout, Some(DEFAULT_TLS_HANDSHAKE_TIMEOUT));
      var expectContinue := Inherit(g.expectContinueTimeout, Some(DEFAULT_EXPECT_CONTINUE_TIMEOUT));
      var metrics := Inherit(g.metricsReadHeaderTimeout, Some(DEFAULT_METRICS_READ_HEADER_TIMEOUT));
      global := g.(readHeaderTimeout := readHeader, writeTimeout := write, idleTimeout := idle,
                   shutdownTimeout := shutdown, startupTimeout := startup, accessLog := accessLog,
                   maxRequestBodySize := bodySize, dialTimeout := dial, keepAliveTimeout := keepAlive,
                   idleConnTimeout := idleConn, tlsHandshakeTimeout := handshake,
                   expectContinueTimeout := expectContinue, metricsReadHeaderTimeout := metrics);
    }

    method NormalizeService(s: Service) returns (r: Service)
      ensures r == NormalizedService(s, global, tailscale)
    {
      var startup := Inherit(s.startupTimeout, global.startupTimeout);
      var readHeader := Inherit(s.readHeaderTimeout, global.readHeaderTimeout);
      var write := Inherit(s.writeTimeout, global.writeTimeout);
      var idle := Inherit(s.idleTimeout, global.idleTimeout);
      var responseHeader := Inherit(s.responseHeaderTimeout, global.responseHeaderTimeout);
      var accessLog := Inherit(s.accessLog, global.accessLog);
      var flush := Inherit(s.flushInterval, global.flushInterval);
      var bodySize := Inherit(s.maxRequestBodySize, global.maxRequestBodySize);
      var tags := Inherit(s.tags, tailscale.defaultTags);
      r := s.(startupTimeout := startup, readHeaderTimeout := readHeader, writeTimeout := write, idleTimeout := idle,
              responseHeaderTimeout := responseHeader, accessLog := accessLog, flushInterval := flush,
              maxRequestBodySize := bodySize, tags := tags);
    }

    method Normalize()
      modifies this`services
      ensures services == NormalizedServices(old(services), global, tailscale)
    {
      for i := 0 to |services|
        invariant |services| == |old(services)|
        invariant forall j | 0 <= j < i :: services[j] == NormalizedService(old(services)[j], global, tailscale)
        invariant forall j | i <= j < |services| :: services[j] == old(services)[j]
      {
        var svc := NormalizeService(services[i]);
        services := services[i := svc];
      }
    }

    method ValidateOAuth() returns (ok: bool)
      ensures ok <==> OAuthOk(tailscale)
    {
      if tailscale.authKey != "" && (tailscale.oauthClientID != "" || tailscale.oauthClientSecret != "") {
        return false;
      }
      if tailscale.authKey != "" {
        return true;
      }
      return (tailscale.oauthClientID != "") == (tailscale.oauthClientSecret != "");
    }

    /** The service loop of Validate; it stops at the first unnamed, repeated or invalid service. */
    method ValidateServices(net: Net) returns (ok: bool)
      ensures ok <==>
        && NonEmptyNames(services) && UniqueNames(services)
        && forall i | 0 <= i < |services| :: ServiceOk(services[i], tailscale, net)
    {
      var seen: map<string, bool> := map[];
      for i := 0 to |services|
        invariant forall n :: n in seen <==> n in Names(services[..i])
        invariant NonEmptyNames(services[..i]) && UniqueNames(services[..i])
        invariant forall j | 0 <= j < i :: ServiceOk(services[j], tailscale, net)
      {
        var svc := services[i];
        assert Names(services[..i + 1]) == Names(services[..i]) + [svc.name];
        if svc.name == "" {
          return false;
        }
        if svc.name in seen {
          var j :| 0 <= j < i && Names(services[..i])[j] == svc.name;
          assert services[j].name == services[i].name;
          return false;
        }
        seen := seen[svc.name := true];
        if !ServiceOk(svc, tailscale, net) {
          return false;
        }
      }
      assert services[..|services|] == services;
      return true;
    }

    method Validate(docker: bool, net: Net) returns (ok: bool)
      ensures ok <==> Validated(View(), docker, net)
    {
      var consistent := ValidateOAuth();
      if !consistent {
        return false;
      }
      if !GlobalOk(global, net) {
        return false;
      }
      if |services| == 0 && !docker {
        return false;
      }
      ok := ValidateServices(net);
    }

    /** ProcessLoadedConfigWithProvider. */
    method Process(env: Environment, files: Files, docker: bool, net: Net) returns (err: Option<LoadError>)
      modifies this, env
      ensures
        var p := Processed(old(View()), old(env.vars), files, docker, net);
        && env.vars == p.env
        && (if p.result.Success? then err.None? && View() == p.result.value else err == Some(p.result.error))
    {
      var secretErr := ResolveSecrets(env, files);
      if secretErr.Some? {
        return Some(SecretFailed(secretErr.value));
      }
      SetDefaults();
      Normalize();
      var ok := Validate(docker, net);
      if !ok {
        return Some(Invalid);
      }
      return None;
    }
  }

  /** Completing twice is completing once. */
  lemma CompletedTwice(c: Config)
    ensures Completed(Completed(c)) == Completed(c)
  {
    var c1 := Completed(c);
    var c2 := Completed(c1);
    forall i | 0 <= i < |c.services| ensures c2.services[i] == c1.services[i] {
      CompletedServiceTwice(c.services[i], c1.global, c1.tailscale);
    }
    assert c2.services == c1.services;
  }

  lemma CompletedServiceTwice(s: Service, g: Global, t: Tailscale)
    ensures var s1 := NormalizedService(DefaultedService(s), g, t);
      NormalizedService(DefaultedService(s1), g, t) == s1
  {
  }

  lemma CompletedKeepsSettled(t: Tailscale, env: Vars)
    requires Settled(t, env)
    ensures Settled(DefaultedTailscale(t), env)
  {
    var t' := DefaultedTailscale(t);
    forall files ensures ResolveTailscale(t', env, files) == Resolution(Success(t'), env) {
      assert ResolveTailscale(t, env, files) == Resolution(Success(t), env);
    }
  }

  /** What a successful run of the pipeline leaves behind. */
  lemma ProcessedSettles(c: Config, env: Vars, files: Files, docker: bool, net: Net)
    requires Processed(c, env, files, docker, net).result.Success?
    ensures
      var p := Processed(c, env, files, docker, net);
      Settled(p.result.value.tailscale, p.env) && p.result.value.tailscale.oauthPreauthorized.Some?
  {
    ResolvedIsSettled(c.tailscale, env, files);
    var r := ResolveTailscale(c.tailscale, env, files);
    CompletedKeepsSettled(r.result.value, r.env);
  }

  /** The pipeline takes settings and environment from the resolution of the secrets. */
  lemma ProcessedResolves(c: Config, env: Vars, files: Files, docker: bool, net: Net)
    ensures
      var p, r := Processed(c, env, files, docker, net), ResolveTailscale(c.tailscale, env, files);
      && p.env == r.env
      && (r.result.Failure? ==> p.result == Failure(SecretFailed(r.result.error)))
      && (r.result.Success? ==>
            var done := Completed(c.(tailscale := r.result.value));
            p.result == if Validated(done, docker, net) then Success(done) else Failure(Invalid))
  {
  }

  /** Idempotence: the whole pipeline, applied to its own successful output in the environment it
      left behind and with any files, succeeds and changes nothing. */
  lemma PipelineIdempotent(c: Config, env: Vars, files: Files, files': Files, docker: bool, net: Net)
    requires Processed(c, env, files, docker, net).result.Success?
    ensures
      var p := Processed(c, env, files, docker, net);
      Processed(p.result.value, p.env, files', docker, net) == p
  {
    var p := Processed(c, env, files, docker, net);
    ProcessedSettles(c, env, files, docker, net);
    var t := p.result.value.tailscale;
    assert ResolveTailscale(t, p.env, files') == Resolution(Success(t), p.env);
    assert p.result.value.(tailscale := t) == p.result.value;
    CompletedTwice(c.(tailscale := ResolveTailscale(c.tailscale, env, files).result.value));
  }

  // ---------------------------------------------------------------- where settings come from

  /** `x` is the own value if there is one, else the inherited one, else the default. */
  predicate Inherits<T(==)>(x: Option<T>, own: Option<T>, inherited: Option<T>, default: Option<T>) {
    x == match own
      case Some(_) => own
      case None => match inherited
        case Some(_) => inherited
        case None => default
  }

  /** Where every global setting comes from: the settings as given, else the built-in default. */
  ghost predicate GlobalFrom(out: Global, g: Global) {
    && Inherits(out.readHeaderTimeout, g.readHeaderTimeout, None, Some(30_000_000_000))
    && Inherits(out.writeTimeout, g.writeTimeout, None, Some(30_000_000_000))
    && Inherits(out.idleTimeout, g.idleTimeout, None, Some(120_000_000_000))
    && Inherits(out.shutdownTimeout, g.shutdownTimeout, None, Some(30_000_000_000))
    && Inherits(out.startupTimeout, g.startupTimeout, None, Some(30_000_000_000))
    && Inherits(out.dialTimeout, g.dialTimeout, None, Some(30_000_000_000))
    && Inherits(out.keepAliveTimeout, g.keepAliveTimeout, None, Some(30_000_000_000))
    && Inherits(out.idleConnTimeout, g.idleConnTimeout, None, Some(90_000_000_000))
    && Inherits(out.tlsHandshakeTimeout, g.tlsHandshakeTimeout, None, Some(10_000_000_000))
    && Inherits(out.expectContinueTimeout, g.expectContinueTimeout, None, Some(1_000_000_000))
    && Inherits(out.metricsReadHeaderTimeout, g.metricsReadHeaderTimeout, None, Some(5_000_000_000))
    && Inherits(out.accessLog, g.accessLog, None, Some(true))
    && Inherits(out.maxRequestBodySize, g.maxRequestBodySize, None, Some(52_428_800))
    && out.responseHeaderTimeout == g.responseHeaderTimeout && out.flushInterval == g.flushInterval
    && out.trustedProxies == g.trustedProxies && out.metricsAddr == g.metricsAddr
  }

  /** Where every setting of a service comes from: the service itself, else the global settings, else the
      built-in default; all other fields come out as they went in. */
  ghost predicate ServiceFrom(out: Service, s: Service, g: Global, defaultTags: Option<seq<string>>) {
    && Inherits(out.startupTimeout, s.startupTimeout, g.startupTimeout, Some(30_000_000_000))
    && Inherits(out.readHeaderTimeout, s.readHeaderTimeout, g.readHeaderTimeout, Some(30_000_000_000))
    && Inherits(out.writeTimeout, s.writeTimeout, g.writeTimeout, Some(30_000_000_000))
    && Inherits(out.idleTimeout, s.idleTimeout, g.idleTimeout, Some(120_000_000_000))
    && Inherits(out.responseHeaderTimeout, s.responseHeaderTimeout, g.responseHeaderTimeout, None)
    && Inherits(out.accessLog, s.accessLog, g.accessLog, Some(true))
    && Inherits(out.flushInterval, s.flushInterval, g.flushInterval, None)
    && Inherits(out.maxRequestBodySize, s.maxRequestBodySize, g.maxRequestBodySize, Some(52_428_800))
    && Inherits(out.tags, s.tags, defaultTags, None)
    && Inherits(out.whoisEnabled, s.whoisEnabled, None, Some(false))
    && Inherits(out.whoisTimeout, s.whoisTimeout, None, Some(5_000_000_000))
    && out.tlsMode == (if s.tlsMode != "" then s.tlsMode else "auto")
    && out.name == s.name && out.backendAddr == s.backendAddr && out.listenAddr == s.listenAddr
    && out.funnelEnabled == s.funnelEnabled && out.ephemeral == s.ephemeral
    && out.oauthPreauthorized == s.oauthPreauthorized && out.insecureSkipVerify == s.insecureSkipVerify
    && out.upstreamHeaders == s.upstreamHeaders && out.downstreamHeaders == s.downstreamHeaders
    && out.removeUpstream == s.removeUpstream && out.removeDownstream == s.removeDownstream
  }

  lemma DefaultedGlobalFrom(g: Global)
    ensures GlobalFrom(DefaultedGlobal(g), g)
  {
  }

  lemma NormalizedServiceFrom(s: Service, g: Global, t: Tailscale)
    ensures ServiceFrom(NormalizedService(DefaultedService(s), DefaultedGlobal(g), t), s, g, t.defaultTags)
  {
  }

  /** Every global setting, every Tailscale setting and every setting of every service, in its place. */
  ghost predicate ConfigFrom(out: Config, c: Config, env: Vars, files: Files) {
    && GlobalFrom(out.global, c.global)
    && FromSources(out.tailscale, c.tailscale, env, files)
    && Inherits(out.tailscale.oauthPreauthorized, c.tailscale.oauthPreauthorized, None, Some(true))
    && |out.services| == |c.services|
    && forall i | 0 <= i < |c.services| ::
         ServiceFrom(out.services[i], c.services[i], c.global, c.tailscale.defaultTags)
  }

  lemma CompletedFrom(c: Config, c0: Config, env: Vars, files: Files)
    requires c.global == c0.global && c.services == c0.services
    requires FromSources(c.tailscale, c0.tailscale, env, files)
    requires c.tailscale.oauthPreauthorized == c0.tailscale.oauthPreauthorized
    ensures ConfigFrom(Completed(c), c0, env, files)
  {
    DefaultedGlobalFrom(c.global);
    var t := DefaultedTailscale(c.tailscale);
    forall i | 0 <= i < |c.services|
      ensures ServiceFrom(Completed(c).services[i], c0.services[i], c0.global, c0.tailscale.defaultTags)
    {
      NormalizedServiceFrom(c.services[i], c.global, t);
    }
  }

  /** Where every setting of a processed configuration comes from. */
  lemma PipelinePrecedence(c: Config, env: Vars, files: Files, docker: bool, net: Net)
    ensures var r := Processed(c, env, files, docker, net).result;
      r.Success? ==> ConfigFrom(r.value, c, env, files)
  {
    ProcessedResolves(c, env, files, docker, net);
    ResolvedFromSources(c.tailscale, env, files);
    var r := ResolveTailscale(c.tailscale, env, files).result;
    if r.Success? { CompletedFrom(c.(tailscale := r.value), c, env, files); }
  }

  // ---------------------------------------------------------------- what validation refuses

  predicate Negative(d: Option<Duration>) {
    d.Some? && d.value < 0
  }

  /** A socket address has a colon or the second of two dots at this place of its path. */
  predicate BadSocketAt(addr: string, i: int) {
    7 <= i < |addr| && (addr[i] == ':' || (i > 7 && addr[i - 1] == '.' && addr[i] == '.'))
  }

  lemma BadSocketShows(addr: string, i: int)
    requires "unix://" <= addr && BadSocketAt(addr, i)
    ensures ':' in addr[7..] || ContainsPair(addr[7..], '.', '.')
  {
    var path := addr[7..];
    assert path[i - 7] == addr[i];
    if addr[i] != ':' {
      assert path[i - 8] == '.' && path[i - 8 + 1] == '.';
    }
  }

  lemma BadSocketFound(addr: string)
    requires "unix://" <= addr && (':' in addr[7..] || ContainsPair(addr[7..], '.', '.'))
    ensures exists i :: BadSocketAt(addr, i)
  {
    var path := addr[7..];
    if ':' in path {
      var j :| 0 <= j < |path| && path[j] == ':';
      assert BadSocketAt(addr, j + 7);
    } else {
      var j :| 0 <= j < |path| - 1 && path[j] == '.' && path[j + 1] == '.';
      assert BadSocketAt(addr, j + 1 + 7);
    }
  }

  lemma SchemesDiffer(addr: string)
    ensures "unix://" <= addr ==> "unix:" <= addr
    ensures "unix:///" <= addr <==> "unix://" <= addr && "/" <= addr[7..]
    ensures "unix:" <= addr ==> !("http://" <= addr) && !("https://" <= addr)
  {
    if "unix://" <= addr {
      assert addr == "unix://" + addr[7..];
      assert addr[..5] == "unix:";
    }
    if "unix:///" <= addr { assert addr[..7] == "unix://"; }
    if "unix:" <= addr { assert addr[0] == 'u'; }
  }

  /** A backend address is refused exactly when it is empty, names a socket that is not absolute or has a
      colon or two dots in a row in its path, or is not an address its parser accepts. */
  lemma BackendRefusals(addr: string, net: Net)
    ensures !BackendOk(addr, net) <==>
      || addr == ""
      || ("unix:" <= addr && !("unix:///" <= addr))
      || ("unix://" <= addr && exists i :: BadSocketAt(addr, i))
      || (("http://" <= addr || "https://" <= addr) && !net.urlOk(addr))
      || (!("unix:" <= addr) && !("http://" <= addr) && !("https://" <= addr) && !net.addrOk(addr))
  {
    SchemesDiffer(addr);
    if "unix://" <= addr {
      forall i | BadSocketAt(addr, i) ensures ':' in addr[7..] || ContainsPair(addr[7..], '.', '.') {
        BadSocketShows(addr, i);
      }
      if ':' in addr[7..] || ContainsPair(addr[7..], '.', '.') { BadSocketFound(addr); }
    }
  }

  /** Global settings are refused exactly for a negative timeout, a start-up or shutdown timeout that is
      not positive, a negative flush interval other than -1ms, or an address that does not parse. */
  lemma GlobalRefusals(g: Global, net: Net)
    ensures !GlobalOk(g, net) <==>
      || Negative(g.readHeaderTimeout) || Negative(g.writeTimeout) || Negative(g.idleTimeout)
      || Negative(g.responseHeaderTimeout) || Negative(g.dialTimeout) || Negative(g.keepAliveTimeout)
      || Negative(g.idleConnTimeout) || Negative(g.tlsHandshakeTimeout) || Negative(g.expectContinueTimeout)
      || Negative(g.metricsReadHeaderTimeout)
      || Negative(g.shutdownTimeout) || g.shutdownTimeout == Some(0)
      || Negative(g.startupTimeout) || g.startupTimeout == Some(0)
      || (Negative(g.flushInterval) && g.flushInterval != Some(-1_000_000))
      || (g.metricsAddr != "" && !net.metricsOk(g.metricsAddr))
      || (exists p | p in g.trustedProxies :: if '/' in p then !net.cidrOk(p) else !net.ipOk(p))
  {
  }

  /** "https://" in upper or lower case. */
  predicate IsHttps(addr: string) {
    |addr| >= 8 && addr[0] in "hH" && addr[1] in "tT" && addr[2] in "tT" && addr[3] in "pP" && addr[4] in "sS"
    && addr[5..8] == "://"
  }

  lemma HttpsInAnyCase(addr: string)
    ensures "https://" <= ToLower(addr) <==> IsHttps(addr)
  {
    var l := ToLower(addr);
    if |addr| >= 8 {
      assert "https://" <= l <==> l[..8] == "https://";
      assert l[..8] == [l[0], l[1], l[2], l[3], l[4], l[5], l[6], l[7]];
      assert addr[5..8] == [addr[5], addr[6], addr[7]];
    }
  }

  /** A service is refused exactly for its backend address, for skipping the verification of a backend
      that is not https, for its timeouts, its TLS mode or its listen address, or because it has no tags
      although OAuth credentials are configured. */
  lemma ServiceRefusals(s: Service, t: Tailscale, net: Net)
    ensures !ServiceOk(s, t, net) <==>
      || !BackendOk(s.backendAddr, net)
      || (s.insecureSkipVerify == Some(true) && !IsHttps(s.backendAddr))
      || (s.whoisEnabled != Some(false) && Negative(s.whoisTimeout))
      || (s.tlsMode != "" && s.tlsMode != "auto" && s.tlsMode != "off")
      || Negative(s.startupTimeout) || s.startupTimeout == Some(0)
      || Negative(s.readHeaderTimeout) || Negative(s.writeTimeout) || Negative(s.idleTimeout)
      || Negative(s.responseHeaderTimeout)
      || (Negative(s.flushInterval) && s.flushInterval != Some(-1_000_000))
      || (s.listenAddr != "" && !net.addrOk(s.listenAddr))
      || ((t.oauthClientID != "" || t.oauthClientSecret != "") && (s.tags == None || s.tags == Some([])))
  {
    HttpsInAnyCase(s.backendAddr);
  }

  /** Credentials are refused exactly when an auth key comes with OAuth credentials, or one half of the
      OAuth credentials comes alone. */
  lemma CredentialRefusals(t: Tailscale)
    ensures OAuthOk(t) <==>
      || (t.authKey != "" && t.oauthClientID == "" && t.oauthClientSecret == "")
      || (t.authKey == "" && t.oauthClientID != "" && t.oauthClientSecret != "")
      || (t.authKey == "" && t.oauthClientID == "" && t.oauthClientSecret == "")
  {
  }

  /** A configuration is refused exactly for its credentials, its global settings, one of its services, an
      empty list outside Docker, or a name that is empty or used twice. */
  lemma ConfigRefusals(c: Config, docker: bool, net: Net)
    ensures !Validated(c, docker, net) <==>
      || !OAuthOk(c.tailscale)
      || !GlobalOk(c.global, net)
      || (c.services == [] && !docker)
      || (exists s | s in c.services :: s.name == "" || !ServiceOk(s, c.tailscale, net))
      || (exists i, j | 0 <= i < j < |c.services| :: c.services[i].name == c.services[j].name)
  {
    if exists s | s in c.services :: s.name == "" || !ServiceOk(s, c.tailscale, net) {
      var s :| s in c.services && (s.name == "" || !ServiceOk(s, c.tailscale, net));
      var i :| 0 <= i < |c.services| && c.services[i] == s;
    }
  }

  /** A processed configuration has credentials of at most one kind, complete ones, and with OAuth
      credentials every service has tags; verification is skipped for https backends only. */
  lemma ProcessedIsSafe(c: Config, env: Vars, files: Files, docker: bool, net: Net)
    requires Processed(c, env, files, docker, net).result.Success?
    ensures
      var out := Processed(c, env, files, docker, net).result.value;
      && (out.tailscale.authKey == "" || out.tailscale.oauthClientID == out.tailscale.oauthClientSecret == "")
      && (out.tailscale.oauthClientID == "" <==> out.tailscale.oauthClientSecret == "")
      && (out.services == [] ==> docker)
      && forall s | s in out.services ::
           && (out.tailscale.oauthClientID != "" ==> s.tags.Some? && s.tags.value != [])
           && (s.insecureSkipVerify == Some(true) ==> IsHttps(s.backendAddr))
           && (s.tlsMode == "auto" || s.tlsMode == "off")
  {
    ProcessedServicesAreOk(c, env, files, docker, net);
    var out := Processed(c, env, files, docker, net).result.value;
    CredentialRefusals(out.tailscale);
    forall s | s in out.services
      ensures out.tailscale.oauthClientID != "" ==> s.tags.Some? && s.tags.value != []
      ensures s.insecureSkipVerify == Some(true) ==> IsHttps(s.backendAddr)
      ensures s.tlsMode == "auto" || s.tlsMode == "off"
    {
      ServiceRefusals(s, out.tailscale, net);
    }
  }

  lemma ProcessedServicesAreOk(c: Config, env: Vars, files: Files, docker: bool, net: Net)
    requires Processed(c, env, files, docker, net).result.Success?
    ensures var out := Processed(c, env, files, docker, net).result.value;
      forall i | 0 <= i < |out.services| ::
        ServiceOk(out.services[i], out.tailscale, net) && out.services[i].name != "" && out.services[i].tlsMode != ""
  {
    var d := c.(tailscale := ResolveTailscale(c.tailscale, env, files).result.value);
    CompletedHasModes(d);
  }

  lemma CompletedHasModes(c: Config)
    ensures forall i | 0 <= i < |Completed(c).services| :: Completed(c).services[i].tlsMode != ""
  {
  }

  // ---------------------------------------------------------------- order

  /** The same configuration with its services in another order. */
  ghost predicate Shuffled(c: Config, c': Config) {
    c.tailscale == c'.tailscale && c.global == c'.global && multiset(c.services) == multiset(c'.services)
  }

  function CompletedService(g: Global, t: Tailscale): Service -> Service {
    (s: Service) => NormalizedService(DefaultedService(s), g, t)
  }

  lemma CompletedIsMapped(c: Config)
    ensures Completed(c).services
      == Map(CompletedService(DefaultedGlobal(c.global), DefaultedTailscale(c.tailscale)), c.services)
  {
    MapContents(CompletedService(DefaultedGlobal(c.global), DefaultedTailscale(c.tailscale)), c.services);
  }

  lemma CompletedShuffled(c: Config, c': Config)
    requires Shuffled(c, c')
    ensures Shuffled(Completed(c), Completed(c'))
  {
    CompletedIsMapped(c);
    CompletedIsMapped(c');
    MapPermuted(CompletedService(DefaultedGlobal(c.global), DefaultedTailscale(c.tailscale)), c.services, c'.services);
  }

  lemma ValidatedFollows(c: Config, c': Config, docker: bool, net: Net)
    requires Shuffled(c, c') && Validated(c, docker, net)
    ensures Validated(c', docker, net)
  {
    ByNamePermuted(c.services, c'.services);
    forall i | 0 <= i < |c'.services|
      ensures c'.services[i].name != "" && ServiceOk(c'.services[i], c'.tailscale, net)
    {
      assert c'.services[i] in multiset(c.services);
      var j :| 0 <= j < |c.services| && c.services[j] == c'.services[i];
    }
    if c'.services == [] { assert |multiset(c.services)| == 0; }
  }

  lemma ValidatedIgnoresOrder(c: Config, c': Config, docker: bool, net: Net)
    requires Shuffled(c, c')
    ensures Validated(c, docker, net) <==> Validated(c', docker, net)
  {
    if Validated(c, docker, net) { ValidatedFollows(c, c', docker, net); }
    if Validated(c', docker, net) { ValidatedFollows(c', c, docker, net); }
  }

  /** The pipeline does not depend on the order of the services: it fails the same way, leaves the same
      environment behind, and its outputs are the same up to order. */
  lemma PipelineIgnoresOrder(c: Config, c': Config, env: Vars, files: Files, docker: bool, net: Net)
    requires Shuffled(c, c')
    ensures
      var p, p' := Processed(c, env, files, docker, net), Processed(c', env, files, docker, net);
      && p.env == p'.env
      && (if p.result.Success? then p'.result.Success? && Shuffled(p.result.value, p'.result.value)
          else p'.result == p.result)
  {
    var r := ResolveTailscale(c.tailscale, env, files);
    if r.result.Success? {
      var d, d' := c.(tailscale := r.result.value), c'.(tailscale := r.result.value);
      CompletedShuffled(d, d');
      ValidatedIgnoresOrder(Completed(d), Completed(d'), docker, net);
    }
  }
}
