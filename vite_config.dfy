/**
 * Assembly of the Vite/Vitest configuration from the process environment:
 * the `__TEST__` flag, the upstream host, the plugin list, the proxy table
 * and the two test projects.
 */
module ViteConfig {
  import opened Wrappers
  import opened JsValues
  import opened ProxyLog
  import opened TestProjects

  /** The process environment: variable name to value; an unset variable is absent. */
  type Env = map<string, string>

  const DefaultApiHost: string := "https://crates.io"
  const ApiContext: string := "/api"

  /** `process.env[name]`: `undefined` when the variable is not set. */
  function Lookup(env: Env, name: string): Option<string> {
    if name in env then Some(env[name]) else None
  }

  /** The variable is set to a non-empty value. */
  predicate IsSet(env: Env, name: string) {
    name in env && env[name] != ""
  }

  /** `Boolean(PLAYWRIGHT || VITEST)`: running under one of the two test harnesses. */
  function UnderTest(env: Env): (b: bool)
    ensures b <==> IsSet(env, "PLAYWRIGHT") || IsSet(env, "VITEST")
  {
    Truthy(Or(Lookup(env, "PLAYWRIGHT"), Lookup(env, "VITEST")))
  }

  /** `API_HOST ?? 'https://crates.io'`: the default only when the variable is absent. */
  function ApiHost(env: Env): (h: string)
    ensures "API_HOST" in env ==> h == env["API_HOST"]
    ensures "API_HOST" !in env ==> h == DefaultApiHost
  {
    Coalesce(Lookup(env, "API_HOST"), DefaultApiHost)
  }

  /** The Vite plugins: opaque library values, named by tag. */
  datatype Plugin = SvelteKit | Svg | BundleAnalyzer(analyzerMode: string)

  datatype TestSettings = TestSettings(requireAssertions: bool, projects: seq<Project>)

  /** The exported configuration. */
  datatype Config = Config(
    define: map<string, bool>,
    plugins: seq<Plugin>,
    proxy: Option<ProxyTable>,
    test: TestSettings)

  /** The plugin list: SvelteKit and SVG, then the bundle analyzer when asked for. */
  method AssemblePlugins(env: Env) returns (plugins: seq<Plugin>)
    ensures |plugins| >= 2 && plugins[0] == SvelteKit && plugins[1] == Svg
    ensures |plugins| == 3 <==> IsSet(env, "BUNDLE_ANALYSIS")
    ensures |plugins| <= 3
    ensures |plugins| == 3 ==> plugins[2] == BundleAnalyzer("static")
  {
    plugins := [SvelteKit, Svg];
    if Truthy(Lookup(env, "BUNDLE_ANALYSIS")) {
      plugins := plugins + [BundleAnalyzer("static")];
    }
  }

  /** The single proxy rule: `/api` forwarded to the upstream host, with the Host header rewritten. */
  function ApiRule(host: string): ProxyOptions {
    ProxyOptions(host, true, LogEachResponse)
  }

  /**
   * What the exported configuration is for a given environment, stated
   * directly on the environment's variables. In such a configuration the
   * proxy table is absent exactly when the exported `__TEST__` is true, and
   * the plugin list always starts with SvelteKit and SVG.
   */
  predicate Assembled(env: Env, cfg: Config)
    ensures Assembled(env, cfg) ==> "__TEST__" in cfg.define && cfg.define["__TEST__"] == UnderTest(env)
    ensures Assembled(env, cfg) ==> (cfg.proxy.None? <==> cfg.define["__TEST__"])
    ensures Assembled(env, cfg) ==> |cfg.plugins| >= 2 && cfg.plugins[..2] == [SvelteKit, Svg]
  {
    var underTest := IsSet(env, "PLAYWRIGHT") || IsSet(env, "VITEST");
    var host := if "API_HOST" in env then env["API_HOST"] else DefaultApiHost;
    && cfg.define == map["__TEST__" := underTest]
    && (if IsSet(env, "BUNDLE_ANALYSIS")
        then cfg.plugins == [SvelteKit, Svg, BundleAnalyzer("static")]
        else cfg.plugins == [SvelteKit, Svg])
    && (underTest ==> cfg.proxy == None)
    && (!underTest ==> cfg.proxy == Some(map[ApiContext := ApiRule(host)]))
    && cfg.test == TestSettings(true, [ClientProject(), ServerProject()])
  }

  /** Builds the configuration step by step, as the module's top level does when it is loaded. */
  method Assemble(env: Env) returns (cfg: Config)
    ensures Assembled(env, cfg)
  {
    var underTest := UnderTest(env);
    var apiHost := ApiHost(env);
    var plugins := AssemblePlugins(env);
    var proxy: Option<ProxyTable> := None;
    if !underTest {
      proxy := Some(map[ApiContext := ApiRule(apiHost)]);
    }
    cfg := Config(map["__TEST__" := underTest], plugins, proxy,
                  TestSettings(true, [ClientProject(), ServerProject()]));
  }

  /**
   * Under test the dev server forwards nothing; otherwise it forwards exactly
   * the requests whose URL starts with `/api`, and always to the upstream host.
   */
  lemma ProxyRouting(env: Env, cfg: Config, url: string)
    requires Assembled(env, cfg)
    ensures Intercepts(cfg.proxy, Some(url)) <==> !UnderTest(env) && StartsWith(url, ApiContext)
    ensures cfg.proxy.Some? ==> forall c :: c in cfg.proxy.value ==> cfg.proxy.value[c].target == ApiHost(env)
  {
  }

  /** Under test, every request passes through: nothing is forwarded and nothing is logged. */
  method RequestUnderTest(env: Env, req: Request, res: UpstreamResponse) returns (records: seq<LogRecord>)
    requires UnderTest(env)
    ensures records == []
  {
    var cfg := Assemble(env);
    var logger := new ProxyLogger();
    if req.url.Some? {
      ProxyRouting(env, cfg, req.url.value);
    }
    logger.Serve(cfg.proxy, req, res);
    records := logger.records;
  }

  /** Outside test, a request whose URL starts with /api logs exactly the handler's one record. */
  method ForwardedRequest(env: Env, req: Request, res: UpstreamResponse) returns (records: seq<LogRecord>)
    requires !UnderTest(env) && req.url.Some? && StartsWith(req.url.value, ApiContext)
    ensures records == [LogRecord(Classify(res.statusCode), LogLine(req, res), true)]
  {
    var cfg := Assemble(env);
    var logger := new ProxyLogger();
    ProxyRouting(env, cfg, req.url.value);
    logger.Serve(cfg.proxy, req, res);
    records := logger.records;
  }

  /** A request whose URL does not start with /api is served locally and logs nothing. */
  method LocalRequest(env: Env, req: Request, res: UpstreamResponse) returns (records: seq<LogRecord>)
    requires req.url.Some? ==> !StartsWith(req.url.value, ApiContext)
    ensures records == []
  {
    var cfg := Assemble(env);
    var logger := new ProxyLogger();
    if req.url.Some? {
      ProxyRouting(env, cfg, req.url.value);
    }
    logger.Serve(cfg.proxy, req, res);
    records := logger.records;
  }

  /** With PLAYWRIGHT=1, a request to /api/ping is not logged. */
  method PlaywrightPing() returns (records: seq<LogRecord>)
    ensures records == []
  {
    records := RequestUnderTest(map["PLAYWRIGHT" := "1"], Request(Some("GET"), Some("/api/ping")),
                                UpstreamResponse(Some(200), Some("OK")));
  }
}
