# Verified model of the crates.io Svelte front end's Vite configuration

`svelte/vite.config.ts` configures the development server and the test runner
of the crates.io Svelte front end. Around calls into libraries it holds three
pieces of decision logic, which this project models and proves properties of:

- **The proxy's response logging.** When not under test, requests whose URL
  starts with `/api` are forwarded to `API_HOST`. Each completed upstream response is classified
  by status code: `error` from 500, `warn` from 400 to 499, `info` otherwise,
  with a missing status read as 0. Each one is logged as a single line
  `METHOD URL → STATUS MESSAGE` (module `ProxyLog`, with the JavaScript value
  rules it relies on in `JsValues`).
- **Configuration assembly from the environment** (module `ViteConfig`).
  - `__TEST__` is `Boolean(PLAYWRIGHT || VITEST)`.
  - `API_HOST` falls back to `https://crates.io` through `??`.
  - The plugin list gains the bundle analyzer when `BUNDLE_ANALYSIS` is set to a non-empty value.
  - The proxy table exists only outside test.
  - The environment is an input `map<string, string>`. An unset variable is an absent key.
- **The two Vitest projects** `client` and `server` and the globs that decide
  which files each one runs (module `TestProjects`). A path is a sequence of
  its `/`-separated segments (each non-empty and free of `/`), and each glob is a predicate on such sequences.

The state the source changes in place is modelled imperatively:
- the conditional `plugins.push` and `let proxy` assignment (method `ViteConfig.Assemble`);
- the `let level` reassignment in the handler (method `ProxyLog.ProxyLogger.OnProxyRes`);
- the logger sink, a class whose `records` sequence each handler call appends to.

Each of these methods is specified by functions and predicates. Those are
connected to a reference stated directly on the inputs.

No file is run by both test projects, but not every test file is run by one.
A component test under `src/lib/server/` matches the server include, and it is
excluded by both projects (lines 72 and 83), so neither runs it.
`TestProjects.ProjectsCover` states exactly which files the two projects
cover together. `TestProjects.ServerComponentTestIsOrphaned` exhibits such a file.

## Model

| member | source | states |
|---|---|---|
| `ViteConfig.UnderTest` | svelte/vite.config.ts:10 | the JavaScript `Boolean(PLAYWRIGHT \|\| VITEST)` is true exactly when one of the two variables is set to a non-empty string |
| `ViteConfig.ApiHost` | svelte/vite.config.ts:11 | the upstream host is the variable's value whenever `API_HOST` is present (even empty), and `https://crates.io` only when it is absent |
| `ViteConfig.AssemblePlugins` | svelte/vite.config.ts:15-18 | the plugin list starts with SvelteKit then SVG; it has a third element, the static bundle analyzer, exactly when `BUNDLE_ANALYSIS` is non-empty, and nothing more |
| `ViteConfig.Assemble` | svelte/vite.config.ts:10-86 | the configuration has the following parts. `define` holds only `__TEST__`, whose value is the harness signal. The plugin list is as above. The proxy table is absent under test. Otherwise it is exactly one rule `/api` with target the upstream host, `changeOrigin` true and the logging hook. Assertions are required. The projects are `[client, server]` |
| `ViteConfig.ProxyRouting` | svelte/vite.config.ts:20-41 | for an assembled configuration, a URL is forwarded iff not under test and it starts with `/api`; every rule targets the upstream host |
| `ViteConfig.Assembled` | svelte/vite.config.ts:10-86 | the closed form of the configuration on the environment (the parts listed for `Assemble`); in it the proxy table is absent exactly when the exported `__TEST__` is true, `__TEST__` equals the JavaScript value of line 10, and the plugins start with SvelteKit and SVG |
| `ViteConfig.ForwardedRequest` | svelte/vite.config.ts:20-37 | for any environment outside test, a request whose URL starts with `/api` logs exactly one record: the classified level, the template-literal line and the timestamp flag |
| `ViteConfig.RequestUnderTest` | svelte/vite.config.ts:20-22 | for any environment under test, nothing is logged for any request (that nothing is forwarded is `ProxyRouting`) |
| `ViteConfig.LocalRequest` | svelte/vite.config.ts:22-23 | in any environment, a request whose URL does not start with `/api` logs nothing |
| `ViteConfig.PlaywrightPing` | svelte/vite.config.ts:10-22 | with `PLAYWRIGHT=1`, a request to `/api/ping` logs nothing |
| `ProxyLog.Intercepts` | svelte/vite.config.ts:20-23 | with no proxy table or no URL nothing is forwarded; a URL equal to a context is forwarded; a forwarded URL is at least as long as some context of the table |
| `ProxyLog.Classify` | svelte/vite.config.ts:28-33 | error iff a status is present and at least 500; warn iff present and in 400–499; info iff absent or below 400 |
| `ProxyLog.MissingStatusIsZero` | svelte/vite.config.ts:29-31 | an absent status is classified exactly as status 0, which is info |
| `ProxyLog.ClassifyMonotone` | svelte/vite.config.ts:28-33 | a larger status code never gets a lower level |
| `ProxyLog.CratesListingLine` | svelte/vite.config.ts:35 | `GET /api/v1/crates` answered `200 OK` logs the text `GET /api/v1/crates → 200 OK` |
| `ProxyLog.LogLine` | svelte/vite.config.ts:35 | the line starts with the method text, a space, the URL text and ` → `; the status text (`undefined` when absent) follows at that offset and is followed by a space; it ends with a space and the status message text, and its length is the sum of these parts |
| `ProxyLog.LogLineRecordsStatus` | svelte/vite.config.ts:35 | for a given request, the log line determines the status code, telling an absent one (`undefined`) apart from every number, and the printed status message |
| `ProxyLog.ProxyLogger.constructor` | svelte/vite.config.ts:13 | a new proxy logger has logged nothing |
| `ProxyLog.ProxyLogger.OnProxyRes` | svelte/vite.config.ts:27-37 | one handler call appends exactly one record, at the classified level, with the template-literal line and the timestamp flag, and leaves earlier records unchanged |
| `ProxyLog.ProxyLogger.Serve` | svelte/vite.config.ts:22-27 | a request matched by a proxy context logs exactly one record for its response; any other request logs nothing |
| `JsValues.NatText` | svelte/vite.config.ts:35 | the text of a status number is non-empty, all digits, with no leading zero |
| `JsValues.ParseNat` | svelte/vite.config.ts:35 | a text has a decimal value iff it is a non-empty string of digits |
| `JsValues.ParseNatText` | svelte/vite.config.ts:35 | reading back the decimal text of a number gives that number |
| `JsValues.NumberTextRoundTrip` | svelte/vite.config.ts:35 | reading back the decimal text of an integer gives it back, negative numbers included (JavaScript's `${n}` agrees with that text below 10^21 in magnitude) |
| `JsValues.OptNumberTextInjective` | svelte/vite.config.ts:35 | different status codes print differently, and an absent status prints differently from every number |
| `TestProjects.Matches` | svelte/vite.config.ts:71-72 | each of the three globs (`src/**/*.svelte.{test,spec}.{js,ts}`, `src/**/*.{test,spec}.{js,ts}`, `src/lib/server/**`, the last two also at lines 82-83) matches only paths rooted at `src` |
| `TestProjects.Runs` | svelte/vite.config.ts:71-83 | a project runs a path only if no exclude glob matches it, never when it has no include glob, and only paths rooted at `src` |
| `TestProjects.ClientProject` | svelte/vite.config.ts:58-74 | the `client` project: Playwright browser runner with one headless Chromium instance, the browser setup file, and every path it runs is a component test outside `src/lib/server/` |
| `TestProjects.ServerProject` | svelte/vite.config.ts:76-85 | the `server` project: Node runner, no setup file, and every path it runs is a test file that is not a component test |
| `TestProjects.ComponentTestIsTest` | svelte/vite.config.ts:71-83 | every `*.svelte.{test,spec}.{js,ts}` name is also a `*.{test,spec}.{js,ts}` name |
| `TestProjects.ClientRuns` | svelte/vite.config.ts:61-72 | `client` runs a path iff it matches `src/**/*.svelte.{test,spec}.{js,ts}` and is not under `src/lib/server/` |
| `TestProjects.ServerRuns` | svelte/vite.config.ts:79-83 | `server` runs a path iff it matches `src/**/*.{test,spec}.{js,ts}` and not `src/**/*.svelte.{test,spec}.{js,ts}` |
| `TestProjects.ProjectsDisjoint` | svelte/vite.config.ts:71-83 | no path is run by both projects |
| `TestProjects.ProjectsCover` | svelte/vite.config.ts:71-83 | the paths run by some project are exactly the `src/**/*.{test,spec}.{js,ts}` paths except the component tests under `src/lib/server/` |
| `TestProjects.ServerComponentTestIsOrphaned` | svelte/vite.config.ts:72-83 | `src/lib/server/x.svelte.test.ts` is a test file that neither project runs |
| `TestProjects.ButtonTestRunsInClient` | svelte/vite.config.ts:71-83 | `src/lib/Button.svelte.test.ts` is run by `client` only |
| `TestProjects.ServerTestRunsInServer` | svelte/vite.config.ts:71-83 | `src/lib/server/db.test.ts` is run by `server` only |

## Left out

- HTTP forwarding is not modelled. This covers the proxy library's event emitter, how the request is sent upstream, Host rewriting under `changeOrigin`, and transport errors and timeouts. They are network I/O inside a library. The model keeps only the handler's decision, given the request's method and URL and the response's status code and message.
- Vite's choice of proxy rule is modelled only for plain path prefixes (`url.startsWith(context)`), which is all this configuration uses. Contexts starting with `^` are regular expressions in Vite and are not modelled. Vite also tries the contexts in key order; the model does not keep that order.
- The Vite logger is not modelled: `createLogger`, the `[proxy]` prefix and the `info` threshold, which lets all three levels through. The clock reading behind `timestamp: true` is also out. A log call is a record appended to `records`, carrying level, text and the timestamp flag.
- Plugin internals are out. The values of `sveltekit()`, `svg()`, `analyzer()` and `playwright()`, and the Chromium instance settings, are opaque library values. They are tags in the model.
- Glob semantics: only the three distinct globs of the configuration are encoded, as path predicates. General picomatch behaviour is out, namely brace expansion in general, the dotfile rules for `*` and `**`, and path normalisation. So is Vitest's handling of its default excludes.
- Test-runner behaviour is out: enforcing `requireAssertions`, merging a project with the configuration it `extends`, and running the projects in parallel. These are the engine's behaviour, not this file's logic. The model keeps the flag and the `extends` path as data.
- Reading `process.env` is not modelled. The environment is an input map.
- JavaScript numbers are modelled as integers. A fractional status code, which Node's HTTP parser never produces, is out of scope.
- What happens when the upstream is unreachable is not modelled; the handler logs only responses that arrive.
- JsValues.NumberText: gives plain decimal text for every integer, while JavaScript prints magnitudes of 10^21 and above in exponent form (`${1e21}` is `1e+21`) and holds integers above 2^53 only approximately. The log line is unaffected, because Node delivers three-digit status codes.
