/**
 * The two Vitest projects of the configuration and the file patterns that
 * decide which project runs a test file. A path is the list of its
 * '/'-separated segments, relative to the project root. Each glob of the
 * configuration is given as a predicate on such paths.
 */
module TestProjects {
  import opened JsValues

  /** One segment of a path: non-empty and free of '/'. */
  type Segment = s: string | s != "" && '/' !in s witness "src"

  type Path = seq<Segment>

  /** The globs that occur in the projects' include and exclude lists. */
  datatype Glob =
    | ComponentTests   // src/**/*.svelte.{test,spec}.{js,ts}
    | AllTests         // src/**/*.{test,spec}.{js,ts}
    | ServerOnlyTree   // src/lib/server/**

  /** `*<marker>.{test,spec}.{js,ts}` on a file name: the four expansions of the braces. */
  predicate MarkedTestName(name: string, marker: string) {
    || EndsWith(name, marker + ".test.js")
    || EndsWith(name, marker + ".test.ts")
    || EndsWith(name, marker + ".spec.js")
    || EndsWith(name, marker + ".spec.ts")
  }

  /** `*.{test,spec}.{js,ts}` */
  predicate TestFileName(name: string) {
    MarkedTestName(name, "")
  }

  /** `*.svelte.{test,spec}.{js,ts}` */
  predicate ComponentTestFileName(name: string) {
    MarkedTestName(name, ".svelte")
  }

  /** `src/**/<name>`: the first segment is src and `**` takes zero or more directories. */
  predicate InSourceTree(p: Path) {
    |p| >= 2 && p[0] == "src"
  }

  /**
   * Whether a path matches a glob of the configuration. Every glob is rooted
   * at src.
   */
  function Matches(g: Glob, p: Path): (r: bool)
    ensures r ==> |p| >= 2 && p[0] == "src"
  {
    match g
    case ComponentTests => InSourceTree(p) && ComponentTestFileName(p[|p| - 1])
    case AllTests => InSourceTree(p) && TestFileName(p[|p| - 1])
    case ServerOnlyTree => StartsWith(p, ["src", "lib", "server"])
  }

  /** Every component-test file name is also a test file name. */
  lemma ComponentTestIsTest(name: string)
    requires ComponentTestFileName(name)
    ensures TestFileName(name)
  {
  }

  datatype BrowserProvider = Playwright
  datatype BrowserInstance = BrowserInstance(browser: string, headless: bool)

  /** Where a project's tests run: in a browser driven by a provider, or in Node. */
  datatype Runner =
    | Browser(provider: BrowserProvider, instances: seq<BrowserInstance>)
    | NodeProcess

  datatype Project = Project(
    name: string,
    extendsConfig: string,
    setupFiles: seq<string>,
    runner: Runner,
    includes: seq<Glob>,
    excludes: seq<Glob>)

  /** The `client` project: component tests in headless Chromium, minus the server-only tree. */
  function ClientProject(): (proj: Project)
    ensures proj.name == "client" && proj.runner.Browser? && proj.runner.provider == Playwright
    ensures proj.runner.instances == [BrowserInstance("chromium", true)]
    ensures proj.setupFiles == ["./src/test/setup-browser.ts"]
    ensures forall p :: Runs(proj, p) ==> Matches(ComponentTests, p) && !Matches(ServerOnlyTree, p)
  {
    var proj := Project("client", "./vite.config.ts", ["./src/test/setup-browser.ts"],
                        Browser(Playwright, [BrowserInstance("chromium", true)]),
                        [ComponentTests], [ServerOnlyTree]);
    assert proj.includes[0] == ComponentTests && proj.excludes[0] == ServerOnlyTree;
    proj
  }

  /** The `server` project: every other test file, in Node. */
  function ServerProject(): (proj: Project)
    ensures proj.name == "server" && proj.runner == NodeProcess && proj.setupFiles == []
    ensures forall p :: Runs(proj, p) ==> Matches(AllTests, p) && !Matches(ComponentTests, p)
  {
    var proj := Project("server", "./vite.config.ts", [], NodeProcess, [AllTests], [ComponentTests]);
    assert proj.includes[0] == AllTests && proj.excludes[0] == ComponentTests;
    proj
  }

  /** A project runs a file when some include glob matches it and no exclude glob does. */
  predicate Runs(proj: Project, p: Path)
    ensures Runs(proj, p) ==> |p| >= 2 && p[0] == "src"
    ensures proj.includes == [] ==> !Runs(proj, p)
    ensures Runs(proj, p) ==> forall j :: 0 <= j < |proj.excludes| ==> !Matches(proj.excludes[j], p)
  {
    && (exists i :: 0 <= i < |proj.includes| && Matches(proj.includes[i], p))
    && !(exists j :: 0 <= j < |proj.excludes| && Matches(proj.excludes[j], p))
  }

  lemma ClientRuns(p: Path)
    ensures Runs(ClientProject(), p) <==> Matches(ComponentTests, p) && !Matches(ServerOnlyTree, p)
  {
    var c := ClientProject();
    assert c.includes[0] == ComponentTests && c.excludes[0] == ServerOnlyTree;
  }

  lemma ServerRuns(p: Path)
    ensures Runs(ServerProject(), p) <==> Matches(AllTests, p) && !Matches(ComponentTests, p)
  {
    var s := ServerProject();
    assert s.includes[0] == AllTests && s.excludes[0] == ComponentTests;
  }

  /** No file is run by both projects. */
  lemma ProjectsDisjoint(p: Path)
    ensures !(Runs(ClientProject(), p) && Runs(ServerProject(), p))
  {
  }

  /**
   * The files the two projects run together are exactly the test files under
   * src except the component tests inside src/lib/server, which neither
   * project runs.
   */
  lemma ProjectsCover(p: Path)
    ensures Runs(ClientProject(), p) || Runs(ServerProject(), p)
        <==> Matches(AllTests, p) && !(Matches(ComponentTests, p) && Matches(ServerOnlyTree, p))
  {
    ClientRuns(p);
    ServerRuns(p);
    if Matches(ComponentTests, p) {
      ComponentTestIsTest(p[|p| - 1]);
    }
  }

  /** A component test inside the server-only tree is a test file that no project runs. */
  lemma ServerComponentTestIsOrphaned()
    ensures var p := ["src", "lib", "server", "x.svelte.test.ts"];
            Matches(AllTests, p) && !Runs(ClientProject(), p) && !Runs(ServerProject(), p)
  {
    var p: Path := ["src", "lib", "server", "x.svelte.test.ts"];
    assert EndsWith(p[3], ".svelte" + ".test.ts");
    assert Matches(ComponentTests, p);
    assert p[..3] == ["src", "lib", "server"];
    assert Matches(ServerOnlyTree, p);
    ComponentTestIsTest(p[3]);
    ClientRuns(p);
    ServerRuns(p);
  }

  /** A component test in the library goes to the client project only. */
  lemma ButtonTestRunsInClient()
    ensures var p := ["src", "lib", "Button.svelte.test.ts"];
            Runs(ClientProject(), p) && !Runs(ServerProject(), p)
  {
    var p := ["src", "lib", "Button.svelte.test.ts"];
    assert EndsWith(p[2], ".svelte" + ".test.ts");
    ClientRuns(p);
    ProjectsDisjoint(p);
  }

  /** A plain test in the server-only tree goes to the server project only. */
  lemma ServerTestRunsInServer()
    ensures var p := ["src", "lib", "server", "db.test.ts"];
            Runs(ServerProject(), p) && !Runs(ClientProject(), p)
  {
    var p := ["src", "lib", "server", "db.test.ts"];
    assert EndsWith(p[3], "" + ".test.ts");
    assert p[..3] == ["src", "lib", "server"];
    ClientRuns(p);
    ServerRuns(p);
  }
}
