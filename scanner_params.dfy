/** The scanner-parameter resolver of src/sonar-scanner-params.js: defaults
    (unless 'sonar-project.properties' exists) overlaid with the keys derived
    from 'package.json', then the map from the SONARQUBE_SCANNER_PARAMS
    environment variable, then `serverUrl` and `token`, then the caller's
    `options`. The result stands for its JSON serialisation, or null when the
    map is empty. */
module ScannerParams {
  import opened Wrappers
  import opened Text
  import opened ProjectModel

  const DefaultExclusions := "node_modules/**,bower_components/**,jspm_packages/**,typings/**,lib-cov/**"
  const DefaultDescription := "No description."

  const ProjectKeyKey := "sonar.projectKey"
  const ProjectNameKey := "sonar.projectName"
  const ProjectVersionKey := "sonar.projectVersion"
  const ProjectDescriptionKey := "sonar.projectDescription"
  const SourcesKey := "sonar.sources"
  const ExclusionsKey := "sonar.exclusions"
  const HomepageKey := "sonar.links.homepage"
  const IssueKey := "sonar.links.issue"
  const ScmKey := "sonar.links.scm"
  const LcovReportPathsKey := "sonar.javascript.lcov.reportPaths"
  const TestExecutionReportPathsKey := "sonar.testExecutionReportPaths"
  const HostUrlKey := "sonar.host.url"
  const LoginKey := "sonar.login"

  /** The values used when the project has no 'sonar-project.properties'. */
  function Defaults(): (d: Config)
    ensures d.Keys == {ProjectDescriptionKey, SourcesKey, ExclusionsKey}
    ensures d[ProjectDescriptionKey] == DefaultDescription && d[SourcesKey] == "."
    ensures d[ExclusionsKey] == DefaultExclusions
  {
    map[ProjectDescriptionKey := DefaultDescription, SourcesKey := ".", ExclusionsKey := DefaultExclusions]
  }

  /** The call parameters; an empty string is an absent or falsy field, an
      empty map absent `options`. */
  datatype CallParams = CallParams(serverUrl: string, token: string, options: Config)

  // ---------------------------------------------------------------------
  // Coverage reports

  /** `path.posix.join(dir, 'lcov.info')` */
  function LcovReportPath(dir: string): string
  {
    Join(dir, "lcov.info")
  }

  /** The exclusion added for a coverage directory: `',' + path.posix.join(dir, '**')`. */
  function ExclusionFor(dir: string): string
  {
    "," + Join(dir, "**")
  }

  /** The candidate coverage directories: nyc's 'report-dir' and jest's
      'coverageDirectory' when set, then 'coverage', without duplicates. */
  function CoverageCandidates(pkg: Pkg): (r: seq<string>)
    ensures NoDuplicates(r) && "coverage" in r && |r| <= 3
    ensures forall d :: d in r <==> d == "coverage" || (d != "" && (d == pkg.nycReportDir || d == pkg.jestCoverageDirectory))
  {
    Dedup(Truthy([pkg.nycReportDir, pkg.jestCoverageDirectory]) + ["coverage"])
  }

  /** The candidates in order: nyc's directory when set, then jest's when set and
      different, then 'coverage' unless it is already one of them. */
  lemma CoverageCandidatesOrder(pkg: Pkg)
    ensures var n := pkg.nycReportDir; var j := pkg.jestCoverageDirectory;
            CoverageCandidates(pkg)
            == (if n != "" then [n] else []) + (if j != "" && j != n then [j] else [])
               + (if n != "coverage" && j != "coverage" then ["coverage"] else [])
  {
    CandidatesInOrder(pkg.nycReportDir, pkg.jestCoverageDirectory);
  }

  /** The candidates whose 'lcov.info' exists, in order. */
  function Reported(dirs: seq<string>, fileExists: string -> bool): seq<string>
  {
    if dirs == [] then []
    else
      var last := dirs[|dirs| - 1];
      Reported(dirs[..|dirs| - 1], fileExists) + (if fileExists(LcovReportPath(last)) then [last] else [])
  }

  /** The reported directories are exactly the candidates whose report
      exists, each once when the candidates hold no duplicates. */
  lemma {:induction false} ReportedMembers(dirs: seq<string>, fileExists: string -> bool)
    ensures var r := Reported(dirs, fileExists);
            && (forall d :: d in r <==> d in dirs && fileExists(LcovReportPath(d)))
            && (NoDuplicates(dirs) ==> NoDuplicates(r))
  {
    if dirs != [] {
      var init := dirs[..|dirs| - 1];
      var last := dirs[|dirs| - 1];
      ReportedMembers(init, fileExists);
      assert forall d :: d in dirs <==> d in init || d == last;
      if NoDuplicates(dirs) {
        assert NoDuplicates(init);
        assert last !in init;
      }
    }
  }

  /** The last reported directory is the last candidate whose report
      exists: no later candidate has one. */
  lemma {:induction false} LastReported(dirs: seq<string>, fileExists: string -> bool)
    requires Reported(dirs, fileExists) != []
    ensures var found := Reported(dirs, fileExists);
            exists k | 0 <= k < |dirs| :: dirs[k] == found[|found| - 1] && fileExists(LcovReportPath(dirs[k]))
                                          && forall i | k < i < |dirs| :: !fileExists(LcovReportPath(dirs[i]))
  {
    var init := dirs[..|dirs| - 1];
    var last := dirs[|dirs| - 1];
    if fileExists(LcovReportPath(last)) {
      assert Reported(dirs, fileExists)[|Reported(dirs, fileExists)| - 1] == last;
    } else {
      assert Reported(dirs, fileExists) == Reported(init, fileExists);
      LastReported(init, fileExists);
      var found := Reported(init, fileExists);
      var k :| 0 <= k < |init| && init[k] == found[|found| - 1] && fileExists(LcovReportPath(init[k]))
                && forall i | k < i < |init| :: !fileExists(LcovReportPath(init[i]));
      assert dirs[k] == init[k];
      assert forall i | k < i < |dirs| :: !fileExists(LcovReportPath(dirs[i])) by {
        forall i | k < i < |dirs| ensures !fileExists(LcovReportPath(dirs[i])) {
          if i < |init| { assert dirs[i] == init[i]; }
        }
      }
    }
  }

  /** The exclusions appended for the given directories, in order. */
  function ExclusionSuffix(dirs: seq<string>): string
  {
    if dirs == [] then "" else ExclusionSuffix(dirs[..|dirs| - 1]) + ExclusionFor(dirs[|dirs| - 1])
  }

  /** The keys the coverage scan produces: every directory with a report is
      excluded, and the last of them is the report path. */
  function CoverageParams(dirs: seq<string>, fileExists: string -> bool, exclusions: string): (c: Config)
    ensures ExclusionsKey in c && StartsWith(c[ExclusionsKey], exclusions)
    ensures c.Keys <= {ExclusionsKey, LcovReportPathsKey}
  {
    var found := Reported(dirs, fileExists);
    var excl := exclusions + ExclusionSuffix(found);
    assert excl[..|exclusions|] == exclusions;
    map[ExclusionsKey := excl]
      + (if found == [] then map[] else map[LcovReportPathsKey := LcovReportPath(found[|found| - 1])])
  }

  /** `m` with `key` set to `value` when `cond` holds. */
  function SetIf(m: Config, cond: bool, key: string, value: string): Config
  {
    if cond then m[key := value] else m
  }

  /** The keys copied from the manifest's own fields: key and name always,
      the version when defined, the other fields when non-empty. */
  function ManifestParams(pkg: Pkg, slug: string, issueKey: string): Config
    requires pkg.name.Some?
  {
    var m := map[ProjectKeyKey := slug, ProjectNameKey := pkg.name.value];
    var m := SetIf(m, pkg.version.Some?, ProjectVersionKey, if pkg.version.Some? then pkg.version.value else "");
    var m := SetIf(m, pkg.description != "", ProjectDescriptionKey, pkg.description);
    var m := SetIf(m, pkg.homepage != "", HomepageKey, pkg.homepage);
    var m := SetIf(m, pkg.bugsUrl != "", issueKey, pkg.bugsUrl);
    SetIf(m, pkg.repositoryUrl != "", ScmKey, pkg.repositoryUrl)
  }

  /** The xunit report is used when the reporter is a dependency and the
      report file exists. */
  predicate UsesXunitReport(pkg: Pkg, fileExists: string -> bool)
  {
    DependenceExists(pkg, MochaReporter) && fileExists(XunitReport)
  }

  /** What `extractInfoFromPackageFile` returns for a manifest with a name. */
  function PackageParams(pkg: Pkg, fileExists: string -> bool, exclusions: string): Config
    requires pkg.name.Some?
  {
    var m := ManifestParams(pkg, Slugify(pkg.name.value), IssueKey)
      + CoverageParams(CoverageCandidates(pkg), fileExists, exclusions);
    SetIf(m, UsesXunitReport(pkg, fileExists), TestExecutionReportPathsKey, XunitReport)
  }

  /** The outcome of `extractInfoFromPackageFile`: an exception when the file
      cannot be read or parsed or when the name is not a string (`slugify`
      throws), nothing for a `null` manifest, the derived keys otherwise. */
  function ExtractedInfo(file: PackageFile, fileExists: string -> bool, exclusions: string): Result<Config>
  {
    match file
    case Unreadable(reason) => Err(reason)
    case NullManifest => Ok(map[])
    case Manifest(pkg) =>
      if pkg.name.None? then Err("slugify: string argument expected")
      else Ok(PackageParams(pkg, fileExists, exclusions))
  }

  /** A map with the coverage keys set to the given values. */
  function WithCoverage(base: Config, excl: string, report: Option<string>): Config
  {
    base[ExclusionsKey := excl] + (if report.Some? then map[LcovReportPathsKey := report.value] else map[])
  }

  /** The report path after scanning `dirs`: that of the last directory with
      a report. */
  function LastReport(dirs: seq<string>, fileExists: string -> bool): Option<string>
  {
    var found := Reported(dirs, fileExists);
    if found == [] then None else Some(LcovReportPath(found[|found| - 1]))
  }

  /** The declarative coverage keys, overlaid on a map, as one `WithCoverage`. */
  lemma CoverageParamsAsWith(base: Config, dirs: seq<string>, fileExists: string -> bool, exclusions: string)
    ensures base + CoverageParams(dirs, fileExists, exclusions)
            == WithCoverage(base, exclusions + ExclusionSuffix(Reported(dirs, fileExists)), LastReport(dirs, fileExists))
  {
  }

  /** One visited directory with a report, in terms of `WithCoverage`. */
  lemma WithCoverageStep(base: Config, excl: string, report: Option<string>, more: string, path: string)
    ensures var m := WithCoverage(base, excl, report);
            m[ExclusionsKey := m[ExclusionsKey] + more][LcovReportPathsKey := path]
            == WithCoverage(base, excl + more, Some(path))
  {
  }

  /** The exclusions after the loop has visited `dirs`, step by step. */
  function ScannedExclusions(dirs: seq<string>, fileExists: string -> bool, exclusions: string): string
  {
    if dirs == [] then exclusions
    else
      var last := dirs[|dirs| - 1];
      ScannedExclusions(dirs[..|dirs| - 1], fileExists, exclusions)
        + (if fileExists(LcovReportPath(last)) then ExclusionFor(last) else "")
  }

  /** The report path after the loop has visited `dirs`, step by step. */
  function ScannedReport(dirs: seq<string>, fileExists: string -> bool): Option<string>
  {
    if dirs == [] then None
    else
      var last := dirs[|dirs| - 1];
      if fileExists(LcovReportPath(last)) then Some(LcovReportPath(last))
      else ScannedReport(dirs[..|dirs| - 1], fileExists)
  }

  /** The step-by-step scan yields the exclusions and the report path that
      `CoverageParams` states declaratively. */
  lemma {:induction false} ScannedIsDeclarative(dirs: seq<string>, fileExists: string -> bool, exclusions: string)
    ensures ScannedExclusions(dirs, fileExists, exclusions) == exclusions + ExclusionSuffix(Reported(dirs, fileExists))
    ensures ScannedReport(dirs, fileExists) == LastReport(dirs, fileExists)
  {
    if dirs != [] {
      var init := dirs[..|dirs| - 1];
      var last := dirs[|dirs| - 1];
      ScannedIsDeclarative(init, fileExists, exclusions);
      var before := Reported(init, fileExists);
      if fileExists(LcovReportPath(last)) {
        assert (before + [last])[..|before|] == before;
        assert ExclusionSuffix(before + [last]) == ExclusionSuffix(before) + ExclusionFor(last);
      } else {
        assert Reported(dirs, fileExists) == before;
      }
    }
  }

  /** The coverage loop of `extractInfoFromPackageFile`: for every candidate
      whose 'lcov.info' exists, append its exclusion and overwrite the report
      path. */
  method ScanCoverage(params0: Config, dirs: seq<string>, fileExists: string -> bool, exclusions: string)
    returns (params: Config)
    ensures params == params0 + CoverageParams(dirs, fileExists, exclusions)
  {
    params := params0[ExclusionsKey := exclusions];
    ghost var report: Option<string> := None;
    ghost var excl := exclusions;
    assert dirs[..0] == [];
    for i := 0 to |dirs|
      invariant report == ScannedReport(dirs[..i], fileExists)
      invariant excl == ScannedExclusions(dirs[..i], fileExists, exclusions)
      invariant params == WithCoverage(params0, excl, report)
    {
      assert dirs[..i + 1][..i] == dirs[..i];
      var lcovReportPath := LcovReportPath(dirs[i]);
      if fileExists(lcovReportPath) {
        WithCoverageStep(params0, excl, report, ExclusionFor(dirs[i]), lcovReportPath);
        params := params[ExclusionsKey := params[ExclusionsKey] + ExclusionFor(dirs[i])];
        params := params[LcovReportPathsKey := lcovReportPath];
        report := Some(lcovReportPath);
        excl := excl + ExclusionFor(dirs[i]);
      } else {
        assert excl + "" == excl;
      }
    }
    assert dirs[..|dirs|] == dirs;
    ScannedIsDeclarative(dirs, fileExists, exclusions);
    CoverageParamsAsWith(params0, dirs, fileExists, exclusions);
  }

  /** `extractInfoFromPackageFile`: fills a fresh map field by field, then
      scans the coverage candidates and checks for an xunit report. */
  method ExtractInfoFromPackageFile(file: PackageFile, fileExists: string -> bool, exclusions: string)
    returns (r: Result<Config>)
    ensures r == ExtractedInfo(file, fileExists, exclusions)
  {
    if file.Unreadable? {
      return Err(file.reason);
    }
    if file.NullManifest? {
      return Ok(map[]);
    }
    var pkg := file.pkg;
    if pkg.name.None? {
      return Err("slugify: string argument expected");
    }
    var params := CopyManifestFields(pkg);
    params := ScanCoverage(params, CoverageCandidates(pkg), fileExists, exclusions);
    if DependenceExists(pkg, MochaReporter) && fileExists(XunitReport) {
      params := params[TestExecutionReportPathsKey := XunitReport];
    }
    return Ok(params);
  }

  /** The first part of `extractInfoFromPackageFile`: the manifest's own
      fields, copied into a fresh map one by one. */
  method CopyManifestFields(pkg: Pkg) returns (params: Config)
    requires pkg.name.Some?
    ensures params == ManifestParams(pkg, Slugify(pkg.name.value), IssueKey)
  {
    params := map[];
    params := params[ProjectKeyKey := Slugify(pkg.name.value)];
    params := params[ProjectNameKey := pkg.name.value];
    if pkg.version.Some? {
      params := params[ProjectVersionKey := pkg.version.value];
    }
    ghost var step := params;
    if pkg.description != "" {
      params := params[ProjectDescriptionKey := pkg.description];
    }
    assert params == SetIf(step, pkg.description != "", ProjectDescriptionKey, pkg.description);
    step := params;
    if pkg.homepage != "" {
      params := params[HomepageKey := pkg.homepage];
    }
    assert params == SetIf(step, pkg.homepage != "", HomepageKey, pkg.homepage);
    step := params;
    if pkg.bugsUrl != "" {
      params := params[IssueKey := pkg.bugsUrl];
    }
    assert params == SetIf(step, pkg.bugsUrl != "", IssueKey, pkg.bugsUrl);
    step := params;
    if pkg.repositoryUrl != "" {
      params := params[ScmKey := pkg.repositoryUrl];
    }
    assert params == SetIf(step, pkg.repositoryUrl != "", ScmKey, pkg.repositoryUrl);
  }

  // ---------------------------------------------------------------------
  // Resolution

  /** Step 1: nothing when 'sonar-project.properties' exists; otherwise the
      defaults, overlaid with what the manifest yields when it can be used
      (a failed extraction only leaves the defaults). */
  function BaseLayer(project: Project): (m: Config)
    ensures project.fileExists(PropertiesFile) ==> m == map[]
    ensures !project.fileExists(PropertiesFile) ==>
              && Defaults().Keys <= m.Keys
              && StartsWith(m[ExclusionsKey], DefaultExclusions)
              && m[SourcesKey] == "."
    ensures var info := ExtractedInfo(project.packageFile, project.fileExists, DefaultExclusions);
            !project.fileExists(PropertiesFile) && info.Err? ==> m == Defaults()
  {
    if project.fileExists(PropertiesFile) then map[]
    else
      match ExtractedInfo(project.packageFile, project.fileExists, DefaultExclusions)
      case Ok(info) =>
        ExtractedKeys(project.packageFile, project.fileExists, DefaultExclusions);
        Defaults() + info
      case Err(_) => Defaults()
  }

  /** What the manifest yields never sets the sources, and only extends
      the exclusions it is given. */
  lemma ExtractedKeys(file: PackageFile, fileExists: string -> bool, exclusions: string)
    ensures var r := ExtractedInfo(file, fileExists, exclusions);
            r.Ok? ==> && SourcesKey !in r.value
                      && (ExclusionsKey in r.value ==> StartsWith(r.value[ExclusionsKey], exclusions))
  {
    if file.Manifest? && file.pkg.name.Some? {
      var pkg := file.pkg;
      var slug := Slugify(pkg.name.value);
      ManifestOwnKeys(pkg, slug, IssueKey);
      ManifestNamed(pkg, slug, IssueKey);
      LayeredFields(ManifestParams(pkg, slug, IssueKey), CoverageParams(CoverageCandidates(pkg), fileExists, exclusions),
                    UsesXunitReport(pkg, fileExists));
    }
  }

  /** Step 2: the object held by the SONARQUBE_SCANNER_PARAMS variable;
      nothing when it is unset or empty, an exception when `parse` rejects
      its text. */
  function EnvLayer(envText: string, parse: string -> Option<Config>): (r: Result<Config>)
    ensures r.Err? <==> envText != "" && parse(envText).None?
    ensures r.Ok? && envText != "" ==> r.value == parse(envText).value
  {
    if envText == "" then Ok(map[])
    else
      match parse(envText)
      case Some(env) => Ok(env)
      case None => Err("SyntaxError: SONARQUBE_SCANNER_PARAMS is not valid JSON")
  }

  /** Step 3 on `m`: `serverUrl` and `token` when truthy, then every option. */
  function ApplyCallParams(m: Config, params: CallParams): (r: Config)
    ensures forall k | k in params.options :: k in r && r[k] == params.options[k]
    ensures r.Keys == m.Keys + params.options.Keys
                      + (if params.serverUrl != "" then {HostUrlKey} else {})
                      + (if params.token != "" then {LoginKey} else {})
    ensures forall k | k in m && k !in params.options && (k == HostUrlKey ==> params.serverUrl == "")
                       && (k == LoginKey ==> params.token == "") :: r[k] == m[k]
  {
    var m := SetIf(m, params.serverUrl != "", HostUrlKey, params.serverUrl);
    SetIf(m, params.token != "", LoginKey, params.token) + params.options
  }

  /** The caller's `options` prevail over everything; `serverUrl` and
      `token`, when truthy, prevail over the environment and the base layers;
      every other key keeps its value from the layer that last set it, and no
      other key appears. */
  lemma CallParamsPrecedence(m: Config, params: CallParams)
    ensures var r := ApplyCallParams(m, params);
            && (forall k | k in params.options :: k in r && r[k] == params.options[k])
            && (params.serverUrl != "" && HostUrlKey !in params.options ==> r[HostUrlKey] == params.serverUrl)
            && (params.token != "" && LoginKey !in params.options ==> r[LoginKey] == params.token)
            && (forall k | k in m && k !in params.options && (k == HostUrlKey ==> params.serverUrl == "")
                           && (k == LoginKey ==> params.token == "") :: r[k] == m[k])
            && r.Keys == m.Keys + params.options.Keys
                         + (if params.serverUrl != "" then {HostUrlKey} else {})
                         + (if params.token != "" then {LoginKey} else {})
  {
  }

  /** Applying the call's parameters a second time changes nothing. */
  lemma ApplyCallParamsIdempotent(m: Config, params: CallParams)
    ensures ApplyCallParams(ApplyCallParams(m, params), params) == ApplyCallParams(m, params)
  {
    var o := params.options;
    var (s, t) := (params.serverUrl != "", params.token != "");
    var m1 := SetIf(m, s, HostUrlKey, params.serverUrl);
    var m2 := SetIf(m1, t, LoginKey, params.token);
    var r := m2 + o;
    var a := SetIf(r, s, HostUrlKey, params.serverUrl);
    assert |HostUrlKey| != |LoginKey|;
    if s {
      assert HostUrlKey in m2 && m2[HostUrlKey] == params.serverUrl;
      PutIdle(r, HostUrlKey, params.serverUrl, o);
    }
    assert a + o == r + o;
    if t {
      assert LoginKey in a && (LoginKey !in o ==> a[LoginKey] == params.token);
      PutIdle(a, LoginKey, params.token, o);
    }
    assert SetIf(a, t, LoginKey, params.token) + o == a + o;
    assert r + o == r by {
      assert r.Keys == (r + o).Keys;
    }
  }

  /** Setting a key to the value it has, or to a value an overlay then
      hides, changes nothing after the overlay. */
  lemma PutIdle(r: Config, key: string, value: string, o: Config)
    requires key in r && (key in o || r[key] == value)
    ensures r[key := value] + o == r + o
  {
    assert (r[key := value] + o).Keys == (r + o).Keys;
  }

  /** The result of `defineSonarScannerParams`: an exception when the
      environment variable holds text `parse` rejects; otherwise the layered
      map, or None (the source's null) when it is empty. */
  function Resolution(params: CallParams, project: Project, envText: string, parse: string -> Option<Config>)
    : (r: Result<Option<Config>>)
    ensures r.Err? <==> envText != "" && parse(envText).None?
    ensures r.Ok? && !project.fileExists(PropertiesFile) ==> r.value.Some?
    ensures r.Ok? && r.value.Some? ==> forall k | k in params.options :: k in r.value.value && r.value.value[k] == params.options[k]
    ensures r.Ok? ==> (r.value.None? <==> ApplyCallParams(BaseLayer(project) + EnvLayer(envText, parse).value, params) == map[])
    ensures r.Ok? && envText != "" ==>
              forall k | k in parse(envText).value && k !in params.options && (k == HostUrlKey ==> params.serverUrl == "")
                         && (k == LoginKey ==> params.token == "")
                :: r.value.Some? && k in r.value.value && r.value.value[k] == parse(envText).value[k]
  {
    match EnvLayer(envText, parse)
    case Err(e) => Err(e)
    case Ok(env) =>
      var m := ApplyCallParams(BaseLayer(project) + env, params);
      CallParamsPrecedence(BaseLayer(project) + env, params);
      Ok(if m == map[] then None else Some(m))
  }

  /** `defineSonarScannerParams`: builds the map in a local variable, layer
      by layer, as the source does. */
  method DefineSonarScannerParams(params: CallParams, project: Project, envText: string, parse: string -> Option<Config>)
    returns (r: Result<Option<Config>>)
    ensures r == Resolution(params, project, envText, parse)
  {
    var scannerParams: Config := map[];
    if !project.fileExists(PropertiesFile) {
      scannerParams := Defaults();
      var info := ExtractInfoFromPackageFile(project.packageFile, project.fileExists, scannerParams[ExclusionsKey]);
      if info.Ok? {
        scannerParams := scannerParams + info.value;
      }
    }
    assert scannerParams == BaseLayer(project);
    if envText != "" {
      var parsed := parse(envText);
      if parsed.None? {
        return Err("SyntaxError: SONARQUBE_SCANNER_PARAMS is not valid JSON");
      }
      scannerParams := scannerParams + parsed.value;
    }
    assert scannerParams == BaseLayer(project) + EnvLayer(envText, parse).value;
    if params.serverUrl != "" {
      scannerParams := scannerParams[HostUrlKey := params.serverUrl];
    }
    if params.token != "" {
      scannerParams := scannerParams[LoginKey := params.token];
    }
    scannerParams := scannerParams + params.options;
    if scannerParams == map[] {
      return Ok(None);
    }
    return Ok(Some(scannerParams));
  }

  // ---------------------------------------------------------------------
  // Properties

  /** The manifest yields only its own keys, never the sources or the
      exclusions. */
  lemma ManifestOwnKeys(pkg: Pkg, slug: string, issueKey: string)
    requires pkg.name.Some?
    ensures ManifestParams(pkg, slug, issueKey).Keys
            <= {ProjectKeyKey, ProjectNameKey, ProjectVersionKey, ProjectDescriptionKey, HomepageKey, issueKey, ScmKey}
  {
  }

  /** The manifest's own fields land under their keys exactly when the
      source copies them. */
  lemma ManifestFields(pkg: Pkg, slug: string)
    requires pkg.name.Some?
    ensures var m := ManifestParams(pkg, slug, IssueKey);
            && m.Keys <= {ProjectKeyKey, ProjectNameKey, ProjectVersionKey, ProjectDescriptionKey, HomepageKey, IssueKey, ScmKey}
            && m[ProjectKeyKey] == slug
            && m[ProjectNameKey] == pkg.name.value
            && (ProjectVersionKey in m <==> pkg.version.Some?)
            && (pkg.version.Some? ==> m[ProjectVersionKey] == pkg.version.value)
            && (ProjectDescriptionKey in m <==> pkg.description != "")
            && (HomepageKey in m <==> pkg.homepage != "")
            && (IssueKey in m <==> pkg.bugsUrl != "")
            && (ScmKey in m <==> pkg.repositoryUrl != "")
  {
    ManifestOwnKeys(pkg, slug, IssueKey);
    ManifestNamed(pkg, slug, IssueKey);
    ManifestOptional(pkg, slug);
  }

  /** The key and the name are always there. */
  lemma ManifestNamed(pkg: Pkg, slug: string, issueKey: string)
    requires pkg.name.Some?
    requires issueKey !in {ProjectKeyKey, ProjectNameKey}
    ensures var m := ManifestParams(pkg, slug, issueKey);
            && m[ProjectKeyKey] == slug
            && m[ProjectNameKey] == pkg.name.value
  {
    ManifestKeysDistinct();
  }

  /** The optional fields are there exactly when the source copies them. */
  lemma ManifestOptional(pkg: Pkg, slug: string)
    requires pkg.name.Some?
    ensures var m := ManifestParams(pkg, slug, IssueKey);
            && (ProjectVersionKey in m <==> pkg.version.Some?)
            && (pkg.version.Some? ==> m[ProjectVersionKey] == pkg.version.value)
            && (ProjectDescriptionKey in m <==> pkg.description != "")
            && (HomepageKey in m <==> pkg.homepage != "")
            && (IssueKey in m <==> pkg.bugsUrl != "")
            && (ScmKey in m <==> pkg.repositoryUrl != "")
  {
    ManifestKeysDistinct();
  }

  /** The seven keys the manifest's fields go under are pairwise distinct. */
  lemma ManifestKeysDistinct()
    ensures ProjectKeyKey !in {ProjectNameKey, ProjectVersionKey, ProjectDescriptionKey, HomepageKey, IssueKey, ScmKey}
    ensures ProjectNameKey !in {ProjectVersionKey, ProjectDescriptionKey, HomepageKey, IssueKey, ScmKey}
    ensures ProjectVersionKey !in {ProjectDescriptionKey, HomepageKey, IssueKey, ScmKey}
    ensures ProjectDescriptionKey !in {HomepageKey, IssueKey, ScmKey}
    ensures HomepageKey !in {IssueKey, ScmKey}
    ensures IssueKey != ScmKey
  {
    assert ProjectNameKey[6] != IssueKey[6];
    assert ProjectVersionKey[6] != HomepageKey[6];
  }

  /** Some candidate directory holds an 'lcov.info'. */
  predicate HasReport(dirs: seq<string>, fileExists: string -> bool)
  {
    exists d :: d in dirs && fileExists(LcovReportPath(d))
  }

  /** A report path is set exactly when some candidate directory holds an
      'lcov.info', and then it is that of the last such candidate. */
  lemma CoverageReport(dirs: seq<string>, fileExists: string -> bool, exclusions: string)
    ensures var c := CoverageParams(dirs, fileExists, exclusions);
            && (LcovReportPathsKey in c <==> HasReport(dirs, fileExists))
            && (LcovReportPathsKey in c ==>
                  exists k | 0 <= k < |dirs| :: fileExists(LcovReportPath(dirs[k]))
                                                && c[LcovReportPathsKey] == LcovReportPath(dirs[k])
                                                && forall i | k < i < |dirs| :: !fileExists(LcovReportPath(dirs[i])))
  {
    var found := Reported(dirs, fileExists);
    ReportedMembers(dirs, fileExists);
    if found != [] {
      var last := found[|found| - 1];
      assert last in found;
      assert last in dirs && fileExists(LcovReportPath(last));
      LastReported(dirs, fileExists);
    }
  }

  /** The coverage keys when no candidate is reported. */
  lemma CoverageOfNone(dirs: seq<string>, fileExists: string -> bool, exclusions: string)
    requires Reported(dirs, fileExists) == []
    ensures CoverageParams(dirs, fileExists, exclusions) == map[ExclusionsKey := exclusions]
  {
    assert exclusions + ExclusionSuffix([]) == exclusions;
  }

  /** The coverage keys when exactly one candidate is reported. */
  lemma CoverageOfSingle(dirs: seq<string>, fileExists: string -> bool, exclusions: string, d: string)
    requires Reported(dirs, fileExists) == [d]
    ensures CoverageParams(dirs, fileExists, exclusions)
            == map[ExclusionsKey := exclusions + ExclusionFor(d), LcovReportPathsKey := LcovReportPath(d)]
  {
    assert [d][..0] == [];
    assert ExclusionSuffix([d]) == ExclusionFor(d);
  }

  /** A single directory is reported when its report exists. */
  lemma ReportedOne(d: string, fileExists: string -> bool)
    requires fileExists(LcovReportPath(d))
    ensures Reported([d], fileExists) == [d]
  {
    assert [d][..0] == [];
  }

  /** What a manifest yields: its own fields, and the xunit report path
      exactly when the reporter is a dependency and 'xunit.xml' exists. */
  lemma PackageParamsFields(pkg: Pkg, fileExists: string -> bool, exclusions: string)
    requires pkg.name.Some?
    ensures var m := PackageParams(pkg, fileExists, exclusions);
            && m[ProjectKeyKey] == Slugify(pkg.name.value)
            && m[ProjectNameKey] == pkg.name.value
            && (ProjectVersionKey in m <==> pkg.version.Some?)
            && (ProjectDescriptionKey in m <==> pkg.description != "")
            && (TestExecutionReportPathsKey in m <==> UsesXunitReport(pkg, fileExists))
  {
    var slug := Slugify(pkg.name.value);
    var man := ManifestParams(pkg, slug, IssueKey);
    var cov := CoverageParams(CoverageCandidates(pkg), fileExists, exclusions);
    ManifestFields(pkg, slug);
    LayeredFields(man, cov, UsesXunitReport(pkg, fileExists));
  }

  /** The manifest's keys survive the coverage keys and the xunit step, and
      the xunit key is there exactly when that step sets it. */
  lemma LayeredFields(man: Config, cov: Config, xunit: bool)
    requires cov.Keys <= {ExclusionsKey, LcovReportPathsKey}
    requires man.Keys <= {ProjectKeyKey, ProjectNameKey, ProjectVersionKey, ProjectDescriptionKey, HomepageKey, IssueKey, ScmKey}
    requires ProjectKeyKey in man && ProjectNameKey in man
    ensures var m := SetIf(man + cov, xunit, TestExecutionReportPathsKey, XunitReport);
            && m[ProjectKeyKey] == man[ProjectKeyKey]
            && m[ProjectNameKey] == man[ProjectNameKey]
            && (ProjectVersionKey in m <==> ProjectVersionKey in man)
            && (ProjectDescriptionKey in m <==> ProjectDescriptionKey in man)
            && (TestExecutionReportPathsKey in m <==> xunit)
            && SourcesKey !in m
            && (ExclusionsKey in cov ==> ExclusionsKey in m && m[ExclusionsKey] == cov[ExclusionsKey])
  {
    ManifestKeysOutsideCoverage();
    OverlayKeeps(man, cov, xunit, ProjectKeyKey);
    OverlayKeeps(man, cov, xunit, ProjectNameKey);
    OverlayKeeps(man, cov, xunit, ProjectVersionKey);
    OverlayKeeps(man, cov, xunit, ProjectDescriptionKey);
    assert TestExecutionReportPathsKey !in man + cov;
  }

  /** The keys a manifest's own fields and the xunit report go under are
      none of those the coverage scan sets. */
  lemma ManifestKeysOutsideCoverage()
    ensures ProjectKeyKey !in {ExclusionsKey, LcovReportPathsKey, TestExecutionReportPathsKey}
    ensures ProjectNameKey !in {ExclusionsKey, LcovReportPathsKey, TestExecutionReportPathsKey}
    ensures ProjectVersionKey !in {ExclusionsKey, LcovReportPathsKey, TestExecutionReportPathsKey}
    ensures ProjectDescriptionKey !in {ExclusionsKey, LcovReportPathsKey, TestExecutionReportPathsKey}
    ensures TestExecutionReportPathsKey !in {ExclusionsKey, LcovReportPathsKey}
    ensures ExclusionsKey !in {HomepageKey, IssueKey, ScmKey}
    ensures SourcesKey !in {ProjectKeyKey, ProjectNameKey, ProjectVersionKey, ProjectDescriptionKey,
                            HomepageKey, IssueKey, ScmKey, TestExecutionReportPathsKey, ExclusionsKey, LcovReportPathsKey}
  {
    assert ProjectKeyKey[6] != ExclusionsKey[6];
  }

  /** A key the coverage scan does not set, nor the xunit step, keeps what
      the manifest gave it. */
  lemma OverlayKeeps(man: Config, cov: Config, xunit: bool, k: string)
    requires cov.Keys <= {ExclusionsKey, LcovReportPathsKey}
    requires k != ExclusionsKey && k != LcovReportPathsKey && k != TestExecutionReportPathsKey
    ensures var m := SetIf(man + cov, xunit, TestExecutionReportPathsKey, XunitReport);
            && (k in m <==> k in man)
            && (k in man ==> m[k] == man[k])
  {
  }

  /** What a manifest yields has a report path exactly when one of its
      coverage directories holds an 'lcov.info'. */
  lemma PackageParamsReport(pkg: Pkg, fileExists: string -> bool, exclusions: string)
    requires pkg.name.Some?
    ensures var m := PackageParams(pkg, fileExists, exclusions);
            LcovReportPathsKey in m <==> HasReport(CoverageCandidates(pkg), fileExists)
  {
    var cov := CoverageParams(CoverageCandidates(pkg), fileExists, exclusions);
    CoverageReport(CoverageCandidates(pkg), fileExists, exclusions);
    var m := ManifestParams(pkg, Slugify(pkg.name.value), IssueKey) + cov;
    ManifestFields(pkg, Slugify(pkg.name.value));
    assert LcovReportPathsKey in m <==> LcovReportPathsKey in cov;
  }

  /** With a 'sonar-project.properties' file, the manifest plays no part. */
  lemma PropertiesFileSkipsManifest(params: CallParams, project: Project, other: PackageFile,
                                    envText: string, parse: string -> Option<Config>)
    requires project.fileExists(PropertiesFile)
    ensures Resolution(params, project, envText, parse)
            == Resolution(params, project.(packageFile := other), envText, parse)
    ensures envText == "" && params == CallParams("", "", map[]) ==> Resolution(params, project, envText, parse) == Ok(None)
  {
  }

  /** Without a manifest the defaults stand, under the keys of the
      environment variable, `serverUrl`, `token` and `options`. */
  lemma DefaultsWithoutManifest(params: CallParams, project: Project, envText: string, parse: string -> Option<Config>)
    requires !project.fileExists(PropertiesFile)
    requires project.packageFile.Unreadable?
    requires envText == "" || parse(envText).Some?
    ensures var env := if envText == "" then map[] else parse(envText).value;
            Resolution(params, project, envText, parse) == Ok(Some(ApplyCallParams(Defaults() + env, params)))
  {
  }

  /** The layers of the basic example, merged. */
  lemma BasicLayers(name: string, version: string)
    ensures Defaults()
            + (map[ProjectKeyKey := name, ProjectNameKey := name, ProjectVersionKey := version]
               + map[ExclusionsKey := DefaultExclusions + ",coverage/**", LcovReportPathsKey := "coverage/lcov.info"])
            == map[
                 LcovReportPathsKey := "coverage/lcov.info",
                 ProjectKeyKey := name,
                 ProjectNameKey := name,
                 ProjectDescriptionKey := DefaultDescription,
                 ProjectVersionKey := version,
                 SourcesKey := ".",
                 ExclusionsKey := DefaultExclusions + ",coverage/**"]
  {
  }

  /** The coverage scan of the basic example. */
  lemma BasicCoverage(fileExists: string -> bool)
    requires fileExists("coverage/lcov.info")
    ensures CoverageParams(["coverage"], fileExists, DefaultExclusions)
            == map[ExclusionsKey := DefaultExclusions + ",coverage/**", LcovReportPathsKey := "coverage/lcov.info"]
  {
    assert LcovReportPath("coverage") == "coverage/lcov.info";
    assert ExclusionFor("coverage") == ",coverage/**";
    ReportedOne("coverage", fileExists);
    CoverageOfSingle(["coverage"], fileExists, DefaultExclusions, "coverage");
  }

  /** What the basic example's manifest yields. */
  lemma BasicManifest(name: string, version: string, fileExists: string -> bool)
    requires forall c | c in name :: c !in InvalidCharacters
    requires fileExists("coverage/lcov.info")
    ensures var pkg := Pkg(Some(name), Some(version), "", "", "", "", "", "", {}, {}, {});
            ExtractedInfo(Manifest(pkg), fileExists, DefaultExclusions)
            == Ok(map[ProjectKeyKey := name, ProjectNameKey := name, ProjectVersionKey := version]
                  + map[ExclusionsKey := DefaultExclusions + ",coverage/**", LcovReportPathsKey := "coverage/lcov.info"])
  {
    var pkg := Pkg(Some(name), Some(version), "", "", "", "", "", "", {}, {}, {});
    var man := map[ProjectKeyKey := name, ProjectNameKey := name, ProjectVersionKey := version];
    var cov := map[ExclusionsKey := DefaultExclusions + ",coverage/**", LcovReportPathsKey := "coverage/lcov.info"];
    assert ManifestParams(pkg, Slugify(pkg.name.value), IssueKey) == man by {
      SlugifyKeepsValidNames(name);
      NameAndVersionOnly(pkg, name, IssueKey);
    }
    assert CoverageParams(CoverageCandidates(pkg), fileExists, DefaultExclusions) == cov by {
      OnlyDefaultCoverageDirectory(pkg);
      BasicCoverage(fileExists);
    }
    assert !UsesXunitReport(pkg, fileExists);
    ExtractedFromParts(pkg, fileExists, DefaultExclusions, man, cov);
  }

  /** What a named manifest yields when the xunit report is not used. */
  lemma ExtractedFromParts(pkg: Pkg, fileExists: string -> bool, exclusions: string, man: Config, cov: Config)
    requires pkg.name.Some?
    requires ManifestParams(pkg, Slugify(pkg.name.value), IssueKey) == man
    requires CoverageParams(CoverageCandidates(pkg), fileExists, exclusions) == cov
    requires !UsesXunitReport(pkg, fileExists)
    ensures ExtractedInfo(Manifest(pkg), fileExists, exclusions) == Ok(man + cov)
  {
  }

  /** Without nyc or jest settings, 'coverage' is the only candidate. */
  lemma OnlyDefaultCoverageDirectory(pkg: Pkg)
    requires pkg.nycReportDir == "" && pkg.jestCoverageDirectory == ""
    ensures CoverageCandidates(pkg) == ["coverage"]
  {
    var s := [pkg.nycReportDir, pkg.jestCoverageDirectory];
    assert Truthy(s[1..][1..]) == [] by {
      assert s[1..][1..] == [];
    }
    assert Truthy(s[1..]) == [];
    var t := Truthy(s);
    assert t == [];
    assert t + ["coverage"] == ["coverage"];
  }

  /** A manifest with only a name and a version yields the key, the name
      and the version. */
  lemma NameAndVersionOnly(pkg: Pkg, slug: string, issueKey: string)
    requires pkg.name.Some? && pkg.version.Some?
    requires pkg.description == "" && pkg.homepage == "" && pkg.bugsUrl == "" && pkg.repositoryUrl == ""
    ensures ManifestParams(pkg, slug, issueKey)
            == map[ProjectKeyKey := slug, ProjectNameKey := pkg.name.value, ProjectVersionKey := pkg.version.value]
  {
  }

  /** A manifest with a valid name and a version, in a project with a
      report under 'coverage' and no 'sonar-project.properties': the key, name
      and version, the report path and the report directory's exclusion, over
      the defaults. */
  lemma BasicProjectExample(name: string, version: string, fileExists: string -> bool)
    requires forall c | c in name :: c !in InvalidCharacters
    requires fileExists("coverage/lcov.info") && !fileExists(PropertiesFile)
    ensures var pkg := Pkg(Some(name), Some(version), "", "", "", "", "", "", {}, {}, {});
            var project := Project(fileExists, Manifest(pkg));
            Resolution(CallParams("", "", map[]), project, "", s => None)
            == Ok(Some(map[
                 LcovReportPathsKey := "coverage/lcov.info",
                 ProjectKeyKey := name,
                 ProjectNameKey := name,
                 ProjectDescriptionKey := DefaultDescription,
                 ProjectVersionKey := version,
                 SourcesKey := ".",
                 ExclusionsKey := DefaultExclusions + ",coverage/**"]))
  {
    var pkg := Pkg(Some(name), Some(version), "", "", "", "", "", "", {}, {}, {});
    var project := Project(fileExists, Manifest(pkg));
    var man := map[ProjectKeyKey := name, ProjectNameKey := name, ProjectVersionKey := version];
    var cov := map[ExclusionsKey := DefaultExclusions + ",coverage/**", LcovReportPathsKey := "coverage/lcov.info"];
    BasicManifest(name, version, fileExists);
    BaseLayerOfInfo(project, man + cov);
    PlainResolution(project, s => None);
    BasicLayers(name, version);
  }

  /** Without a 'sonar-project.properties' file, the base layer is the
      defaults under what the manifest yields. */
  lemma BaseLayerOfInfo(project: Project, info: Config)
    requires !project.fileExists(PropertiesFile)
    requires ExtractedInfo(project.packageFile, project.fileExists, DefaultExclusions) == Ok(info)
    ensures BaseLayer(project) == Defaults() + info
  {
  }

  /** With no environment variable and no call parameters, the result is
      the base layer. */
  lemma PlainResolution(project: Project, parse: string -> Option<Config>)
    requires !project.fileExists(PropertiesFile)
    ensures Resolution(CallParams("", "", map[]), project, "", parse) == Ok(Some(BaseLayer(project)))
  {
    var base := BaseLayer(project);
    assert base + map[] == base;
    assert ApplyCallParams(base, CallParams("", "", map[])) == base;
    assert SourcesKey in base;
  }
}
