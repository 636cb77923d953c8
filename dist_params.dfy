/** The parameter resolver of dist/sonar-scanner-params.js, repeated line
    for line in dist/sonarqube-scanner-params.js. It builds one object in
    place: `extend` copies keys into it and `extractInfoFromPackageFile`
    writes into the caller's object. Unlike the resolver in src/, it takes
    the environment map already parsed, stops the coverage scan at the first
    directory with a report, files the issue link under 'sonar.links.issues'
    and always returns the object. */
module DistScannerParams {
  import opened Wrappers
  import opened Text
  import opened ProjectModel
  import opened ScannerParams

  const IssuesKey := "sonar.links.issues"

  /** A plain JavaScript object used as a string-to-string dictionary. */
  class ParamsObject {
    var entries: Config

    constructor ()
      ensures entries == map[]
    {
      entries := map[];
    }

    /** `extend(this, other)`: every key of `other` is copied over. */
    method Extend(other: Config)
      modifies this
      ensures entries == old(entries) + other
    {
      entries := entries + other;
    }

    /** `this[key] = value` */
    method Put(key: string, value: string)
      modifies this
      ensures entries == old(entries)[key := value]
    {
      entries := entries[key := value];
    }
  }

  /** The candidates, jest's directory first: `uniq` of the truthy
      'jest.coverageDirectory' and 'nyc.report-dir', then 'coverage'. */
  function DistCoverageCandidates(pkg: Pkg): (r: seq<string>)
    ensures NoDuplicates(r) && "coverage" in r
    ensures forall d :: d in r <==> d == "coverage" || (d != "" && (d == pkg.nycReportDir || d == pkg.jestCoverageDirectory))
  {
    Dedup(Truthy([pkg.jestCoverageDirectory, pkg.nycReportDir]) + ["coverage"])
  }

  /** The candidates in order: jest's directory when set, then nyc's when set and
      different, then 'coverage' unless it is already one of them. */
  lemma DistCoverageCandidatesOrder(pkg: Pkg)
    ensures var j := pkg.jestCoverageDirectory; var n := pkg.nycReportDir;
            DistCoverageCandidates(pkg)
            == (if j != "" then [j] else []) + (if n != "" && n != j then [n] else [])
               + (if j != "coverage" && n != "coverage" then ["coverage"] else [])
  {
    CandidatesInOrder(pkg.jestCoverageDirectory, pkg.nycReportDir);
  }

  /** The directory `find` stops at: the first candidate whose 'lcov.info'
      exists. */
  function FirstReported(dirs: seq<string>, fileExists: string -> bool): (r: Option<string>)
    ensures r.None? <==> forall i | 0 <= i < |dirs| :: !fileExists(LcovReportPath(dirs[i]))
    ensures r.Some? ==> exists i | 0 <= i < |dirs| :: dirs[i] == r.value
                          && fileExists(LcovReportPath(dirs[i]))
                          && forall j | 0 <= j < i :: !fileExists(LcovReportPath(dirs[j]))
  {
    if dirs == [] then None
    else if fileExists(LcovReportPath(dirs[0])) then
      assert dirs[0] == dirs[0];
      Some(dirs[0])
    else
      var r := FirstReported(dirs[1..], fileExists);
      assert forall i | 1 <= i < |dirs| :: dirs[1..][i - 1] == dirs[i];
      r
  }

  /** `m` after the coverage scan: the first directory with a report, if
      any, extends the exclusions and gives the report path. */
  function FirstCoverage(m: Config, dirs: seq<string>, fileExists: string -> bool): Config
    requires ExclusionsKey in m
  {
    match FirstReported(dirs, fileExists)
    case None => m
    case Some(d) => m[ExclusionsKey := m[ExclusionsKey] + ExclusionFor(d)][LcovReportPathsKey := LcovReportPath(d)]
  }

  /** The object after `extractInfoFromPackageFile` on `base`; an exception
      (read-pkg's or slugify's) is thrown before the first write. */
  function DistExtracted(base: Config, file: PackageFile, fileExists: string -> bool): Result<Config>
    requires ExclusionsKey in base
  {
    match file
    case Unreadable(reason) => Err(reason)
    case NullManifest => Ok(base)
    case Manifest(pkg) =>
      if pkg.name.None? then Err("slugify: string argument expected")
      else
        var m := base + ManifestParams(pkg, Slugify(pkg.name.value), IssuesKey);
        Ok(SetIf(FirstCoverage(m, DistCoverageCandidates(pkg), fileExists),
                 UsesXunitReport(pkg, fileExists), TestExecutionReportPathsKey, XunitReport))
  }

  /** The object before the environment and call layers: empty with a
      'sonar-project.properties' file, otherwise the defaults with whatever
      the manifest adds, or the bare defaults when extraction throws. */
  function DistBase(project: Project): Config
  {
    if project.fileExists(PropertiesFile) then map[]
    else
      match DistExtracted(Defaults(), project.packageFile, project.fileExists)
      case Ok(m) => m
      case Err(_) => Defaults()
  }

  /** The object `defineSonarScannerParams` returns. */
  function DistResolution(params: CallParams, project: Project, env: Option<Config>): (r: Config)
    ensures forall k | k in params.options :: k in r && r[k] == params.options[k]
    ensures params.serverUrl != "" && HostUrlKey !in params.options ==> HostUrlKey in r && r[HostUrlKey] == params.serverUrl
    ensures params.token != "" && LoginKey !in params.options ==> LoginKey in r && r[LoginKey] == params.token
    ensures env.Some? ==> forall k | k in env.value && k !in params.options && (k == HostUrlKey ==> params.serverUrl == "")
                                     && (k == LoginKey ==> params.token == "")
                                   :: k in r && r[k] == env.value[k]
  {
    var base := DistBase(project);
    var layered := if env.Some? then base + env.value else base;
    CallParamsPrecedence(layered, params);
    ApplyCallParams(layered, params)
  }

  /** The `find` over the candidates: stops at the first directory whose
      report exists and writes its exclusion and report path. */
  method ScanFirstCoverage(target: ParamsObject, dirs: seq<string>, fileExists: string -> bool)
    requires ExclusionsKey in target.entries
    modifies target
    ensures target.entries == FirstCoverage(old(target.entries), dirs, fileExists)
  {
    var i := 0;
    while i < |dirs|
      invariant 0 <= i <= |dirs|
      invariant target.entries == old(target.entries)
      invariant FirstReported(dirs[i..], fileExists) == FirstReported(dirs, fileExists)
    {
      assert dirs[i..][1..] == dirs[i + 1..];
      var lcovReportPath := LcovReportPath(dirs[i]);
      if fileExists(lcovReportPath) {
        target.Put(ExclusionsKey, target.entries[ExclusionsKey] + ExclusionFor(dirs[i]));
        target.Put(LcovReportPathsKey, lcovReportPath);
        return;
      }
      i := i + 1;
    }
    assert dirs[i..] == [];
  }

  /** Writing into an overlay is writing into its top layer. */
  lemma OverlayPut(base: Config, top: Config, key: string, value: string)
    ensures (base + top)[key := value] == base + top[key := value]
  {
  }

  /** `ManifestParams` as the sequence of writes that builds it. */
  lemma ManifestSteps(pkg: Pkg, slug: string, issueKey: string)
    requires pkg.name.Some?
    ensures ManifestParams(pkg, slug, issueKey)
            == SetIf(SetIf(SetIf(SetIf(SetIf(map[][ProjectKeyKey := slug][ProjectNameKey := pkg.name.value],
                 pkg.version.Some?, ProjectVersionKey, if pkg.version.Some? then pkg.version.value else ""),
                 pkg.description != "", ProjectDescriptionKey, pkg.description),
                 pkg.homepage != "", HomepageKey, pkg.homepage),
                 pkg.bugsUrl != "", issueKey, pkg.bugsUrl),
                 pkg.repositoryUrl != "", ScmKey, pkg.repositoryUrl)
  {
  }

  /** The manifest's own fields, written one by one. */
  method WriteManifest(target: ParamsObject, pkg: Pkg)
    requires pkg.name.Some?
    modifies target
    ensures target.entries == old(target.entries) + ManifestParams(pkg, Slugify(pkg.name.value), IssuesKey)
  {
    ghost var base := target.entries;
    ghost var written: Config := map[];
    ghost var slug := Slugify(pkg.name.value);
    assert base + written == base;
    target.Put(ProjectKeyKey, Slugify(pkg.name.value));
    OverlayPut(base, written, ProjectKeyKey, Slugify(pkg.name.value));
    written := written[ProjectKeyKey := Slugify(pkg.name.value)];
    target.Put(ProjectNameKey, pkg.name.value);
    OverlayPut(base, written, ProjectNameKey, pkg.name.value);
    written := written[ProjectNameKey := pkg.name.value];
    if pkg.version.Some? {
      target.Put(ProjectVersionKey, pkg.version.value);
      OverlayPut(base, written, ProjectVersionKey, pkg.version.value);
    }
    written := SetIf(written, pkg.version.Some?, ProjectVersionKey, if pkg.version.Some? then pkg.version.value else "");
    if pkg.description != "" {
      target.Put(ProjectDescriptionKey, pkg.description);
      OverlayPut(base, written, ProjectDescriptionKey, pkg.description);
    }
    written := SetIf(written, pkg.description != "", ProjectDescriptionKey, pkg.description);
    if pkg.homepage != "" {
      target.Put(HomepageKey, pkg.homepage);
      OverlayPut(base, written, HomepageKey, pkg.homepage);
    }
    written := SetIf(written, pkg.homepage != "", HomepageKey, pkg.homepage);
    if pkg.bugsUrl != "" {
      target.Put(IssuesKey, pkg.bugsUrl);
      OverlayPut(base, written, IssuesKey, pkg.bugsUrl);
    }
    written := SetIf(written, pkg.bugsUrl != "", IssuesKey, pkg.bugsUrl);
    if pkg.repositoryUrl != "" {
      target.Put(ScmKey, pkg.repositoryUrl);
      OverlayPut(base, written, ScmKey, pkg.repositoryUrl);
    }
    written := SetIf(written, pkg.repositoryUrl != "", ScmKey, pkg.repositoryUrl);
    ManifestSteps(pkg, slug, IssuesKey);
  }

  /** `extractInfoFromPackageFile`: writes the manifest's keys into
      `target`; returns the exception thrown, if any, in which case nothing
      was written. */
  method ExtractInfoFromPackageFile(target: ParamsObject, file: PackageFile, fileExists: string -> bool)
    returns (thrown: Option<string>)
    requires ExclusionsKey in target.entries
    modifies target
    ensures thrown.Some? <==> DistExtracted(old(target.entries), file, fileExists).Err?
    ensures thrown.Some? ==> target.entries == old(target.entries)
    ensures thrown.None? ==> target.entries == DistExtracted(old(target.entries), file, fileExists).value
  {
    if file.Unreadable? {
      return Some(file.reason);
    }
    if file.NullManifest? {
      return None;
    }
    var pkg := file.pkg;
    if pkg.name.None? {
      return Some("slugify: string argument expected");
    }
    WriteManifest(target, pkg);
    ScanFirstCoverage(target, DistCoverageCandidates(pkg), fileExists);
    if DependenceExists(pkg, MochaReporter) && fileExists(XunitReport) {
      target.Put(TestExecutionReportPathsKey, XunitReport);
    }
    return None;
  }

  /** `defineSonarScannerParams` of dist/sonar-scanner-params.js: a fresh
      object, built in place and always returned. */
  method DefineSonarScannerParams(params: CallParams, project: Project, env: Option<Config>)
    returns (result: ParamsObject)
    ensures fresh(result)
    ensures result.entries == DistResolution(params, project, env)
  {
    result := new ParamsObject();
    if !project.fileExists(PropertiesFile) {
      result.Extend(Defaults());
      assert result.entries == Defaults();
      var thrown := ExtractInfoFromPackageFile(result, project.packageFile, project.fileExists);
      if thrown.Some? {
        assert DistExtracted(Defaults(), project.packageFile, project.fileExists).Err?;
      } else {
        assert result.entries == DistExtracted(Defaults(), project.packageFile, project.fileExists).value;
      }
    }
    assert result.entries == DistBase(project);
    if env.Some? {
      result.Extend(env.value);
    }
    ghost var layered := result.entries;
    if params.serverUrl != "" {
      result.Put(HostUrlKey, params.serverUrl);
    }
    assert result.entries == SetIf(layered, params.serverUrl != "", HostUrlKey, params.serverUrl);
    if params.token != "" {
      result.Put(LoginKey, params.token);
    }
    result.Extend(params.options);
    assert result.entries == ApplyCallParams(layered, params);
  }

  /** `defineSonarQubeScannerParams` of dist/sonarqube-scanner-params.js,
      the same procedure under its older name. */
  method DefineSonarQubeScannerParams(params: CallParams, project: Project, env: Option<Config>)
    returns (result: ParamsObject)
    ensures fresh(result)
    ensures result.entries == DistResolution(params, project, env)
  {
    result := DefineSonarScannerParams(params, project, env);
  }

  // ---------------------------------------------------------------------
  // Properties

  /** At most one coverage directory is excluded: the exclusions are the
      given ones, or those followed by the first reporting directory's. */
  lemma FirstCoverageKeys(m: Config, dirs: seq<string>, fileExists: string -> bool)
    requires ExclusionsKey in m
    ensures var r := FirstCoverage(m, dirs, fileExists);
            && (FirstReported(dirs, fileExists).None? ==> r == m)
            && (FirstReported(dirs, fileExists).Some? ==>
                  var d := FirstReported(dirs, fileExists).value;
                  && r[ExclusionsKey] == m[ExclusionsKey] + ExclusionFor(d)
                  && r[LcovReportPathsKey] == LcovReportPath(d)
                  && r.Keys == m.Keys + {LcovReportPathsKey})
  {
  }

  /** The dist manifest layer: the issue link goes under 'sonar.links.issues'
      exactly when `bugs.url` is truthy and 'sonar.links.issue' is never set;
      the xunit report path is set exactly when the reporter is a dependency
      and 'xunit.xml' exists. */
  lemma DistExtractedFields(pkg: Pkg, fileExists: string -> bool)
    requires pkg.name.Some?
    ensures var m := DistExtracted(Defaults(), Manifest(pkg), fileExists).value;
            && (IssuesKey in m <==> pkg.bugsUrl != "")
            && (pkg.bugsUrl != "" ==> m[IssuesKey] == pkg.bugsUrl)
            && IssueKey !in m
            && (TestExecutionReportPathsKey in m <==> UsesXunitReport(pkg, fileExists))
  {
    var slug := Slugify(pkg.name.value);
    var base := Defaults() + ManifestParams(pkg, slug, IssuesKey);
    DistBaseIssues(pkg, slug);
    var c := FirstCoverage(base, DistCoverageCandidates(pkg), fileExists);
    assert |IssuesKey| != |LcovReportPathsKey| && |IssueKey| != |LcovReportPathsKey|;
    assert |TestExecutionReportPathsKey| != |LcovReportPathsKey|;
    FirstCoverageOthers(base, DistCoverageCandidates(pkg), fileExists, IssuesKey);
    FirstCoverageOthers(base, DistCoverageCandidates(pkg), fileExists, IssueKey);
    FirstCoverageOthers(base, DistCoverageCandidates(pkg), fileExists, TestExecutionReportPathsKey);
    assert |IssuesKey| != |TestExecutionReportPathsKey| && |IssueKey| != |TestExecutionReportPathsKey|;
  }

  /** The defaults overlaid with the dist manifest layer: the issue link
      under 'sonar.links.issues' when truthy, and neither 'sonar.links.issue'
      nor the xunit report path. */
  lemma DistBaseIssues(pkg: Pkg, slug: string)
    requires pkg.name.Some?
    ensures var base := Defaults() + ManifestParams(pkg, slug, IssuesKey);
            && (IssuesKey in base <==> pkg.bugsUrl != "")
            && (pkg.bugsUrl != "" ==> base[IssuesKey] == pkg.bugsUrl)
            && IssueKey !in base && TestExecutionReportPathsKey !in base
  {
    var man := ManifestParams(pkg, slug, IssuesKey);
    ManifestOwnKeys(pkg, slug, IssuesKey);
    assert (IssuesKey in man <==> pkg.bugsUrl != "") && (pkg.bugsUrl != "" ==> man[IssuesKey] == pkg.bugsUrl) by {
      assert |IssuesKey| != |ScmKey|;
    }
    assert |IssueKey| != |IssuesKey| && |IssueKey| != |ProjectKeyKey| && |IssueKey| != |ScmKey|;
    assert |IssueKey| != |ProjectVersionKey| && |IssueKey| != |ProjectDescriptionKey| && |IssueKey| != |HomepageKey|;
    assert IssueKey[6] != ProjectNameKey[6];
    assert |IssueKey| != |SourcesKey| && |IssueKey| != |ExclusionsKey|;
    assert |TestExecutionReportPathsKey| != |IssuesKey| && |TestExecutionReportPathsKey| != |ProjectKeyKey|;
    assert |TestExecutionReportPathsKey| != |ProjectVersionKey| && |TestExecutionReportPathsKey| != |ProjectDescriptionKey|;
    assert |TestExecutionReportPathsKey| != |HomepageKey| && |TestExecutionReportPathsKey| != |ScmKey|;
    assert |TestExecutionReportPathsKey| != |ProjectNameKey| && |TestExecutionReportPathsKey| != |SourcesKey|;
    assert |TestExecutionReportPathsKey| != |ExclusionsKey|;
    assert |IssuesKey| != |SourcesKey| && |IssuesKey| != |ExclusionsKey| && |IssuesKey| != |ProjectDescriptionKey|;
  }

  /** The coverage step touches only the exclusions and the report path. */
  lemma FirstCoverageOthers(m: Config, dirs: seq<string>, fileExists: string -> bool, k: string)
    requires ExclusionsKey in m
    requires k != ExclusionsKey && k != LcovReportPathsKey
    ensures var r := FirstCoverage(m, dirs, fileExists);
            && (k in r <==> k in m)
            && (k in m ==> r[k] == m[k])
  {
  }

  /** No candidate holds a report: nothing is reported. */
  lemma {:induction false} ReportedNone(dirs: seq<string>, fileExists: string -> bool)
    requires forall x | x in dirs :: !fileExists(LcovReportPath(x))
    ensures Reported(dirs, fileExists) == []
  {
    if dirs != [] {
      var init := dirs[..|dirs| - 1];
      assert forall x | x in init :: x in dirs;
      ReportedNone(init, fileExists);
      assert dirs[|dirs| - 1] in dirs;
    }
  }

  /** Exactly one candidate holds a report: it alone is reported. */
  lemma {:induction false} ReportedSingle(dirs: seq<string>, fileExists: string -> bool, d: string)
    requires NoDuplicates(dirs)
    requires d in dirs && fileExists(LcovReportPath(d))
    requires forall x | x in dirs && fileExists(LcovReportPath(x)) :: x == d
    ensures Reported(dirs, fileExists) == [d]
  {
    var init := dirs[..|dirs| - 1];
    var last := dirs[|dirs| - 1];
    assert forall x | x in init :: x in dirs;
    assert NoDuplicates(init);
    if last == d {
      assert d !in init;
      forall x | x in init
        ensures !fileExists(LcovReportPath(x))
      {
      }
      ReportedNone(init, fileExists);
    } else {
      assert !fileExists(LcovReportPath(last));
      assert d in init;
      ReportedSingle(init, fileExists, d);
    }
  }

  /** When at most one candidate holds a report, scanning every candidate in
      one order (src/) and stopping at the first in another order (dist/)
      give the same exclusions and report path. */
  lemma SrcAndDistAgree(srcDirs: seq<string>, distDirs: seq<string>, fileExists: string -> bool,
                        m: Config, exclusions: string)
    requires NoDuplicates(srcDirs)
    requires forall d :: d in srcDirs <==> d in distDirs
    requires forall d1, d2 | d1 in srcDirs && d2 in srcDirs
               && fileExists(LcovReportPath(d1)) && fileExists(LcovReportPath(d2)) :: d1 == d2
    ensures m + CoverageParams(srcDirs, fileExists, exclusions)
            == FirstCoverage(m[ExclusionsKey := exclusions], distDirs, fileExists)
  {
    var first := FirstReported(distDirs, fileExists);
    if first.None? {
      assert Reported(srcDirs, fileExists) == [] by {
        forall x | x in srcDirs
          ensures !fileExists(LcovReportPath(x))
        {
          var k :| 0 <= k < |distDirs| && distDirs[k] == x;
        }
        ReportedNone(srcDirs, fileExists);
      }
      CoverageOfNone(srcDirs, fileExists, exclusions);
      assert m + map[ExclusionsKey := exclusions] == m[ExclusionsKey := exclusions];
    } else {
      var d := first.value;
      assert Reported(srcDirs, fileExists) == [d] by {
        assert d in srcDirs && fileExists(LcovReportPath(d)) by {
          var i :| 0 <= i < |distDirs| && distDirs[i] == d && fileExists(LcovReportPath(distDirs[i]));
        }
        ReportedSingle(srcDirs, fileExists, d);
      }
      CoverageOfSingle(srcDirs, fileExists, exclusions, d);
      OverlayTwoKeys(m, exclusions, ExclusionFor(d), LcovReportPath(d));
    }
  }

  /** Overlaying the two coverage keys is writing them one after the other. */
  lemma OverlayTwoKeys(m: Config, exclusions: string, suffix: string, report: string)
    ensures m + map[ExclusionsKey := exclusions + suffix, LcovReportPathsKey := report]
            == m[ExclusionsKey := exclusions][ExclusionsKey := exclusions + suffix][LcovReportPathsKey := report]
  {
    assert |ExclusionsKey| != |LcovReportPathsKey|;
  }

  /** The object is never null, even when every layer is empty; with a
      'sonar-project.properties' file and no other layer it is empty. */
  lemma PropertiesFileGivesEmptyObject(project: Project)
    requires project.fileExists(PropertiesFile)
    ensures DistResolution(CallParams("", "", map[]), project, None) == map[]
  {
  }

  /** Without a properties file, the defaults' sources and a prefix of the
      defaults' exclusions survive unless a later layer replaces them. */
  lemma DistBaseKeepsDefaults(project: Project)
    requires !project.fileExists(PropertiesFile)
    ensures var r := DistResolution(CallParams("", "", map[]), project, None);
            && r[SourcesKey] == "."
            && StartsWith(r[ExclusionsKey], DefaultExclusions)
  {
    var base := DistBase(project);
    var file := project.packageFile;
    if file.Manifest? && file.pkg.name.Some? {
      var pkg := file.pkg;
      var m := Defaults() + ManifestParams(pkg, Slugify(pkg.name.value), IssuesKey);
      ManifestKeepsDefaults(pkg, Slugify(pkg.name.value));
      var c := FirstCoverage(m, DistCoverageCandidates(pkg), project.fileExists);
      CoverageKeepsPrefix(m, DistCoverageCandidates(pkg), project.fileExists);
      assert base == SetIf(c, UsesXunitReport(pkg, project.fileExists), TestExecutionReportPathsKey, XunitReport);
      assert SourcesKey != TestExecutionReportPathsKey && ExclusionsKey != TestExecutionReportPathsKey;
    } else {
      assert base == Defaults();
    }
    assert DistResolution(CallParams("", "", map[]), project, None) == base;
  }

  /** The manifest's keys leave the default exclusions and sources alone. */
  lemma ManifestKeepsDefaults(pkg: Pkg, slug: string)
    requires pkg.name.Some?
    ensures var m := Defaults() + ManifestParams(pkg, slug, IssuesKey);
            m[ExclusionsKey] == DefaultExclusions && m[SourcesKey] == "."
  {
    ManifestOwnKeys(pkg, slug, IssuesKey);
  }

  /** The coverage scan keeps the sources and only extends the exclusions. */
  lemma CoverageKeepsPrefix(m: Config, dirs: seq<string>, fileExists: string -> bool)
    requires ExclusionsKey in m && SourcesKey in m
    ensures var c := FirstCoverage(m, dirs, fileExists);
            && ExclusionsKey in c && SourcesKey in c
            && c[SourcesKey] == m[SourcesKey] && StartsWith(c[ExclusionsKey], m[ExclusionsKey])
  {
    var c := FirstCoverage(m, dirs, fileExists);
    assert SourcesKey != LcovReportPathsKey && SourcesKey != ExclusionsKey;
    match FirstReported(dirs, fileExists)
    case None =>
      assert c[ExclusionsKey][..|m[ExclusionsKey]|] == m[ExclusionsKey];
    case Some(d) =>
      assert c[ExclusionsKey] == m[ExclusionsKey] + ExclusionFor(d);
      assert c[ExclusionsKey][..|m[ExclusionsKey]|] == m[ExclusionsKey];
  }
}
