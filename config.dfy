/** The parameter builders of src/config.js: the environment-variable map
    handed to the scanner, the location and download parameters of the
    scanner executable, and the options for spawning it. The process
    environment, the platform string and the home directory are inputs. */
module ScannerConfig {
  import opened Wrappers
  import opened Text
  import opened Platform
  import opened Paths
  import opened UrlResolution
  import opened ProjectModel
  import opened ScannerParams

  const DefaultScannerVersion := "4.7.0.2747"
  /** 'https://binaries.sonarsource.com/Distribution/sonar-scanner-cli/', written by parts: as one
      literal, the URL parser would be unfolded on it character by character. */
  const ScannerMirror := "https" + "://" + "binaries.sonarsource.com" + "/Distribution/sonar-scanner-cli/"
  const ParamsVariable := "SONARQUBE_SCANNER_PARAMS"
  const OneMegabyte := 1024 * 1024

  /** The process environment. */
  type Env = map<string, string>

  /** `env[name]`, with an unset variable read as the falsy "". */
  function Lookup(env: Env, name: string): (v: string)
    ensures v != "" ==> name in env && env[name] == v
    ensures name in env ==> v == env[name]
  {
    if name in env then env[name] else ""
  }

  /** `c0 || c1 || ... || fallback`: the first truthy candidate, or the
      fallback when every candidate is falsy. */
  function FirstTruthy(candidates: seq<string>, fallback: string): (r: string)
    ensures (forall i | 0 <= i < |candidates| :: candidates[i] == "") ==> r == fallback
    ensures forall i | 0 <= i < |candidates| && candidates[i] != "" ::
              (forall j | 0 <= j < i :: candidates[j] == "") ==> r == candidates[i]
  {
    if candidates == [] then fallback
    else if candidates[0] != "" then candidates[0]
    else
      var r := FirstTruthy(candidates[1..], fallback);
      assert forall i | 1 <= i < |candidates| :: candidates[1..][i - 1] == candidates[i];
      r
  }

  // ---------------------------------------------------------------------
  // getScannerParams

  /** `getScannerParams`: the environment to add for the scanner, holding
      the serialised parameters under SONARQUBE_SCANNER_PARAMS when the
      resolver yields any, and nothing otherwise. */
  method GetScannerParams(params: CallParams, project: Project, env: Env,
                          parse: string -> Option<Config>, stringify: Config -> string)
    returns (r: Result<Config>)
    ensures var resolved := Resolution(params, project, Lookup(env, ParamsVariable), parse);
            && (r.Err? <==> resolved.Err?)
            && (r.Ok? && resolved.value.None? ==> r.value == map[])
            && (r.Ok? && resolved.value.Some? ==> r.value == map[ParamsVariable := stringify(resolved.value.value)])
  {
    var config: Config := map[];
    var sqScannerParams := DefineSonarScannerParams(params, project, Lookup(env, ParamsVariable), parse);
    if sqScannerParams.Err? {
      return Err(sqScannerParams.message);
    }
    if sqScannerParams.value.Some? {
      config := config[ParamsVariable := stringify(sqScannerParams.value.value)];
    }
    return Ok(config);
  }

  // ---------------------------------------------------------------------
  // getExecutableParams

  /** The optional `params` of `getExecutableParams`; "" is an absent field. */
  datatype ExecutableRequest = ExecutableRequest(version: string, basePath: string, baseUrl: string)

  /** An `HttpsProxyAgent`, known by the proxy URL it was built for. */
  datatype ProxyAgent = ProxyAgent(proxy: string)

  datatype HttpOptions = HttpOptions(httpRequestAgent: ProxyAgent, httpsRequestAgent: ProxyAgent)

  /** The `config` object `getExecutableParams` returns. */
  datatype ExecutableParams = ExecutableParams(
    targetOS: string,
    installFolder: string,
    platformExecutable: string,
    fileName: string,
    downloadUrl: string,
    httpOptions: Option<HttpOptions>)

  /** `params.version || SONAR_SCANNER_VERSION || npm_config_sonar_scanner_version || default` */
  function ScannerVersion(params: ExecutableRequest, env: Env): string
  {
    FirstTruthy([params.version, Lookup(env, "SONAR_SCANNER_VERSION"),
                 Lookup(env, "npm_config_sonar_scanner_version")], DefaultScannerVersion)
  }

  /** `params.basePath || SONAR_BINARY_CACHE || npm_config_sonar_binary_cache || os.homedir()` */
  function CacheBase(params: ExecutableRequest, env: Env, homedir: string): string
  {
    FirstTruthy([params.basePath, Lookup(env, "SONAR_BINARY_CACHE"),
                 Lookup(env, "npm_config_sonar_binary_cache")], homedir)
  }

  /** `params.baseUrl || SONAR_SCANNER_MIRROR || npm_config_sonar_scanner_mirror || default` */
  function MirrorUrl(params: ExecutableRequest, env: Env): string
  {
    FirstTruthy([params.baseUrl, Lookup(env, "SONAR_SCANNER_MIRROR"),
                 Lookup(env, "npm_config_sonar_scanner_mirror")], ScannerMirror)
  }

  /** The archive name 'sonar-scanner-cli-<version>-<os>.zip'. */
  function ArchiveName(version: string, os: TargetOS): string
  {
    "sonar-scanner-cli-" + version + "-" + OsName(os) + ".zip"
  }

  /** The proxy options: one agent, shared by http and https, exactly when
      `http_proxy` is set and non-empty. */
  function ProxyOptions(env: Env): (o: Option<HttpOptions>)
    ensures o.Some? <==> Lookup(env, "http_proxy") != ""
    ensures o.Some? ==> o.value.httpRequestAgent == o.value.httpsRequestAgent == ProxyAgent(env["http_proxy"])
  {
    var proxy := Lookup(env, "http_proxy");
    if proxy != "" then Some(HttpOptions(ProxyAgent(proxy), ProxyAgent(proxy))) else None
  }

  /** `getExecutableParams`: fills `config` field by field. It throws when
      the platform is unsupported (`findTargetOS`) and when the mirror is not
      a URL `new URL` accepts. */
  method GetExecutableParams(params: ExecutableRequest, env: Env, platform: string, homedir: string)
    returns (r: Result<ExecutableParams>)
    ensures FindTargetOS(platform).Err? ==> r == Err(UnsupportedPlatform(platform))
    ensures FindTargetOS(platform).Ok? ==>
              var os := FindTargetOS(platform).value;
              var version := ScannerVersion(params, env);
              var fileName := ArchiveName(version, os);
              var installFolder := BuildInstallFolderPath(CacheBase(params, env, homedir));
              && (r.Err? <==> Resolve(fileName, MirrorUrl(params, env)).Err?)
              && (r.Ok? ==>
                    && r.value.targetOS == OsName(os)
                    && r.value.installFolder == installFolder
                    && r.value.platformExecutable == BuildExecutablePath(installFolder, version, platform).value
                    && r.value.fileName == fileName
                    && r.value.downloadUrl == Resolve(fileName, MirrorUrl(params, env)).value
                    && r.value.httpOptions == ProxyOptions(env))
  {
    var platformBinariesVersion := FirstTruthy([params.version, Lookup(env, "SONAR_SCANNER_VERSION"),
                                                Lookup(env, "npm_config_sonar_scanner_version")], DefaultScannerVersion);
    var found := FindTargetOS(platform);
    if found.Err? {
      return Err(found.message);
    }
    var targetOS := OsName(found.value);
    var basePath := FirstTruthy([params.basePath, Lookup(env, "SONAR_BINARY_CACHE"),
                                 Lookup(env, "npm_config_sonar_binary_cache")], homedir);
    var installFolder := BuildInstallFolderPath(basePath);
    var platformExecutable := BuildExecutablePath(installFolder, platformBinariesVersion, platform).value;
    var baseUrl := FirstTruthy([params.baseUrl, Lookup(env, "SONAR_SCANNER_MIRROR"),
                                Lookup(env, "npm_config_sonar_scanner_mirror")], ScannerMirror);
    var fileName := "sonar-scanner-cli-" + platformBinariesVersion + "-" + targetOS + ".zip";
    var url := Resolve(fileName, baseUrl);
    if url.Err? {
      return Err(url.message);
    }
    var httpOptions: Option<HttpOptions> := None;
    var proxy := Lookup(env, "http_proxy");
    if proxy != "" {
      var proxyAgent := ProxyAgent(proxy);
      httpOptions := Some(HttpOptions(proxyAgent, proxyAgent));
    }
    return Ok(ExecutableParams(targetOS, installFolder, platformExecutable, fileName, url.value, httpOptions));
  }

  /** The version: the caller's, else SONAR_SCANNER_VERSION, else the npm
      configuration's, else 4.7.0.2747. */
  lemma VersionPrecedence(params: ExecutableRequest, env: Env)
    ensures params.version != "" ==> ScannerVersion(params, env) == params.version
    ensures params.version == "" && Lookup(env, "SONAR_SCANNER_VERSION") != "" ==>
              ScannerVersion(params, env) == env["SONAR_SCANNER_VERSION"]
    ensures params.version == "" && Lookup(env, "SONAR_SCANNER_VERSION") == ""
            && Lookup(env, "npm_config_sonar_scanner_version") != "" ==>
              ScannerVersion(params, env) == env["npm_config_sonar_scanner_version"]
    ensures params.version == "" && Lookup(env, "SONAR_SCANNER_VERSION") == ""
            && Lookup(env, "npm_config_sonar_scanner_version") == "" ==>
              ScannerVersion(params, env) == DefaultScannerVersion
  {
    var c := [params.version, Lookup(env, "SONAR_SCANNER_VERSION"), Lookup(env, "npm_config_sonar_scanner_version")];
    assert c[0] == params.version && c[1] == Lookup(env, "SONAR_SCANNER_VERSION");
    assert c[2] == Lookup(env, "npm_config_sonar_scanner_version");
  }

  /** The cache base: the caller's, else SONAR_BINARY_CACHE, else the npm
      configuration's, else the home directory; the install folder lies two
      segments below it. */
  lemma CacheBasePrecedence(params: ExecutableRequest, env: Env, homedir: string)
    ensures params.basePath != "" ==> CacheBase(params, env, homedir) == params.basePath
    ensures params.basePath == "" && Lookup(env, "SONAR_BINARY_CACHE") != "" ==>
              CacheBase(params, env, homedir) == env["SONAR_BINARY_CACHE"]
    ensures params.basePath == "" && Lookup(env, "SONAR_BINARY_CACHE") == ""
            && Lookup(env, "npm_config_sonar_binary_cache") != "" ==>
              CacheBase(params, env, homedir) == env["npm_config_sonar_binary_cache"]
    ensures params.basePath == "" && Lookup(env, "SONAR_BINARY_CACHE") == ""
            && Lookup(env, "npm_config_sonar_binary_cache") == "" ==>
              CacheBase(params, env, homedir) == homedir
  {
    var c := [params.basePath, Lookup(env, "SONAR_BINARY_CACHE"), Lookup(env, "npm_config_sonar_binary_cache")];
    assert c[0] == params.basePath && c[1] == Lookup(env, "SONAR_BINARY_CACHE");
    assert c[2] == Lookup(env, "npm_config_sonar_binary_cache");
  }

  /** The mirror: the caller's, else SONAR_SCANNER_MIRROR, else the npm
      configuration's, else the SonarSource distribution folder. */
  lemma MirrorPrecedence(params: ExecutableRequest, env: Env)
    ensures params.baseUrl != "" ==> MirrorUrl(params, env) == params.baseUrl
    ensures params.baseUrl == "" && Lookup(env, "SONAR_SCANNER_MIRROR") != "" ==>
              MirrorUrl(params, env) == env["SONAR_SCANNER_MIRROR"]
    ensures params.baseUrl == "" && Lookup(env, "SONAR_SCANNER_MIRROR") == ""
            && Lookup(env, "npm_config_sonar_scanner_mirror") != "" ==>
              MirrorUrl(params, env) == env["npm_config_sonar_scanner_mirror"]
    ensures params.baseUrl == "" && Lookup(env, "SONAR_SCANNER_MIRROR") == ""
            && Lookup(env, "npm_config_sonar_scanner_mirror") == "" ==>
              MirrorUrl(params, env) == ScannerMirror
  {
    var c := [params.baseUrl, Lookup(env, "SONAR_SCANNER_MIRROR"), Lookup(env, "npm_config_sonar_scanner_mirror")];
    assert c[0] == params.baseUrl && c[1] == Lookup(env, "SONAR_SCANNER_MIRROR");
    assert c[2] == Lookup(env, "npm_config_sonar_scanner_mirror");
  }

  /** Against the default mirror, the download URL is the mirror folder
      followed by the archive name. */
  lemma DefaultMirrorDownload(fileName: string)
    ensures Resolve(fileName, ScannerMirror) == Ok(ScannerMirror + fileName)
  {
    var dir := "/Distribution/sonar-scanner-cli/";
    assert Free("https", {':', '/', '?', '#'});
    assert Free("binaries.sonarsource.com", {'/', '?', '#'});
    assert Free(dir, {'?', '#'});
    assert ScannerMirror == "https" + "://" + "binaries.sonarsource.com" + dir + "";
    ResolveAgainstFolder("https", "binaries.sonarsource.com", dir, "", fileName);
  }

  // ---------------------------------------------------------------------
  // extendWithExecParams

  /** How the child process's standard streams are set up. */
  datatype Stdio = Inherit | Descriptors(fds: seq<int>)

  /** Options for spawning the scanner. */
  datatype ExecOptions = ExecOptions(env: Env, stdio: Stdio, maxBuffer: int)

  /** `extendWithExecParams`: the process environment overridden key by key
      by `env`, inherited streams and a one-megabyte output buffer. */
  function ExtendWithExecParams(processEnv: Env, env: Env): (o: ExecOptions)
    ensures o.env.Keys == processEnv.Keys + env.Keys
    ensures forall k | k in env :: o.env[k] == env[k]
    ensures forall k | k in processEnv && k !in env :: o.env[k] == processEnv[k]
    ensures o.stdio == Inherit && o.maxBuffer == 1048576
  {
    ExecOptions(processEnv + env, Inherit, OneMegabyte)
  }
}
