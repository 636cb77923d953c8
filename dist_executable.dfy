/** The executable helpers of dist/sonar-scanner-executable.js: the options
    for running the scanner, the cache folder, the executable's path and the
    "use it if it is there, download it otherwise" decision. The process
    environment, the platform, the home directory, the file system and the
    outcome of the download are inputs; the side effects the function
    would perform are returned as a list. */
module DistExecutable {
  import opened Wrappers
  import opened Text
  import opened Platform
  import opened Paths
  import opened UrlResolution
  import opened ProjectModel
  import opened ScannerParams
  import opened ScannerConfig
  import opened DistScannerParams

  /** SONAR_SCANNER_VERSION of this file, older than the one of src/config.js. */
  const DistScannerVersion := "4.5.0.2216"

  // ---------------------------------------------------------------------
  // prepareExecEnvironment

  /** The options `prepareExecEnvironment` returns: the environment
      variable is parsed when it is set and non-empty, the dist resolver
      runs on the result, and the process environment is copied with the
      serialised parameters in place of that one variable. */
  function PreparedOptions(params: CallParams, project: Project, processEnv: Env,
                           parse: string -> Option<Config>, stringify: Config -> string): Result<ExecOptions>
  {
    match EnvLayer(Lookup(processEnv, ParamsVariable), parse)
    case Err(e) => Err(e)
    case Ok(inherited) =>
      var resolved := DistResolution(params, project, Some(inherited));
      Ok(ExecOptions(processEnv + map[ParamsVariable := stringify(resolved)], Descriptors([0, 1, 2]), OneMegabyte))
  }

  /** Preparation fails exactly when the variable holds text that does not
      parse; otherwise only SONARQUBE_SCANNER_PARAMS differs from the
      process environment, it holds the serialised result of the resolver
      run on the parsed variable (an empty map when it is unset or empty),
      and the streams are descriptors 0, 1 and 2 with a one-megabyte
      buffer. */
  lemma PreparedEnvironment(params: CallParams, project: Project, processEnv: Env,
                            parse: string -> Option<Config>, stringify: Config -> string)
    ensures var r := PreparedOptions(params, project, processEnv, parse, stringify);
            && (r.Err? <==> Lookup(processEnv, ParamsVariable) != "" && parse(processEnv[ParamsVariable]).None?)
            && (r.Ok? ==>
                  var inherited := if Lookup(processEnv, ParamsVariable) == "" then map[]
                                   else parse(processEnv[ParamsVariable]).value;
                  && r.value.env.Keys == processEnv.Keys + {ParamsVariable}
                  && (forall k | k in processEnv && k != ParamsVariable :: r.value.env[k] == processEnv[k])
                  && r.value.env[ParamsVariable] == stringify(DistResolution(params, project, Some(inherited)))
                  && r.value.stdio == Descriptors([0, 1, 2])
                  && r.value.maxBuffer == 1048576)
  {
  }

  /** `prepareExecEnvironment`: parses the inherited parameters, runs the
      dist resolver, then extends an empty environment with the process
      environment and the new parameters. */
  method PrepareExecEnvironment(params: CallParams, project: Project, processEnv: Env,
                                parse: string -> Option<Config>, stringify: Config -> string)
    returns (r: Result<ExecOptions>)
    ensures r == PreparedOptions(params, project, processEnv, parse, stringify)
  {
    var processEnvParams: Config := map[];
    if Lookup(processEnv, ParamsVariable) != "" {
      var parsed := parse(processEnv[ParamsVariable]);
      if parsed.None? {
        return Err("SyntaxError: SONARQUBE_SCANNER_PARAMS is not valid JSON");
      }
      processEnvParams := parsed.value;
    }
    var sqScannerParams := DistScannerParams.DefineSonarScannerParams(params, project, Some(processEnvParams));
    assert processEnvParams == EnvLayer(Lookup(processEnv, ParamsVariable), parse).value;
    var mergedEnv: Env := map[];
    mergedEnv := mergedEnv + processEnv;
    assert mergedEnv == processEnv;
    mergedEnv := mergedEnv + map[ParamsVariable := stringify(sqScannerParams.entries)];
    return Ok(ExecOptions(mergedEnv, Descriptors([0, 1, 2]), OneMegabyte));
  }

  /** Resolving again from an already resolved map changes nothing: the
      base layer's keys are all present in it, and the call's `serverUrl`,
      `token` and `options` already have the last word. */
  lemma ResolutionIsStable(params: CallParams, project: Project, inherited: Config)
    ensures var once := DistResolution(params, project, Some(inherited));
            DistResolution(params, project, Some(once)) == once
  {
    var base := DistBase(project);
    var once := DistResolution(params, project, Some(inherited));
    assert base + once == once by {
      CallParamsPrecedence(base + inherited, params);
      assert base.Keys <= once.Keys;
    }
    ApplyCallParamsIdempotent(base + inherited, params);
  }

  /** When serialisation is never empty and parsing reads back what was
      serialised, the child process reads exactly the resolved map, and
      preparing the environment again from the prepared one yields the same
      options: a scanner started from a scanner's environment sees the same
      parameters. */
  lemma PreparationIsStable(params: CallParams, project: Project, processEnv: Env,
                            parse: string -> Option<Config>, stringify: Config -> string)
    requires forall c: Config :: stringify(c) != "" && parse(stringify(c)) == Some(c)
    requires PreparedOptions(params, project, processEnv, parse, stringify).Ok?
    ensures var first := PreparedOptions(params, project, processEnv, parse, stringify).value;
            var inherited := EnvLayer(Lookup(processEnv, ParamsVariable), parse).value;
            && parse(first.env[ParamsVariable]) == Some(DistResolution(params, project, Some(inherited)))
            && PreparedOptions(params, project, first.env, parse, stringify) == Ok(first)
  {
    var first := PreparedOptions(params, project, processEnv, parse, stringify).value;
    var inherited := EnvLayer(Lookup(processEnv, ParamsVariable), parse).value;
    var once := DistResolution(params, project, Some(inherited));
    assert first.env[ParamsVariable] == stringify(once);
    assert Lookup(first.env, ParamsVariable) == stringify(once);
    assert EnvLayer(stringify(once), parse) == Ok(once);
    ResolutionIsStable(params, project, inherited);
    assert first.env + map[ParamsVariable := stringify(once)] == first.env;
  }

  // ---------------------------------------------------------------------
  // getInstallFolderPath and the executable's location

  /** `SONAR_BINARY_CACHE || npm_config_sonar_binary_cache || os.homedir()` */
  function DistCacheBase(env: Env, homedir: string): string
  {
    FirstTruthy([Lookup(env, "SONAR_BINARY_CACHE"), Lookup(env, "npm_config_sonar_binary_cache")], homedir)
  }

  /** `getInstallFolderPath` */
  function GetInstallFolderPath(env: Env, homedir: string): string
  {
    BuildInstallFolderPath(DistCacheBase(env, homedir))
  }

  /** `SONAR_SCANNER_VERSION || npm_config_sonar_scanner_version || '4.5.0.2216'` */
  function DistVersion(env: Env): string
  {
    FirstTruthy([Lookup(env, "SONAR_SCANNER_VERSION"), Lookup(env, "npm_config_sonar_scanner_version")],
                DistScannerVersion)
  }

  /** `SONAR_SCANNER_MIRROR || npm_config_sonar_scanner_mirror || SONAR_SCANNER_MIRROR` */
  function DistMirror(env: Env): string
  {
    FirstTruthy([Lookup(env, "SONAR_SCANNER_MIRROR"), Lookup(env, "npm_config_sonar_scanner_mirror")],
                ScannerMirror)
  }

  /** The download URL: the base URL and the archive name, concatenated. */
  function DistDownloadUrl(env: Env, os: TargetOS): string
  {
    DistMirror(env) + ArchiveName(DistVersion(env), os)
  }

  /** The cache folder: SONAR_BINARY_CACHE, else the npm configuration's,
      else the home directory, followed by '.sonar/native-sonar-scanner';
      it is the folder src/config.js computes for a caller without a base
      path. */
  lemma InstallFolderPrecedence(env: Env, homedir: string, request: ExecutableRequest)
    requires request.basePath == ""
    ensures Lookup(env, "SONAR_BINARY_CACHE") != "" ==>
              GetInstallFolderPath(env, homedir) == BuildInstallFolderPath(env["SONAR_BINARY_CACHE"])
    ensures Lookup(env, "SONAR_BINARY_CACHE") == "" && Lookup(env, "npm_config_sonar_binary_cache") != "" ==>
              GetInstallFolderPath(env, homedir) == BuildInstallFolderPath(env["npm_config_sonar_binary_cache"])
    ensures Lookup(env, "SONAR_BINARY_CACHE") == "" && Lookup(env, "npm_config_sonar_binary_cache") == "" ==>
              GetInstallFolderPath(env, homedir) == BuildInstallFolderPath(homedir)
    ensures GetInstallFolderPath(env, homedir) == BuildInstallFolderPath(CacheBase(request, env, homedir))
  {
    var c := [Lookup(env, "SONAR_BINARY_CACHE"), Lookup(env, "npm_config_sonar_binary_cache")];
    assert c[0] == Lookup(env, "SONAR_BINARY_CACHE") && c[1] == Lookup(env, "npm_config_sonar_binary_cache");
    CacheBasePrecedence(request, env, homedir);
  }

  /** The version: SONAR_SCANNER_VERSION, else the npm configuration's, else
      4.5.0.2216; it agrees with src/config.js except for that default. */
  lemma DistVersionPrecedence(env: Env, request: ExecutableRequest)
    requires request.version == ""
    ensures Lookup(env, "SONAR_SCANNER_VERSION") != "" ==> DistVersion(env) == env["SONAR_SCANNER_VERSION"]
    ensures Lookup(env, "SONAR_SCANNER_VERSION") == "" && Lookup(env, "npm_config_sonar_scanner_version") != "" ==>
              DistVersion(env) == env["npm_config_sonar_scanner_version"]
    ensures Lookup(env, "SONAR_SCANNER_VERSION") == "" && Lookup(env, "npm_config_sonar_scanner_version") == "" ==>
              DistVersion(env) == DistScannerVersion
    ensures Lookup(env, "SONAR_SCANNER_VERSION") != "" || Lookup(env, "npm_config_sonar_scanner_version") != "" ==>
              DistVersion(env) == ScannerVersion(request, env)
  {
    var c := [Lookup(env, "SONAR_SCANNER_VERSION"), Lookup(env, "npm_config_sonar_scanner_version")];
    assert c[0] == Lookup(env, "SONAR_SCANNER_VERSION") && c[1] == Lookup(env, "npm_config_sonar_scanner_version");
    VersionPrecedence(request, env);
  }

  /** On the default mirror, the plain concatenation of this file gives the
      URL that src/config.js obtains by URL resolution. */
  lemma DownloadUrlsAgreeOnDefaultMirror(env: Env, os: TargetOS, request: ExecutableRequest)
    requires request.baseUrl == ""
    requires Lookup(env, "SONAR_SCANNER_MIRROR") == "" && Lookup(env, "npm_config_sonar_scanner_mirror") == ""
    ensures DistMirror(env) == ScannerMirror
    ensures Resolve(ArchiveName(DistVersion(env), os), MirrorUrl(request, env)) == Ok(DistDownloadUrl(env, os))
  {
    MirrorPrecedence(request, env);
    DefaultMirrorDownload(ArchiveName(DistVersion(env), os));
  }

  // ---------------------------------------------------------------------
  // getSonarScannerExecutable

  /** A side effect of `getSonarScannerExecutable`. */
  datatype Effect =
    | CreateFolder(folder: string)
    | Download(url: string, folder: string)
    | PassExecutable(path: string)

  /** The effects `getSonarScannerExecutable` performs, in order, or the
      error `findTargetOS` throws. `fileExists` stands for `fs.accessSync`
      and `downloadSucceeds` for the outcome of the download promise. */
  function ExecutableEffects(env: Env, platform: string, homedir: string,
                             fileExists: string -> bool, downloadSucceeds: bool): (r: Result<seq<Effect>>)
    ensures r.Err? <==> FindTargetOS(platform).Err?
    ensures r.Ok? ==> forall i | 0 <= i < |r.value| && r.value[i].PassExecutable? :: i == |r.value| - 1
    ensures r.Ok? ==> forall i | 0 <= i < |r.value| && r.value[i].Download? :: 0 < i && r.value[i - 1].CreateFolder?
  {
    match FindTargetOS(platform)
    case Err(e) => Err(e)
    case Ok(os) =>
      var installFolder := GetInstallFolderPath(env, homedir);
      var path := BuildExecutablePath(installFolder, DistVersion(env), platform).value;
      if fileExists(path) then Ok([PassExecutable(path)])
      else Ok([CreateFolder(installFolder), Download(DistDownloadUrl(env, os), installFolder)]
              + (if downloadSucceeds then [PassExecutable(path)] else []))
  }

  /** `getSonarScannerExecutable`: looks for the executable first, and only
      when it is missing creates the cache folder and downloads the archive;
      the callback is called after a successful download only. */
  method GetSonarScannerExecutable(env: Env, platform: string, homedir: string,
                                   fileExists: string -> bool, downloadSucceeds: bool)
    returns (r: Result<seq<Effect>>)
    ensures r == ExecutableEffects(env, platform, homedir, fileExists, downloadSucceeds)
  {
    var effects: seq<Effect> := [];
    var platformBinariesVersion := FirstTruthy([Lookup(env, "SONAR_SCANNER_VERSION"),
                                                Lookup(env, "npm_config_sonar_scanner_version")], DistScannerVersion);
    var found := FindTargetOS(platform);
    if found.Err? {
      return Err(found.message);
    }
    var targetOS := OsName(found.value);
    var installFolder := GetInstallFolderPath(env, homedir);
    var platformExecutable := BuildExecutablePath(installFolder, platformBinariesVersion, platform).value;
    assert platformBinariesVersion == DistVersion(env);
    var executableFound := false;
    if fileExists(platformExecutable) {
      executableFound := true;
    }
    if executableFound {
      effects := effects + [PassExecutable(platformExecutable)];
      assert effects == [PassExecutable(platformExecutable)];
      return Ok(effects);
    }
    effects := effects + [CreateFolder(installFolder)];
    var baseUrl := FirstTruthy([Lookup(env, "SONAR_SCANNER_MIRROR"),
                                Lookup(env, "npm_config_sonar_scanner_mirror")], ScannerMirror);
    var fileName := "sonar-scanner-cli-" + platformBinariesVersion + "-" + targetOS + ".zip";
    var downloadUrl := baseUrl + fileName;
    assert downloadUrl == DistDownloadUrl(env, found.value);
    effects := effects + [Download(downloadUrl, installFolder)];
    assert effects == [CreateFolder(installFolder), Download(downloadUrl, installFolder)];
    if downloadSucceeds {
      effects := effects + [PassExecutable(platformExecutable)];
    }
    assert !fileExists(platformExecutable);
    assert effects == [CreateFolder(installFolder), Download(downloadUrl, installFolder)]
                      + (if downloadSucceeds then [PassExecutable(platformExecutable)] else []);
    return Ok(effects);
  }

  /** The executable's path for a supported platform. */
  function DistExecutablePath(env: Env, platform: string, homedir: string): string
    requires FindTargetOS(platform).Ok?
  {
    BuildExecutablePath(GetInstallFolderPath(env, homedir), DistVersion(env), platform).value
  }

  /** An unsupported platform throws before anything is done. */
  lemma UnsupportedPlatformThrows(env: Env, platform: string, homedir: string,
                                  fileExists: string -> bool, downloadSucceeds: bool)
    ensures ExecutableEffects(env, platform, homedir, fileExists, downloadSucceeds).Err? <==>
              FindTargetOS(platform).Err?
    ensures FindTargetOS(platform).Err? ==>
              ExecutableEffects(env, platform, homedir, fileExists, downloadSucceeds) == Err(UnsupportedPlatform(platform))
  {
  }

  /** When the executable exists, the callback receives its path and
      nothing is created or downloaded. */
  lemma FoundMeansNoDownload(env: Env, platform: string, homedir: string,
                             fileExists: string -> bool, downloadSucceeds: bool)
    requires FindTargetOS(platform).Ok?
    requires fileExists(DistExecutablePath(env, platform, homedir))
    ensures var effects := ExecutableEffects(env, platform, homedir, fileExists, downloadSucceeds).value;
            && effects == [PassExecutable(DistExecutablePath(env, platform, homedir))]
            && forall e | e in effects :: !e.Download? && !e.CreateFolder?
  {
  }

  /** When it is missing, the cache folder is created, the archive is
      downloaded into it from the mirror, and the callback follows only a
      successful download. */
  lemma MissingMeansDownload(env: Env, platform: string, homedir: string,
                             fileExists: string -> bool, downloadSucceeds: bool)
    requires FindTargetOS(platform).Ok?
    requires !fileExists(DistExecutablePath(env, platform, homedir))
    ensures var folder := GetInstallFolderPath(env, homedir);
            ExecutableEffects(env, platform, homedir, fileExists, downloadSucceeds).value
              == [CreateFolder(folder), Download(DistDownloadUrl(env, FindTargetOS(platform).value), folder)]
                 + (if downloadSucceeds then [PassExecutable(DistExecutablePath(env, platform, homedir))] else [])
  {
  }

  /** The callback is called at most once, always with the executable's
      path, and exactly when the executable was there or the download
      succeeded; a failed download never reaches it. */
  lemma CallbackOnlyWithExecutable(env: Env, platform: string, homedir: string,
                                   fileExists: string -> bool, downloadSucceeds: bool, p: string)
    requires FindTargetOS(platform).Ok?
    ensures var effects := ExecutableEffects(env, platform, homedir, fileExists, downloadSucceeds).value;
            var path := DistExecutablePath(env, platform, homedir);
            && (PassExecutable(p) in effects <==>
                  p == path && (fileExists(path) || downloadSucceeds))
            && (forall i, j | 0 <= i < j < |effects| :: !(effects[i].PassExecutable? && effects[j].PassExecutable?))
  {
    var path := DistExecutablePath(env, platform, homedir);
    if fileExists(path) {
      FoundMeansNoDownload(env, platform, homedir, fileExists, downloadSucceeds);
    } else {
      MissingMeansDownload(env, platform, homedir, fileExists, downloadSucceeds);
    }
  }
}
