/** The oldest resolver, deps/sonarqube-scanner-params.js: nine fixed keys
    filled from defaults, the call's `serverUrl` and `token`, and the
    manifest found in the working directory. The `slug` library is a
    parameter; a value the source may leave `undefined` (the manifest's
    version) is an `Option`. */
module LegacyScannerParams {
  import opened Wrappers
  import opened Text
  import opened ProjectModel
  import opened ScannerParams

  const DefaultServerUrl := "http://localhost:9000"
  const DefaultVersion := "1.0"
  const LegacyExclusions := "node_modules/**"

  /** A JavaScript object whose values are strings or `undefined` (None). */
  type JsRecord = map<string, Option<string>>

  /** The nine keys of the returned object. */
  function LegacyKeys(): set<string>
  {
    {HostUrlKey, LoginKey, ProjectKeyKey, ProjectNameKey, ProjectVersionKey,
     ProjectDescriptionKey, HomepageKey, SourcesKey, ExclusionsKey}
  }

  /** The local variables of `defineSonarQubeScannerParams`. */
  datatype Fields = Fields(serverUrl: string, token: string, projectKey: string, projectName: string,
                           projectVersion: Option<string>, projectDescription: string, projectHomePage: string)

  /** The object literal built from the local variables. */
  function Record(f: Fields): (r: JsRecord)
    ensures r.Keys == LegacyKeys()
    ensures r[SourcesKey] == Some(".") && r[ExclusionsKey] == Some(LegacyExclusions)
  {
    map[HostUrlKey := Some(f.serverUrl), LoginKey := Some(f.token), ProjectKeyKey := Some(f.projectKey),
        ProjectNameKey := Some(f.projectName), ProjectVersionKey := f.projectVersion,
        ProjectDescriptionKey := Some(f.projectDescription), HomepageKey := Some(f.projectHomePage),
        SourcesKey := Some("."), ExclusionsKey := Some(LegacyExclusions)]
  }

  /** The defaults, with `serverUrl` and `token` applied when truthy. */
  function InitialFields(params: CallParams, cwd: string, slug: string -> string): Fields
  {
    var key := slug(Basename(cwd));
    Fields(if params.serverUrl != "" then params.serverUrl else DefaultServerUrl,
           if params.token != "" then params.token else "",
           key, key, Some(DefaultVersion), DefaultDescription, "")
  }

  /** The manifest's name and version always replace the defaults; its
      description and homepage only when truthy. */
  function WithManifest(f: Fields, pkg: Pkg, slug: string -> string): Fields
    requires pkg.name.Some?
  {
    f.(projectKey := slug(pkg.name.value), projectName := pkg.name.value, projectVersion := pkg.version,
       projectDescription := if pkg.description != "" then pkg.description else f.projectDescription,
       projectHomePage := if pkg.homepage != "" then pkg.homepage else f.projectHomePage)
  }

  /** The `try` block throws: the manifest is missing or unreadable, or its
      name is not a string (`slug` throws). */
  predicate ReadFails(file: PackageFile)
  {
    file.Unreadable? || (file.Manifest? && file.pkg.name.None?)
  }

  /** The source as written: the `catch` block calls `log`, which the file
      never imports, so every failure of the `try` block escapes as a
      ReferenceError instead of falling back to the defaults. */
  function LegacyAsWritten(params: CallParams, cwd: string, file: PackageFile, slug: string -> string)
    : (r: Result<JsRecord>)
    ensures r.Err? <==> ReadFails(file)
  {
    var f := InitialFields(params, cwd, slug);
    match file
    case Unreadable(_) => Err("ReferenceError: log is not defined")
    case NullManifest => Ok(Record(f))
    case Manifest(pkg) =>
      if pkg.name.None? then Err("ReferenceError: log is not defined")
      else Ok(Record(WithManifest(f, pkg, slug)))
  }

  /** The evident intent ("remain on the defaults"): a failure of the `try`
      block leaves the defaults in place. */
  function LegacyResolution(params: CallParams, cwd: string, file: PackageFile, slug: string -> string): (r: JsRecord)
    ensures r.Keys == LegacyKeys()
    ensures ReadFails(file) || file.NullManifest? ==>
              && r[ProjectKeyKey] == Some(slug(Basename(cwd))) && r[ProjectNameKey] == r[ProjectKeyKey]
              && r[ProjectVersionKey] == Some(DefaultVersion) && r[ProjectDescriptionKey] == Some(DefaultDescription)
              && r[HomepageKey] == Some("")
  {
    var f := InitialFields(params, cwd, slug);
    if file.Manifest? && file.pkg.name.Some? then Record(WithManifest(f, file.pkg, slug)) else Record(f)
  }

  /** `defineSonarQubeScannerParams` with the fallback the comment promises:
      the local variables are overwritten step by step, then one object is
      built. */
  method DefineSonarQubeScannerParams(params: CallParams, cwd: string, file: PackageFile, slug: string -> string)
    returns (r: JsRecord)
    ensures r == LegacyResolution(params, cwd, file, slug)
  {
    var serverUrl := DefaultServerUrl;
    var token := "";
    var projectKey := slug(Basename(cwd));
    var projectName := projectKey;
    var projectVersion := Some(DefaultVersion);
    var projectDescription := DefaultDescription;
    var projectHomePage := "";
    if params.serverUrl != "" {
      serverUrl := params.serverUrl;
    }
    if params.token != "" {
      token := params.token;
    }
    if file.Manifest? && file.pkg.name.Some? {
      var pkg := file.pkg;
      projectKey := slug(pkg.name.value);
      projectName := pkg.name.value;
      projectVersion := pkg.version;
      if pkg.description != "" {
        projectDescription := pkg.description;
      }
      if pkg.homepage != "" {
        projectHomePage := pkg.homepage;
      }
    }
    r := Record(Fields(serverUrl, token, projectKey, projectName, projectVersion, projectDescription, projectHomePage));
  }

  // ---------------------------------------------------------------------
  // Properties

  /** Where the source does not throw, it computes the intended object. */
  lemma AsWrittenAgreesWhenReadable(params: CallParams, cwd: string, file: PackageFile, slug: string -> string)
    requires !ReadFails(file)
    ensures LegacyAsWritten(params, cwd, file, slug) == Ok(LegacyResolution(params, cwd, file, slug))
  {
  }

  /** A project without 'package.json' makes the source throw, where the
      intended result is the defaults. */
  lemma MissingManifestRaises(params: CallParams, cwd: string, slug: string -> string)
    ensures LegacyAsWritten(params, cwd, Unreadable("ENOENT"), slug).Err?
    ensures var r := LegacyResolution(params, cwd, Unreadable("ENOENT"), slug);
            && r[ProjectKeyKey] == Some(slug(Basename(cwd)))
            && r[ProjectNameKey] == r[ProjectKeyKey]
            && r[ProjectVersionKey] == Some(DefaultVersion)
            && r[ProjectDescriptionKey] == Some(DefaultDescription)
            && r[HomepageKey] == Some("")
  {
  }

  /** The object always has exactly the nine keys, with constant sources and
      exclusions; the server URL and the token are the caller's when truthy
      and the defaults otherwise. */
  lemma LegacyShape(params: CallParams, cwd: string, file: PackageFile, slug: string -> string)
    ensures var r := LegacyResolution(params, cwd, file, slug);
            && r.Keys == LegacyKeys()
            && r[SourcesKey] == Some(".") && r[ExclusionsKey] == Some(LegacyExclusions)
            && r[HostUrlKey] == Some(if params.serverUrl != "" then params.serverUrl else DefaultServerUrl)
            && r[LoginKey] == Some(params.token)
  {
  }

  /** With a named manifest, its name and version always win, and its
      description and homepage win when truthy. */
  lemma ManifestOverridesDefaults(params: CallParams, cwd: string, pkg: Pkg, slug: string -> string)
    requires pkg.name.Some?
    ensures var r := LegacyResolution(params, cwd, Manifest(pkg), slug);
            && r[ProjectKeyKey] == Some(slug(pkg.name.value))
            && r[ProjectNameKey] == Some(pkg.name.value)
            && r[ProjectVersionKey] == pkg.version
            && r[ProjectDescriptionKey] == Some(if pkg.description != "" then pkg.description else DefaultDescription)
            && r[HomepageKey] == Some(pkg.homepage)
  {
  }
}
