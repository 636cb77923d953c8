# sonar-scanner-npm: parameter resolution and executable location, in Dafny

This project models the deterministic core of the SonarScanner npm module and
proves properties of it. The model covers three parts.

- **The scanner-parameter resolvers.** Each builds the flat
  string-to-string map handed to the scanner in layers, each layer overriding
  the one before:
  - defaults, skipped when 'sonar-project.properties' exists;
  - the keys derived from 'package.json', with the coverage-directory scan;
  - the SONARQUBE_SCANNER_PARAMS map;
  - `serverUrl` and `token`;
  - the caller's `options`.

  There are three variants:
  - src/sonar-scanner-params.js (`ScannerParams`): scans every candidate and returns the map, or null when it is empty;
  - dist/sonar-scanner-params.js and dist/sonarqube-scanner-params.js (`DistScannerParams`): fill one object in place, stop at the first coverage directory with a report, and always return the object;
  - deps/sonarqube-scanner-params.js (`LegacyScannerParams`): nine fixed keys.
- **The executable-location rules.**
  - `Platform`: platform detection.
  - `Paths`: install-folder and executable paths.
  - `ScannerConfig`: the precedence chains for version, cache base and mirror; the archive name and download URL, where `UrlResolution` is the URL resolution of section 5.2 of RFC 3986; the proxy options and the spawn options.
  - `DistExecutable`: from dist/sonar-scanner-executable.js, the preparation of the child-process environment and the "use the executable if it is there, download it otherwise" decision. The latter is modelled as the list of side effects it performs.
- **Three helpers of the test orchestrator** (`Orchestrator`): the SonarQube launcher path per platform, the resumable scan of the server log for the "operational" line, and the random project-identifier generator.

The file system, the parsed 'package.json', the process environment, the
platform string, the home directory and the values `Math.random` returns are
inputs. `JSON.parse`, `JSON.stringify` and the `slug` package are
function-typed parameters. Reading files, downloading, spawning processes,
logging and timers are outside the model.

Some choices follow the code where it differs from its documentation:

- The src resolver parses the SONARQUBE_SCANNER_PARAMS text and returns
  serialised text or null (src/sonar-scanner-params.js:91-114). Its unit tests
  (test/unit/sonar-scanner-params.test.js) compare the result with objects,
  and expect `{}` rather than null when a properties file exists. The model
  returns the map before serialisation, and None for null.
- The dist resolver receives the environment map already parsed
  (dist/sonar-scanner-executable.js:34-38).
- The dist executable concatenates the mirror and the archive name rather
  than resolving one against the other (dist/sonar-scanner-executable.js:99-101).

## Model

| member | source | states |
|---|---|---|
| ScannerParams.Defaults | src/sonar-scanner-params.js:70-75 | The default layer has exactly the description 'No description.', the sources '.' and the five-glob exclusion list. |
| ScannerParams.CoverageCandidates | src/sonar-scanner-params.js:159-172 | The candidates hold no duplicates, always include 'coverage', number at most three, and are exactly 'coverage' and the truthy nyc and jest directories. |
| ScannerParams.CoverageCandidatesOrder | src/sonar-scanner-params.js:159-172 | The candidates are, in this order: nyc's 'report-dir' when set; jest's 'coverageDirectory' when set and different; 'coverage' unless one of the two already is 'coverage'. |
| ScannerParams.ReportedMembers | src/sonar-scanner-params.js:174-182 | The directories the scan reports are exactly the candidates whose 'lcov.info' exists, each once. |
| ScannerParams.CoverageParams | src/sonar-scanner-params.js:173-182 | The scan always sets the exclusions, starting with the exclusions it was given, and sets no key other than the exclusions and the report path. |
| ScannerParams.CoverageReport | src/sonar-scanner-params.js:174-182 | A report path is set iff some candidate holds an 'lcov.info'. It is then the report of the last such candidate: no later candidate holds one. |
| ScannerParams.LastReported | src/sonar-scanner-params.js:174-182 | The last directory the scan reports is a candidate with an 'lcov.info', and no later candidate has one. |
| ScannerParams.ScannedIsDeclarative | src/sonar-scanner-params.js:174-182 | The loop's step-by-step exclusions and report path equal the declarative ones: one `,<dir>/**` per reporting directory in order, and the last reporting directory's report. |
| ScannerParams.ScanCoverage | src/sonar-scanner-params.js:173-182 | The `for` loop leaves the map overlaid with exactly the declarative coverage keys. |
| ScannerParams.CopyManifestFields | src/sonar-scanner-params.js:140-157 | Copying the fields one by one yields the manifest layer. |
| ScannerParams.ManifestOwnKeys | src/sonar-scanner-params.js:140-157 | The manifest's own fields produce only the key, name, version, description, homepage, issue and scm keys. |
| ScannerParams.ManifestFields | src/sonar-scanner-params.js:140-157 | The key is the slug and the name is the name. The version is present exactly when the manifest defines one, with its value. The description, homepage, issue link and scm link are present exactly when truthy. |
| ScannerParams.ExtractInfoFromPackageFile | src/sonar-scanner-params.js:126-191 | Extraction throws on an unreadable manifest or a missing name, yields nothing for a null manifest, and otherwise yields the manifest keys, the coverage keys and the xunit key. |
| ScannerParams.ExtractedKeys | src/sonar-scanner-params.js:126-191 | What the manifest yields never sets the sources and only extends the exclusions it is given. |
| ScannerParams.PackageParamsFields | src/sonar-scanner-params.js:140-145 | After the coverage and xunit steps the key, name, version and description are still the manifest's, and the xunit report path is set iff the reporter is a dependency and 'xunit.xml' exists. |
| ScannerParams.PackageParamsReport | src/sonar-scanner-params.js:159-182 | What a manifest yields has a report path iff one of its candidate directories holds an 'lcov.info'. |
| ProjectModel.DependenceExists | src/sonar-scanner-params.js:135-139 | A package is a dependency iff it is in the dev, regular or peer dependencies. |
| Text.Join | src/utils/paths.js:13-15 | `path.join` of two parts skips an empty part and otherwise puts exactly one '/' between them. |
| Text.SplitJoin | src/utils/paths.js:13-15 | The segments of a joined path are the segments of the first part followed by those of the second. |
| ProjectModel.Truthy | src/sonar-scanner-params.js:162-167 | `filter(Boolean)` keeps exactly the non-empty strings and never lengthens the list. |
| ProjectModel.Dedup | src/sonar-scanner-params.js:172 | Deduplication keeps every element once, loses none, and keeps the first one first. |
| ProjectModel.DedupOrder | src/sonar-scanner-params.js:172 | The kept elements appear in the order of their first occurrences in the input, as `Array.from(new Set(...))` and lodash `uniq` return them. |
| ProjectModel.CandidatesInOrder | src/sonar-scanner-params.js:159-172 | Deduplicating the truthy of `a` and `b` followed by 'coverage' gives `a` when set, then `b` when set and different from `a`, then 'coverage' unless `a` or `b` is already 'coverage'. |
| ProjectModel.Slugify | src/sonar-scanner-params.js:141-143 | The key holds no character of `invalidCharacterRegex`. |
| ProjectModel.SlugifyChars | src/sonar-scanner-params.js:141-143 | The key keeps exactly the characters of the name outside `invalidCharacterRegex`, and is no longer than the name. |
| ProjectModel.SlugifyIdempotent | src/sonar-scanner-params.js:141-143 | Slugifying a key again changes nothing. |
| ProjectModel.SlugifyKeepsValidNames | src/sonar-scanner-params.js:141-143 | A name without invalid characters is its own key. |
| ProjectModel.SlugifyAppend | src/sonar-scanner-params.js:141-143 | Slugifying distributes over concatenation. |
| ProjectModel.ScopedName | src/sonar-scanner-params.js:141-143 | For a scope and a name without invalid characters, '@scope/name' gives the key 'scopename'. |
| ScannerParams.BaseLayer | src/sonar-scanner-params.js:64-88 | With a properties file the base is empty. Otherwise it has the default keys, the sources '.', and exclusions that start with the default list. When extraction throws (no readable manifest, or no name), the base is exactly the defaults. |
| ScannerParams.EnvLayer | src/sonar-scanner-params.js:91-97 | The environment layer fails iff the variable is non-empty and does not parse, and otherwise is the parsed map. |
| ScannerParams.ApplyCallParams | src/sonar-scanner-params.js:99-108 | Every option prevails over the lower layers. A lower-layer key that no option sets keeps its value, and so do the server URL and login keys when `serverUrl` or `token` is falsy. The keys are those of the lower layers and the options, plus the server URL and login keys when `serverUrl` or `token` is truthy. |
| ScannerParams.CallParamsPrecedence | src/sonar-scanner-params.js:99-108 | `options` override everything. A truthy `serverUrl` or `token` overrides the lower layers. Every other lower-layer key keeps its value, including the server URL and login keys when `serverUrl` or `token` is falsy. The keys are exactly the union. |
| ScannerParams.ApplyCallParamsIdempotent | src/sonar-scanner-params.js:99-108 | Applying the call parameters twice is applying them once. |
| ScannerParams.Resolution | src/sonar-scanner-params.js:62-115 | The resolver throws iff the environment text does not parse. The result is null iff the final layered map is empty, so never without a properties file. Every option appears with its value. Every key of the SONARQUBE_SCANNER_PARAMS map keeps its value over the defaults and the manifest keys, unless an option sets it or a truthy `serverUrl` or `token` sets the server URL or login key. |
| ScannerParams.DefineSonarScannerParams | src/sonar-scanner-params.js:62-115 | The layer-by-layer method computes the resolution. |
| ScannerParams.PropertiesFileSkipsManifest | src/sonar-scanner-params.js:64-69 | With a properties file the manifest plays no part, and with no other layer the result is null. |
| ScannerParams.DefaultsWithoutManifest | src/sonar-scanner-params.js:77-87 | An unreadable manifest leaves the defaults, under the environment and call layers, and raises nothing. |
| ScannerParams.BasicCoverage | src/sonar-scanner-params.js:173-182 | A report under 'coverage' appends ',coverage/**' and sets 'coverage/lcov.info'. |
| ScannerParams.BasicManifest | src/sonar-scanner-params.js:126-191 | A manifest with a valid name and a version yields the key, the name, the version and the 'coverage' keys. |
| ScannerParams.BasicProjectExample | src/sonar-scanner-params.js:62-115 | The basic project resolves to exactly seven keys: key, name, default description, version, sources, extended exclusions and report path. |
| Platform.FindTargetOS | src/utils/platform.js:20-46 | Each OS is returned iff its prefix test holds. An error naming the platform is returned iff none holds. The copy at dist/sonar-scanner-executable.js:149-160 has the same tests, order and message. |
| Platform.PrefixesDisjoint | src/utils/platform.js:20-30 | At most one of the three prefix tests holds. |
| Platform.TestPlatforms | src/utils/platform.js:35-46 | 'windows10', 'darwin' and 'linux' give windows, macosx and linux; 'non-existing-os' throws. |
| Paths.GetBinaryExtension | src/utils/paths.js:17-23 | The extension is '.bat' iff the platform is Windows, and empty iff it is not. |
| Paths.InstallFolderText | src/utils/paths.js:13-15 | The install folder is '<base>/.sonar/native-sonar-scanner'. |
| Paths.InstallFolderSegments | src/utils/paths.js:13-15 | The install folder adds exactly the segments '.sonar' and 'native-sonar-scanner' to the base path. |
| Paths.BuildExecutablePath | src/utils/paths.js:4-11 | Building the path throws, with the platform error, iff the platform is unsupported. |
| Paths.ExecutablePathShape | src/utils/paths.js:4-11 | A non-empty install folder followed by '/' is a prefix of the path. Its segments are the folder's, then those of 'sonar-scanner-<version>-<os>', then 'bin', then 'sonar-scanner[.bat]'. |
| Paths.BinIsParentFolder | src/utils/paths.js:4-11 | 'bin' is the second-to-last segment and 'sonar-scanner[.bat]' the last. |
| ScannerConfig.FirstTruthy | src/config.js:73-77 | An `a \|\| b \|\| c \|\| d` chain yields the first truthy candidate, or the fallback when all are falsy. |
| ScannerConfig.GetScannerParams | src/config.js:44-59 | The result fails iff the resolver throws. It is `{}` when the resolver yields null, and otherwise exactly `{SONARQUBE_SCANNER_PARAMS: <serialised map>}`. |
| ScannerConfig.VersionPrecedence | src/config.js:73-77 | The version is the caller's, then SONAR_SCANNER_VERSION, then the npm configuration's, then '4.7.0.2747'. |
| ScannerConfig.CacheBasePrecedence | src/config.js:81-84 | The cache base is the caller's, then SONAR_BINARY_CACHE, then the npm configuration's, then the home directory. |
| ScannerConfig.MirrorPrecedence | src/config.js:87-91 | The mirror is the caller's, then SONAR_SCANNER_MIRROR, then the npm configuration's, then the SonarSource folder. |
| ScannerConfig.ProxyOptions | src/config.js:96-103 | Proxy options exist iff `http_proxy` is non-empty, and then http and https share one agent for that proxy. |
| ScannerConfig.GetExecutableParams | src/config.js:69-107 | Throws with the platform error on an unsupported platform, and throws iff the mirror is not of the form `scheme://authority...`. Otherwise the OS name, install folder, executable path, archive name, resolved download URL and proxy options are as specified. |
| ScannerConfig.DefaultMirrorDownload | src/config.js:87-94 | Against the default mirror, the download URL is the mirror followed by the archive name. |
| ScannerConfig.ExtendWithExecParams | src/config.js:115-126 | The environment is the process environment overridden key by key by the argument; streams are inherited and the buffer is 1048576. |
| UrlResolution.Resolve | src/config.js:94 | Resolution fails iff the base is not `scheme://authority...`, and the URL then starts with `scheme://authority/`. |
| UrlResolution.ParseWellFormed | src/config.js:94 | A base `scheme://authority[path]` parses back into exactly those parts. |
| UrlResolution.ResolveAgainstFolder | src/config.js:94 | Against `scheme://authority/dir/last`, the reference replaces the last segment: a mirror ending in '/' is extended. |
| UrlResolution.ResolveAgainstHost | src/config.js:94 | Against `scheme://authority`, the reference becomes `/ref`. |
| DistScannerParams.ParamsObject.constructor | dist/sonar-scanner-params.js:20 | The object starts empty. |
| DistScannerParams.ParamsObject.Extend | dist/sonar-scanner-params.js:43-46 | `extend` copies every key of its argument over the object. |
| DistScannerParams.ParamsObject.Put | dist/sonar-scanner-params.js:49-54 | An assignment sets one key and changes nothing else. |
| DistScannerParams.DistCoverageCandidates | dist/sonar-scanner-params.js:93-109 | The candidates hold no duplicates, include 'coverage', and are exactly 'coverage' and the truthy jest and nyc directories. |
| DistScannerParams.DistCoverageCandidatesOrder | dist/sonar-scanner-params.js:93-109 | The candidates are, in this order: jest's 'coverageDirectory' when set; nyc's 'report-dir' when set and different; 'coverage' unless one of the two already is 'coverage'. |
| DistScannerParams.DistResolution | dist/sonar-scanner-params.js:43-59 | The options prevail. A truthy `serverUrl` or `token` prevails unless an option sets the same key. A key of the environment map that no option sets keeps its value from the environment, including the server URL and login keys when `serverUrl` or `token` is falsy. |
| DistScannerParams.FirstReported | dist/sonar-scanner-params.js:110-119 | `find` stops at the first candidate with an 'lcov.info', and finds none iff no candidate has one. |
| DistScannerParams.ScanFirstCoverage | dist/sonar-scanner-params.js:110-119 | The loop writes the first reporting directory's exclusion and report path in place, and nothing else. |
| DistScannerParams.FirstCoverageKeys | dist/sonar-scanner-params.js:110-119 | At most one exclusion is appended; without a reporting directory the object is unchanged. |
| DistScannerParams.WriteManifest | dist/sonar-scanner-params.js:74-91 | The field-by-field writes overlay the manifest layer, with the issue link under 'sonar.links.issues'. |
| DistScannerParams.DistExtractedFields | dist/sonar-scanner-params.js:74-124 | The issue link is written under 'sonar.links.issues' iff `bugs.url` is truthy, with that value, and 'sonar.links.issue' is never written. The xunit report path is written iff 'mocha-sonarqube-reporter' is a dependency and 'xunit.xml' exists. |
| DistScannerParams.ExtractInfoFromPackageFile | dist/sonar-scanner-params.js:62-127 | The method throws iff the manifest is unreadable or unnamed, and then writes nothing; otherwise it writes exactly what the manifest yields. |
| DistScannerParams.DefineSonarScannerParams | dist/sonar-scanner-params.js:18-60 | A fresh object holds the layered result, and it is always returned. |
| DistScannerParams.DefineSonarQubeScannerParams | dist/sonarqube-scanner-params.js:18-60 | The copy under the older name computes the same result. |
| DistScannerParams.PropertiesFileGivesEmptyObject | dist/sonar-scanner-params.js:20-24 | With a properties file and no other layer, the empty object is returned, never null. |
| DistScannerParams.DistBaseKeepsDefaults | dist/sonar-scanner-params.js:25-41 | Without a properties file the sources stay '.', and the default exclusions stay a prefix, whether or not extraction fails. |
| DistScannerParams.SrcAndDistAgree | dist/sonar-scanner-params.js:93-119 | When at most one candidate holds a report, the dist first-match scan and the src scan-all give the same keys. |
| LegacyScannerParams.Record | deps/sonarqube-scanner-params.js:54-64 | The object has exactly the nine keys, with sources '.' and exclusions 'node_modules/**'. |
| LegacyScannerParams.LegacyAsWritten | deps/sonarqube-scanner-params.js:33-52 | As written, the resolver throws iff the `try` block fails: the manifest is missing or unreadable, or its name is not a string. |
| LegacyScannerParams.LegacyResolution | deps/sonarqube-scanner-params.js:13-67 | The object has exactly the nine keys. When 'package.json' is missing, unreadable, nameless or `null`, the key and name are the slug of the folder name, and the version, description and homepage are '1.0', 'No description.' and ''. |
| LegacyScannerParams.AsWrittenAgreesWhenReadable | deps/sonarqube-scanner-params.js:34-48 | When the manifest can be read, the code as written computes the intended object. |
| LegacyScannerParams.MissingManifestRaises | deps/sonarqube-scanner-params.js:49-52 | A missing manifest throws. The intended result has the key from the folder name, the name equal to the key, version '1.0', 'No description.' and an empty homepage. |
| LegacyScannerParams.DefineSonarQubeScannerParams | deps/sonarqube-scanner-params.js:13-67 | The method that overwrites local variables computes the intended object. |
| LegacyScannerParams.LegacyShape | deps/sonarqube-scanner-params.js:17-31 | There are always nine keys. The host is `serverUrl` when truthy and 'http://localhost:9000' otherwise; the login is the token. |
| LegacyScannerParams.ManifestOverridesDefaults | deps/sonarqube-scanner-params.js:37-48 | The manifest's name and version always win; its description and homepage win only when truthy. |
| DistExecutable.PreparedEnvironment | dist/sonar-scanner-executable.js:32-57 | Preparation fails iff the variable holds unparsable text. Otherwise only SONARQUBE_SCANNER_PARAMS differs from the process environment, and it holds the serialised resolution of the parsed map. The streams are [0,1,2] and the buffer is 1048576. |
| DistExecutable.PrepareExecEnvironment | dist/sonar-scanner-executable.js:32-57 | The method builds the prepared options. |
| DistExecutable.ResolutionIsStable | dist/sonar-scanner-params.js:43-59 | Resolving again from an already resolved map gives the same map. |
| DistExecutable.PreparationIsStable | dist/sonar-scanner-executable.js:32-57 | If parse inverts stringify, the child reads back exactly the resolved map, and preparing again from the prepared environment changes nothing. |
| DistExecutable.InstallFolderPrecedence | dist/sonar-scanner-executable.js:162-165 | The cache base is SONAR_BINARY_CACHE, then the npm configuration's, then the home directory. It matches src/config.js for a caller without a base path. |
| DistExecutable.DistVersionPrecedence | dist/sonar-scanner-executable.js:63-64 | The version is SONAR_SCANNER_VERSION, then the npm configuration's, then '4.5.0.2216'. It matches src/config.js except for that default. |
| DistExecutable.DownloadUrlsAgreeOnDefaultMirror | dist/sonar-scanner-executable.js:99-101 | On the default mirror, dist's concatenation and src's URL resolution give the same URL. |
| DistExecutable.ExecutableEffects | dist/sonar-scanner-executable.js:62-120 | The decision fails iff the platform is unsupported. The callback comes last, if at all. Every download directly follows the creation of its folder. |
| DistExecutable.GetSonarScannerExecutable | dist/sonar-scanner-executable.js:62-120 | The step-by-step method yields the platform error, or the side effects in order: the path passed on when found, otherwise folder creation, download and, on success only, the path passed on. |
| DistExecutable.UnsupportedPlatformThrows | dist/sonar-scanner-executable.js:62-65 | On an unsupported platform, the function throws the platform error before doing anything. |
| DistExecutable.FoundMeansNoDownload | dist/sonar-scanner-executable.js:78-92 | An existing executable is passed to the callback, and nothing is created or downloaded. |
| DistExecutable.MissingMeansDownload | dist/sonar-scanner-executable.js:94-111 | A missing executable leads to creating the folder, downloading mirror + archive name into it, and calling back only on success. |
| DistExecutable.CallbackOnlyWithExecutable | dist/sonar-scanner-executable.js:89-119 | The callback gets the executable path iff it existed or the download succeeded, and is called at most once. |
| Orchestrator.GetPathForPlatform | tools/orchestrator/src/sonarqube.ts:51-71 | There is no launcher (undefined) iff the platform is none of win, darwin or linux. |
| Orchestrator.LauncherFollowsTargetOS | tools/orchestrator/src/sonarqube.ts:51-71 | Despite the other test order, the launcher is the one for the OS `findTargetOS` reports, and missing exactly where it throws. |
| Orchestrator.LauncherPathText | tools/orchestrator/src/sonarqube.ts:52-60 | The launcher is '<sq>/bin/<os folder>/<script>'. |
| Orchestrator.LauncherSegments | tools/orchestrator/src/sonarqube.ts:52-60 | The launcher is exactly three segments below the SonarQube folder. |
| Orchestrator.IsApiReady | tools/orchestrator/src/sonarqube.ts:106-114 | The result is ready iff an entry from `startIndex` on contains 'SonarQube is operational'; otherwise `readIndex` is the log length. |
| Orchestrator.ResumedScanMissesNothing | tools/orchestrator/src/sonarqube.ts:90-95 | If nothing seen so far was ready, resuming at the reported index finds the line iff a full scan would. |
| Orchestrator.Pick | tools/orchestrator/src/sonarqube.ts:223 | `Math.floor(Math.random() * 62)` always indexes the alphabet. |
| Orchestrator.GenerateId | tools/orchestrator/src/sonarqube.ts:218-227 | The loop produces one picked character per round (none for a non-positive length), then '1'. |
| Orchestrator.IdShape | tools/orchestrator/src/sonarqube.ts:218-227 | An identifier has length n+1, only alphanumeric characters, and the digit '1' last. |
| Orchestrator.EveryIdReachable | tools/orchestrator/src/sonarqube.ts:218-227 | Every alphanumeric string followed by '1' is produced by some draws. |

## Left out

- Reading the disk, parsing JSON, `read-pkg` and `fs.accessSync` are not modelled. The project is given as a file-existence oracle and the outcome of reading 'package.json' (missing or invalid, `null`, or a manifest).
- `JSON.parse`, `JSON.stringify` and `slug` are parameters. A parsed value that is not a string-to-string object is not modelled. The order of keys in the serialised text is not modelled, since maps are unordered.
- ProjectModel.Slugify: models only the `remove: invalidCharacterRegex` step of `slugify`. The library's transliteration, whitespace replacement and trimming are not modelled.
- Text.Join: models `path.join` on already normalised parts. '.', '..' and repeated separators are not normalised. The separator is '/' on every platform, so `path.posix.join` is modelled exactly, but the '\\' that `path.join` uses on win32 is not: the install folder, executable and launcher paths are the POSIX ones.
- Text.Basename: does not strip a trailing separator as `path.basename` does.
- UrlResolution.Resolve: handles only what the source passes to `new URL`, a path-only relative reference. The base must be `scheme://authority[path][?query][#fragment]`; other forms of base are rejected. The scheme, host and port are not validated, so bases that `new URL` rejects, such as 'http://h:abc/', 'https://a b/' and '1x://h/', resolve here. A reference that is not a path, such as an archive name whose version holds ':', is not modelled. Also not modelled: dot-segment removal, percent-encoding, host normalisation, and a base without an authority that WHATWG URL would accept.
- ScannerConfig.GetExecutableParams and DistExecutable.PreparedOptions: the exception texts (`TypeError`, `SyntaxError`) stand for the library messages, which are not modelled.
- The deps and dist resolvers read the manifest through `read-pkg`, whose normalisation may turn a missing name into '' and throw on a non-string one. The model takes the manifest as given: a nameless manifest makes `slug`/`slugify` throw (`LegacyScannerParams.ReadFails`, `DistScannerParams.DistExtracted`), which rests on the call sites and not on `read-pkg`'s behaviour.
- Manifest fields of other than string type are not modelled. In particular, a numeric `jest.coverageDirectory` survives `filter(Boolean)` in dist/sonar-scanner-params.js:93-109, makes `path.posix.join` throw inside `find` after the manifest keys are written, and the catch at lines 36-40 keeps the half-written object; the model's dist extraction is all or nothing.
- Logging (`fancy-log`) and the progress bar are left out.
- The folder creation and the download are returned as effects (`DistExecutable.Effect`); decompression and HTTP are left out.
- `getLocalSonarScannerExecutable`, dist/sonarqube-scanner-executable.js and the index files are process-spawning wrappers and are left out.
- The executable functions of src/sonar-scanner-executable.js are I/O around `getExecutableParams` and are left out.
- The orchestrator's HTTP calls, its `waitForStart` polling loop with timers, the chunking of the server output into log entries, the stop helper and the scripts are I/O and time and are left out.
- Orchestrator.GenerateId: `Math.random` is a sequence of draws in [0, 1) given as reals; IEEE floating point is not modelled.
- `generateId`'s default length of 10 is not modelled; the length is always passed.
- ScannerParams.Resolution: `isEmpty`'s test `constructor === Object` always holds for the object literal the source builds, so the model compares the map with the empty map.
- The undefined `version` the source writes when the manifest has none is modelled as an absent key, which is how JSON serialisation drops it.

## Findings

| source | as written | input that shows it | evidently intended | confidence | as-written member | corrected member |
|---|---|---|---|---|---|---|
| deps/sonarqube-scanner-params.js:49-52 | The `catch` block calls `log`, which the file never imports, so any failure to read 'package.json' escapes as a ReferenceError. | A working directory without 'package.json' (`MissingManifestRaises`). | Fall back to the defaults, as the comment "let's remain on the defaults" says. | not executed | LegacyScannerParams.LegacyAsWritten | LegacyScannerParams.LegacyResolution |
