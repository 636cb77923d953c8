/** Install-folder and executable paths (src/utils/paths.js). */
module Paths {
  import opened Wrappers
  import opened Text
  import opened Platform

  /** `getBinaryExtension`: '.bat' on Windows, nothing elsewhere. */
  function GetBinaryExtension(platform: string): (r: string)
    ensures r == ".bat" <==> IsWindows(platform)
    ensures r == "" <==> !IsWindows(platform)
  {
    if IsWindows(platform) then ".bat" else ""
  }

  /** `buildInstallFolderPath`: the cache folder below a base path. */
  function BuildInstallFolderPath(basePath: string): string
  {
    Join(Join(basePath, ".sonar"), "native-sonar-scanner")
  }

  /** The install folder is '<basePath>/.sonar/native-sonar-scanner', or
      '.sonar/native-sonar-scanner' for an empty base path. */
  lemma InstallFolderText(basePath: string)
    ensures basePath == "" ==> BuildInstallFolderPath(basePath) == ".sonar" + "/" + "native-sonar-scanner"
    ensures basePath != "" ==>
              BuildInstallFolderPath(basePath) == basePath + "/" + ".sonar" + "/" + "native-sonar-scanner"
  {
  }

  /** The install folder adds exactly the two segments '.sonar' and
      'native-sonar-scanner' to the base path. */
  lemma InstallFolderSegments(basePath: string)
    requires basePath != ""
    ensures Split(BuildInstallFolderPath(basePath)) == Split(basePath) + [".sonar", "native-sonar-scanner"]
  {
    assert '/' !in ".sonar" && '/' !in "native-sonar-scanner";
    TwoSegmentsBelow(basePath, ".sonar", "native-sonar-scanner");
  }

  /** Joining two slash-free, non-empty names below a path adds them as two
      segments. */
  lemma {:induction false} TwoSegmentsBelow(base: string, x: string, y: string)
    requires base != "" && x != "" && y != "" && '/' !in x && '/' !in y
    ensures Split(Join(Join(base, x), y)) == Split(base) + [x, y]
  {
    SplitNoSlash(x);
    SplitNoSlash(y);
    SplitJoin(base, x);
    SplitJoin(Join(base, x), y);
  }

  /** The folder the scanner archive unpacks into. */
  function ScannerFolderName(version: string, os: TargetOS): string
  {
    "sonar-scanner-" + version + "-" + OsName(os)
  }

  /** `buildExecutablePath`: throws, through `findTargetOS`, on an
      unsupported platform. */
  function BuildExecutablePath(installFolder: string, version: string, platform: string): (r: Result<string>)
    ensures r.Err? <==> FindTargetOS(platform).Err?
    ensures r.Err? ==> r == Err(UnsupportedPlatform(platform))
  {
    match FindTargetOS(platform)
    case Err(e) => Err(e)
    case Ok(os) =>
      Ok(Join(Join(Join(installFolder, ScannerFolderName(version, os)), "bin"),
              "sonar-scanner" + GetBinaryExtension(platform)))
  }

  /** The executable lies below the install folder, in the versioned,
      per-OS scanner folder, as 'bin/sonar-scanner[.bat]'. */
  lemma {:induction false} ExecutablePathShape(installFolder: string, version: string, platform: string)
    requires FindTargetOS(platform).Ok?
    ensures var os := FindTargetOS(platform).value;
            var exe := "sonar-scanner" + GetBinaryExtension(platform);
            var r := BuildExecutablePath(installFolder, version, platform).value;
            && (installFolder != "" ==>
                  && StartsWith(r, installFolder + "/")
                  && Split(r) == Split(installFolder) + Split(ScannerFolderName(version, os)) + ["bin", exe])
            && (installFolder == "" ==> Split(r) == Split(ScannerFolderName(version, os)) + ["bin", exe])
  {
    var os := FindTargetOS(platform).value;
    var exe := "sonar-scanner" + GetBinaryExtension(platform);
    var dir := ScannerFolderName(version, os);
    assert '/' !in "bin" && exe[0] == 's';
    assert '/' !in exe by {
      assert '/' !in "sonar-scanner" && '/' !in GetBinaryExtension(platform);
    }
    ThreeNamesBelow(installFolder, dir, "bin", exe);
  }

  /** The segments of `path.join(folder, dir, x, y)` for slash-free names
      `x` and `y`; a non-empty folder is a prefix of the path. */
  lemma {:induction false} ThreeNamesBelow(folder: string, dir: string, x: string, y: string)
    requires dir != "" && x != "" && y != "" && '/' !in x && '/' !in y
    ensures var r := Join(Join(Join(folder, dir), x), y);
            && (folder != "" ==> StartsWith(r, folder + "/") && Split(r) == Split(folder) + Split(dir) + [x, y])
            && (folder == "" ==> Split(r) == Split(dir) + [x, y])
  {
    var inner := Join(folder, dir);
    TwoSegmentsBelow(inner, x, y);
    if folder != "" {
      SplitJoin(folder, dir);
      PrefixOfAppend(folder + "/", dir);
      PrefixExtends(inner, "/" + x, folder + "/");
      assert inner + "/" + x == inner + ("/" + x);
      PrefixExtends(Join(inner, x), "/" + y, folder + "/");
      assert Join(inner, x) + "/" + y == Join(inner, x) + ("/" + y);
    }
  }

  /** A concatenation starts with its first part. */
  lemma PrefixOfAppend(p: string, t: string)
    ensures StartsWith(p + t, p)
  {
    assert (p + t)[..|p|] == p;
  }

  /** Appending keeps a prefix. */
  lemma PrefixExtends(s: string, t: string, p: string)
    requires StartsWith(s, p)
    ensures StartsWith(s + t, p)
  {
    assert (s + t)[..|p|] == s[..|p|];
  }

  /** Hence 'bin' is always the second-to-last path segment. */
  lemma BinIsParentFolder(installFolder: string, version: string, platform: string)
    requires FindTargetOS(platform).Ok?
    ensures var segs := Split(BuildExecutablePath(installFolder, version, platform).value);
            |segs| >= 2 && segs[|segs| - 2] == "bin"
            && segs[|segs| - 1] == "sonar-scanner" + GetBinaryExtension(platform)
  {
    ExecutablePathShape(installFolder, version, platform);
  }
}
