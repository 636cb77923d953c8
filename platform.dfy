/** Platform detection (src/utils/platform.js): the value of
    `process.platform` is a parameter. */
module Platform {
  import opened Wrappers
  import opened Text

  /** The three operating systems for which scanner binaries are published. */
  datatype TargetOS = Windows | Linux | MacOSX

  /** The name used in archive and folder names; macOS is 'macosx'. */
  function OsName(os: TargetOS): string
  {
    match os
    case Windows => "windows"
    case Linux => "linux"
    case MacOSX => "macosx"
  }

  /** `/^win/.test(process.platform)` */
  predicate IsWindows(platform: string)
  {
    StartsWith(platform, "win")
  }

  /** `/^darwin/.test(process.platform)` */
  predicate IsMac(platform: string)
  {
    StartsWith(platform, "darwin")
  }

  /** `/^linux/.test(process.platform)` */
  predicate IsLinux(platform: string)
  {
    StartsWith(platform, "linux")
  }

  /** The message of the error thrown for an unsupported platform. */
  function UnsupportedPlatform(platform: string): string
  {
    "Your platform '" + platform + "' is currently not supported."
  }

  /** `findTargetOS`: the first matching test wins, anything else throws. */
  function FindTargetOS(platform: string): (r: Result<TargetOS>)
    ensures r == Ok(Windows) <==> IsWindows(platform)
    ensures r == Ok(Linux) <==> IsLinux(platform)
    ensures r == Ok(MacOSX) <==> IsMac(platform)
    ensures r.Err? <==> !IsWindows(platform) && !IsLinux(platform) && !IsMac(platform)
    ensures r.Err? ==> r.message == UnsupportedPlatform(platform)
  {
    PrefixesDisjoint(platform);
    if IsWindows(platform) then Ok(Windows)
    else if IsLinux(platform) then Ok(Linux)
    else if IsMac(platform) then Ok(MacOSX)
    else Err(UnsupportedPlatform(platform))
  }

  /** At most one of the three platform tests holds, so the order of the
      tests in `findTargetOS` does not matter. */
  lemma PrefixesDisjoint(platform: string)
    ensures !(IsWindows(platform) && IsLinux(platform))
    ensures !(IsWindows(platform) && IsMac(platform))
    ensures !(IsLinux(platform) && IsMac(platform))
  {
    if IsWindows(platform) { assert platform[0] == "win"[0]; }
    if IsLinux(platform) { assert platform[0] == "linux"[0]; }
    if IsMac(platform) { assert platform[0] == "darwin"[0]; }
  }

  /** The platform values exercised by the unit tests. */
  lemma TestPlatforms()
    ensures FindTargetOS("windows10") == Ok(Windows)
    ensures FindTargetOS("darwin") == Ok(MacOSX)
    ensures FindTargetOS("linux") == Ok(Linux)
    ensures FindTargetOS("non-existing-os").Err?
  {
    assert StartsWith("windows10", "win");
    assert StartsWith("darwin", "darwin");
    assert StartsWith("linux", "linux");
    var other := "non-existing-os";
    assert other[..3][0] == 'n' && other[..5][0] == 'n' && other[..6][0] == 'n';
  }
}
