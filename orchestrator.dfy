/** Three helpers of the test orchestrator (tools/orchestrator/src/sonarqube.ts):
    the path of the SonarQube launcher for the platform, the scan of the
    server's log lines for the "operational" message, and the generator of
    project identifiers. The platform string and the values `Math.random`
    draws are inputs. */
module Orchestrator {
  import opened Wrappers
  import opened Text
  import opened Platform
  import opened Paths

  // ---------------------------------------------------------------------
  // getPathForPlatform

  /** The folder below 'bin' holding the launcher for an operating system. */
  function LauncherFolder(os: TargetOS): string
  {
    match os
    case Windows => "windows-x86-64"
    case MacOSX => "macosx-universal-64"
    case Linux => "linux-x86-64"
  }

  /** The launcher script for an operating system. */
  function LauncherName(os: TargetOS): string
  {
    match os
    case Windows => "StartSonar.bat"
    case MacOSX => "sonar.sh"
    case Linux => "sonar.sh"
  }

  /** `path.join(sqPath, 'bin', <folder>, <launcher>)` for an operating system. */
  function LauncherPath(sqPath: string, os: TargetOS): string
  {
    Join(Join(Join(sqPath, "bin"), LauncherFolder(os)), LauncherName(os))
  }

  /** `getPathForPlatform`: tests Windows, then macOS, then Linux, and
      falls off the end (returning `undefined`) on any other platform. */
  function GetPathForPlatform(sqPath: string, platform: string): (r: Option<string>)
    ensures r.None? <==> !IsWindows(platform) && !IsMac(platform) && !IsLinux(platform)
  {
    if IsWindows(platform) then Some(LauncherPath(sqPath, Windows))
    else if IsMac(platform) then Some(LauncherPath(sqPath, MacOSX))
    else if IsLinux(platform) then Some(LauncherPath(sqPath, Linux))
    else None
  }

  /** Although the tests run in another order than in `findTargetOS`, the
      launcher is the one of the operating system `findTargetOS` reports,
      and there is none exactly where `findTargetOS` throws. */
  lemma LauncherFollowsTargetOS(sqPath: string, platform: string)
    ensures GetPathForPlatform(sqPath, platform).None? <==> FindTargetOS(platform).Err?
    ensures FindTargetOS(platform).Ok? ==>
              GetPathForPlatform(sqPath, platform) == Some(LauncherPath(sqPath, FindTargetOS(platform).value))
  {
    PrefixesDisjoint(platform);
  }

  /** Below a non-empty folder the launcher is
      '<sqPath>/bin/windows-x86-64/StartSonar.bat',
      '<sqPath>/bin/macosx-universal-64/sonar.sh' or
      '<sqPath>/bin/linux-x86-64/sonar.sh'. */
  lemma LauncherPathText(sqPath: string, os: TargetOS)
    requires sqPath != ""
    ensures LauncherPath(sqPath, os) == sqPath + "/bin/" + LauncherFolder(os) + "/" + LauncherName(os)
  {
    assert sqPath + "/" + "bin" == sqPath + "/bin";
    assert sqPath + "/bin" + "/" + LauncherFolder(os) == sqPath + "/bin/" + LauncherFolder(os);
  }

  /** The launcher lies three segments below the SonarQube folder. */
  lemma LauncherSegments(sqPath: string, os: TargetOS)
    requires sqPath != ""
    ensures Split(LauncherPath(sqPath, os)) == Split(sqPath) + ["bin", LauncherFolder(os), LauncherName(os)]
  {
    var folder, name := LauncherFolder(os), LauncherName(os);
    assert '/' !in folder && '/' !in name by {
      match os
      case Windows =>
      case MacOSX =>
      case Linux =>
    }
    assert Split("bin") == ["bin"] by {
      SplitNoSlash("bin");
    }
    ThreeNamesBelow(sqPath, "bin", folder, name);
  }

  // ---------------------------------------------------------------------
  // isApiReady

  const ReadyLine := "SonarQube is operational"

  /** The result of `isApiReady`: `{ isReady: true }`, or
      `{ isReady: false, readIndex }`. */
  datatype ApiStatus = Ready | NotReady(readIndex: nat)

  /** Some log entry from `start` on announces the server as operational. */
  predicate ReadyIn(logs: seq<string>, start: nat)
  {
    exists i | start <= i < |logs| :: Contains(logs[i], ReadyLine)
  }

  /** `isApiReady`: scans the entries from `startIndex` on and stops at the
      first one announcing the server; otherwise reports the length of the
      log, where the next scan resumes. */
  method IsApiReady(logs: seq<string>, startIndex: nat) returns (r: ApiStatus)
    ensures r.Ready? <==> ReadyIn(logs, startIndex)
    ensures r.NotReady? ==> r.readIndex == |logs|
  {
    var i := startIndex;
    while i < |logs|
      invariant startIndex <= i
      invariant forall j | startIndex <= j < i && j < |logs| :: !Contains(logs[j], ReadyLine)
      decreases |logs| - i
    {
      if Contains(logs[i], ReadyLine) {
        return Ready;
      }
      i := i + 1;
    }
    return NotReady(|logs|);
  }

  /** Resuming at the reported index misses nothing: when the entries seen
      so far hold no announcement, scanning the grown log from where the
      last scan stopped finds one exactly when scanning it all would. */
  lemma ResumedScanMissesNothing(seen: seq<string>, arrived: seq<string>)
    requires !ReadyIn(seen, 0)
    ensures ReadyIn(seen + arrived, |seen|) <==> ReadyIn(seen + arrived, 0)
  {
    var logs := seen + arrived;
    if ReadyIn(logs, 0) {
      forall i | 0 <= i < |seen|
        ensures logs[i] == seen[i]
      {
      }
    }
  }

  // ---------------------------------------------------------------------
  // generateId

  const Alphabet := "ABCDEFGHIJKLMNOPQRSTUVWXYZabcdefghijklmnopqrstuvwxyz0123456789"

  /** Every value `Math.random` can return. */
  predicate ValidDraws(draws: seq<real>)
  {
    forall i | 0 <= i < |draws| :: 0.0 <= draws[i] < 1.0
  }

  /** `Math.floor(Math.random() * charactersLength)` for one draw. */
  function Pick(d: real): (k: nat)
    requires 0.0 <= d < 1.0
    ensures k < |Alphabet|
  {
    (d * 62.0).Floor
  }

  /** The identifier a sequence of draws produces: one alphabet character
      per draw, then '1'. */
  function IdOf(draws: seq<real>): string
    requires ValidDraws(draws)
  {
    seq(|draws|, i requires 0 <= i < |draws| => Alphabet[Pick(draws[i])]) + "1"
  }

  /** `generateId`: appends one picked character per round, `length`
      rounds (none when `length` is not positive), then '1'. */
  method GenerateId(length: int, draws: seq<real>) returns (result: string)
    requires ValidDraws(draws) && length <= |draws|
    ensures result == IdOf(draws[..if length > 0 then length else 0])
  {
    result := "";
    var i := 0;
    while i < length
      invariant 0 <= i <= if length > 0 then length else 0
      invariant |result| == i
      invariant forall j | 0 <= j < i :: result[j] == Alphabet[Pick(draws[j])]
    {
      result := result + [Alphabet[Pick(draws[i])]];
      i := i + 1;
    }
    result := result + "1";
  }

  /** An identifier has one character more than the draws, every one of
      them alphanumeric, and ends in the digit that project keys require. */
  lemma IdShape(draws: seq<real>)
    requires ValidDraws(draws)
    ensures var id := IdOf(draws);
            && |id| == |draws| + 1
            && (forall c | c in id :: c in Alphabet)
            && id[|draws|] == '1'
            && '1' in Alphabet[52..]
  {
    var id := IdOf(draws);
    forall c | c in id
      ensures c in Alphabet
    {
      var i :| 0 <= i < |id| && id[i] == c;
      if i == |draws| {
        assert Alphabet[53] == '1';
      }
    }
    assert Alphabet[52..][1] == '1';
  }

  /** The draw k/62 picks the k-th character. */
  lemma PickOfIndex(k: nat)
    requires k < |Alphabet|
    ensures 0.0 <= k as real / 62.0 < 1.0
    ensures Pick(k as real / 62.0) == k
  {
    assert k as real / 62.0 * 62.0 == k as real;
  }

  /** Every alphanumeric string, followed by '1', is an identifier some
      draws produce: no identifier is out of reach of the generator. */
  lemma EveryIdReachable(s: string)
    requires forall c | c in s :: c in Alphabet
    ensures exists draws :: ValidDraws(draws) && |draws| == |s| && IdOf(draws) == s + "1"
  {
    var draws := seq(|s|, i requires 0 <= i < |s| => IndexIn(s[i]) as real / 62.0);
    forall i | 0 <= i < |s|
      ensures 0.0 <= draws[i] < 1.0 && Alphabet[Pick(draws[i])] == s[i]
    {
      PickOfIndex(IndexIn(s[i]));
    }
    assert ValidDraws(draws);
    var picked := seq(|draws|, i requires 0 <= i < |draws| => Alphabet[Pick(draws[i])]);
    assert picked == s;
    assert IdOf(draws) == picked + "1";
  }

  /** The position of an alphabet character. */
  ghost function IndexIn(c: char): (k: nat)
    requires c in Alphabet
    ensures k < |Alphabet| && Alphabet[k] == c
  {
    var k :| 0 <= k < |Alphabet| && Alphabet[k] == c;
    k
  }
}
