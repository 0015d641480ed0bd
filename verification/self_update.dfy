/**
 * `amgctl update` as written in `tools/amgctl/update.go`: version comparison,
 * release selection, asset and checksum lookup, and the update decision. HTTP,
 * hashing, extraction and file replacement are inputs.
 */
module SelfUpdate {
  import opened Wrappers
  import opened Strings
  import opened GitHub

  // ---------------------------------------------------------------------------
  // Version comparison
  // ---------------------------------------------------------------------------

  /** The dot-components of a version, padded with "0" up to three. */
  function Padded(parts: seq<string>): (r: seq<string>)
    ensures |r| == if |parts| < 3 then 3 else |parts|
    ensures forall i :: 0 <= i < |r| ==> r[i] == if i < |parts| then parts[i] else "0"
  {
    if |parts| == 0 then ["0", "0", "0"]
    else if |parts| == 1 then parts + ["0", "0"]
    else if |parts| == 2 then parts + ["0"]
    else parts
  }

  /** The three numbers compared: a missing component is 0, a non-numeric one reads as 0, extras are ignored. */
  function VersionKey(v: string): (key: seq<int>)
    ensures |key| == 3
  {
    var p := Padded(Split(v, '.'));
    [AtoiIgnoringError(p[0]), AtoiIgnoringError(p[1]), AtoiIgnoringError(p[2])]
  }

  /** Component `i` of the key is the `i`-th dot-separated number, or 0 when the version is shorter. */
  lemma VersionKeyComponents(v: string)
    ensures forall i :: 0 <= i < 3 ==>
              VersionKey(v)[i] == if i < |Split(v, '.')| then AtoiIgnoringError(Split(v, '.')[i]) else 0
  {
    assert AtoiIgnoringError("0") == 0 by { assert AllDigits("0"); }
  }

  /** Lexicographic order: the first differing component decides. */
  predicate KeyGreater(x: seq<int>, y: seq<int>)
    requires |x| == 3 && |y| == 3
  {
    exists i :: 0 <= i < 3 && x[i] > y[i] && forall k :: 0 <= k < i ==> x[k] == y[k]
  }

  /** `latest` is a newer version than `current`. */
  predicate Newer(latest: string, current: string) {
    KeyGreater(VersionKey(latest), VersionKey(current))
  }

  /** Component `i` of the key is the number read from the `i`-th padded component. */
  lemma KeyAt(v: string, parts: seq<string>, i: nat)
    requires parts == Padded(Split(v, '.')) && i < 3
    ensures VersionKey(v)[i] == AtoiIgnoringError(parts[i])
  {
    var key := VersionKey(v);
    if i == 0 {
      assert key[0] == AtoiIgnoringError(parts[0]);
    } else if i == 1 {
      assert key[1] == AtoiIgnoringError(parts[1]);
    } else {
      assert key[2] == AtoiIgnoringError(parts[2]);
    }
  }

  /** Appending one "0" to a short version does not change its padding. */
  lemma PadStep(parts: seq<string>)
    requires |parts| < 3
    ensures Padded(parts + ["0"]) == Padded(parts)
  {
    SameElements(Padded(parts + ["0"]), Padded(parts));
  }

  /** A version with three or more components is its own padding. */
  lemma PadDone(parts: seq<string>)
    requires |parts| >= 3
    ensures Padded(parts) == parts
  {
  }

  lemma GreaterAt(x: seq<int>, y: seq<int>, i: int)
    requires |x| == 3 && |y| == 3 && 0 <= i < 3
    requires forall k :: 0 <= k < i ==> x[k] == y[k]
    requires x[i] > y[i]
    ensures KeyGreater(x, y)
  {
  }

  lemma NotGreaterEqual(x: seq<int>, y: seq<int>)
    requires |x| == 3 && |y| == 3
    requires forall k :: 0 <= k < 3 ==> x[k] == y[k]
    ensures !KeyGreater(x, y)
  {
  }

  lemma NotGreaterAt(x: seq<int>, y: seq<int>, i: int)
    requires |x| == 3 && |y| == 3 && 0 <= i < 3
    requires forall k :: 0 <= k < i ==> x[k] == y[k]
    requires x[i] < y[i]
    ensures !KeyGreater(x, y)
  {
  }

  /** The padding loop of `isNewerVersion`: append "0" until there are three components. */
  method PadVersion(v: string) returns (parts: seq<string>)
    ensures parts == Padded(Split(v, '.'))
  {
    parts := Split(v, '.');
    while |parts| < 3
      invariant Padded(parts) == Padded(Split(v, '.'))
      decreases 3 - |parts|
    {
      PadStep(parts);
      parts := parts + ["0"];
    }
    PadDone(parts);
  }

  /** `isNewerVersion`: pads both sides, then compares component by component. */
  method IsNewerVersion(latest: string, current: string) returns (r: bool)
    ensures r == Newer(latest, current)
  {
    var latestParts := PadVersion(latest);
    var currentParts := PadVersion(current);
    var i := 0;
    while i < 3
      invariant 0 <= i <= 3
      invariant AgreeBelow(latest, current, i)
    {
      var latestNum := AtoiIgnoringError(latestParts[i]);
      var currentNum := AtoiIgnoringError(currentParts[i]);
      CompareAt(latest, current, latestParts, currentParts, i);
      if latestNum > currentNum {
        return true;
      } else if latestNum < currentNum {
        return false;
      }
      i := i + 1;
    }
    NotGreaterEqual(VersionKey(latest), VersionKey(current));
    return false;
  }

  /** The first `i` components of the two versions agree. */
  predicate AgreeBelow(latest: string, current: string, i: nat)
    requires i <= 3
  {
    forall k :: 0 <= k < i ==> VersionKey(latest)[k] == VersionKey(current)[k]
  }

  /** Step `i` of the comparison loop: once the earlier components agree, component `i` decides or agrees. */
  lemma CompareAt(latest: string, current: string, latestParts: seq<string>, currentParts: seq<string>, i: nat)
    requires latestParts == Padded(Split(latest, '.')) && currentParts == Padded(Split(current, '.')) && i < 3
    requires AgreeBelow(latest, current, i)
    ensures var a, b := AtoiIgnoringError(latestParts[i]), AtoiIgnoringError(currentParts[i]);
      (a > b ==> Newer(latest, current)) && (a < b ==> !Newer(latest, current))
      && (a == b ==> AgreeBelow(latest, current, i + 1))
  {
    var x, y := VersionKey(latest), VersionKey(current);
    KeyAt(latest, latestParts, i);
    KeyAt(current, currentParts, i);
    if x[i] > y[i] {
      GreaterAt(x, y, i);
    } else if x[i] < y[i] {
      NotGreaterAt(x, y, i);
    }
  }

  /** No version is newer than itself, and of two versions at most one is the newer. */
  lemma NewerAsymmetric(a: string, b: string)
    ensures !Newer(a, a)
    ensures !(Newer(a, b) && Newer(b, a))
  {
  }

  /** Versions whose three components differ are ordered one way or the other. */
  lemma NewerTotal(a: string, b: string)
    ensures VersionKey(a) != VersionKey(b) ==> Newer(a, b) || Newer(b, a)
  {
    var x, y := VersionKey(a), VersionKey(b);
    if x[0] != y[0] {
      assert x[0] > y[0] || y[0] > x[0];
    } else if x[1] != y[1] {
      assert x[1] > y[1] || y[1] > x[1];
    } else if x[2] != y[2] {
      assert x[2] > y[2] || y[2] > x[2];
    } else {
      assert x == y;
    }
  }

  /** Components after the third are ignored: "1.2.3.9" compares like "1.2.3". */
  lemma ExtraComponentsIgnored(v: string, extra: string)
    requires |Split(v, '.')| >= 3
    ensures VersionKey(v + "." + extra) == VersionKey(v)
  {
    SplitConcat(v, extra, '.');
    var p, q := Split(v + "." + extra, '.'), Split(v, '.');
    assert forall i :: 0 <= i < 3 ==> p[i] == q[i];
  }

  // ---------------------------------------------------------------------------
  // Release selection
  // ---------------------------------------------------------------------------

  /** The index of the first release the updater may take: any release when prereleases are included. */
  function FirstEligible(releases: seq<Release>, includePrerelease: bool): (r: Option<nat>)
    ensures r.Some? ==> r.value < |releases| && (includePrerelease || !releases[r.value].prerelease)
    ensures r.Some? ==> forall k :: 0 <= k < r.value ==> !includePrerelease && releases[k].prerelease
    ensures r.None? ==> forall k :: 0 <= k < |releases| ==> !includePrerelease && releases[k].prerelease
    decreases |releases|
  {
    if |releases| == 0 then None
    else if includePrerelease || !releases[0].prerelease then Some(0)
    else
      var rest := FirstEligible(releases[1..], includePrerelease);
      if rest.Some? then Some(rest.value + 1) else None
  }

  /** What `getLatestRelease` returns for an API response. */
  function LatestRelease(response: Response<seq<Release>>, includePrerelease: bool): (r: Result<Release>)
    ensures r.Ok? <==> response.Reply? && response.status == StatusOK && response.body.Ok?
                       && FirstEligible(response.body.value, includePrerelease).Some?
    ensures r.Ok? ==> r.value == response.body.value[FirstEligible(response.body.value, includePrerelease).value]
  {
    match response
    case TransportError(msg) => Err("failed to fetch releases: " + msg)
    case Reply(status, _, body) =>
      if status != StatusOK then Err("GitHub API returned status " + IntToString(status))
      else if body.Err? then Err("failed to decode releases: " + body.error)
      else if |body.value| == 0 then Err("no releases found")
      else
        var k := FirstEligible(body.value, includePrerelease);
        if k.None? then Err("no suitable release found") else Ok(body.value[k.value])
  }

  /** With prereleases included the newest listed release is taken. */
  lemma PrereleaseTakesFirst(releases: seq<Release>, statusText: string)
    requires |releases| > 0
    ensures LatestRelease(Reply(StatusOK, statusText, Ok(releases)), true) == Ok(releases[0])
  {
  }

  /** `getLatestRelease`: the scan returns at the first release that qualifies. */
  method GetLatestRelease(response: Response<seq<Release>>, includePrerelease: bool) returns (r: Result<Release>)
    ensures r == LatestRelease(response, includePrerelease)
  {
    if response.TransportError? {
      return Err("failed to fetch releases: " + response.message);
    }
    if response.status != StatusOK {
      return Err("GitHub API returned status " + IntToString(response.status));
    }
    if response.body.Err? {
      return Err("failed to decode releases: " + response.body.error);
    }
    var releases := response.body.value;
    if |releases| == 0 {
      return Err("no releases found");
    }
    var i := 0;
    while i < |releases|
      invariant 0 <= i <= |releases|
      invariant forall k :: 0 <= k < i ==> !includePrerelease && releases[k].prerelease
    {
      if !includePrerelease && releases[i].prerelease {
        i := i + 1;
        continue;
      }
      return Ok(releases[i]);
    }
    return Err("no suitable release found");
  }

  // ---------------------------------------------------------------------------
  // Asset and checksum lookup
  // ---------------------------------------------------------------------------

  const ChecksumsFile: string := "checksums.txt"
  const TarGz: string := ".tar.gz"

  /** `getAssetName` for the running platform. */
  function AssetName(goos: string, goarch: string): (name: string)
    ensures HasPrefix(name, "amgctl-" + goos + "-" + goarch)
    ensures HasSuffix(name, ".exe") || goos != "windows"
  {
    "amgctl-" + goos + "-" + goarch + (if goos == "windows" then ".exe" else "")
  }

  /** The binary is extracted exactly when the architecture name itself ends in ".tar.gz" (never on Windows). */
  lemma ExtractOnlyTarGz(goos: string, goarch: string)
    ensures HasSuffix(AssetName(goos, goarch), TarGz) <==> goos != "windows" && HasSuffix(goarch, TarGz)
  {
    var name := AssetName(goos, goarch);
    if goos == "windows" {
      assert name[|name| - 1] == 'e';
    } else {
      var head := "amgctl-" + goos + "-";
      assert name == head + goarch;
      if HasSuffix(name, TarGz) {
        // The character just before `goarch` is '-', which ".tar.gz" does not contain.
        assert name[|head| - 1] == '-';
        if |head| - 1 >= |name| - |TarGz| {
          assert false;
        }
      }
      if |goarch| >= |TarGz| {
        assert name[|name| - |TarGz|..] == goarch[|goarch| - |TarGz|..];
      }
    }
  }

  /** The index of the last asset named `name`. */
  function LastNamed(assets: seq<Asset>, name: string): (r: Option<nat>)
    ensures r.Some? ==> r.value < |assets| && assets[r.value].name == name
                        && forall k :: r.value < k < |assets| ==> assets[k].name != name
    ensures r.None? ==> forall k :: 0 <= k < |assets| ==> assets[k].name != name
    decreases |assets|
  {
    if |assets| == 0 then None
    else if assets[|assets| - 1].name == name then Some(|assets| - 1)
    else LastNamed(assets[..|assets| - 1], name)
  }

  /** The URL of the asset at `k`, or "" when there is none. */
  function UrlAt(assets: seq<Asset>, k: Option<nat>): string {
    if k.Some? && k.value < |assets| then assets[k.value].downloadUrl else ""
  }

  /** The URLs the asset scan ends with: a later match overwrites an earlier one. */
  function BinaryUrl(assets: seq<Asset>, assetName: string): string {
    UrlAt(assets, LastNamed(assets, assetName))
  }

  function ChecksumUrl(assets: seq<Asset>, assetName: string): string {
    if assetName == ChecksumsFile then "" else UrlAt(assets, LastNamed(assets, ChecksumsFile))
  }

  /** The asset scan in `downloadAndInstall`. */
  method ScanAssets(assets: seq<Asset>, assetName: string) returns (downloadUrl: string, checksumUrl: string)
    ensures downloadUrl == BinaryUrl(assets, assetName)
    ensures checksumUrl == ChecksumUrl(assets, assetName)
  {
    downloadUrl, checksumUrl := "", "";
    var i := 0;
    while i < |assets|
      invariant 0 <= i <= |assets|
      invariant downloadUrl == BinaryUrl(assets[..i], assetName)
      invariant checksumUrl == ChecksumUrl(assets[..i], assetName)
    {
      assert assets[..i + 1][..i] == assets[..i];
      if assets[i].name == assetName {
        downloadUrl := assets[i].downloadUrl;
      } else if assets[i].name == ChecksumsFile {
        checksumUrl := assets[i].downloadUrl;
      }
      i := i + 1;
    }
    assert assets[..i] == assets;
  }

  /** A checksums.txt line "<hash> <file>" naming `assetName`. */
  predicate IsHashLine(line: string, assetName: string) {
    |Fields(line)| == 2 && Fields(line)[1] == assetName
  }

  /** The index of the first line that gives the hash of `assetName`. */
  function FirstHashLine(lines: seq<string>, assetName: string): (r: Option<nat>)
    ensures r.Some? ==> r.value < |lines| && IsHashLine(lines[r.value], assetName)
                        && forall k :: 0 <= k < r.value ==> !IsHashLine(lines[k], assetName)
    ensures r.None? ==> forall k :: 0 <= k < |lines| ==> !IsHashLine(lines[k], assetName)
    decreases |lines|
  {
    if |lines| == 0 then None
    else if IsHashLine(lines[0], assetName) then Some(0)
    else
      var rest := FirstHashLine(lines[1..], assetName);
      if rest.Some? then Some(rest.value + 1) else None
  }

  lemma FirstHashLineAt(lines: seq<string>, assetName: string, i: nat)
    requires i < |lines| && IsHashLine(lines[i], assetName)
    requires forall k :: 0 <= k < i ==> !IsHashLine(lines[k], assetName)
    ensures FirstHashLine(lines, assetName) == Some(i)
  {
  }

  /** The expected hash read from checksums.txt, "" when no line names the asset. */
  function ExpectedHash(checksums: string, assetName: string): string {
    HashFrom(Split(checksums, '\n'), assetName)
  }

  /** The "" sentinel is unambiguous: a hash field is never empty. */
  lemma ExpectedHashFound(checksums: string, assetName: string)
    ensures ExpectedHash(checksums, assetName) != "" <==> FirstHashLine(Split(checksums, '\n'), assetName).Some?
  {
    var lines := Split(checksums, '\n');
    var k := FirstHashLine(lines, assetName);
    if k.Some? {
      FieldsAreWords(lines[k.value]);
    }
  }

  /** `verifyChecksum`, with the download of checksums.txt and the file's SHA-256 as inputs. */
  function ChecksumCheck(checksums: Result<string>, fileHash: Result<string>, assetName: string): (r: Outcome)
    ensures r.Pass? <==> checksums.Ok? && ExpectedHash(checksums.value, assetName) != ""
                         && fileHash == Ok(ExpectedHash(checksums.value, assetName))
  {
    if checksums.Err? then Fail(checksums.error)
    else
      var expected := ExpectedHash(checksums.value, assetName);
      if expected == "" then Fail("checksum not found for " + assetName)
      else if fileHash.Err? then Fail(fileHash.error)
      else if fileHash.value != expected then
        Fail("checksum mismatch: expected " + expected + ", got " + fileHash.value)
      else Pass
  }

  /** The hash field of the first line of checksums.txt that names the asset, or "". */
  function HashFrom(lines: seq<string>, assetName: string): string {
    var k := FirstHashLine(lines, assetName);
    if k.Some? then Fields(lines[k.value])[0] else ""
  }

  /** The line scan of `verifyChecksum`: it stops at the first line naming the asset. */
  method FindExpectedHash(lines: seq<string>, assetName: string) returns (expected: string)
    ensures expected == HashFrom(lines, assetName)
  {
    expected := "";
    var i := 0;
    while i < |lines|
      invariant 0 <= i <= |lines|
      invariant forall k :: 0 <= k < i ==> !IsHashLine(lines[k], assetName)
    {
      if IsHashLine(lines[i], assetName) {
        FirstHashLineAt(lines, assetName, i);
        return Fields(lines[i])[0];
      }
      i := i + 1;
    }
  }

  /** `verifyChecksum`. */
  method VerifyChecksum(checksums: Result<string>, fileHash: Result<string>, assetName: string) returns (r: Outcome)
    ensures r == ChecksumCheck(checksums, fileHash, assetName)
  {
    if checksums.Err? {
      return Fail(checksums.error);
    }
    var expected := FindExpectedHash(Split(checksums.value, '\n'), assetName);
    if expected == "" {
      return Fail("checksum not found for " + assetName);
    }
    if fileHash.Err? {
      return Fail(fileHash.error);
    }
    if fileHash.value != expected {
      return Fail("checksum mismatch: expected " + expected + ", got " + fileHash.value);
    }
    return Pass;
  }

  // ---------------------------------------------------------------------------
  // Download, install and the update decision
  // ---------------------------------------------------------------------------

  /** The outcomes of the effects `downloadAndInstall` performs, in the order it performs them. */
  datatype InstallEnv = InstallEnv(
    goos: string, goarch: string,
    tempDir: Outcome, download: Outcome,
    checksums: Result<string>, fileHash: Result<string>,
    extract: Outcome, chmod: Outcome, executable: Outcome, replace: Outcome)

  /** `downloadAndInstall`: the first failing step is reported; the checksum is verified only when published. */
  function Install(release: Release, env: InstallEnv): (r: Outcome)
    ensures r.Pass? ==> BinaryUrl(release.assets, AssetName(env.goos, env.goarch)) != ""
    ensures r.Pass? && ChecksumUrl(release.assets, AssetName(env.goos, env.goarch)) != "" ==>
              ChecksumCheck(env.checksums, env.fileHash, AssetName(env.goos, env.goarch)).Pass?
    ensures r.Pass? ==> env.replace.Pass?
  {
    var name := AssetName(env.goos, env.goarch);
    var downloadUrl := BinaryUrl(release.assets, name);
    var checksumUrl := ChecksumUrl(release.assets, name);
    var check := ChecksumCheck(env.checksums, env.fileHash, name);
    if downloadUrl == "" then Fail("no binary found for platform " + env.goos + "/" + env.goarch)
    else if env.tempDir.Fail? then Fail("failed to create temp directory: " + env.tempDir.error)
    else if env.download.Fail? then Fail("failed to download binary: " + env.download.error)
    else if checksumUrl != "" && check.Fail? then Fail("checksum verification failed: " + check.error)
    else if HasSuffix(name, TarGz) && env.extract.Fail? then Fail("failed to extract binary: " + env.extract.error)
    else if env.chmod.Fail? then Fail("failed to make binary executable: " + env.chmod.error)
    else if env.executable.Fail? then Fail("failed to get current executable path: " + env.executable.error)
    else if env.replace.Fail? then Fail("failed to replace binary: " + env.replace.error)
    else Pass
  }

  method DownloadAndInstall(release: Release, env: InstallEnv) returns (r: Outcome)
    ensures r == Install(release, env)
  {
    var name := AssetName(env.goos, env.goarch);
    var downloadUrl, checksumUrl := ScanAssets(release.assets, name);
    if downloadUrl == "" {
      return Fail("no binary found for platform " + env.goos + "/" + env.goarch);
    }
    if env.tempDir.Fail? {
      return Fail("failed to create temp directory: " + env.tempDir.error);
    }
    if env.download.Fail? {
      return Fail("failed to download binary: " + env.download.error);
    }
    if checksumUrl != "" {
      var check := VerifyChecksum(env.checksums, env.fileHash, name);
      if check.Fail? {
        return Fail("checksum verification failed: " + check.error);
      }
    }
    if HasSuffix(name, TarGz) && env.extract.Fail? {
      return Fail("failed to extract binary: " + env.extract.error);
    }
    if env.chmod.Fail? {
      return Fail("failed to make binary executable: " + env.chmod.error);
    }
    if env.executable.Fail? {
      return Fail("failed to get current executable path: " + env.executable.error);
    }
    if env.replace.Fail? {
      return Fail("failed to replace binary: " + env.replace.error);
    }
    return Pass;
  }

  /** The update/skip decision: install when forced or when the release is newer, after stripping one "v". */
  predicate ShouldInstall(force: bool, tag: string, version: string) {
    force || Newer(TrimPrefix(tag, "v"), TrimPrefix(version, "v"))
  }

  /** `runUpdate` for the running `version`. */
  function UpdateResult(version: string, force: bool, prerelease: bool,
                        response: Response<seq<Release>>, env: InstallEnv): Result<UpdateAction>
  {
    var latest := LatestRelease(response, prerelease);
    if latest.Err? then Err("failed to get latest release: " + latest.error)
    else if !ShouldInstall(force, latest.value.tagName, version) then Ok(AlreadyLatest)
    else
      var installed := Install(latest.value, env);
      if installed.Fail? then Err(installed.error) else Ok(Updated(latest.value.tagName))
  }

  method RunUpdate(version: string, force: bool, prerelease: bool,
                   response: Response<seq<Release>>, env: InstallEnv) returns (r: Result<UpdateAction>)
    ensures r == UpdateResult(version, force, prerelease, response, env)
  {
    var release := GetLatestRelease(response, prerelease);
    if release.Err? {
      return Err("failed to get latest release: " + release.error);
    }
    var newer := IsNewerVersion(TrimPrefix(release.value.tagName, "v"), TrimPrefix(version, "v"));
    if !force && !newer {
      return Ok(AlreadyLatest);
    }
    var installed := DownloadAndInstall(release.value, env);
    if installed.Fail? {
      return Err(installed.error);
    }
    return Ok(Updated(release.value.tagName));
  }

  /**
   * The updater installs only what it selected, and only when forced or newer;
   * an unforced run never reinstalls the running version.
   */
  lemma UpdateDecision(version: string, force: bool, prerelease: bool,
                       response: Response<seq<Release>>, env: InstallEnv)
    ensures var r := UpdateResult(version, force, prerelease, response, env);
            && (r == Ok(AlreadyLatest) <==>
                  LatestRelease(response, prerelease).Ok?
                  && !ShouldInstall(force, LatestRelease(response, prerelease).value.tagName, version))
            && (r.Ok? && r.value.Updated? ==>
                  && LatestRelease(response, prerelease).Ok?
                  && r.value.tag == LatestRelease(response, prerelease).value.tagName
                  && ShouldInstall(force, r.value.tag, version)
                  && Install(LatestRelease(response, prerelease).value, env).Pass?)
            && ((!force && LatestRelease(response, prerelease).Ok?
                 && TrimPrefix(version, "v") == TrimPrefix(LatestRelease(response, prerelease).value.tagName, "v"))
                ==> r == Ok(AlreadyLatest))
  {
    var latest := LatestRelease(response, prerelease);
    if latest.Ok? {
      NewerAsymmetric(TrimPrefix(version, "v"), TrimPrefix(latest.value.tagName, "v"));
    }
  }
}
