/**
 * The newer updater in `tools/amgctl/cmd/update.go`: it compares tags as plain
 * strings, reads the "latest" endpoint (or the first listed release), and takes
 * the first asset with the platform's exact name.
 */
module CmdUpdate {
  import opened Wrappers
  import opened Strings
  import opened GitHub

  /** The asset name this updater looks for (no ".exe" suffix on any platform). */
  function PlatformAsset(goos: string, goarch: string): string {
    "amgctl-" + goos + "-" + goarch
  }

  /** The index of the first asset named `name`. */
  function FirstNamed(assets: seq<Asset>, name: string): (r: Option<nat>)
    ensures r.Some? ==> r.value < |assets| && assets[r.value].name == name
                        && forall k :: 0 <= k < r.value ==> assets[k].name != name
    ensures r.None? ==> forall k :: 0 <= k < |assets| ==> assets[k].name != name
    decreases |assets|
  {
    if |assets| == 0 then None
    else if assets[0].name == name then Some(0)
    else
      var rest := FirstNamed(assets[1..], name);
      if rest.Some? then Some(rest.value + 1) else None
  }

  /**
   * The release `getLatestVersion` inspects: the body of the "latest" endpoint,
   * or in prerelease mode the first listed release whatever its flag (an empty
   * list gives a release with no tag and no assets).
   */
  function FetchedRelease(prerelease: bool, latest: Response<Release>, listing: Response<seq<Release>>): (r: Result<Release>)
    ensures prerelease && listing.Reply? && listing.status == StatusOK && listing.body.Ok? ==>
              r == Ok(if |listing.body.value| > 0 then listing.body.value[0] else Release("", false, []))
    ensures !prerelease ==> (r.Ok? <==> latest.Reply? && latest.status == StatusOK && latest.body.Ok?)
    ensures !prerelease && r.Ok? ==> r.value == latest.body.value
    ensures prerelease && listing.Reply? && listing.status != StatusOK ==>
              r == Err("failed to fetch releases: " + listing.statusText)
    ensures !prerelease && latest.Reply? && latest.status != StatusOK ==>
              r == Err("failed to fetch releases: " + latest.statusText)
  {
    if prerelease then
      match listing
      case TransportError(msg) => Err("failed to fetch releases: " + msg)
      case Reply(status, statusText, body) =>
        if status != StatusOK then Err("failed to fetch releases: " + statusText)
        else if body.Err? then Err("failed to parse releases: " + body.error)
        else if |body.value| > 0 then Ok(body.value[0])
        else Ok(Release("", false, []))
    else
      match latest
      case TransportError(msg) => Err("failed to fetch releases: " + msg)
      case Reply(status, statusText, body) =>
        if status != StatusOK then Err("failed to fetch releases: " + statusText)
        else if body.Err? then Err("failed to parse release: " + body.error)
        else Ok(body.value)
  }

  /** The tag and download URL `getLatestVersion` returns. */
  function LatestVersion(prerelease: bool, goos: string, goarch: string,
                         latest: Response<Release>, listing: Response<seq<Release>>): (r: Result<(string, string)>)
    ensures r.Ok? <==> FetchedRelease(prerelease, latest, listing).Ok?
                       && FirstNamed(FetchedRelease(prerelease, latest, listing).value.assets, PlatformAsset(goos, goarch)).Some?
    ensures r.Ok? ==>
              var release := FetchedRelease(prerelease, latest, listing).value;
              var k := FirstNamed(release.assets, PlatformAsset(goos, goarch)).value;
              r.value == (release.tagName, release.assets[k].downloadUrl)
  {
    var release := FetchedRelease(prerelease, latest, listing);
    if release.Err? then Err(release.error)
    else
      var k := FirstNamed(release.value.assets, PlatformAsset(goos, goarch));
      if k.None? then Err("no suitable asset found for " + goos + "/" + goarch)
      else Ok((release.value.tagName, release.value.assets[k.value].downloadUrl))
  }

  /** An empty release list in prerelease mode leaves no asset to pick. */
  lemma EmptyListingFails(goos: string, goarch: string, latest: Response<Release>, statusText: string)
    ensures LatestVersion(true, goos, goarch, latest, Reply(StatusOK, statusText, Ok([]))).Err?
  {
  }

  /** `getLatestVersion`: the asset scan returns at the first exact name. */
  method GetLatestVersion(prerelease: bool, goos: string, goarch: string,
                          latest: Response<Release>, listing: Response<seq<Release>>) returns (r: Result<(string, string)>)
    ensures r == LatestVersion(prerelease, goos, goarch, latest, listing)
  {
    var release := FetchedRelease(prerelease, latest, listing);
    if release.Err? {
      return Err(release.error);
    }
    var assetName := PlatformAsset(goos, goarch);
    var assets := release.value.assets;
    var i := 0;
    while i < |assets|
      invariant 0 <= i <= |assets|
      invariant forall k :: 0 <= k < i ==> assets[k].name != assetName
    {
      if assets[i].name == assetName {
        return Ok((release.value.tagName, assets[i].downloadUrl));
      }
      i := i + 1;
    }
    return Err("no suitable asset found for " + goos + "/" + goarch);
  }

  /** The outcomes of the effects `downloadAndInstall` performs, in order. */
  datatype InstallEnv = InstallEnv(
    executable: Outcome, createTemp: Outcome, download: Outcome,
    copy: Outcome, chmod: Outcome, close: Outcome, rename: Outcome)

  /** `downloadAndInstall`: the first failing step is reported with its context. */
  function Install(env: InstallEnv): (r: Outcome)
    ensures r.Pass? <==> env.executable.Pass? && env.createTemp.Pass? && env.download.Pass?
                         && env.copy.Pass? && env.chmod.Pass? && env.close.Pass? && env.rename.Pass?
  {
    if env.executable.Fail? then Fail("could not get executable path: " + env.executable.error)
    else if env.createTemp.Fail? then Fail("could not create temporary file: " + env.createTemp.error)
    else if env.download.Fail? then Fail("could not download new version: " + env.download.error)
    else if env.copy.Fail? then Fail("could not write to temporary file: " + env.copy.error)
    else if env.chmod.Fail? then Fail("could not make temporary file executable: " + env.chmod.error)
    else if env.close.Fail? then Fail("could not close temporary file: " + env.close.error)
    else if env.rename.Fail? then Fail("could not replace executable: " + env.rename.error)
    else Pass
  }

  /** `Update`: always reads the "latest" endpoint; skips only an unforced run whose tag equals `version`. */
  function UpdateResult(version: string, force: bool, goos: string, goarch: string,
                        latest: Response<Release>, listing: Response<seq<Release>>, env: InstallEnv): Result<UpdateAction>
  {
    var found := LatestVersion(false, goos, goarch, latest, listing);
    if found.Err? then Err("failed to get latest version: " + found.error)
    else if !force && found.value.0 == version then Ok(AlreadyLatest)
    else
      var installed := Install(env);
      if installed.Fail? then Err(installed.error) else Ok(Updated(found.value.0))
  }

  method Update(version: string, force: bool, goos: string, goarch: string,
                latest: Response<Release>, listing: Response<seq<Release>>, env: InstallEnv) returns (r: Result<UpdateAction>)
    ensures r == UpdateResult(version, force, goos, goarch, latest, listing, env)
  {
    var found := GetLatestVersion(false, goos, goarch, latest, listing);
    if found.Err? {
      return Err("failed to get latest version: " + found.error);
    }
    var (latestVersion, releaseUrl) := found.value;
    if !force && latestVersion == version {
      return Ok(AlreadyLatest);
    }
    var installed := Install(env);
    if installed.Fail? {
      return Err(installed.error);
    }
    return Ok(Updated(latestVersion));
  }

  /**
   * The skip decision is exact string equality on the tag: nothing is stripped,
   * the listing is never consulted, and a tag "v1.0.0" is reinstalled over version "1.0.0".
   */
  lemma SkipIffSameTag(version: string, force: bool, goos: string, goarch: string,
                       latest: Response<Release>, listing: Response<seq<Release>>, env: InstallEnv)
    requires LatestVersion(false, goos, goarch, latest, listing).Ok?
    ensures UpdateResult(version, force, goos, goarch, latest, listing, env) == Ok(AlreadyLatest)
            <==> !force && latest.body.value.tagName == version
    ensures forall other: Response<seq<Release>> ::
              UpdateResult(version, force, goos, goarch, latest, other, env)
              == UpdateResult(version, force, goos, goarch, latest, listing, env)
  {
  }
}
