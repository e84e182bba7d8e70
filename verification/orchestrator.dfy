/**
 * `_check_and_install`: find a usable vhs, or refuse, or download vhs and its
 * helpers ttyd and ffmpeg into the cache directory and return the binary
 * together with the search path that puts the cache first. Also `_get_path`,
 * the PATH lookup the resolver starts from.
 *
 * The outside world is an input: what `shutil.which` found, what each
 * binary printed for `--version`, the release lists, the failure (if any) of
 * a download or an unpack, and the directories an archive unpacked to. The
 * cache directory is the set of file names in it.
 */
module Orchestrator {
  import opened Wrappers
  import opened Text
  import opened Errors
  import opened Versions
  import opened Releases

  // ---------------------------------------------------------------------------
  // Inputs from the outside world

  /** What one tool's release host and archive give an installer. */
  datatype ToolSource = ToolSource(
    releases: seq<Release>,
    // str() of the exception the download or the unpacking raised, if any
    fetchError: Option<string>,
    // the temporary directory the archive is downloaded and unpacked into
    tmpDir: string,
    // directory (relative to tmpDir) |-> names of the files in it, after unpacking
    unpacked: map<string, set<string>>)

  datatype Host = Host(
    platform: string,        // sys.platform
    architecture: string,    // platform.architecture()[0]
    systemVhs: Option<string>,      // shutil.which("vhs", path=path)
    systemOutput: Option<string>,   // `<system vhs> --version`, None when it could not run
    cachedOutput: Option<string>,   // `<cache>/vhs --version` before an install
    installedOutput: Option<string>, // `<cache>/vhs --version` after an install
    ttyd: ToolSource,
    ffmpeg: ToolSource,
    vhs: ToolSource)

  /** Where the returned binary came from. */
  datatype Source = SystemInstall | CachedDownload | FreshDownload(outdated: bool)

  /** `(vhs_path, path)` as `_check_and_install` returns it, tagged with its origin. */
  datatype Resolution = Resolution(vhsPath: string, path: string, source: Source)

  // ---------------------------------------------------------------------------
  // Small pure pieces

  /** One leading "v" is dropped: "v0.5.0" is read as "0.5.0". */
  function StripLeadingV(s: string): (r: string)
    ensures StartsWith(s, "v") ==> "v" + r == s
    ensures !StartsWith(s, "v") ==> r == s
  {
    if StartsWith(s, "v") then
      assert s == [s[0]] + s[1..];
      s[1..]
    else s
  }

  /** Only one "v" goes, even when the rest starts with another. */
  lemma StripLeadingVOnce(s: string)
    ensures StripLeadingV("v" + s) == s
  {
    assert ("v" + s)[1..] == s;
  }

  /** The max bound is stripped the same way when it is given at all. */
  function StripLeadingVIfGiven(s: Option<string>): (r: Option<string>)
    ensures r.Some? <==> s.Some?
    ensures s.Some? ==> r.value == StripLeadingV(s.value)
  {
    if s.Some? then Some(StripLeadingV(s.value)) else None
  }

  /**
   * `_get_path`: the PATH of the given environment, else the ambient PATH,
   * else the system default search path (`os.confstr("CS_PATH")`, which may
   * be unavailable), else `os.defpath`. An empty value counts as present.
   */
  function GetPath(env: Option<map<string, string>>, ambient: map<string, string>,
                   csPath: Option<string>, defpath: string): (r: string)
    ensures env.Some? && "PATH" in env.value ==> r == env.value["PATH"]
    ensures !(env.Some? && "PATH" in env.value) && "PATH" in ambient ==> r == ambient["PATH"]
    ensures !(env.Some? && "PATH" in env.value) && "PATH" !in ambient ==> r == csPath.GetOr(defpath)
  {
    var given := if env.Some? then env.value else map[];
    if "PATH" in given then given["PATH"]
    else if "PATH" in ambient then ambient["PATH"]
    else if csPath.Some? then csPath.value
    else defpath
  }

  /** `a / b` on paths. */
  function JoinPath(dir: string, name: string): (r: string)
    ensures StartsWith(r, dir) && EndsWith(r, name) && |r| == |dir| + 1 + |name| && r[|dir|] == '/'
  {
    dir + "/" + name
  }

  /** str() of FileNotFoundError for one path. */
  function NoSuchFile(path: string): string {
    "[Errno 2] No such file or directory: '" + path + "'"
  }

  /** str() of the FileNotFoundError os.replace raises for a missing source. */
  function NoSuchFileToMove(src: string, dst: string): string {
    "[Errno 2] No such file or directory: '" + src + "' -> '" + dst + "'"
  }

  function InstallFailedPrefix(tool: string): string {
    tool + " install failed: "
  }

  /** VhsError(f"{tool} install failed: {e}"), the installers' wrapping of any exception. */
  function InstallFailure(tool: string, detail: string): (e: Error)
    ensures e.VhsError? && StartsWith(e.message, InstallFailedPrefix(tool))
    ensures EndsWith(e.message, detail)
  {
    var m := InstallFailedPrefix(tool) + detail;
    assert m[..|InstallFailedPrefix(tool)|] == InstallFailedPrefix(tool);
    assert m[|m| - |detail|..] == detail;
    VhsError(m)
  }

  const InstallDocs := "https://github.com/charmbracelet/vhs#installation"

  /** The f-string rendering of the system version: a text, or None. */
  function Show(v: Option<string>): string {
    if v.Some? then v.value else "None"
  }

  /**
   * What follows the wanted window in the outdated refusal: " is required; "
   * and then brew instructions with the installation link text on darwin,
   * the upgrade link text elsewhere.
   */
  const Required := " is required; "
  const BrewUpgrade := "run `brew upgrade vhs` to upgrade it, or "
  const PlainUpgrade := "see upgrade instructions at "

  /** The missing refusal: its head, the brew instructions given only on darwin, and the closing link text. */
  const MissingHead := "VHS is not installed on your system; "
  const BrewInstall := "run `brew install vhs` to install it, or "
  const InstallHint := "see installation instructions at "

  /**
   * The refusal when an outdated vhs was found: it names the version found
   * and the window wanted, then gives brew instructions exactly on darwin.
   * The positions and the length pin the text down completely.
   */
  function OutdatedMessage(platform: string, version: Option<string>, window: string): (m: string)
    ensures StartsWith(m, "you have VHS ") && Contains(m, window) && EndsWith(m, InstallDocs)
    ensures StartsWith(m, "you have VHS " + Show(version) + ", but ")
    ensures OccursAt(m, window, |"you have VHS " + Show(version) + ", but "|)
    ensures var at := |"you have VHS " + Show(version) + ", but "| + |window|;
      && OccursAt(m, Required, at)
      && (platform == "darwin" <==> OccursAt(m, BrewUpgrade, at + |Required|))
      && (platform == "darwin" ==> OccursAt(m, InstallHint, at + |Required| + |BrewUpgrade|))
      && (platform != "darwin" ==> OccursAt(m, PlainUpgrade, at + |Required|))
      && |m| == at + |Required| + |InstallDocs|
                + (if platform == "darwin" then |BrewUpgrade| + |InstallHint| else |PlainUpgrade|)
  {
    var head := "you have VHS " + Show(version) + ", but ";
    var front := head + window;
    var m := if platform == "darwin" then front + Required + BrewUpgrade + InstallHint + InstallDocs
             else front + Required + PlainUpgrade + InstallDocs;
    Concat3("you have VHS ", Show(version), ", but ");
    Concat2(head, window);
    if platform == "darwin" then
      Concat5(front, Required, BrewUpgrade, InstallHint, InstallDocs);
      StartsWithTrans(m, front, head);
      StartsWithTrans(m, head, "you have VHS ");
      PrefixOccurs(m, head, window);
      m
    else
      Concat4(front, Required, PlainUpgrade, InstallDocs);
      StartsWithTrans(m, front, head);
      StartsWithTrans(m, head, "you have VHS ");
      PrefixOccurs(m, head, window);
      DifferAt(m, PlainUpgrade, BrewUpgrade, |front| + |Required|, 0);
      m
  }

  /** The refusal when no vhs was found at all: brew instructions exactly on darwin, then the installation link. */
  function MissingMessage(platform: string): (m: string)
    ensures StartsWith(m, MissingHead) && EndsWith(m, InstallDocs)
    ensures platform == "darwin" <==> OccursAt(m, BrewInstall, |MissingHead|)
    ensures EndsWith(m, InstallHint + InstallDocs)
    ensures |m| == |MissingHead| + (if platform == "darwin" then |BrewInstall| else 0) + |InstallHint| + |InstallDocs|
  {
    var lead := if platform == "darwin" then BrewInstall else "";
    var m := MissingHead + lead + InstallHint + InstallDocs;
    Concat4(MissingHead, lead, InstallHint, InstallDocs);
    if platform == "darwin" then m
    else
      DifferAt(m, InstallHint, BrewInstall, |MissingHead|, 0);
      m
  }

  /**
   * The refusal when vhs may not be downloaded: with brew instructions
   * exactly on darwin, plain ones elsewhere; naming the version found and
   * the window wanted when a vhs was found.
   */
  function RefusalMessage(platform: string, found: bool, version: Option<string>,
                          minText: string, maxText: Option<string>): (m: string)
    ensures found <==> StartsWith(m, "you have VHS ")
    ensures !found <==> StartsWith(m, MissingHead)
    ensures found ==> Contains(m, VersionMessage(minText, maxText))
    ensures found ==> StartsWith(m, "you have VHS " + Show(version) + ", but ")
    ensures found ==> (platform == "darwin" <==> OccursAt(m, BrewUpgrade, |"you have VHS " + Show(version) + ", but "|
                                                                         + |VersionMessage(minText, maxText)| + |Required|))
    ensures !found ==> (platform == "darwin" <==> OccursAt(m, BrewInstall, |MissingHead|))
    ensures EndsWith(m, InstallDocs)
  {
    if found then
      var m := OutdatedMessage(platform, version, VersionMessage(minText, maxText));
      assert |m| >= 37 ==> m[..37][0] == m[0] == 'y';
      m
    else
      var m := MissingMessage(platform);
      assert |m| >= 13 ==> m[..13][0] == m[0] == 'V';
      m
  }

  /** The platform gate: a download happens only on 64-bit linux with install enabled. */
  predicate MayDownload(platform: string, architecture: string, install: bool) {
    platform != "darwin" && !(!install || platform != "linux" || architecture != "64bit")
  }

  // ---------------------------------------------------------------------------
  // The three installers, as functions of the cache they start from

  /** `_install_ttyd`: the first x86_64 asset of the latest release, copied in as "ttyd". */
  function TtydInstall(src: ToolSource, platform: string, cache: set<string>): (r: Result<set<string>, Error>)
    ensures r.Ok? <==> Selection("ttyd", platform, None, None, src.releases, TtydAsset).Ok? && src.fetchError.None?
    ensures r.Ok? ==> r.value == cache + {"ttyd"}
    ensures r.Err? ==> r.error.VhsError? && StartsWith(r.error.message, InstallFailedPrefix("ttyd"))
  {
    var asset := Selection("ttyd", platform, None, None, src.releases, TtydAsset);
    if asset.Err? then Err(InstallFailure("ttyd", Message(asset.error)))
    else if src.fetchError.Some? then Err(InstallFailure("ttyd", src.fetchError.value))
    else Ok(cache + {"ttyd"})
  }

  /** `_install_ffmpeg`: every file of `<archive dir>/bin` is copied into the cache. */
  function FfmpegInstall(src: ToolSource, platform: string, cache: set<string>): (r: Result<set<string>, Error>)
    ensures r.Ok? <==> var sel := Selection("ffmpeg", platform, None, None, src.releases, FfmpegAsset);
      sel.Ok? && src.fetchError.None? && StripArchiveSuffix(sel.value.name) + "/bin" in src.unpacked
    ensures r.Ok? ==> var dir := StripArchiveSuffix(Selection("ffmpeg", platform, None, None, src.releases, FfmpegAsset).value.name) + "/bin";
      dir in src.unpacked && r.value == cache + src.unpacked[dir]
    ensures r.Err? ==> r.error.VhsError? && StartsWith(r.error.message, InstallFailedPrefix("ffmpeg"))
  {
    var asset := Selection("ffmpeg", platform, None, None, src.releases, FfmpegAsset);
    if asset.Err? then Err(InstallFailure("ffmpeg", Message(asset.error)))
    else if src.fetchError.Some? then Err(InstallFailure("ffmpeg", src.fetchError.value))
    else
      var dir := StripArchiveSuffix(asset.value.name) + "/bin";
      if dir !in src.unpacked then Err(InstallFailure("ffmpeg", NoSuchFile(JoinPath(src.tmpDir, dir))))
      else Ok(cache + src.unpacked[dir])
  }

  /** `_install_vhs`: the first Linux_x86_64 archive in the window, its `vhs` copied into the cache. */
  function VhsInstall(src: ToolSource, platform: string, minText: string, maxText: Option<string>,
                      binPath: string, cache: set<string>): (r: Result<set<string>, Error>)
    ensures r.Ok? <==> var sel := Selection("vhs", platform, Some(minText), maxText, src.releases, VhsAsset);
      sel.Ok? && src.fetchError.None? && StripArchiveSuffix(sel.value.name) in src.unpacked
      && "vhs" in src.unpacked[StripArchiveSuffix(sel.value.name)]
    ensures r.Ok? ==> r.value == cache + {"vhs"}
    ensures r.Err? ==> r.error.VhsError? && StartsWith(r.error.message, InstallFailedPrefix("vhs"))
  {
    var asset := Selection("vhs", platform, Some(minText), maxText, src.releases, VhsAsset);
    if asset.Err? then Err(InstallFailure("vhs", Message(asset.error)))
    else if src.fetchError.Some? then Err(InstallFailure("vhs", src.fetchError.value))
    else
      var dir := StripArchiveSuffix(asset.value.name);
      if dir in src.unpacked && "vhs" in src.unpacked[dir] then Ok(cache + {"vhs"})
      else Err(InstallFailure("vhs", NoSuchFileToMove(JoinPath(JoinPath(src.tmpDir, dir), "vhs"), JoinPath(binPath, "vhs"))))
  }

  /** ttyd is installed only when the cache lacks it. */
  function WithTtyd(host: Host, cache: set<string>): (r: Result<set<string>, Error>)
    ensures r.Ok? ==> cache <= r.value && "ttyd" in r.value
    ensures "ttyd" in cache ==> r == Ok(cache)
    ensures "ttyd" !in cache ==> r == TtydInstall(host.ttyd, host.platform, cache)
  {
    if "ttyd" in cache then Ok(cache) else TtydInstall(host.ttyd, host.platform, cache)
  }

  /** ffmpeg is installed only when the cache lacks it. */
  function WithFfmpeg(host: Host, cache: set<string>): (r: Result<set<string>, Error>)
    ensures r.Ok? ==> cache <= r.value
    ensures "ffmpeg" in cache ==> r == Ok(cache)
    ensures "ffmpeg" !in cache ==> r == FfmpegInstall(host.ffmpeg, host.platform, cache)
  {
    if "ffmpeg" in cache then Ok(cache) else FfmpegInstall(host.ffmpeg, host.platform, cache)
  }

  // ---------------------------------------------------------------------------
  // The decision procedure

  /** A fresh vhs download; after it an outdated binary is only a warning. */
  function FreshVhs(minText: string, maxText: Option<string>, binPath: string, path: string,
                    host: Host, cache: set<string>): (r: (Result<Resolution, Error>, set<string>))
    ensures cache <= r.1
    ensures r.0.Ok? ==> && r.0.value.vhsPath == JoinPath(binPath, "vhs") && r.0.value.path == path
                        && r.0.value.source.FreshDownload? && "vhs" in r.1
  {
    match VhsInstall(host.vhs, host.platform, minText, maxText, binPath, cache)
    case Err(e) => (Err(e), cache)
    case Ok(installed) =>
      match CheckVersion(minText, maxText, host.installedOutput)
      case Err(e) => (Err(e), installed)
      case Ok(c) => (Ok(Resolution(JoinPath(binPath, "vhs"), path, FreshDownload(!c.usable))), installed)
  }

  /** After ttyd and ffmpeg: a cached vhs that passes is reused, else vhs is downloaded. */
  function CachedOrFreshVhs(minText: string, maxText: Option<string>, binPath: string, path: string,
                            host: Host, cache: set<string>): (r: (Result<Resolution, Error>, set<string>))
    ensures cache <= r.1
    ensures r.0.Ok? ==> && r.0.value.vhsPath == JoinPath(binPath, "vhs") && r.0.value.path == path
                        && r.0.value.source != SystemInstall && "vhs" in r.1
    ensures r.0.Ok? && r.0.value.source == CachedDownload ==> r.1 == cache
    ensures var c := CheckVersion(minText, maxText, host.cachedOutput);
      "vhs" in cache && c.Ok? && c.value.usable ==> r == (Ok(Resolution(JoinPath(binPath, "vhs"), path, CachedDownload)), cache)
    ensures var c := CheckVersion(minText, maxText, host.cachedOutput);
      "vhs" in cache && c.Err? ==> r == (Err(c.error), cache)
    ensures var c := CheckVersion(minText, maxText, host.cachedOutput);
      "vhs" !in cache || (c.Ok? && !c.value.usable) ==> r == FreshVhs(minText, maxText, binPath, path, host, cache)
  {
    if "vhs" in cache then
      match CheckVersion(minText, maxText, host.cachedOutput)
      case Err(e) => (Err(e), cache)
      case Ok(c) =>
        if c.usable then (Ok(Resolution(JoinPath(binPath, "vhs"), path, CachedDownload)), cache)
        else FreshVhs(minText, maxText, binPath, path, host, cache)
    else FreshVhs(minText, maxText, binPath, path, host, cache)
  }

  /**
   * Everything after the platform gate let a download through: the
   * helpers, then the search path with the cache directory in front, then vhs.
   */
  function Download(minText: string, maxText: Option<string>, binPath: string, path: string,
                    host: Host, cache: set<string>): (r: (Result<Resolution, Error>, set<string>))
    ensures cache <= r.1
    ensures r.0.Ok? ==> && r.0.value.vhsPath == JoinPath(binPath, "vhs")
                        && r.0.value.path == PrependPath(binPath, path)
                        && r.0.value.source != SystemInstall && "vhs" in r.1 && "ttyd" in r.1
    ensures WithTtyd(host, cache).Err? ==> r == (Err(WithTtyd(host, cache).error), cache)
    ensures WithTtyd(host, cache).Ok? ==>
              var withTtyd := WithTtyd(host, cache).value;
              && (WithFfmpeg(host, withTtyd).Err? ==> r == (Err(WithFfmpeg(host, withTtyd).error), withTtyd))
              && (WithFfmpeg(host, withTtyd).Ok? ==>
                    r == CachedOrFreshVhs(minText, maxText, binPath, PrependPath(binPath, path), host,
                                          WithFfmpeg(host, withTtyd).value))
  {
    match WithTtyd(host, cache)
    case Err(e) => (Err(e), cache)
    case Ok(withTtyd) =>
      match WithFfmpeg(host, withTtyd)
      case Err(e) => (Err(e), withTtyd)
      case Ok(withFfmpeg) => CachedOrFreshVhs(minText, maxText, binPath, PrependPath(binPath, path), host, withFfmpeg)
  }

  /** The platform gate, then the download. */
  function Gate(minText: string, maxText: Option<string>, binPath: string, path: string, install: bool,
                host: Host, systemVersion: Option<string>, cache: set<string>): (r: (Result<Resolution, Error>, set<string>))
    ensures cache <= r.1
    ensures !MayDownload(host.platform, host.architecture, install) ==> r.1 == cache && r.0.Err?
    ensures MayDownload(host.platform, host.architecture, install) ==> r == Download(minText, maxText, binPath, path, host, cache)
    ensures r.0.Ok? ==> && r.0.value.vhsPath == JoinPath(binPath, "vhs")
                        && r.0.value.path == PrependPath(binPath, path)
                        && r.0.value.source != SystemInstall && "vhs" in r.1 && "ttyd" in r.1
  {
    if MayDownload(host.platform, host.architecture, install) then
      Download(minText, maxText, binPath, path, host, cache)
    else
      (Err(VhsError(RefusalMessage(host.platform, host.systemVhs.Some?, systemVersion, minText, maxText))), cache)
  }

  /**
   * `_check_and_install` as a function of its inputs and the cache it
   * starts from: (result, cache after). Installs only ever add to the cache.
   */
  function Outcome(minVersion: string, maxVersion: Option<string>, binPath: string, path: string, install: bool,
                   host: Host, cache: set<string>): (r: (Result<Resolution, Error>, set<string>))
    ensures cache <= r.1
  {
    var minText := StripLeadingV(minVersion);
    var maxText := StripLeadingVIfGiven(maxVersion);
    if host.systemVhs.Some? then
      match CheckVersion(minText, maxText, host.systemOutput)
      case Err(e) => (Err(e), cache)
      case Ok(c) =>
        if c.usable then (Ok(Resolution(host.systemVhs.value, path, SystemInstall)), cache)
        else Gate(minText, maxText, binPath, path, install, host, c.version, cache)
    else Gate(minText, maxText, binPath, path, install, host, None, cache)
  }

  // ---------------------------------------------------------------------------
  // The resolver, whose cache directory fills as it installs

  class Resolver {
    /** Names of the files in the cache directory. */
    var cache: set<string>

    constructor(files: set<string>)
      ensures cache == files
    {
      cache := files;
    }

    method InstallTtyd(src: ToolSource, platform: string) returns (failure: Option<Error>)
      modifies this
      ensures TtydInstall(src, platform, old(cache)).Ok? ==> failure.None? && cache == TtydInstall(src, platform, old(cache)).value
      ensures TtydInstall(src, platform, old(cache)).Err? ==> failure == Some(TtydInstall(src, platform, old(cache)).error) && cache == old(cache)
    {
      var asset := SelectRelease("ttyd", platform, None, None, src.releases, TtydAsset);
      if asset.Err? {
        return Some(InstallFailure("ttyd", Message(asset.error)));
      }
      if src.fetchError.Some? {
        return Some(InstallFailure("ttyd", src.fetchError.value));
      }
      cache := cache + {"ttyd"};
      return None;
    }

    method InstallFfmpeg(src: ToolSource, platform: string) returns (failure: Option<Error>)
      modifies this
      ensures FfmpegInstall(src, platform, old(cache)).Ok? ==> failure.None? && cache == FfmpegInstall(src, platform, old(cache)).value
      ensures FfmpegInstall(src, platform, old(cache)).Err? ==> failure == Some(FfmpegInstall(src, platform, old(cache)).error) && cache == old(cache)
    {
      var asset := SelectRelease("ffmpeg", platform, None, None, src.releases, FfmpegAsset);
      if asset.Err? {
        return Some(InstallFailure("ffmpeg", Message(asset.error)));
      }
      if src.fetchError.Some? {
        return Some(InstallFailure("ffmpeg", src.fetchError.value));
      }
      var dir := StripArchiveSuffix(asset.value.name) + "/bin";
      if dir !in src.unpacked {
        return Some(InstallFailure("ffmpeg", NoSuchFile(JoinPath(src.tmpDir, dir))));
      }
      cache := cache + src.unpacked[dir];
      return None;
    }

    method InstallVhs(src: ToolSource, platform: string, minText: string, maxText: Option<string>, binPath: string)
      returns (failure: Option<Error>)
      modifies this
      ensures VhsInstall(src, platform, minText, maxText, binPath, old(cache)).Ok? ==>
                failure.None? && cache == VhsInstall(src, platform, minText, maxText, binPath, old(cache)).value
      ensures VhsInstall(src, platform, minText, maxText, binPath, old(cache)).Err? ==>
                failure == Some(VhsInstall(src, platform, minText, maxText, binPath, old(cache)).error) && cache == old(cache)
    {
      var asset := SelectRelease("vhs", platform, Some(minText), maxText, src.releases, VhsAsset);
      if asset.Err? {
        return Some(InstallFailure("vhs", Message(asset.error)));
      }
      if src.fetchError.Some? {
        return Some(InstallFailure("vhs", src.fetchError.value));
      }
      var dir := StripArchiveSuffix(asset.value.name);
      if dir !in src.unpacked || "vhs" !in src.unpacked[dir] {
        var from := JoinPath(JoinPath(src.tmpDir, dir), "vhs");
        return Some(InstallFailure("vhs", NoSuchFileToMove(from, JoinPath(binPath, "vhs"))));
      }
      cache := cache + {"vhs"};
      return None;
    }

    /** A cached vhs that passes its check, else a fresh download of vhs. */
    method ResolveVhs(minText: string, maxText: Option<string>, binPath: string, path: string, host: Host)
      returns (r: Result<Resolution, Error>)
      modifies this
      ensures (r, cache) == CachedOrFreshVhs(minText, maxText, binPath, path, host, old(cache))
    {
      var vhsPath := JoinPath(binPath, "vhs");
      if "vhs" in cache {
        var check := CheckVersion(minText, maxText, host.cachedOutput);
        if check.Err? {
          return Err(check.error);
        }
        if check.value.usable {
          return Ok(Resolution(vhsPath, path, CachedDownload));
        }
      }
      var failure := InstallVhs(host.vhs, host.platform, minText, maxText, binPath);
      if failure.Some? {
        return Err(failure.value);
      }
      var check := CheckVersion(minText, maxText, host.installedOutput);
      if check.Err? {
        return Err(check.error);
      }
      return Ok(Resolution(vhsPath, path, FreshDownload(!check.value.usable)));
    }

    /** ttyd and ffmpeg unless cached, the search path with the cache in front, then vhs. */
    method DownloadAll(minText: string, maxText: Option<string>, binPath: string, path: string, host: Host)
      returns (r: Result<Resolution, Error>)
      modifies this
      ensures (r, cache) == Download(minText, maxText, binPath, path, host, old(cache))
    {
      if "ttyd" !in cache {
        var failure := InstallTtyd(host.ttyd, host.platform);
        if failure.Some? {
          return Err(failure.value);
        }
      }
      assert WithTtyd(host, old(cache)) == Ok(cache);
      ghost var withTtyd := cache;
      if "ffmpeg" !in cache {
        var failure := InstallFfmpeg(host.ffmpeg, host.platform);
        if failure.Some? {
          return Err(failure.value);
        }
      }
      assert WithFfmpeg(host, withTtyd) == Ok(cache);
      var searchPath := PrependPath(binPath, path);
      r := ResolveVhs(minText, maxText, binPath, searchPath, host);
    }

    /** The platform gate, then the download. */
    method GateAndDownload(minText: string, maxText: Option<string>, binPath: string, path: string,
                           install: bool, host: Host, systemVersion: Option<string>) returns (r: Result<Resolution, Error>)
      modifies this
      ensures (r, cache) == Gate(minText, maxText, binPath, path, install, host, systemVersion, old(cache))
    {
      if host.platform == "darwin" || !install || host.platform != "linux" || host.architecture != "64bit" {
        return Err(VhsError(RefusalMessage(host.platform, host.systemVhs.Some?, systemVersion, minText, maxText)));
      }
      r := DownloadAll(minText, maxText, binPath, path, host);
    }

    /** `_check_and_install`. */
    method CheckAndInstall(minVersion: string, maxVersion: Option<string>, binPath: string, path: string,
                           install: bool, host: Host) returns (r: Result<Resolution, Error>)
      modifies this
      ensures (r, cache) == Outcome(minVersion, maxVersion, binPath, path, install, host, old(cache))
    {
      var minText := StripLeadingV(minVersion);
      var maxText := maxVersion;
      if maxText.Some? && StartsWith(maxText.value, "v") {
        maxText := Some(maxText.value[1..]);
      }
      assert maxText == StripLeadingVIfGiven(maxVersion);

      // A pre-installed vhs.
      var systemVersion: Option<string> := None;
      if host.systemVhs.Some? {
        var check := CheckVersion(minText, maxText, host.systemOutput);
        if check.Err? {
          return Err(check.error);
        }
        if check.value.usable {
          return Ok(Resolution(host.systemVhs.value, path, SystemInstall));
        }
        systemVersion := check.value.version;
      }

      r := GateAndDownload(minText, maxText, binPath, path, install, host, systemVersion);
    }
  }

  // ---------------------------------------------------------------------------
  // Properties of the decision procedure

  /** A pre-installed vhs that passes the check is returned with the search path as given, and nothing is installed. */
  lemma PreinstalledWins(minVersion: string, maxVersion: Option<string>, binPath: string, path: string,
                         install: bool, host: Host, cache: set<string>)
    requires host.systemVhs.Some?
    requires var c := CheckVersion(StripLeadingV(minVersion), StripLeadingVIfGiven(maxVersion), host.systemOutput);
      c.Ok? && c.value.usable
    ensures Outcome(minVersion, maxVersion, binPath, path, install, host, cache)
         == (Ok(Resolution(host.systemVhs.value, path, SystemInstall)), cache)
  {
  }

  /**
   * Without a usable pre-installed vhs, darwin, a disabled install, or a
   * platform other than 64-bit linux is refused, the cache untouched; the
   * message says whether a vhs was found.
   */
  lemma GateRefusesInstall(minVersion: string, maxVersion: Option<string>, binPath: string, path: string,
                           install: bool, host: Host, cache: set<string>)
    requires !MayDownload(host.platform, host.architecture, install)
    requires var c := CheckVersion(StripLeadingV(minVersion), StripLeadingVIfGiven(maxVersion), host.systemOutput);
      host.systemVhs.None? || (c.Ok? && !c.value.usable)
    ensures var (r, after) := Outcome(minVersion, maxVersion, binPath, path, install, host, cache);
      && after == cache
      && r.Err? && r.error.VhsError?
      && (host.systemVhs.None? <==> StartsWith(r.error.message, "VHS is not installed on your system; "))
      && (host.systemVhs.Some? <==> StartsWith(r.error.message, "you have VHS "))
      && (host.systemVhs.Some? ==>
            var c := CheckVersion(StripLeadingV(minVersion), StripLeadingVIfGiven(maxVersion), host.systemOutput);
            StartsWith(r.error.message, "you have VHS " + Show(c.value.version) + ", but ")
            && Contains(r.error.message, VersionMessage(StripLeadingV(minVersion), StripLeadingVIfGiven(maxVersion))))
  {
  }

  /** On darwin nothing is ever downloaded, whatever the install flag. */
  lemma DarwinNeverDownloads(minVersion: string, maxVersion: Option<string>, binPath: string, path: string,
                             install: bool, host: Host, cache: set<string>)
    requires host.platform == "darwin"
    ensures Outcome(minVersion, maxVersion, binPath, path, install, host, cache).1 == cache
    ensures Outcome(minVersion, maxVersion, binPath, path, install, host, cache).0.Ok? ==>
              Outcome(minVersion, maxVersion, binPath, path, install, host, cache).0.value.source == SystemInstall
  {
  }

  /**
   * A downloaded (cached or fresh) vhs is `<cache>/vhs`, present in the
   * cache together with ttyd, and comes with a search path that starts with
   * the cache directory: "<cache>:<path>", or just "<cache>" when path is empty.
   */
  lemma ResolvedPathStartsWithCache(minVersion: string, maxVersion: Option<string>, binPath: string, path: string,
                                    install: bool, host: Host, cache: set<string>)
    requires Outcome(minVersion, maxVersion, binPath, path, install, host, cache).0.Ok?
    ensures var (r, after) := Outcome(minVersion, maxVersion, binPath, path, install, host, cache);
      r.value.source == SystemInstall ==> r.value.path == path && after == cache
    ensures var (r, after) := Outcome(minVersion, maxVersion, binPath, path, install, host, cache);
      r.value.source != SystemInstall ==>
        && r.value.vhsPath == JoinPath(binPath, "vhs")
        && r.value.path == PrependPath(binPath, path)
        && StartsWith(r.value.path, binPath)
        && "vhs" in after && "ttyd" in after
        && MayDownload(host.platform, host.architecture, install)
  {
  }

  /** The vhs stage reads neither the ttyd nor the ffmpeg source. */
  lemma VhsStageIgnoresHelpers(minText: string, maxText: Option<string>, binPath: string, path: string,
                               host: Host, other: Host, cache: set<string>)
    requires other == host.(ttyd := other.ttyd, ffmpeg := other.ffmpeg)
    ensures CachedOrFreshVhs(minText, maxText, binPath, path, host, cache)
         == CachedOrFreshVhs(minText, maxText, binPath, path, other, cache)
  {
    assert FreshVhs(minText, maxText, binPath, path, host, cache)
        == FreshVhs(minText, maxText, binPath, path, other, cache);
  }

  /** With both helpers cached, neither helper source is read. */
  lemma DownloadWithCachedHelpers(minText: string, maxText: Option<string>, binPath: string, path: string,
                                  host: Host, other: Host, cache: set<string>)
    requires other == host.(ttyd := other.ttyd, ffmpeg := other.ffmpeg)
    requires "ttyd" in cache && "ffmpeg" in cache
    ensures Download(minText, maxText, binPath, path, host, cache)
         == Download(minText, maxText, binPath, path, other, cache)
  {
    VhsStageIgnoresHelpers(minText, maxText, binPath, PrependPath(binPath, path), host, other, cache);
  }

  /** The download stage after ttyd, when ffmpeg is cached, reads no ffmpeg source. */
  lemma DownloadIgnoresFfmpeg(minText: string, maxText: Option<string>, binPath: string, path: string,
                              host: Host, other: ToolSource, cache: set<string>)
    requires "ffmpeg" in cache
    ensures Download(minText, maxText, binPath, path, host, cache)
         == Download(minText, maxText, binPath, path, host.(ffmpeg := other), cache)
  {
    var h2 := host.(ffmpeg := other);
    assert WithTtyd(host, cache) == WithTtyd(h2, cache);
    match WithTtyd(host, cache)
    case Err(_) =>
    case Ok(c1) =>
      assert WithFfmpeg(host, c1) == Ok(c1) == WithFfmpeg(h2, c1);
      VhsStageIgnoresHelpers(minText, maxText, binPath, PrependPath(binPath, path), host, h2, c1);
  }

  /** The download stage, when ttyd is cached, reads no ttyd source. */
  lemma DownloadIgnoresTtyd(minText: string, maxText: Option<string>, binPath: string, path: string,
                            host: Host, other: ToolSource, cache: set<string>)
    requires "ttyd" in cache
    ensures Download(minText, maxText, binPath, path, host, cache)
         == Download(minText, maxText, binPath, path, host.(ttyd := other), cache)
  {
    var h2 := host.(ttyd := other);
    assert WithTtyd(host, cache) == Ok(cache) == WithTtyd(h2, cache);
    assert WithFfmpeg(host, cache) == WithFfmpeg(h2, cache);
    match WithFfmpeg(host, cache)
    case Err(_) =>
    case Ok(c2) =>
      VhsStageIgnoresHelpers(minText, maxText, binPath, PrependPath(binPath, path), host, h2, c2);
  }

  /** Outcome only reads the helper sources inside the download stage. */
  lemma OutcomeThroughDownload(minVersion: string, maxVersion: Option<string>, binPath: string, path: string,
                               install: bool, host: Host, other: Host, cache: set<string>)
    requires other == host.(ttyd := other.ttyd, ffmpeg := other.ffmpeg)
    requires var minText := StripLeadingV(minVersion);
      var maxText := StripLeadingVIfGiven(maxVersion);
      Download(minText, maxText, binPath, path, host, cache) == Download(minText, maxText, binPath, path, other, cache)
    ensures Outcome(minVersion, maxVersion, binPath, path, install, host, cache)
         == Outcome(minVersion, maxVersion, binPath, path, install, other, cache)
  {
    var minText := StripLeadingV(minVersion);
    var maxText := StripLeadingVIfGiven(maxVersion);
    forall v: Option<string>
      ensures Gate(minText, maxText, binPath, path, install, host, v, cache)
           == Gate(minText, maxText, binPath, path, install, other, v, cache)
    {
    }
  }

  /** A ttyd already in the cache is not downloaded again: the ttyd release host is never consulted. */
  lemma CachedTtydNotReinstalled(minVersion: string, maxVersion: Option<string>, binPath: string, path: string,
                                 install: bool, host: Host, cache: set<string>, other: ToolSource)
    requires "ttyd" in cache
    ensures Outcome(minVersion, maxVersion, binPath, path, install, host, cache)
         == Outcome(minVersion, maxVersion, binPath, path, install, host.(ttyd := other), cache)
  {
    DownloadIgnoresTtyd(StripLeadingV(minVersion), StripLeadingVIfGiven(maxVersion), binPath, path, host, other, cache);
    OutcomeThroughDownload(minVersion, maxVersion, binPath, path, install, host, host.(ttyd := other), cache);
  }

  /** Likewise for ffmpeg, whatever ttyd's install does. */
  lemma CachedFfmpegNotReinstalled(minVersion: string, maxVersion: Option<string>, binPath: string, path: string,
                                   install: bool, host: Host, cache: set<string>, other: ToolSource)
    requires "ffmpeg" in cache
    ensures Outcome(minVersion, maxVersion, binPath, path, install, host, cache)
         == Outcome(minVersion, maxVersion, binPath, path, install, host.(ffmpeg := other), cache)
  {
    DownloadIgnoresFfmpeg(StripLeadingV(minVersion), StripLeadingVIfGiven(maxVersion), binPath, path, host, other, cache);
    OutcomeThroughDownload(minVersion, maxVersion, binPath, path, install, host, host.(ffmpeg := other), cache);
  }

  /**
   * A successful vhs download means a release lay in the window, so the
   * window itself is well formed: the version check after the install
   * cannot raise.
   */
  lemma SelectionValidatesWindow(name: string, platform: string, minText: string, maxText: Option<string>,
                                 rs: seq<Release>, filter: string -> bool)
    requires minText != ""
    requires Selection(name, platform, Some(minText), maxText, rs, filter).Ok?
    ensures CheckedWindow(minText, maxText).Ok?
  {
    var w := SelectionWindow(Some(minText), maxText).value;
    var k := FirstQualifying(rs, w).value;
    var v := TagVersion(rs[k].tag).value;
    var lo := w.value.low;
    if w.value.high.Some? {
      var hi := w.value.high.value;
      assert LessEq(lo, v) && Less(v, hi);
      if Less(lo, v) {
        LessTransitive(lo, v, hi);
      }
      assert Less(lo, hi);
      LessAsymmetric(lo, hi);
      LessIrreflexive(lo);
      assert !LessEq(hi, lo);
    }
  }

  /**
   * Once vhs has been downloaded, resolution succeeds with `<cache>/vhs`,
   * even if the new binary still fails the version check: that is flagged
   * as outdated, not an error.
   */
  lemma OutdatedDownloadIsOnlyWarning(minText: string, maxText: Option<string>, binPath: string, path: string,
                                      host: Host, cache: set<string>)
    requires minText != ""
    requires VhsInstall(host.vhs, host.platform, minText, maxText, binPath, cache).Ok?
    ensures var (r, after) := FreshVhs(minText, maxText, binPath, path, host, cache);
      && r.Ok? && r.value.vhsPath == JoinPath(binPath, "vhs") && r.value.path == path
      && after == cache + {"vhs"}
      && r.value.source.FreshDownload?
      && (r.value.source.outdated <==> !CheckVersion(minText, maxText, host.installedOutput).value.usable)
  {
    SelectionValidatesWindow("vhs", host.platform, minText, maxText, host.vhs.releases, VhsAsset);
  }

  /**
   * The install path of `_check_and_install` on 64-bit linux with installs
   * enabled, no usable system vhs, and ttyd and ffmpeg already cached: a
   * cached vhs that passes the check is reused, and otherwise (no cached
   * vhs, or one that fails the check) a successful vhs install resolves to
   * the fresh `<cache>/vhs`; either way the cache directory heads the
   * search path.
   */
  lemma InstallPathOnLinux(minVersion: string, maxVersion: Option<string>, binPath: string, path: string,
                           host: Host, cache: set<string>)
    requires host.platform == "linux" && host.architecture == "64bit"
    requires "ttyd" in cache && "ffmpeg" in cache
    requires var c := CheckVersion(StripLeadingV(minVersion), StripLeadingVIfGiven(maxVersion), host.systemOutput);
      host.systemVhs.None? || (c.Ok? && !c.value.usable)
    ensures var minText, maxText := StripLeadingV(minVersion), StripLeadingVIfGiven(maxVersion);
      var c := CheckVersion(minText, maxText, host.cachedOutput);
      "vhs" in cache && c.Ok? && c.value.usable ==>
        Outcome(minVersion, maxVersion, binPath, path, true, host, cache)
        == (Ok(Resolution(JoinPath(binPath, "vhs"), PrependPath(binPath, path), CachedDownload)), cache)
    ensures var minText, maxText := StripLeadingV(minVersion), StripLeadingVIfGiven(maxVersion);
      var c := CheckVersion(minText, maxText, host.cachedOutput);
      ("vhs" !in cache || (c.Ok? && !c.value.usable))
      && minText != "" && VhsInstall(host.vhs, host.platform, minText, maxText, binPath, cache).Ok? ==>
        var (r, after) := Outcome(minVersion, maxVersion, binPath, path, true, host, cache);
        && r.Ok? && r.value.vhsPath == JoinPath(binPath, "vhs") && r.value.path == PrependPath(binPath, path)
        && r.value.source.FreshDownload? && after == cache + {"vhs"}
  {
    var minText, maxText := StripLeadingV(minVersion), StripLeadingVIfGiven(maxVersion);
    assert MayDownload(host.platform, host.architecture, true);
    if minText != "" && VhsInstall(host.vhs, host.platform, minText, maxText, binPath, cache).Ok? {
      OutdatedDownloadIsOnlyWarning(minText, maxText, binPath, PrependPath(binPath, path), host, cache);
    }
  }
}
