/**
 * The release locator of `_download_release`: walk the releases newest
 * first, skip drafts, prereleases and (when a min version is given) tags
 * outside the window, stop at the first release left and take its first
 * asset that the platform filter accepts. Also the archive-name suffix strip
 * the installers use to find the unpacked directory.
 */
module Releases {
  import opened Wrappers
  import opened Text
  import opened Errors
  import opened Versions

  datatype Asset = Asset(name: string, downloadUrl: string)

  /** A release as the release host lists it. */
  datatype Release = Release(tag: string, draft: bool, prerelease: bool, assets: seq<Asset>)

  // ---------------------------------------------------------------------------
  // Asset filters of the three installers

  predicate VhsAsset(name: string) {
    EndsWith(name, "Linux_x86_64.tar.gz")
  }

  predicate TtydAsset(name: string) {
    EndsWith(name, "x86_64")
  }

  predicate FfmpegAsset(name: string) {
    StartsWith(name, "ffmpeg-n") && Contains(name, "linux64-gpl-")
  }

  // ---------------------------------------------------------------------------
  // Archive names

  /** The directory an archive unpacks to: its name without one of .zip, .tar.gz, .tar.xz. */
  function StripArchiveSuffix(name: string): (r: string)
    ensures EndsWith(name, ".zip") ==> r + ".zip" == name
    ensures EndsWith(name, ".tar.gz") ==> r + ".tar.gz" == name
    ensures EndsWith(name, ".tar.xz") ==> r + ".tar.xz" == name
    ensures !EndsWith(name, ".zip") && !EndsWith(name, ".tar.gz") && !EndsWith(name, ".tar.xz") ==> r == name
  {
    if EndsWith(name, ".zip") then
      assert name[|name| - 4..][3] == name[|name| - 1] == 'p';
      assert |name| >= 7 ==> name[|name| - 7..][6] == name[|name| - 1];
      assert name == name[..|name| - 4] + name[|name| - 4..];
      name[..|name| - 4]
    else if EndsWith(name, ".tar.gz") then
      assert name[|name| - 7..][5] == name[|name| - 2] == 'g';
      assert name == name[..|name| - 7] + name[|name| - 7..];
      name[..|name| - 7]
    else if EndsWith(name, ".tar.xz") then
      assert name == name[..|name| - 7] + name[|name| - 7..];
      name[..|name| - 7]
    else name
  }

  /** Appending an archive suffix and stripping it gives the base name back, whatever the base ends with. */
  lemma StripArchiveSuffixRoundTrip(base: string, suffix: string)
    requires suffix == ".zip" || suffix == ".tar.gz" || suffix == ".tar.xz"
    ensures StripArchiveSuffix(base + suffix) == base
  {
    var name := base + suffix;
    assert name[|name| - |suffix|..] == suffix;
    assert name[..|name| - |suffix|] == base;
    if suffix != ".zip" {
      assert name[|name| - 4..][3] == name[|name| - 1] == 'z';
      assert !EndsWith(name, ".zip");
      if suffix == ".tar.xz" {
        assert name[|name| - 7..][5] == name[|name| - 2] == 'x';
        assert !EndsWith(name, ".tar.gz");
      }
    }
  }

  // ---------------------------------------------------------------------------
  // Selection

  /**
   * The window tags are compared against: min and max are both parsed when
   * given, but only a min turns the window on (`if min_version_tuple:`).
   */
  function SelectionWindow(minText: Option<string>, maxText: Option<string>): (r: Result<Option<Window>, Error>)
    ensures r.Ok? ==> (r.value.Some? <==> Truthy(minText))
    ensures r.Ok? && r.value.Some? ==> ParseVersion(minText.value) == Ok(r.value.value.low)
    ensures r.Ok? && r.value.Some? ==> (r.value.value.high.Some? <==> Truthy(maxText))
    ensures r.Ok? && r.value.Some? && r.value.value.high.Some? ==>
              ParseVersion(maxText.value) == Ok(r.value.value.high.value)
    ensures r.Err? <==> (Truthy(minText) && ParseVersion(minText.value).Err?)
                        || (Truthy(maxText) && ParseVersion(maxText.value).Err?)
    ensures r.Err? && Truthy(minText) && ParseVersion(minText.value).Err? ==> r.error == ParseVersion(minText.value).error
    ensures r.Err? && !(Truthy(minText) && ParseVersion(minText.value).Err?) ==>
              r.error == ParseVersion(maxText.value).error
  {
    var lo :- ParseIfGiven(minText);
    var hi :- ParseIfGiven(maxText);
    Ok(if lo.Some? then Some(Window(lo.value, hi)) else None)
  }

  /** The version in a release tag: the first triple in it, if any. */
  function TagVersion(tag: string): (v: Option<Version>)
    ensures v.Some? ==> |v.value| == 3
    ensures v.Some? <==> FirstVersion(tag).Some?
    ensures v.Some? ==> ParseVersion(FirstVersion(tag).value) == Ok(v.value)
  {
    match FirstVersion(tag)
    case None => None
    case Some(text) => Some(ParseVersion(text).value)
  }

  /** A release the loop does not `continue` past. */
  predicate Qualifies(r: Release, w: Option<Window>) {
    && !r.draft
    && !r.prerelease
    && (w.Some? ==> TagVersion(r.tag).Some? && Admits(w.value, TagVersion(r.tag).value))
  }

  function FirstQualifying(rs: seq<Release>, w: Option<Window>): (k: Option<nat>)
    ensures k.Some? ==> k.value < |rs| && Qualifies(rs[k.value], w)
    ensures k.Some? ==> forall j :: 0 <= j < k.value ==> !Qualifies(rs[j], w)
    ensures k.None? ==> forall j :: 0 <= j < |rs| ==> !Qualifies(rs[j], w)
  {
    if rs == [] then None
    else if Qualifies(rs[0], w) then Some(0)
    else
      match FirstQualifying(rs[1..], w)
      case None => None
      case Some(k) => Some(k + 1)
  }

  function FirstMatch(assets: seq<Asset>, filter: string -> bool): (k: Option<nat>)
    ensures k.Some? ==> k.value < |assets| && filter(assets[k.value].name)
    ensures k.Some? ==> forall j :: 0 <= j < k.value ==> !filter(assets[j].name)
    ensures k.None? ==> forall j :: 0 <= j < |assets| ==> !filter(assets[j].name)
  {
    if assets == [] then None
    else if filter(assets[0].name) then Some(0)
    else
      match FirstMatch(assets[1..], filter)
      case None => None
      case Some(k) => Some(k + 1)
  }

  function NoAssetMessage(name: string, platform: string): string {
    "unable to find " + name + " release for platform " + platform
  }

  /** With a min version the message names the window in words; without one it asks for the latest release. */
  function NoReleaseMessage(name: string, minText: Option<string>, maxText: Option<string>): (m: string)
    ensures Truthy(minText) ==>
              StartsWith(m, "unable to find " + name + " release for ") && EndsWith(m, VersionMessage(minText.value, maxText))
              && |m| == |"unable to find " + name + " release for "| + |VersionMessage(minText.value, maxText)|
    ensures !Truthy(minText) ==>
              StartsWith(m, "unable to find latest ") && OccursAt(m, name, 22) && EndsWith(m, " release")
              && |m| == 30 + |name|
  {
    if Truthy(minText) then
      var head := "unable to find " + name + " release for ";
      var m := head + VersionMessage(minText.value, maxText);
      assert StartsWith(m, head);
      assert EndsWith(m, VersionMessage(minText.value, maxText));
      m
    else
      var m := "unable to find latest " + name + " release";
      assert StartsWith(m, "unable to find latest ");
      assert OccursAt(m, name, 22);
      assert EndsWith(m, " release");
      m
  }

  /** What the selection loop ends with, as a function of the release list. */
  function Selection(name: string, platform: string, minText: Option<string>, maxText: Option<string>,
                     rs: seq<Release>, filter: string -> bool): Result<Asset, Error>
  {
    var w :- SelectionWindow(minText, maxText);
    match FirstQualifying(rs, w)
    case None => Err(VhsError(NoReleaseMessage(name, minText, maxText)))
    case Some(k) =>
      match FirstMatch(rs[k].assets, filter)
      case None => Err(VhsError(NoAssetMessage(name, platform)))
      case Some(j) => Ok(rs[k].assets[j])
  }

  /** The `for release ... else` loop of `_download_release`, with its inner `for asset ... else`. */
  method SelectRelease(name: string, platform: string, minText: Option<string>, maxText: Option<string>,
                       rs: seq<Release>, filter: string -> bool) returns (r: Result<Asset, Error>)
    ensures r == Selection(name, platform, minText, maxText, rs, filter)
  {
    var window := SelectionWindow(minText, maxText);
    if window.Err? {
      return Err(window.error);
    }
    var w := window.value;
    var i := 0;
    while i < |rs|
      invariant 0 <= i <= |rs|
      invariant forall j :: 0 <= j < i ==> !Qualifies(rs[j], w)
    {
      var release := rs[i];
      if release.draft || release.prerelease {
        i := i + 1;
        continue;
      }
      if w.Some? {
        var version := TagVersion(release.tag);
        if version.None? || !Admits(w.value, version.value) {
          i := i + 1;
          continue;
        }
      }
      FirstQualifyingAt(rs, w, i);
      var found := FindAsset(release.assets, filter);
      if found.None? {
        return Err(VhsError(NoAssetMessage(name, platform)));
      }
      return Ok(release.assets[found.value]);
    }
    return Err(VhsError(NoReleaseMessage(name, minText, maxText)));
  }

  /** The inner `for asset in release.get_assets()` loop: the first asset the filter accepts. */
  method FindAsset(assets: seq<Asset>, filter: string -> bool) returns (found: Option<nat>)
    ensures found == FirstMatch(assets, filter)
  {
    var j := 0;
    while j < |assets|
      invariant 0 <= j <= |assets|
      invariant forall m :: 0 <= m < j ==> !filter(assets[m].name)
    {
      if filter(assets[j].name) {
        FirstMatchAt(assets, filter, j);
        return Some(j);
      }
      j := j + 1;
    }
    return None;
  }

  // ---------------------------------------------------------------------------
  // Properties of the selection

  /**
   * A selected asset comes from the first release that is neither a draft
   * nor a prerelease and, when a min version is given, whose tag version v
   * has min <= v (and v < max when max is given); every release before it
   * was skipped; and the asset is the first of that release the filter
   * accepts.
   */
  lemma SelectedAssetQualifies(name: string, platform: string, minText: Option<string>, maxText: Option<string>,
                               rs: seq<Release>, filter: string -> bool)
    requires Selection(name, platform, minText, maxText, rs, filter).Ok?
    ensures SelectionWindow(minText, maxText).Ok? && FirstQualifying(rs, SelectionWindow(minText, maxText).value).Some?
    ensures var w := SelectionWindow(minText, maxText).value;
      var k := FirstQualifying(rs, w).value;
      var a := Selection(name, platform, minText, maxText, rs, filter).value;
      filter(a.name)
      && !rs[k].draft && !rs[k].prerelease
      && (forall i :: 0 <= i < k ==> !Qualifies(rs[i], w))
      && (Truthy(minText) ==>
            TagVersion(rs[k].tag).Some? && LessEq(ParseVersion(minText.value).value, TagVersion(rs[k].tag).value)
            && (Truthy(maxText) ==> Less(TagVersion(rs[k].tag).value, ParseVersion(maxText.value).value)))
      && exists j :: (0 <= j < |rs[k].assets| && rs[k].assets[j] == a
                      && forall m :: 0 <= m < j ==> !filter(rs[k].assets[m].name))
  {
    var w := SelectionWindow(minText, maxText).value;
    var k := FirstQualifying(rs, w).value;
    var j := FirstMatch(rs[k].assets, filter).value;
    assert rs[k].assets[j] == Selection(name, platform, minText, maxText, rs, filter).value;
  }

  /**
   * For the three tools, the outcome names the platform exactly when a
   * release qualified but none of its assets matched, and names the window
   * (or "latest") exactly when no release qualified.
   */
  lemma FailureKinds(name: string, platform: string, minText: Option<string>, maxText: Option<string>,
                     rs: seq<Release>, filter: string -> bool)
    requires name == "vhs" || name == "ttyd" || name == "ffmpeg"
    requires SelectionWindow(minText, maxText).Ok?
    ensures var w := SelectionWindow(minText, maxText).value;
      var r := Selection(name, platform, minText, maxText, rs, filter);
      (r == Err(VhsError(NoAssetMessage(name, platform))) <==>
         (FirstQualifying(rs, w).Some? && FirstMatch(rs[FirstQualifying(rs, w).value].assets, filter).None?))
      && (r == Err(VhsError(NoReleaseMessage(name, minText, maxText))) <==>
         (forall k :: 0 <= k < |rs| ==> !Qualifies(rs[k], w)))
      && (r.Ok? <==>
         (FirstQualifying(rs, w).Some? && FirstMatch(rs[FirstQualifying(rs, w).value].assets, filter).Some?))
  {
    var w := SelectionWindow(minText, maxText).value;
    NoAssetNotNoRelease(name, platform, minText, maxText);
    if FirstQualifying(rs, w).Some? {
      var k := FirstQualifying(rs, w).value;
      assert Qualifies(rs[k], w);
    }
  }

  /** For the three tools the two failure messages differ. */
  lemma NoAssetNotNoRelease(name: string, platform: string, minText: Option<string>, maxText: Option<string>)
    requires name == "vhs" || name == "ttyd" || name == "ffmpeg"
    ensures NoAssetMessage(name, platform) != NoReleaseMessage(name, minText, maxText)
  {
    var a := NoAssetMessage(name, platform);
    var b := NoReleaseMessage(name, minText, maxText);
    if Truthy(minText) {
      var head := "unable to find " + name + " release for ";
      var v := VersionMessage(minText.value, maxText);
      assert v[0] == 'a' || v[0] == 'v';
      assert a == head + ("platform " + platform) && b == head + v;
      DifferAfter(head, "platform " + platform, v);
    } else {
      var head := "unable to find ";
      var tail := name + " release for platform " + platform;
      assert tail[0] == name[0];
      assert a == head + tail && b == head + ("latest " + name + " release");
      DifferAfter(head, tail, "latest " + name + " release");
    }
  }

  /** Texts that share a head and then differ in their next character differ. */
  lemma DifferAfter(head: string, x: string, y: string)
    requires x != [] && y != [] && x[0] != y[0]
    ensures head + x != head + y
  {
    assert (head + x)[|head|] == x[0];
    assert (head + y)[|head|] == y[0];
  }

  /** Leading drafts and prereleases never change the outcome. */
  lemma {:induction false} SkipsDraftsAndPrereleases(name: string, platform: string, minText: Option<string>,
                                                     maxText: Option<string>, skipped: seq<Release>,
                                                     rs: seq<Release>, filter: string -> bool)
    requires forall j :: 0 <= j < |skipped| ==> skipped[j].draft || skipped[j].prerelease
    ensures Selection(name, platform, minText, maxText, skipped + rs, filter)
         == Selection(name, platform, minText, maxText, rs, filter)
    decreases |skipped|
  {
    if skipped == [] {
      assert skipped + rs == rs;
    } else if SelectionWindow(minText, maxText).Ok? {
      ShiftSelection(name, platform, minText, maxText, skipped, rs, filter);
      SkipsDraftsAndPrereleases(name, platform, minText, maxText, skipped[1..], rs, filter);
    }
  }

  lemma ShiftQualifying(rs: seq<Release>, w: Option<Window>)
    requires rs != [] && !Qualifies(rs[0], w)
    ensures FirstQualifying(rs, w) == match FirstQualifying(rs[1..], w)
                                       case None => None
                                       case Some(k) => Some(k + 1)
  {
  }

  /** Dropping the first skipped release moves the chosen index down by one and changes nothing else. */
  lemma ShiftSelection(name: string, platform: string, minText: Option<string>, maxText: Option<string>,
                       skipped: seq<Release>, rs: seq<Release>, filter: string -> bool)
    requires skipped != [] && (skipped[0].draft || skipped[0].prerelease)
    requires SelectionWindow(minText, maxText).Ok?
    ensures Selection(name, platform, minText, maxText, skipped + rs, filter)
         == Selection(name, platform, minText, maxText, skipped[1..] + rs, filter)
  {
    var w := SelectionWindow(minText, maxText).value;
    var all := skipped + rs;
    assert all[1..] == skipped[1..] + rs;
    ShiftQualifying(all, w);
    match FirstQualifying(all[1..], w)
    case None =>
    case Some(k) =>
      assert all[k + 1] == all[1..][k];
  }

  /** FirstQualifying is characterised by its contract: the least qualifying index. */
  lemma {:induction false} FirstQualifyingAt(rs: seq<Release>, w: Option<Window>, k: nat)
    requires k < |rs| && Qualifies(rs[k], w)
    requires forall j :: 0 <= j < k ==> !Qualifies(rs[j], w)
    ensures FirstQualifying(rs, w) == Some(k)
    decreases k
  {
    if k > 0 {
      assert !Qualifies(rs[0], w);
      forall j | 0 <= j < k - 1 ensures !Qualifies(rs[1..][j], w) {
        assert rs[1..][j] == rs[j + 1];
      }
      FirstQualifyingAt(rs[1..], w, k - 1);
    }
  }

  /** FirstMatch is characterised by its contract: the least index the filter accepts. */
  lemma {:induction false} FirstMatchAt(assets: seq<Asset>, filter: string -> bool, k: nat)
    requires k < |assets| && filter(assets[k].name)
    requires forall j :: 0 <= j < k ==> !filter(assets[j].name)
    ensures FirstMatch(assets, filter) == Some(k)
    decreases k
  {
    if k > 0 {
      assert !filter(assets[0].name);
      forall j | 0 <= j < k - 1 ensures !filter(assets[1..][j].name) {
        assert assets[1..][j] == assets[j + 1];
      }
      FirstMatchAt(assets[1..], filter, k - 1);
    }
  }

  /**
   * The first qualifying release decides: releases after it are never
   * looked at, so a missing asset there is final even if a later release
   * has one.
   */
  lemma StopsAtFirstQualifying(name: string, platform: string, minText: Option<string>, maxText: Option<string>,
                               rs: seq<Release>, filter: string -> bool, later: seq<Release>)
    requires SelectionWindow(minText, maxText).Ok?
    requires FirstQualifying(rs, SelectionWindow(minText, maxText).value).Some?
    ensures var k := FirstQualifying(rs, SelectionWindow(minText, maxText).value).value;
      Selection(name, platform, minText, maxText, rs[..k + 1] + later, filter)
      == Selection(name, platform, minText, maxText, rs, filter)
  {
    var w := SelectionWindow(minText, maxText).value;
    var k := FirstQualifying(rs, w).value;
    var ext := rs[..k + 1] + later;
    forall j | 0 <= j <= k ensures ext[j] == rs[j] { }
    FirstQualifyingAt(ext, w, k);
  }
}
