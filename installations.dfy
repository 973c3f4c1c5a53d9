/** Discovery of the VS Code builds already unpacked under the apps
    directory (crates/client/src/client_instance.rs): list the directory,
    keep the sub-directories named `portalbox-vscode…`, parse each name
    back into an `AppInfo`, silently drop the names that do not parse, and
    pick the newest. The directory listing is a parameter. */
module Installations {
  import opened Wrappers
  import opened Text
  import opened Apps

  datatype InstanceError = NotVscodeDir | BadVersion | ReadDirFailed | NoInstallation

  /** `ClientInstance`. */
  datatype ClientInstance = ClientInstance(vscode: AppInfo)

  /** What `entry.file_type()` reports; `KindUnknown` is its error. */
  datatype EntryKind = Directory | NotDirectory | KindUnknown

  datatype DirEntry = DirEntry(name: string, kind: EntryKind)

  /** The outcome of reading the apps directory: its entries in the order
      `read_dir` yields them, or a failure of `read_dir` / `next_entry`. */
  datatype DirListing = Listed(entries: seq<DirEntry>) | ListingFailed

  /** The looser prefix the directory scan filters on (no trailing `-`). */
  const SCAN_PREFIX: string := "portalbox-vscode"

  /** `parse_vscode_dir`. */
  function ParseVscodeDir(dir: string): (r: Result<AppInfo, InstanceError>)
    ensures !StartsWith(dir, VSCODE_DIR_PREFIX) ==> r == Err(NotVscodeDir)
    ensures StartsWith(dir, VSCODE_DIR_PREFIX) && '-' !in TrimStartMatches(dir, VSCODE_DIR_PREFIX)
            ==> r == Err(NotVscodeDir)
    ensures r.Ok? ==>
              && StartsWith(dir, VSCODE_DIR_PREFIX)
              && r.value.downloadLink == ""
              && TrimStartMatches(dir, VSCODE_DIR_PREFIX)
                 == VersionToString(r.value.latestVersion) + "-" + r.value.osArch
  {
    if !StartsWith(dir, VSCODE_DIR_PREFIX) then Err(NotVscodeDir)
    else
      var versionOsArch := TrimStartMatches(dir, VSCODE_DIR_PREFIX);
      match SplitOnce(versionOsArch, '-')
      case None => Err(NotVscodeDir)
      case Some((version, osArch)) =>
        match ParseVersion(version)
        case None => Err(BadVersion)
        case Some(v) => Ok(AppInfo(osArch, v, ""))
  }

  /** A rendered version starts with a digit, so it never starts with the
      directory prefix, and the prefix is stripped exactly once. */
  lemma TrimmedDirName(app: AppInfo)
    ensures TrimStartMatches(VscodeDirName(app), VSCODE_DIR_PREFIX)
         == VersionToString(app.latestVersion) + "-" + app.osArch
  {
    var rest := VersionToString(app.latestVersion) + "-" + app.osArch;
    assert VscodeDirName(app) == VSCODE_DIR_PREFIX + rest;
    TrimStartMatchesPrefix(VSCODE_DIR_PREFIX, rest);
    assert IsDigit(rest[0]) by {
      assert rest[0] == NatToString(app.latestVersion.major)[0];
    }
    DigitNotPrefix(rest);
  }

  lemma DigitNotPrefix(s: string)
    requires |s| > 0 && IsDigit(s[0])
    ensures !StartsWith(s, VSCODE_DIR_PREFIX)
  {
    assert VSCODE_DIR_PREFIX[0] == 'p';
    assert |VSCODE_DIR_PREFIX| <= |s| ==> s[..|VSCODE_DIR_PREFIX|][0] == s[0];
  }

  /** Round trip: parsing the name `AppInfo::vscode_dir` gives a build
      recovers its version and `os_arch` (which may itself contain `-`);
      the download link is not part of the name and comes back empty. */
  lemma {:induction false} VscodeDirRoundTrip(app: AppInfo)
    ensures ParseVscodeDir(VscodeDirName(app)) == Ok(AppInfo(app.osArch, app.latestVersion, ""))
  {
    TrimmedDirName(app);
    VersionStringHasNoDash(app.latestVersion);
    SplitOnceOfJoin(VersionToString(app.latestVersion), '-', app.osArch);
    VersionRoundTrip(app.latestVersion);
  }

  /** The prefix is removed with `trim_start_matches`, so a name carrying it
      twice parses like the name carrying it once. */
  lemma DoublePrefixParsesAlike(app: AppInfo)
    ensures ParseVscodeDir(VSCODE_DIR_PREFIX + VscodeDirName(app))
         == ParseVscodeDir(VscodeDirName(app))
  {
    var name := VscodeDirName(app);
    var doubled := VSCODE_DIR_PREFIX + name;
    assert doubled[..|VSCODE_DIR_PREFIX|] == VSCODE_DIR_PREFIX;
    TrimStartMatchesPrefix(VSCODE_DIR_PREFIX, name);
    SameTrimmedParsesAlike(doubled, name);
  }

  /** Two names with the prefix that strip to the same text parse alike. */
  lemma SameTrimmedParsesAlike(a: string, b: string)
    requires StartsWith(a, VSCODE_DIR_PREFIX) && StartsWith(b, VSCODE_DIR_PREFIX)
    requires TrimStartMatches(a, VSCODE_DIR_PREFIX) == TrimStartMatches(b, VSCODE_DIR_PREFIX)
    ensures ParseVscodeDir(a) == ParseVscodeDir(b)
  {
  }

  /** The entries the scan of `all_vscode_dirs` keeps. */
  predicate KeptByScan(e: DirEntry)
  {
    e.kind == Directory && StartsWith(e.name, SCAN_PREFIX)
  }

  /** The names `all_vscode_dirs` collects, in listing order. */
  function ScannedNames(entries: seq<DirEntry>): seq<string>
  {
    if entries == [] then []
    else
      var last := entries[|entries| - 1];
      ScannedNames(entries[..|entries| - 1]) + (if KeptByScan(last) then [last.name] else [])
  }

  /** A name is collected exactly when some kept entry carries it. */
  lemma {:induction false} ScannedNamesMembership(entries: seq<DirEntry>, n: string)
    ensures n in ScannedNames(entries)
        <==> exists i :: 0 <= i < |entries| && KeptByScan(entries[i]) && entries[i].name == n
  {
    if entries != [] {
      var init := entries[..|entries| - 1];
      ScannedNamesMembership(init, n);
      assert forall i :: 0 <= i < |init| ==> init[i] == entries[i];
    }
  }

  /** `all_vscode_dirs`: a loop over the listing that pushes the name of
      every directory whose name starts with `portalbox-vscode`; entries
      whose type cannot be read are skipped, and a failed listing fails. */
  method AllVscodeDirs(listing: DirListing) returns (r: Result<seq<string>, InstanceError>)
    ensures listing.ListingFailed? ==> r == Err(ReadDirFailed)
    ensures listing.Listed? ==> r == Ok(ScannedNames(listing.entries))
    ensures r.Ok? ==> forall n :: n in r.value ==> StartsWith(n, SCAN_PREFIX)
  {
    if listing.ListingFailed? {
      return Err(ReadDirFailed);
    }
    var entries := listing.entries;
    var dirs: seq<string> := [];
    var i := 0;
    while i < |entries|
      invariant 0 <= i <= |entries|
      invariant dirs == ScannedNames(entries[..i])
      invariant forall n :: n in dirs ==> StartsWith(n, SCAN_PREFIX)
    {
      var entry := entries[i];
      assert entries[..i + 1][..i] == entries[..i];
      if entry.kind == Directory && StartsWith(entry.name, SCAN_PREFIX) {
        dirs := dirs + [entry.name];
      }
      i := i + 1;
    }
    assert entries[..i] == entries;
    r := Ok(dirs);
  }

  /** The parse outcome of every name, in order. */
  function ParseAll(names: seq<string>): (r: seq<Result<AppInfo, InstanceError>>)
    ensures |r| == |names| && forall i :: 0 <= i < |names| ==> r[i] == ParseVscodeDir(names[i])
  {
    seq(|names|, i requires 0 <= i < |names| => ParseVscodeDir(names[i]))
  }

  /** `all_vscode_installations`: every name that parses, in order; the
      others are dropped without an error. */
  function Installed(names: seq<string>): (r: seq<AppInfo>)
    ensures forall a :: a in r <==> exists i :: 0 <= i < |names| && ParseVscodeDir(names[i]) == Ok(a)
    ensures |r| <= |names|
  {
    OkValuesMembership(ParseAll(names));
    OkValues(ParseAll(names))
  }

  /** A build is listed exactly when some name parses to it (so every
      listed build has an empty download link); unparsable names are
      dropped, and nothing else is. */
  lemma InstalledMembership(names: seq<string>, app: AppInfo)
    ensures app in Installed(names)
        <==> exists i :: 0 <= i < |names| && ParseVscodeDir(names[i]) == Ok(app)
    ensures |Installed(names)| <= |names|
    ensures (forall i :: 0 <= i < |names| ==> ParseVscodeDir(names[i]).Ok?)
            ==> |Installed(names)| == |names|
  {
    OkValuesProperties(ParseAll(names), app);
  }

  /** `app` is the element of `all` that `sort_by_key(latest_version)`
      followed by `last()` yields: its version is maximal and, the sort
      being stable, every later element has a strictly smaller version. */
  ghost predicate IsLatestOf(app: AppInfo, all: seq<AppInfo>)
  {
    exists k :: 0 <= k < |all| && all[k] == app
      && (forall j :: 0 <= j < |all| ==> VersionLe(all[j].latestVersion, app.latestVersion))
      && (forall j :: k < j < |all| ==> VersionLt(all[j].latestVersion, app.latestVersion))
  }

  /** The index of the element a stable sort by version puts last. */
  method LatestIndex(all: seq<AppInfo>) returns (k: nat)
    requires |all| > 0
    ensures k < |all|
    ensures forall j :: 0 <= j < |all| ==> VersionLe(all[j].latestVersion, all[k].latestVersion)
    ensures forall j :: k < j < |all| ==> VersionLt(all[j].latestVersion, all[k].latestVersion)
  {
    k := 0;
    var i := 1;
    while i < |all|
      invariant 1 <= i <= |all| && k < i
      invariant forall j :: 0 <= j < i ==> VersionLe(all[j].latestVersion, all[k].latestVersion)
      invariant forall j :: k < j < i ==> VersionLt(all[j].latestVersion, all[k].latestVersion)
    {
      if VersionLe(all[k].latestVersion, all[i].latestVersion) {
        k := i;
      }
      i := i + 1;
    }
  }

  /** `ClientInstance::infer`: fails when the listing fails or nothing
      parses, and otherwise describes the newest installed build. */
  method Infer(listing: DirListing) returns (r: Result<ClientInstance, InstanceError>)
    ensures listing.ListingFailed? ==> r == Err(ReadDirFailed)
    ensures listing.Listed? ==>
              var all := Installed(ScannedNames(listing.entries));
              && (r == Err(NoInstallation) <==> all == [])
              && (r.Ok? <==> all != [])
              && (r.Ok? ==> IsLatestOf(r.value.vscode, all))
    ensures r.Ok? || r == Err(ReadDirFailed) || r == Err(NoInstallation)
  {
    var dirs := AllVscodeDirs(listing);
    if dirs.Err? {
      return Err(dirs.error);
    }
    var all := Installed(dirs.value);
    if |all| == 0 {
      return Err(NoInstallation);
    }
    var k := LatestIndex(all);
    r := Ok(ClientInstance(all[k]));
  }
}
