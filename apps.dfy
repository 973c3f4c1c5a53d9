/** The installed-application description shared by client and server
    (crates/models/src/lib.rs): `AppInfo`, the name of the directory a VS
    Code build is unpacked into, the launcher inside it, and the data
    directories handed to VS Code. Only the path construction is modelled;
    the `create_dir_all` that `apps_data_subdir` performs is I/O.

    A semantic version is modelled as its `major.minor.patch` triple of
    `u64` numbers, rendered and parsed as semver does for versions without
    pre-release or build metadata, and ordered lexicographically. */
module Apps {
  import opened Wrappers
  import opened Text
  import opened Paths

  type u64 = x: int | 0 <= x < 0x1_0000_0000_0000_0000

  const U64_MAX: nat := 0xFFFF_FFFF_FFFF_FFFF

  datatype Version = Version(major: u64, minor: u64, patch: u64)

  /** `Version::to_string`: `major.minor.patch` in decimal. */
  function VersionToString(v: Version): string
  {
    NatToString(v.major) + "." + NatToString(v.minor) + "." + NatToString(v.patch)
  }

  /** `semver::Version::parse` restricted to plain triples: three
      dot-separated numbers, each without a leading zero and within `u64`. */
  function ParseVersion(s: string): (r: Option<Version>)
    ensures r.Some? ==> VersionToString(r.value) == s
  {
    match SplitOnce(s, '.')
    case None => None
    case Some((a, rest)) =>
      match SplitOnce(rest, '.')
      case None => None
      case Some((b, c)) =>
        match (ParseCanonical(a, U64_MAX), ParseCanonical(b, U64_MAX), ParseCanonical(c, U64_MAX))
        case (Some(x), Some(y), Some(z)) => Some(Version(x, y, z))
        case _ => None
  }

  /** A rendered version holds no `-`, so the first `-` of a directory name
      always falls after it. */
  lemma VersionStringHasNoDash(v: Version)
    ensures '-' !in VersionToString(v)
  {
    DigitsExclude(NatToString(v.major), '-');
    DigitsExclude(NatToString(v.minor), '-');
    DigitsExclude(NatToString(v.patch), '-');
  }

  /** Parsing a rendered version gives it back. */
  lemma {:induction false} VersionRoundTrip(v: Version)
    ensures ParseVersion(VersionToString(v)) == Some(v)
  {
    var a, b, c := NatToString(v.major), NatToString(v.minor), NatToString(v.patch);
    DigitsExclude(a, '.');
    DigitsExclude(b, '.');
    assert VersionToString(v) == a + ['.'] + (b + "." + c);
    SplitOnceOfJoin(a, '.', b + "." + c);
    assert b + "." + c == b + ['.'] + c;
    SplitOnceOfJoin(b, '.', c);
    CanonicalRoundTrip(a);
    CanonicalRoundTrip(b);
    CanonicalRoundTrip(c);
  }

  /** The order of semver on plain triples. */
  predicate VersionLe(a: Version, b: Version)
  {
    a.major < b.major
    || (a.major == b.major && (a.minor < b.minor
    || (a.minor == b.minor && a.patch <= b.patch)))
  }

  predicate VersionLt(a: Version, b: Version)
  {
    VersionLe(a, b) && a != b
  }

  /** The version order is a total order. */
  lemma VersionLeTotalOrder(a: Version, b: Version, c: Version)
    ensures VersionLe(a, a)
    ensures VersionLe(a, b) || VersionLe(b, a)
    ensures VersionLe(a, b) && VersionLe(b, a) ==> a == b
    ensures VersionLe(a, b) && VersionLe(b, c) ==> VersionLe(a, c)
    ensures !VersionLe(a, b) <==> VersionLt(b, a)
  {
  }

  datatype AppInfo = AppInfo(osArch: string, latestVersion: Version, downloadLink: string)

  const VSCODE_DIR_PREFIX: string := "portalbox-vscode-"

  /** The directory name a build is unpacked into:
      `portalbox-vscode-{version}-{os_arch}`. */
  function VscodeDirName(app: AppInfo): (r: string)
    ensures StartsWith(r, VSCODE_DIR_PREFIX)
    ensures r[|VSCODE_DIR_PREFIX|..] == VersionToString(app.latestVersion) + "-" + app.osArch
  {
    VSCODE_DIR_PREFIX + VersionToString(app.latestVersion) + "-" + app.osArch
  }

  /** `AppInfo::vscode_dir`. */
  function VscodeDir(app: AppInfo, appsDir: Path): (r: Path)
    ensures IsUnder(r, appsDir) && |r| == |appsDir| + 1
    ensures r[|appsDir|] == VscodeDirName(app)
  {
    Join(appsDir, VscodeDirName(app))
  }

  /** The launcher's file name on the target operating system. */
  function LauncherName(targetOs: string): string
  {
    if targetOs == "windows" then "portalbox-vscode.cmd" else "portalbox-vscode"
  }

  /** `AppInfo::vscode_cmd`: `bin/portalbox-vscode` inside the build's
      directory, with a `.cmd` suffix on Windows. */
  function VscodeCmd(app: AppInfo, appsDir: Path, targetOs: string): (r: Path)
    ensures IsUnder(r, VscodeDir(app, appsDir))
    ensures r == VscodeDir(app, appsDir) + ["bin", LauncherName(targetOs)]
  {
    Join(Join(VscodeDir(app, appsDir), "bin"), LauncherName(targetOs))
  }

  /** The launcher path differs between Windows and every other system. */
  lemma VscodeCmdDependsOnOs(app: AppInfo, appsDir: Path, other: string)
    requires other != "windows"
    ensures VscodeCmd(app, appsDir, "windows") != VscodeCmd(app, appsDir, other)
  {
    var w := VscodeCmd(app, appsDir, "windows");
    var o := VscodeCmd(app, appsDir, other);
    assert w[|appsDir| + 2] == "portalbox-vscode.cmd";
    assert o[|appsDir| + 2] == "portalbox-vscode";
  }

  const SERVER_DATA_SUBDIR: string := "vscode-server-data"
  const USER_DATA_SUBDIR: string := "vscode-user-data"
  const EXTENSIONS_SUBDIR: string := "vscode-extensions"
  const OUTPUT_FILE_NAME: string := "vscode.log"

  /** `AppInfo::server_data_dir` (the directory creation is left out). */
  function ServerDataDir(app: AppInfo, appsDataDir: Path): (r: Path)
    ensures IsUnder(r, appsDataDir) && |r| == |appsDataDir| + 1 && r[|appsDataDir|] == SERVER_DATA_SUBDIR
  {
    Join(appsDataDir, SERVER_DATA_SUBDIR)
  }

  /** `AppInfo::user_data_dir`. */
  function UserDataDir(app: AppInfo, appsDataDir: Path): (r: Path)
    ensures IsUnder(r, appsDataDir) && |r| == |appsDataDir| + 1 && r[|appsDataDir|] == USER_DATA_SUBDIR
  {
    Join(appsDataDir, USER_DATA_SUBDIR)
  }

  /** `AppInfo::extensions_dir`. */
  function ExtensionsDir(app: AppInfo, appsDataDir: Path): (r: Path)
    ensures IsUnder(r, appsDataDir) && |r| == |appsDataDir| + 1 && r[|appsDataDir|] == EXTENSIONS_SUBDIR
  {
    Join(appsDataDir, EXTENSIONS_SUBDIR)
  }

  /** `AppInfo::output_file`. */
  function OutputFile(app: AppInfo, appsDataDir: Path): (r: Path)
    ensures IsUnder(r, appsDataDir) && |r| == |appsDataDir| + 1 && r[|appsDataDir|] == OUTPUT_FILE_NAME
  {
    Join(appsDataDir, OUTPUT_FILE_NAME)
  }

  /** The three data directories and the log file are distinct direct
      children of the apps data directory, and none of them depends on
      which build is described. */
  lemma {:induction false} DataPathsDistinct(app: AppInfo, other: AppInfo, appsDataDir: Path)
    ensures var paths := [ServerDataDir(app, appsDataDir), UserDataDir(app, appsDataDir),
                          ExtensionsDir(app, appsDataDir), OutputFile(app, appsDataDir)];
            && (forall i :: 0 <= i < 4 ==> IsUnder(paths[i], appsDataDir) && |paths[i]| == |appsDataDir| + 1)
            && (forall i, j :: 0 <= i < j < 4 ==> paths[i] != paths[j])
    ensures ServerDataDir(app, appsDataDir) == ServerDataDir(other, appsDataDir)
    ensures UserDataDir(app, appsDataDir) == UserDataDir(other, appsDataDir)
    ensures ExtensionsDir(app, appsDataDir) == ExtensionsDir(other, appsDataDir)
    ensures OutputFile(app, appsDataDir) == OutputFile(other, appsDataDir)
  {
    var names := [SERVER_DATA_SUBDIR, USER_DATA_SUBDIR, EXTENSIONS_SUBDIR, OUTPUT_FILE_NAME];
    var paths := [ServerDataDir(app, appsDataDir), UserDataDir(app, appsDataDir),
                  ExtensionsDir(app, appsDataDir), OutputFile(app, appsDataDir)];
    assert forall i :: 0 <= i < 4 ==> paths[i] == Join(appsDataDir, names[i]);
    forall i, j | 0 <= i < j < 4 ensures paths[i] != paths[j] {
      assert names[i] != names[j];
      JoinDistinct(appsDataDir, names[i], names[j]);
    }
  }
}
