/** The decisions `start` makes before it serves anything
    (crates/client/src/main.rs): which VS Code build to use, whether to
    download one, and how VS Code is launched.

    Asking the server for the latest build is a parameter (its answer, or
    `None` when the request fails); so is the set of paths that exist on
    disk, and whether downloading and unpacking succeed. The update check
    `init_apps` spawns in the background is reported as the version it runs
    with; its own outcome is only logged. */
module Startup {
  import opened Wrappers
  import opened Text
  import opened Paths
  import opened Apps
  import opened Configuration
  import Installations

  /** `AppsResult`, the server's answer. */
  datatype AppsResult = AppsResult(vscode: AppInfo)

  datatype StartupError = FetchFailed | DownloadFailed | CantFetchVscode | CantFindVscode

  /** A download of the build's archive and its unpacking. */
  datatype DownloadPlan = DownloadPlan(link: string, archive: Path, extractInto: Path)

  /** What `fetch_or_update_apps` returns, and the download it starts. */
  datatype FetchOutcome = FetchOutcome(result: Result<AppsResult, StartupError>, download: Option<DownloadPlan>)

  const ARCHIVE_NAME: string := "vscode-latest.tar.gz"

  /** `fetch_or_update_apps`: fail when the server cannot be asked; keep
      the current build when it is the latest one; do nothing when the
      latest build is already unpacked; otherwise download it to
      `home_dir/vscode-latest.tar.gz` and unpack it into the apps
      directory. */
  function FetchOrUpdateApps(config: Config, current: Option<Version>, fetched: Option<AppsResult>,
                             existing: set<Path>, installOk: bool): (r: FetchOutcome)
    ensures fetched.None? ==> r == FetchOutcome(Err(FetchFailed), None)
    ensures r.download.Some? <==>
              && fetched.Some?
              && current != Some(fetched.value.vscode.latestVersion)
              && VscodeDir(fetched.value.vscode, AppsDir(config)) !in existing
    ensures r.download.Some? ==>
              r.download.value == DownloadPlan(fetched.value.vscode.downloadLink,
                                               Join(config.homeDir, ARCHIVE_NAME), AppsDir(config))
    ensures r.result.Ok? ==> fetched.Some? && r.result.value == fetched.value
    ensures fetched.Some? && r.download.None? ==> r.result == Ok(fetched.value)
    ensures r.download.Some? ==> (r.result.Ok? <==> installOk)
  {
    match fetched
    case None => FetchOutcome(Err(FetchFailed), None)
    case Some(apps) =>
      if current.Some? && current.value == apps.vscode.latestVersion then FetchOutcome(Ok(apps), None)
      else if VscodeDir(apps.vscode, AppsDir(config)) in existing then FetchOutcome(Ok(apps), None)
      else
        var plan := DownloadPlan(apps.vscode.downloadLink, Join(config.homeDir, ARCHIVE_NAME), AppsDir(config));
        FetchOutcome(if installOk then Ok(apps) else Err(DownloadFailed), Some(plan))
  }

  /** The archive is kept next to the apps directory, never inside it, and
      is unpacked into the directory the build is then looked up under. */
  lemma DownloadPlacement(config: Config, current: Option<Version>, fetched: Option<AppsResult>,
                          existing: set<Path>, installOk: bool)
    ensures var r := FetchOrUpdateApps(config, current, fetched, existing, installOk);
            r.download.Some? ==>
              && IsUnder(r.download.value.archive, config.homeDir)
              && r.download.value.archive != r.download.value.extractInto
              && IsUnder(VscodeDir(fetched.value.vscode, AppsDir(config)), r.download.value.extractInto)
  {
    JoinDistinct(config.homeDir, ARCHIVE_NAME, "apps");
  }

  /** The background check of an installation that is already the latest
      one never downloads. */
  lemma UpToDateNeverDownloads(config: Config, apps: AppsResult, existing: set<Path>, installOk: bool)
    ensures FetchOrUpdateApps(config, Some(apps.vscode.latestVersion), Some(apps), existing, installOk)
         == FetchOutcome(Ok(apps), None)
  {
  }

  /** What `init_apps` decides: the build to use, the version the background
      update check runs with, and the download made before starting. */
  datatype InitOutcome = InitOutcome(result: Result<AppsResult, StartupError>,
                                     backgroundCheck: Option<Version>, download: Option<DownloadPlan>)

  /** `init_apps`: an installed build is used at once, with a background
      check for a newer one; with none installed, the latest build is
      fetched (and downloaded if need be) first, and a failure there is
      "Can't fetch vscode from server". */
  function InitApps(config: Config, installed: Result<Installations.ClientInstance, Installations.InstanceError>,
                    fetched: Option<AppsResult>, existing: set<Path>, installOk: bool): (r: InitOutcome)
    ensures installed.Ok? ==>
              r == InitOutcome(Ok(AppsResult(installed.value.vscode)), Some(installed.value.vscode.latestVersion), None)
    ensures installed.Err? ==>
              var f := FetchOrUpdateApps(config, None, fetched, existing, installOk);
              && r.backgroundCheck.None? && r.download == f.download
              && (r.result.Err? <==> f.result.Err?)
              && (r.result.Err? ==> r.result.error == CantFetchVscode)
              && (r.result.Ok? ==> r.result == f.result)
  {
    match installed
    case Ok(instance) =>
      InitOutcome(Ok(AppsResult(instance.vscode)), Some(instance.vscode.latestVersion), None)
    case Err(_) =>
      var f := FetchOrUpdateApps(config, None, fetched, existing, installOk);
      match f.result
      case Ok(apps) => InitOutcome(Ok(apps), None, f.download)
      case Err(_) => InitOutcome(Err(CantFetchVscode), None, f.download)
  }

  /** A first start (nothing installed, nothing unpacked) downloads the
      server's build, and fails when the server cannot be reached. */
  lemma FirstStartDownloads(config: Config, installedError: Installations.InstanceError,
                            fetched: Option<AppsResult>, installOk: bool)
    ensures var r := InitApps(config, Err(installedError), fetched, {}, installOk);
            && (fetched.None? ==> r.result == Err(CantFetchVscode) && r.download.None?)
            && (fetched.Some? ==> r.download.Some? && r.download.value.link == fetched.value.vscode.downloadLink)
            && (fetched.Some? && installOk ==> r.result == Ok(fetched.value))
  {
  }

  /** One argument of the VS Code command line. */
  datatype Arg = Flag(text: string) | PathArg(path: Path)

  /** The launch `start` performs: program, arguments and log file. */
  datatype Launch = Launch(program: Path, args: seq<Arg>, logFile: Path)

  /** The checks and command line of `start` once the apps are known:
      fail when the launcher does not exist, and otherwise run it listening
      on every interface at VS Code's port, with its data under the apps
      data directory and its output in `vscode.log`. */
  function StartVscode(config: Config, apps: AppsResult, existing: set<Path>, targetOs: string)
    : (r: Result<Launch, StartupError>)
    ensures r.Err? <==> VscodeCmd(apps.vscode, AppsDir(config), targetOs) !in existing
    ensures r.Err? ==> r.error == CantFindVscode
    ensures r.Ok? ==>
              && r.value.program == VscodeCmd(apps.vscode, AppsDir(config), targetOs)
              && r.value.program in existing
              && IsUnder(r.value.logFile, AppsDataDir(config))
              && |r.value.args| == 11
              && r.value.args[2] == Flag("--port") && r.value.args[3] == Flag(NatToString(config.vscodePort))
  {
    var cmd := VscodeCmd(apps.vscode, AppsDir(config), targetOs);
    if cmd !in existing then Err(CantFindVscode) else Ok(VscodeLaunch(config, apps, cmd))
  }

  /** The command line `start` runs the launcher `cmd` with. */
  function VscodeLaunch(config: Config, apps: AppsResult, cmd: Path): (l: Launch)
    ensures l.program == cmd && IsUnder(l.logFile, AppsDataDir(config))
    ensures |l.args| == 11
    ensures l.args[2] == Flag("--port") && l.args[3] == Flag(NatToString(config.vscodePort))
  {
    var dataDir := AppsDataDir(config);
    Launch(cmd,
           [Flag("--host"), Flag("0.0.0.0"),
            Flag("--port"), Flag(NatToString(config.vscodePort)),
            Flag("--server-data-dir"), PathArg(ServerDataDir(apps.vscode, dataDir)),
            Flag("--user-data-dir"), PathArg(UserDataDir(apps.vscode, dataDir)),
            Flag("--extensions-dir"), PathArg(ExtensionsDir(apps.vscode, dataDir)),
            Flag("--without-connection-token")],
           OutputFile(apps.vscode, dataDir))
  }

  /** On launch, the port argument reads back as VS Code's port, the three
      data directories are distinct, and the launcher lies inside the
      build's own directory under the apps directory. */
  lemma LaunchArguments(config: Config, apps: AppsResult, existing: set<Path>, targetOs: string)
    requires StartVscode(config, apps, existing, targetOs).Ok?
    ensures var l := StartVscode(config, apps, existing, targetOs).value;
            && ParseRustUnsigned(l.args[3].text, U16_MAX) == Some(config.vscodePort)
            && l.args[5] != l.args[7] && l.args[5] != l.args[9] && l.args[7] != l.args[9]
            && IsUnder(l.program, VscodeDir(apps.vscode, AppsDir(config)))
            && IsUnder(l.program, AppsDir(config))
  {
    ParseRustUnsignedOfDecimal(config.vscodePort, U16_MAX);
    DataPathsDistinct(apps.vscode, apps.vscode, AppsDataDir(config));
    var d := VscodeDir(apps.vscode, AppsDir(config));
    var p := VscodeCmd(apps.vscode, AppsDir(config), targetOs);
    assert p[..|AppsDir(config)|] == d[..|AppsDir(config)|];
  }
}
