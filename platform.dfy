/** Platform naming (crates/models/src/utils.rs). The Rust code reads
    `std::env::consts::OS` and `std::env::consts::ARCH`; here they are
    parameters. */
module Platform {
  import opened Wrappers
  import opened Text

  /** `get_os`: the operating system name as the build reports it. */
  function GetOs(os: string): string
  {
    os
  }

  /** `get_arch`: Rust's architecture names translated to the ones the
      server's downloads use; any other name passes through. */
  function GetArch(arch: string): (r: string)
    ensures arch == "x86_64" ==> r == "x64"
    ensures arch == "aarch64" ==> r == "arm64"
    ensures arch != "x86_64" && arch != "aarch64" ==> r == arch
  {
    if arch == "x86_64" then "x64"
    else if arch == "aarch64" then "arm64"
    else arch
  }

  /** The translation is idempotent: a translated name is never translated
      again, since neither target name is itself a source name. */
  lemma GetArchIdempotent(arch: string)
    ensures GetArch(GetArch(arch)) == GetArch(arch)
    ensures GetArch(arch) != "x86_64" && GetArch(arch) != "aarch64"
  {
  }

  /** `get_os_arch`: `{os}-{arch}`. */
  function GetOsArch(os: string, arch: string): (r: string)
    ensures |r| == |GetOs(os)| + 1 + |GetArch(arch)|
    ensures r[..|GetOs(os)|] == GetOs(os) && r[|GetOs(os)|] == '-' && r[|GetOs(os)| + 1..] == GetArch(arch)
  {
    GetOs(os) + "-" + GetArch(arch)
  }

  /** The `os_arch` string splits back, at its first `-`, into the OS and
      the translated architecture, whenever the OS name holds no `-` (true
      of every value of `std::env::consts::OS`). */
  lemma OsArchSplitsBack(os: string, arch: string)
    requires '-' !in os
    ensures SplitOnce(GetOsArch(os, arch), '-') == Some((GetOs(os), GetArch(arch)))
  {
    SplitOnceOfJoin(os, '-', GetArch(arch));
  }
}
