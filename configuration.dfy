/** The client's configuration and the addresses and paths derived from it
    (crates/client/src/config.rs). Reading the configuration file and the
    environment (`Config::new`) and creating directories
    (`ensure_all_dirs`) are I/O and not modelled; the user's home
    directory, which `dirs::home_dir()` supplies, is a parameter. */
module Configuration {
  import opened Wrappers
  import opened Text
  import opened Paths

  type u16 = x: int | 0 <= x < 0x1_0000

  const U16_MAX: nat := 0xFFFF

  datatype Config = Config(
    serverProtocol: string,
    serverDomainName: string,
    serverProxyPort: u16,
    serverWebPort: u16,
    localHomeServicePort: u16,
    vscodePort: u16,
    homeDir: Path,
    telemetry: bool,
    log: string)

  /** The directory under the user's home that holds the client's files. */
  const PORTALBOX_DIR: string := ".portalbox"

  /** `Config::default`, given the user's home directory. */
  function DefaultConfig(userHome: Path): (c: Config)
    ensures c.serverProtocol == "https" && c.serverDomainName == "www.portalbox.app"
    ensures c.serverProxyPort == 46637 && c.serverWebPort == 443
    ensures c.localHomeServicePort == 3030 && c.vscodePort == 3000
    ensures c.homeDir == Join(userHome, PORTALBOX_DIR)
    ensures c.telemetry && c.log == ""
  {
    Config("https", "www.portalbox.app", 46637, 443, 3030, 3000,
           Join(userHome, PORTALBOX_DIR), true, "")
  }

  /** `Config::server_proxy_url`: `domain:port`, without a scheme. */
  function ServerProxyUrl(c: Config): (r: string)
    ensures StartsWith(r, c.serverDomainName + ":")
    ensures ParseRustUnsigned(r[|c.serverDomainName| + 1..], U16_MAX) == Some(c.serverProxyPort)
  {
    PortSuffix(c.serverDomainName, c.serverProxyPort);
    c.serverDomainName + ":" + NatToString(c.serverProxyPort)
  }

  /** A port appended after a `:` reads back from behind the colon. */
  lemma PortSuffix(s: string, port: u16)
    ensures var r := s + ":" + NatToString(port);
            && |r| > |s| && r[..|s|] == s && r[|s|] == ':' && r[..|s| + 1] == s + ":"
            && ParseRustUnsigned(r[|s| + 1..], U16_MAX) == Some(port)
  {
    ParseRustUnsignedOfDecimal(port, U16_MAX);
    var r := s + ":" + NatToString(port);
    assert r[..|s| + 1] == s + ":";
    assert r[|s| + 1..] == NatToString(port);
  }

  /** The authority part of the web server's URL. */
  function ServerOrigin(c: Config): string
  {
    c.serverProtocol + "://" + c.serverDomainName
  }

  /** `Config::server_url`: the port is left out exactly when it is 443,
      whatever the protocol. */
  function ServerUrl(c: Config): (r: string)
    ensures |r| >= |ServerOrigin(c)| && r[..|ServerOrigin(c)|] == ServerOrigin(c)
    ensures c.serverWebPort == 443 ==> r == ServerOrigin(c)
    ensures c.serverWebPort != 443 ==>
              && |r| > |ServerOrigin(c)| && r[|ServerOrigin(c)|] == ':'
              && ParseRustUnsigned(r[|ServerOrigin(c)| + 1..], U16_MAX) == Some(c.serverWebPort)
  {
    if c.serverWebPort == 443 then ServerOrigin(c)
    else
      PortSuffix(ServerOrigin(c), c.serverWebPort);
      ServerOrigin(c) + ":" + NatToString(c.serverWebPort)
  }

  /** The proxy address splits, at its last `:` (as socket-address
      resolution reads it), back into the domain and a port text that
      parses to the configured proxy port. */
  lemma {:induction false} ServerProxyUrlReadsBack(c: Config)
    ensures RSplitOnce(ServerProxyUrl(c), ':') == Some((c.serverDomainName, NatToString(c.serverProxyPort)))
    ensures ParseRustUnsigned(NatToString(c.serverProxyPort), U16_MAX) == Some(c.serverProxyPort)
  {
    var p := NatToString(c.serverProxyPort);
    DigitsExclude(p, ':');
    assert ServerProxyUrl(c) == c.serverDomainName + [':'] + p;
    RSplitOnceOfJoin(c.serverDomainName, ':', p);
    ParseRustUnsignedOfDecimal(c.serverProxyPort, U16_MAX);
  }

  /** The server URL always starts with `proto://domain`; it is exactly
      that when the web port is 443, and otherwise it ends in `:port`, with
      the text after its last `:` parsing back to the web port. */
  lemma {:induction false} ServerUrlShape(c: Config)
    ensures StartsWith(ServerUrl(c), ServerOrigin(c))
    ensures ServerUrl(c) == ServerOrigin(c) <==> c.serverWebPort == 443
    ensures c.serverWebPort != 443 ==>
              && RSplitOnce(ServerUrl(c), ':') == Some((ServerOrigin(c), NatToString(c.serverWebPort)))
              && ParseRustUnsigned(NatToString(c.serverWebPort), U16_MAX) == Some(c.serverWebPort)
  {
    var o := ServerOrigin(c);
    if c.serverWebPort != 443 {
      var p := NatToString(c.serverWebPort);
      DigitsExclude(p, ':');
      assert ServerUrl(c) == o + [':'] + p;
      assert (o + [':'] + p)[..|o|] == o;
      RSplitOnceOfJoin(o, ':', p);
      ParseRustUnsignedOfDecimal(c.serverWebPort, U16_MAX);
    }
  }

  /** With the defaults the server URL is `https://www.portalbox.app`. */
  lemma DefaultServerUrl(userHome: Path)
    ensures ServerUrl(DefaultConfig(userHome)) == "https://www.portalbox.app"
  {
  }

  lemma DecimalOf46637()
    ensures NatToString(46637) == "46637"
  {
    assert DigitChar(4) == '4' && DigitChar(6) == '6' && DigitChar(3) == '3' && DigitChar(7) == '7';
    assert NatToString(4) == "4";
    assert NatToString(46) == NatToString(4) + [DigitChar(6)];
    assert NatToString(466) == NatToString(46) + [DigitChar(6)];
    assert NatToString(4663) == NatToString(466) + [DigitChar(3)];
    assert NatToString(46637) == NatToString(4663) + [DigitChar(7)];
  }

  /** With the defaults the proxy address is `www.portalbox.app:46637`. */
  lemma DefaultServerProxyUrl(userHome: Path)
    ensures ServerProxyUrl(DefaultConfig(userHome)) == "www.portalbox.app:46637"
  {
    DecimalOf46637();
  }

  /** `Config::apps_dir`. */
  function AppsDir(c: Config): (r: Path)
    ensures IsUnder(r, c.homeDir) && |r| == |c.homeDir| + 1 && r[|c.homeDir|] == "apps"
  {
    Join(c.homeDir, "apps")
  }

  /** `Config::apps_data_dir`. */
  function AppsDataDir(c: Config): (r: Path)
    ensures IsUnder(r, c.homeDir) && |r| == |c.homeDir| + 1 && r[|c.homeDir|] == "apps-data"
  {
    Join(c.homeDir, "apps-data")
  }

  /** `Config::credentials_file_path`. */
  function CredentialsFilePath(c: Config): (r: Path)
    ensures IsUnder(r, c.homeDir) && |r| == |c.homeDir| + 1 && r[|c.homeDir|] == "credentials.toml"
  {
    Join(c.homeDir, "credentials.toml")
  }

  /** The three derived paths are distinct direct children of the home
      directory, and they depend on nothing but the home directory. */
  lemma HomeSubpaths(c: Config, d: Config)
    ensures IsUnder(AppsDir(c), c.homeDir) && IsUnder(AppsDataDir(c), c.homeDir)
    ensures IsUnder(CredentialsFilePath(c), c.homeDir)
    ensures AppsDir(c) != AppsDataDir(c) && AppsDir(c) != CredentialsFilePath(c)
    ensures AppsDataDir(c) != CredentialsFilePath(c)
    ensures c.homeDir == d.homeDir ==>
              AppsDir(c) == AppsDir(d) && AppsDataDir(c) == AppsDataDir(d)
              && CredentialsFilePath(c) == CredentialsFilePath(d)
  {
    JoinDistinct(c.homeDir, "apps", "apps-data");
    JoinDistinct(c.homeDir, "apps", "credentials.toml");
    JoinDistinct(c.homeDir, "apps-data", "credentials.toml");
  }
}
