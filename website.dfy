/** The client's local web site (crates/client/src/website.rs): the
    address of VS Code as seen from the browser, the link to the signed-in
    home site, the remembered credentials, and the first step of signing
    in, which asks the server for the `home` and `vscode` services and
    queues them for the proxy client.

    HTTP requests and their answers, the template rendering and the
    credentials file are not modelled: an answer from the server is a
    parameter, and the stored credentials are the map read from the file
    (`None` when it cannot be read or parsed). */
module Website {
  import opened Wrappers
  import opened Text
  import opened Configuration
  import ProxyClient

  const HOME_HOST_SUFFIX: string := "-home.portalbox.app"

  const VSCODE_HOST_SUFFIX: string := "-vscode.portalbox.app"

  // ---------------------------------------------------------------------
  // The index page

  /** The VS Code link of `handle_index`, from the request's `Host`: on a
      `…-home.portalbox.app` host the matching `…-vscode.portalbox.app`
      host, and otherwise the request's host name with VS Code's port in
      place of whatever port follows the last `:`. */
  function VscodeUrl(host: string, vscodePort: u16): (r: string)
    ensures StartsWith(r, "//")
  {
    if EndsWith(host, HOME_HOST_SUFFIX) then
      "//" + TrimEndMatches(host, HOME_HOST_SUFFIX) + VSCODE_HOST_SUFFIX
    else
      match RSplitOnce(host, ':')
      case Some((name, _)) => "//" + name + ":" + NatToString(vscodePort)
      case None => "//" + host + ":" + NatToString(vscodePort)
  }

  /** On the home site's host, VS Code is on the sibling `-vscode` host;
      the suffix is stripped however often it is repeated. */
  lemma VscodeUrlOnHomeHost(base: string, vscodePort: u16)
    requires !EndsWith(base, HOME_HOST_SUFFIX)
    ensures VscodeUrl(base + HOME_HOST_SUFFIX, vscodePort) == "//" + base + VSCODE_HOST_SUFFIX
    ensures VscodeUrl(base + HOME_HOST_SUFFIX + HOME_HOST_SUFFIX, vscodePort) == "//" + base + VSCODE_HOST_SUFFIX
  {
    var h := base + HOME_HOST_SUFFIX;
    assert h[|h| - |HOME_HOST_SUFFIX|..] == HOME_HOST_SUFFIX;
    TrimEndMatchesSuffix(base, HOME_HOST_SUFFIX);
    var hh := h + HOME_HOST_SUFFIX;
    assert hh[|hh| - |HOME_HOST_SUFFIX|..] == HOME_HOST_SUFFIX;
    TrimEndMatchesSuffix(h, HOME_HOST_SUFFIX);
  }

  /** Elsewhere the port after the last `:` is replaced by VS Code's port,
      and a host without a port gets VS Code's port appended. */
  lemma {:induction false} VscodeUrlReplacesPort(name: string, port: string, vscodePort: u16)
    requires ':' !in port && !EndsWith(name + ":" + port, HOME_HOST_SUFFIX)
    ensures VscodeUrl(name + ":" + port, vscodePort) == "//" + name + ":" + NatToString(vscodePort)
  {
    assert name + ":" + port == name + [':'] + port;
    RSplitOnceOfJoin(name, ':', port);
  }

  lemma VscodeUrlAppendsPort(host: string, vscodePort: u16)
    requires ':' !in host && !EndsWith(host, HOME_HOST_SUFFIX)
    ensures VscodeUrl(host, vscodePort) == "//" + host + ":" + NatToString(vscodePort)
  {
  }

  /** Outside the home site the text after the link's last `:` is VS
      Code's port and reads back as it. */
  lemma {:induction false} VscodeUrlPortReadsBack(host: string, vscodePort: u16)
    requires !EndsWith(host, HOME_HOST_SUFFIX)
    ensures var r := VscodeUrl(host, vscodePort);
            && RSplitOnce(r, ':').Some?
            && RSplitOnce(r, ':').value.1 == NatToString(vscodePort)
            && ParseRustUnsigned(RSplitOnce(r, ':').value.1, U16_MAX) == Some(vscodePort)
  {
    var p := NatToString(vscodePort);
    DigitsExclude(p, ':');
    var name := match RSplitOnce(host, ':') case Some((n, _)) => n case None => host;
    assert VscodeUrl(host, vscodePort) == ("//" + name) + [':'] + p;
    RSplitOnceOfJoin("//" + name, ':', p);
    ParseRustUnsignedOfDecimal(vscodePort, U16_MAX);
  }

  /** `LocalService`. */
  datatype LocalService = LocalService(name: string, url: string, iconUrl: string)

  /** The services list rendered by `handle_index`. */
  function IndexServices(host: string, vscodePort: u16): (r: seq<LocalService>)
    ensures |r| == 2
    ensures r[0].name == "Visual Studio Code" && r[0].url == VscodeUrl(host, vscodePort)
    ensures r[1].name == "Terminal" && r[1].url == "/terminal"
  {
    [LocalService("Visual Studio Code", VscodeUrl(host, vscodePort), "/vscode_icon.png"),
     LocalService("Terminal", "/terminal", "/terminal_icon.png")]
  }

  /** The list always holds VS Code, at the derived link, then the
      terminal page, which does not depend on the request. */
  lemma IndexServicesShape(host: string, other: string, vscodePort: u16)
    ensures var s := IndexServices(host, vscodePort);
            && |s| == 2
            && s[0].name == "Visual Studio Code" && s[0].url == VscodeUrl(host, vscodePort)
            && s[1] == LocalService("Terminal", "/terminal", "/terminal_icon.png")
            && s[1] == IndexServices(other, vscodePort)[1]
            && s[0].name != s[1].name
  {
  }

  /** The signed-in home link of `handle_index`. */
  function SignedInHomeUrl(baseHostname: Option<string>): (r: Option<string>)
    ensures r.Some? <==> baseHostname.Some?
    ensures r.Some? ==> r.value == "http://" + baseHostname.value + HOME_HOST_SUFFIX
  {
    match baseHostname
    case None => None
    case Some(b) => Some("http://" + b + HOME_HOST_SUFFIX)
  }

  /** Following the home link and opening the index there links to the
      same user's VS Code host. */
  lemma HomeLinkLeadsToVscode(base: string, vscodePort: u16)
    requires !EndsWith(base, HOME_HOST_SUFFIX)
    ensures SignedInHomeUrl(Some(base)) == Some("http://" + (base + HOME_HOST_SUFFIX))
    ensures VscodeUrl(base + HOME_HOST_SUFFIX, vscodePort) == "//" + base + VSCODE_HOST_SUFFIX
  {
    assert "http://" + base + HOME_HOST_SUFFIX == "http://" + (base + HOME_HOST_SUFFIX);
    VscodeUrlOnHomeHost(base, vscodePort);
  }

  // ---------------------------------------------------------------------
  // Credentials

  /** `Credential`; the access token is an opaque secret. */
  datatype Credential = Credential(email: string, clientAccessToken: seq<int>, baseHostname: string)

  /** `CredManager`: the remembered credential of each server URL. */
  class CredManager {
    var credentials: map<string, Credential>

    /** `CredManager::load(..).unwrap_or_default()`: the stored map, or an
        empty one when nothing could be read. */
    constructor Load(stored: Option<map<string, Credential>>)
      ensures credentials == (if stored.Some? then stored.value else map[])
    {
      credentials := if stored.Some? then stored.value else map[];
    }

    /** `credentials.insert(key, cred)`. */
    method Insert(key: string, cred: Credential)
      modifies this
      ensures credentials == old(credentials)[key := cred]
    {
      credentials := credentials[key := cred];
    }
  }

  /** The map `handle_post_signin` saves when asked to remember the user. */
  function RememberedCredentials(stored: Option<map<string, Credential>>, serverUrl: string, cred: Credential)
    : (r: map<string, Credential>)
    ensures serverUrl in r && r[serverUrl] == cred
    ensures forall k :: k != serverUrl ==> (k in r <==> stored.Some? && k in stored.value)
    ensures forall k :: k != serverUrl && k in r ==> r[k] == stored.value[k]
  {
    (if stored.Some? then stored.value else map[])[serverUrl := cred]
  }

  /** Signing in twice on the same server keeps only the later credential;
      the other servers' entries are as before. */
  lemma RememberTwice(stored: Option<map<string, Credential>>, serverUrl: string, first: Credential, second: Credential)
    ensures RememberedCredentials(Some(RememberedCredentials(stored, serverUrl, first)), serverUrl, second)
         == RememberedCredentials(stored, serverUrl, second)
  {
  }

  /** The save step of `handle_post_signin`: with "remember me" the loaded
      map (empty if unreadable) with the credential under the server URL;
      without it nothing is saved. */
  method RememberSignIn(config: Config, rememberMe: bool, stored: Option<map<string, Credential>>, cred: Credential)
    returns (saved: Option<map<string, Credential>>)
    ensures saved.Some? <==> rememberMe
    ensures saved.Some? ==> saved.value == RememberedCredentials(stored, ServerUrl(config), cred)
  {
    if !rememberMe {
      return None;
    }
    var manager := new CredManager.Load(stored);
    manager.Insert(ServerUrl(config), cred);
    saved := Some(manager.credentials);
  }

  /** What `start` looks up at the next launch: the credential just saved. */
  lemma SavedCredentialIsFoundAtStartup(config: Config, stored: Option<map<string, Credential>>, cred: Credential)
    ensures var m := RememberedCredentials(stored, ServerUrl(config), cred);
            ServerUrl(config) in m && m[ServerUrl(config)] == cred
  {
  }

  // ---------------------------------------------------------------------
  // Starting the signed-in services

  /** `ServiceApproval`, the server's answer to a service request. */
  datatype ServiceApproval = ServiceApproval(hostname: string, serviceAccessToken: seq<int>, serviceName: string)

  /** `models::ServiceRequest`, what is posted to the server. */
  datatype ServiceRequest = ServiceRequest(baseHostname: string, serviceName: string, clientAccessToken: seq<int>)

  /** `ConnectServiceRequest`, what is queued for the proxy client. */
  datatype ConnectServiceRequest = ConnectServiceRequest(
    innerToken: seq<int>, hostname: string, localServiceName: string,
    localServiceAddress: ProxyClient.SocketAddr)

  /** The request queued once a service is approved: the server's names and
      token, and the local address the service listens on. */
  function Queued(approval: ServiceApproval, local: ProxyClient.SocketAddr): ConnectServiceRequest
  {
    ConnectServiceRequest(approval.serviceAccessToken, approval.hostname, approval.serviceName, local)
  }

  /** The shared state of the web handlers that this model follows. */
  class Environment {
    const config: Config
    var signedInBaseHostname: Option<string>

    /** The environment `start` builds: nobody is signed in yet. */
    constructor (config: Config)
      ensures this.config == config && signedInBaseHostname == None
    {
      this.config := config;
      signedInBaseHostname := None;
    }

    /** The home link the index page shows. */
    function HomeUrl(): Option<string>
      reads this
    {
      SignedInHomeUrl(signedInBaseHostname)
    }

    /** `start_all_service`: request `home` (served on 127.0.0.1 at the
        home service port), then `vscode` (at VS Code's port); each answer
        is `None` when the request, its answer or the queueing failed. The
        first failure ends the call, and only when both succeed is the
        user's base hostname recorded. */
    method StartAllService(cred: Credential, home: Option<ServiceApproval>, vscode: Option<ServiceApproval>)
      returns (ok: bool, requested: seq<ServiceRequest>, queued: seq<ConnectServiceRequest>)
      modifies this
      ensures ok <==> home.Some? && vscode.Some?
      ensures ok ==> signedInBaseHostname == Some(cred.baseHostname)
      ensures ok ==> HomeUrl() == Some("http://" + cred.baseHostname + HOME_HOST_SUFFIX)
      ensures !ok ==> signedInBaseHostname == old(signedInBaseHostname)
      ensures |requested| == (if home.Some? then 2 else 1)
      ensures requested[0] == ServiceRequest(cred.baseHostname, "home", cred.clientAccessToken)
      ensures |requested| == 2 ==> requested[1] == ServiceRequest(cred.baseHostname, "vscode", cred.clientAccessToken)
      ensures queued == (if home.None? then []
                         else [Queued(home.value, ProxyClient.SocketAddr(ProxyClient.LOCALHOST, config.localHomeServicePort))]
                              + (if vscode.None? then []
                                 else [Queued(vscode.value, ProxyClient.SocketAddr(ProxyClient.LOCALHOST, config.vscodePort))]))
    {
      requested := [ServiceRequest(cred.baseHostname, "home", cred.clientAccessToken)];
      queued := [];
      if home.None? {
        return false, requested, queued;
      }
      queued := queued + [Queued(home.value, ProxyClient.SocketAddr(ProxyClient.LOCALHOST, config.localHomeServicePort))];
      requested := requested + [ServiceRequest(cred.baseHostname, "vscode", cred.clientAccessToken)];
      if vscode.None? {
        return false, requested, queued;
      }
      queued := queued + [Queued(vscode.value, ProxyClient.SocketAddr(ProxyClient.LOCALHOST, config.vscodePort))];
      signedInBaseHostname := Some(cred.baseHostname);
      ok := true;
    }
  }
}
