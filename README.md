# Portalbox client core, modelled in Dafny

Portalbox makes services on a developer's machine reachable through a relay
server: VS Code's web server, a web terminal, and a small local "home" site.
This project models the client side of the repository and proves properties
of that model. The modelled parts are:

- **the proxy handshake's byte format** (`crates/models/src/protocol.rs`).
  Module `Protocol` models the fixed 20-byte hello (version, 16-byte token,
  host length), the host name after it, and the two-byte acknowledgement code.
- **the proxy client** (`crates/client/src/proxy_client.rs`). Module
  `ProxyClient` models:
  - the pool of ready connections;
  - the connect-and-authenticate retry loop with its cancellation token;
  - the wait for the first data message, answering pings with pongs;
  - the choice of the local port a data connection is forwarded to.
- **the web terminal's message handling** (`crates/client/src/api.rs`).
  Module `Terminal` models:
  - routing of websocket messages to the pty;
  - the text messages starting with `__portalbox_term_cmd`, which are commands
    rather than input;
  - the parser of `__portalbox_term_cmd_resize:{cols}x{rows}`.
- **the local web site** (`crates/client/src/website.rs`). Module `Website`
  models:
  - the VS Code link derived from the `Host` header;
  - the signed-in home link;
  - the "remember me" credentials map;
  - `start_all_service`, which requests the `home` and `vscode` services and
    queues them for the proxy client.
- **startup** (`crates/client/src/main.rs`). Module `Startup` models:
  - choosing, fetching and downloading the VS Code build;
  - the command line VS Code is launched with.
- **the configuration and its derived URLs and paths**
  (`crates/client/src/config.rs`, module `Configuration`).
- **the application layout** (`crates/models/src/lib.rs`, module `Apps`):
  versions, the build directory, the launcher, and the data directories
  VS Code is started with.
- **the scan of installed builds and the choice of the newest**
  (`crates/client/src/client_instance.rs`, module `Installations`).
- **the OS and architecture names** (`crates/models/src/utils.rs`, module
  `Platform`).

Support modules:

- `Wrappers` holds `Option`, `Result` and the `filter_map(ok)` of a list of
  results.
- `Text` holds Rust's string operations as the core uses them: decimal
  formatting, `str::parse` for unsigned integers, `trim_*_matches`,
  `split_once` and `rsplit_once`.
- `Paths` models paths as sequences of components.

Modelling conventions:

- **Not modelled as effects.** Sockets, TLS, HTTP, files, processes, timers
  and channels are not modelled. Their outcomes are parameters:
  - the result of a handshake;
  - the sequence of messages or timeouts a connection sees;
  - whether a write succeeds;
  - what the server answers;
  - which paths exist on disk.
- **Bytes** are integers in `0..256`. The integer widths of the wire format
  (`u16` and `i16`, big-endian) are written out.
- **Strings** are sequences of characters.
- **Threads and loops driven by I/O.**
  - The retry loop and the ping/pong loop of the proxy client are `method`s
    with `while` loops. Each is proved against a recursive specification
    function over its inputs.
  - The loops over websocket messages and over the commands in a text frame
    are handled the same way.
  - An object the source mutates is a `class`: `CancellationToken`,
    `CredManager`, the web `Environment` and the connection pool.

Decisions where the sources differ:

- **The relay connections.** The client has no multiplexer. It keeps a
  pool of ready TLS connections, one per forwarded stream. Each connection
  starts with the hello/ack handshake, waits for one data message, and then
  relays bytes to a local port.
- **Names of record fields.** The two record types the server exchanges are
  declared in `crates/models/src/lib.rs`:
  - `ServiceRequest` has the field `base_sub_domain`.
  - `ServiceApproval` has the fields `hostname` and `service_access_token`.

  `crates/client/src/website.rs` builds and reads them with the fields
  `base_hostname` and `service_name`. The model follows website.rs.
- **The signed-in field of the environment.** `crates/client/src/main.rs`
  fills it under the name `signed_in_base_sub_domain`, while website.rs
  reads `signed_in_base_hostname`. The model has one field,
  `signedInBaseHostname`.
- **`write_hello_message`'s arguments.** `crates/models/src/protocol.rs`
  takes a token, a host name and a stream, but
  `crates/client/src/proxy_client.rs` passes only the token and the
  stream. The model's `WriteHello` follows protocol.rs, and `ProxyClient`
  reduces the handshake to its outcome.

## Model

| member | source | states |
|---|---|---|
| Protocol.U16ToBe | crates/models/src/protocol.rs:24-51 | The two big-endian bytes written for a `u16` read back as that value. |
| Protocol.I16ToBe | crates/models/src/protocol.rs:73-93 | The two big-endian two's-complement bytes of an `i16` read back as it. The first byte's top bit is set exactly when the value is negative. |
| Protocol.WriteHello | crates/models/src/protocol.rs:17-40 | The stream receives 2 + t + 2 + n bytes, in this order: version 1 as `[0, 1]`, the t token bytes, the host length truncated to 16 bits, and the n host bytes. |
| Protocol.ReadFixedHello | crates/models/src/protocol.rs:42-64 | The read fails exactly when fewer than 20 bytes arrive. The host length is refused exactly when it exceeds 1024. Otherwise version, token and host length come from bytes 0-1, 2-17 and 18-19, the token is 16 bytes, and the stream continues at byte 20. |
| Protocol.ReadFixedHelloAcceptsAnyVersion | crates/models/src/protocol.rs:49-63 | The version is not checked. Any version in front of an acceptable fixed portion is accepted and reported as read. |
| Protocol.HelloRoundTrip | crates/models/src/protocol.rs:17-64 | A hello with a 16-byte token and a host of at most 1024 bytes reads back as version 1, the token and the host's length. The bytes left are exactly the host. |
| Protocol.HelloRoundTripWithTrailer | crates/models/src/protocol.rs:17-64 | Bytes sent after the hello stay on the stream behind the host and do not change the fixed portion read. |
| Protocol.HelloLongHostRefused | crates/models/src/protocol.rs:27-55 | A host of 1025 to 65535 bytes is written without complaint, and the reader then refuses its hello as an invalid host length. |
| Protocol.WriteAck | crates/models/src/protocol.rs:84-99 | The ack is the two bytes of its code: `[0, 0]` (code 0) for Ok and `[0xFF, 0xFF]` (code −1) for Failed. |
| Protocol.ReadAck | crates/models/src/protocol.rs:66-82 | A short read happens exactly when fewer than 2 bytes arrive. Ok exactly when the code is 0, Failed exactly when it is negative, and an unknown-code error exactly when it is positive. |
| Protocol.AckRoundTrip | crates/models/src/protocol.rs:66-99 | Both acks read back as written, whatever follows them. |
| Protocol.ReadAckByBytes | crates/models/src/protocol.rs:73-79 | On two raw bytes: Failed exactly when the first byte's top bit is set, Ok exactly when both are zero, and an unknown code otherwise. |
| Platform.GetArch | crates/models/src/utils.rs:17-24 | `x86_64` becomes `x64`, `aarch64` becomes `arm64`, and every other name is kept. |
| Platform.GetArchIdempotent | crates/models/src/utils.rs:17-24 | A mapped name is never `x86_64` or `aarch64`, so mapping twice equals mapping once. |
| Platform.GetOsArch | crates/models/src/utils.rs:26-31 | The text is the OS name, then one `-`, then the mapped architecture, and nothing else. |
| Platform.OsArchSplitsBack | crates/models/src/utils.rs:26-31 | For an OS name without `-`, `os-arch` splits at its first `-` back into the OS name and the mapped architecture. |
| Text.ParseRustUnsigned | crates/client/src/api.rs:212-213 | Integer parsing to an unsigned type succeeds exactly on an optional `+` and one or more digits whose value is within the bound. The result is the decimal value of those digits, leading zeros included. |
| Text.ParseRustUnsignedPadded | crates/client/src/api.rs:212-213 | Any number of leading zeros, with or without a `+` in front, leaves a number's decimal text parsing to that number. |
| Apps.ParseVersion | crates/client/src/client_instance.rs:58 | A text accepted as a version is exactly the rendering of the version it yields. |
| Apps.VersionStringHasNoDash | crates/models/src/lib.rs:151-153 | A rendered version contains no `-`. So the first `-` after the version in a directory name separates it from the OS/arch. |
| Apps.VersionRoundTrip | crates/models/src/lib.rs:151 | Every version's rendering parses back to it. |
| Apps.VersionLeTotalOrder | crates/client/src/client_instance.rs:20 | The version order the installations are sorted by is reflexive, total, antisymmetric and transitive. Not ≤ means strictly greater. |
| Apps.VscodeDirName | crates/models/src/lib.rs:151-153 | The directory name is `portalbox-vscode-`, then the rendered version, `-` and the OS/arch. |
| Apps.VscodeDir | crates/models/src/lib.rs:148-156 | The build directory is one component below the apps directory, and that component is the directory name. |
| Apps.VscodeCmd | crates/models/src/lib.rs:158-168 | The launcher is `bin/` and the launcher name inside the build directory. |
| Apps.VscodeCmdDependsOnOs | crates/models/src/lib.rs:160-166 | The Windows launcher path differs from that of every other system. |
| Apps.ServerDataDir | crates/models/src/lib.rs:170-172 | The server data directory is the direct child `vscode-server-data` of the apps data directory. |
| Apps.UserDataDir | crates/models/src/lib.rs:174-176 | The user data directory is the direct child `vscode-user-data` of the apps data directory. |
| Apps.ExtensionsDir | crates/models/src/lib.rs:178-180 | The extensions directory is the direct child `vscode-extensions` of the apps data directory. |
| Apps.OutputFile | crates/models/src/lib.rs:182-185 | The log file is the direct child `vscode.log` of the apps data directory. |
| Apps.DataPathsDistinct | crates/models/src/lib.rs:170-194 | The server-data, user-data and extensions directories and the log file are four distinct direct children of the apps data directory, and none depends on the build. |
| Configuration.DefaultConfig | crates/client/src/config.rs:24-44 | The defaults:<br>protocol https on www.portalbox.app<br>proxy port 46637, web port 443<br>home service port 3030, VS Code port 3000<br>home directory `~/.portalbox`<br>telemetry on and an empty log filter |
| Configuration.ServerProxyUrl | crates/client/src/config.rs:66-70 | The proxy address starts with the domain and `:`, and the text after that colon parses back to the proxy port. |
| Configuration.ServerUrl | crates/client/src/config.rs:72-82 | The server URL starts with `protocol://domain` and is exactly that when the web port is 443. Otherwise a `:` follows, and the text after it parses back to the web port. |
| Configuration.AppsDir | crates/client/src/config.rs:84-88 | The apps directory is the direct child `apps` of the home directory. |
| Configuration.AppsDataDir | crates/client/src/config.rs:90-94 | The apps data directory is the direct child `apps-data` of the home directory. |
| Configuration.CredentialsFilePath | crates/client/src/config.rs:96-100 | The credentials file is the direct child `credentials.toml` of the home directory. |
| Configuration.ServerProxyUrlReadsBack | crates/client/src/config.rs:66-70 | `domain:port` splits at its last `:` into the domain and a port text that parses to the proxy port. |
| Configuration.ServerUrlShape | crates/client/src/config.rs:72-82 | The server URL starts with `protocol://domain`. It is exactly that when the web port is 443. Otherwise it ends in `:port`, and that text parses back to the port. |
| Configuration.DefaultServerUrl | crates/client/src/config.rs:32-42 | With the defaults the server URL is `https://www.portalbox.app`. |
| Configuration.DefaultServerProxyUrl | crates/client/src/config.rs:32-70 | With the defaults the proxy address is `www.portalbox.app:46637`. |
| Configuration.HomeSubpaths | crates/client/src/config.rs:84-100 | The apps, apps-data and credentials paths are distinct direct children of the home directory and depend on nothing else. |
| Installations.ParseVscodeDir | crates/client/src/client_instance.rs:46-66 | A name without the `portalbox-vscode-` prefix, or without a `-` once the prefix is stripped, is not a build directory. On success the stripped name is the rendered version, `-` and the OS/arch, and the download link is empty. |
| Installations.TrimmedDirName | crates/client/src/client_instance.rs:52 | Stripping the prefix from a build's directory name leaves `version-os_arch`. |
| Installations.VscodeDirRoundTrip | crates/client/src/client_instance.rs:46-66 | A build's directory name parses back to its version and OS/arch, with an empty download link. |
| Installations.DoublePrefixParsesAlike | crates/client/src/client_instance.rs:52 | A doubled prefix parses like a single one, because every leading copy is stripped. |
| Installations.ScannedNamesMembership | crates/client/src/client_instance.rs:72-79 | A name is collected exactly when some listed entry is a directory whose name starts with `portalbox-vscode` and carries that name. |
| Installations.AllVscodeDirs | crates/client/src/client_instance.rs:68-86 | A failed listing is an error. Otherwise the loop returns the scanned names, every one starting with `portalbox-vscode`. |
| Installations.Installed | crates/client/src/client_instance.rs:31-44 | The installed builds are exactly those some collected name parses to, and there are never more of them than names. |
| Installations.InstalledMembership | crates/client/src/client_instance.rs:31-44 | A build is installed exactly when some collected name parses to it. The result is no longer than the names, and as long when every name parses. |
| Wrappers.OkValuesProperties | crates/client/src/client_instance.rs:35-41 | Keeping the successful results keeps exactly their values, never more of them than there are results, and all of them when every result succeeded. |
| Installations.LatestIndex | crates/client/src/client_instance.rs:20-21 | The index found holds a maximal version, and every later element's version is strictly smaller. That is the element a stable sort by version puts last. |
| Installations.Infer | crates/client/src/client_instance.rs:13-28 | A failed listing is an error. After a successful listing, the result is "no installation" exactly when no name parses, and an instance exactly when some name does. The instance is the build that sorting and taking the last element yield. |
| ProxyClient.ClassifyAck | crates/client/src/proxy_client.rs:186-196 | AuthOk means ready, AuthFailed means rejected, and every other message is unexpected. |
| ProxyClient.GetReadyConnection | crates/client/src/proxy_client.rs:165-197 | The connection is ready exactly when the handshake's reply is AuthOk. The token is cancelled afterwards exactly when it was before or the reply was AuthFailed. |
| ProxyClient.RetryReadyIff | crates/client/src/proxy_client.rs:119-136 | The loop ends ready at attempt k exactly when all of these hold:<br>the token was not cancelled;<br>attempt k's reply is AuthOk;<br>every earlier attempt failed without cancelling. |
| ProxyClient.RetryStopsAfterRejection | crates/client/src/proxy_client.rs:120-136 | After a rejection preceded only by plain failures, the loop returns at its next check of the token without a further attempt. |
| ProxyClient.RetryEndBounds | crates/client/src/proxy_client.rs:120-136 | A token cancelled on entry stops the loop at once. Each end lies within the attempts made. |
| ProxyClient.WaitByFirstNonPing | crates/client/src/proxy_client.rs:202-229 | The first event that is not a ping decides the wait:<br>data is returned;<br>a timeout or read error fails;<br>any other message fails as unexpected;<br>the end of the stream fails as a read error.<br>Each ping before it is answered by one pong, up to the first pong whose write fails. That failure ends the wait with a write error, after exactly the pongs written before it. |
| ProxyClient.WriteFailsAfterPongs | crates/client/src/proxy_client.rs:212-216 | When n pongs are written and the write of the next one fails, the wait fails with a write error after those n pongs. |
| ProxyClient.WaitDataIsData | crates/client/src/proxy_client.rs:218-220 | A successful wait always yields a data message. |
| ProxyClient.WaitTillData | crates/client/src/proxy_client.rs:202-229 | The loop's result is the specification's result. It writes exactly one pong per ping answered, and nothing else. Whether each pong write succeeds is given per ping. |
| ProxyClient.DestPort | crates/client/src/proxy_client.rs:149-154 | There is a port exactly for data messages: home data goes to the home service port, VS Code data to VS Code's port and SSH data to 22. |
| ProxyClient.ForwardingTarget | crates/client/src/proxy_client.rs:147-156 | The invalid-data-type error never happens. A forwarding connection goes to 127.0.0.1, at the port of the data message the wait returned. |
| ProxyClient.RunProxyConnection | crates/client/src/proxy_client.rs:106-163 | A connection's run is the retry loop followed by the wait. It signals for a new connection exactly once when the wait is reached, and never otherwise. The token ends cancelled exactly when the loop stopped on cancellation. It writes only pongs, and none before the wait. |
| ProxyClient.ConnectionPool.Start | crates/client/src/proxy_client.rs:57-90 | The pool starts with the configured number of connections pending and none connecting, stopped or served. |
| ProxyClient.ConnectionPool.Spawn | crates/client/src/proxy_client.rs:64-86 | A connection is started exactly when one is pending. It moves from pending to connecting, and the total is kept. |
| ProxyClient.ConnectionPool.Finish | crates/client/src/proxy_client.rs:120-147 | A connection that reached the wait hands its place back to pending and counts as served. A cancelled one counts as stopped. One still retrying keeps its place. |
| Terminal.SplitFields | crates/client/src/api.rs:204-210 | Splitting gives at least one field, and no field contains the separator. It gives exactly one when the separator does not occur. |
| Terminal.SplitFieldsJoin | crates/client/src/api.rs:204 | Joining the fields with the separator gives back the text. |
| Terminal.ParsePortalboxCmd | crates/client/src/api.rs:201-217 | The "no cols" error cannot happen. "No rows" happens exactly when no `x` is left after stripping every leading `__portalbox_term_cmd_resize:`. The result is a resize exactly when there are two fields and both parse as `u16`, and then it carries their values as columns and rows. |
| Terminal.PrefixStripped | crates/client/src/api.rs:202 | A size text is left as it is, and one or two copies of the prefix in front of it are removed. |
| Terminal.ResizeCommandRoundTrip | crates/client/src/api.rs:201-217 | `__portalbox_term_cmd_resize:{cols}x{rows}` parses back to those columns and rows. |
| Terminal.ResizeSizeTextParses | crates/client/src/api.rs:202-215 | A size text parses to its sizes with or without one or two prefixes, and with any further `x` fields after it. |
| Terminal.SignedPaddedResizeParses | crates/client/src/api.rs:201-217 | A resize whose numbers carry a `+` sign and leading zeros yields the same columns and rows. |
| Terminal.ResizeOutOfRange | crates/client/src/api.rs:212 | A column count above 65535 is refused as a bad number. |
| Terminal.RequestedSize | crates/client/src/api.rs:180-186 | A parsed resize asks for exactly the pty size with those rows and columns. A failed parse asks for none. |
| Terminal.HandlePortalboxCmds | crates/client/src/api.rs:169-199 | The pty is resized, in order, to the sizes of the commands that parse, and the others are skipped. |
| Terminal.ResizedExactlyByCommands | crates/client/src/api.rs:173-197 | A size is applied exactly when some command parses to it. There are never more resizes than commands. |
| Terminal.HandleWebsocketIncoming | crates/client/src/api.rs:113-144 | The loop forwards the same commands, writes the same pty data, queues the same replies and ends with the same success as the dispatch specification. |
| Terminal.DispatchSound | crates/client/src/api.rs:119-141 | Nothing is invented:<br>every forwarded command is a received prefixed text;<br>every pty text write is a received unprefixed text;<br>every byte write is a received binary message;<br>every reply is a pong to a received ping, with its payload. |
| Terminal.DispatchFails | crates/client/src/api.rs:119-141 | The loop ends in an error exactly when the pty write of some message bound for the pty fails. |
| Terminal.DispatchComplete | crates/client/src/api.rs:119-141 | When every pty write succeeds, every prefixed text is forwarded, every other text and binary message is written, and every ping is answered. Pongs and close frames do not end the loop. |
| Terminal.DispatchByFilters | crates/client/src/api.rs:119-141 | Up to the first failed pty write, the loop:<br>forwards each prefixed text once and in order;<br>writes each other text and each binary message once and in order;<br>answers each ping with one pong, in order.<br>It ends without error exactly when no pty write fails, and reads nothing after one that does. |
| Terminal.DispatchAllWritten | crates/client/src/api.rs:119-141 | When every pty write succeeds, the commands, pty writes and replies are exactly the three in-order filters of the whole input. |
| Terminal.DispatchAppend | crates/client/src/api.rs:119-141 | The loop over `a + b` is the loop over `a`, followed by the loop over `b` when `a` ended without error. |
| Website.VscodeUrl | crates/client/src/website.rs:43-55 | The VS Code link is always host-relative, starting with `//`. |
| Website.VscodeUrlOnHomeHost | crates/client/src/website.rs:43-46 | On `X-home.portalbox.app`, even with the suffix doubled, the link is `//X-vscode.portalbox.app`. |
| Website.VscodeUrlReplacesPort | crates/client/src/website.rs:47-51 | Elsewhere, the port after the host's last `:` is replaced by VS Code's port. |
| Website.VscodeUrlAppendsPort | crates/client/src/website.rs:52-53 | A host without `:` gets `:` and VS Code's port appended. |
| Website.VscodeUrlPortReadsBack | crates/client/src/website.rs:46-55 | Outside the home site, the text after the link's last `:` is VS Code's port, and it parses back to that port. |
| Website.IndexServices | crates/client/src/website.rs:59-69 | The index has two entries: VS Code at the derived link, then the terminal at `/terminal`. |
| Website.IndexServicesShape | crates/client/src/website.rs:59-69 | The index lists exactly VS Code, at the derived link, and then the terminal page, which does not depend on the host. |
| Website.SignedInHomeUrl | crates/client/src/website.rs:71-78 | There is a home link exactly when someone is signed in, and it is `http://{base}-home.portalbox.app`. |
| Website.HomeLinkLeadsToVscode | crates/client/src/website.rs:43-78 | The index served on the home link's host links to the same user's `-vscode` host. |
| Website.CredManager.Load | crates/client/src/website.rs:124 | The manager holds the stored credentials, or none when they could not be loaded. |
| Website.CredManager.Insert | crates/client/src/website.rs:125-127 | The credential is stored under the key, and every other entry is kept. |
| Website.RememberedCredentials | crates/client/src/website.rs:123-130 | The saved map holds the new credential under the server URL. Every other key maps to its stored entry, if there is one. |
| Website.RememberTwice | crates/client/src/website.rs:123-130 | Signing in twice to one server keeps only the later credential. |
| Website.RememberSignIn | crates/client/src/website.rs:123-130 | Something is saved exactly when "remember me" is set, and then it is the remembered map. |
| Website.SavedCredentialIsFoundAtStartup | crates/client/src/main.rs:137-153 | The lookup by server URL at the next start finds the credential saved at sign-in. |
| Website.Environment.constructor | crates/client/src/main.rs:130-135 | The environment starts from the configuration with nobody signed in. |
| Website.Environment.StartAllService | crates/client/src/website.rs:135-205 | `home` is requested first and queued for 127.0.0.1 at the home service port. `vscode` follows at VS Code's port. The first failure ends the call. Only when both succeed is the user's base hostname recorded, and the home link then leads to it. |
| Startup.FetchOrUpdateApps | crates/client/src/main.rs:251-322 | It fails when the server cannot be asked. It downloads exactly when the current version is not the latest and the latest build's directory does not exist. The archive goes to `home/vscode-latest.tar.gz` and is unpacked into the apps directory. A failed download or unpack is an error. |
| Startup.DownloadPlacement | crates/client/src/main.rs:281-313 | The archive is under the home directory and differs from the directory it is unpacked into. The build's directory lies under that directory. |
| Startup.UpToDateNeverDownloads | crates/client/src/main.rs:273-279 | A build already at the latest version is kept without a download. |
| Startup.InitApps | crates/client/src/main.rs:215-249 | An installed build is used at once, with a background update check from its version. Without one, the latest build is fetched first, and any failure there is "can't fetch". |
| Startup.FirstStartDownloads | crates/client/src/main.rs:236-246 | On a first start the server's build is downloaded, and an unreachable server fails the start. |
| Startup.StartVscode | crates/client/src/main.rs:80-106 | It fails exactly when the launcher does not exist. Otherwise it runs the launcher with eleven arguments, `--port` and the port among them, and logs under the apps data directory. |
| Startup.VscodeLaunch | crates/client/src/main.rs:90-106 | The launch runs the given launcher with eleven arguments, `--port` and VS Code's port at positions 2 and 3, and logs under the apps data directory. |
| Startup.LaunchArguments | crates/client/src/main.rs:90-103 | The port argument parses back to VS Code's port, and the three data directories are distinct. The launcher lies in the build's directory under the apps directory. |

## Left out

- Networking is not modelled: TCP, TLS, the HTTP client and server, DNS resolution, and the byte copy of `copy_bidirectional`. Their outcomes are parameters.
- `read_proxy_message` and `write_proxy_message` are defined outside the modelled files, so their wire format is not modelled. A proxy message is its variant.
- Concurrency is not modelled: tokio tasks, channels and `select!`.
  - The pool's counters stand for the ready-connection signals.
  - After cancellation `start_proxy` stops accepting signals. The pool model only counts such connections as stopped.
- ProxyClient.ConnectionPool.Spawn: does not model the cancellation branch of `select!`, because ending the receive loop is a control-flow effect of the task.
- Timers and backoff are not modelled. The 30-second ping timeout is the `TimedOut` event, and the retry delay has no effect on the outcome.
- `MAX_READY_CONNECTIONS` is defined in `consts.rs`, which is not part of this model. It is a parameter of the pool.
- Protocol.HelloRoundTrip: holds for 16-byte tokens only. The writer sends the token secret's bytes, whatever their number, but the reader always takes 16 of them as a UUID.
- Strings are sequences of characters; UTF-8 encoding is not modelled. The hello's host is given as its bytes.
- Apps.ParseVersion: accepts only `major.minor.patch`. The pre-release and build parts of semver are not modelled.
- Installations.Infer: finds the newest installation by a scan instead of sorting the vector in place. Only the element the source takes, the last after sorting, is modelled.
- `handle_socket`, `handle_pty_incoming`, `handle_ws_msg_send` and the pty reader thread are not modelled: they are I/O plumbing between channels. Whether each pty write succeeds is given per message.
- The other web handlers are not modelled: templates, the about page's `MemInfo` (floating point), contact, new service and the system info.
- `Config::new` and `ensure_all_dirs` are not modelled: they are file and environment I/O. `server_url_with_path` is not defined in config.rs, so the request URLs are not modelled.
- The version check of `version::check`, telemetry, the CLI and the `tunnel` subcommand are not modelled: they are context outside the core.
- Startup.FetchOrUpdateApps: the OS/arch query and the 5-second timeout of the request are folded into the answer parameter. Downloading and unpacking are one success flag.
- Startup.StartVscode: spawning the process and redirecting its output are not modelled. The model states the command line and the log path.
- `get_os` reports the compile-time platform, which is a parameter.
