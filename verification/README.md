# webssh-service tunnel engine in Dafny

A model of the WebSocket-to-SSH tunnel of the `webssh-service` gateway. A
browser opens a WebSocket to `/api/v1/webssh` and passes the device id, the SSH
credentials, the port and an optional host as query parameters. The gateway
validates them and records the device in a process-wide table. It then dials
the device's SSH server, opens a session with a pseudo-terminal and a shell,
and pumps the browser's frames into the shell's standard input. Once the
session's output is pointed at an adapter that sends binary frames, the shell's
output written through that adapter goes back to the browser. The adapter is
installed only after the shell has started. The model records that order, but
what the SSH library does with output produced before it is not modelled.

Every library call (WebSocket read and send, SSH dial, session open, pty
request, stdin pipe, shell start, stdin write) is an opaque step. Its possibly-nil
Go `error` becomes an `Option<Error>` that the caller of the model supplies.
What is modelled is the decision and clean-up logic around those calls:

| file | module | models |
|---|---|---|
| `strconv.dfy` | `Strconv` | Go's `strconv.Atoi` (base 10, 64-bit `int`) and the `%d` rendering, with both round trips |
| `types.dfy` | `Types` | `DeviceInfo`, bytes, errors, WebSocket message types (types.go) |
| `lifecycle.dfy` | `Lifecycle` | open/close events and the set of live resources they leave; a double close or double open is an error state |
| `registry.dfy` | `Registry` | the device table, `getSshConfigByDeviceId` and the `ip:port` address |
| `api.dfy` | `Api` | `WebsshApi` after the upgrade: validation, defaulting the host, insertion, starting the tunnel |
| `connect.dfy` | `Connect` | `SSHConnect`: the five steps and the release performed on each failure |
| `bridge.dfy` | `Bridge` | `StreamBind`: the read/write loop and its deferred closes |
| `output.dfy` | `Output` | `MyOutput.Write` |
| `tunnel.dfy` | `Tunnel` | `Ws2ssh`, plus the corrected variant described under Findings |

Three facts about the code shape the model:
- The port is any integer `strconv.Atoi` accepts. There is no range check, so 0, negative ports and ports above 65535 are stored.
- For an unknown device id the lookup yields `("", nil)`, and that pair goes to the dial unchecked. `Api.StartedTunnelFindsDevice` shows that a tunnel started by the handler always finds its device, because the insert happens before the tunnel starts.
- The stream bridge closes the session channel and the WebSocket, but not the SSH client connection. See Findings.

## Model

| member | source | states |
|---|---|---|
| Strconv.Atoi | service.go:48 | an accepted port string is an optional sign followed only by digits; a negative value needs a `-`; the empty string is rejected; the value fits Go's 64-bit `int` (the value itself is fixed by the round trips and the sign and zero lemmas below) |
| Strconv.FormatInt | service.go:91 | `%d` output is non-empty, starts with a digit or `-` (the `-` exactly for negative values), has only digits after that, and is canonical: no `+`, no leading zero, no `-0` |
| Strconv.AtoiFormatInt | service.go:48-51 | every Go `int` printed with `%d` parses back to itself, so every integer port has a spelling the handler accepts |
| Strconv.FormatIntAtoi | service.go:91 | a canonical decimal string that Atoi accepts is exactly what `%d` prints for the parsed value |
| Strconv.BareSignRejected | service.go:48-51 | a lone `+` or `-` is not a port |
| Strconv.PlusSignIgnored | service.go:48 | a leading `+` before digits does not change the parsed value, so `+22` is port 22 |
| Strconv.LeadingZeroIgnored | service.go:48 | a leading zero before digits does not change the parsed value, so `0022` is port 22 |
| Strconv.NegativeLeadingZeroIgnored | service.go:48 | a zero right after a minus sign does not change the parsed value, and `-0` is zero; with the lemmas above and the two round trips this fixes Atoi's result on every input |
| Registry.Put | service.go:58-64 | after registration the id maps to the new record and overwrites any earlier one; the key set grows by the id only; every other entry is unchanged |
| Registry.LastPutWins | service.go:58 | a second registration under the same id leaves no trace of the first, neither in the table nor in what the lookup returns |
| Registry.AddressRoundTrip | service.go:91 | the `ip:port` address loses nothing: the model's own splitter, which cuts at the last colon, recovers the ip and the port, even for an ip with colons of its own (the dial's `net.SplitHostPort` would reject such an unbracketed host) |
| Registry.SshConfigFor | service.go:77-92 | an unknown id yields an empty address and no configuration; a known id yields a configuration with the stored user, password and the 10-second timeout, and the address is exactly the stored ip, a colon and the port in `%d` form, which reads back as the stored ip and port |
| Api.NewDeviceInfo | service.go:38-64 | rejected as missing exactly when deviceId, user, pwd or port is empty; rejected as invalid exactly when all four are present and Atoi fails; otherwise the record carries the id, user, password and parsed port, and the ip is `127.0.0.1` for an empty host and the host verbatim otherwise |
| Api.WebsshApi | service.go:44-67 | the WebSocket is closed exactly when validation fails, and then the table is unchanged and no tunnel starts; otherwise the record is stored under the device id and the tunnel for that id starts; all other entries are kept |
| Api.AcceptsEveryIntPort | service.go:48-51 | with the other parameters present, any Go `int` given as the port is accepted and stored, including 0, negative values and values above 65535 |
| Api.StartedTunnelFindsDevice | service.go:58-67 | the tunnel started by an accepted request finds its device: the lookup returns the requested credentials and an address that reads back as the chosen host and the parsed port |
| Connect.SSHConnect | service.go:97-183 | the call fails exactly when some step fails, with the first failing step's error and `(nil, nil, err)`; on every path the client is opened before the session and each of the two is opened at most once and closed at most once; on failure nothing stays open, and exactly the resources held before the failing step were opened (none for dial, the client for session open, both after that); the session is never closed after the client; on success the session and its stdin pipe are returned and both resources are still open |
| Bridge.ForwardedIsPrefix | service.go:207-222 | the stdin writes are a prefix of the payloads the client sent: nothing merged, split, reordered or invented |
| Bridge.StopsAtFirstFailure | service.go:207-222 | with `k` the first failing iteration, all frames before it are written in order; a frame whose write failed was still written; a read error writes nothing; nothing after `k` is used; the stop reason is the error of iteration `k` |
| Bridge.StreamingIffNoFailure | service.go:207-222 | the loop is still running exactly when neither a read nor a write of the trace has failed |
| Bridge.StreamBind | service.go:204-225 | the loop issues exactly the reference writes and stops for the reference reason; writes are a prefix of the received payloads; while it still runs it has forwarded every frame and closed nothing; once it stops it closes the session and the WebSocket once each, the session first |
| Output.Write | types.go:37-40 | one call sends one binary frame carrying `p` unchanged, returns `len(p)` whether or not the send failed, and returns the send's error unchanged |
| Output.WriteAllForwardsOutput | types.go:37-40 | a run of writes sends one binary frame per chunk; the frame payloads concatenate to exactly the session's output; the reported counts sum to its full length whichever sends failed |
| Tunnel.Ws2ssh | service.go:165-199 | a failed establishment starts no bridge and reaches no milestone (shell start, output wiring, bridge start), closes the WebSocket exactly once and leaves nothing open; the shell-start milestone is reached exactly when every step of SSHConnect, the shell start included, succeeded; on a successful one the shell is started before the session's output is pointed at the WebSocket adapter, and that happens before the bridge starts, which then runs as the reference bridge; while the bridge runs, the WebSocket, client and session are all open; once it stops, the session and WebSocket are closed once each and the client is still open |
| Tunnel.ClientOutlivesBridge | service.go:204-206 | a concrete tunnel whose establishment succeeds and whose browser disconnects at once ends with the SSH client still live |
| Tunnel.Ws2sshClosingClient | service.go:188-199 | the same failure behaviour, milestone order and bridge as Ws2ssh; with the client also closed at teardown, a finished tunnel leaves nothing open, and the WebSocket, session and client are each closed exactly once |

## Findings

| source | as written | input that shows it | evidently intended | confidence | as-written member | corrected member |
|---|---|---|---|---|---|---|
| service.go:204-206 | `StreamBind` defers `wsConn.Close()` and `session.Close()` only. The `ssh.Client` dialled in `SSHConnect` is a local variable there and is never closed after a successful establishment | device `d1` registered; every establishment step succeeds; the first WebSocket read fails. The session and WebSocket are closed, the SSH transport connection stays open | tearing down a tunnel also closes the transport it ran on, so that no connection is left open on any exit path | medium; not executed | Tunnel.Ws2ssh, Tunnel.ClientOutlivesBridge | Tunnel.Ws2sshClosingClient |

## Left out

- The WebSocket upgrade, `CheckOrigin` and the branch where the upgrade fails (service.go:31-36): HTTP framework plumbing. The model starts from an upgraded connection.
- gin routing and `main` (service.go:227-242), and the whole of log.go: routing and logging have no behaviour to verify. Every logging call is dropped.
- Terminal modes, terminal geometry, `runtime.GOOS`, `MakeRaw`, `GetSize` and `Restore` (service.go:116-140): configuration constants and local OS terminal I/O. The pty request is an opaque step.
- The SSH protocol work inside the dial, session open, pty request (section 6.2 of RFC 4254) and shell request (section 6.5 of RFC 4254): each is an opaque step that succeeds or returns an error.
- The dial of a `nil` configuration for an unknown id: the dial outcome is supplied regardless of the lookup result, and the handler never starts a tunnel for an unregistered id.
- The `session.Wait` watcher goroutine (service.go:174-180): it only logs.
- Concurrency: the `go Ws2ssh` and `go StreamBind` spawns, the session's own output pump, and concurrent handlers writing the unsynchronised global map. The model is sequential, one tunnel at a time.
- The host key callback and the empty client version of the SSH configuration: constants with no behaviour.
- Strconv.Atoi: does not tell syntax errors from range errors, because the handler only tests `err != nil`. `int` is taken as 64 bits wide; a 32-bit build would have a narrower accepted range.
- Bridge.StreamBind: the message type returned by `ReadMessage` is carried in the trace but only logged, as in the source.
- Tunnel.Ws2ssh: records that the shell starts (service.go:165) before `session.Stdout` is set (service.go:196), but not what that order does. Whether output the shell writes before the adapter is installed reaches the WebSocket, or is dropped, depends on when the SSH library's output copier reads `Stdout`. That is library behaviour and is not modelled, so the model does not promise that this early output is forwarded.
- Output.WriteAllForwardsOutput: each send result is an input. How the session's output copier reacts to a returned error is library code and is not modelled.
