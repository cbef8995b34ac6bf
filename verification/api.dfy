/** The WebSocket handler `WebsshApi` once the upgrade has succeeded: it
 *  validates the query parameters, registers the device and starts the
 *  tunnel, or closes the connection. */
module Api {
  import opened Wrappers
  import opened Types
  import opened Registry
  import Strconv

  /** The SSH address used when the request names no host (loopback only). */
  const DefaultSshIp: string := "127.0.0.1"

  /** The query parameters of the upgrade request; an absent parameter reads
   *  as the empty string. */
  datatype Query = Query(deviceId: string, user: string, pwd: string, port: string, host: string)

  datatype Rejection = MissingParameter | InvalidPort

  /** What the handler does with the upgraded connection: the device table
   *  afterwards, whether it closed the WebSocket itself, and the device id of
   *  the tunnel it started, if any. */
  datatype Response = Response(table: DeviceTable, wsClosed: bool, tunnel: Option<string>)

  predicate AnyEmpty(q: Query) {
    q.deviceId == "" || q.user == "" || q.pwd == "" || q.port == ""
  }

  /** Parameter validation and record construction. Any port Atoi accepts is
   *  taken, with no range check; the host is taken verbatim when present. */
  function NewDeviceInfo(q: Query): (r: Result<DeviceInfo, Rejection>)
    ensures r == Failure(MissingParameter) <==> AnyEmpty(q)
    ensures r == Failure(InvalidPort) <==> !AnyEmpty(q) && Strconv.Atoi(q.port).None?
    ensures r.Success? ==>
      && r.value.deviceId == q.deviceId
      && r.value.sshUser == q.user
      && r.value.sshPwd == q.pwd
      && Strconv.Atoi(q.port) == Some(r.value.sshPort)
    ensures r.Success? ==> (q.host == "" ==> r.value.ip == DefaultSshIp)
    ensures r.Success? ==> (q.host != "" ==> r.value.ip == q.host)
  {
    if AnyEmpty(q) then Failure(MissingParameter)
    else match Strconv.Atoi(q.port)
      case None => Failure(InvalidPort)
      case Some(port) =>
        var ip := if |q.host| > 0 then q.host else DefaultSshIp;
        Success(DeviceInfo(q.deviceId, port, ip, q.user, q.pwd))
  }

  /** `WebsshApi` after a successful upgrade. A rejected request closes the
   *  connection and leaves the table alone; an accepted one registers the
   *  device under its id, overwriting any earlier entry, and only then
   *  starts the tunnel for that id. */
  function WebsshApi(table: DeviceTable, q: Query): (r: Response)
    ensures r.wsClosed <==> NewDeviceInfo(q).Failure?
    ensures r.wsClosed ==> r.table == table && r.tunnel.None?
    ensures !r.wsClosed ==> r.tunnel == Some(q.deviceId)
    ensures !r.wsClosed ==> q.deviceId in r.table && r.table[q.deviceId] == NewDeviceInfo(q).value
    ensures r.table.Keys <= table.Keys + {q.deviceId}
    ensures forall k :: k in table && k != q.deviceId ==> k in r.table && r.table[k] == table[k]
  {
    match NewDeviceInfo(q)
    case Failure(_) => Response(table, true, None)
    case Success(info) => Response(Put(table, q.deviceId, info), false, Some(q.deviceId))
  }

  /** No port range is enforced: every Go `int` written in decimal is
   *  accepted as the SSH port, negative values and values above 65535
   *  included. */
  lemma AcceptsEveryIntPort(q: Query, port: Strconv.GoInt)
    requires q.deviceId != "" && q.user != "" && q.pwd != ""
    requires q.port == Strconv.FormatInt(port)
    ensures NewDeviceInfo(q).Success? && NewDeviceInfo(q).value.sshPort == port
  {
    Strconv.AtoiFormatInt(port);
  }

  /** The tunnel an accepted request starts finds its device: the lookup it
   *  performs yields the requested credentials and an address that reads
   *  back as the chosen host and the parsed port. */
  lemma StartedTunnelFindsDevice(table: DeviceTable, q: Query)
    requires WebsshApi(table, q).tunnel.Some?
    ensures
      var r := WebsshApi(table, q);
      var target := SshConfigFor(r.table, r.tunnel.value);
      && target.config == Some(ClientConfig(q.user, q.pwd, DialTimeoutSeconds))
      && Strconv.Atoi(q.port).Some?
      && SplitAddress(target.addr)
         == Some((if q.host == "" then DefaultSshIp else q.host, Strconv.Atoi(q.port).value))
  {
  }
}
