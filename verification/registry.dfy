/** The device table of service.go: a process-wide map from device id to
 *  DeviceInfo, written by the WebSocket handler and read when a tunnel
 *  dials the device's SSH server. */
module Registry {
  import opened Wrappers
  import opened Types
  import Strconv

  type DeviceTable = map<string, DeviceInfo>

  /** The dial timeout every client configuration carries. */
  const DialTimeoutSeconds: nat := 10

  /** The parts of `ssh.ClientConfig` the lookup fills from the table; the
   *  host key is never checked and the client version is left empty. */
  datatype ClientConfig = ClientConfig(user: string, password: string, timeoutSeconds: nat)

  /** What the lookup returns: the dial address and, when the device is
   *  known, the configuration (`nil` otherwise). */
  datatype SshTarget = SshTarget(addr: string, config: Option<ClientConfig>)

  /** Registering a device: insert or overwrite, last writer wins. */
  function Put(table: DeviceTable, id: string, info: DeviceInfo): (t: DeviceTable)
    ensures id in t && t[id] == info
    ensures t.Keys == table.Keys + {id}
    ensures forall k :: k in table && k != id ==> t[k] == table[k]
  {
    table[id := info]
  }

  /** `fmt.Sprintf("%s:%d", ip, port)`. */
  function Address(ip: string, port: int): string {
    ip + ":" + Strconv.FormatInt(port)
  }

  /** Position of the last `:` in `s`. */
  function LastColon(s: string): (r: Option<nat>)
    ensures r.Some? ==> r.value < |s| && s[r.value] == ':'
    ensures r.Some? ==> forall j :: r.value < j < |s| ==> s[j] != ':'
    ensures r.None? ==> forall j :: 0 <= j < |s| ==> s[j] != ':'
  {
    if |s| == 0 then None
    else if s[|s| - 1] == ':' then Some(|s| - 1)
    else LastColon(s[..|s| - 1])
  }

  /** Reads an address back into host and port, splitting at the last `:`.
   *  This splitter is the model's own inverse of `Address`, used to state
   *  that nothing is lost; it accepts a host with colons of its own, which
   *  the dial's `net.SplitHostPort` rejects unless the host is bracketed. */
  function SplitAddress(addr: string): Option<(string, Strconv.GoInt)> {
    match LastColon(addr)
    case None => None
    case Some(i) =>
      match Strconv.Atoi(addr[i + 1..])
      case None => None
      case Some(port) => Some((addr[..i], port))
  }

  /** The rendered address loses nothing: host and port can be read back. */
  lemma AddressRoundTrip(ip: string, port: Strconv.GoInt)
    ensures SplitAddress(Address(ip, port)) == Some((ip, port))
  {
    var a := Address(ip, port);
    var digits := Strconv.FormatInt(port);
    assert a[|ip|] == ':';
    assert forall j :: |ip| < j < |a| ==> a[j] == digits[j - |ip| - 1];
    assert LastColon(a) == Some(|ip|);
    assert a[|ip| + 1..] == digits;
    assert a[..|ip|] == ip;
    Strconv.AtoiFormatInt(port);
  }

  /** `getSshConfigByDeviceId`: an unknown id yields an empty address and
   *  no configuration; a known one yields the device's address and a
   *  password configuration with its stored credentials. */
  function SshConfigFor(table: DeviceTable, id: string): (r: SshTarget)
    ensures r.config.None? <==> id !in table
    ensures id !in table ==> r.addr == ""
    ensures id in table ==>
      r.config == Some(ClientConfig(table[id].sshUser, table[id].sshPwd, DialTimeoutSeconds))
    ensures id in table ==> r.addr == table[id].ip + ":" + Strconv.FormatInt(table[id].sshPort)
    ensures id in table ==> SplitAddress(r.addr) == Some((table[id].ip, table[id].sshPort))
  {
    if id !in table then SshTarget("", None)
    else
      var info := table[id];
      AddressRoundTrip(info.ip, info.sshPort);
      SshTarget(Address(info.ip, info.sshPort), Some(ClientConfig(info.sshUser, info.sshPwd, DialTimeoutSeconds)))
  }

  /** A second registration under the same id hides the first completely. */
  lemma LastPutWins(table: DeviceTable, id: string, first: DeviceInfo, second: DeviceInfo)
    ensures Put(Put(table, id, first), id, second) == Put(table, id, second)
    ensures SshConfigFor(Put(Put(table, id, first), id, second), id)
         == SshConfigFor(Put(table, id, second), id)
  {
  }
}
