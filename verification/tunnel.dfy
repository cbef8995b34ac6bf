/** `Ws2ssh`: establish the SSH side for a registered device, then hand the
 *  WebSocket and the session to the stream bridge; on failure close the
 *  WebSocket and stop. The resource history of one tunnel starts with the
 *  upgraded WebSocket already open. */
module Tunnel {
  import opened Wrappers
  import opened Lifecycle
  import opened Registry
  import opened Connect
  import opened Bridge
  import Types

  /** The points a tunnel passes on the way to streaming: the remote shell
   *  is running (the last step of SSHConnect), `session.Stdout` is set to
   *  the WebSocket adapter, and the bridge is started. */
  datatype Milestone = ShellStarted | StdoutWired | BridgeStarted

  /** One tunnel: what establishment returned, the milestones reached in
   *  the order they were reached, the bridge run if one was started, and
   *  every acquisition and release from the upgrade onwards. */
  datatype TunnelRun = TunnelRun(
    conn: Connection,
    milestones: seq<Milestone>,
    bridge: Option<BridgeRun>,
    events: seq<Event>)

  /** `a` is reached before `b`. */
  predicate Precedes(ms: seq<Milestone>, a: Milestone, b: Milestone) {
    exists i, j :: 0 <= i < j < |ms| && ms[i] == a && ms[j] == b
  }

  /** The milestones of a successful establishment. Ws2ssh is straight-line
   *  code, so the order is fixed by construction: SSHConnect has already
   *  started the shell when it returns, the output is wired after that, and
   *  the bridge after the output. `ShellStarted` is recorded exactly when
   *  every step of SSHConnect, the shell start included, succeeded. */
  const Streamed: seq<Milestone> := [ShellStarted, StdoutWired, BridgeStarted]

  lemma StreamedOrder()
    ensures Precedes(Streamed, ShellStarted, StdoutWired)
    ensures Precedes(Streamed, StdoutWired, BridgeStarted)
  {
    assert Streamed[0] == ShellStarted && Streamed[1] == StdoutWired && Streamed[2] == BridgeStarted;
  }

  /** A tunnel's history: the upgraded WebSocket, then establishment, then
   *  `tail`, the releases that follow. */
  function TunnelEvents(conn: Connection, tail: seq<Event>): seq<Event> {
    [Open(WsConn)] + conn.events + tail
  }

  /** Bookkeeping of a tunnel: the WebSocket is open alongside whatever
   *  establishment left open, and the tail runs from there. */
  lemma TunnelLive(conn: Connection, open: set<Resource>, tail: seq<Event>)
    requires Live(conn.events) == Some(open)
    requires forall e :: e in conn.events ==> e.res != WsConn
    ensures Live(TunnelEvents(conn, tail)) == LiveFrom(open + {WsConn}, tail)
  {
    LiveFromAppend({}, [Open(WsConn)], conn.events + tail);
    assert LiveFrom({}, [Open(WsConn)]) == Some({WsConn}) by {
      assert [Open(WsConn)][1..] == [];
      assert {} + {WsConn} == {WsConn};
    }
    LiveFromAppend({}, conn.events, tail);
    LiveShift(conn.events, open);
    assert TunnelEvents(conn, tail) == [Open(WsConn)] + (conn.events + tail);
    LiveFromAppend({WsConn}, conn.events, tail);
  }

  /** Establishment never touches the WebSocket, so running it with the
   *  WebSocket already open only adds the WebSocket to what it leaves. */
  lemma {:induction false} LiveShift(events: seq<Event>, open: set<Resource>)
    requires Live(events) == Some(open)
    requires forall e :: e in events ==> e.res != WsConn
    ensures LiveFrom({WsConn}, events) == Some(open + {WsConn})
  {
    LiveShiftFrom({}, events, open);
    assert {} + {WsConn} == {WsConn};
  }

  lemma {:induction false} LiveShiftFrom(start: set<Resource>, events: seq<Event>, open: set<Resource>)
    requires WsConn !in start
    requires LiveFrom(start, events) == Some(open)
    requires forall e :: e in events ==> e.res != WsConn
    ensures LiveFrom(start + {WsConn}, events) == Some(open + {WsConn})
    decreases |events|
  {
    if |events| > 0 {
      assert events[0] in events;
      forall e | e in events[1..] ensures e.res != WsConn {
        assert e in events;
      }
      match events[0]
      case Open(x) =>
        assert start + {WsConn} + {x} == start + {x} + {WsConn};
        LiveShiftFrom(start + {x}, events[1..], open);
      case Close(x) =>
        assert (start + {WsConn}) - {x} == (start - {x}) + {WsConn};
        LiveShiftFrom(start - {x}, events[1..], open);
    }
  }

  /** `Ws2ssh(wsConn, deviceId)` as written. A failed establishment closes
   *  the WebSocket, which is then the only thing it ever opened besides
   *  what establishment already released, and starts no bridge. Otherwise
   *  the output is wired, only after SSHConnect has started the shell, and
   *  then the bridge runs; once it ends, the session and
   *  the WebSocket are closed exactly once each, but the SSH transport
   *  connection is still open: nothing closes it. */
  method Ws2ssh(table: DeviceTable, id: string, steps: Steps, trace: seq<Inbound>) returns (run: TunnelRun)
    ensures run.conn == SSHConnect(SshConfigFor(table, id), steps)
    ensures run.conn.err.Some? ==> run.bridge.None? && run.milestones == []
    ensures run.conn.err.Some? ==> Live(run.events) == Some({}) && multiset(run.events)[Close(WsConn)] == 1
    ensures run.conn.err.None? ==> run.bridge == Some(BridgeOf(trace))
    ensures ShellStarted in run.milestones <==> FirstFailure(Attempts(steps)).None?
    ensures ShellStarted in run.milestones ==> steps.shell.None?
    ensures run.conn.err.None? ==>
      && Precedes(run.milestones, ShellStarted, StdoutWired)
      && Precedes(run.milestones, StdoutWired, BridgeStarted)
    ensures run.conn.err.None? && StopOf(trace).Streaming? ==>
      Live(run.events) == Some({WsConn, SshClient, SshSession})
    ensures run.conn.err.None? && !StopOf(trace).Streaming? ==>
      && Live(run.events) == Some({SshClient})
      && multiset(run.events)[Close(WsConn)] == 1
      && multiset(run.events)[Close(SshSession)] == 1
  {
    var conn := SSHConnect(SshConfigFor(table, id), steps);
    if conn.err.Some? {
      FailedTunnel(conn);
      run := TunnelRun(conn, [], None, TunnelEvents(conn, [Close(WsConn)]));
    } else {
      EstablishedTunnel(conn);
      FirstFailureOfSteps(steps);
      var bridged := StreamBind(trace);
      StreamedOrder();
      run := TunnelRun(conn, Streamed, Some(bridged), TunnelEvents(conn, bridged.closes));
    }
  }

  /** `Ws2ssh` with the transport connection also closed when the bridge
   *  ends (as a deferred `sshClient.Close()` in StreamBind would do): a
   *  finished tunnel leaves nothing open. */
  method Ws2sshClosingClient(table: DeviceTable, id: string, steps: Steps, trace: seq<Inbound>)
    returns (run: TunnelRun)
    ensures run.conn == SSHConnect(SshConfigFor(table, id), steps)
    ensures run.conn.err.Some? ==> run.bridge.None? && run.milestones == []
    ensures run.conn.err.Some? ==> Live(run.events) == Some({}) && multiset(run.events)[Close(WsConn)] == 1
    ensures run.conn.err.None? ==> run.bridge == Some(BridgeOf(trace))
    ensures ShellStarted in run.milestones <==> FirstFailure(Attempts(steps)).None?
    ensures ShellStarted in run.milestones ==> steps.shell.None?
    ensures run.conn.err.None? ==>
      && Precedes(run.milestones, ShellStarted, StdoutWired)
      && Precedes(run.milestones, StdoutWired, BridgeStarted)
    ensures run.conn.err.None? && StopOf(trace).Streaming? ==>
      Live(run.events) == Some({WsConn, SshClient, SshSession})
    ensures run.conn.err.None? && !StopOf(trace).Streaming? ==>
      && Live(run.events) == Some({})
      && multiset(run.events)[Close(WsConn)] == 1
      && multiset(run.events)[Close(SshSession)] == 1
      && multiset(run.events)[Close(SshClient)] == 1
  {
    var conn := SSHConnect(SshConfigFor(table, id), steps);
    if conn.err.Some? {
      FailedTunnel(conn);
      run := TunnelRun(conn, [], None, TunnelEvents(conn, [Close(WsConn)]));
    } else {
      EstablishedTunnel(conn);
      FirstFailureOfSteps(steps);
      var bridged := StreamBind(trace);
      var tail := if bridged.stop.Streaming? then [] else bridged.closes + [Close(SshClient)];
      StreamedOrder();
      run := TunnelRun(conn, Streamed, Some(bridged), TunnelEvents(conn, tail));
    }
  }

  /** A failed establishment followed by closing the WebSocket leaves
   *  nothing open, the WebSocket closed once. */
  lemma FailedTunnel(conn: Connection)
    requires Live(conn.events) == Some({})
    requires forall e :: e in conn.events ==> e.res != WsConn
    ensures Live(TunnelEvents(conn, [Close(WsConn)])) == Some({})
    ensures multiset(TunnelEvents(conn, [Close(WsConn)]))[Close(WsConn)] == 1
  {
    TunnelLive(conn, {}, [Close(WsConn)]);
    assert {} + {WsConn} == {WsConn};
    CloseWsOnly();
    assert Close(WsConn) !in conn.events;
  }

  /** What an established tunnel leaves open while the bridge runs, after
   *  the bridge's teardown, and after the teardown plus a client close. */
  lemma EstablishedTunnel(conn: Connection)
    requires Live(conn.events) == Some({SshClient, SshSession})
    requires forall e :: e in conn.events ==> e.res != WsConn && e.Open?
    ensures Live(TunnelEvents(conn, [])) == Some({WsConn, SshClient, SshSession})
    ensures Live(TunnelEvents(conn, Teardown)) == Some({SshClient})
    ensures Live(TunnelEvents(conn, Teardown + [Close(SshClient)])) == Some({})
    ensures multiset(TunnelEvents(conn, Teardown))[Close(WsConn)] == 1
    ensures multiset(TunnelEvents(conn, Teardown))[Close(SshSession)] == 1
    ensures multiset(TunnelEvents(conn, Teardown + [Close(SshClient)]))[Close(WsConn)] == 1
    ensures multiset(TunnelEvents(conn, Teardown + [Close(SshClient)]))[Close(SshSession)] == 1
    ensures multiset(TunnelEvents(conn, Teardown + [Close(SshClient)]))[Close(SshClient)] == 1
  {
    var open: set<Resource> := {SshClient, SshSession};
    assert open + {WsConn} == {SshClient, SshSession, WsConn};
    TunnelLive(conn, open, []);
    TunnelLive(conn, open, Teardown);
    TunnelLive(conn, open, Teardown + [Close(SshClient)]);
    BridgeBookkeeping();
    assert Close(WsConn) !in conn.events;
    assert Close(SshSession) !in conn.events;
    assert Close(SshClient) !in conn.events;
  }

  lemma CloseWsOnly()
    ensures LiveFrom({WsConn}, [Close(WsConn)]) == Some({})
  {
    var none: set<Resource> := {};
    assert [Close(WsConn)][1..] == [];
    assert {WsConn} - {WsConn} == none;
  }

  /** What the bridge teardown, with and without the extra client close,
   *  leaves of an established tunnel. */
  lemma BridgeBookkeeping()
    ensures LiveFrom({SshClient, SshSession, WsConn}, []) == Some({WsConn, SshClient, SshSession})
    ensures LiveFrom({SshClient, SshSession, WsConn}, Teardown) == Some({SshClient})
    ensures LiveFrom({SshClient, SshSession, WsConn}, Teardown + [Close(SshClient)]) == Some({})
  {
    var all: set<Resource> := {SshClient, SshSession, WsConn};
    var none: set<Resource> := {};
    assert all == {WsConn, SshClient, SshSession};
    assert all - {SshSession} == {SshClient, WsConn};
    assert {SshClient, WsConn} - {WsConn} == {SshClient};
    assert {SshClient} - {SshClient} == none;
    var last: seq<Event> := [Close(SshClient)];
    assert LiveFrom({SshClient}, last) == Some({}) by {
      assert last[1..] == [];
    }
    var t := Teardown + last;
    assert t[1..][1..] == last;
    assert LiveFrom({SshClient, WsConn}, t[1..]) == Some({});
    assert Teardown[1..][1..] == [];
    assert LiveFrom({SshClient, WsConn}, Teardown[1..]) == Some({SshClient});
  }

  /** The input that shows the leak: a device whose establishment succeeds
   *  and whose client disconnects at once. After the bridge has closed the
   *  session and the WebSocket, the transport connection is still live. */
  method ClientOutlivesBridge() returns (run: TunnelRun)
    ensures run.conn.err.None?
    ensures run.bridge.Some? && run.bridge.value.stop == ReadError(Types.Error("websocket: close 1001"))
    ensures Live(run.events) == Some({SshClient})
  {
    var info := Types.DeviceInfo("d1", 22, "10.0.0.5", "alice", "secret");
    var table := map["d1" := info];
    var ok := Steps(None, None, None, None, None);
    FirstFailureOfSteps(ok);
    var trace := [ReadFailed(Types.Error("websocket: close 1001"))];
    run := Ws2ssh(table, "d1", ok, trace);
  }
}
