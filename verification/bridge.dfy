/** `StreamBind`: the inbound pump that reads WebSocket frames and writes
 *  their payloads to the SSH session's standard input until a read or a
 *  write fails, then closes the session and the WebSocket. */
module Bridge {
  import opened Wrappers
  import opened Types
  import opened Lifecycle

  /** One loop iteration as the outside world decides it: `ReadMessage`
   *  returned a frame, and writing it to stdin returned `writeErr`; or
   *  `ReadMessage` failed. */
  datatype Inbound =
    | Received(kind: MessageType, payload: seq<byte>, writeErr: Option<Error>)
    | ReadFailed(err: Error)

  /** Why the loop is no longer running, or that it still is (the trace
   *  ran out while it was blocked on the next read). */
  datatype Stop = Streaming | ReadError(err: Error) | WriteError(err: Error)

  /** The stdin writes issued, in order, how the loop ended, and the
   *  releases its deferred calls performed. */
  datatype BridgeRun = BridgeRun(writes: seq<seq<byte>>, stop: Stop, closes: seq<Event>)

  /** An iteration that ends the loop. */
  predicate Fails(e: Inbound) {
    e.ReadFailed? || e.writeErr.Some?
  }

  /** The payloads of all frames the client sent, in receipt order. */
  function Payloads(trace: seq<Inbound>): seq<seq<byte>> {
    if |trace| == 0 then []
    else (if trace[0].Received? then [trace[0].payload] else []) + Payloads(trace[1..])
  }

  /** The writes of the bridge, frame by frame: a read error writes nothing
   *  more, a failed write is the last one. */
  function Forwarded(trace: seq<Inbound>): seq<seq<byte>> {
    if |trace| == 0 then []
    else match trace[0]
      case ReadFailed(_) => []
      case Received(_, p, None) => [p] + Forwarded(trace[1..])
      case Received(_, p, Some(_)) => [p]
  }

  function StopOf(trace: seq<Inbound>): Stop {
    if |trace| == 0 then Streaming
    else match trace[0]
      case ReadFailed(e) => ReadError(e)
      case Received(_, _, None) => StopOf(trace[1..])
      case Received(_, _, Some(e)) => WriteError(e)
  }

  /** The deferred calls run in reverse order of registration: the session
   *  is closed first, then the WebSocket. */
  const Teardown: seq<Event> := [Close(SshSession), Close(WsConn)]

  /** The bridge as a function of its trace. */
  function BridgeOf(trace: seq<Inbound>): BridgeRun {
    BridgeRun(Forwarded(trace), StopOf(trace), if StopOf(trace).Streaming? then [] else Teardown)
  }

  /** The writes are a prefix of the frames received: nothing merged, split,
   *  reordered or invented. */
  lemma {:induction false} ForwardedIsPrefix(trace: seq<Inbound>)
    ensures Forwarded(trace) <= Payloads(trace)
  {
    if |trace| > 0 {
      ForwardedIsPrefix(trace[1..]);
    }
  }

  /** The bridge stops at the first failing iteration `k`: every frame before
   *  it is forwarded in order, a frame whose write failed was still written,
   *  a read error writes nothing, and nothing after `k` is looked at. */
  lemma {:induction false} StopsAtFirstFailure(trace: seq<Inbound>, k: nat)
    requires k <= |trace|
    requires forall i :: 0 <= i < k ==> !Fails(trace[i])
    requires k < |trace| ==> Fails(trace[k])
    ensures Forwarded(trace)
         == Payloads(trace[..k]) + (if k < |trace| && trace[k].Received? then [trace[k].payload] else [])
    ensures StopOf(trace)
         == if k == |trace| then Streaming
            else if trace[k].ReadFailed? then ReadError(trace[k].err)
            else WriteError(trace[k].writeErr.value)
  {
    if k == 0 {
      assert trace[..0] == [];
    } else {
      assert !Fails(trace[0]);
      StopsAtFirstFailure(trace[1..], k - 1);
      assert trace[1..][..k - 1] == trace[..k][1..];
    }
  }

  /** The loop is still running exactly when no iteration so far failed. */
  lemma {:induction false} StreamingIffNoFailure(trace: seq<Inbound>)
    ensures StopOf(trace).Streaming? <==> forall i :: 0 <= i < |trace| ==> !Fails(trace[i])
  {
    if |trace| > 0 {
      StreamingIffNoFailure(trace[1..]);
      assert forall i :: 1 <= i < |trace| ==> trace[i] == trace[1..][i - 1];
    }
  }

  /** `StreamBind(wsConn, deviceId, session, pipeInput)`. */
  method StreamBind(trace: seq<Inbound>) returns (run: BridgeRun)
    ensures run == BridgeOf(trace)
    ensures run.writes <= Payloads(trace)
    ensures run.stop.Streaming? ==> run.closes == [] && run.writes == Payloads(trace)
    ensures !run.stop.Streaming? ==>
      multiset(run.closes)[Close(SshSession)] == 1 && multiset(run.closes)[Close(WsConn)] == 1
  {
    var writes: seq<seq<byte>> := [];
    var stop := Streaming;
    var i := 0;
    while stop.Streaming? && i < |trace|
      invariant 0 <= i <= |trace|
      invariant stop.Streaming? ==> forall j :: 0 <= j < i ==> !Fails(trace[j])
      invariant stop.Streaming? ==> writes == Payloads(trace[..i])
      invariant stop.Streaming? ==> writes + Forwarded(trace[i..]) == Forwarded(trace)
      invariant stop.Streaming? ==> StopOf(trace[i..]) == StopOf(trace)
      invariant !stop.Streaming? ==> writes == Forwarded(trace) && stop == StopOf(trace)
      invariant !stop.Streaming? ==> exists j :: 0 <= j < |trace| && Fails(trace[j])
      decreases |trace| - i
    {
      var ev := trace[i];
      assert trace[i..][1..] == trace[i + 1..];
      PayloadsExtend(trace, i);
      if ev.ReadFailed? {
        stop := ReadError(ev.err);
      } else {
        writes := writes + [ev.payload];
        if ev.writeErr.Some? {
          stop := WriteError(ev.writeErr.value);
        }
      }
      i := i + 1;
    }
    assert stop.Streaming? ==> trace[..i] == trace;
    ForwardedIsPrefix(trace);
    run := BridgeRun(writes, stop, if stop.Streaming? then [] else Teardown);
  }

  lemma PayloadsExtend(trace: seq<Inbound>, i: nat)
    requires i < |trace|
    ensures Payloads(trace[..i + 1])
         == Payloads(trace[..i]) + (if trace[i].Received? then [trace[i].payload] else [])
  {
    PayloadsAppend(trace[..i], [trace[i]]);
    assert trace[..i + 1] == trace[..i] + [trace[i]];
  }

  lemma {:induction false} PayloadsAppend(a: seq<Inbound>, b: seq<Inbound>)
    ensures Payloads(a + b) == Payloads(a) + Payloads(b)
  {
    if |a| > 0 {
      PayloadsAppend(a[1..], b);
      assert (a + b)[1..] == a[1..] + b;
    } else {
      assert a + b == b;
    }
  }
}
