/** `SSHConnect`: dial, open a session, request a pseudo-terminal, take the
 *  session's stdin pipe and start a shell. Each library call is an opaque
 *  step that returns a possibly-nil error; on the first failure everything
 *  acquired so far is released and `(nil, nil, err)` is returned. */
module Connect {
  import opened Wrappers
  import opened Types
  import opened Lifecycle
  import opened Registry

  /** The establishment steps, in the order they run. */
  datatype Stage = Dial | NewSession | RequestPty | OpenStdin | StartShell

  /** The error each step's library call returns (`None` for nil). Entries
   *  after the first failure describe calls that are never made. */
  datatype Steps = Steps(
    dial: Option<Error>,
    newSession: Option<Error>,
    requestPty: Option<Error>,
    stdinPipe: Option<Error>,
    shell: Option<Error>)

  /** A live session with a pseudo-terminal and a running shell, reached
   *  through the target the lookup produced. */
  datatype Session = Session(target: SshTarget)

  /** The write end of a session's standard input. */
  datatype StdinPipe = StdinPipe(session: Session)

  /** The Go triple `(session, pipeInput, err)` and the acquisitions and
   *  releases performed on the way. */
  datatype Connection = Connection(
    session: Option<Session>,
    pipe: Option<StdinPipe>,
    err: Option<Error>,
    events: seq<Event>)

  /** The steps paired with their outcomes, in execution order. */
  function Attempts(s: Steps): seq<(Stage, Option<Error>)> {
    [(Dial, s.dial), (NewSession, s.newSession), (RequestPty, s.requestPty),
     (OpenStdin, s.stdinPipe), (StartShell, s.shell)]
  }

  /** The first step in `attempts` that failed, with its error. */
  function FirstFailure(attempts: seq<(Stage, Option<Error>)>): Option<(Stage, Error)> {
    if |attempts| == 0 then None
    else if attempts[0].1.Some? then Some((attempts[0].0, attempts[0].1.value))
    else FirstFailure(attempts[1..])
  }

  /** The resources SSHConnect holds when a step runs. */
  function HeldBefore(stage: Stage): set<Resource> {
    match stage
    case Dial => {}
    case NewSession => {SshClient}
    case _ => {SshClient, SshSession}
  }

  /** Every resource `events` ever acquires. */
  function Opened(events: seq<Event>): set<Resource> {
    set e | e in events && e.Open? :: e.res
  }

  /** Releases run in reverse order of acquisition: the session channel is
   *  never closed after the transport it runs on. */
  predicate SessionClosedFirst(events: seq<Event>) {
    forall i, j :: 0 <= i < j < |events| && events[i] == Close(SshClient) ==> events[j] != Close(SshSession)
  }

  /** How many times `e` occurs in `events`. */
  function Occurrences(events: seq<Event>, e: Event): nat {
    if |events| == 0 then 0
    else (if events[0] == e then 1 else 0) + Occurrences(events[1..], e)
  }

  /** The events of an establishment that fails at the pty request, the
   *  stdin pipe or the shell start: both resources acquired, then
   *  `session.Close()` and `sshClient.Close()`. */
  const CloseBoth: seq<Event> := [Open(SshClient), Open(SshSession), Close(SshSession), Close(SshClient)]

  /** The scan of `Attempts` stops at the first failing step. */
  lemma FirstFailureOfSteps(s: Steps)
    ensures FirstFailure(Attempts(s)) ==
      if s.dial.Some? then Some((Dial, s.dial.value))
      else if s.newSession.Some? then Some((NewSession, s.newSession.value))
      else if s.requestPty.Some? then Some((RequestPty, s.requestPty.value))
      else if s.stdinPipe.Some? then Some((OpenStdin, s.stdinPipe.value))
      else if s.shell.Some? then Some((StartShell, s.shell.value))
      else None
  {
    var a := Attempts(s);
    if s.dial.None? {
      assert FirstFailure(a) == FirstFailure(a[1..]);
      if s.newSession.None? {
        assert FirstFailure(a[1..]) == FirstFailure(a[2..]);
        if s.requestPty.None? {
          assert FirstFailure(a[2..]) == FirstFailure(a[3..]);
          if s.stdinPipe.None? {
            assert FirstFailure(a[3..]) == FirstFailure(a[4..]);
            if s.shell.None? {
              assert FirstFailure(a[4..]) == FirstFailure(a[5..]);
            }
          }
        }
      }
    }
  }

  /** What the three release sequences of SSHConnect and its success path
   *  leave open. */
  lemma EstablishmentBookkeeping()
    ensures Live([]) == Some({})
    ensures Live([Open(SshClient), Close(SshClient)]) == Some({})
    ensures Live(CloseBoth) == Some({})
    ensures Live([Open(SshClient), Open(SshSession)]) == Some({SshClient, SshSession})
  {
    var none: set<Resource> := {};
    assert {SshClient} - {SshClient} == none;
    assert {SshClient, SshSession} - {SshSession} == {SshClient};
    assert none + {SshClient} == {SshClient};
    assert {SshClient} + {SshSession} == {SshClient, SshSession};
    var e := [Open(SshClient), Close(SshClient)];
    assert LiveFrom({SshClient}, e[1..]) == Some({});
    var b := CloseBoth;
    assert LiveFrom({SshClient}, b[3..]) == Some({});
    assert LiveFrom({SshClient, SshSession}, b[2..]) == Some({});
    assert LiveFrom({SshClient}, b[1..]) == Some({});
    var ok := [Open(SshClient), Open(SshSession)];
    assert LiveFrom({SshClient}, ok[1..]) == Some({SshClient, SshSession});
  }

  /** Each resource is acquired at most once and released at most once,
   *  and the session is never acquired before the client it runs on. */
  predicate OpensOnce(events: seq<Event>) {
    && Occurrences(events, Open(SshClient)) <= 1 && Occurrences(events, Close(SshClient)) <= 1
    && Occurrences(events, Open(SshSession)) <= 1 && Occurrences(events, Close(SshSession)) <= 1
    && forall i, j :: 0 <= i < j < |events| && events[j] == Open(SshClient) ==> events[i] != Open(SshSession)
  }

  /** The four histories SSHConnect can produce each acquire and release
   *  every resource at most once, the client first. */
  lemma HistoriesOpenOnce()
    ensures OpensOnce([])
    ensures OpensOnce([Open(SshClient), Close(SshClient)])
    ensures OpensOnce(CloseBoth)
    ensures OpensOnce([Open(SshClient), Open(SshSession)])
  {
  }

  /** The acquisitions and releases SSHConnect performs: nothing when the
   *  dial fails, the client and its release when the session cannot be
   *  opened, both and their releases (session first) on a later failure,
   *  and both still held on success. */
  function History(s: Steps): seq<Event> {
    if s.dial.Some? then []
    else if s.newSession.Some? then [Open(SshClient), Close(SshClient)]
    else if s.requestPty.Some? || s.stdinPipe.Some? || s.shell.Some? then CloseBoth
    else [Open(SshClient), Open(SshSession)]
  }

  /** The history releases everything acquired before the failing step,
   *  and only that, once each and in reverse order; on success both
   *  resources stay held. */
  lemma HistoryFacts(s: Steps)
    ensures FirstFailure(Attempts(s)).Some? ==>
      && Live(History(s)) == Some({})
      && Opened(History(s)) == HeldBefore(FirstFailure(Attempts(s)).value.0)
    ensures FirstFailure(Attempts(s)).None? ==>
      && Live(History(s)) == Some({SshClient, SshSession})
      && forall e :: e in History(s) ==> e.Open?
    ensures SessionClosedFirst(History(s)) && OpensOnce(History(s))
    ensures forall e :: e in History(s) ==> e.res != WsConn
  {
    FirstFailureOfSteps(s);
    EstablishmentBookkeeping();
    HistoriesOpenOnce();
  }

  /** `SSHConnect(deviceId)` given the lookup's result for the device and
   *  the outcome of each library call. */
  function SSHConnect(target: SshTarget, s: Steps): (r: Connection)
    ensures r.err.Some? <==> FirstFailure(Attempts(s)).Some?
    ensures r.err.Some? ==> r.err.value == FirstFailure(Attempts(s)).value.1
    ensures r.err.Some? ==> r.session.None? && r.pipe.None?
    ensures r.err.Some? ==> Live(r.events) == Some({})
    ensures r.err.Some? ==> Opened(r.events) == HeldBefore(FirstFailure(Attempts(s)).value.0)
    ensures r.err.None? ==> r.session == Some(Session(target)) && r.pipe == Some(StdinPipe(Session(target)))
    ensures r.err.None? ==> Live(r.events) == Some({SshClient, SshSession})
    ensures r.err.None? ==> forall e :: e in r.events ==> e.Open?
    ensures SessionClosedFirst(r.events)
    ensures OpensOnce(r.events)
    ensures forall e :: e in r.events ==> e.res != WsConn
  {
    FirstFailureOfSteps(s);
    HistoryFacts(s);
    var events := History(s);
    if s.dial.Some? then
      Connection(None, None, s.dial, events)
    else if s.newSession.Some? then
      Connection(None, None, s.newSession, events)
    else if s.requestPty.Some? then
      Connection(None, None, s.requestPty, events)
    else if s.stdinPipe.Some? then
      Connection(None, None, s.stdinPipe, events)
    else if s.shell.Some? then
      Connection(None, None, s.shell, events)
    else
      var session := Session(target);
      Connection(Some(session), Some(StdinPipe(session)), None, events)
  }
}
