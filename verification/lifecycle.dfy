/** Resource bookkeeping shared by establishment, the stream bridge and the
 *  tunnel as a whole: every acquisition and release is an event, and the
 *  set of live resources is what the events leave open. */
module Lifecycle {
  import opened Wrappers

  /** The client-facing WebSocket connection, the SSH transport connection
   *  (`ssh.Client`) and the SSH session channel opened on it. */
  datatype Resource = WsConn | SshClient | SshSession

  datatype Event = Open(res: Resource) | Close(res: Resource)

  /** The resources left open when `events` run from the `open` ones, or
   *  `None` when an event opens a live resource again or closes one that
   *  is not live (a double close). */
  function LiveFrom(open: set<Resource>, events: seq<Event>): Option<set<Resource>>
    decreases |events|
  {
    if |events| == 0 then Some(open)
    else match events[0]
      case Open(x) => if x in open then None else LiveFrom(open + {x}, events[1..])
      case Close(x) => if x !in open then None else LiveFrom(open - {x}, events[1..])
  }

  function Live(events: seq<Event>): Option<set<Resource>> {
    LiveFrom({}, events)
  }

  /** Continues a bookkeeping run that has not already gone wrong. */
  function Continue(live: Option<set<Resource>>, events: seq<Event>): Option<set<Resource>> {
    match live
    case None => None
    case Some(open) => LiveFrom(open, events)
  }

  /** Running two event sequences one after the other is running the first,
   *  then the second from where the first left off. */
  lemma {:induction false} LiveFromAppend(open: set<Resource>, a: seq<Event>, b: seq<Event>)
    ensures LiveFrom(open, a + b) == Continue(LiveFrom(open, a), b)
    decreases |a|
  {
    if |a| == 0 {
      assert a + b == b;
    } else {
      assert (a + b)[0] == a[0];
      assert (a + b)[1..] == a[1..] + b;
      match a[0]
      case Open(x) =>
        if x !in open {
          LiveFromAppend(open + {x}, a[1..], b);
        }
      case Close(x) =>
        if x in open {
          LiveFromAppend(open - {x}, a[1..], b);
        }
    }
  }
}
