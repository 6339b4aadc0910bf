/** The container-switching and reconnect state machine of the log viewer
    (src/App.js), stated as values: one State record, one transition function
    per event handler or timer callback, and Step/Run over sequences of
    events. The class App.Session is proved against these functions. */
module SessionModel {

  /** maxReconnectAttempts */
  const MaxReconnectAttempts: nat := 5

  datatype Option<T> = None | Some(value: T)

  /** A container as the inventory lists it: an opaque id and a display name. */
  datatype Container = Container(id: string, name: string)

  /** A message as the backend sends it: the raw text of the frame and the
      `msg` field decoded from it (the JSON decoding itself is not modelled). */
  datatype Frame = Frame(raw: string, msg: string)

  /** A payload the client sent back on the socket with the given handle. */
  datatype Echo = Echo(handle: nat, payload: string)

  /** Everything the handlers read or write.
      - current: the ref that the close handler compares against
      - shown: the displayed container record
      - selectedName: the name shown in the heading
      - attempts: the reconnect attempt counter
      - logs: the visible log lines
      - sockets: the container each socket was opened for, indexed by its handle
        (handles are handed out in creation order)
      - live: the handle held in the socket ref
      - closed: the handles of sockets that have been closed
      - reconnects: pending reconnect timers, oldest first
      - lines: pending typing timers, oldest first
      - sent: everything echoed back to the backend, in order */
  datatype State = State(
    current: Option<string>,
    shown: Option<Container>,
    selectedName: Option<string>,
    attempts: nat,
    logs: seq<string>,
    sockets: seq<Container>,
    live: Option<nat>,
    closed: set<nat>,
    reconnects: seq<Container>,
    lines: seq<string>,
    sent: seq<Echo>)

  /** Only sockets that exist are closed, and every socket other than the one
      in the socket ref has been closed. */
  ghost predicate AtMostOneOpen(st: State)
  {
    && (forall h :: h in st.closed ==> h < |st.sockets|)
    && (forall h :: 0 <= h < |st.sockets| && h !in st.closed ==> st.live == Some(h))
  }

  /** The session invariant: the ref, the displayed record and the heading agree;
      the socket ref holds the newest socket, which was opened for the displayed
      container; and at most one socket is open. */
  ghost predicate Valid(st: State)
  {
    && (st.current.Some? <==> st.shown.Some?)
    && (st.shown.Some? ==>
          st.current == Some(st.shown.value.id) && st.selectedName == Some(st.shown.value.name))
    && (st.live.None? <==> st.sockets == [])
    && (st.live.Some? ==>
          st.live.value == |st.sockets| - 1 && st.shown == Some(st.sockets[st.live.value]))
    && AtMostOneOpen(st)
  }

  /** The state before anything is selected. */
  function Initial(): (r: State)
    ensures Valid(r) && r.logs == [] && r.attempts == 0 && r.live == None
    ensures r.current == None && r.shown == None && r.selectedName == None
    ensures r.sockets == [] && r.closed == {}
    ensures r.lines == [] && r.reconnects == [] && r.sent == []
  {
    State(None, None, None, 0, [], [], None, {}, [], [], [])
  }

  /** connectWebsocket(id, name) followed by the effect that its fresh
      {id, name} record triggers: the log view is cleared only when the id
      differs from the ref, the ref and the displayed record take the new
      selection, and the socket in the ref is closed before a new socket for
      the selection replaces it. The attempt counter is not touched. */
  function Select(st: State, id: string, name: string): (r: State)
    ensures r.current == Some(id) && r.shown == Some(Container(id, name))
    ensures r.selectedName == Some(name)
    ensures st.current != Some(id) ==> r.logs == []
    ensures st.current == Some(id) ==> r.logs == st.logs
    ensures r.sockets == st.sockets + [Container(id, name)] && r.live == Some(|st.sockets|)
    ensures st.live.Some? ==> st.live.value in r.closed
    ensures r.closed == (if st.live.Some? then st.closed + {st.live.value} else st.closed)
    ensures Valid(st) ==> |st.sockets| !in r.closed
    ensures r.attempts == st.attempts && r.reconnects == st.reconnects
    ensures r.lines == st.lines && r.sent == st.sent
    ensures Valid(st) ==> Valid(r)
  {
    var logs := if st.current != Some(id) then [] else st.logs;
    var closed := if st.live.Some? then st.closed + {st.live.value} else st.closed;
    st.(current := Some(id), shown := Some(Container(id, name)), selectedName := Some(name),
        logs := logs, closed := closed,
        sockets := st.sockets + [Container(id, name)], live := Some(|st.sockets|))
  }

  /** onopen: a successful open resets the attempt counter and nothing else. */
  function OnOpen(st: State): (r: State)
    ensures r.attempts == 0
    ensures r.(attempts := st.attempts) == st
    ensures Valid(st) ==> Valid(r)
  {
    st.(attempts := 0)
  }

  /** onmessage on socket h: typeLog queues the decoded line behind the lines
      already queued, and the raw frame is echoed on the same socket. */
  function OnMessage(st: State, h: nat, f: Frame): (r: State)
    requires h < |st.sockets|
    ensures r.lines == st.lines + [f.msg] && r.logs == st.logs
    ensures r.sent == st.sent + [Echo(h, f.raw)]
    ensures r.(lines := st.lines, sent := st.sent) == st
    ensures Valid(st) ==> Valid(r)
  {
    st.(lines := st.lines + [f.msg], sent := st.sent + [Echo(h, f.raw)])
  }

  /** onclose on socket h (then handleReconnect): the socket is closed; a
      reconnect to the container the socket was opened for is queued only when
      that container's id is still the one in the ref and fewer than
      MaxReconnectAttempts attempts have been counted. */
  function OnClose(st: State, h: nat): (r: State)
    requires h < |st.sockets|
    ensures h in r.closed && r.closed == st.closed + {h}
    ensures r.(closed := st.closed, reconnects := st.reconnects) == st
    ensures st.current != Some(st.sockets[h].id) ==> r.reconnects == st.reconnects
    ensures st.attempts >= MaxReconnectAttempts ==> r.reconnects == st.reconnects
    ensures st.current == Some(st.sockets[h].id) && st.attempts < MaxReconnectAttempts ==>
              r.reconnects == st.reconnects + [st.sockets[h]]
    ensures Valid(st) ==> Valid(r)
  {
    var st' := st.(closed := st.closed + {h});
    if st.current == Some(st.sockets[h].id) then HandleReconnect(st', st.sockets[h])
    else st'
  }

  /** handleReconnect: queue one reconnect timer while attempts are left. */
  function HandleReconnect(st: State, c: Container): (r: State)
    ensures st.attempts < MaxReconnectAttempts ==> r.reconnects == st.reconnects + [c]
    ensures st.attempts >= MaxReconnectAttempts ==> r.reconnects == st.reconnects
    ensures r.(reconnects := st.reconnects) == st
  {
    if st.attempts < MaxReconnectAttempts then st.(reconnects := st.reconnects + [c]) else st
  }

  /** onerror on socket h: the socket closes itself; its close event follows. */
  function OnError(st: State, h: nat): (r: State)
    requires h < |st.sockets|
    ensures h in r.closed && r.closed == st.closed + {h}
    ensures r.(closed := st.closed) == st
    ensures Valid(st) ==> Valid(r)
  {
    st.(closed := st.closed + {h})
  }

  /** The typing timer: the oldest queued line becomes visible. */
  function FireAppend(st: State): (r: State)
    requires st.lines != []
    ensures r.logs == st.logs + [st.lines[0]] && r.lines == st.lines[1..]
    ensures r.logs + r.lines == st.logs + st.lines
    ensures r.(logs := st.logs, lines := st.lines) == st
    ensures Valid(st) ==> Valid(r)
  {
    var r := st.(logs := st.logs + [st.lines[0]], lines := st.lines[1..]);
    assert r.logs + r.lines == st.logs + st.lines by {
      assert st.lines == [st.lines[0]] + st.lines[1..];
    }
    r
  }

  /** The reconnect timer: the counter goes up by one and the container the
      timer was set for is selected again (with a fresh record, so the socket
      is replaced). Nothing checks that the container is still selected. */
  function FireReconnect(st: State): (r: State)
    requires st.reconnects != []
    ensures r.attempts == st.attempts + 1 && r.reconnects == st.reconnects[1..]
    ensures r.shown == Some(st.reconnects[0]) && r.current == Some(st.reconnects[0].id)
    ensures r.selectedName == Some(st.reconnects[0].name)
    ensures st.current == Some(st.reconnects[0].id) ==> r.logs == st.logs
    ensures st.current != Some(st.reconnects[0].id) ==> r.logs == []
    ensures st.live.Some? ==> st.live.value in r.closed
    ensures r.closed == (if st.live.Some? then st.closed + {st.live.value} else st.closed)
    ensures Valid(st) ==> |st.sockets| !in r.closed
    ensures r.sockets == st.sockets + [st.reconnects[0]] && r.live == Some(|st.sockets|)
    ensures r.lines == st.lines && r.sent == st.sent
    ensures Valid(st) ==> Valid(r)
  {
    var c := st.reconnects[0];
    Select(st.(attempts := st.attempts + 1, reconnects := st.reconnects[1..]), c.id, c.name)
  }

  /** The events the browser and the user deliver to the session. */
  datatype Event =
    | Click(id: string, name: string)
    | Opened(handle: nat)
    | Received(handle: nat, frame: Frame)
    | Closed(handle: nat)
    | Failed(handle: nat)
    | TypingTimer
    | ReconnectTimer

  /** An event can occur: socket events come from sockets that exist, and a
      timer fires only when one is pending. */
  predicate Enabled(st: State, e: Event)
  {
    match e
    case Click(_, _) => true
    case Opened(h) => h < |st.sockets|
    case Received(h, _) => h < |st.sockets|
    case Closed(h) => h < |st.sockets|
    case Failed(h) => h < |st.sockets|
    case TypingTimer => st.lines != []
    case ReconnectTimer => st.reconnects != []
  }

  /** The handler for each event; an event that cannot occur changes nothing. */
  function Step(st: State, e: Event): (r: State)
    ensures st.sockets <= r.sockets
    ensures Valid(st) ==> Valid(r)
  {
    if !Enabled(st, e) then st
    else
      match e
      case Click(id, name) => Select(st, id, name)
      case Opened(_) => OnOpen(st)
      case Received(h, f) => OnMessage(st, h, f)
      case Closed(h) => OnClose(st, h)
      case Failed(h) => OnError(st, h)
      case TypingTimer => FireAppend(st)
      case ReconnectTimer => FireReconnect(st)
  }

  /** The events in order, each handled to completion before the next. */
  function Run(st: State, es: seq<Event>): (r: State)
    ensures st.sockets <= r.sockets
    ensures Valid(st) ==> Valid(r)
    decreases |es|
  {
    if es == [] then st else Run(Step(st, es[0]), es[1..])
  }
}
