/** The App component's connection handling as one session object: its fields
    are the refs and state the handlers of src/App.js update in place, and
    each handler is a method proved against its transition function in
    SessionModel. */
module App {
  import opened SessionModel

  class Session {
    /** currentContainerRef.current: the id the close handler compares against */
    var current: Option<string>
    /** currentContainer: the displayed {id, name} */
    var shown: Option<Container>
    /** selectedContainer: the name in the heading */
    var selectedName: Option<string>
    /** reconnectAttempts */
    var attempts: nat
    /** logs: the visible lines */
    var logs: seq<string>
    /** the container each socket was opened for, indexed by handle */
    var sockets: seq<Container>
    /** socketRef.current, as a handle */
    var live: Option<nat>
    /** handles of the sockets that have been closed */
    var closed: set<nat>
    /** pending reconnect timers, oldest first */
    var reconnects: seq<Container>
    /** pending typing timers, oldest first */
    var lines: seq<string>
    /** payloads echoed back to the backend, in order */
    var sent: seq<Echo>

    /** The fields as one value. */
    function Snapshot(): State
      reads this
    {
      State(current, shown, selectedName, attempts, logs, sockets, live, closed,
            reconnects, lines, sent)
    }

    ghost predicate Valid()
      reads this
    {
      SessionModel.Valid(Snapshot())
    }

    /** The component as first rendered: nothing selected, no socket, no lines. */
    constructor ()
      ensures Valid() && Snapshot() == Initial()
    {
      current, shown, selectedName := None, None, None;
      attempts := 0;
      logs := [];
      sockets, live, closed := [], None, {};
      reconnects, lines, sent := [], [], [];
    }

    /** connectWebsocket(id, name), then the effect its new record triggers. */
    method Select(id: string, name: string)
      requires Valid()
      modifies this
      ensures Valid() && Snapshot() == SessionModel.Select(old(Snapshot()), id, name)
    {
      if current != Some(id) {
        logs := [];
      }
      selectedName := Some(name);
      shown := Some(Container(id, name));
      current := Some(id);
      // the effect: close the socket in the ref, then open one for the selection
      if live.Some? {
        closed := closed + {live.value};
      }
      live := Some(|sockets|);
      sockets := sockets + [Container(id, name)];
    }

    /** onopen */
    method OnOpen(h: nat)
      requires Valid() && h < |sockets|
      modifies this
      ensures Valid() && Snapshot() == SessionModel.OnOpen(old(Snapshot()))
    {
      attempts := 0;
    }

    /** onmessage: typeLog(data.msg), then echo the raw frame on the same socket. */
    method OnMessage(h: nat, f: Frame)
      requires Valid() && h < |sockets|
      modifies this
      ensures Valid() && Snapshot() == SessionModel.OnMessage(old(Snapshot()), h, f)
    {
      lines := lines + [f.msg];
      sent := sent + [Echo(h, f.raw)];
    }

    /** onclose, then handleReconnect for the container the socket was opened for. */
    method OnClose(h: nat)
      requires Valid() && h < |sockets|
      modifies this
      ensures Valid() && Snapshot() == SessionModel.OnClose(old(Snapshot()), h)
    {
      closed := closed + {h};
      var target := sockets[h];
      if current == Some(target.id) {
        if attempts < MaxReconnectAttempts {
          reconnects := reconnects + [target];
        }
      }
    }

    /** onerror: the socket closes itself. */
    method OnError(h: nat)
      requires Valid() && h < |sockets|
      modifies this
      ensures Valid() && Snapshot() == SessionModel.OnError(old(Snapshot()), h)
    {
      closed := closed + {h};
    }

    /** The typing timer set by typeLog fires. */
    method FireAppend()
      requires Valid() && lines != []
      modifies this
      ensures Valid() && Snapshot() == SessionModel.FireAppend(old(Snapshot()))
    {
      logs := logs + [lines[0]];
      lines := lines[1..];
    }

    /** The reconnect timer set by handleReconnect fires. */
    method FireReconnect()
      requires Valid() && reconnects != []
      modifies this
      ensures Valid() && Snapshot() == SessionModel.FireReconnect(old(Snapshot()))
    {
      var target := reconnects[0];
      reconnects := reconnects[1..];
      attempts := attempts + 1;
      Select(target.id, target.name);
    }
  }
}
