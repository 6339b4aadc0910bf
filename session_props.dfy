/** Properties of the session over sequences of events: the order in which
    log lines become visible, the bound on consecutive reconnects, and two
    defects of the close and reconnect handlers (see README, Findings), each
    with a corrected handler beside it. */
module SessionProps {
  import opened SessionModel

  // ---------------------------------------------------------------------
  // Running a trace in pieces

  lemma {:induction false} RunConcat(st: State, a: seq<Event>, b: seq<Event>)
    ensures Run(st, a + b) == Run(Run(st, a), b)
    decreases |a|
  {
    if a == [] {
      assert a + b == b;
    } else {
      assert (a + b)[0] == a[0];
      assert (a + b)[1..] == a[1..] + b;
      RunConcat(Step(st, a[0]), a[1..], b);
    }
  }

  lemma RunCons(st: State, e: Event, rest: seq<Event>)
    ensures Run(st, [e] + rest) == Run(Step(st, e), rest)
  {
    assert ([e] + rest)[1..] == rest;
  }

  lemma RunOne(st: State, e: Event)
    ensures Run(st, [e]) == Step(st, e)
  {
    RunCons(st, e, []);
    assert [e] + [] == [e];
  }

  lemma RunTwo(st: State, e1: Event, e2: Event)
    ensures Run(st, [e1, e2]) == Step(Step(st, e1), e2)
  {
    RunCons(st, e1, [e2]);
    RunCons(Step(st, e1), e2, []);
    assert [e1] + [e2] == [e1, e2];
  }

  lemma RunThree(st: State, e1: Event, e2: Event, e3: Event)
    ensures Run(st, [e1, e2, e3]) == Step(Step(Step(st, e1), e2), e3)
  {
    RunCons(st, e1, [e2, e3]);
    RunTwo(Step(st, e1), e2, e3);
    assert [e1] + [e2, e3] == [e1, e2, e3];
  }

  // ---------------------------------------------------------------------
  // Log lines become visible in arrival order

  /** The lines shown followed by the lines still waiting for their typing timer. */
  function ShownThenQueued(st: State): seq<string>
  {
    st.logs + st.lines
  }

  /** The line a message event carries, if it is delivered in state st. */
  function MessageOf(st: State, e: Event): seq<string>
  {
    if e.Received? && Enabled(st, e) then [e.frame.msg] else []
  }

  /** The lines of the messages delivered along a run, in arrival order. */
  function Arrived(st: State, es: seq<Event>): seq<string>
    decreases |es|
  {
    if es == [] then [] else MessageOf(st, es[0]) + Arrived(Step(st, es[0]), es[1..])
  }

  /** No event of the run moves the ref to another container. */
  predicate SameTarget(st: State, es: seq<Event>)
    decreases |es|
  {
    es == [] || (Step(st, es[0]).current == st.current && SameTarget(Step(st, es[0]), es[1..]))
  }

  /** One event that keeps the container: the visible lines only grow, and the
      visible and queued lines together grow by exactly the line it delivers. */
  lemma StepKeepsOrder(st: State, e: Event)
    requires Step(st, e).current == st.current
    ensures ShownThenQueued(Step(st, e)) == ShownThenQueued(st) + MessageOf(st, e)
    ensures st.logs <= Step(st, e).logs
  {
    if Enabled(st, e) && e.TypingTimer? {
      assert st.lines == [st.lines[0]] + st.lines[1..];
    }
  }

  /** Over any run that stays on one container — messages, opens, closes,
      errors, timers, re-selections and reconnects of that container — no line
      is lost, duplicated or reordered: the lines visible or queued at the end
      are those at the start followed by the messages' lines in arrival order,
      and the lines visible at the start stay visible. */
  lemma {:induction false} ArrivalOrder(st: State, es: seq<Event>)
    requires SameTarget(st, es)
    ensures ShownThenQueued(Run(st, es)) == ShownThenQueued(st) + Arrived(st, es)
    ensures st.logs <= Run(st, es).logs
    decreases |es|
  {
    if es != [] {
      var next := Step(st, es[0]);
      StepKeepsOrder(st, es[0]);
      ArrivalOrder(next, es[1..]);
      calc {
        ShownThenQueued(Run(st, es));
        ShownThenQueued(Run(next, es[1..]));
        ShownThenQueued(next) + Arrived(next, es[1..]);
        (ShownThenQueued(st) + MessageOf(st, es[0])) + Arrived(next, es[1..]);
        ShownThenQueued(st) + (MessageOf(st, es[0]) + Arrived(next, es[1..]));
        ShownThenQueued(st) + Arrived(st, es);
      }
    }
  }

  /** The visible log after such a run is an ordered prefix of the lines that
      were visible, then queued, then received. */
  lemma VisibleInArrivalOrder(st: State, es: seq<Event>)
    requires SameTarget(st, es)
    ensures st.logs <= Run(st, es).logs
    ensures Run(st, es).logs <= st.logs + st.lines + Arrived(st, es)
  {
    ArrivalOrder(st, es);
    var r := Run(st, es);
    assert r.logs <= r.logs + r.lines;
  }

  /** Selecting another container clears the visible lines but not the
      typing timers already set: the next one shows a line received for the
      previous container. */
  lemma SwitchKeepsQueuedLines(st: State, id: string, name: string)
    requires st.lines != [] && st.current != Some(id)
    ensures ShownThenQueued(Run(st, [Click(id, name)])) == st.lines
    ensures Run(st, [Click(id, name), TypingTimer]).current == Some(id)
    ensures Run(st, [Click(id, name), TypingTimer]).logs == [st.lines[0]]
  {
    RunOne(st, Click(id, name));
    RunTwo(st, Click(id, name), TypingTimer);
  }

  // ---------------------------------------------------------------------
  // Bounded reconnects

  /** A transport error closes its own socket; the close event that follows
      goes through the ordinary reconnect path. */
  lemma ErrorLeadsToReconnect(st: State)
    requires Valid(st) && st.live.Some? && st.attempts < MaxReconnectAttempts
    ensures var r := Run(st, [Failed(st.live.value), Closed(st.live.value)]);
      && st.live.value in Run(st, [Failed(st.live.value)]).closed
      && r.reconnects == st.reconnects + [st.shown.value]
      && r.attempts == st.attempts && r.logs == st.logs
  {
    var h := st.live.value;
    RunOne(st, Failed(h));
    RunTwo(st, Failed(h), Closed(h));
  }

  /** n drops of the live socket, each followed by the reconnect it schedules. */
  function Drops(first: nat, n: nat): seq<Event>
    decreases n
  {
    if n == 0 then [] else [Closed(first), ReconnectTimer] + Drops(first + 1, n - 1)
  }

  /** One drop of the live socket of the selected container and its
      reconnect: one more attempt is counted, the same container is selected
      again on a new socket, and its lines are kept. */
  lemma DropOnce(st: State)
    requires Valid(st) && st.live.Some? && st.reconnects == []
    requires st.attempts < MaxReconnectAttempts
    ensures var r := Run(st, [Closed(st.live.value), ReconnectTimer]);
      && Valid(r) && r.attempts == st.attempts + 1 && r.reconnects == []
      && r.shown == st.shown && r.logs == st.logs && r.lines == st.lines
      && r.live.Some? && r.live.value == st.live.value + 1
  {
    var h := st.live.value;
    var s1 := Step(st, Closed(h));
    assert s1.reconnects == [st.shown.value];
    RunTwo(st, Closed(h), ReconnectTimer);
  }

  /** n consecutive drops with no successful open in between count n attempts
      and keep the selection and its lines. */
  lemma {:induction false} ConsecutiveDrops(st: State, n: nat)
    requires Valid(st) && st.live.Some? && st.reconnects == []
    requires st.attempts + n <= MaxReconnectAttempts
    ensures var r := Run(st, Drops(st.live.value, n));
      && Valid(r) && r.attempts == st.attempts + n && r.reconnects == []
      && r.shown == st.shown && r.logs == st.logs && r.lines == st.lines
      && r.live.Some? && r.live.value == st.live.value + n
    decreases n
  {
    var h := st.live.value;
    if n == 0 {
      assert Drops(h, n) == [];
    } else {
      var pair := [Closed(h), ReconnectTimer];
      var mid := Run(st, pair);
      DropOnce(st);
      var h' := mid.live.value;
      assert h' == h + 1;
      var rest := Drops(h', n - 1);
      assert Drops(h, n) == pair + rest;
      RunConcat(st, pair, rest);
      ConsecutiveDrops(mid, n - 1);
    }
  }

  /** After MaxReconnectAttempts consecutive drops, each of which was retried,
      the next drop schedules no further reconnect. */
  lemma RetriesStopAfterFive(st: State)
    requires Valid(st) && st.live.Some? && st.reconnects == [] && st.attempts == 0
    ensures var r := Run(st, Drops(st.live.value, MaxReconnectAttempts)
                               + [Closed(st.live.value + MaxReconnectAttempts)]);
      r.attempts == MaxReconnectAttempts && r.reconnects == []
  {
    var h := st.live.value;
    RunConcat(st, Drops(h, MaxReconnectAttempts), [Closed(h + MaxReconnectAttempts)]);
    ConsecutiveDrops(st, MaxReconnectAttempts);
    var s := Run(st, Drops(h, MaxReconnectAttempts));
    RunOne(s, Closed(h + MaxReconnectAttempts));
  }

  /** A successful open resets the count, whatever was counted before: the
      next drop is retried as attempt 1, not as attempt 6. */
  lemma OpenRestartsCount(st: State)
    requires Valid(st) && st.live.Some? && st.reconnects == []
    ensures var h := st.live.value;
      var r := Run(st, [Opened(h), Closed(h), ReconnectTimer]);
      r.attempts == 1 && r.reconnects == [] && r.shown == st.shown
  {
    var h := st.live.value;
    var s1 := Step(st, Opened(h));
    DropOnce(s1);
    RunTwo(s1, Closed(h), ReconnectTimer);
    RunThree(st, Opened(h), Closed(h), ReconnectTimer);
  }

  // ---------------------------------------------------------------------
  // Finding: re-selecting the selected container reconnects forever

  /** Connected to the selected container with no reconnect pending. */
  ghost predicate Settled(st: State)
  {
    Valid(st) && st.live.Some? && st.live.value !in st.closed
    && st.reconnects == [] && st.attempts == 0
  }

  /** Connected to the selected container on a healthy socket, with a
      reconnect to that same container pending. */
  ghost predicate Cycling(st: State)
  {
    Valid(st) && st.live.Some? && st.live.value !in st.closed
    && st.reconnects == [st.shown.value] && st.attempts == 0
  }

  /** Re-selecting the selected container closes its healthy socket; that
      socket's close event passes the id check, so a reconnect is queued. */
  lemma ReselectStartsCycle(st: State)
    requires Settled(st)
    ensures var h := st.live.value;
      var r := Run(st, [Click(st.shown.value.id, st.shown.value.name), Closed(h), Opened(h + 1)]);
      Cycling(r) && r.shown == st.shown && r.logs == st.logs && r.live.value == h + 1
  {
    var h := st.live.value;
    var c := st.shown.value;
    var s1 := Step(st, Click(c.id, c.name));
    var s2 := Step(s1, Closed(h));
    assert s2.reconnects == [c];
    RunThree(st, Click(c.id, c.name), Closed(h), Opened(h + 1));
  }

  /** One round of the cycle: the reconnect fires, which closes the healthy
      socket it replaces; that close queues the next reconnect; the new socket
      opens and the counter returns to 0. */
  function Round(h: nat): seq<Event>
  {
    [ReconnectTimer, Closed(h), Opened(h + 1)]
  }

  /** n rounds, the first on the socket with handle h. */
  function Rounds(h: nat, n: nat): seq<Event>
    decreases n
  {
    if n == 0 then [] else Rounds(h, n - 1) + Round(h + n - 1)
  }

  lemma CycleRepeats(st: State)
    requires Cycling(st)
    ensures var h := st.live.value;
      && st.live.value in Step(st, ReconnectTimer).closed
      && var r := Run(st, Round(h));
      Cycling(r) && r.shown == st.shown && r.logs == st.logs && r.live.value == h + 1
  {
    var h := st.live.value;
    var c := st.shown.value;
    var s1 := Step(st, ReconnectTimer);
    var s2 := Step(s1, Closed(h));
    assert s1.attempts == 1;
    assert s2.reconnects == [c];
    RunThree(st, ReconnectTimer, Closed(h), Opened(h + 1));
  }

  /** With a healthy backend the cycle never ends: after any number of rounds
      a reconnect is still pending and every round replaced a socket that had
      never failed. */
  lemma {:induction false} ReselectNeverSettles(st: State, n: nat)
    requires Cycling(st)
    ensures var r := Run(st, Rounds(st.live.value, n));
      Cycling(r) && r.shown == st.shown && r.logs == st.logs
      && r.live.Some? && r.live.value == st.live.value + n
    decreases n
  {
    var h := st.live.value;
    if n == 0 {
      assert Rounds(h, n) == [];
    } else {
      ReselectNeverSettles(st, n - 1);
      var before := Rounds(h, n - 1);
      var mid := Run(st, before);
      var h' := mid.live.value;
      assert h' == h + n - 1;
      assert Rounds(h, n) == before + Round(h');
      CycleRepeats(mid);
      RunConcat(st, before, Round(h'));
    }
  }

  /** Corrected close handler: a close is a reason to reconnect
      only when it is the socket in the socket ref; a socket the client
      replaced itself is closed and forgotten. */
  function OnCloseIntended(st: State, h: nat): (r: State)
    requires h < |st.sockets|
    ensures h in r.closed
    ensures st.live != Some(h) ==> r.reconnects == st.reconnects && r.attempts == st.attempts
    ensures st.live == Some(h) ==> r == OnClose(st, h)
  {
    if st.live == Some(h) then OnClose(st, h) else st.(closed := st.closed + {h})
  }

  /** With that handler, re-selecting the selected container replaces the
      socket once and settles: nothing is pending once the new socket opens. */
  lemma IntendedReselectSettles(st: State)
    requires Settled(st)
    ensures var h := st.live.value;
      var r := OnOpen(OnCloseIntended(Select(st, st.shown.value.id, st.shown.value.name), h));
      Settled(r) && r.shown == st.shown && r.logs == st.logs && r.live.value == h + 1
  {
  }

  // ---------------------------------------------------------------------
  // Finding: a pending reconnect overrides a later selection

  /** The live socket drops, the user then selects another container before
      the reconnect fires; the reconnect selects the dropped container again,
      clearing the lines of the container the user chose. */
  lemma StaleReconnectSwitchesBack(st: State, id: string, name: string)
    requires Valid(st) && st.live.Some? && st.reconnects == []
    requires st.attempts < MaxReconnectAttempts && st.current != Some(id)
    ensures var h := st.live.value;
      && Run(st, [Closed(h), Click(id, name)]).current == Some(id)
      && var r := Run(st, [Closed(h), Click(id, name), ReconnectTimer]);
      r.current == st.current && r.shown == st.shown && r.logs == []
  {
    var h := st.live.value;
    var s1 := Step(st, Closed(h));
    assert s1.reconnects == [st.shown.value];
    RunTwo(st, Closed(h), Click(id, name));
    RunThree(st, Closed(h), Click(id, name), ReconnectTimer);
  }

  /** Corrected reconnect timer: it rechecks that its container
      is still the selected one and otherwise does nothing. */
  function FireReconnectIntended(st: State): (r: State)
    requires st.reconnects != []
    ensures r.reconnects == st.reconnects[1..]
    ensures st.current != Some(st.reconnects[0].id) ==>
              r.(reconnects := st.reconnects) == st
    ensures st.current == Some(st.reconnects[0].id) ==> r == FireReconnect(st)
  {
    if st.current == Some(st.reconnects[0].id) then FireReconnect(st)
    else st.(reconnects := st.reconnects[1..])
  }

  /** With that timer, the user's later selection stands. */
  lemma IntendedSwitchStaysPut(st: State, id: string, name: string)
    requires Valid(st) && st.live.Some? && st.reconnects == []
    requires st.attempts < MaxReconnectAttempts && st.current != Some(id)
    ensures var s := Select(OnClose(st, st.live.value), id, name);
      var r := FireReconnectIntended(s);
      r.current == Some(id) && r.shown == Some(Container(id, name)) && r.live == s.live
  {
  }
}
