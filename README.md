# Container log viewer: selection and reconnect state machine

This project models the connection handling of the log viewer's `App`
component (`src/App.js`) in Dafny and proves properties of it. The user picks
a container from the list. The component then opens a WebSocket that streams
that container's log lines. It shows each line after a short typing delay, and
it reconnects a bounded number of times when the socket closes.

The model has three parts:

- `SessionModel` (`session_model.dfy`) is the specification. The whole
  session is one `State` value, and there is one transition function per
  event handler or timer callback. `Step` and `Run` apply a sequence of
  events, and the invariant `Valid` holds along every run.
- `App.Session` (`app.dfy`) is the session object. Its fields are the
  component's refs and state. Each handler is a method that updates those
  fields in place, and each method is proved equal to its transition function.
- `SessionProps` (`session_props.dfy`) holds lemmas over runs of events:
  arrival order of lines, the bound on consecutive reconnects, and the two
  defects listed under Findings.

Sockets are handles numbered in creation order. Each handle remembers the
container it was opened for, because its handlers capture that id and name.
`live` is the handle in the socket ref and `closed` holds the closed handles.
Timers are two FIFO queues: one for reconnect timers and one for typing
timers. All timers of one kind share one delay, so they fire in the order they
were set.

The model follows the code as written, including these behaviours:

- Re-selecting the container already in the ref keeps its lines
  (src/App.js:81-83); only a different id clears them.
- Selecting a container does not reset the attempt counter. Only a successful
  open resets it (src/App.js:42).
- A typing timer set before a switch is not cancelled. Its line appears after
  the clear, in the newly selected container's view
  (`SessionProps.SwitchKeepsQueuedLines`), so lines from one container can
  show up under another.
- The client's own close of a socket it replaced passes the close handler's
  check, and a pending reconnect ignores a later selection. Both are defects;
  see "## Findings".

## Model

| member | source | states |
|---|---|---|
| `SessionModel.Initial` | src/App.js:7-22 | Before any selection nothing is selected, no socket exists, no line is shown or queued, and the counter is 0; the invariant holds |
| `SessionModel.Select` | src/App.js:80-87 | The ref, the displayed record and the heading take the selection; the lines are cleared when the id differs from the ref and kept when it is the same; the counter and the pending timers are untouched; the socket in the ref is closed, and a new open socket for the selection replaces it; the invariant is preserved |
| `SessionModel.OnOpen` | src/App.js:40-43 | A successful open sets the counter to 0 and changes nothing else |
| `SessionModel.OnMessage` | src/App.js:45-49 | The message's line is queued behind the lines already queued; the visible lines are unchanged; the raw frame is echoed on the same socket; nothing else changes |
| `SessionModel.OnClose` | src/App.js:51-57 | Exactly that socket is added to the closed ones. A socket whose container is no longer in the ref changes nothing else. For the container in the ref, exactly one reconnect to it is queued when attempts < 5 and none when attempts ≥ 5 |
| `SessionModel.HandleReconnect` | src/App.js:67-77 | One reconnect timer is queued when the counter is below the maximum of 5; otherwise nothing changes |
| `SessionModel.OnError` | src/App.js:59-62 | A transport error adds exactly its own socket to the closed ones and changes nothing else |
| `SessionModel.FireAppend` | src/App.js:89-94 | The oldest queued line is appended to the visible lines; earlier lines are kept; visible plus queued lines are unchanged |
| `SessionModel.FireReconnect` | src/App.js:69-73 | The counter rises by 1; the timer's container becomes the ref, the displayed record and the heading; its lines are kept when it is still the container in the ref and cleared when the user has selected another; exactly the socket in the ref is added to the closed ones, and a new open socket for the timer's container replaces it |
| `SessionModel.Step` | src/App.js:37-65 | Each event goes to its handler; sockets are only ever added; the invariant (at most one socket open, and it is the one in the ref) is preserved |
| `SessionModel.Run` | src/App.js:109-118 | After any sequence of events the invariant holds, so at most one socket is open and it is the newest one, opened for the displayed container |
| `SessionProps.StepKeepsOrder` | src/App.js:89-94 | An event that keeps the container in the ref never removes a visible line; visible plus queued lines grow by exactly the line the event delivers |
| `SessionProps.ArrivalOrder` | src/App.js:89-94 | Over any run that stays on one container, no line is lost, duplicated or reordered: visible plus queued lines equal the earlier ones followed by the received lines in arrival order |
| `SessionProps.VisibleInArrivalOrder` | src/App.js:90-92 | After such a run the earlier visible lines are still shown, and the visible lines are a prefix of the earlier visible, earlier queued and newly received lines, in that order |
| `SessionProps.SwitchKeepsQueuedLines` | src/App.js:91-93 | Switching to another id clears the visible lines but keeps the queued ones; the next typing timer shows a line received for the previous container |
| `SessionProps.ErrorLeadsToReconnect` | src/App.js:59-62 | An error on the live socket closes it, and its close event queues a reconnect to the displayed container |
| `SessionProps.DropOnce` | src/App.js:67-73 | A drop of the live socket and the reconnect it schedules count one attempt, select the same container on a new socket and keep its lines |
| `SessionProps.ConsecutiveDrops` | src/App.js:67-77 | n drops in a row, with no open between them, count n attempts and keep the selection and its lines |
| `SessionProps.RetriesStopAfterFive` | src/App.js:68-76 | After 5 drops in a row, each of them retried, the sixth drop queues no reconnect |
| `SessionProps.OpenRestartsCount` | src/App.js:40-43 | After a successful open, the next drop is retried as attempt 1, whatever the model's counter held before (see "## Left out" for the render-captured counter) |
| `SessionProps.ReselectStartsCycle` | src/App.js:109-118 | Re-selecting the displayed container closes its healthy socket, and that close queues a reconnect |
| `SessionProps.CycleRepeats` | src/App.js:51-53 | When that reconnect fires, it closes the healthy socket it replaces, and that close queues the next reconnect |
| `SessionProps.ReselectNeverSettles` | src/App.js:51-57 | With a healthy backend, after any number of rounds a reconnect is still pending |
| `SessionProps.OnCloseIntended` | src/App.js:51-57 | Corrected close handler: a socket the client replaced itself never queues a reconnect; a close of the live socket behaves as before |
| `SessionProps.IntendedReselectSettles` | src/App.js:109-118 | With the corrected handler, re-selecting the displayed container replaces its socket once; nothing is pending after the new socket opens |
| `SessionProps.StaleReconnectSwitchesBack` | src/App.js:69-73 | A socket drops and the user selects another container before the reconnect fires; the reconnect selects the dropped container again and clears the user's view |
| `SessionProps.FireReconnectIntended` | src/App.js:69-73 | Corrected reconnect timer: if its container is no longer the one in the ref, it only leaves the queue; otherwise it behaves as before |
| `SessionProps.IntendedSwitchStaysPut` | src/App.js:69-73 | With the corrected timer, the user's later selection and its socket stand |
| `App.Session.constructor` | src/App.js:7-22 | The session's fields start as `SessionModel.Initial` |
| `App.Session.Select` | src/App.js:109-118 | Updates the fields in place exactly as `SessionModel.Select`: clear or keep the lines, record the selection, close the socket in the ref, then open the new one |
| `App.Session.OnOpen` | src/App.js:40-43 | Updates the fields exactly as `SessionModel.OnOpen` |
| `App.Session.OnMessage` | src/App.js:45-49 | Updates the fields exactly as `SessionModel.OnMessage` |
| `App.Session.OnClose` | src/App.js:51-57 | Updates the fields exactly as `SessionModel.OnClose` |
| `App.Session.OnError` | src/App.js:59-62 | Updates the fields exactly as `SessionModel.OnError` |
| `App.Session.FireAppend` | src/App.js:91-93 | Updates the fields exactly as `SessionModel.FireAppend` |
| `App.Session.FireReconnect` | src/App.js:69-73 | Counts the attempt, then calls `Select` for the timer's container, exactly as `SessionModel.FireReconnect` |

## Left out

- The container list fetch (src/App.js:24-35) is left out. It is network I/O and only stores the result.
- Building the WebSocket URL, constructing the socket and `JSON.parse` (src/App.js:38, 46) are left out. A socket is a handle, and a message is a `Frame` that carries its raw text and its decoded `msg` field.
- Wall-clock time is left out: the 3000 ms reconnect delay and the 100 ms typing delay. The environment chooses which of the two timer queues fires next.
- Autoscroll (src/App.js:97-107) is left out. It depends on DOM pixel values and `scrollIntoView`.
- React render batching is left out. A selection is `connectWebsocket` followed at once by the effect at src/App.js:109-118. The effect's cleanup (src/App.js:120-125) and its body both close the same socket; the model closes it once, since closing a closed socket does nothing.
- The stale-closure read of `reconnectAttempts` (src/App.js:68, 70) is left out. The model reads one counter when the close arrives and increments it when the timer fires. No global bound on the counter is claimed, because two pending timers can both pass the check.
- The cleanup on unmount (src/App.js:120-125), console logging, the JSX markup and the `styles` object are left out.
- `SessionModel.Step`: an event that cannot occur (an unknown socket handle, or a timer queue that is empty) leaves the state unchanged. The class methods require such events not to occur instead.
- `SessionModel.Step`: open and message events are enabled on sockets the client has already closed, so the model lets a closed socket reset the counter, queue a line and record an echo. Close and error events may also be delivered again for a socket that is already closed, so one socket's repeated closes can queue several reconnects. A browser delivers no open or message events after a close and fires one close event per socket; the model's runs therefore include more behaviours than the browser's, and every property proved over all runs still holds for the browser's runs.
- `SessionProps.OpenRestartsCount`: it holds of the model's single counter, which is read when the close arrives. In the source, `onclose` calls the `handleReconnect` of the render whose effect created the socket (src/App.js:53, 67-68, 118), so src/App.js:68 tests the counter as it was when that socket was created. The socket created by the fifth reconnect is made in a render where the counter is already 5 (src/App.js:71-72). If it opens (the counter goes to 0 at src/App.js:42) and later drops, src/App.js:68 still tests 5 < 5, and that drop is not retried until the user selects again. The model retries it as attempt 1.

## Findings

| source | as written | input that shows it | evidently intended | confidence | as-written member | corrected member |
|---|---|---|---|---|---|---|
| src/App.js:51-57 | The close handler compares only container ids. When the selected container is selected again, the close of the socket the client replaced itself passes the check and queues a reconnect. That reconnect replaces the next healthy socket, whose close queues another. | Select `a1`, let its socket open, then select `a1` again while the backend stays healthy | Only the close of the socket in the ref is a reason to reconnect; the client's own close of a replaced socket is not | not executed; proved on the model for every number of rounds | `SessionProps.ReselectNeverSettles` | `SessionProps.IntendedReselectSettles` |
| src/App.js:69-73 | The reconnect timer selects its container again without checking that it is still selected | The socket for `a1` drops; the user selects `b2` before 3000 ms pass | A pending reconnect for a container that is no longer selected does nothing | not executed; proved on the model | `SessionProps.StaleReconnectSwitchesBack` | `SessionProps.IntendedSwitchStaysPut` |
