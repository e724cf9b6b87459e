# A verified model of the Exchange Access Proxy client

This Dafny project models the concurrent core of the Python SDK `proxy_client`: the WebSocket client engine (pending
requests, dialects, supervisor, heartbeat, subscription registry, dispatcher) and, separately, the canonical form that
requests are signed over. `dafny verify dfyconfig.toml` checks all of it.

asyncio runs one coroutine at a time and switches only at an `await`, so the code between two awaits is one atomic
section. The project has three layers built on that.

* **Objects.** `PendingMap` holds `_PendingRequests` as a class over heap-allocated futures, `Client` the sections of
  `ProxyWebSocketClient` as methods on its shared fields, `Dispatch` the handler registry with its loops, and
  `Reconnect.Supervise` the supervisor's loop with its local attempt counter. Every method is proved against functions on
  plain values (`Rpc`, `Connections`, `Registry`, `Reconnect`).
* **The shared table.** `Correlation` describes what any number of tasks may do to the pending table in one section, and
  the invariant they keep: keys are fresh, nothing leaks, nothing is stolen, the pong slot holds its latest registrant,
  results answer their keys.
* **Runs.** `Engine` is the whole client as a transition system: one program counter per caller, heartbeat and supervisor,
  `start()` and `stop()`, and an environment that delivers frames, drops sockets, fires timers and lets time pass. Its
  steps are made of the same functions: for every step that registers, releases, flushes, dispatches, or changes a
  connection, `Sections` equates its effect with that of the named sections of the client class. `EngineInvariants`
  proves an invariant of every step; `EngineTheorems` (correlation and pings), `DispatchTheorems` (what becomes of every
  frame), `AnswerTheorems` (what a caller gets), `DropTheorems` (drops and decisions), `SupervisorTheorems` (the loop that
  reconnects), `StopTheorems`, `HeartbeatTheorems` and `ReplayTheorems` (registry and replay) draw the conclusions over
  every run. Steps over-approximate: a timeout may fire, a socket may drop and a frame may arrive at any suspension
  point.

Futures, connections and tasks are known by their numbers in order of creation, so `is` comparisons of the source become
equality of numbers; the classes tie the numbers to objects.

## What the proofs found

These hold of the code as it is, and some contradict what one would expect of it or what its prose says.

* `default_backoff` never gives up, but from attempt 1025 on it raises `OverflowError` (`BackoffAnswers`). Under it the
  supervisor dies exactly after 1025 unhealthy connections in a row, with the client still marked running
  (`SupervisorTheorems.DefaultEndsLate`, `DropTheorems.DefaultDies`, `Reconnect.DefaultDies`).
* A `start()` that fails leaves the client marked running with nobody to supervise it, so the next `start()` is refused
  until a `stop()` (`FailedStartBlocks`).
* A replayed `subscribe` is never answered: nobody reads the socket during a replay, so each of those waits ends by a
  failed send, its timeout or a stop (`ReplayNeverAnswered`). The client comes back nonetheless (`DropRecovers`).
* A ping that overlaps with an earlier one makes that an orphan (`OverlapOrphans`), which no reply and no flush of the table
  can reach any more; only the end of its own coroutine's wait settles it (`OrphanForever`).
* A pong that nobody waits for is not consumed but handed to the handlers (`RoutingLaw`). A waiting ping is settled by
  exactly the frames that are pongs or spell `__pong__` in their correlation field (`AnswersSettle`, `SpelledPong`), and
  it takes any of them for its pong (`PingsAreNeverRejected`).
* A client is quiesced, short of a new `start()`, exactly if it does not run, has nothing registered, no open current
  connection, and nobody waiting for a socket (`QuiescedIsCalm`). `stop()` brings that about in every state of every run
  except two kinds (`StopQuiesces`). In a running client, while a `start()` is waiting for its socket: the stop can
  complete and the socket open afterwards (`StopDuringStart`). In a client that does not run and is not quiesced already:
  `stop()` does nothing there. A supervisor that gives up after a frame it could not dispatch leaves such a client, with
  its socket open and current (`GiveUpKeepsSocket`, `StopAfterGiveUp`).
* A completed stop closes the current connection and no other (`StopClosesCurrent`). A connection that was replaced while it
  was open stays open until its socket drops, or a heartbeat closes it that had decided so before (`StrayStep`).
* Frames on a channel literally named `*` reach the wildcard handlers twice (`StarChannelCallsTwice`).
* After a healthy connection the policy is asked about attempt 0, not 1 (`DecisionLaw`), and it takes the attempt number
  alone, whatever the repository's README shows.
* Two requests that share a canonical string are the same request, up to the case of the method, exactly when their header
  fields span equally many lines, field by field (`CanonicalInjective`). A newline in the method or in the path can make them differ
  (`NewlineInMethodCollides`, `NewlineInPathCollides`); the path is built from an `exchange` that nobody checks for one.

## Model

| member | source | states |
|---|---|---|
| Wire.DecimalRoundTrip | proxy_client/websocket/_dialect.py:215 | reading a printed request number gives the number back, so `str(req_id)` is injective |
| Wire.DecimalStartsWithDigit | proxy_client/websocket/_rpc.py:22-25 | no printed request number is the reserved pong key |
| Wire.DecimalIsCanonical | proxy_client/websocket/_dialect.py:215 | a printed request number is made of digits and has no leading zero |
| Wire.KeysAreIds | proxy_client/websocket/_rpc.py:79-80 | two ids find the same entry exactly if Python holds them equal; null is no id, and a list or an object cannot be looked up |
| Dialects.KeysAreFresh | proxy_client/websocket/_dialect.py:130-139 | in both dialects the key of a request determines its number and is never the pong key |
| Dialects.EchoIsCorrelated | proxy_client/websocket/_dialect.py:84-98 | `request_frame`'s key is what `response_key` reads from any reply that echoes the correlation field |
| Dialects.FrameReadsBack | proxy_client/websocket/_dialect.py:121-139 | a frame carries exactly the method, parameters (no nulls on OKX), number, order tag and non-empty idempotency key it was built from |
| Dialects.FrameHasNoMore | proxy_client/websocket/_dialect.py:121-139 | a frame has exactly the fields its dialect names: `params` only if there are any, `id` only on a Kraken order, `idempotency_key` only if it is not empty |
| Dialects.ReplyFields | proxy_client/websocket/_dialect.py:141-145 | Kraken reads the id of a reply from `id` and, failing that, from `req_id`; OKX from `id` alone |
| Dialects.ChannelFields | proxy_client/websocket/_dialect.py:147-148 | Kraken reads the channel from `channel`, OKX (lines 222-226) from `channel` of `arg` |
| Dialects.RejectionFields | proxy_client/websocket/_dialect.py:150-174 | a reply is a rejection exactly if its event is `error` or, on Kraken, its `success` is there and falsy |
| Dialects.OrderMethods | proxy_client/websocket/client.py:42-45 | the six order methods, by name |
| Dialects.OthersCarryNoTag | proxy_client/websocket/client.py:331-338 | any other method keeps the caller's idempotency key and is not tagged as an order |
| Dialects.OrdersCarryKeys | proxy_client/websocket/client.py:331-338 | a Kraken order frame always carries an idempotency key, the caller's own if there is one, and is tagged with its number in both correlation fields |
| Dialects.ReplayedFrame | proxy_client/websocket/client.py:380-385 | subscribing from a recorded entry sends the original frame under a fresh number: strip and restore of `channel` is a round trip and framing commutes with renumbering |
| Dialects.EntriesAgree | proxy_client/websocket/client.py:384-386 | two subscribes have the same registry entry exactly if they agree on the channel and on all parameters but `channel` |
| Rpc.AsConnectionError | proxy_client/websocket/client.py:48-61 | callers always see a ConnectionError; one that was already there is passed through, anything else is chained as the cause, and a clean close has none |
| Rpc.RoutingLaw | proxy_client/websocket/_rpc.py:67-89 | a frame is consumed or handed on, never both; handing on changes nothing, consuming settles at most the one pending future registered under its key; a pong is consumed iff the slot is taken, any other frame iff its key is registered or it is an error without an id; an id that cannot be hashed raises |
| Rpc.PongsByName | proxy_client/websocket/_rpc.py:76-77 | a frame whose `event` is `pong` goes to the waiting ping and to nobody else, whatever else it says; without one it is handed on |
| Rpc.NoPongByAnotherName | proxy_client/websocket/_rpc.py:76-80 | any other frame leaves a waiting ping alone, unless it spells the name of its slot in the correlation field |
| Rpc.ErrorsByName | proxy_client/websocket/_rpc.py:79-89 | any other frame goes by its id; without one it is swallowed exactly if its `event` is `error` |
| Rpc.RequestLife | proxy_client/websocket/_rpc.py:46-55 | create, reply, discard: the reply reaches this future and no other, and afterwards the same reply is a push |
| PendingMap.PendingRequests.constructor | proxy_client/websocket/_rpc.py:38-40 | starts with an empty map and counter 0 |
| PendingMap.PendingRequests.NextId | proxy_client/websocket/_rpc.py:42-44 | returns one more than any number before and touches nothing else |
| PendingMap.PendingRequests.Create | proxy_client/websocket/_rpc.py:46-52 | registers a new pending future under the key, replacing a previous registration |
| PendingMap.PendingRequests.Discard | proxy_client/websocket/_rpc.py:54-55 | forgets the key if it is there; no future changes |
| PendingMap.PendingRequests.ExpectPong | proxy_client/websocket/_rpc.py:57-58 | takes the pong slot for a new future |
| PendingMap.PendingRequests.DiscardPong | proxy_client/websocket/_rpc.py:60-65 | clears the slot only for the very future that holds it, or unconditionally without one |
| PendingMap.PendingRequests.Resolve | proxy_client/websocket/_rpc.py:67-89 | routes a frame as the table function says, a frame whose `event` is `pong` by the reserved slot, settling at most one heap future |
| PendingMap.PendingRequests.SettleSlot | proxy_client/websocket/_rpc.py:103-109 | sets the result of the registered future unless it is done, and says whether there was one |
| PendingMap.PendingRequests.Flush | proxy_client/websocket/_rpc.py:91-101 | the loop over the registered futures has the effect of the table function, futures outside the map included |
| PendingMap.PendingRequests.FailAll | proxy_client/websocket/_rpc.py:91-95 | fails what is registered and pending, and empties the map |
| PendingMap.PendingRequests.CancelAll | proxy_client/websocket/_rpc.py:97-101 | cancels what is registered and pending, and empties the map |
| Correlation.InvHolds | proxy_client/websocket/client.py:335-373 | freshness, no leak, no theft, latest pong and correlation survive every section of every task |
| Correlation.SettledBy | proxy_client/websocket/_rpc.py:91-109 | a future is settled only while pending, and only by an answering frame, a drop or a stop while registered, or its own owner's timeout or cancellation |
| Correlation.AnswersSettle | proxy_client/websocket/_rpc.py:67-89 | a pending future registered under a key is settled by exactly the frames that answer that key, whichever task registered it |
| Correlation.SpelledPong | proxy_client/websocket/_rpc.py:76-80 | a frame that is no pong but spells the reserved key in its id answers a ping |
| Correlation.StepIsLater | proxy_client/websocket/_rpc.py:94-108 | futures are never removed and a done one never changes |
| Correlation.OrphanLaw | proxy_client/websocket/_rpc.py:46-65 | an unregistered future is never registered again and only its owner can settle it |
| Correlation.RequestKeyIsNew | proxy_client/websocket/client.py:335-339 | a request registers under a key that no live or dead future has had, so it overwrites nothing |
| Correlation.PongSlotKept | proxy_client/websocket/_rpc.py:60-65 | the slot keeps its registrant until its own `finally`, a newer ping, a drop or a stop |
| Correlation.FinishRemovesOwn | proxy_client/websocket/client.py:348-349 | a `finally` removes its own registration if still there, and nobody else's |
| Registry.ContentsLaw | proxy_client/websocket/client.py:377-399 | after any history: no duplicates, exactly the entries whose last operation was a subscribe, ordered by when they last entered |
| Registry.RemoveFirst | proxy_client/websocket/client.py:395-398 | `list.remove` takes out that one position and keeps the order of the rest |
| Registry.RemoveDistinct | proxy_client/websocket/client.py:395-398 | removing keeps entries distinct and takes out exactly the given entry |
| Reconnect.BackoffAnswers | proxy_client/websocket/_backoff.py:30-41 | never None; a delay exactly up to attempt 1024, an overflow from there on |
| Reconnect.BackoffShape | proxy_client/websocket/_backoff.py:25-41 | the delay is 0.5 s for attempts 0 and 1, doubles until the cap of 30 s, never shrinks, and is 30 s exactly from attempt 7 on |
| Reconnect.Supervise | proxy_client/websocket/client.py:429-461 | the loop asks the policy about the current streak in every pass, and ends at the first answer that is no delay or at the first pump or wait in which a stop arrives; it terminates under a bounded policy even if never stopped, within the budget of decisions |
| Reconnect.LogExtends | proxy_client/websocket/client.py:508-521 | one decision extends the log: the attempt becomes 0 after a healthy connection and one more otherwise |
| Reconnect.BudgetShrinks | proxy_client/websocket/client.py:515-520 | (resets left, limit + 1 - attempt) strictly decreases with each decision, and so does the budget |
| Reconnect.BudgetInAll | proxy_client/websocket/client.py:434-461 | the budget of the whole loop is (resets + 1) (limit + 1) decisions |
| Reconnect.StreakCounts | proxy_client/websocket/client.py:513-515 | the streak is the number of connections since the last healthy one, or since the beginning |
| Reconnect.StreakAtLeast | proxy_client/websocket/client.py:513-515 | the streak is at least k exactly when the last k connections were all unhealthy |
| Reconnect.DefaultWaits | proxy_client/websocket/_backoff.py:30-41 | n short drops wait 0.5 (2^n - 1) s in total, and 31.5 + 30 (n - 6) s beyond the sixth |
| Reconnect.DefaultDies | proxy_client/websocket/_backoff.py:41 | the supervisor's run ends, always by an overflow, exactly at the decision that follows 1025 unhealthy connections in a row |
| Reconnect.DefaultCrashes | proxy_client/websocket/_backoff.py:41 | if no connection lasts at all, that is decision 1025 |
| Client.ProxyWebSocketClient.constructor | proxy_client/websocket/client.py:128-141 | not running, no connection, nothing pending or subscribed |
| Client.ProxyWebSocketClient.StartBegins | proxy_client/websocket/client.py:241-246 | refuses when running; otherwise running with a fresh current connection |
| Client.ProxyWebSocketClient.StopBegins | proxy_client/websocket/client.py:260-263 | a no-op when not running; otherwise not running and shut down |
| Client.ProxyWebSocketClient.StopFinishes | proxy_client/websocket/client.py:273-277 | closes and forgets the current connection only, and cancels what is registered |
| Client.ProxyWebSocketClient.BoundConnection | proxy_client/websocket/client.py:299-301 | the current connection if it is open, else the RuntimeError |
| Client.ProxyWebSocketClient.FrameRequest | proxy_client/websocket/client.py:331-338 | takes the next number and frames the request under it, an order under a non-empty idempotency key; registers nothing yet |
| Client.ProxyWebSocketClient.Register | proxy_client/websocket/client.py:339-349 | registers a new future for the framed key, and takes it back when there is no open connection |
| Client.ProxyWebSocketClient.RequestBegins | proxy_client/websocket/client.py:335-342 | takes a number, frames, registers, and discards again without an open connection; a refused framing only takes the number |
| Client.ProxyWebSocketClient.RequestEnds | proxy_client/websocket/client.py:348-349 | releases the request's key |
| Client.ProxyWebSocketClient.PingBegins | proxy_client/websocket/client.py:366-368 | takes the pong slot, and gives it up again without an open connection |
| Client.ProxyWebSocketClient.PingEnds | proxy_client/websocket/client.py:370-373 | releases the slot if this ping's future still holds it |
| Client.ProxyWebSocketClient.PumpEnded | proxy_client/websocket/client.py:437-450 | when running, fails the pending futures and only then decides; gives the flags after that decision |
| Client.ProxyWebSocketClient.DecideReconnect | proxy_client/websocket/client.py:498-521 | no decision when disabled; otherwise the policy's answer for the attempt number, which is 0 if the connection was up for 5 s and one more otherwise |
| Client.ProxyWebSocketClient.NewConnection | proxy_client/websocket/client.py:529 | a new unopened connection becomes current; the old ones are untouched |
| Client.ProxyWebSocketClient.HeartbeatExpires | proxy_client/websocket/client.py:575 | closes exactly when the bound connection is still current and open |
| Client.ProxyWebSocketClient.Subscribed | proxy_client/websocket/client.py:383-387 | an acknowledged persistent subscribe adds its entry unless present |
| Client.ProxyWebSocketClient.Unsubscribed | proxy_client/websocket/client.py:394-398 | an acknowledged unsubscribe removes the first equal entry; absence is no error |
| Sections.CallSection | proxy_client/websocket/client.py:335-342 | the step that begins a call has the effect of RequestBegins or PingBegins |
| Sections.BeatSection | proxy_client/websocket/client.py:365-368 | the step in which a heartbeat wakes up has the effect of PingBegins |
| Sections.ReplaySection | proxy_client/websocket/client.py:535-543 | the step that attempts the next entry of a replay has the effect of RequestBegins, after HandshakeAccepted if the connection is new |
| Sections.ReplayIsRequest | proxy_client/websocket/client.py:377-383 | the frame a replay attempts is the one a subscribe call for the entry would frame, and no dialect refuses it |
| Sections.WaitSection | proxy_client/websocket/client.py:343-349 | the step that ends a wait cancels the own future on a timeout or cancellation and has the effect of RequestEnds or PingEnds |
| Sections.HookSection | proxy_client/websocket/client.py:592-600 | the step after on_message leaves the table as Dispatch does, and reads on or goes to the handlers as the frame is consumed or handed on |
| Sections.PumpSection | proxy_client/websocket/client.py:436-461 | the step that ends a pump has the effect of PumpEnded, and of NewConnection when there is no delay |
| Sections.LinkSections | proxy_client/websocket/client.py:230-278 | every step changes the connection state as the sections named in `LinkAfter` do, and all other steps leave it alone |
| Sections.HeartbeatSection | proxy_client/websocket/client.py:570-576 | a timed-out heartbeat decides as HeartbeatExpires does |
| Sections.RegistrySection | proxy_client/websocket/client.py:382-399 | an acknowledged call changes the registry as Subscribed or Unsubscribed does |
| EngineInvariants.InvKept | proxy_client/websocket/client.py:228-581 | every step of every task and of the environment keeps the whole invariant |
| EngineTheorems.Reachable | proxy_client/websocket/client.py:228-581 | the invariant holds in every state of every run |
| EngineTheorems.OthersReady | proxy_client/websocket/client.py:241-278 | exactly when the steps of start(), stop() and the environment can be taken |
| EngineTheorems.ResultProvenance | proxy_client/websocket/_rpc.py:67-89 | a future with a result got it from a frame dispatched earlier while that future was registered and pending, and that answers its key |
| EngineTheorems.SettledOnce | proxy_client/websocket/_rpc.py:94-108 | a future that is done never changes again in a run |
| EngineTheorems.CallersGetTheirOwn | proxy_client/websocket/client.py:341-354 | a reply or rejection reaches a request exactly when it is woken by a frame; this carries its own number in the dialect's correlation field and is no pong; it is a rejection exactly when the dialect says so |
| EngineTheorems.PingsAreNeverRejected | proxy_client/websocket/client.py:356-373 | a ping returns exactly when it is woken by a frame, whatever that frame says |
| AnswerTheorems.SubscribeFrames | proxy_client/websocket/client.py:377-393 | a subscribe or unsubscribe frame says so, names its channel whatever the parameters say of it, and carries all other parameters |
| AnswerTheorems.RequestFrames | proxy_client/websocket/client.py:331-338 | a Kraken request frame says its own method and parameters; exactly the six order methods are tagged with their number and never go without an idempotency key |
| AnswerTheorems.CallBegins | proxy_client/websocket/client.py:335-342 | a call that can be framed registers one new future, under the next number or the reserved key, and starts sending; without an open connection it fails and leaves nobody registered |
| AnswerTheorems.WaitEndsCall | proxy_client/websocket/client.py:341-354 | a woken caller gets its answer, as a rejection if the dialect says so and it is no ping, or the error of the drop; a timeout, a failed send and a cancellation each give their own outcome |
| AnswerTheorems.WaitLeaves | proxy_client/websocket/client.py:341-373 | when a wait ends its coroutine holds nothing any more, its own registration is gone if it was still there and no other, and its own future is cancelled exactly if it was pending and the wait timed out or was cancelled |
| AnswerTheorems.CallerDeparts | proxy_client/websocket/client.py:341-373 | in every reachable state a caller can take exactly these steps: succeed or fail in sending, time out, be cancelled at any await, be woken when its future is done |
| AnswerTheorems.StaysInCall | proxy_client/websocket/client.py:341-349 | until its wait ends a call stays the same one, on the same future, whatever else happens |
| AnswerTheorems.SettledCall | proxy_client/websocket/client.py:341-354 | a caller gets what its future held when it was settled, however much later it is woken |
| AnswerTheorems.CanBeWoken | proxy_client/websocket/client.py:343 | a caller that has sent its frame can be woken exactly if its future is done |
| AnswerTheorems.DroppedRequest | proxy_client/websocket/client.py:440-443 | a request in flight at a drop ends in this drop's ConnectionError, once it is woken |
| AnswerTheorems.AnsweredRequest | proxy_client/websocket/client.py:341-354 | a request whose answer is dispatched while it waits returns that answer, once it is woken, or raises if it is a rejection |
| AnswerTheorems.AnsweredPing | proxy_client/websocket/client.py:365-373 | a ping that holds the slot when a frame with the event `pong` is dispatched returns this frame |
| EngineTheorems.RefusedCalls | proxy_client/websocket/_dialect.py:192-217 | a call ends in NotImplementedError exactly for OKX and a method other than subscribe and unsubscribe; it has then taken a number and changed nothing else |
| EngineTheorems.RegisteredIsHeld | proxy_client/websocket/client.py:335-349 | every registered key belongs to exactly one coroutine suspended between `create` and `finally`, with its own future |
| EngineTheorems.LateDiscard | proxy_client/websocket/client.py:348-349 | a late `discard`, after any drops, removes its own entry at most |
| EngineTheorems.KeysNeverRepeat | proxy_client/websocket/_rpc.py:42-52 | over the client's lifetime, drops included, later requests have larger numbers and other keys |
| EngineTheorems.PongSlot | proxy_client/websocket/client.py:365-373 | in every reachable state the slot is empty or holds the latest ping's future, whose coroutine still waits; what can move it |
| EngineTheorems.OverlapOrphans | proxy_client/websocket/_rpc.py:46-58 | a second ping, sent or not, leaves the first one's future unregistered and as it was, with its coroutine still waiting on it |
| EngineTheorems.OrphanForever | proxy_client/websocket/_rpc.py:46-58 | an overwritten ping stays unregistered and unsettled until its own wait ends |
| DropTheorems.DropLaw | proxy_client/websocket/client.py:436-445 | by the time the policy is asked the map is empty, registered pending futures have failed with a ConnectionError that names what ended the connection, done and unregistered ones are untouched, and nobody else has moved |
| DropTheorems.DropReleases | proxy_client/websocket/client.py:440-443 | a drop finishes the future of every request in flight, and of a ping exactly when it was done already or still held the slot |
| DropTheorems.DecisionLaw | proxy_client/websocket/client.py:445-461 | the attempt becomes the streak including this connection; disabled or giving up ends the client with shutdown set and nothing pending; a delay sleeps or reopens at once |
| DropTheorems.ResetLaw | proxy_client/websocket/client.py:508-515 | a drop sets the attempt to 0 if the current connection has been authenticated for at least 5.0 s, and otherwise, or without one, adds 1 |
| DropTheorems.ResetsAfterFive | proxy_client/websocket/client.py:508-515 | over a run: the drop of a connection resets the attempt exactly if its handshake was accepted at least 5.0 s before |
| DropTheorems.CountsUnaccepted | proxy_client/websocket/client.py:508-515 | over a run: the drop of a connection whose handshake was never accepted adds 1 |
| DropTheorems.TimePasses | proxy_client/websocket/_connection.py:121 | the clock moves only in steps of the environment in which nothing else happens |
| DropTheorems.EntryBehind | proxy_client/websocket/client.py:508-515 | behind every entry of the record of connections there is the drop that made it, in the same supervisor run; the entry says whether the connection had been up for 5.0 s |
| DropTheorems.DefaultDies | proxy_client/websocket/client.py:445-451 | under the default policy a drop ends the supervisor exactly after 1025 unhealthy connections in a row, and leaves the client marked running (`SupervisorTheorems.DefaultEndsLate`: no other step ends it) |
| DropTheorems.AttemptIsHistory | proxy_client/websocket/client.py:513-515 | in every reachable state the attempt counts the connections since the last healthy one of this supervisor run, by the record that `EntryBehind` explains |
| DropTheorems.OnlyHandshakesConnect | proxy_client/websocket/_connection.py:108-122 | the connection time is written by exactly the completed handshakes on that connection, with the time of that step |
| DropTheorems.HealthyBehind | proxy_client/websocket/client.py:508-515 | a drop that resets the attempt ends a connection whose handshake was accepted earlier in the run, at least 5 s before |
| DropTheorems.BoundedDecisions | proxy_client/websocket/client.py:434-461 | under a policy bounded by N a supervisor run with r healthy connections takes at most (r + 1) (N + 1) decisions and is then over |
| DropTheorems.BoundedEnd | proxy_client/websocket/client.py:445-449 | if the policy gives up past N, the decision that reaches that bound, N + 1 without healthy connections, leaves the client not running, shut down and with nothing pending |
| SupervisorTheorems.StartBegins | proxy_client/websocket/client.py:241-246 | start() is refused while the client runs; else it sets running, clears the shutdown flag and makes a new connection current |
| SupervisorTheorems.StartEnds | proxy_client/websocket/client.py:247-256 | start() returns with a new supervisor on attempt 0 and its connection authenticated now; registry and table are as they were |
| SupervisorTheorems.FailedStartBlocks | proxy_client/websocket/client.py:241-247 | a start() that fails leaves the client marked running and unsupervised, so that the next one is refused |
| SupervisorTheorems.EndingLaw | proxy_client/websocket/client.py:429-461 | a supervisor ends, while the client runs, exactly by a drop that the policy does not answer with a delay; in a stopped client, exactly where it looks at the flag or is cancelled |
| SupervisorTheorems.OnlyPolicyEndsIt | proxy_client/websocket/client.py:445-461 | a supervisor ends with the client still running exactly by a drop for which the policy raises; no failed reconnect or replay ends it |
| SupervisorTheorems.DefaultEndsLate | proxy_client/websocket/client.py:445-451 | under the default policy it ends with the client still running exactly by a drop after 1025 unhealthy connections in a row |
| SupervisorTheorems.DepartureLaw | proxy_client/websocket/client.py:429-544 | in every reachable state the supervisor can take exactly the steps of its suspension point, or be cancelled by the stop under way; it is never stuck |
| SupervisorTheorems.OwnStepsFollow | proxy_client/websocket/client.py:429-544 | over a run, after each of its own steps the supervisor's next one is what the loop prescribes: handlers return to the pump, a drop leads to the wait the policy asked for or straight to the next connection, a failed reconnect to the top of the loop, each replay attempt to its timeout and its pause |
| SupervisorTheorems.FailedReconnectGoesOn | proxy_client/websocket/client.py:523-533 | while the client runs, a failed reconnect is followed by the top of the loop and then by the pump |
| SupervisorTheorems.DropRecovers | proxy_client/websocket/client.py:445-544 | after a drop that the policy answers with a delay the supervisor alone can bring the client back: reading from a new connection that is current, open and authenticated, with the whole registry replayed, even if no replayed subscribe is answered |
| DispatchTheorems.FrameIsHooked | proxy_client/websocket/client.py:469-478 | the next step of the supervisor after a frame has arrived dispatches this frame, unless a stop cancels it |
| DispatchTheorems.HookLeads | proxy_client/websocket/client.py:592-600 | a consumed frame is done with, one that is handed on goes to the handlers, one that cannot be looked up ends the pump, by the table found at that moment |
| DispatchTheorems.DeliveryEnds | proxy_client/websocket/client.py:600-613 | the next step of the supervisor after handing a frame on is to return from its handlers or out of the pump, unless a stop cancels it |
| DispatchTheorems.HookBehind | proxy_client/websocket/client.py:469-478 | behind the frame that the supervisor is on there is its arrival, and the supervisor has done nothing since |
| DispatchTheorems.DeliverBehind | proxy_client/websocket/client.py:592-600 | behind a frame that is with the handlers there is the step that handed this frame on, and the supervisor has done nothing since |
| DispatchTheorems.DispatchedOnce | proxy_client/websocket/client.py:469-478 | no arrival is dispatched twice, and frames are dispatched in the order of their arrival |
| DispatchTheorems.RunStream | proxy_client/websocket/client.py:469-478 | the stream law holds of every stretch of every run, with the tables that its interleaving has brought about |
| StopTheorems.StopCompletes | proxy_client/websocket/client.py:258-278 | in a running client, at any suspension point of start(), supervisor, heartbeat and callers, at most six steps complete the stop; in a client that does not run it returns at once and changes nothing |
| StopTheorems.StopClosesCurrent | proxy_client/websocket/client.py:265-277 | at the end of stop() the heartbeat it knew is over, the supervisor is over or ends at its first turn, the current connection is forgotten, of all connections exactly that one is closed, and every registered future is done |
| StopTheorems.StrayStep | proxy_client/websocket/client.py:523-533 | a connection is open without being current exactly if it was so and neither its socket has dropped nor a heartbeat closed it, or it has just been replaced while open, or a stopped start() has just opened it |
| StopTheorems.QuietUntilStart | proxy_client/websocket/client.py:258-302 | from there to the next start() the map is empty at every scheduling point, nothing is current and no connection is made; none comes open but one that a start() was already connecting |
| StopTheorems.QuiescedIsCalm | proxy_client/websocket/client.py:294-302 | nothing is registered, connected, run or opened from a state on until the next start(), whatever happens, exactly if nothing runs, is registered or connected there and nobody waits for a socket |
| StopTheorems.IgnoredIsCalm | proxy_client/websocket/client.py:260-261 | with no start() or stop() under way, a client that does not run is quiesced exactly if no open connection is current and nothing is registered |
| StopTheorems.StopSettles | proxy_client/websocket/client.py:265-277 | a stop called with no start() under way leaves, however it is interleaved, the supervisor over |
| StopTheorems.StopQuiesces | proxy_client/websocket/client.py:258-278 | stop(), however it is interleaved, leaves the client quiesced exactly if it was called in a running client with no start() waiting for its socket, or in a client that was quiesced already |
| StopTheorems.StopDuringStart | proxy_client/websocket/client.py:243-277 | the first exception is reachable: start(), then a stop() that completes before the socket is there |
| StopTheorems.GiveUpKeepsSocket | proxy_client/websocket/client.py:445-449 | a supervisor that gives up changes the flags and leaves the socket as it is |
| StopTheorems.StopAfterGiveUp | proxy_client/websocket/client.py:260-261 | the second exception is reachable: the supervisor gives up with the socket open, and stop() does nothing |
| HeartbeatTheorems.HeartbeatDecides | proxy_client/websocket/client.py:563-576 | between its pings a heartbeat stays on the same one; it decides to close only on that ping's timeout, and only the open current connection the ping was sent on |
| HeartbeatTheorems.HeartbeatCloses | proxy_client/websocket/client.py:575-576 | the close changes its target only, which was made before the ping |
| HeartbeatTheorems.HeartbeatEpochSafety | proxy_client/websocket/client.py:559-576 | over a run, behind every heartbeat close there is a ping on that connection while it was current, then a decision on that ping's timeout while it still was, and every connection made since the ping is left alone |
| HeartbeatTheorems.StartBeats | proxy_client/websocket/client.py:252-255 | start() creates one new heartbeat exactly if one is configured |
| HeartbeatTheorems.EndingLaw | proxy_client/websocket/client.py:548-581 | a heartbeat ends exactly where it finds the client stopped, is cancelled, or its future was; no timeout, error or failed ping ends it |
| HeartbeatTheorems.DepartureLaw | proxy_client/websocket/client.py:548-581 | in every reachable state a heartbeat can take exactly the steps of its suspension point, or be cancelled by the stop under way |
| HeartbeatTheorems.OwnStepsFollow | proxy_client/websocket/client.py:554-581 | over a run, after each of its own steps a heartbeat's next one is what the loop prescribes: a pong leads to the next interval, a timeout first to the close if that connection is still current and open, a failed ping to the pause |
| ReplayTheorems.RegistryRefines | proxy_client/websocket/client.py:377-399 | in every reachable state the registry is what its history of acknowledged persistent operations says |
| ReplayTheorems.HistoryStep | proxy_client/websocket/client.py:382-399 | only an acknowledged persistent subscribe or unsubscribe leaves a mark; replays, rejections, timeouts, drops and stops do not |
| ReplayTheorems.ReplayFidelity | proxy_client/websocket/client.py:535-544 | a completed replay attempted one subscribe per snapshot entry in order, each frame being the acknowledged one under a later number |
| ReplayTheorems.ReplayContinues | proxy_client/websocket/client.py:540-543 | an attempt that is not cancelled by a stop moves on to the pause before the next entry, however it ends |
| ReplayTheorems.ReplayNeverAnswered | proxy_client/websocket/client.py:461-541 | a replayed subscribe's future stays pending as long as it is waited on; the wait is never woken |
| Dispatch.DispatchLaw | proxy_client/websocket/client.py:585-613 | one frame is seen once, then consumed without calling a handler, or handed on to exactly its recipients; at most one future changes; each raise is reported once |
| Dispatch.CallsLaw | proxy_client/websocket/client.py:608-621 | every recipient is called once, in order, whoever raises, and each raise is reported once |
| Dispatch.RecipientsLaw | proxy_client/websocket/client.py:603-613 | the channel's handlers, then the wildcard ones, in registration order; the wildcard ones alone if nobody has registered for the channel; unclaimed heartbeats go to nobody |
| Dispatch.HandedOnCalls | proxy_client/websocket/client.py:602-613 | the calls for a frame that is handed on: its channel's handlers, if any, and then, whatever the channel is, every wildcard handler; only unclaimed heartbeats call nobody |
| Dispatch.HandingOn | proxy_client/websocket/client.py:592-600 | exactly which frames reach handlers and exactly which break off the reading, by their event, id and channel |
| Dispatch.StarChannelCallsTwice | proxy_client/websocket/client.py:608-613 | on the channel `*` the wildcard handlers are called twice |
| Dispatch.AddedIsCalledLast | proxy_client/websocket/client.py:403-408 | an added handler is called after the channel's other handlers and before the wildcard ones, and no other channel is affected |
| Dispatch.AddThenRemove | proxy_client/websocket/client.py:403-415 | removing a handler that has just been added restores the channel's list |
| Dispatch.RemovedFirst | proxy_client/websocket/client.py:410-415 | removing a handler takes out its first registration and keeps the order of the rest |
| Dispatch.StreamLaw | proxy_client/websocket/client.py:469-478 | over a stream, whatever other tasks do to the pending table and the handler registry between its frames: on_message sees each parsed frame once and in order; each frame is routed by the table it finds and settles at most one future or is handed on; the handlers are called as the flat call log says; every exception is reported once; reading stops at the first frame that raises |
| Dispatch.FirstAnswerWins | proxy_client/websocket/_rpc.py:80-109 | a pending future that stays registered gets the first frame of the stream that answers its key, and no later one |
| Dispatch.FaultsAreContained | proxy_client/websocket/client.py:615-621 | over such a stream, which handlers raise changes neither the calls made nor the futures settled |
| Dispatch.Dispatcher.RemoveHandler | proxy_client/websocket/client.py:410-415 | removes the first equal handler and keeps the possibly empty list; absence is no error |
| Dispatch.Dispatcher.Deliver | proxy_client/websocket/client.py:602-613 | the two loops call the recipients of the frame, the wildcard handlers alone if nobody has registered for its channel, or raise on an unhashable channel before calling anyone |
| Dispatch.Dispatcher.Dispatch | proxy_client/websocket/client.py:585-600 | hook, whatever other tasks do meanwhile, resolve, deliver: trace and table as specified for the table found |
| Dispatch.Dispatcher.Pump | proxy_client/websocket/client.py:463-478 | the read loop over raw frames, interleaved with any turns of other tasks and ended by the first frame that finds the client stopped: trace and number of frames read as specified for what each frame found |
| Utf8.DecodeEncode | proxy_client/signing.py:35 | decoding with surrogateescape and encoding again is the identity on every byte string |
| Utf8.DecodeInjective | proxy_client/signing.py:35 | two bodies never decode to the same text |
| Utf8.EncodeDecode | proxy_client/signing.py:53-56 | on text without surrogates this is ordinary UTF-8: encoding succeeds and decodes back |
| Utf8.EncodeConcat | proxy_client/signing.py:53-56 | encoding works piecewise and fails exactly when a piece does |
| Utf8.KnownCharacters | proxy_client/signing.py:54-56 | known characters of two, three and four bytes are encoded and decoded as RFC 3629 has them |
| Utf8.KnownEscapes | proxy_client/signing.py:35 | stray bytes are escaped; overlong forms, encoded surrogates and too large code points are no sequences; other surrogates cannot be encoded |
| Signing.UpperIsCaseBlind | proxy_client/signing.py:36 | methods that differ in ASCII case sign alike |
| Signing.SignsRawBytes | proxy_client/signing.py:35-56 | HMAC covers upper(method), path, timestamp and nonce, each with a newline, then the body's own bytes; it fails exactly when a header field cannot be encoded |
| Signing.SignatureCovers | proxy_client/signing.py:39-57 | the signature is the MAC of exactly those bytes, or there is none |
| Signing.CanonicalInjective | proxy_client/signing.py:21-36 | requests with an equal canonical string are equal, up to the method's case, exactly when method, path, timestamp and nonce span equally many lines, field by field |
| Signing.OneLineInjective | proxy_client/signing.py:21-36 | for single-line fields the canonical string is injective up to the method's case |
| Signing.NewlineInMethodCollides | proxy_client/signing.py:36 | two different requests that share a canonical string, one with a newline in its method |
| Signing.NewlineInPathCollides | proxy_client/signing.py:36 | the same with a newline in the path and equal methods |
| Signing.MethodsNeverMix | proxy_client/signing.py:36 | single-line methods that differ after upper-casing never share a canonical string, whatever the other fields |
| Signing.HandshakeLines | proxy_client/websocket/_connection.py:56-69 | a handshake signs, line by line, WS, the path /v1/{exchange}/ws, its timestamp, its nonce and its body |
| Signing.HandshakeIsNotAPost | proxy_client/websocket/_connection.py:56-69 | no REST POST shares its canonical string with a WebSocket handshake |

## Left out

- Calling `start()` while an earlier `start()` or a `stop()` is in progress, or before the supervisor of a `start()` that was
  stopped meanwhile has had its first turn: `Engine` knows one `start()`, one `stop()` and one supervisor at a time.
- User callbacks that re-enter the client (a handler that awaits `request()` or calls `stop()`), and changes to the handler
  registry while the handlers of one frame are being called: those of one frame are looked up at once.
- Dispatch.Dispatcher.Deliver: handlers are numbers and raise or not as a given function says; what they do otherwise is
  outside the model.
- Python's `1 == True == 1.0` in parameter dictionaries, non-integral JSON numbers, frames that are not objects, and
  mutation of a nested parameter by the caller after subscribing: frames are dictionaries of immutable values. A boolean
  correlation id is the integer it equals, and an unhashable one raises.
- The Unicode case tables: outside ASCII `str.upper()` is an arbitrary mapping of code points to texts, of which only
  `IsCasing` is asked.
- The websockets transport, TLS, JSON text, `wait_for` internals, HMAC-SHA256, base64, clocks and random nonces: they are
  environment steps, parameters or uninterpreted functions.
- Fairness: the runs are about safety, and about what can be completed; that a timer eventually fires is not stated.
- URL building, logging, `__repr__`, context managers, how a new idempotency key is drawn and the error-code table: finite lookups
  and field mappings. A reply counts as accepted or rejected.
- The REST client, the reporting client, and the orders and envelope modules: they are not part of the concurrent core. Each
  of their calls builds one HTTP request from its arguments and shares no state with what is modelled here.
