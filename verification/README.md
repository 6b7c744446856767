# Verified model of the DEX executor

The program watches a chain for transactions of competing arbitrageurs and answers them with
orders of its own. Two of its components carry state across goroutines and events, and they are
what this project is about; the string encodings and the call-tree decoding hang on to them.

**The reconnecting websocket** (`core/websocket.go`, with the client that `core/node_ws.go`
builds). `WsModel` is a transition system: one program counter for the writer, one for the reader,
one for whichever client is inside `CloseWs`; five bounded channels with Go's semantics
(`GoChan`: capacity, order, closed with or without residue, zero value once drained); one
non-reentrant mutex; a generation number per connection; history variables for what was
accepted, taken, written, failed and swallowed. Everything the network, the scheduler or a
`select` decides is a parameter of an action, so that a lemma about all runs is a lemma about
all interleavings. The writer reads the connection pointer and writes to it in two separate
steps. `isChanClose` is kept as it is written: a receive that takes an element out.

- `WsInvariants`: mutual exclusion, one open connection, exact message accounting, the close token.
- `WsSubscription`: the client of `EstablishConn` never leaves a live connection unsubscribed.
- `WsRuns`: stretches of runs of one goroutine, from which calls and examples are put together.
- `WsDials`: dials, time slept, exhausted retries.
- `WsClose`: panics, first and later closes.
- `WsLate`: reconnects after a close.
- `WsStop`: after a close both goroutines stop.
- `WsQueued`: two reconnects queued for the same failure.
- `WsVariant`: what would hold if the inner close did not take the mutex a second time.
- `WsConnection`: the same operations as a class, `WsConn`, whose methods update fields;
  each method is proved to do what one run of the transition system does. `View()` is the
  abstract state, `Valid()` the invariant.

**The event machine** (`core/node_mgr.go`). `NodeModel` makes one step per event, with the header
goroutine free to run between any two steps of the analyser; a panic drops the event in hand,
keeps every write already made and restarts the analyser. `NodeHistory` tells from the events of a
run what the state and every published order come from. `NodeManager` holds the class
`NodeMgr`, whose methods make these steps; its `Valid()` says that its state is reachable.
`Window`, `Signals` and `Trade` hold the truncating windows, the lookup, and the order with its
fee and hedges.

**The parts attached to them.** `CallTree`: flattening a call trace and projecting it to symbols.
`Startup` and `Routing`, over `GoStrings` and `Sequences`: the pair symbols and the subjects
that `main.go` builds and that `core/nats_sub.go` and `Trade` take apart again.

## Where the code departs from its evident intent

- After 100 failed dials `Reconnect` calls `CloseWs`, which waits for the mutex that the caller
  holds. From then on nothing is dialled, no channel is closed and the error handler never runs
  (`WsDials.ExhaustedReconnectNeverReleases`, `WsDials.FailingDialsGetStuck`;
  `WsConn.Reconnect` ends `Deadlocked` exactly when every dial fails).
- A second `CloseWs` panics, sending on a closed channel, exactly when no goroutine has read the
  token before its probe (`WsClose.LaterClose`; the shortest such run is `WsConn.CloseTwice`).
- A guard that finds messages left in a closed channel lets a `Reconnect` through. With a
  resubscribe hook that call never returns (`WsLate.LateReconnectNeverReturns`,
  `WsLate.LateReconnectPanics`); without one it dials a connection that stays open after both
  goroutines have stopped (`WsLate.LateReconnectLeaks`, `WsLate.ConnectionIsLeaked`). The bound on
  such calls holds for every configuration (`WsLate.ReconnectsAfterClose`).
- `Reconnect` does not ask which connection failed. When reader and writer fail on the same
  one, the second call closes the healthy connection that the first has just dialled
  (`WsQueued.QueuedReconnectClosesAnyConnection`, `WsQueued.HealthyConnectionIsClosed`).
- A ping after a close panics, and so do a resubscription and a send
  (`WsClose.PanicsExactly`, `WsLate.PingAfterClosePanics`).
- When no retained signal matches, the lookup returns the oldest retained one, and the order is for
  the wrong symbol (`Signals.WindowedLookup`, `NodeModel.OrderIsForTheTouchedSymbol`).
- The staleness test compares the second of the minute with a Unix time. `NodeModel.StaleExactly`
  says when it fires; for a header with an ordinary timestamp, however old, it never does
  (`NodeModel.SaneIsNeverStale`).
- The ping handler is set once, so pings on a connection that a reconnect has dialled are not
  answered by it (`WsInvariants.HandlerIsSetOnce`).
- A transaction that is on chain already yields no symbols, so `CancelTx` is never called
  (`NodeModel.CancelIsUnreachable`).
- The subject round trip holds exactly for keys without a dot; braces in a key are harmless
  (`Routing.SubjectRoundTrip`, `Routing.DottedKey`).

## Model

| member | source | states |
|---|---|---|
| GoChan.IsChanClose | core/websocket.go:468-475 | the probe reports closed exactly for a channel that is closed and empty, and otherwise swallows the oldest element, also of a channel that is closed already |
| GoChan.FirstInFirstOut | core/websocket.go:176-180 | a channel is a queue: a receive after a send takes the element sent only if nothing was buffered; closing keeps what is buffered; sends need room and receives an element unless the channel is closed |
| WsInvariants.InitInv | core/websocket.go:165-193 | the state after `NewWs` satisfies the whole invariant |
| WsInvariants.StepKeepsInv | core/websocket.go:241-497 | every action of every goroutine keeps mutual exclusion, program counters, connection, accounting, close-token and capacity invariants |
| WsInvariants.RunKeepsInv | core/websocket.go:241-497 | so does every run, of whatever interleaving |
| WsInvariants.CountersRecord | core/websocket.go:248-302 | which steps each counter of the history counts, and by how much: dials, sleeps, probes, passes of the guard, token reads, handler runs |
| WsInvariants.MessagesRecord | core/websocket.go:241-370 | which steps put which message into the histories: every message sent, among them the custom subscription before the hook's, every one received and by whom, every write with its connection and outcome |
| WsInvariants.BlocksExactly | core/websocket.go:316-329 | when each send, receive, lock, default case and timeout can be taken |
| WsInvariants.HandlerIsSetOnce | core/websocket.go:408-413 | the ping handler stays with the connection on which the reader started; a connection dialled later never gets it |
| WsInvariants.ReleaseReturnsToTheLoop | core/websocket.go:250-353 | a goroutine that leaves `Reconnect` is back at its select, its error, timer and the other goroutine as they were |
| WsInvariants.OneConnection | core/websocket.go:248-271 | at most one connection is open in every reachable state, and the pointer changes only to the connection just dialled, under the mutex, with every other connection closed |
| WsInvariants.WritesReachTheCurrentConnection | core/websocket.go:316-332 | a write that succeeds goes out on the connection that is current at that moment, although the pointer was read earlier |
| WsInvariants.MessageAccounting | core/websocket.go:241-254 | accepted messages are, in order, those taken out followed by those queued; those the writer took are, in order, written or failed, then in its hand; the rest were swallowed, at most one per probe; nothing is duplicated, lost otherwise or queued again |
| WsSubscription.NoLiveConnectionIsUnsubscribed | core/node_ws.go:44-64 | whenever nobody is inside `Reconnect`, the current connection is closed, or was subscribed by a successful write on that very connection, or the subscription is queued, in hand, owed by a failed write, or the initial one is still to come |
| WsSubscription.SubscribingNeverBlocks | core/websocket.go:289-294 | queue plus pending initial subscription is at most 2, at most 1 between probe and hook, against a capacity of 10, so neither the initial subscription nor the hook's ever blocks or panics, even if the only consumer runs the hook |
| WsSubscription.ResubscriptionGetsWritten | core/websocket.go:289-322 | from the hook of a reconnect with an open connection, enqueueing, leaving and writing is a run, after which the subscription has been written on that connection and the writer is at its select |
| WsSubscription.InitialSubscriptionGetsWritten | core/node_ws.go:61 | so does the initial subscription, on the first connection |
| WsDials.AtMostAHundredDials | core/websocket.go:248-271 | from guard to release of one `Reconnect`, in every interleaving, at most 100 dials are made and the mutex is kept |
| WsDials.FailingDialsInAnyRun | core/websocket.go:255-274 | in every interleaving in which no dial of the call succeeds: the dials made are its failed ones, the mutex is kept, and it is stuck exactly when it has made all 100, else at the next dial |
| WsDials.SleepOfEveryCall | core/websocket.go:255-270 | in every interleaving, a call with n dials so far has slept n(n-1)/2 intervals if the last succeeded and n(n+1)/2 if not, with n at most 100 |
| WsDials.FailingDialsGetStuck | core/websocket.go:255-274 | such a run exists: from the r-th dial on, failing all remaining dials in a row leaves the goroutine waiting for the mutex it holds |
| WsDials.ExhaustedIsReachable | core/websocket.go:255-274 | a state with all dials failed is reached from the start, and as written it is stuck |
| WsClose.PanicsExactly | core/websocket.go:356-413 | in a reachable state a step panics exactly if it sends to a closed channel: a ping handler, a resubscription, a later close or a client; no channel is ever closed twice |
| WsDials.ExhaustedReconnectNeverReleases | core/websocket.go:272-277 | in every continuation the mutex stays held: no dial, no store, no channel closed, no error handler |
| WsClose.FirstCloseHasRoom | core/websocket.go:481-491 | the first close finds room for its token, its timeout is never enabled, no channel is closed twice, and when the closer goes on to the connection all five are closed |
| WsClose.LaterClose | core/websocket.go:481-493 | a later close leaves the channels alone and does not panic if a goroutine has read the token, and otherwise can make no step but a panic |
| WsLate.ReconnectsAfterClose | core/websocket.go:248-253 | after a close, the reconnects that get past the guard are at most the messages that left the queue since, hence at most ten |
| WsLate.DrainedReconnectsDoNothing | core/websocket.go:251-253 | once the closed channel is drained and nobody is past the guard, in no run does a reconnect touch the connection or dial |
| WsLate.LateReconnectNeverReturns | core/websocket.go:251-294 | with a resubscribe hook, a reconnect past the guard of a closed connection never releases the mutex |
| WsLate.LateReconnectPanics | core/websocket.go:289-290 | such a call is reached from the start, and with a successful dial it panics in the hook |
| WsLate.PingAfterClosePanics | core/websocket.go:408-410 | a reachable state in which a ping after a close panics |
| WsLate.OnlyDialsOpen | core/websocket.go:220-237 | a step opens a connection exactly if it is a dial that succeeds |
| WsLate.LateReconnectLeaks | core/websocket.go:251-271 | without a hook, a reconnect that gets the mutex after the close can dial and leave a new connection open exactly if messages are left in the closed channel; otherwise no run touches the connection |
| WsLate.StoppedKeepsOpen | core/websocket.go:241-246 | once both goroutines have stopped, an open connection stays open in every run without a further close by a client |
| WsLate.ConnectionIsLeaked | core/websocket.go:251-271 | a reachable state with all channels closed, both goroutines stopped without a panic, and a connection open |
| WsQueued.QueuedReconnectClosesAnyConnection | core/websocket.go:248-254 | a `Reconnect` that gets the mutex closes the current connection, whoever dialled it, exactly unless the write channel is closed and drained |
| WsQueued.SecondReconnectClosesTheHealthyConnection | core/websocket.go:248-254 | of two calls queued for the same failure, the second closes the connection that the first has dialled |
| WsQueued.HealthyConnectionIsClosed | core/websocket.go:351-430 | a reachable state in which this happens, after one read and one write failed on the same connection |
| WsStop.RunDescends | core/websocket.go:304-353 | after a close, every run keeps the bound: steps made by the two goroutines plus the rank left are at most the rank before plus 118 for each skipped close case |
| WsStop.BothGoroutinesStop | core/websocket.go:304-353 | after a close, in every run with arbitrary client steps: the two goroutines make at most 235 steps, plus at most 118 for each time the writer's select passes over its ready close case; and until both have stopped, one has panicked, or, as the code is written, one is stuck with its dials exhausted, a step that is no such skip is enabled and lowers the rank, or brings the client that holds the mutex closer to releasing it |
| WsVariant.InnerCloseProceeds | core/websocket.go:272-277 | in the variant without the second lock, the inner close always has an enabled next step, which either panics or brings it closer to the end of the error handler |
| WsVariant.InnerCloseUndisturbed | core/websocket.go:477-492 | meanwhile no other goroutine makes a step of `Reconnect` or `CloseWs`, runs the handler, or moves it |
| WsVariant.InnerCloseCompletes | core/websocket.go:272-277 | in every run each step of that goroutine lowers the number it has left, ten from an exhausted `Reconnect`; once it has made them all, the five channels are closed and the error handler has run, unless there was a panic |
| WsVariant.InnerCloseTakesTen | core/websocket.go:272-277 | if nobody has closed before, the ten steps are a run that skips nothing, panics nowhere and completes the close |
| WsVariant.ExhaustedReconnectStopsBoth | core/websocket.go:272-277 | composed: from an exhausted `Reconnect`, once its goroutine has left the inner close or made the steps it had left, the channels are closed and the handler has run, and every run from there on is bounded as above and ends with both stopped; or there was a panic |
| WsVariant.ExhaustedReconnectDoesStopBoth | core/websocket.go:272-277 | a run from the start, within these conditions, in which all dials fail, the inner close completes and both goroutines stop without a panic |
| WsConnection.WsConn.NewWs | core/websocket.go:176-192 | establishes the initial state and the invariant |
| WsConnection.WsConn.Build | core/websocket.go:160-193 | no object exactly if the first dial fails, else a fresh one in the initial state |
| WsConnection.WsConn.Connect | core/websocket.go:195-239 | a failed dial leaves pointer and open connections alone; a successful one opens and stores the next generation |
| WsConnection.WsConn.DialUntilConnected | core/websocket.go:255-270 | at most 100 dials up to the first success, whatever the pre-hook says; the error is that of the last dial; the time slept is the sum of the retry numbers |
| WsConnection.WsConn.Reconnect | core/websocket.go:248-302 | the whole call: the number of dials, the sleep r(r-1)/2 or 5050 intervals, how it ends in each case, and that its new state is that of an explicit run of the transition system |
| WsConnection.WsConn.CloseWs | core/websocket.go:477-497 | the whole call: returns, blocks or panics exactly when the mutex and the token say so; after a first close the token is buffered and all channels are closed; its new state is that of an explicit run |
| WsConnection.WsConn.CloseTwice | core/websocket.go:481-493 | two closes in a row, with no read of the token between, panic |
| WsConnection.WsConn.Close | core/websocket.go:241-246 | swallows one queued message, and closes the current connection unless the channel is closed and drained |
| WsConnection.WsConn.SendMessage | core/websocket.go:368-370 | appends one message, or blocks on a full channel, or panics on a closed one, exactly in these cases |
| WsConnection.WsConn.WriterTurn | core/websocket.go:316-353 | one turn with a frame from any channel: received, pointer read, written; after a failed write it is at the lock of `Reconnect`, and the new state is that of this run |
| WsConnection.WsConn.ReaderTurn | core/websocket.go:415-439 | one turn that reads: back at the select, at the lock of `Reconnect` after an error, or stopped without automatic reconnects, and the new state is that of this run |
| WsConnection.WsConn.StopWriter | core/websocket.go:318-320 | takes the token if there is one, and the writer is done |
| WsConnection.WsConn.TimerTurn | core/websocket.go:329-340 | a heartbeat in hand or, with a zero interval, a single turn that sees an earlier error again |
| WsConnection.WsConn.StartReader | core/websocket.go:393-413 | the handlers go to the connection that is current at that moment |
| WsConnection.WsConn.StopReader | core/websocket.go:417-419 | takes the token if there is one, and the reader is done |
| WsConnection.WsConn.ReceivePing | core/websocket.go:408-413 | a ping queues a pong, blocks on a full channel, or panics on a closed one, exactly in these cases |
| Window.WindowIsSuffix | core/node_mgr.go:104-109 | pushing h items one by one leaves all of them if h < 102, and otherwise those after the first 100*((h-102)/100); never more than 201, never fewer than min(h, 102) |
| Window.LastItemsAreKept | core/node_mgr.go:176-181 | the last 102 items are always retained |
| Signals.GetLastSignalBySymbol | core/node_mgr.go:314-322 | the backward scan returns the newest match; on a miss the oldest retained signal; the zero value only for an empty list |
| Signals.WindowedLookup | core/node_mgr.go:314-322 | the lookup in the window finds the newest match of all time exactly when that is still retained, and otherwise returns the oldest retained signal |
| Signals.RecentMatchIsFound | core/node_mgr.go:176-181 | in particular it finds a newest match among the last 102 signals |
| Signals.MissOnOneSignal | core/node_mgr.go:314-322 | a concrete miss that returns a signal for another symbol |
| NodeModel.StaleExactly | core/node_mgr.go:192-200 | for which timestamps, including those that overflow, the staleness test fires; the result is then 0, and otherwise the number plus one, with wrap-around |
| NodeModel.SaneIsNeverStale | core/node_mgr.go:192-200 | never for a time of at least 57 that fits int64: the result is the header number plus one |
| NodeModel.StepInv | core/node_mgr.go:114-190 | every event, including every panic, keeps the windows, the state of the analyser and the justification of everything published |
| NodeModel.ReachableStep | core/node_mgr.go:114-190 | and leads from reachable states to reachable states, so the objects of `NodeMgr` inherit what is proved of runs |
| NodeModel.WindowsInEveryRun | core/node_mgr.go:104-181 | in every run, across panics and restarts, all three windows are the suffixes of their histories without the first 100*((h-102)/100) items |
| NodeHistory.HistoriesAreProjections | core/node_mgr.go:98-181 | and the histories are the headers with a number other than zero, the signals that could be decoded, and the transactions to competitors that are not routers, of the run, all of them and in order |
| NodeModel.HeadOutcome | core/node_mgr.go:100-109 | what a header changes, in literal terms |
| NodeModel.TxOutcome | core/node_mgr.go:143-153 | what a transaction changes: a router's token pair both ways round, a competitor's tracing, the panic that keeps the append |
| NodeModel.DecideOutcome | core/node_mgr.go:159-204 | what the decision changes: idle, cancellation, panic, or on to the check with the newest match for the first symbol or, on a miss, the oldest retained signal |
| NodeModel.CheckOutcome | core/node_mgr.go:206-216 | what the check changes, for every header, sane or not |
| NodeModel.SignalOutcome | core/node_mgr.go:176-187 | what a signal changes, with the panic of the log line |
| NodeModel.CancelIsUnreachable | core/node_mgr.go:143-163 | in no run is anything cancelled, because on chain implies no symbols |
| NodeModel.PublishSafety | core/node_mgr.go:202-213 | with sane headers, a check publishes exactly when the still retained signal's trade block is at least the latest recorded header number plus one, nothing in it is malformed and the bus takes it; the staleness result is never used |
| NodeModel.OnlyChecksPublish | core/node_mgr.go:114-190 | no other event publishes |
| NodeModel.EveryPublicationWasChecked | core/node_mgr.go:202-213 | every order that any run ever publishes was published by one of its checks, and at that moment its signal was the one the lookup gives and still retained, its header the latest recorded, and, if that is sane, its trade block at least that number plus one |
| NodeModel.EveryPublicationIsJustified | core/node_mgr.go:202-213 | in every reachable state each published order is the one for a received signal, a recorded header and the competitor's price |
| NodeModel.PublishedOrdersAreFromTheirSignals | core/node_mgr.go:222-303 | every published order buys exactly when its signal says "buy", carries the signal's amounts, identifiers, limits, fee cap and data, and the hedges of all its details |
| NodeHistory.EveryPublicationHasItsTransaction | core/node_mgr.go:124-164 | every order that any run ever publishes answers a transaction of that run: its price is that transaction's; its symbol is the router's token pair, or that of the first known pair in the competitor's trace, which was not on chain; between that transaction and the check nothing but headers arrived |
| NodeHistory.EveryPublicationOutbidsItsTransaction | core/node_mgr.go:164-211 | and priority fee plus base price is that transaction's price plus one; the order pays more than it exactly when the signal's fee cap exceeds that price |
| NodeModel.PublishedOrdersOutbid | core/node_mgr.go:206-211 | the same arithmetic for the price recorded with an order, in every reachable state |
| NodeModel.OrderIsForTheTouchedSymbol | core/node_mgr.go:202-203 | the signal acted on is the newest for the touched symbol if that is retained, and otherwise the oldest retained one, which is for another symbol |
| NodeModel.TouchedSymbolIsLookedUp | core/node_mgr.go:143-203 | from trace to signal: if the newest signal for the first known pair in pre-order is retained, that is the signal acted on |
| NodeModel.TouchedPairIsTraded | main.go:38-45 | from configuration and trace to order: with the pair table that the loop over the keys leaves (`Startup.PairSymbolMap`), if the contract of `P@A/B` or `P@A/B_fee` is the first known pair in pre-order and the newest signal for its symbol is retained, that signal is acted on and the order's tokens are upper(A) and lower(B) |
| NodeManager.NodeMgr.NewHead | core/node_mgr.go:100-109 | makes exactly the header step |
| NodeManager.NodeMgr.GetPendingBlockNum | core/node_mgr.go:192-200 | zero if stale, else the latest number plus one, with wrap-around; panics on an empty list |
| NodeManager.NodeMgr.UnreadableTx | core/node_mgr.go:127-138 | changes nothing, or panics: exactly the step of an unreadable transaction |
| NodeManager.NodeMgr.TakeTx | core/node_mgr.go:143-153 | makes exactly the transaction step: router, competitor, or neither; the panic on an empty header list keeps the append |
| NodeManager.NodeMgr.DecodeToSymbol | core/node_mgr.go:415-479 | no symbols if on chain or untraceable, else the projected trace: exactly the decoding step |
| NodeManager.NodeMgr.ChooseSignal | core/node_mgr.go:159-204 | idle without symbols or signals, cancel if on chain, panic without headers, else the signal looked up: exactly the decision step |
| NodeManager.NodeMgr.CheckAndTrade | core/node_mgr.go:206-216 | block check, publication and panic exactly as in the event machine's check step |
| NodeManager.NodeMgr.RebuildTx | core/node_mgr.go:207-212 | publishes the order for the signal and the new fee, or panics exactly on a malformed symbol |
| NodeManager.NodeMgr.TakeSignal | core/node_mgr.go:167-188 | makes exactly the signal step, including the panic in its log line |
| NodeManager.NodeClient.HeadsHandler | core/node_ws.go:69-88 | the fourth window is the same suffix of the notifications it accepts; fails exactly on malformed data |
| Trade.BasePriceInGwei | core/node_mgr.go:209 | for whole gwei the base price is that many times 10^9; in general the scaled price truncated towards zero |
| Trade.FeeRange | core/node_mgr.go:245 | the fee is known exactly from 0 to 2^64-1 |
| Trade.NewGasPrice | core/node_mgr.go:207-210 | new price plus base price is the competitor's price plus one |
| Trade.Outbids | core/node_mgr.go:207-247 | in range, priority fee plus base price is the competitor's price plus one, and by the effective price of EIP-1559, section "Specification", the order outbids exactly when its fee cap exceeds the competitor's price |
| Trade.BuildHedges | core/node_mgr.go:252-283 | the three nested loops fail exactly on a path symbol without a slash, and otherwise build the hedge list |
| Trade.HedgeConservation | core/node_mgr.go:252-283 | one hedge per path item; the total amount is the sum over details of path length times consumed ratio times amount |
| Trade.PathHedgeAt | core/node_mgr.go:255-282 | the j-th hedge of a path is that of its j-th item |
| Trade.TimesIsProduct | core/node_mgr.go:259 | repeated addition in that sum is multiplication |
| Trade.HedgesAnyOrder | core/node_mgr.go:253 | the multiset of hedges is the same for every iteration order of the map |
| Trade.HedgeFields | core/node_mgr.go:256-281 | a hedge buys exactly when its normalised symbol is filed as "buy"; its tokens are the two halves of the path symbol, its price, amount and codes those of item and detail |
| Trade.HedgeOfLongSymbol | core/node_mgr.go:257-258 | with further slashes in a path symbol, the quote stands between the first two |
| Trade.NormalisedChars | core/node_mgr.go:256 | normalising turns every slash into an underscore, upper case into lower case, and nothing else |
| Trade.BuildOrder | core/node_mgr.go:222-303 | fails exactly when the signal's or a path item's symbol lacks its separator; otherwise side, tokens, fee and every field copied from the signal, one by one |
| CallTree.GetAllAddress | core/node_mgr.go:481-489 | the loop with recursion computes the flattening |
| CallTree.FlattenAppend | core/node_mgr.go:481-489 | flattening distributes over concatenation of forests |
| CallTree.FlattenIsPreorder | core/node_mgr.go:481-489 | the addresses are the pre-order walk with an explicit stack, one address per call |
| CallTree.ProjectLoop | core/node_mgr.go:470-478 | the loop computes the projection |
| CallTree.ProjectFlatten | core/node_mgr.go:470-489 | filtering by known pairs commutes with flattening |
| CallTree.NoSymbol | core/node_mgr.go:470-478 | no symbol exactly when no known pair was called |
| CallTree.FirstKnown | core/node_mgr.go:203 | the first symbol is that of the first known pair in pre-order |
| CallTree.EveryScheduleDecodesTheSame | core/node_mgr.go:436-479 | every interleaving of the two joined goroutines gives the same function of their outcomes |
| Startup.PairSymbolOf | main.go:39-42 | the symbol of `P@A/B` is lower(A)_lower(B), followed by the lower-case fee part if there is one; it has no upper-case letter |
| Startup.PairSymbolOfLongKey | main.go:40-42 | of a key with several `@` the second part counts, and of its slashes only the first becomes an underscore |
| Startup.AvaxUsdc | main.go:39-42 | the symbol of `joeswap@AVAX/USDC` is `avax_usdc` |
| Startup.EncodePair | main.go:40-42 | the step-by-step encoding, which panics exactly for a key without `@` |
| Startup.PairRoundTrip | core/node_mgr.go:234-235 | splitting that symbol for an order gives upper(A) and lower(B) back |
| Startup.FilledLastWins | main.go:22-30 | a filled map holds, for each index, the value of the last key with it |
| Startup.Invert | main.go:22-30 | the inversion loops: every address of the table, and for each the last name that has it |
| Startup.FindsItsOwn | main.go:22-45 | if no two keys share an index, every key finds its own value |
| Startup.OrderIsIrrelevant | main.go:22-45 | and then the map's iteration order does not matter |
| Startup.PairSymbolMap | main.go:38-45 | the pair map: its keys are the contracts in lower case, without upper-case letters, each with the symbol of a key that has it, the last one; or a panic exactly if a key has no `@` |
| Startup.EnemyMap | main.go:32-36 | the competitors' addresses, all of them, in lower case |
| Routing.SubjectFields | main.go:16-18 | the five fields of a subject, for every key |
| Routing.SubjectOfChain | main.go:16-18 | for a key `chain_rest` the fourth field is the chain and the fifth the whole key |
| Routing.SubjectRoundTrip | core/nats_sub.go:28-29 | field 4 of the subject of a key is the key exactly when it contains no dot |
| Routing.DottedKey | core/nats_sub.go:28-29 | a concrete key that is not recognised |
| Routing.SubjectsAreDistinct | main.go:15-19 | distinct keys without dots have distinct subjects |
| Routing.DispatchReachesItsProject | core/nats_sub.go:27-37 | a message reaches its own project's channel and no other exactly when the key has no dot; otherwise its own channel never sees it |
| Routing.EveryProjectGetsItsOwn | core/nats_sub.go:27-37 | of any sequence of messages every channel gets exactly its project's, in order |
| Routing.Receiver.Init | core/nats_sub.go:13-18 | one empty channel per configured project |
| Routing.Receiver.SignalMsgHandler | core/nats_sub.go:27-37 | one message: a panic if the subject has fewer than five fields, dropped for an unknown key, else appended to that key's channel |
| GoStrings.SplitJoin | core/nats_sub.go:28 | splitting loses nothing and no piece contains the separator |
| GoStrings.JoinSplit | core/nats_sub.go:28 | and it is the only such cutting: splitting inverts joining |
| GoStrings.ReplaceAround | main.go:17-18 | replacement works field by field when the pattern does not contain the separator |
| GoStrings.ToLowerChars | main.go:42 | lower-casing moves 'A' to 'Z' by 32 and changes nothing else |
| GoStrings.ToUpperChars | core/node_mgr.go:292 | upper-casing moves 'a' to 'z' by 32 and changes nothing else |
| GoStrings.CaseRoundTrip | core/node_mgr.go:292-293 | lower-casing loses nothing that upper- or lower-casing would keep |

## Left out

- WsConnection.WsConn.Reconnect: as a method it is the call in which no other goroutine gets a turn (it is proved to be one run of the transition system). For arbitrary interleavings the number of dials, the time slept, the outcome of failing dials and the mutex are in `WsDials.AtMostAHundredDials`, `WsDials.SleepOfEveryCall` and `WsDials.FailingDialsInAnyRun`.
- WsConnection.WsConn.CloseWs: likewise one undisturbed call; interleavings are in `WsClose.FirstCloseHasRoom` and `WsClose.LaterClose`. The same holds for the other methods of the class.
- WsStop.BothGoroutinesStop: fairness is stated on finite runs, as a bound in the number of skipped close cases; that Go's select skips a ready case only finitely often is not part of the model.
- Trade.Outbids: requires the fee to be in the range of uint64, because the conversion is undefined outside it; there the model says `Unspecified`.
- Startup.PairRoundTrip: letters are ASCII; case mapping of other alphabets is not modelled.
- GoStrings.CaseRoundTrip: likewise on ASCII letters, as are GoStrings.ToLowerChars and GoStrings.ToUpperChars.
- Sockets, TLS, proxies, dumps, logging, wall-clock time: dial, read and write results are nondeterministic, sleeps are counted. A read may even succeed after a local close.
- The pre-reconnect hook is a boolean; the post-reconnect hook enqueues one message, or is absent.
- `HeartbeatDataStream`, several frames per timer, and a heartbeat interval without data; a heartbeat is one frame. The panic of the websocket library after a thousand failed reads.
- Clients waiting for the mutex in `CloseWs` have no state of their own; one at a time is inside.
- The error handler of a reader without automatic reconnects; the error path of `Subscribe` when its event cannot be encoded.
- Weak memory: steps are sequentially consistent, and an expression that reads the header list twice is one step.
- JSON, ABI and RLP decoding: what decoding gives is part of the event. The uniswap branch prints and returns nothing.
- Floats are reals: amounts, prices and the scaled base price are exact, and the conversion truncates; a float out of the range of int64 is not modelled.
- The expiry time of hedges, the constant fields of an order, the decimal formatting of its value, the subject under which it is published.
- Branches for a cancelled context, the RPC wrappers of `core/ethwebsocket.go`, configuration, logger, builder setters, ABI constants, the message bus itself, nil headers and closed geth channels.
