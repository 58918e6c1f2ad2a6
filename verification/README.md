# Verified models of the Binance Futures gateway

The gateway connects trading clients to Binance Futures.  It is driven by events: objects keep their
state in fields, and every timer, message and connection event changes some of them.  This project
models its hardest parts in Dafny and proves what holds over every run:

- **Request correlation** (`Base64Url`, `WsapiRequest`, `WsapiParser`, `WsapiCorrelation`).  A request
  over the WebSocket API carries a 27-byte record, printed as a base64url id (alphabet of section 5 of
  RFC 4648, padding omitted as section 3.2 permits).  The exchange echoes the id and the parser picks the
  callback from it.  An id recorded from the exchange (`test/json_wsapi_order_cancel.cpp:20`) anchors the
  byte order, the offsets and the type numbers (`WsapiRequest.RecordedId`).
- **User streams** (`ListenKey`, `UserStream`, `UserStreamHistory`, `UserStreamRuns`,
  `UserStreamController`).  Listen keys are acquired,
  refreshed and forced; user streams are created, expire, disconnect, become zombies and are removed.
- **Download and stale orders** (`Download`, `StaleOrders`, `DownloadOrder`, `DownloadProgress`,
  `DownloadStranding`, `DownloadReady`, `DownloadStreams`).  The user stream drives the download, the
  order-entry stream serves its requests; they share latches, a set and a counter.
- **Symbol slices and stream merge** (`SymbolSlices`, `SymbolDelivery`, `SymbolStreams`, `StreamMerge`).
- **Text** (`MarketStreamParser`, `MarketStreamOrder`, `DecimalText`, `ExternalOrderId`, `UrlEncoder`, `UrlBodies`).
- **Fills and cancel-all** (`Fills`, `CancelAll`).

Each protocol is given twice.  A `State` with a `Step` per event and a `Run` over any sequence of events
carries the theorems.  Classes with the fields and loops of the gateway's objects refine it: the `ensures`
of a method equates the new state of the object with the step.  Ghost fields are histories (what was sent,
created, answered), not state of the gateway.

`dafny verify dfyconfig.toml` checks everything.

## Assumptions

The following helpers are not part of the repository.  Each is modelled by the contract stated here.

- Download sequencer: entering a state calls the callback; 0 moves on at once, 1 waits; checking the
  current state moves on; reset returns to the undefined state.  A retry changes nothing the model sees.
- Request latch: asking sets pending and clears the response; a pending request is sent once when it is
  granted; a commit sets the response.
- Rate-limited queue: first in, first out, with clear.
- Symbols: appending returns the number of slices and the old length; the slice of a stream from a
  position on is the part of its block from there.  The maximum per stream is positive.
- REST client: each request is answered by exactly one later callback, never during the call.
- WebSocket client: a socket that is up does not come up again before it has gone down.
- JSON scan: keys are visited in the order of the text, and the scan stops when its helper returns true;
  equal hashes of keys mean equal keys; a null id reads as the empty text.
- Base64 decoding fails on characters outside the alphabet.
- The clock is positive, never goes back, and is shared by all streams.
- Order management: which orders are stale, and which are found, are parameters of the events.

## Findings

Where the code does not do what one would expect, the model follows the code and states exactly when.

- An id of the reserved type "unknown" ends the scan of a WebSocket API reply, so that the position of an
  error key matters in this one case (`WsapiParser.OrderIndependence`, with an input in
  `WsapiParser.ReservedTypeHappens`).
- Over REST a listen key is published only when the stored one is empty.  So a removed user stream comes
  back exactly when the exchange answers with an empty key before the next one
  (`UserStream.ClassicRecovery`, with two runs in `UserStreamRuns.TwoRestRuns`).
- A batch of stale orders none of which is found, sent while no query is in flight, is never committed: the
  download waits until a new connection is made, and nothing else keeps it from ending READY
  (`DownloadStranding.StrandsExactly`, `DownloadStranding.StrandedRuns`, `DownloadStranding.StrandedDownload`,
  `DownloadReady.ReadyUnlessStranded`).
- A late reply to a request of an earlier connection can end a phase whose own request is still unsent
  (`DownloadProgress.AnsweredUnsentExactly`, with a run in `DownloadStranding.EarlyBalances`).  In the
  stale-order step the orders left waiting are passed over (`DownloadStranding.EarlyAnswer`,
  `DownloadStranding.EarlyAnswerHappens`).
- The market parser depends on the order of the keys exactly when two deciding keys disagree, of the message
  or of an object wrapped in it (`MarketStreamParser.OrderIndependence`, `MarketStreamOrder.OrderIndependence`).
- A value with an ampersand breaks the body it is part of, and nothing else does
  (`UrlEncoder.PlaceRoundTrip`, `UrlEncoder.CancelRoundTrip`).
- With lite trades as the source, a trade whose order is unknown when its lite trade arrives is never
  published, and every other trade exactly once (`Fills.EachTradeOnce`); the quantity published falls short by
  exactly that of the missed trades (`Fills.QuantityIsConserved`).
- A symbol with a hash sign breaks the way back from an external order id, but never makes two ids equal
  (`ExternalOrderId.RoundTrip`, `ExternalOrderId.CreateInjective`).

## Model

| member | source | states |
|---|---|---|
| `Base64Url.DecodeEncode` | src/roq/binance_futures/protocol/json/wsapi_request.cpp:30-39 | decoding the base64url text of any byte string whose length is divisible by three gives the bytes back |
| `Base64Url.EncodeDecode` | src/roq/binance_futures/protocol/json/wsapi_request.cpp:30-39 | a text decodes to some bytes if and only if these bytes encode to it: decodable texts and byte strings are in bijection |
| `Base64Url.EncodeShape` | src/roq/binance_futures/protocol/json/wsapi_request.cpp:30 | the text is four thirds as long, stays in the alphabet of section 5 of RFC 4648, and carries no padding |
| `Base64Url.AlphabetOfRfc4648` | src/roq/binance_futures/protocol/json/wsapi_request.cpp:30 | the digits are printed by the URL-safe table: capitals, small letters, figures, minus, underscore |
| `Base64Url.EncodeBlock` | src/roq/binance_futures/protocol/json/wsapi_request.cpp:30 | every block of three bytes is encoded on its own |
| `WsapiRequest.RoundTrip` | src/roq/binance_futures/protocol/json/wsapi_request.cpp:20-48 | the id of every record decodes to that record |
| `WsapiRequest.IdShape` | src/roq/binance_futures/protocol/json/wsapi_request.cpp:14-31 | every id has exactly 36 characters of the accepted alphabet and no padding |
| `WsapiRequest.ParseSucceeds` | src/roq/binance_futures/protocol/json/wsapi_request.cpp:34-39 | exactly the texts of 36 alphabet characters decode; every other length or character is an error |
| `WsapiRequest.Injective` | src/roq/binance_futures/protocol/json/wsapi_request.cpp:20-32 | two records share an id only if they are equal |
| `WsapiRequest.ReEncode` | src/roq/binance_futures/protocol/json/wsapi_request.cpp:29-47 | a decodable text is an id the gateway can produce if and only if its unused last byte is zero |
| `WsapiRequest.CopyInteger` | src/roq/binance_futures/protocol/json/wsapi_request.cpp:22-28 | copying an integer to an offset of the array writes its little-endian bytes there and nothing else |
| `WsapiRequest.Encode` | src/roq/binance_futures/protocol/json/wsapi_request.cpp:20-32 | filling the 27-byte array step by step yields the id of the record |
| `WsapiRequest.Decode` | src/roq/binance_futures/protocol/json/wsapi_request.cpp:34-48 | reading the array field by field yields the record, or the error for a wrong length or character |
| `WsapiParser.Dispatch` | src/roq/binance_futures/protocol/json/wsapi_parser.cpp:44-113 | the scan with its result and error flags and early stops makes exactly the calls, and ends exactly as, the fold over the keys |
| `WsapiParser.DispatchMeaning` | src/roq/binance_futures/protocol/json/wsapi_parser.cpp:44-113 | for distinct keys the outcome depends only on the id text and on whether an error key is present: one callback chosen by the id (ping included), or the general error, or a fatal end |
| `WsapiParser.UnknownTypeIsPositional` | src/roq/binance_futures/protocol/json/wsapi_parser.cpp:60-61 | with an id of the reserved type the general-error callback fires exactly when the error key stands before the id |
| `WsapiParser.ReservedTypeHappens` | src/roq/binance_futures/protocol/json/wsapi_parser.cpp:60-61 | an object with an id of the reserved type and an error key: the general-error callback fires in one order of the two keys and not in the other |
| `WsapiParser.OrderIndependence` | src/roq/binance_futures/protocol/json/wsapi_parser.cpp:46-113 | every rearrangement of an object has the same outcome if and only if the id is not of the reserved type or there is no error key |
| `WsapiParser.CallbacksAreTypeSpecific` | src/roq/binance_futures/protocol/json/wsapi_parser.cpp:56-98 | two known types share a callback only if they are equal or both concern the listen key; none maps to the general error |
| `WsapiParser.FirstIdDecides` | src/roq/binance_futures/protocol/json/wsapi_parser.cpp:46-98 | the first id of a known type other than a ping makes its one call, whatever follows, a second id included |
| `WsapiCorrelation.IdsAreDistinct` | src/roq/binance_futures/gateway/web_socket.cpp:927-1176 | the first 2^32 ids of a stream are pairwise distinct across sends of all kinds and reconnects, and the bound is exact |
| `WsapiCorrelation.EchoReachesCallback` | src/roq/binance_futures/protocol/json/wsapi_parser.cpp:52-104 | a message echoing the id of a record of known type, in any key order and with any other content, makes exactly the call for that record |
| `WsapiCorrelation.RepliesReachTheirSend` | src/roq/binance_futures/gateway/web_socket.cpp:1081-1176 | over every run, a reply echoing the i-th send reaches exactly one callback, the one that send expects, with its user, order and version; up to 2^32 sends no other send has that id |
| `WsapiCorrelation.SendsExactly` | src/roq/binance_futures/gateway/web_socket.cpp:1147-1156 | after every run: an order to place, modify or cancel is sent if and only if the stream has become ready and not been disconnected since, everything else always; a send takes the next 32-bit counter value, a refused one leaves counter and history alone |
| `WsapiCorrelation.SentRecords` | src/roq/binance_futures/gateway/web_socket.cpp:927-1176 | every send of every run has recorded the number of its type, the value of the counter, and for order actions only the user, the order and its version |
| `WsapiCorrelation.EchoByNumber` | src/roq/binance_futures/protocol/json/wsapi_parser.cpp:56-98 | an echoed id calls, for each of the twelve type numbers, exactly the callback of that number |
| `WsapiCorrelation.WebSocket.SendMessage` | src/roq/binance_futures/gateway/web_socket.cpp:927-1176 | a send takes the next counter value and returns its id; exactly an order action while not ready is refused, and changes nothing |
| `WsapiCorrelation.WebSocket.OnText` | src/roq/binance_futures/gateway/web_socket.cpp:1247-1260 | a message is handed to the parser; one that echoes the id of a send of this stream fires exactly the callback that send expects |
| `WsapiCorrelation.WebSocket.OnDisconnected` | src/roq/binance_futures/gateway/web_socket.cpp:262-269 | a disconnect only clears readiness; the counter and the history stay |
| `ListenKey.RefreshRate` | src/roq/binance_futures/gateway/web_socket.cpp:965-990 | for every interleaving of timers, replies, reconnects and forced refreshes consecutive pings are at least min(period, 10s) apart, and a window of length T holds at most 1 + T / min(period, 10s) of them |
| `ListenKey.ReadyInOrder` | src/roq/binance_futures/gateway/web_socket.cpp:303-392 | in both modes a stream is ready if and only if its socket came up, the log-on was confirmed (WebSocket API only) and a listen key arrived, in that order and all on the present connection |
| `ListenKey.DeadlineExactly` | src/roq/binance_futures/gateway/web_socket.cpp:133-140 | a stream has a refresh deadline if and only if it has received a status-200 reply; a forced refresh alone sets none |
| `ListenKey.WindowSpan` | src/roq/binance_futures/gateway/web_socket.cpp:973-977 | k pings inside a window span at least k - 1 gaps |
| `ListenKey.OrderEntry.ForceListenKeyRefresh` | src/roq/binance_futures/gateway/web_socket.cpp:133-140 | a forced refresh sets the deadline to now + 10s, and does nothing before the first key |
| `ListenKey.NextPing` | src/roq/binance_futures/gateway/web_socket.cpp:965-990 | from any state with a deadline, in any run: nothing has been sent if and only if nothing was due, and the next ping is sent at the first timer at which the stream is ready, has a key, and the deadline set last by a reply or a forced refresh has passed |
| `ListenKey.OrderEntry.RefreshListenKey` | src/roq/binance_futures/gateway/web_socket.cpp:965-990 | a ping is sent exactly when the stream is ready, has a key where it must, and the deadline has passed; the deadline then moves by the period |
| `ListenKey.OrderEntry.OnListenKey` | src/roq/binance_futures/gateway/web_socket.cpp:358-392 | a status-200 reply stores the key and re-arms the deadline; it is published every time over the WebSocket API, only the first time over REST |
| `UserStream.Safety` | src/roq/binance_futures/gateway/controller.cpp:167-189 | in every reachable state the map has exactly the accounts as keys with at most one stream each, zombies are exactly the streams gone after key expiry, none of these ever got a timer, both fatals are unreachable, a live stream implies an armed deadline, and streams created are those removed plus those alive |
| `UserStream.StepKeepsInv` | src/roq/binance_futures/gateway/controller.cpp:326-357 | every event keeps that invariant |
| `UserStream.RemoveOneMore` | src/roq/binance_futures/gateway/controller.cpp:171-186 | the zombies can be removed one at a time, in any order, with the same result |
| `UserStream.TimerStep` | src/roq/binance_futures/gateway/controller.cpp:167-192 | zombies are removed before the timer is passed on, so no stream that is gone gets it |
| `UserStream.ReapingArmsTheRefresh` | src/roq/binance_futures/gateway/controller.cpp:171-186 | removing a zombie empties its slot and sets the next refresh to exactly ten seconds later, whatever else the timer does |
| `UserStream.Recovery` | src/roq/binance_futures/gateway/controller.cpp:342-357 | WebSocket API: after removal the slot stays empty, whatever happens, until the next status-200 listen-key reply, which creates exactly one stream, with that key and a later number (up to 2^16, a larger id) than every stream alive at the removal |
| `UserStream.CreatedIsNewest` | src/roq/binance_futures/gateway/controller.cpp:350-355 | a stream created at the end of a run has a later number (up to 2^16, a larger id) than every stream alive at any moment of the run |
| `UserStream.SessionIsARun` | src/roq/binance_futures/gateway/controller.cpp:167-192 | in every run of the controller the session of an account is exactly a run of the order-entry stream over the events that reach it, on a clock that never goes back |
| `UserStream.ControllerRefreshRate` | src/roq/binance_futures/gateway/web_socket.cpp:965-990 | the rate bound of the pings holds for every account in every run of the controller, with all its forced refreshes |
| `UserStream.ForcedPing` | src/roq/binance_futures/gateway/web_socket.cpp:133-140 | after a removal, in every run of the controller: the account's next ping is sent at the first timer its stream gets at which it is ready, has a key, and the deadline set last (ten seconds after a removal, a period after a status-200 reply) has passed, and none is sent before |
| `UserStream.SlotStaysEmpty` | src/roq/binance_futures/gateway/controller.cpp:342-357 | over any run without a status-200 listen-key reply of the account an empty slot stays empty |
| `UserStream.ClassicRecovery` | src/roq/binance_futures/gateway/order_entry_classic.cpp:424-443 | REST: after any run that leaves an account without a stream, the next status-200 reply creates one if and only if its key is not empty and the last such reply before it, if any, carried an empty key; an account that has had a stream has had a reply |
| `UserStream.ClassicStreamsAreBounded` | src/roq/binance_futures/gateway/order_entry_classic.cpp:427-441 | REST: an account never has more streams than replies with an empty key, plus one if its stored key is not empty |
| `UserStreamRuns.TwoRestRuns` | src/roq/binance_futures/gateway/order_entry_classic.cpp:427-441 | REST: a run in which the key after the removal creates nothing, and one in which an empty key in between brings a second stream |
| `UserStreamRuns.WsapiComeback` | src/roq/binance_futures/gateway/controller.cpp:170-186 | WebSocket API: a run in which a stream is created, expires and is removed; ten seconds later a ping is sent, whose reply brings the second stream with the new key |
| `UserStreamController.Controller.OnTimer` | src/roq/binance_futures/gateway/controller.cpp:167-192 | the loops over the zombie set and over all streams, on the objects, are one step of the protocol |
| `UserStreamController.Controller.CreateDropCopy` | src/roq/binance_futures/gateway/controller.cpp:342-357 | a published key creates a stream object with the next 16-bit stream id exactly if the slot is empty |
| `UserStreamController.Controller.OnSession` | src/roq/binance_futures/gateway/web_socket.cpp:358-392 | an event of an order-entry object, with the stream it may create, is one step of the protocol |
| `UserStreamController.Controller.OnKeyExpired` | src/roq/binance_futures/gateway/drop_copy_classic.cpp:119-125 | key expiry marks the stream of the account as stopped and changes nothing else |
| `UserStreamController.Controller.OnDisconnected` | src/roq/binance_futures/gateway/drop_copy_classic.cpp:197-208 | a disconnect makes the account a zombie exactly if its stream is stopped |
| `UserStreamHistory.StoppedExactly` | src/roq/binance_futures/gateway/drop_copy_classic.cpp:119-125 | after every run a user stream is stopped if and only if its key has expired since it was created |
| `UserStreamHistory.ZombiesExactly` | src/roq/binance_futures/gateway/drop_copy_classic.cpp:197-208 | after every run an account is a zombie if and only if its present stream saw its key expire and was disconnected later, with no timer of the controller since |
| `UserStreamHistory.StaysUnlessLost` | src/roq/binance_futures/gateway/controller.cpp:170-186 | a stream that is there at some moment of a run is there at its end unless a timer in between found it disconnected after key expiry |
| `UserStreamHistory.StaysWithoutExpiry` | src/roq/binance_futures/gateway/drop_copy_classic.cpp:197-208 | in a run without key expiry of an account its stream is never removed or replaced, whatever else happens |
| `UserStreamHistory.LookupsSucceed` | src/roq/binance_futures/gateway/controller.cpp:170-186 | in every reachable state the lookups of the removal and of the listen-key update find their account, and a stream is gone exactly if its account is a zombie |
| `UserStreamHistory.NoTimerForTheGone` | src/roq/binance_futures/gateway/controller.cpp:167-192 | after the removal of a timer no account is a zombie and no stream that is left is gone |
| `UserStreamHistory.PingsAtTimersOnly` | src/roq/binance_futures/gateway/web_socket.cpp:965-990 | the pings of an account change only at timers of the controller for which its connection is up |
| `StaleOrders.StaleOrdersAreConserved` | src/roq/binance_futures/gateway/order_entry_classic.cpp:750-758 | over every run the counter equals the order queries in flight, never underflows, and every stale order discovered is waiting, in flight, answered or not found, as often as it was discovered |
| `StaleOrders.CommitsOnLastReply` | src/roq/binance_futures/gateway/order_entry_classic.cpp:750-758 | an order reply commits the batch exactly when it answers the last query in flight |
| `StaleOrders.NoUnderflow` | src/roq/binance_futures/gateway/order_entry_classic.cpp:1446-1463 | in every reachable state the counter is the number of queries in flight, so a reply never finds it at zero |
| `StaleOrders.RequestsAreConserved` | src/roq/binance_futures/gateway/order_entry_classic.cpp:1446-1465 | over every run the requests of a topic -- one for each time it was pending and granted, for trades one per symbol -- are those answered and those outstanding |
| `StaleOrders.ChaseKeepsBooks` | src/roq/binance_futures/gateway/order_entry_classic.cpp:1450-1461 | sending a batch moves every waiting order to in flight or not found and counts exactly the former |
| `StaleOrders.DiscoverKeepsBooks` | src/roq/binance_futures/gateway/drop_copy_classic.cpp:645-668 | discovering stale orders adds exactly those not yet waiting |
| `StaleOrders.PollingAsks` | src/roq/binance_futures/gateway/drop_copy_classic.cpp:594-678 | while ready, balances are asked for when due, stale orders exactly when the check is due and finds one that is not waiting, and nothing else changes |
| `DownloadOrder.DownloadIsOrdered` | src/roq/binance_futures/gateway/drop_copy_classic.cpp:242-284 | in every reachable state the phases entered on this connection are the first ones in strictly increasing order, and READY is published only after balances, positions and open orders (then stale orders and trades, where waited for) were asked for and then answered, in that order; whose request an answer belongs to is the subject of AnsweredUnsentExactly |
| `DownloadProgress.AnsweredUnsentExactly` | src/roq/binance_futures/gateway/drop_copy_classic.cpp:606-643 | a phase that has just asked can be answered before its own request is sent if and only if an answer for its topic was already on its way |
| `DownloadOrder.StepIsTracked` | src/roq/binance_futures/gateway/drop_copy_classic.cpp:606-643 | every event keeps the order of the download, including requests and replies of earlier connections |
| `DownloadOrder.WaitsForStaleOrders` | src/roq/binance_futures/gateway/drop_copy_classic.cpp:261-269 | the stale-order step waits if and only if there are stale orders right after the open orders are answered |
| `DownloadProgress.DownloadCompletes` | src/roq/binance_futures/gateway/drop_copy_classic.cpp:606-643 | a run without reconnects, in any interleaving, in which again and again some event happens that the current phase is waiting for ends READY, at the latest after as many such pieces as the rank says |
| `DownloadProgress.HelpIsUsedUp` | src/roq/binance_futures/gateway/drop_copy_classic.cpp:606-643 | on one connection the rank that is left and the helpful events so far never exceed the rank at the start |
| `DownloadProgress.EveryPhaseIsServed` | src/roq/binance_futures/gateway/order_entry_classic.cpp:1446-1463 | in every reachable state what a phase waits for (stale orders apart) is answered, about to be sent, or on its way |
| `DownloadProgress.RankShrinks` | src/roq/binance_futures/gateway/drop_copy_classic.cpp:606-643 | no event enlarges the rank and every helpful event makes it smaller |
| `DownloadStranding.HelpIsPossibleUnlessStuck` | src/roq/binance_futures/gateway/order_entry_classic.cpp:1446-1463 | in a waiting phase some event can help, exactly unless a batch was sent, none of its orders was found and nothing is in flight |
| `DownloadStranding.StrandsExactly` | src/roq/binance_futures/gateway/order_entry_classic.cpp:1450-1461 | of all events in all reachable states exactly one kind strands a download: a timer that sends a batch of stale orders none of which is found while no query is in flight |
| `DownloadStranding.StrandedRuns` | src/roq/binance_futures/gateway/order_entry_classic.cpp:1450-1461 | after any run the download is stranded if and only if such a timer occurred and the connection has been the same since |
| `DownloadStranding.StrandedDownload` | src/roq/binance_futures/gateway/order_entry_classic.cpp:1453-1460 | a first connection that finds one stale order unknown to the order management ends stranded |
| `DownloadStranding.EarlyAnswerHappens` | src/roq/binance_futures/gateway/drop_copy_classic.cpp:628-635 | a run in which the reply to an order of the first connection ends the stale-order step of the second, whose own order is still waiting |
| `DownloadStranding.StuckForever` | src/roq/binance_futures/gateway/order_entry_classic.cpp:1450-1461 | a stranded download stays stranded in every run without a new connection |
| `DownloadReady.ReadyUnlessStranded` | src/roq/binance_futures/gateway/drop_copy_classic.cpp:606-643 | after any run that leaves the user stream connected, some continuation on the same connection ends READY if and only if the download has not been stranded on it |
| `DownloadReady.FairRunsExist` | src/roq/binance_futures/gateway/drop_copy_classic.cpp:606-643 | from every state that is not stranded there are runs of any number of pieces that each help the phase they find |
| `DownloadReady.WholeDownloadIsReady` | src/roq/binance_futures/gateway/drop_copy_classic.cpp:242-284 | a concrete first connection without stale orders ends READY, with and without the download of trades |
| `DownloadReady.TradesExactly` | src/roq/binance_futures/gateway/drop_copy_classic.cpp:268-280 | without stale orders the download is READY after the open orders if and only if no look-back is set or there are no symbols |
| `DownloadStranding.EarlyBalances` | src/roq/binance_futures/gateway/drop_copy_classic.cpp:606-613 | a run in which the reply to the balance request of a lost connection ends the first phase of the next one while its own request is still unsent |
| `DownloadStranding.EarlyAnswer` | src/roq/binance_futures/gateway/drop_copy_classic.cpp:628-635 | a reply to an earlier batch ends the step exactly if it is the last in flight, and the warning about waiting orders fires exactly if the present batch is still unsent |
| `Download.TimerSends` | src/roq/binance_futures/gateway/order_entry_classic.cpp:1446-1463 | a timer sends exactly what is pending and granted, each request once (trades once per symbol), and the waiting orders as one batch |
| `DownloadStreams.DropCopyClassic.EnterPhase` | src/roq/binance_futures/gateway/drop_copy_classic.cpp:242-284 | the loop that leaves phases whose callback returns 0 enters the phase the recursion says |
| `DownloadStreams.DropCopyClassic.FindStaleOrders` | src/roq/binance_futures/gateway/drop_copy_classic.cpp:645-668 | the insertions, in any order, discover the reported orders; the result tells whether one was new |
| `DownloadStreams.DropCopyClassic.OnTimer` | src/roq/binance_futures/gateway/drop_copy_classic.cpp:137-146 | a timer checks the download first and polls only when ready |
| `DownloadStreams.OrderEntryClassic.ChaseStaleOrders` | src/roq/binance_futures/gateway/order_entry_classic.cpp:1450-1461 | the loop over the waiting set counts and queries the known orders and clears the set |
| `DownloadStreams.OrderEntryClassic.OnTimer` | src/roq/binance_futures/gateway/order_entry_classic.cpp:1446-1463 | checking the latches one after the other is the timer step |
| `DownloadStreams.OrderEntryClassic.OnOrderReply` | src/roq/binance_futures/gateway/rest_trade.cpp:480-491 | the counter is decremented, with the underflow branch as written, and zero commits |
| `SymbolSlices.SubscriptionsAreComplete` | src/roq/binance_futures/gateway/controller.cpp:284-297 | after every interleaving of symbol updates, stream creation, connects, disconnects and timers: symbols are distinct, every enabled layer has one stream per slice, and what a ready stream i sent on its connection or has queued subscribes, per channel, exactly slice i, once each and in order |
| `SymbolDelivery.ReadyExactly` | src/roq/binance_futures/gateway/market_data.cpp:173-189 | after every run a stream is ready if and only if its socket came up after it was created and has not gone down since |
| `SymbolDelivery.LayersExactly` | src/roq/binance_futures/gateway/controller.cpp:284-297 | after every run the first and third layer, and the second if it is enabled, have the least number of streams that hold all symbols |
| `SymbolDelivery.SymbolsExactly` | src/roq/binance_futures/gateway/rest.cpp:438-455 | after every run the symbols are exactly those a client asked for or the exchange listed without being discarded, in lower case, and they keep their places |
| `SymbolDelivery.ChannelsExactly` | src/roq/binance_futures/gateway/market_data_2.cpp:492-513 | each layer subscribes exactly the channels its settings ask for, in this order |
| `SymbolDelivery.TickSends` | src/roq/binance_futures/gateway/market_data.cpp:117-123 | a timer of a ready stream sends as many messages from the front of its queue as are allowed; a stream that is not ready sends nothing |
| `SymbolDelivery.QueueIsSent` | src/roq/binance_futures/gateway/market_data.cpp:400-403 | after every run, once a stream that stays connected gets timers whose allowances add up to its queue, the queue is empty and what was sent on the connection subscribes, on each of its channels, exactly its slice |
| `SymbolSlices.SlicesPartition` | src/roq/binance_futures/gateway/controller.cpp:359-389 | the slices partition the symbols in order; none is empty and none exceeds the maximum |
| `SymbolSlices.SliceGrows` | src/roq/binance_futures/gateway/market_data.cpp:167-171 | appending symbols appends to every slice exactly its part of the new ones |
| `SymbolSlices.UpdateCovers` | src/roq/binance_futures/gateway/market_data.cpp:405-420 | an incremental subscription extends the coverage of a ready stream from the old slice to the new one |
| `SymbolSlices.ReadyCovers` | src/roq/binance_futures/gateway/market_data.cpp:178-189 | a reconnected stream covers its whole slice again, since the disconnect cleared its queue |
| `SymbolSlices.TimerCovers` | src/roq/binance_futures/gateway/market_data_2.cpp:487-490 | sending any part of the queue keeps the coverage |
| `SymbolSlices.UnseenIsFresh` | src/roq/binance_futures/gateway/rest.cpp:440-448 | deduplication yields distinct symbols, none seen before, and loses none |
| `SymbolStreams.Symbols.Emplace` | src/roq/binance_futures/gateway/rest.cpp:440-448 | the loop over the exchange info keeps exactly the unseen symbols, in order of first appearance |
| `SymbolStreams.MarketStream.SubscribeSymbols` | src/roq/binance_futures/gateway/market_data_2.cpp:492-513 | one message per channel of the stream's layer, in order, and none for an empty slice |
| `SymbolStreams.MarketStream.OnTimer` | src/roq/binance_futures/gateway/market_data.cpp:400-403 | the queue is sent from the front while the rate limiter allows it |
| `SymbolStreams.Controller.EnsureSlices` | src/roq/binance_futures/gateway/controller.cpp:359-389 | the while loop adds exactly the missing streams and keeps the others |
| `SymbolStreams.Controller.OnSymbolsUpdate` | src/roq/binance_futures/gateway/controller.cpp:284-297 | updating the three vectors of stream objects is the update of the protocol |
| `SymbolStreams.Controller.OnExchangeInfo` | src/roq/binance_futures/gateway/rest.cpp:344-468 | discarded symbols are skipped, the others lower-cased and deduplicated, and an update follows only if one is new |
| `SymbolStreams.Controller.OnClientSubscribe` | src/roq/binance_futures/gateway/controller.cpp:197-211 | a client subscription deduplicates against the same set and always updates |
| `SymbolStreams.Controller.OnStreamInput` | src/roq/binance_futures/gateway/market_data.cpp:178-189 | connects, disconnects and timers of one stream leave all other streams as they were |
| `StreamMerge.PublishedIffNewest` | src/roq/binance_futures/gateway/shared.hpp:56-78 | an update is let through if and only if its id is not negative and no earlier offer for the same symbol and feed was newer |
| `StreamMerge.WatermarkIsMaximum` | src/roq/binance_futures/gateway/shared.hpp:56-78 | a watermark is the largest id offered so far, and never below zero |
| `StreamMerge.PublishedAscends` | src/roq/binance_futures/gateway/market_data.cpp:273-299 | the ids published for a symbol never decrease and the last is the largest ever offered; nothing is published exactly if all ids were negative |
| `StreamMerge.BooksAreIndependent` | src/roq/binance_futures/gateway/market_data.cpp:273-299 | what is published for one symbol and feed depends only on the offers for it |
| `StreamMerge.Shared.OnUpdate` | src/roq/binance_futures/gateway/market_data.cpp:273-282 | looking up the instrument, creating it on first use, and testing its watermark publishes exactly what the rule says |
| `StreamMerge.Instrument.TobUpdate` | src/roq/binance_futures/gateway/shared.hpp:63-69 | the top-of-book watermark moves exactly when the update is accepted |
| `StreamMerge.Instrument.MbpUpdate` | src/roq/binance_futures/gateway/shared.hpp:71-77 | the depth watermark moves exactly when the update is accepted |
| `MarketStreamParser.Dispatch` | src/roq/binance_futures/protocol/json/market_stream_parser.cpp:32-144 | the nested loops with early returns and one recursive call compute the outcome of two passes; the recursion ends because a payload is part of its message |
| `MarketStreamParser.TwoPassesSuffice` | src/roq/binance_futures/protocol/json/market_stream_parser.cpp:38-41 | any number of passes from two on, made at every level of nesting, has the same outcome as two |
| `MarketStreamParser.MessageMeaning` | src/roq/binance_futures/protocol/json/market_stream_parser.cpp:41-144 | distinct keys in any order, one of which says something: an error or a result is handed over with the request id, an event with its kind and the object it was found in, a wrapped message makes exactly its own calls, and unknown, user-stream, expired-key and broken keys end as the code says |
| `MarketStreamParser.NothingSaid` | src/roq/binance_futures/protocol/json/market_stream_parser.cpp:130-144 | a message that says nothing ends the process |
| `MarketStreamParser.OutcomeIsAVerdict` | src/roq/binance_futures/protocol/json/market_stream_parser.cpp:41-144 | for distinct keys the outcome is the verdict of a deciding field, or a fatal end if there is none |
| `MarketStreamParser.OrderIndependence` | src/roq/binance_futures/protocol/json/market_stream_parser.cpp:38-144 | every rearrangement of an object has the same outcome if and only if all its deciding fields have the same verdict |
| `MarketStreamOrder.OrderIndependence` | src/roq/binance_futures/protocol/json/market_stream_parser.cpp:38-144 | for distinct keys at every level: every rearrangement of a message, of its own keys and of those of the objects wrapped in it, has the same outcome if and only if at every level all deciding fields agree on what is seen from the outside |
| `DecimalText.ParsePrint` | src/roq/binance_futures/gateway/utils.hpp:18 | a printed number parses back and consists of digits and a sign only |
| `DecimalText.PrintOfValue` | src/roq/binance_futures/gateway/utils.hpp:18 | every digit text without leading zeros is the print of its value |
| `ExternalOrderId.RoundTrip` | src/roq/binance_futures/protocol/json/utils.cpp:42-48 | the order id comes back from the external id as its decimal text if and only if the symbol has no hash sign |
| `ExternalOrderId.CreateInjective` | src/roq/binance_futures/gateway/utils.hpp:15-20 | distinct pairs of symbol and order id have distinct external ids, whatever the symbols contain |
| `ExternalOrderId.CreateExternalOrderId` | src/roq/binance_futures/gateway/utils.hpp:15-20 | clearing and appending to the reused buffer leaves exactly the external id in it |
| `ExternalOrderId.GetOrderId` | src/roq/binance_futures/protocol/json/utils.cpp:42-48 | the search finds what follows the first hash sign, or the whole text |
| `UrlEncoder.ParseBody` | src/roq/binance_futures/protocol/json/encoder.cpp:56-113 | splitting a printed body on ampersands and then at the first equals sign gives back the pairs, in order, if and only if no value contains an ampersand; no segment is empty then |
| `UrlEncoder.PlaceRoundTrip` | src/roq/binance_futures/protocol/json/encoder.cpp:56-113 | a new-order body, for every order type and combination of optional fields, splits into exactly the intended fields with distinct keys, each key reading as what the order says or as nothing, if and only if no text of the order contains an ampersand |
| `UrlEncoder.CancelRoundTrip` | src/roq/binance_futures/protocol/json/encoder.cpp:195-212 | the same if-and-only-if for a cancel body, with and without an exchange id |
| `UrlEncoder.FullRoundTrip` | src/roq/binance_futures/protocol/json/encoder.cpp:129-149 | the same if-and-only-if for the full modify body |
| `UrlEncoder.PartialRoundTrip` | src/roq/binance_futures/protocol/json/encoder.cpp:150-187 | the same if-and-only-if for an accepted partial modify body |
| `UrlEncoder.ModifyEncodingsAgree` | src/roq/binance_futures/protocol/json/encoder.cpp:117-191 | whenever the partial form is accepted, reading it over the order gives the same quantity and price as the full form, and it is refused if and only if that target differs from the order in both numbers or in neither |
| `UrlBodies.PlaceReads` | src/roq/binance_futures/protocol/json/encoder.cpp:56-113 | the exchange reads from a new-order body, under each name of its interface, exactly the words, texts and numbers of the order, and nothing under the names that do not apply |
| `UrlBodies.FullReads` | src/roq/binance_futures/protocol/json/encoder.cpp:129-149 | the full modify body carries the ids, the side and both numbers, those asked for or else the order's own |
| `UrlBodies.PartialReads` | src/roq/binance_futures/protocol/json/encoder.cpp:150-187 | the partial modify body carries the one number that is asked for and differs; otherwise the request is refused |
| `UrlBodies.CancelReads` | src/roq/binance_futures/protocol/json/encoder.cpp:195-212 | the cancel body carries the symbol, the ids and the window, and neither side nor numbers |
| `UrlEncoder.OrderPlaceUrl` | src/roq/binance_futures/protocol/json/encoder.cpp:56-113 | appending to the caller's buffer step by step leaves the body in it |
| `UrlEncoder.OrderModifyUrl` | src/roq/binance_futures/protocol/json/encoder.cpp:117-191 | both forms leave their body in the buffer; a refused request leaves it empty |
| `UrlEncoder.OrderCancelUrl` | src/roq/binance_futures/protocol/json/encoder.cpp:195-212 | the cancel body is left in the buffer |
| `Fills.EachTradeOnce` | src/roq/binance_futures/gateway/drop_copy_classic.cpp:496-561 | for every interleaving in which each trade is announced once in each way: exactly one published fill has the symbol and printed id of the trade, with the trade's own side, quantity, price and maker flag -- always from order updates; from lite trades if and only if its order is found when the lite trade arrives, and otherwise there is none |
| `Fills.OnlyTradesArePublished` | src/roq/binance_futures/gateway/drop_copy_classic.cpp:341-561 | in every such interleaving every published fill is, field by field, that of an announced trade |
| `Fills.AllTradesOnce` | src/roq/binance_futures/gateway/drop_copy_classic.cpp:341-387 | all trades are published exactly once: always from order updates, and from lite trades if and only if every order is found |
| `Fills.QuantityIsConserved` | src/roq/binance_futures/gateway/drop_copy_classic.cpp:341-561 | in every such interleaving, also when only some orders are found, the published quantity and the quantity of the missed lite trades add up to the quantity of the trades |
| `Fills.EveryOrderIsUpdated` | src/roq/binance_futures/gateway/drop_copy_classic.cpp:288-340 | under both settings every order update is passed on once, in order of arrival |
| `Fills.PublishesOneKind` | src/roq/binance_futures/gateway/drop_copy_classic.cpp:341-387 | each setting publishes exactly one of the two announcements, in order of arrival |
| `Fills.DropCopyClassic.OnOrderTradeUpdate` | src/roq/binance_futures/gateway/drop_copy_classic.cpp:288-387 | the order update is always published, the fill only for trades and without the lite setting |
| `Fills.DropCopyClassic.OnTradeLite` | src/roq/binance_futures/gateway/drop_copy_classic.cpp:496-561 | a lite trade is published only with the lite setting and if its order is found |
| `CancelAll.CancelAllCovers` | src/roq/binance_futures/gateway/order_entry_classic.cpp:1309-1353 | after any run a cancel-all sends exactly one DELETE for every known symbol that passes the filter, none for others, and one FORWARDED acknowledgement for each |
| `CancelAll.KnownSymbols` | src/roq/binance_futures/gateway/order_entry_classic.cpp:920-927 | the known symbols are exactly those of an order ever placed while ready or downloaded with a client id; disconnects forget none |
| `CancelAll.OrderEntryClassic.CancelAllOrders` | src/roq/binance_futures/gateway/order_entry_classic.cpp:1309-1353 | in any order of the set and ready or not, exactly one DELETE for every symbol that an event of the history made known and that passes the filter, none for others, and one acknowledgement for each |
| `CancelAll.OrderEntryClassic.OnOpenOrders` | src/roq/binance_futures/gateway/order_entry_classic.cpp:622-630 | the download adds the symbols of orders with a client id and no others |
| `CancelAll.OrderEntryClassic.PlaceOrder` | src/roq/binance_futures/gateway/order_entry_classic.cpp:920-927 | an order is refused while not ready and then makes nothing known |

## Left out

- PlaceRoundTrip: quantities and prices are exact whole numbers of the smallest increment, because the
  rounding and printing of decimals is not part of this model.
- ModifyEncodingsAgree: compares exact numbers where the code compares floating-point numbers with a
  tolerance, and the order's own quantity and price are numbers, never missing.
- MarketStreamParser.Dispatch: numeric ids of market messages are integers; an id of another JSON type, which ends in an
  exception, is not modelled, and unknown keys are ignored as in a release build.
- SubscriptionsAreComplete: request ids of subscriptions, the asset-index and liquidation channels and the
  queue of historical bars are not modelled; the channels of one layer are.
- PublishedIffNewest: for depth updates "published" means handed to the sequencer, which is an opaque
  callee, as is the local order book.
- DownloadCompletes: throttling and the readiness of the order-entry stream appear as timers that grant
  nothing or do not occur; the bound on the backlog is a parameter of the run.
- RepliesReachTheirSend: the content of a callback other than the record it carries is not modelled.
- Recovery: the sixteen-bit stream id is compared only until it wraps.
- The portfolio variants of the order-entry and user streams, near copies of the classic pair.
- Cancel-all and open orders in WebSocket API mode, whose symbol set is fed by the open-orders download
  only; the WebSocket stream itself ends the process on cancel-all.
- `RestTrade` as an object: in WebSocket API mode it serves open orders, stale orders and trades beside the
  WebSocket stream; its stale-order counter is the code modelled here for the classic stream.
- The countdown auto-cancel and the trade download of `RestTrade`, both disabled in the code.
- Depth snapshots over REST and the shared scratch buffers for book updates.
- Account, balance and position translation, enum tables, error guessing, signatures, statistics.
- Sockets, TLS, HTTP, logging, metrics, flags and configuration files.
