# Vortex HTTP/3: a verified model

This project models the part of Vortex that is hardest to get right by reading it: the
C++ shim between the HTTP/3 server and the ngtcp2 and nghttp3 libraries, together with
the byte-level protocols of the load client that drives it. It proves what holds over
every sequence of library callbacks, timer expiries and application calls, not only what
one function does.

`dafny verify dfyconfig.toml` checks everything.

## Layout

| file | what it holds |
|---|---|
| `Common.dfy` | optional results, byte strings, concatenation of chunks |
| `ResponseBody.dfy` | the response body queue, as values and as the class `Body` |
| `StreamSend.dfy` | nghttp3's data callback, and one stream's sending side as a step machine |
| `StreamHistory.dfy` | a stream's sending side against what its steps say: bytes, flags, sums |
| `Connection.dfy` | one connection as a step machine: callbacks, write loop, application calls |
| `ConnectionRuns.dfy` | what every run of a connection keeps |
| `SendHistory.dfy` | every stream of a connection against the run of the connection |
| `CloseHistory.dfy` | close flags, close code and record of a connection against its run |
| `CreditHistory.dfy` | the connection's counters as sums over its run |
| `ConnObject.dfy` | the connection object with fields updated in place, proved against those steps |
| `Engine.dfy`, `EngineRuns.dfy` | the engine: routing table, connection list, pump and reap; what every run keeps |
| `EngineHistory.dfy` | the engine's list and routes against its steps; every connection as a run |
| `EngineObject.dfy` | the engine object over connection objects, changed in place, proved against the engine's steps |
| `TicketKeys.dfy` | session-ticket keys shared by all threads |
| `TlsReload.dfy` | certificate reload as a transaction |
| `Sni.dfy` | host matching and context selection |
| `SplitMix.dfy` | the worker allocator of the load client |
| `WebSocket.dfy` | WebSocket frame printer and parser |
| `Sse.dfy` | event-stream reading and the resume protocol with the Go server |
| `Pattern.dfy` | the deterministic payload generator on both sides |

## How the machines are set up

ngtcp2, nghttp3, TLS, the clock and the random generator are the environment. A step
carries what they answered, and a `Legal` predicate says which answers they can give:
acknowledgements do not run ahead of what was handed out, each received byte is reported
once, the peer keeps to the limits it was given, a stream is refused for flow control only
when its window is used up, fresh ticket-key names are new. What the shim itself guards is
never part of `Legal`: every call into nghttp3 carries its own guard at its own place, and
so does the receive path for connections that are ending. A run is a list of legal steps
from a fresh state, and the main results quantify over all runs.

Where the source updates an object in place, a class with the same fields has methods
whose contract is "the new state is the specification step applied to the old one"; the
results about runs then speak about those specification steps.

The invariants say what never goes wrong. That the right thing happens is said by the
history modules: a function of the steps alone tells what was written, finished or
acknowledged, which step gave the first reason to close and which one had to send the
close packet, what each stream was credited, which connection an ID was handed out by; and
the state after every run is shown to be exactly that.

## Findings

- Ticket window. With a working generator the closed window [t, t + lifetime] holds when t
  is the clock the sealing thread read (`TicketKeys.TicketOpensForALifetime`). Opening is
  guaranteed exactly before the deadline max(end of the seal, birth of its key + lifetime) +
  lifetime, and can fail at the deadline and at any time after it
  (`TicketKeys.OpensExactlyBeforeDeadline`). Counted from the end of the sealing section
  instead, the closed window is guaranteed exactly when the section ended before its key was
  due (`TicketKeys.ClosedWindowFromTheEndIff`), which a long section can miss
  (`TicketKeys.SealingSectionCanOutlastItsKey`).
- Lost response bytes. Queued bytes can be left that no continuation ever hands to nghttp3.
  That is so exactly when a non-empty write came after nghttp3 was told the body ended, or
  when nghttp3 refused the response, which the shim does not look at, and any bytes were
  queued (`StreamSend.LostExactlyWhen`). In every other case a submission that is taken, some
  window and one read hand out more, with no further write. A write after finish but before
  the end was read still goes out.
- Worker allocator. Its documentation promises that the total is the budget as soon as one
  request-shaped slice is present. The code hands out less when all those weights are zero
  (`SplitMix.ZeroWeightsFallShort`, `SplitMix.TotalIsBudgetIff`). Parsing the mix drops zero
  weights, so the promise holds for parsed mixes.
- WebSocket receive call. It returns the first frame of a parse and deletes the bytes of all
  of them, so frames are lost exactly when one chunk completes two
  (`WebSocket.RecvKeepsEveryFrameIff`).

## Model

| member | source | states |
|---|---|---|
| ResponseBody.BodyRefinesByteString | src/vortex/http3/ngtcp2/vq_ngtcp2.cpp:88-122 | for every interleaving of push, next and ack, the runs handed out are the first `handed` bytes of everything pushed, each run is one whole pushed chunk, and the backlog is pushed minus handed |
| ResponseBody.BorrowedChunksRetained | src/vortex/http3/ngtcp2/vq_ngtcp2.cpp:115-120 | after every run the queue is exactly the pushed chunks not wholly acknowledged, unchanged and in order, so at most the front one is partly acknowledged |
| ResponseBody.Body.PushChunk | src/vortex/http3/ngtcp2/vq_ngtcp2.cpp:95-98 | the queue object after a push, empty chunks not queued |
| ResponseBody.Body.NextRun | src/vortex/http3/ngtcp2/vq_ngtcp2.cpp:100-114 | the loop over the deque returns the run and state of the specified hand-out |
| ResponseBody.Body.AckTo | src/vortex/http3/ngtcp2/vq_ngtcp2.cpp:115-120 | the loop drops exactly the chunks wholly below the acknowledged offset |
| StreamSend.ReadDataMeans | src/vortex/http3/ngtcp2/vq_ngtcp2.cpp:394-411 | one data callback hands out the next pushed chunk, or answers end of body when finished and would-block otherwise; the end flag comes with the last chunk of a finished body |
| StreamHistory.EofIsExact | src/vortex/http3/ngtcp2/vq_ngtcp2.cpp:394-411 | in every run, once nghttp3 took the response and the body is finished, whatever follows apart from further writes (acknowledgements, trailers, packets, parking, waking up), the remaining n chunks come out one per read, no read says would-block, the end is signalled by read max(n,1) and by no earlier one, with NO_END_STREAM exactly when trailers were submitted after the head and taken by nghttp3 by then (section 4.1 of RFC 9114) |
| StreamHistory.HandsOutWhatWasWritten | src/vortex/http3/ngtcp2/vq_ngtcp2.cpp:2031-2064 | over every run, what the reads handed to nghttp3 is the first `handed` bytes of everything the application wrote, run by run as it was written, and the queue ends where that ends |
| StreamHistory.KeepsWhatIsNotAcknowledged | src/vortex/http3/ngtcp2/vq_ngtcp2.cpp:380-392 | over every run the queue is exactly the written pieces that the acknowledgements so far do not wholly cover |
| StreamHistory.NothingIsSentTwice | src/vortex/http3/ngtcp2/vq_ngtcp2.cpp:975-992 | over every run, window granted is window left plus bytes sent, and bytes framed and handed out are bytes held plus bytes sent |
| StreamHistory.ParkedAsTheStepsSay | src/vortex/http3/ngtcp2/vq_ngtcp2.cpp:394-411 | over every run a stream waits for data exactly when a read found everything handed out and the body open and nothing was written or finished since, is parked exactly when it was refused and not widened since, and has ended exactly when its end went out |
| StreamSend.ApplyKeeps | src/vortex/http3/ngtcp2/vq_ngtcp2.cpp:2031-2085 | every sending step keeps: parked for data only when nothing is left and the body is open, parked for flow control only with a used-up or shut window |
| StreamSend.NoLostWakeUp | src/vortex/http3/ngtcp2/vq_ngtcp2.cpp:2056-2085 | over every run without writes after finish, a stream whose response nghttp3 accepted, with an open window and anything left to send, bytes or the end of the stream alone, is offered to the scheduler |
| StreamSend.StrandedIffLateWrite | src/vortex/http3/ngtcp2/vq_ngtcp2.cpp:2056-2064 | bytes are queued behind the end nghttp3 was told of if and only if a non-empty write came after it |
| StreamSend.LostExactlyWhen | src/vortex/http3/ngtcp2/vq_ngtcp2.cpp:2031-2064 | over every run, bytes are queued that no legal continuation hands to nghttp3 if and only if some were written after the end was signalled, or nghttp3 refused the response and some were queued at any time |
| StreamSend.HandsOutNoMoreIff | src/vortex/http3/ngtcp2/vq_ngtcp2.cpp:394-411 | with bytes queued, no continuation hands out another one if and only if nghttp3 saw the end or never took the submitted response |
| StreamSend.LateWriteIsLost | src/vortex/http3/ngtcp2/vq_ngtcp2.cpp:2056-2064 | a concrete run after which no continuation hands out the byte written after the end |
| StreamSend.RefusedResponseLosesBytes | src/vortex/http3/ngtcp2/vq_ngtcp2.cpp:2046-2064 | a concrete run without any late write whose byte is lost behind a refused submission |
| StreamSend.EarlyWriteIsKept | src/vortex/http3/ngtcp2/vq_ngtcp2.cpp:2056-2064 | a concrete run in which a write after finish still goes out |
| ConnectionRuns.StepKeeps | src/vortex/http3/ngtcp2/vq_ngtcp2.cpp:251-592 | every callback, write round, timer failure and application call keeps the close, credit, reset and sending invariants together |
| ConnectionRuns.H3ErrorIsTerminal | src/vortex/http3/ngtcp2/vq_ngtcp2.cpp:251-260 | over every run, after an nghttp3 error nghttp3 is neither called from any of its call sites nor recreated, its connection stays null and the close is scheduled or done |
| ConnectionRuns.ClosePacketIsLastAndCarriesFirstCause | src/vortex/http3/ngtcp2/vq_ngtcp2.cpp:920-1015 | over every run at most one CONNECTION_CLOSE, nothing sent after it, and it carries the only abrupt cause if there is one and the graceful code otherwise |
| ConnectionRuns.CloseFlagsAreMonotone | src/vortex/http3/ngtcp2/vq_ngtcp2.cpp:1945-1972 | the four close flags never go back, and once an abrupt close is scheduled its error never changes |
| ConnectionRuns.CreditIsConserved | src/vortex/http3/ngtcp2/vq_ngtcp2.cpp:500-525 | over every run, on the connection and on every stream, the advertised limit is the initial window plus what was credited and received but uncredited data stays within it; nothing is dropped while the connection lives except what came before HTTP/3 was set up; open request streams stay within the initial limit (sections 4.1 and 4.6 of RFC 9000) |
| ConnectionRuns.ResetCountIsExact | src/vortex/http3/ngtcp2/vq_ngtcp2.cpp:527-572 | over every run the reset count is the number of request streams closed with an application error that we had not stopped first; no stream is both stopped and marked reset |
| ConnectionRuns.ChargedUnlessWeStoppedFirst | src/vortex/http3/ngtcp2/vq_ngtcp2.cpp:527-572 | after any run, a close with an application error is charged unless our STOP_SENDING came before any client reset; stopping later does not undo the charge |
| ConnectionRuns.NoDatagramPastBudget | src/vortex/http3/ngtcp2/vq_ngtcp2.cpp:549-554 | once the count is past the budget, every datagram offered in any later run leaves the connection as it is |
| ConnectionRuns.NoDatagramWhileEnding | src/vortex/http3/ngtcp2/vq_ngtcp2.cpp:1935-1944 | once a connection wants to close or is closed, every datagram offered in any later run leaves it as it is |
| ConnectionRuns.EveryReadyStreamIsOffered | src/vortex/http3/ngtcp2/vq_ngtcp2.cpp:975-992 | in every reachable live connection a stream is parked only with a wake-up still to come, and one with data and an open window is in the schedule, stranded bytes excepted |
| SendHistory.StreamsHandOutWhatWasWritten | src/vortex/http3/ngtcp2/vq_ngtcp2.cpp:2031-2085 | in every reachable connection, what a tracked stream handed to nghttp3 is a prefix of what the application wrote on that stream, and head, trailers, end of body, shut write side, acknowledgements and window are those of the steps that concerned it |
| SendHistory.LiveStreamsRunByThemselves | src/vortex/http3/ngtcp2/vq_ngtcp2.cpp:934-1015 | while HTTP/3 runs, every tracked stream of every reachable connection is a run of the stream machine over those steps, so every result about stream runs holds of it |
| SendHistory.TrackedStreamsFollowTheSteps | src/vortex/http3/ngtcp2/vq_ngtcp2.cpp:482-557 | the shim keeps a record of exactly the request streams that were opened and that nghttp3 has not dropped since |
| CloseHistory.RecordFollowsTheSteps | src/vortex/http3/ngtcp2/vq_ngtcp2.cpp:920-1015 | after every run the flags, the close code and the whole record of nghttp3 calls, causes and packets are those its steps tell |
| CloseHistory.CloseIsSentWhenDue | src/vortex/http3/ngtcp2/vq_ngtcp2.cpp:920-1008 | exactly a write call that finds an abrupt close pending, a write loop that runs dry with a graceful one pending and a write loop in which nghttp3 breaks send a CONNECTION_CLOSE; it is the last and only one, carries the close code, and the connection is over |
| CloseHistory.ScheduledForTheFirstReason | src/vortex/http3/ngtcp2/vq_ngtcp2.cpp:251-260 | an abrupt close is scheduled by the first step that gives a reason and by nothing else: an nghttp3 error, the reset budget with 0x0107, a TLS alert, another transport error, the application's code |
| CloseHistory.FirstReasonIsCarried | src/vortex/http3/ngtcp2/vq_ngtcp2.cpp:920-932 | whatever follows, the close code stays that reason and every CONNECTION_CLOSE carries it |
| CloseHistory.StopResultMeans | src/vortex/http3/ngtcp2/vq_ngtcp2.cpp:2098-2128 | a request to stop returns 1 exactly when the stream is newly stopped, 0 exactly when there was nothing to stop and nothing changed, and an error exactly when the connection is failed for it and the stream left unmarked |
| CreditHistory.StreamWindowFollowsTheSteps | src/vortex/http3/ngtcp2/vq_ngtcp2.cpp:500-525 | over every run, what a stream was credited is the sum of what nghttp3 consumed of it at once and later and of what the application consumed, and its peer's usable window is the initial one less what is held on that stream |
| CreditHistory.BytesFollowTheSteps | src/vortex/http3/ngtcp2/vq_ngtcp2.cpp:500-525 | over every run each received byte is where the steps put it: given back, with the application, with nghttp3, or thrown away early or late |
| CreditHistory.ConnectionWindowFollowsTheSteps | src/vortex/http3/ngtcp2/vq_ngtcp2.cpp:2130-2140 | over every run the connection's usable window, the open request streams, the room for more of them and the send window left are the initial values and the sums of the steps |
| ConnObject.VqConn.constructor | src/vortex/http3/ngtcp2/vq_ngtcp2.cpp:829-912 | a connection as accepted, closing at once when the application refuses it, with every invariant in place |
| ConnObject.VqConn.Fail | src/vortex/http3/ngtcp2/vq_ngtcp2.cpp:251-260 | deletes the nghttp3 connection and schedules the close unless one is already due |
| ConnObject.VqConn.OnHandshakeCompleted | src/vortex/http3/ngtcp2/vq_ngtcp2.cpp:472-480 | sets HTTP/3 up unless it exists or the connection is closing |
| ConnObject.VqConn.OnStreamOpen | src/vortex/http3/ngtcp2/vq_ngtcp2.cpp:482-498 | records request streams only |
| ConnObject.VqConn.OnRecvStreamData | src/vortex/http3/ngtcp2/vq_ngtcp2.cpp:500-525 | drops data without nghttp3, fails the connection on an error, credits what nghttp3 consumed on the stream and the connection |
| ConnObject.VqConn.Callback | src/vortex/http3/ngtcp2/vq_ngtcp2.cpp:472-592 | every ngtcp2 callback performs its step and keeps the connection's invariants |
| ConnObject.VqConn.BeginDatagram | src/vortex/http3/ngtcp2/vq_ngtcp2.cpp:1935-1935 | a datagram is given to ngtcp2 exactly when the connection is not ending |
| ConnObject.VqConn.OnStreamClose | src/vortex/http3/ngtcp2/vq_ngtcp2.cpp:527-557 | charges the reset budget, closes past it, makes room for a new stream |
| ConnObject.VqConn.OnStreamReset | src/vortex/http3/ngtcp2/vq_ngtcp2.cpp:559-572 | marks the stream reset by the peer unless we stopped it first |
| ConnObject.VqConn.OnExtendMaxStreamData | src/vortex/http3/ngtcp2/vq_ngtcp2.cpp:586-592 | unblocks the stream in nghttp3 or fails the callback |
| ConnObject.VqConn.EndOfPacket | src/vortex/http3/ngtcp2/vq_ngtcp2.cpp:1944-1972 | the result of reading a datagram sets draining, closed or the close error, an earlier cause winning |
| ConnObject.VqConn.SendConnClose | src/vortex/http3/ngtcp2/vq_ngtcp2.cpp:920-932 | emits the close with the recorded error and marks the connection for reaping |
| ConnObject.VqConn.WriteConn | src/vortex/http3/ngtcp2/vq_ngtcp2.cpp:934-1015 | the write loop over any sequence of library answers is the specified sequence of rounds and keeps the connection's invariants |
| ConnObject.VqConn.AppCall | src/vortex/http3/ngtcp2/vq_ngtcp2.cpp:2031-2183 | every application call performs its step and keeps the connection's invariants |
| ConnObject.VqConn.SendOn | src/vortex/http3/ngtcp2/vq_ngtcp2.cpp:2031-2085 | the response calls, ignored without a tracked stream or nghttp3; a write reports the bytes not yet handed out |
| ConnObject.VqConn.StopSendingOn | src/vortex/http3/ngtcp2/vq_ngtcp2.cpp:2098-2128 | STOP_SENDING once, never after a client reset, failing the connection on an error, with the value it returns in each case |
| ConnObject.VqConn.CloseHard | src/vortex/http3/ngtcp2/vq_ngtcp2.cpp:2156-2170 | drops the application context and schedules an abrupt close |
| ConnObject.VqConn.CloseGently | src/vortex/http3/ngtcp2/vq_ngtcp2.cpp:2172-2183 | schedules a graceful close unless one is due |
| EngineRuns.PumpReapsEveryEndingConnection | src/vortex/http3/ngtcp2/vq_ngtcp2.cpp:1975-1999 | after a pump no listed connection is closed, draining, waiting to close or in its closing period |
| EngineRuns.SurvivorsExactly | src/vortex/http3/ngtcp2/vq_ngtcp2.cpp:1979-1998 | the reap keeps exactly the connections that are not dead, each once |
| EngineRuns.SurvivorsKeepOrder | src/vortex/http3/ngtcp2/vq_ngtcp2.cpp:1979-1998 | of two connections that stay, the earlier one stays earlier |
| EngineRuns.CloseCallsOnce | src/vortex/http3/ngtcp2/vq_ngtcp2.cpp:1979-1998 | one reap calls on_conn_close at most once per connection |
| EngineRuns.RoutingIsSound | src/vortex/http3/ngtcp2/vq_ngtcp2.cpp:1900-1999 | in every reachable engine each connection ID leads to a listed connection although the reap erases only the routes to the connections it reaps, the list respects a non-zero limit and has no repeats, on_conn_close was called at most once per connection and only for ones that are gone |
| EngineRuns.NoCloseCallbackAfterHardClose | src/vortex/http3/ngtcp2/vq_ngtcp2.cpp:2156-2170 | whatever runs before and after it, a hard close made between datagrams or inside a callback is never followed by on_conn_close for that connection |
| EngineRuns.EndingConnectionIsNotFed | src/vortex/http3/ngtcp2/vq_ngtcp2.cpp:1928-1944 | in every reachable engine any datagram leaves a connection exactly as it is once it is past its reset budget, wants to close or is closed |
| EngineHistory.PumpKeepsExactlyTheLiving | src/vortex/http3/ngtcp2/vq_ngtcp2.cpp:1975-1999 | a connection that the write loop left neither closed nor draining and that is in no closing period stays listed as written, with its identity and every route to it and no on_conn_close; every other one is gone with its routes, and on_conn_close is called exactly if it still has a context |
| EngineHistory.PumpAddsNothing | src/vortex/http3/ngtcp2/vq_ngtcp2.cpp:1975-1999 | a pump lists, calls and routes nothing else |
| EngineHistory.HandedOutIdsLeadBack | src/vortex/http3/ngtcp2/vq_ngtcp2.cpp:268-276 | after the write pass a connection ID leads to the last connection that handed it out, every other one where it led |
| EngineHistory.NewConnectionIsReachable | src/vortex/http3/ngtcp2/vq_ngtcp2.cpp:893-912 | after the datagram that starts a connection both its IDs lead to it unless its own events retire them, it is a run from accepting it, and every other connection and route is as before |
| EngineHistory.KnownIdIsDelivered | src/vortex/http3/ngtcp2/vq_ngtcp2.cpp:1928-1972 | a datagram for a known ID runs its events on exactly the connection it leads to, and moves only the routes they name |
| EngineHistory.OtherDatagramsChangeNothing | src/vortex/http3/ngtcp2/vq_ngtcp2.cpp:1900-1934 | unreadable datagrams and those for unknown IDs that cannot start a connection change nothing |
| EngineHistory.CallIsDelivered | src/vortex/http3/ngtcp2/vq_ngtcp2.cpp:2156-2183 | an application call reaches its connection and no other |
| EngineHistory.WriteFollowsItsRounds | src/vortex/http3/ngtcp2/vq_ngtcp2.cpp:934-1015 | a connection's share of a pump is its write call and round after round until the write loop returns |
| EngineHistory.EveryConnectionIsARun | src/vortex/http3/ngtcp2/vq_ngtcp2.cpp:1900-2017 | every connection listed after any run of the engine is a run of a connection from accepting it, so every result about connection runs holds of it |
| EngineHistory.ExpiryEndsExactlyTheDue | src/vortex/http3/ngtcp2/vq_ngtcp2.cpp:2009-2017 | timers end exactly the connections that are due and that ngtcp2 gives up on |
| EngineHistory.RepliesFollowTheSteps | src/vortex/http3/ngtcp2/vq_ngtcp2.cpp:1909-1926 | one version negotiation packet for every datagram of another version that can be answered |
| EngineObject.VqEngine.Recv | src/vortex/http3/ngtcp2/vq_ngtcp2.cpp:1900-1973 | over connection objects: answers an unknown version, ignores what cannot be decoded, routes or accepts a datagram within the connection limit, feeds the one object it is for, and keeps the engine's invariants |
| EngineObject.VqEngine.AcceptConn | src/vortex/http3/ngtcp2/vq_ngtcp2.cpp:893-912 | a new connection object, routed by both connection IDs and listed |
| EngineObject.VqEngine.FeedEvents | src/vortex/http3/ngtcp2/vq_ngtcp2.cpp:1944-1973 | the callbacks change that object and the routing table in place as specified |
| EngineObject.VqEngine.CallConn | src/vortex/http3/ngtcp2/vq_ngtcp2.cpp:2156-2183 | an application call on a listed object leaves the others as they are and keeps the engine's invariants |
| EngineObject.VqEngine.HandleExpiry | src/vortex/http3/ngtcp2/vq_ngtcp2.cpp:2009-2017 | ticks the shared ticket keys, marks the connection objects that are due and that ngtcp2 gave up on, and keeps the engine's invariants |
| EngineObject.VqEngine.ReapPass | src/vortex/http3/ngtcp2/vq_ngtcp2.cpp:1979-1998 | the walk that erases objects from the list while iterating leaves the survivors, the calls and the routes of the specification |
| EngineObject.VqEngine.Pump | src/vortex/http3/ngtcp2/vq_ngtcp2.cpp:1975-1999 | every connection object writes in place, then the reap; the engine's invariants hold again |
| TicketKeys.TicketOpensForALifetime | src/vortex/http3/ngtcp2/vq_ngtcp2.cpp:1281-1352 | under any interleaving of threads, a ticket sealed at clock t with a working generator opens in every thread throughout [t, t + lifetime], with 1 while its key is current and 2 while it is the previous one; without one, before a lifetime after the seal ended |
| TicketKeys.OpensExactlyBeforeDeadline | src/vortex/http3/ngtcp2/vq_ngtcp2.cpp:1281-1352 | opening at a given time is guaranteed in every run if and only if the time is before max(now, birth + lifetime) + lifetime |
| TicketKeys.RefusedFromDeadline | src/vortex/http3/ngtcp2/vq_ngtcp2.cpp:1281-1303 | from every world and at every time from the deadline on, two ticks with a working generator lead to a refusal |
| TicketKeys.ClosedWindowFromTheEndIff | src/vortex/http3/ngtcp2/vq_ngtcp2.cpp:1314-1352 | counted from the end of the sealing section, the closed window is guaranteed if and only if the section ended before its key was due |
| TicketKeys.SealingSectionCanOutlastItsKey | src/vortex/http3/ngtcp2/vq_ngtcp2.cpp:1314-1352 | a concrete sealing section that ends when its key is due |
| TicketKeys.KeyRefusedAfterTwoLifetimes | src/vortex/http3/ngtcp2/vq_ngtcp2.cpp:1281-1352 | with ticks at most d apart and a working generator no thread opens a ticket from two lifetimes plus 2d after its key was installed on |
| TicketKeys.TicketRefusedAfterTwoLifetimes | src/vortex/http3/ngtcp2/vq_ngtcp2.cpp:1281-1352 | so no thread opens a ticket sealed at t from t plus two lifetimes plus 2d on |
| TicketKeys.OpenResultMeans | src/vortex/http3/ngtcp2/vq_ngtcp2.cpp:1314-1352 | opening fails exactly without a key or when a ticket of a kept key does not verify, falls back to a full handshake exactly when it names neither key, and renews exactly under the previous key |
| TicketKeys.SealsExactlyWhen | src/vortex/http3/ngtcp2/vq_ngtcp2.cpp:1314-1352 | a ticket is sealed exactly when there is a key or one can be drawn and the vector can be drawn |
| TicketKeys.TicketStore.RotateDue | src/vortex/http3/ngtcp2/vq_ngtcp2.cpp:1281-1291 | rotates when the key has reached its lifetime and the generator worked |
| TicketKeys.TicketStore.TickKeys | src/vortex/http3/ngtcp2/vq_ngtcp2.cpp:1300-1303 | the timer's rotation under the lock |
| TicketKeys.TicketStore.SealTicket | src/vortex/http3/ngtcp2/vq_ngtcp2.cpp:1314-1352 | seals under the current key or reports failure |
| TicketKeys.TicketStore.OpenTicket | src/vortex/http3/ngtcp2/vq_ngtcp2.cpp:1314-1352 | opens under the current or previous key, refuses any other name |
| TlsReload.RefusedExactlyWhen | src/vortex/http3/ngtcp2/vq_ngtcp2.cpp:1782-1898 | a reload is refused if and only if it names one half of a pair over a bundle or some context cannot be built |
| TlsReload.RefusedChangesNothing | src/vortex/http3/ngtcp2/vq_ngtcp2.cpp:1782-1898 | a refused reload changes only the reported error |
| TlsReload.ReloadsAreTransactions | src/vortex/http3/ngtcp2/vq_ngtcp2.cpp:1727-1898 | after every sequence of reloads all contexts in service come from one accepted reload or the creation, hosts and contexts run parallel, the callback is on exactly when hosts exist, and the remembered paths and host list are the last accepted ones |
| TlsReload.PathsReplaceWhatTheyStandFor | src/vortex/http3/ngtcp2/vq_ngtcp2.cpp:1830-1845 | after every sequence of reloads the remembered material is the configured one with the last accepted paths, the in-memory pair and the bundle cleared exactly where an accepted path replaced them |
| TlsReload.RefusalNamesTheCause | src/vortex/http3/ngtcp2/vq_ngtcp2.cpp:1782-1898 | a refused reload reports the half of a pair, else the default material, else the first host the library refuses |
| TlsReload.BareReloadRereadsRemembered | src/vortex/http3/ngtcp2/vq_ngtcp2.cpp:1782-1898 | a reload without arguments rebuilds from exactly the remembered material |
| TlsReload.BuildSniCtxs | src/vortex/http3/ngtcp2/vq_ngtcp2.cpp:1624-1641 | builds a context for every host or reports the first that failed |
| TlsReload.TlsEngine.ReloadCert | src/vortex/http3/ngtcp2/vq_ngtcp2.cpp:1782-1898 | stages everything and publishes only at the end |
| Sni.HostEq | src/vortex/http3/ngtcp2/vq_ngtcp2.cpp:1651-1656 | ASCII case-insensitive equality without reading past the terminator |
| Sni.HostWildMatch | src/vortex/http3/ngtcp2/vq_ngtcp2.cpp:1660-1669 | true exactly when one non-empty leading label precedes the pattern's suffix |
| Sni.SplitIsFirstDot | src/vortex/http3/ngtcp2/vq_ngtcp2.cpp:1660-1669 | the wildcard can only stand for the label before the first dot |
| Sni.Select | src/vortex/http3/ngtcp2/vq_ngtcp2.cpp:1677-1691 | the least exact index, else the least wildcard index, else the default (section 3 of RFC 6066) |
| Sni.FoldIgnoresCaseOnly | src/vortex/http3/ngtcp2/vq_ngtcp2.cpp:1643-1656 | two names fold to the same bytes if and only if they agree letter by letter up to ASCII case |
| Sni.ChoiceIsUnique | src/vortex/http3/ngtcp2/vq_ngtcp2.cpp:1677-1691 | name and hosts determine the choice |
| Sni.ChoiceIgnoresCase | src/vortex/http3/ngtcp2/vq_ngtcp2.cpp:1643-1691 | re-casing the name does not change the choice |
| SplitMix.QuotasAddUp | conformance/stress/client/stress_client.py:847-851 | floors and fractions of the quotas add up to what is shared out |
| SplitMix.SpareIsSmall | conformance/stress/client/stress_client.py:851-856 | the spare after rounding down is below the number of slices |
| SplitMix.GiveSpare | conformance/stress/client/stress_client.py:854-856 | hands the spare out by largest fraction, ties to the earlier slice, each slice at most one |
| SplitMix.LargestRemainder | conformance/stress/client/stress_client.py:847-856 | every share is its quota rounded down or one more, by rank, adding up when there is weight |
| SplitMix.WholeQuotaStays | conformance/stress/client/stress_client.py:847-856 | a slice whose quota is a whole number gets exactly that, so every share is the floor or the ceiling of its quota |
| SplitMix.ShareGrowsWithWeight | conformance/stress/client/stress_client.py:847-856 | before repair a heavier slice never gets less, nor the earlier of two equal ones |
| SplitMix.SomeoneHasTwo | conformance/stress/client/stress_client.py:857-859 | the donor of a repair always has at least two workers |
| SplitMix.FloorAtOne | conformance/stress/client/stress_client.py:857-859 | every empty slice gets exactly one, paid by the largest, the total unchanged, nobody emptied |
| SplitMix.Split | conformance/stress/client/stress_client.py:808-861 | refused exactly below one worker per slice; otherwise at least one each, streaming slices exactly one, the stated total, and a levelled largest-remainder split for the rest |
| SplitMix.TotalIsBudgetIff | conformance/stress/client/stress_client.py:825-831 | the total never exceeds the budget, and equals it if and only if there is nothing beyond the floor or some request-shaped slice has weight |
| SplitMix.ZeroWeightsFallShort | conformance/stress/client/stress_client.py:825-831 | a mix of one zero-weight slice leaves workers idle |
| WebSocket.WsFrame | conformance/stress/client/h3.py:51-63 | prints the masked frame in the shortest length form; refused exactly from 2^64 bytes on |
| WebSocket.MaskFlipsBits | conformance/stress/client/h3.py:51-63 | masking flips exactly the bits set in the key |
| WebSocket.FirstByteMeans | conformance/stress/client/h3.py:51-63 | the first byte is the opcode with the top bit set exactly on a final frame |
| WebSocket.UnmaskedIsServerFrame | conformance/stress/client/h3.py:51-63 | removing the mask from the printer's frame gives the unmasked frame of the same first byte and payload |
| WebSocket.FrameReadsBack | conformance/stress/client/h3.py:51-81 | for any payload below 2^64 bytes, in all three length forms, the unmasked frame parses back whole to the opcode's four bits and the payload (section 5.2 of RFC 6455) |
| WebSocket.MaskedFrameIsRefused | conformance/stress/client/h3.py:65-81 | a frame with its mask on makes the parser raise |
| WebSocket.ParseWs | conformance/stress/client/h3.py:65-81 | the position loop computes the specified parse, including the raise |
| WebSocket.ParseReadsFramesBack | conformance/stress/client/h3.py:65-81 | any sequence of server frames in any length forms followed by anything parses to those messages and then what follows |
| WebSocket.ParseTakesOnlyFrames | conformance/stress/client/h3.py:65-81 | conversely the consumed bytes are server frames with exactly the returned meaning, and no whole frame is left |
| WebSocket.ParseInPieces | conformance/stress/client/h3.py:65-81 | the frames of a + b are the frames of a followed by those of what a left plus b; a raise is kept when bytes follow |
| WebSocket.FramesSurviveAnyChunking | conformance/stress/client/h3.py:65-81 | parsing after every chunk yields exactly the messages sent, however the bytes are cut |
| WebSocket.RecvKeepsEveryFrameIff | conformance/stress/client/h3.py:308-314 | for any chunks, up to the one the parser raises on if it does, the receive calls lose no frame if and only if no chunk completes two; they raise on the same chunk and keep the same bytes |
| WebSocket.RecvDropsTheSecond | conformance/stress/client/h3.py:308-314 | two frames in one chunk, of which the second is lost |
| Sse.ReadLines | conformance/stress/client/stress_client.py:466-473 | the decoded lines depend only on the concatenated bytes and are those of a character-by-character reading, for any decoding of a line |
| Sse.StripTakesTheReturns | conformance/stress/client/stress_client.py:466-473 | a line loses all its trailing carriage returns and nothing else |
| Sse.TrimTakesTheSpace | conformance/stress/client/stress_client.py:500-500 | an id loses all white space at both ends and nothing else |
| Sse.ReadsExactlyNumerals | conformance/stress/client/stress_client.py:500-500 | for any table of digits, exactly the digit strings with single underscores inside are read, each as what its digits are worth |
| Sse.SignedNumerals | conformance/stress/client/stress_client.py:500-500 | a plus sign changes nothing and a minus sign negates |
| Sse.ShowReadsBack | conformance/bench/servers/go/main.go:97-97 | every integer printed by the handler is read back |
| Sse.ResumesAfterTheLastId | conformance/bench/servers/go/main.go:90-95 | the handler goes on one past the id it is told, in 64 bits, and from the start when the number does not fit |
| Sse.Serve | conformance/bench/servers/go/main.go:87-102 | sends the ids from one past the header up to the total, at most a batch |
| Sse.RunSequence | conformance/stress/client/stress_client.py:475-515 | the nested loops over connections and lines compute the specified outcome, failures included |
| Sse.OnLinesMeans | conformance/stress/client/stress_client.py:499-504 | reading a connection succeeds if and only if its event ids, read with any Unicode tables, count up from what the client has, and then counts each once |
| Sse.AcceptsExactlyConforming | conformance/stress/client/stress_client.py:475-515 | for any decoding and Unicode tables, the client accepts a transcript if and only if every reply is readable, the ids count up over all of them, each brings some, and every one but the last brings exactly a batch |
| Sse.ResumeDeliversEveryEventOnce | conformance/bench/servers/go/main.go:87-102 | for every total and batch of at least 1 and any cutting of the bytes, the client against the server ends after ceil(total/batch) connections having seen 0 to total-1 once each in order |
| Pattern.GenChunkIsStream | conformance/stress/client/transport.py:72-76 | rotate-and-repeat has length n and byte i equal to (start + i) mod 256 |
| Pattern.GenChunkDirect | conformance/bench/servers/go/main.go:35-41 | the byte loop fills the same stream |
| Pattern.BodyGen | conformance/stress/client/transport.py:78-87 | for every total and positive chunk size the chunks concatenate to the stream, all but the last full |
| Pattern.Download | conformance/bench/servers/go/main.go:62-76 | the download loop writes the same stream, or the prefix of it that the successful writes cover |

## Left out

- OpenSSL, ngtcp2 and nghttp3 internals: they are the environment, and building a TLS context is an arbitrary partial function of its material.
- Body offsets, credit and counters are unbounded integers where the source has 64-bit ones.
- HTTP/3 framing of headers, trailers and control streams: only how many bytes nghttp3 queued for a stream, not their contents.
- The contents of a version negotiation packet, peer addresses, and the accept path before a connection object exists.
- A body read for a stream the shim no longer tracks.
- Application calls made from inside the write loop: the model lets the application call between datagrams and inside datagram callbacks.
- Graceful close does not promise that the final GOAWAY precedes CONNECTION_CLOSE; the source's no-more-to-write branch also covers a congestion-limited write, so nothing is claimed.
- Errors of nghttp3 that the source ignores or handles elsewhere than in failConn are outside the terminal-error result.
- SplitMix.Split: quotas are exact fractions, not floating point, and slice names are distinct, because parsing a mix rejects a repeated name; nothing is claimed about monotonicity after the floor repair, where the donor is the first maximum.
- Sse.AcceptsExactlyConforming: a last connection may bring more than the total, because the client does not reject that; ids are read as in `Sse.OnLinesMeans`.
- Python's limit on the number of digits `int` reads, and which tables its Unicode version has: decoding, spaces and digits are arbitrary functions, and only the resume result needs them to read ASCII as such.
- WebSocket.FrameReadsBack: the parser drops the FIN bit, so reading back says nothing about it.
- The PING frame-log hook, sockets, event loops, timing, reporting, and the other workloads of the load client.
- HTTP/2, HPACK, the router and the worker pool are not part of this model.
