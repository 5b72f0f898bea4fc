# Remote-UI pipeline: a verified model

The system runs a plugin's user interface in an AppHost process and shows it in a remote client. A
gateway sits between them: it parses each client's byte stream into frames, routes frames by session id
to an AppHost connection, and carries pixels back. This project models it part by part and proves what
the parts are for. `dafny verify dfyconfig.toml` checks everything.

| file | part |
|---|---|
| Protocol.dfy | the 13-byte header, frames, and the one-shot parse of a byte stream |
| MessageParser.dfy | the incremental parser over its compacting buffer, the handler loop, the reader loop |
| SendPath.dfy | chunking, per-connection send queues, scheduled drains, reused slots with generations |
| SessionTable.dfy | the session map and its three reverse indexes |
| Gateway.dfy | spawning, the ready handshake, close, disconnect and the monitor over all connections |
| EndToEnd.dfy | the byte path through the gateway in either direction, composed of the parser and the send path |
| Pipeline.dfy | Gateway and EndToEnd as one machine: how long a route lasts and whose connection it reaches |
| InputEvent.dfy | the body of an input event |
| InputHandoff.dfy | input events from reader threads to the plugin's main loop |
| InputPath.dfy | input from the client's packets to the plugin, through all of the above |
| LineMerge.dfy, Board2048.dfy, Game2048.dfy | the 2048 rules: one line, one board, whole games |
| Framebuffer.dfy, Mirroring.dfy | packing a dirty rectangle, applying it, mirroring over whole runs, and through the gateway |

Concurrent parts are state machines with one step per critical section, so a property of all runs is a
property of all interleavings. Classes update the same fields in place as the program's objects do; each
method is proved to make the specified step, and the properties are proved of the steps and of all runs.
What the main operations do is stated once more without those specifications, on what can be seen from
outside: bytes of the stream, cells of the board or the picture, the command byte, the fields of a record.

## What turned out not to hold unconditionally

- A wake-up can be lost (`SendPath.LostWakeUp`): the drain that follows a SENT callback by a millisecond
  may find the queue empty while the pool's busy flag is still set; data enqueued before the flag clears
  is refused and no drain is coming. `WakeUpExact` shows this is the only way, for a step, and `AwakeExact`
  for a run.
- Closing is not final (`Sessions.ClosingCanRevive`): binding rejects only dead sessions. A closing id
  becomes closable again exactly when it is bound (`Sessions.ClosingExact`).
- Index updates overwrite. The indexes stay exact if and only if the key was free
  (`Sessions.ReindexExact`); the gateway's own calls always meet that (`Gateways.CallSitesAreFresh`),
  given one binding APPHOST_READY per connection. A second one makes two sessions share an AppHost handle
  (`Gateways.SharedHandleReachable`), exactly when `Gateways.ReadyExact` says, and can later route one of
  them to a connection that never bound it (`Gateways.SecondReady`).
- A manual session, acknowledged at once, has its spawn deadline at the moment of its creation: unless an
  AppHost binds first, the next monitor pass fails it (`Gateways.SpawnDeadlineExact`).
- The session id counter wraps. A removed id s comes back with creation number 2^32 + s, and not before
  (`Sessions.IdReuseExact`). Creation number 2^32 hands out 0 (`Sessions.ZeroIsIssued`), which the gateway
  takes for no session: that client owns a session it has not recorded (`Gateways.RecordedExact`).
- Quitting while a post is half done, which only a thread other than the poster can do, can lose input,
  and exactly then (`InputHandoff.ShutdownExact`; `InputHandoff.InputLost` is a run that does). A sole reader
  thread that quits itself loses nothing (`InputHandoff.ReaderLosesNothing`).
- The game-over scan calls the empty board playable though nothing moves (`Board2048.EmptyBoardScan`);
  on every other board it is exact.
- The frame counter wraps, and the client then rejects the next 2^32 - 1 frames as stale
  (`Framebuffer.WrapFreezes`); mirroring holds exactly while numbers are left (`Framebuffer.MirrorsExactly`).
- A frame of more than 64 MiB, which a window of more than 2^24 - 6 pixels can send, is rejected by the next
  parser and nothing after it is shown (`Mirroring.FitExact`, `Mirroring.OversizedFrameFreezes`).

## Assumptions about the environment

- The pool gives a new connection a handle no open connection has; the operating system gives a child a
  pid no session records.
- The pool never runs two callbacks of one connection at once: a release, a READY or a receive starts only
  when the connection's last callback is over. Callbacks of different connections overlap freely.
- Fewer than 2^32 sessions are created, and an AppHost connection sends one READY that binds, in the runs
  that `Gateways.Enabled` allows; what one spawn or one READY does needs neither.
- Frames are routed by the id they carry, whoever sends them: that no other connection stamps input or
  pixels with a session is a hypothesis of `InputPath.InputThroughGateway` and
  `Mirroring.PixelsReachTheirClient`.
- BeginInput refuses only a busy or cancelled connection.
- Looking a connection up and enqueueing to it is one step, although the gateway unlocks in between.
- A rectangle is empty when left is not below right or top not below bottom, and a colour has alpha,
  red, green, blue from high byte to low. The headers that define them are not part of this model.
- A packed rectangle has fewer than 2^32 bytes, as the program's 32-bit length requires, where one method
  packs or applies it; the runs of `Mirroring.FitExact` need no such bound.
- A mouse body has thirteen bytes, of which the eight-byte timestamp fills only four; the layout comment in
  input_event.h counts all eight. The model has the thirteen. No message carries the timestamp.

## Model

| member | source | states |
|---|---|---|
| `Protocol.SerializeHeader` | src/protocol/protocol.cpp:10-28 | the 13 bytes written in place are the big-endian numerals of the five fields; the rest of the buffer is untouched |
| `Protocol.DeserializeHeader` | src/protocol/protocol.cpp:30-45 | reads back the header the first 13 bytes denote |
| `Protocol.HeaderRoundTrip` | src/protocol/protocol.cpp:10-45 | decoding an encoded header gives it back, whatever follows it |
| `Protocol.HeaderBytesOfHeader` | src/protocol/protocol.cpp:10-45 | encoding a decoded header gives back the 13 bytes, for every byte string: the codec loses nothing |
| `Protocol.SerializePacket` | src/gateway/gateway.cpp:53-61 | re-serialisation is the wire form with the length recomputed from the body and truncated to 32 bits |
| `Protocol.FrameLayout` | src/protocol/protocol.cpp:10-28 | where every byte of a frame stands: magic, session id, command, body length, reserved, most significant byte first, then the body |
| `Protocol.ParseComplete` | src/protocol/message_parser.cpp:11-45 | serialising good packets and parsing gives exactly those packets, whatever bytes follow |
| `Protocol.ParseSound` | src/protocol/message_parser.cpp:11-45 | every stream is the wire form of the packets emitted followed by the rest, and the rest is undecided or rejected |
| `Protocol.ParseAppend` | src/protocol/message_parser.cpp:3-45 | a stream parsed in two pieces: same packets, verdict and rest as in one; a bad header stays fatal |
| `Protocol.ParsePrefix` | src/protocol/message_parser.cpp:11-45 | any prefix of a stream of good frames parses to a prefix of those frames and is never rejected |
| `Protocol.ParseStart` | src/protocol/message_parser.cpp:15-29 | thirteen bytes or more are rejected with nothing emitted if and only if they do not start with BE EF or their length bytes give more than 64 MiB; fewer are undecided |
| `Protocol.ParseFirst` | src/protocol/message_parser.cpp:33-44 | otherwise the first packet comes out exactly when its body is there, with the session id, command, length and body those bytes give, and the rest parses as if it stood alone |
| `MessageParsing.MessageParser.Feed` | src/protocol/message_parser.cpp:3-9 | appends to the unread stream whether or not compaction fires; buffer at most twice the unread bytes plus the input; bytes moved never exceed bytes fed; poisoned ignores input |
| `MessageParsing.MessageParser.Compact` | src/protocol/message_parser.cpp:54-57 | drops only read bytes and moves no more than have been read |
| `MessageParsing.MessageParser.NextPacket` | src/protocol/message_parser.cpp:11-45 | Ok exactly when a frame that starts with BE EF and announces at most 64 MiB is there whole, and then it is that frame; Error exactly when poisoned before or the first thirteen bytes are not such a header; else Incomplete changes nothing and leaves fewer than 64 MiB unread |
| `MessageParsing.MessageParser.Reset` | src/protocol/message_parser.cpp:47-52 | back to an empty, unpoisoned stream |
| `MessageParsing.ChunkingInvisible` | src/protocol/message_parser.cpp:3-45 | for every list of chunks, feeding and draining one by one emits the packets and verdict of one parse of the concatenation |
| `MessageParsing.ArrivedPackets` | src/protocol/message_parser.cpp:3-45 | whatever part of a stream of good packets has arrived, in whatever pieces, the first k come out whole, and all once everything is there |
| `MessageParsing.MessageHandler.Feed` | src/common/message_handler.cpp:7-15 | one feed calls the registered handlers for exactly the packets the one-shot parse completes, in order; terminates |
| `MessageParsing.ReaderLoop` | src/apphost/apphost.cpp:106-118 | the handler calls of a whole connection are those of one parse of the bytes before it closes or the reader is shut down; quit is requested exactly on close |
| `MessageParsing.HeardExact` | src/apphost/apphost.cpp:106-118 | the reader hears exactly the receives before the first empty one, before it is told to shut down |
| `SendPath.PushChunked` | src/gateway/gateway.cpp:37-51 | the queue gains chunks of 1 to 4000 bytes, all full but the last, whose concatenation is the data |
| `SendPath.StreamPreserved` | src/gateway/gateway.cpp:212-227 | in every run, per slot: the bytes handed to the pool followed by the queue are exactly the data the run enqueued to the current occupant, and every chunk has 1 to 4000 bytes |
| `SendPath.StepKeepsInv` | src/gateway/gateway.cpp:389-546 | each lock-sized step, drain, SENT, accept or release keeps the stream of every connection |
| `SendPath.StaleDrainIsInert` | src/gateway/gateway.cpp:490-515 | a drain scheduled before its slot is reused, at any later time, sends nothing |
| `SendPath.EnqueueExact` | src/gateway/gateway.cpp:389-423 | an open connection takes all the data, and hands its first 4000 bytes to the pool at once exactly when nothing waits and its buffer is free and not cancelled; a connection that has gone takes nothing |
| `SendPath.DrainExact` | src/gateway/gateway.cpp:490-515 | a drain hands over exactly the head chunk, when its generation is current and the buffer free; runs again when the buffer is busy; else only goes away |
| `SendPath.OnePieceAtATime` | src/gateway/gateway.cpp:389-515 | in every interleaving the pool is given at most one piece of 1 to 4000 bytes by a step, never while busy or cancelled, and only by data enqueued to an empty queue or a drain of the current generation |
| `SendPath.WakeUpExact` | src/gateway/gateway.cpp:389-546 | a step leaves some waiting chunk without a send or drain coming if and only if it enqueues on an idle connection whose drain ran before the busy flag cleared |
| `SendPath.AwakeExact` | src/gateway/gateway.cpp:389-546 | over a whole run every waiting chunk always has a send or a drain coming if and only if no step of the run falls asleep in that way |
| `SendPath.NoLostWakeUp` | src/gateway/gateway.cpp:399-421 | if the busy flag clears before the drain runs, then in every run every waiting live connection has a send in flight or a drain of its generation scheduled |
| `SendPath.LostWakeUp` | src/gateway/gateway.cpp:470-515 | without that assumption a run from the start loses a wake-up |
| `SendPath.OneRound` | src/gateway/gateway.cpp:490-546 | from any good state there is a schedule of at most two pool steps that hands over exactly the head chunk |
| `SendPath.QueueEmpties` | src/gateway/gateway.cpp:490-546 | there is a schedule of at most two pool steps per chunk that empties the queue |
| `SendPath.EverySchedule` | src/gateway/gateway.cpp:470-546 | no schedule can fail to empty the queue: in every run that keeps the assumption and leaves the connection undisturbed, effective steps are bounded by the work at the start, one is enabled while a chunk waits, and when none is, everything enqueued has been handed over |
| `SendPath.WorkRunsOut` | src/gateway/gateway.cpp:490-546 | in every such run the work left plus the effective steps taken never exceeds the work at the start |
| `SendPath.EffectiveStepEnabled` | src/gateway/gateway.cpp:399-421 | while a chunk waits on a live connection, a send completion, a settling or a drain of its own generation is enabled |
| `SendPath.ConnTable.EnqueueConn` | src/gateway/gateway.cpp:389-423 | the method on the table of connections does the specified enqueue step |
| `SendPath.ConnTable.DrainQueue` | src/gateway/gateway.cpp:490-515 | the method does the specified drain step: generation checked, re-scheduled only when busy |
| `SendPath.ConnTable.AllocConn` | src/gateway/gateway.cpp:212-227 | a new generation, an empty queue, linked at the head; nothing when the pool is exhausted |
| `SendPath.ConnTable.UnlinkConn` | src/gateway/gateway.cpp:246-257 | removes exactly this node from the list and says whether it was there |
| `SendPath.ConnTable.FindLocked` | src/gateway/gateway.cpp:357-363 | the scan returns the first active connection with the handle |
| `SendPath.ConnTable.OnSent` | src/gateway/gateway.cpp:470-478 | a drain for the current generation, only if the connection is still active |
| `Sessions.SessionTable.CreateSpawningSession` | src/gateway/session_manager.cpp:29-51 | a fresh record under the next id modulo 2^32, with every field given; the three indexes stay exact if and only if the client handle was free |
| `Sessions.SessionTable.SetApphostPid` | src/gateway/session_manager.cpp:53-64 | sets the pid of a known session; the indexes stay exact if and only if no other session has it |
| `Sessions.SessionTable.BindApphost` | src/gateway/session_manager.cpp:66-79 | binds unless unknown or dead, so also from closing; the indexes stay exact if and only if no other session owns the handle |
| `Sessions.SessionTable.TransitionToClosing` | src/gateway/session_manager.cpp:142-154 | succeeds exactly when known and neither closing nor dead; returns the route and pid |
| `Sessions.SessionTable.RemoveSession` | src/gateway/session_manager.cpp:166-179 | removes exactly the record and its index entries |
| `Sessions.SessionTable.RemoveByClient` | src/gateway/session_manager.cpp:181-198 | removes exactly the one session a full scan finds for the client handle |
| `Sessions.SessionTable.RemoveByApphost` | src/gateway/session_manager.cpp:200-217 | removes exactly the one session a full scan finds for the AppHost handle |
| `Sessions.SessionTable.FindByPid` | src/gateway/session_manager.cpp:97-101 | the index lookup returns what a scan of all records would |
| `Sessions.SessionTable.HasActiveOrSpawningForClient` | src/gateway/session_manager.cpp:103-113 | true exactly when the owner found by scanning is active or spawning |
| `Sessions.SessionTable.SnapshotSessions` | src/gateway/session_manager.cpp:133-140 | one snapshot of every record, none twice |
| `Sessions.ReindexExact` | src/gateway/session_manager.cpp:45-79 | overwriting an index entry keeps it the exact inverse if and only if no other record has the key |
| `Sessions.LookupIsScan` | src/gateway/session_manager.cpp:97-113 | on exact indexes a lookup finds an owner exactly when there is one, and it is the only one |
| `Sessions.RemoveExact` | src/gateway/session_manager.cpp:166-217 | dropping a record and its key keeps an index exact |
| `Sessions.LifecycleFacts` | src/gateway/session_manager.cpp:29-79 | over all runs, with no bound on creations: spawning has no AppHost handle, active has one, dead is never stored |
| `Sessions.IdsAreIssued` | src/gateway/session_manager.cpp:34-38 | while fewer than 2^32 sessions have been created, every stored id lies between 1 and the number created |
| `Sessions.RemovedStaysGone` | src/gateway/session_manager.cpp:34-179 | an issued id no longer stored stays unroutable through every run with fewer than 2^32 + s creations in all |
| `Sessions.IdReuseExact` | src/gateway/session_manager.cpp:34-38 | an issued and removed id s is absent after every prefix of a run if and only if the run ends with fewer than 2^32 + s creations |
| `Sessions.ReuseReachable` | src/gateway/session_manager.cpp:34-38 | from every table without it some run brings it back |
| `Sessions.ZeroIsIssued` | src/gateway/session_manager.h:139 | creation number 2^32, and among the first 2^32 only that one, stores a session under id 0 |
| `Sessions.ClosingTwiceNeedsBind` | src/gateway/session_manager.cpp:66-154 | two successful transitions to closing of one id have a successful bind between them |
| `Sessions.ClosingExact` | src/gateway/session_manager.cpp:66-154 | an id that cannot be closed becomes closable again at some point of a run if and only if some operation of the run binds it |
| `Sessions.RecordAfterRun` | src/gateway/session_manager.cpp:29-154 | after any run of operations that keeps a session, its record holds the state, pid and times the run last wrote there, and nothing else of it has changed but its AppHost handle |
| `Sessions.ClientMarkIsLast` | src/gateway/session_manager.cpp:115-122 | the client time so found is that of the last operation that marks the client |
| `Sessions.ApphostMarkIsLast` | src/gateway/session_manager.cpp:66-131 | the AppHost time so found is that of the last bind or AppHost mark |
| `Sessions.ClosingCanRevive` | src/gateway/session_manager.cpp:66-79 | closing is not final: a bind moves it back to active |
| `Gateways.StepKeepsInv` | src/gateway/gateway.cpp:246-312 | every connect, spawn, ready, close, disconnect and monitor step keeps: the connection at a session's handle has recorded that session or is about to, until its release has removed the session; no two sessions share one |
| `Gateways.InvHoldsInEveryRun` | src/gateway/gateway.cpp:614-853 | the same for every interleaving of callbacks and monitor steps |
| `Gateways.CallSitesAreFresh` | src/gateway/gateway.cpp:614-683 | sessions are created on a client handle that owns none and bound to an AppHost handle that owns none, as the indexes need; a free pid is the operating system's part |
| `Gateways.RoutesAreDisjoint` | src/gateway/gateway.cpp:704-726 | distinct sessions share no client handle, AppHost handle or pid; what that means for the packets is Pipeline.RouteReachesItsOwner |
| `Gateways.ReachableSessionsAreOwned` | src/gateway/gateway.cpp:246-312 | in every reachable state a session's client handle is a connection, open or in the middle of its release, that recorded that very session or is about to, and no other session has it |
| `Gateways.ReachableIndexesAreExact` | src/gateway/session_manager.cpp:29-217 | in every reachable state of every interleaving the three indexes are exact inverses of the records |
| `Gateways.IndexStepExact` | src/gateway/gateway.cpp:246-312 | each step's calls into the table keep the three indexes exact |
| `Gateways.ReadyExact` | src/gateway/gateway.cpp:675-680 | any READY, first or not, leaves two sessions on one AppHost handle if and only if it binds and its connection has recorded another session still bound to it |
| `Gateways.SecondReady` | src/gateway/gateway.cpp:675-682 | two binding READYs on one connection put both sessions on its handle; when it goes the first keeps the dead handle and is routed to whichever connection gets it next |
| `Gateways.SharedHandleReachable` | src/gateway/gateway.cpp:675-682 | a run from the start that ends there |
| `Gateways.Gateway.HandleSpawnApp` | src/gateway/gateway.cpp:614-673 | the branches of a spawn as steps, and by case what the client is answered: an error to a second session, a refusal or a failed fork, the acknowledgement of a manual session, nothing yet to an automatic one; the invariant kept unless the new session gets id 0 |
| `Gateways.SpawnOutcome` | src/gateway/gateway.cpp:614-673 | what those steps leave, field by field: nothing new for a second, refused or unforked session, else a record with its deadline and pid and a connection that has recorded it |
| `Gateways.RecordedExact` | src/gateway/gateway.cpp:615-650 | a client can tell that it has a session exactly when the new session's id is not 0; with id 0 it owns the session, has recorded none and can create no other |
| `Gateways.Gateway.HandleApphostReady` | src/gateway/gateway.cpp:675-702 | any READY for a known session not dead binds it to this connection and records it there, else nothing happens; only a bound automatic session is acknowledged, to its open client |
| `Gateways.Gateway.CloseSession` | src/gateway/gateway.cpp:728-741 | removes the session, tells both peers and asks the process to end |
| `Gateways.Gateway.ReleaseClient` | src/gateway/gateway.cpp:246-278 | after a client leaves no session points at its handle and its peer is told; a second release does nothing |
| `Gateways.Gateway.ReleaseApphost` | src/gateway/gateway.cpp:280-312 | after an AppHost leaves no session points at its handle and its peer is told; a second release does nothing |
| `Gateways.Gateway.FailSession` | src/gateway/gateway.cpp:835-853 | tears down unless already closing; exactly the messages owed |
| `Gateways.Gateway.MonitorPass` | src/gateway/gateway.cpp:790-833 | one pass removes exactly the sessions not closing whose recorded pid was reaped, or waiting past the spawn deadline, or active with the client silent for longer than the client timeout or the AppHost for longer than the AppHost timeout; leaves every other record unchanged, keeps the indexes, and sends for each of them once exactly the error, disconnects and signal owed |
| `Gateways.FailureReaches` | src/gateway/gateway.cpp:843-852 | who hears of a failure: the open client as an error, if to be told, and first; both connections are disabled; a recorded process is asked to end; no one else |
| `Gateways.CloseReaches` | src/gateway/gateway.cpp:728-741 | who hears of a close: each open peer and then the process, no one else |
| `Gateways.PassTotal` | src/gateway/gateway.cpp:790-833 | reaping and then testing deadlines on what is left fails the same sessions as both tests on the table at the start |
| `Gateways.SpawnDeadlineExact` | src/gateway/gateway.cpp:620-624 | a session waiting for its AppHost is failed by a monitor pass exactly when its timeout has passed; a manual one, created with timeout zero, by any later pass |
| `Gateways.DeadlinesExact` | src/gateway/gateway.cpp:803-831 | a session with any history of table operations that keeps it: a pass fails it if and only if its pid was reaped, or it still waits past its deadline, or it is bound and its client was last marked, or its AppHost last marked or bound, longer ago than their timeouts; a closing one never |
| `Gateways.SilenceIsNoticed` | src/gateway/gateway.cpp:822-829 | a bound session whose AppHost nobody marks any more is failed by every pass after its timeout, whatever else happens in the table |
| `InputHandoff.StepKeepsInv` | src/apphost/ui_host_impl.cpp:193-228 | drains queued, about to be queued and popped but not swapped are exactly one while the flag is set, none otherwise; dispatched, local and queued events are the push order |
| `InputHandoff.HandoffIsExact` | src/apphost/ui_host_impl.cpp:351-408 | for any number of threads and every interleaving, dispatched, swapped out and waiting input is what was posted, in order; exactly one drain exists while input waits and none otherwise |
| `InputHandoff.WorkIsFifo` | src/apphost/ui_host_impl.cpp:193-228 | in every run the work posted, drains and anything else, is taken up in the order posted, each item once |
| `InputHandoff.NothingIsStuck` | src/apphost/ui_host_impl.cpp:351-408 | in every reachable state waiting input has a drain queued, about to be queued or popped |
| `InputHandoff.LeftBehindExact` | src/apphost/ui_host_impl.cpp:193-210 | when the loop returns, input is left behind if and only if a thread is between setting the flag and posting |
| `InputHandoff.ShutdownExact` | src/apphost/ui_host_impl.cpp:193-228 | at the moment of quitting, no continuation can lose input already pushed if and only if it is not the case that the flag is set with no drain queued or popped |
| `InputHandoff.InputLost` | src/apphost/ui_host_impl.cpp:193-228 | a run from the start: one thread has set the flag, another quits, the loop returns, and the event is never dispatched |
| `InputHandoff.ReaderLosesNothing` | src/apphost/apphost.cpp:106-158 | when a single reader thread posts all input and is the first to ask to quit, every run in which the loop returns has dispatched all it posted before |
| `InputHandoff.HalfPostedExact` | src/apphost/ui_host_impl.cpp:351-366 | the flag is set with no drain queued or popped exactly while some thread is between its two critical sections |
| `InputHandoff.UiHost.PostInput` | src/apphost/ui_host_impl.cpp:351-366 | a whole post is the push step and, when the flag was clear, the post of one drain |
| `InputHandoff.UiHost.DrainInputQueue` | src/apphost/ui_host_impl.cpp:389-408 | swaps and dispatches exactly the waiting events in order |
| `InputHandoff.UiHost.OnHostLoopTurn` | src/apphost/ui_host_impl.cpp:193-210 | one wake-up runs all posted work and returns exactly if quitting was asked for; nothing pushed is undispatched if no post was half done |
| `LineMerge.CompressLine` | plugins/app_2048/app_2048_logic.cpp:35-67 | the two-cursor loop in place equals slide-and-merge-once, with its flags and its 32-bit gain |
| `LineMerge.SlideConserves` | plugins/app_2048/app_2048_logic.cpp:35-67 | a slide keeps the sum of a line and adds exactly its gain to the weight |
| `LineMerge.SlideFlagsMarkGain` | plugins/app_2048/app_2048_logic.cpp:45-66 | the cells flagged as merged are worth exactly the gain |
| `LineMerge.SlideCounts` | plugins/app_2048/app_2048_logic.cpp:45-62 | a merge that lifts a tile to 2^k used two tiles counted at 2^(k-1) |
| `LineMerge.SlideShape` | plugins/app_2048/app_2048_logic.cpp:35-67 | tiles come first and a cell is empty at the end unless the line is full without equal neighbours, when it is unchanged |
| `LineMerge.SlideByHand` | plugins/app_2048/app_2048_logic.cpp:35-67 | slide, flags and gain of every line without gaps, written out case by case |
| `LineMerge.GapMovesToEnd` | plugins/app_2048/app_2048_logic.cpp:35-42 | moving an empty cell to the end of a line changes nothing of the result, so the cases cover every line |
| `Board2048.DirectionsAreConjugate` | plugins/app_2048/app_2048_logic.cpp:83-108 | right is left in the mirror, up and down are left and right of the transpose |
| `Board2048.SlidIsOnCells` | plugins/app_2048/app_2048_logic.cpp:83-105 | cell by cell: left slides each row to its left end, right to its right end, up each column to its top, down to its bottom |
| `Board2048.LeftSlidesRows` | plugins/app_2048/app_2048_logic.cpp:88-90 | left, on slices of the board: each row of four cells is slid to its front |
| `Board2048.SlidConserves` | plugins/app_2048/app_2048_logic.cpp:110-128 | before the spawn a move in any direction keeps the tile sum and adds exactly its score to the weight |
| `Board2048.BoundKept` | plugins/app_2048/app_2048_logic.cpp:110-157 | at most 18 - k tiles of 2^k or more: kept by any move and spawn |
| `Board2048.WeightIsBounded` | plugins/app_2048/app_2048_logic.cpp:42-66 | under that bound the weight of a board is at most 3,932,164 |
| `Board2048.ScanExact` | plugins/app_2048/app_2048_logic.cpp:160-173 | on any board with a tile, the scan says a move is possible if and only if some direction changes the board |
| `Board2048.EmptyBoardScan` | plugins/app_2048/app_2048_logic.cpp:160-162 | on the empty board it is not exact: it says yes and nothing moves |
| `Game2048.HighlightsAreTheScore` | plugins/app_2048/app_2048_logic.cpp:110-128 | the highlighted tiles of a move are worth exactly what it scored |
| `Game2048.MergedIsOnCells` | plugins/app_2048/app_2048_logic.cpp:110-128 | the highlights cell by cell in the four directions: those of the row or column, if it moved |
| `Game2048.ChangedLeavesGap` | plugins/app_2048/app_2048_logic.cpp:110-134 | a changed move always leaves an empty cell, so exactly one tile is spawned |
| `Game2048.PlayKeepsInv` | plugins/app_2048/app_2048_logic.cpp:69-144 | one turn keeps the conservation laws, the bound and exact game over, whatever is spawned; the score never wraps |
| `Game2048.EveryReachableGame` | plugins/app_2048/app_2048_logic.cpp:9-18 | in every game: tiles are powers of two up to 2^17, score + 4 * fours is the weight, the sum is 2 * twos + 4 * fours, score at most 3,932,164, over exactly when nothing moves |
| `Game2048.Board.SpawnRandomTile` | plugins/app_2048/app_2048_logic.cpp:146-157 | a 2 or a 4 in some empty cell; nothing on a full board |
| `Game2048.Board.AnyMovePossible` | plugins/app_2048/app_2048_logic.cpp:159-173 | the loops compute the scan |
| `Game2048.Board.Reset` | plugins/app_2048/app_2048_logic.cpp:9-18 | an empty board with two spawned tiles, which is a valid start |
| `Game2048.Board.SlideAll` | plugins/app_2048/app_2048_logic.cpp:110-128 | the four line passes in place reach the slid board, flags and report, each line read before it is written |
| `Game2048.Board.Move` | plugins/app_2048/app_2048_logic.cpp:69-144 | a move in place is one turn of the game; field by field: the slid board with one new 2 or 4 in an empty cell if it changed, else the same cells; the highlights; the score plus what the move reports; over exactly when no direction changes the board; nothing at all in a finished game |
| `Framebuffer.PackPixelDataRect` | src/apphost/pixel_capture.cpp:31-64 | the nested loops fill the body with the six numerals and the cropped pixels in big-endian order |
| `Framebuffer.BodyLayout` | src/apphost/pixel_capture.cpp:43-48 | the numbers on the wire: frame, left, top, right, bottom, data length, four bytes each, then the pixels |
| `Framebuffer.CellOnWire` | src/apphost/pixel_capture.cpp:50-62 | cell (x, y) of the rectangle goes out as the four bytes at its place row by row among the rectangle's cells |
| `Framebuffer.CropThenPaste` | src/apphost/pixel_capture.cpp:51-62 | pasting what was cropped copies exactly the rectangle's cells, also between pictures of different widths |
| `Framebuffer.PackedVerdict` | src/client/pixel_renderer.cpp:47-97 | a packed rectangle is stale, out of bounds or pasted exactly as its number and the client's size say; never a bad length |
| `Framebuffer.AcceptedIsPacked` | src/client/pixel_renderer.cpp:80-97 | every body the client accepts is the packing of a rectangle inside its buffer |
| `Framebuffer.VerdictOnBytes` | src/client/pixel_renderer.cpp:47-97 | what the client answers to any bytes at all, in terms of the numbers they spell |
| `Framebuffer.CellFromBytes` | src/client/pixel_renderer.cpp:64-74 | an accepted body sets each cell of its rectangle from the four bytes at its place, and no other cell |
| `Framebuffer.FrameMirrors` | src/apphost/ui_host_impl.cpp:122-146 | one frame of a window makes an equal-sized client equal to the window |
| `Framebuffer.MirrorsExactly` | src/apphost/ui_host_impl.cpp:122-184 | from any client number not ahead of the window's and a full first frame, every frame is accepted if and only if the frames sent are no more than the numbers left, and then the client shows the window |
| `Framebuffer.MirrorsFromStart` | src/apphost/ui_host_impl.cpp:122-184 | from the first frame on: accepted if and only if fewer than 2^32 are sent |
| `Framebuffer.WrapFreezes` | src/client/pixel_renderer.cpp:54-54 | after frame 2^32 - 1 the client rejects each of the next 2^32 - 1 frames |
| `Framebuffer.ClipIsIntersection` | src/apphost/ui_host_impl.cpp:175-184 | clipping keeps exactly the cells of the damage that the window has, and is empty exactly when there are none |
| `Framebuffer.UiWindow.OnWindowDamage` | src/apphost/ui_host_impl.cpp:175-184 | damage is drawn, and with a sink sent under the next number, exactly when the window has a cell of it |
| `Framebuffer.UiWindow.OnWindowShow` | src/apphost/ui_host_impl.cpp:154-160 | showing draws the whole window and, with a sink, sends it |
| `Framebuffer.PixelRenderer.Reset` | src/client/pixel_renderer.cpp:35-45 | a blank buffer of at least one by one, frame number zero |
| `Framebuffer.PixelRenderer.ApplyDirtyRect` | src/client/pixel_renderer.cpp:47-78 | the checks in order, then the rows pasted in place; a rejected rectangle changes nothing |
| `Framebuffer.PixelRenderer.ApplyPixelDataBody` | src/client/pixel_renderer.cpp:80-97 | parses the 24-byte head, with signed coordinates, and applies the rest |
| `Mirroring.ScreenIsAWholeFrame` | src/client/client.cpp:322-325 | while every frame fits a packet: whatever part of the pixel stream has arrived, in whatever pieces, the client shows exactly what the window showed after some number of frames |
| `Mirroring.FitExact` | src/protocol/message_parser.cpp:26-29 | the whole pixel stream parses to all its frames if and only if every body is at most 64 MiB |
| `Mirroring.OversizedFrameFreezes` | src/protocol/message_parser.cpp:26-29 | once the header of a larger frame has arrived, the client shows the frame before it for ever |
| `Mirroring.PixelsThroughGateway` | src/gateway/gateway.cpp:584-612 | when the PIXEL_DATA packets an AppHost stamps with the session are its frames, whatever else it sends: forwarded by the gateway under every interleaving, cutting and draining, they show the client exactly some frame of the window, and the last one sent once everything is delivered |
| `Mirroring.PixelsReachTheirClient` | src/gateway/gateway.cpp:584-726 | the same with nothing assumed about routes: until the session ends or its client leaves, from any reachable state, as long as no other AppHost connection stamps pixels with the session |
| `EndToEnd.RStepKeepsInv` | src/gateway/gateway.cpp:554-612 | every step keeps, in either direction: packets handled and to be handled are the one-shot parse of the bytes received, and each connection was given whole good frames |
| `EndToEnd.HandlingByCommand` | src/gateway/gateway.cpp:567-580 | handling the next packet appends exactly its bytes to the connection its session is routed to, and touches no other, if and only if its command byte is none of the session opener, HEARTBEAT and CLOSE_SESSION; only a close touches the routes |
| `EndToEnd.Transparent` | src/gateway/gateway.cpp:554-612 | while a session keeps its route, for every command but the session opener, HEARTBEAT and CLOSE_SESSION, the packets with it and the session id queued to the connection it is routed to, and those handled from the sender, grow by the very same packets in order, whatever else interleaves |
| `EndToEnd.Isolated` | src/gateway/gateway.cpp:704-707 | while a session keeps its route, no frame with its id from any client is queued to another connection |
| `EndToEnd.AppHostSees` | src/protocol/message_parser.cpp:11-45 | any part of what the pool was given parses to the first frames enqueued, byte for byte; all of it to all of them |
| `EndToEnd.EndToEndTransparent` | src/gateway/gateway.cpp:704-726 | from any reachable state in which the session is routed, and for every command but the session opener, HEARTBEAT and CLOSE_SESSION: the packets with it and the session id that come out at the far end of what is enqueued from then on are a prefix of those the sender sends from then on, and all of them once everything is handled, handed over and received |
| `EndToEnd.RelayGateway.OnClientReceived` | src/gateway/gateway.cpp:554-581 | the receive callback in place is a run of the steps of EndToEnd.HandlingByCommand and leaves nothing unhandled; the session table, the replies to clients and the processes to end are those of the packets it completes, one after the other |
| `EndToEnd.RelayGateway.HandlePacket` | src/gateway/gateway.cpp:565-580 | every packet marks the sender's own session as seen; then, by its command byte, a close is told to the session's AppHost and the session is gone, a heartbeat is echoed, SPAWN_APP is left to its handler, and anything else is forwarded byte for byte and nothing more |
| `EndToEnd.CloseRepliesExact` | src/gateway/gateway.cpp:732-740 | what a close sends besides: the message to the session's client, then the signal to its process |
| `EndToEnd.RelayGateway.ForwardToApphost` | src/gateway/gateway.cpp:704-714 | re-serialises byte for byte to the AppHost connection the session table gives; drops without a route |
| `EndToEnd.RelayGateway.CloseRoute` | src/gateway/gateway.cpp:728-741 | closing removes the session, drops exactly its route, and tells the client, the AppHost and the process |
| `EndToEnd.RelayGateway.SendToApphost` | src/gateway/gateway.cpp:461-468 | enqueues to the open connection with the handle, if any |
| `Pipeline.MStepKeepsInv` | src/gateway/gateway.cpp:246-312 | in one machine with the lifecycle and the byte path every step of either keeps them in agreement: the relay's routes are the session table's and its active list is the open connections |
| `Pipeline.RoutesFollow` | src/gateway/gateway.cpp:614-741 | every lifecycle step changes the table's routes exactly as its effect on the relay does |
| `Pipeline.RouteReachesItsOwner` | src/gateway/gateway.cpp:452-468 | in every reachable state a routed session reaches a connection exactly while that connection is open; it has recorded the session or is about to, and no other session is routed to it |
| `Pipeline.EndsExact` | src/gateway/gateway.cpp:246-312 | a step takes a session's route from it if and only if it binds it again, removes it, or unlinks its connection |
| `Pipeline.LastsExact` | src/gateway/gateway.cpp:246-312 | over a whole run a route is in force throughout if and only if no step ends it |
| `Pipeline.RoutedEndToEnd` | src/gateway/gateway.cpp:704-726 | end-to-end transparency, for each command, and isolation until something ends the route, with nothing assumed about routes |
| `Pipeline.OnlyOwnFrames` | src/gateway/gateway.cpp:704-726 | while its route lasts a session's connection is sent nothing but the session's own frames and the gateway's own messages |
| `Pipeline.ClientsSeeOnlyTheirOwn` | src/gateway/gateway.cpp:716-726 | in every reachable state, a frame of an existing session that was queued to a connected client was queued to the client the session was created for |
| `Pipeline.RouteBegins` | src/gateway/gateway.cpp:614-683 | a client that creates a session, or an AppHost whose READY binds one, is open, and from that step on the session's packets reach its connection |
| `Pipeline.UnboundGetsNothing` | src/gateway/gateway.cpp:675-680 | in every reachable state an idle AppHost connection that has recorded no session has been sent no client's frame |
| `InputEvents.MouseRoundTrip` | src/common/input_event.cpp:112-148 | a packed mouse event is understood exactly when its kind is a mouse kind, and then with the kind and signed coordinates it was packed with |
| `InputEvents.KeyboardRoundTrip` | src/common/input_event.cpp:123-160 | a packed key is understood exactly when its kind is a key kind and its code fits a byte |
| `InputEvents.AcceptedExact` | src/common/input_event.cpp:133-163 | a body is accepted if and only if it is the packing of some valid event |
| `InputEvents.BodyMeans` | src/common/input_event.cpp:44-163 | what each body means, on its bytes: which bodies are accepted, which kind byte is which action of which button, where the coordinates and the key code stand |
| `InputPath.RunHandler` | src/apphost/apphost.cpp:128-158 | a handler call posts well-formed input, asks to quit or does nothing, as steps of the UI host |
| `InputPath.RunReader` | src/apphost/apphost.cpp:106-158 | a reader with the registered handlers posts exactly the input in the packets of the stream it hears, and asks to quit once for each CLOSE_SESSION among them, after the input of exactly the packets before it, and once if the connection closes |
| `InputPath.QuitsAreCloses` | src/apphost/apphost.cpp:135-138 | in any run in which the reader does what its handlers do on these packets: as many requests to quit, and each of them there |
| `InputPath.InputOfOne` | src/apphost/apphost.cpp:148-157 | a packet adds to the input exactly the event its body packs, if it is an INPUT_EVENT and that parses |
| `InputPath.ReaderToPlugin` | src/apphost/ui_host_impl.cpp:351-408 | in every interleaving with other threads and the loop, what the plugin is given is a prefix of the input in the packets parsed, and all of it in the end |
| `InputPath.InputThroughGateway` | src/gateway/gateway.cpp:704-714 | from any reachable state in which the session is bound, until its route ends: the plugin is given a prefix of the input in all packets with the session id its client has sent, in order, and all of it in the end, if no other client connection stamps input with it |
| `InputPath.InputFromReady` | src/gateway/gateway.cpp:675-714 | from the READY that binds the session: the plugin is given nothing but that |

## Left out

- EndToEnd.RelayGateway.OnClientReceived: what SPAWN_APP does is Gateways.Gateway.HandleSpawnApp; the session the connection has recorded and the time are parameters, the same for all packets of one callback.
- Gateways.Gateway.HandleSpawnApp: takes the outcome of parsing the body, the allow-list, file access and fork as parameters.
- SendPath.NoLostWakeUp: assumes the busy flag clears before the drain runs; the exact condition is WakeUpExact.
- SendPath.ConnTable.AllocConn: connection nodes are values in a map with a list of slots, not linked nodes in a pool; generations are unbounded, where the program has 64 bits.
- Framebuffer.UiWindow.OnWindowDamage: the plugin's drawing is a parameter, the picture it leaves; windows have positive size.
- Game2048.Board.SpawnRandomTile: the random generator is a free choice of cell and of 2 or 4.
- InputHandoff.UiHost.OnHostLoopTurn: one turn of the loop after its wait, with no thread interleaved; interleavings, and the turns in sequence, are runs of the step machine. Handlers do not enter the loop again.
- EndToEnd.RelayGateway.CloseRoute: the message to the client is recorded as offered to the client side; whether the client is open is in Gateways.Gateway.CloseSession.
- Mirroring.PixelsThroughGateway: assumes the route and that all pixels queued to the client come from one AppHost connection; PixelsReachTheirClient derives both.
- Pipeline.MStepKeepsInv: the lifecycle steps of a SPAWN_APP or APPHOST_READY may happen at any time, not only when such a packet is handled; the runs include all of the program's.
- InputPath.RunReader: the handlers run after the whole stream is parsed instead of packet by packet, and no other thread runs in between; interleavings are in ReaderToPlugin.
- The methods of the relay are written towards the AppHosts; the way back runs the same code on its own queues, and shares the step machine with APPHOST_READY in place of SPAWN_APP.
- The cached peer handles that connections store and nothing reads.
- Dropping dispatched input when the window is gone or has no handler.
- Sockets, the pool's internals, threads, spin locks, fork and exec, signals, logging and the command line.
- Loading plugins, drawing, fonts, the blits and the demo picture; capture_rect, which only copies rows.
- Parsing spawn bodies; starting and stopping the gateway; installing test boards.
