# ssh-obi: a verified model of the session protocol

ssh-obi keeps one remote shell alive while SSH connections come and go. A *client* starts `ssh`,
which starts a *broker* on the remote host; the broker connects to the *daemon* that owns the
shell's PTY. This project models the parts of that system whose correctness depends on the
order of events, and proves what they guarantee over all inputs and all interleavings.

`dafny verify dfyconfig.toml` checks everything.

| module | what it models |
|---|---|
| `Replay`, `Daemon` | the bounded replay ring and the mutex-guarded daemon state, as classes updated in place |
| `DaemonRuns` | the daemon's threads as a transition system: one step per critical section and per frame written |
| `DaemonDuties` | what single steps of it owe the peers: admission, release, exit status, farewells |
| `DaemonLimits` | where that falls short of a first reading of the documentation, and exactly when |
| `Wire`, `Cbor` | framing, and the two message bodies whose bytes matter |
| `Bootstrap` | the line-oriented prologue that shares the byte stream with the frames |
| `ClientErrors`, `Pinger`, `AttachedSession` | one attached session: its event loop, its keepalive and its error classes |
| `SessionVerdicts` | what a session makes of each event, as a list: when it ends and how, what it sends |
| `ClientRun` | the reconnect loop around it: recovery target, stale-client detach, backoff |
| `ClientVerdicts` | when that loop goes on and when it stops, from the outcome of each attempt |
| `ClientTerminal`, `ClientChannel` | the stdin reader, the pause/resume handshake and the shared event channel, as a two-thread transition system with spurious wakeups |
| `BrokerProxy` | the broker's two threads and their shared client writer, down to single write calls |
| `ProxyService` | which pings the broker answers and with what, what stops it, and that everything gets through |
| `Keepalive` | client, network and broker monitor in a timed model (milliseconds) |
| `SessionIds`, `Picker`, `ShellQuote`, `PtyPayload` | base32 ids, the picker's numbers, the remote command line, payload sizes |

Each loop in the source that updates variables is a method here with its invariants; it is proved
equal to, or directly satisfies, a specification, and the theorems are about that
specification. Concurrent parts are transition systems (`Enabled`, `Apply`, `Exec`): a theorem
over "every run" quantifies over every sequence of enabled steps. Clocks, the network, the
kernel's choice of how many bytes a call moves, ssh's behaviour, random bytes and the user's
answers are inputs.

## Where the code and its documentation differ

The model follows the code. The differences are stated as theorems, each with a run that shows it
and the exact condition:

- The documentation says the ring is replayed and live forwarding then resumes. The broker is
  published before its replay is written (src/daemon.rs:412, 437), so live output can get ahead
  (`DaemonLimits.LiveCanOvertakeReplay`). The frames ahead of the replay are exactly the chunks
  delivered between admission and replay (`DaemonLimits.AheadIsOvertaking`), and
  `DaemonLimits.StreamInOrderIff` says when the stream still reads in order.
- A failed PTY write evicts whichever broker is installed by then (src/daemon.rs:252-253):
  `DaemonLimits.EvictionCanHitAnInnocentBroker`, and `DaemonLimits.EvictionHitsWhom` for every run.
- Error exits of `attach_broker` leave the broker installed (src/daemon.rs:437-467), so that the
  next client is refused: `DaemonLimits.ErrorExitBlocksTheNextClient`, and
  `DaemonLimits.AbandonedBrokerStays` says what removes it.
- The exit status can precede the last output (src/daemon.rs:275-283):
  `DaemonLimits.ExitStatusCanOvertakeOutput`, and exactly when: `DaemonLimits.ExitStatusIsLastIff`.
- A token-checked exit compares wrapping 64-bit tokens; `DaemonRuns.ExitRemovesWhom` states for
  any number of admissions whom it removes.
- An empty argument is quoted as nothing and disappears from the remote command line
  (src/bootstrap.rs:37-42): `ShellQuote.RemoteShellCommand` states the arguments that do arrive,
  and that they are the intended ones if and only if none is empty.

As in the code, ATTACHED_SESSION precedes the daemon's admission: the proxy starts after it, and
a SESSION_BUSY may follow.

## Model

| member | source | states |
|---|---|---|
| `Replay.ReplayBuffer.constructor` | src/daemon.rs:13-22 | a new ring is empty and has the requested capacity |
| `Replay.NewReplayBuffer` | src/daemon.rs:13-22 | capacity zero, and only it, is refused |
| `Replay.ReplayBuffer.Append` | src/daemon.rs:40-55 | on every branch the ring ends as the last `capacity` bytes of old contents plus chunk |
| `Replay.ChunkingIsInvisible` | src/daemon.rs:40-55 | for every way output is cut into reads the ring is the last min(capacity, total) bytes of all of it |
| `Daemon.DaemonState.constructor` | src/daemon.rs:657-668 | no broker, token zero, empty default ring |
| `Daemon.DaemonState.TakeChunk` | src/daemon.rs:243-247 | appending to the ring and looking up the writer are one atomic change, and touch nothing else |
| `Daemon.DaemonState.ChildExited` | src/daemon.rs:275-279 | only the shutdown flag changes; the installed writer is returned |
| `Daemon.DaemonState.NextAttachToken` | src/daemon.rs:680-683 | the token advances by one and wraps after 2^64 - 1 |
| `Daemon.DaemonState.Attach` | src/daemon.rs:400-417 | busy exactly when a broker is installed, and then nothing changes; otherwise token, snapshot and publication in one step |
| `Daemon.DaemonState.DetachCurrent` | src/daemon.rs:685-689 | removes whatever broker is installed, returns its writer, stamps the time in any case |
| `Daemon.DaemonState.ReleaseIfOwner` | src/daemon.rs:470-477 | removes the broker and stamps the time if it carries the handler's own token, and otherwise changes nothing |
| `DaemonRuns.RunKeepsInv` | src/daemon.rs:235-516 | every interleaving of reader, waiter, attach and control handlers keeps the full invariant |
| `DaemonRuns.ContiguousDelivery` | src/daemon.rs:397-438 | for every admission in every run, snapshot followed by claimed chunks is one contiguous slice of the PTY history, no gap, no repeat, up to now while installed |
| `DaemonRuns.WireFollowsClaims` | src/daemon.rs:482-497 | on each connection, taking out the single replay frame leaves the claimed chunks in claim order; at most the last claim is missing |
| `DaemonRuns.RingIsRecentHistory` | src/daemon.rs:243-247 | after any run the ring is the last 65,536 bytes of history |
| `DaemonRuns.SentBeforeAttach` | src/daemon.rs:400-417 | all live output sent to an earlier admission had been read before a later one attached |
| `DaemonRuns.NoLossAcrossReconnect` | src/daemon.rs:410-416 | a later snapshot ends with everything still owed to an earlier admission, from the first byte of its snapshot or of later output that it was not sent, if and only if that is at most 65,536 bytes |
| `DaemonRuns.TokenIsAdmissionCount` | src/daemon.rs:680-683 | the n-th admission draws n modulo 2^64 |
| `DaemonRuns.TokenOwnership` | src/daemon.rs:400-417 | the installed broker carries the latest token; admissions and effective releases strictly alternate, each release naming the connection just admitted |
| `DaemonRuns.TokensIncrease` | src/daemon.rs:680-683 | below 2^64 admissions, token order is admission order and no two connections share a token |
| `DaemonRuns.ExitRemovesWhom` | src/daemon.rs:470-477 | a token-checked exit removes a broker exactly when the admissions in between are a multiple of 2^64; below 2^64 exactly when the leaving handler's own broker is installed |
| `DaemonDuties.AttachIsAdmittedIff` | src/daemon.rs:400-417 | in every run an attach is admitted if and only if nobody is installed, with the last 65,536 bytes of history as its snapshot; otherwise only its own handler ends |
| `DaemonDuties.LeaveRemovesIff` | src/daemon.rs:470-477 | in every run the exit of a handler removes the installed broker, stamps the time and adds one release, if and only if the admissions since its own are a multiple of 2^64; otherwise the guarded state stays as it was; below 2^64 that is exactly when it is installed itself |
| `DaemonDuties.CleanEndFreesTheSession` | src/daemon.rs:418-477 | after a clean end or a refused window size the handler leaves, and the next client to attach is admitted |
| `DaemonDuties.ExitTellsTheBroker` | src/daemon.rs:275-283 | the shell's exit sets the shutdown flag and nothing else, and the exit status goes to the installed broker exactly |
| `DaemonDuties.ExitStatusWasDue` | src/daemon.rs:263-286 | an exit status on a connection means that it was the installed broker when the shell exited |
| `DaemonDuties.DetachRequestRemoves` | src/daemon.rs:361-371 | a detach request removes whoever is installed and stamps the time in any case |
| `DaemonDuties.FarewellsAreConserved` | src/daemon.rs:361-371 | on every connection: CLIENT_SHOULD_EXIT frames written, owed and failed are together the detach requests that found it installed |
| `DaemonDuties.DetachTimeIsRecorded` | src/daemon.rs:685-689 | the recorded detach time is that of the run's last removal or detach request |
| `DaemonLimits.AheadIsOvertaking` | src/daemon.rs:409-438 | in every run the live frames before a connection's replay frame are exactly the chunks delivered to it between admission and replay; none of either, and the replay comes first |
| `DaemonLimits.StreamInOrderIff` | src/daemon.rs:409-438 | the client's stream is the history from the snapshot's start to the last byte sent, if and only if those chunks commute with the snapshot; in particular when there are none |
| `DaemonLimits.UnreplayedIsInOrder` | src/daemon.rs:436-438 | with an empty snapshot, or without a replay frame, the stream is always the history from the admission on |
| `DaemonLimits.LiveCanOvertakeReplay` | src/daemon.rs:409-438 | a run in which the client reads 2 then 1 although the shell printed 1 then 2 |
| `DaemonLimits.EvictionHitsWhom` | src/daemon.rs:249-254 | in every run an eviction removes the failing writer's broker if and only if nothing was admitted or released since the chunk was claimed, another's if and only if the writer was released and a later admission is in force, and otherwise nobody's |
| `DaemonLimits.EvictionCanHitAnInnocentBroker` | src/daemon.rs:249-254 | a run in which a broker whose writes never failed is evicted for another's failure |
| `DaemonLimits.AbandonedBrokerStays` | src/daemon.rs:437-467 | a broker whose handler ended in an error is removed by an eviction or a detach request and by no other step |
| `DaemonLimits.ErrorExitBlocksTheNextClient` | src/daemon.rs:437-467 | a run in which such a broker makes the next client find the session busy |
| `DaemonLimits.ExitStatusIsLastIff` | src/daemon.rs:263-286 | once everything claimed for a connection is written, no output stands behind its exit status if and only if none was being written when the status went out and none was claimed since |
| `DaemonLimits.ExitStatusCanOvertakeOutput` | src/daemon.rs:263-286 | a run in which the exit status precedes the last output on the wire |
| `Wire.NewFrame` | src/protocol.rs:96-109 | accepted exactly up to 1 MiB of payload, carrying the given type, flags and payload; refused with both sizes otherwise |
| `Wire.WriteFrame` | src/protocol.rs:145-163 | an oversized frame writes no byte; otherwise the canonical bytes, or their prefix when the writer fails |
| `Wire.Stream.ReadFrame` | src/protocol.rs:166-203 | for every way reads are split: the outcome and the bytes consumed are those of `Parse`, clean end only before a header |
| `Wire.ParseUndoesEncode` | src/protocol.rs:145-203 | decoding undoes encoding, whatever follows |
| `Wire.EncodeUndoesParse` | src/protocol.rs:145-203 | only the canonical bytes of a frame parse as it |
| `Wire.LengthRoundTrip` | src/protocol.rs:145-163 | a payload length within the limit survives the big-endian length field |
| `Wire.FrameLayout` | src/protocol.rs:145-163 | byte by byte: type, flags, the length with its most significant byte first, the payload |
| `Wire.ReadAllUndoesEncodeAll` | src/protocol.rs:166-203 | any concatenation of frames is read back exactly, then what follows is read |
| `Wire.WholeStreamRoundTrip` | src/protocol.rs:166-203 | frames written and closed are read back exactly and end cleanly |
| `Wire.PieceIsTruncated` | src/protocol.rs:166-203 | a proper piece of a frame yields no frame and no oversize verdict |
| `Wire.CutYieldsWholeFrames` | src/protocol.rs:166-203 | a stream of valid frames cut at any byte yields exactly the frames delivered whole, then a cut outcome, clean only at a boundary |
| `Cbor.ParseUndoesKeepaliveBody` | src/protocol.rs:323-326 | every 64-bit nonce survives its body |
| `Cbor.HeadLayout` | src/protocol.rs:127-135 | initial bytes and argument widths are those of the standard's shortest forms |
| `Cbor.NonceFits` | src/protocol.rs:137-143 | whatever decodes as a nonce is a 64-bit number, so echoing it is always possible |
| `Cbor.ParseUndoesPtyBody` | src/protocol.rs:310-313 | every byte string survives as an array of integers |
| `Bootstrap.ReadLine` | src/client.rs:1606-1626 | takes exactly the bytes through the newline, or all of them at the end of the stream |
| `Bootstrap.WaitForBootstrap` | src/client.rs:1574-1604 | verdict, bytes consumed and prompts confirmed are those of `Prologue`, for every stream |
| `Bootstrap.PrologueEndsAt` | src/client.rs:1583-1603 | after any noise and confirmed prompts: a declined prompt, an unsent reply, a failing prompt, `OBI-ERROR ` with its message, or any other `OBI-` line ends it with its own verdict, consumed exactly through that line |
| `Bootstrap.PrologueCutShort` | src/client.rs:1580-1626 | a stream that fails, or ends without a decisive line, is reported as that |
| `Bootstrap.LastLineDecides` | src/client.rs:1606-1626 | a last line without newline counts as a line |
| `Bootstrap.TrimFindsText` | src/client.rs:1581-1581 | a line reads as its text whatever carriage returns and newlines end it |
| `Bootstrap.MarkersSpelled` | src/bootstrap.rs:4-6 | the markers are the texts the remote script prints |
| `Bootstrap.MeaningBegins` | src/client.rs:1582-1603 | a line that does not begin with `OBI-` is never a marker or an error |
| `Bootstrap.PrologueStopsAtReady` | src/client.rs:1574-1626 | any noise and confirmed install prompts, then the ready line: consumed exactly through its newline, whatever follows |
| `Bootstrap.ExactHandoff` | src/client.rs:1574-1626 | the frames after the ready line are then read back exactly, with a clean end |
| `AttachedSession.RunAttachedSession` | src/client.rs:1063-1294 | the event loop refines the `Session` specification for every sequence of passes |
| `SessionVerdicts.SuccessIff` | src/client.rs:1236-1258 | a session ends with exit code c if and only if its first decisive event is its own closing frame for c: CLIENT_SHOULD_EXIT for 0, EXIT_STATUS for its code in 0..255, 1 for any other code and for a signal |
| `SessionVerdicts.FailureIff` | src/client.rs:1089-1290 | a session ends in an error if and only if its first decisive event is the one listed for that error, and it reports the id confirmed until then |
| `SessionVerdicts.ConfirmedIsLastAttached` | src/client.rs:1180-1198 | the confirmed id is the one its own reader delivered last |
| `SessionVerdicts.InputIsForwarded` | src/client.rs:1118-1158 | exactly the keystrokes typed before stdin ended are sent, in order, and one report for each change of the window |
| `SessionVerdicts.PingsAreNumbered` | src/client.rs:1098-1116 | pings carry 1, 2, 3, ... in 64 bits |
| `SessionVerdicts.PingGoesOut` | src/client.rs:1098-1116 | a due ping goes out at that very pass and is awaited for 45 s |
| `SessionVerdicts.DeadBrokerIsNoticed` | src/client.rs:1089-1117 | with keepalive a session is over by the first pass 45 s after one at which it should have pinged, if no pong ever comes |
| `AttachedSession.ConfirmedIsRequested` | src/client.rs:1186-1197 | a session asked for by id confirms that id or none, whatever the broker sends |
| `AttachedSession.SessionErrors` | src/client.rs:1082-1291 | the only errors a session itself can end with |
| `AttachedSession.OldReadersAreInvisible` | src/client.rs:1162-1165 | replacing every frame of other attempts by silence changes nothing at all |
| `AttachedSession.ScreenShowsOwnOutput` | src/client.rs:1199-1222 | the screen gains exactly the output its own reader delivered, in order |
| `AttachedSession.HarmlessIsInconclusive` | src/client.rs:1082-1294 | without a closing frame a session can only end ambiguously |
| `AttachedSession.CutIsNeverAVerdict` | src/client.rs:1296-1315 | any valid frames cut at any byte, also inside a closing frame: unless a closing frame got through whole, never success, never a definitive error, only what `is_ambiguous_disconnect` accepts |
| `AttachedSession.LastWordEndsSession` | src/client.rs:1162-1177 | once the reader's end or error has been taken the session is over |
| `AttachedSession.SilentBrokerIsNoticed` | src/client.rs:1082-1117 | an unanswered ping ends the session by the first pass at or after its deadline |
| `ClientRun.RunClient` | src/client.rs:78-180 | the reconnect loop refines the `Client` specification: result, every ssh started, every wait |
| `ClientVerdicts.PassGoesOnIff` | src/client.rs:86-178 | the client tries again if and only if the attempt's outcome is one listed for it, stops with the listed result otherwise, and detaches a stale client exactly when its own session is busy |
| `ClientVerdicts.EveryLossIsRecovered` | src/client.rs:149-176 | whenever a pass loses a session whose id is known, confirmed just now or before, the run's next call is an Attach to that id at the user's own destination |
| `ClientVerdicts.RunStopsThere` | src/client.rs:85-180 | a run ends at the first pass whose outcome it does not go on from, with the result listed for it |
| `ClientVerdicts.RunGoesOn` | src/client.rs:85-180 | and it does not end otherwise |
| `ClientVerdicts.ClientExitIff` | src/client.rs:431-457 | the client exits with n if and only if a pass of its run had a session that ended well and n is what its exit code and ssh's status are reported as |
| `ClientVerdicts.AttemptsAreNumbered` | src/client.rs:86-86 | attempt ids go up by one, to the 64-bit maximum |
| `ClientVerdicts.AttemptInsists` | src/client.rs:564-594 | an attempt confirms the session named, or else picked, or none; one at a new session never finds a mismatch |
| `ClientVerdicts.ErrorClasses` | src/client.rs:1548-1572 | the two error classes, constructor by constructor |
| `ClientVerdicts.DeadBrokerEndsAttempt` | src/client.rs:431-444 | with keepalive negotiated no attempt outlives a broker that stopped answering |
| `ClientRun.ExitCodeWith` | src/client.rs:1536-1546 | the session's code if ssh succeeded, else ssh's code in 1..255, else 1; zero exactly when both succeeded |
| `ClientRun.DelayDoubles` | src/client.rs:182-194 | the wait doubles to two minutes and stays, for every 32-bit attempt count, despite the checked shift |
| `ClientRun.AttemptConfirmsRequested` | src/client.rs:350-457 | an attempt that names a session confirms that one or none |
| `ClientRun.PassKeepsTarget` | src/client.rs:85-180 | one pass never leaves recovery and never changes the known session |
| `ClientRun.RecoveryPinsTarget` | src/client.rs:85-180 | from the first recovering call on, every ssh is an Attach to, or a stale-client Detach of, one session at the user's own destination |
| `ClientRun.EveryRunPinsTarget` | src/client.rs:46-180 | the same from the start of every client, including detach-connect |
| `ClientRun.BackoffOverRun` | src/client.rs:85-194 | over whole runs waits go 1, 2, 4, ..., 120 s and start over exactly after a pass whose session had confirmed its id and lost the connection |
| `ClientRun.RecoveryPerseveres` | src/client.rs:1548-1572 | a recovering client gives up only on a definitive error, never on its own busy session |
| `ClientTerminal.RunKeepsInv` | src/client.rs:800-958 | every interleaving with any spurious wakeups keeps the handshake invariant, no lost wakeup included |
| `ClientTerminal.StdinHandoverIsExclusive` | src/client.rs:836-888 | from the return of `pause` until `resume` withdraws the request the reader is parked or finished and cannot poll or read |
| `ClientTerminal.PauseStartsUnacknowledged` | src/client.rs:836-888 | no acknowledgement of an earlier pause can satisfy a later one |
| `ClientTerminal.TerminalIsFreeForSsh` | src/client.rs:85-180 | at every loop head, dial, sleep and stale-client detach: no attached I/O, or paused, raw mode released, reader out of the way |
| `ClientTerminal.SessionOwnsTheTerminal` | src/client.rs:800-827 | in a session raw mode is held exactly on a terminal, no pause is asked for, and the reader is up |
| `ClientTerminal.PauseRemembersWhy` | src/client.rs:85-180 | after the pause comes what the session's end called for: the stale-client detach, or the wait |
| `ClientTerminal.ReaderHandsOver` | src/client.rs:900-931 | the reader hands over its last word exactly after a failure or the end of the input, and a batch exactly when it has reached 65,536 bytes or nothing more is pending |
| `ClientTerminal.PauseComesCloser` | src/client.rs:900-958 | while `pause` waits every reader step answers it or decreases a measure; spurious wakeups change nothing |
| `ClientTerminal.ReaderCanMove` | src/client.rs:900-958 | while `pause` waits the reader always has a step to take |
| `ClientTerminal.PauseMakesProgress` | src/client.rs:841-855 | `pause` completes once the reader has had its bounded number of steps |
| `ClientTerminal.ResumeMakesProgress` | src/client.rs:872-887 | `resume` completes at the parked reader's next step, and that reader has been notified |
| `ClientChannel.AttemptIsolation` | src/client.rs:1291-1316 | below the maximal attempt id, what each attempt acted on is an in-order prefix of its own reader's frames, and the running one's rest is still queued |
| `ClientChannel.KeystrokesStayInTheirEpoch` | src/client.rs:857-931 | no keystroke read before a pause is forwarded after it; since then every one read is forwarded in order, still queued or in the reader's hand, unless reading failed in mid-batch, which ends the reader |
| `BrokerProxy.ProxyIsFaithful` | src/server.rs:404-481 | in every interleaving: the daemon gets the client's frames in order without PINGs through the first DETACH; the client gets the daemon's frames in order through the first closing one, shuffled with PONGs that answer a prefix of its PINGs; complete after a normal end |
| `BrokerProxy.ClientReadsWholeFrames` | src/server.rs:424-481 | at every moment the client stream parses as ATTACHED_SESSION and exactly the relayed frames, then a cut outcome |
| `BrokerProxy.PongFor` | src/server.rs:430-441 | a ping is answered if and only if it decodes, by a PONG that decodes to the same nonce |
| `ProxyService.ThroughTheFirstFinal` | src/server.rs:444-475 | a direction is let through up to and including its first final frame: DETACH from the client; CLIENT_SHOULD_EXIT, SESSION_BUSY, EXIT_STATUS or ERROR from the daemon |
| `ProxyService.PongsEchoNonces` | src/server.rs:426-442 | in every run the nonces on the PONGs are a prefix of the nonces of the client's PINGs, in order, and all of them after a normal end |
| `ProxyService.NothingBehindAnOffence` | src/server.rs:427-433 | nothing behind a PING that does not decode or was not negotiated is forwarded or answered; without keepalive no PONG is ever sent |
| `ProxyService.WorkIsBounded` | src/server.rs:424-481 | every step of either thread uses up some of a bounded amount of work |
| `ProxyService.RunsToTheEnd` | src/server.rs:424-481 | until both threads are over one of them can move without a fault: the shared writer never blocks both |
| `ProxyService.EverythingGetsThrough` | src/server.rs:424-481 | a faultless run that has come to its end has delivered both directions completely and answered every PING |
| `PtyPayload.AppendPendingStdinBytes` | src/client.rs:1013-1053 | the batch is the first read and all later ones in order, extended while below 65,536 bytes and so at most 73,727; which round ended it and whether with an error |
| `PtyPayload.SafeSizeIff` | src/protocol.rs:96-102 | a size is accepted whatever the content exactly up to 524,282 bytes |
| `PtyPayload.DaemonDataAlwaysFits` | src/daemon.rs:482-497 | in every run of the daemon reads, snapshots and written data frames are within 8,192 and 65,536 bytes and never rejected |
| `PtyPayload.BatchAlwaysFits` | src/client.rs:916-925 | every batch of keystrokes is accepted as a frame and decodes to the same bytes |
| `Keepalive.KeepaliveNeverMisfires` | src/client.rs:1082-1117 | from the attach request on, with the monitor starting whenever the broker has attached: within comfortable delays and with nothing broken at most one ping is outstanding and neither side ever gives up |
| `Keepalive.HealthyRunsLast` | src/client.rs:1082-1117 | such runs go on past any time |
| `Keepalive.SlowButAliveIsCut` | src/server.rs:514-534 | beyond those delays a session with nothing broken can be given up: by the client if an answer can take 45 s, otherwise by the monitor after one complete slow exchange |
| `Keepalive.NeverMisfiresIff` | src/server.rs:514-534 | no run with nothing broken misfires if and only if turnaround plus twice the slack plus the spread of the forward delay is at most 30 s |
| `Keepalive.SilenceShutsTheLink` | src/server.rs:514-534 | whoever dies and whatever is lost: if no more pings get through, the daemon link is shut within 45 s and two scheduling latencies of the last |
| `Keepalive.GoneClientIsCutOff` | src/server.rs:514-534 | a client that died or gave up frees its session within the forward delay, 45 s and two latencies |
| `Keepalive.SilenceCanLast` | src/server.rs:514-534 | from every moment of every run such a silence can set in and last past any time, and ends with the link shut |
| `Keepalive.WaitingIsBounded` | src/client.rs:1091-1098 | a client waits for a pong at most one slack past its deadline, lost or not |
| `SessionIds.EncodeBase32Lower` | src/session.rs:134-161 | for every input and length: the encoding of section 6 of RFC 4648, lowercase, unpadded, cut to min(len, ceil(8n/5)) |
| `SessionIds.StandardExample` | src/session.rs:134-161 | the encoding of "f" is the standard's own example, in lower case without padding |
| `SessionIds.EmitDigits` | src/session.rs:144-148 | the inner loop keeps the encoding relation and stops with under five bits or a full output |
| `SessionIds.ShiftInBits` | src/session.rs:141-142 | after the 32-bit shift and bitwise or the new bits follow the old low bits; what falls off the top never reaches them |
| `SessionIds.Base32Injective` | src/session.rs:134-161 | no two inputs of one length share an encoding |
| `SessionIds.CandidatesCollideIff` | src/session.rs:82-90 | two hashes give the same id exactly when their first fifty bits agree |
| `SessionIds.NewSessionId` | src/session.rs:20-36 | accepted exactly for 8 to 10 characters of `a`-`z`, `2`-`7`; a wrong length is reported first and with its value |
| `SessionIds.IdCharactersAreTheAlphabet` | src/session.rs:28-31 | validation accepts the encoder's alphabet, no more and no less |
| `SessionIds.CandidateIsValid` | src/session.rs:87-88 | eight hash bytes always give an id that validation accepts |
| `SessionIds.GenerateSessionId` | src/session.rs:77-96 | the first draw that is not taken, never an existing id; exhausted exactly when all 128 are taken; random-source failures stop it |
| `Picker.PickerRows` | src/session.rs:485-512 | one row a session in order, numbered by the free sessions before it |
| `Picker.ShownIffRank` | src/session.rs:485-512 | a row shows a number exactly when its session is free, and k exactly when it is the k-th free one |
| `Picker.SelectionFollowsNumbers` | src/client.rs:735-750 | typing the number on a row selects that row's session |
| `Picker.RefusedIffUnshown` | src/client.rs:735-750 | a number is refused exactly when no row shows it |
| `Picker.AutoSelectByCount` | src/session.rs:454-465 | new, attach or prompt exactly for none, one or several free sessions; a lone one is the one that typing 1 selects |
| `ShellQuote.QuoteScans` | src/bootstrap.rs:36-46 | where a word may begin, a quoted value of any characters reads as exactly that one word |
| `ShellQuote.CommandScans` | src/bootstrap.rs:18-21 | any list of quoted words reads back as its non-empty members |
| `ShellQuote.TerminalType` | src/bootstrap.rs:25-34 | the environment's value whenever that is useful, otherwise the default; never empty, never `dumb` |
| `ShellQuote.Intended` | src/bootstrap.rs:10-18 | the argument list the command line is for, position by position |
| `ShellQuote.RemoteShellCommand` | src/bootstrap.rs:10-23 | tokenised by the POSIX rules, the command is the intended argument list if and only if no argument is empty |

## Left out

- src/pty.rs, `daemonize_after_bind`, socket directories and permissions, MOTD: operating-system calls without logic of their own.
- CBOR in general: only the keepalive and PTY-data bodies are spelled out (shortest-form heads, section 3.1 of RFC 8949); other bodies are values already decoded.
- src/transport.rs, src/cli.rs, src/foreground.rs, table layout, prompts, local times and error texts: wrappers and user interface.
- The daemon's control requests other than DETACH, its capability exchange, the SESSION_BUSY reply to a refused attach, and client input written to the PTY: `DaemonRuns` follows output only. A superseded handler's input is therefore not constrained either.
- The list, version and detach actions of `run_client`, the dialogue of `run_client_attempt` before a session starts, and the interruptible sleep: flat sequences; a dial is an input that fails or leads to a session.
- The first window-size report of `run_attached_session`: made before the modelled loop.
- What a reconnect meets when the session is gone: src/bin/ssh-obi-server/main.rs is not part of this model.
- In-process prompts during recovery: the parked reader still holds the process's stdin lock, so `ClientTerminal.TerminalIsFreeForSsh` speaks of the ssh child only.
- The mutex and condition variables of client and daemon: each critical section is one atomic step, and poisoning is not modelled. The shared flags of the handshake are therefore state-machine fields, not a class.
- A client pipe that has failed is assumed to stay failed (`BrokerProxy.Enabled`); the daemon's connections are not assumed to, so that its theorems cover both cases (`DaemonRuns`).
- Wire.Stream.ReadFrame: an interrupted first read, which the source reports as an I/O error, is a read error at the end of the data here.
- Bootstrap.ReadLine: lines stay bytes; the lossy UTF-8 conversion only affects text shown to the user.
- ClientTerminal.PauseMakesProgress: assumes finitely many interrupted calls (`interrupts`), and that polls and ready reads return.
- Keepalive.NeverMisfiresIff: delays are bounded by given constants and time is in whole milliseconds on one clock; a ping that has to wait for the broker to finish attaching must still meet the forward delay, and the client enters its loop within one slack of its request. A monitor stopped because the session ended is not modelled: the link is being closed then anyway.
- Picker.SelectionFollowsNumbers: parsing the typed text into a number is not modelled.
- ShellQuote.RemoteShellCommand: the tokeniser refuses any unquoted character that could be an operator or start an expansion, rather than modelling expansions.
- SessionIds.GenerateSessionId: hash bytes are inputs; the seed and the hash function are not modelled.
