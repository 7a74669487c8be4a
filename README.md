# RAOP sink controller

A Dafny model of the decision logic of PulseAudio's RAOP (AirPlay) sink, `src/modules/raop/raop-sink.c`. The sink turns a PulseAudio sink into a stream to a RAOP receiver. It does four jobs:

- It picks the transport (TCP or UDP, no encryption or RSA, PCM or ALAC) from the module arguments when the sink is created.
- It reacts to the RAOP client's state changes: authenticated, connected, recording, disconnected or invalid.
- It reacts to the host's sink-state changes and volume and mute callbacks.
- It runs an I/O thread. The thread renders audio blocks, hands them to the client, tracks the bytes written (the audio cursor) for the latency smoother, and schedules the next send. On UDP with auto-reconnect it also watches the receiver's timing packets: once a first one has arrived, 30 seconds of silence make it ask for a reconnect, provided the connection is still alive.

The model has five modules:

- `RaopConfig`: the transport arguments, with a `Result` for every error `pa_raop_sink_new` reports about them.
- `RaopTime`: `pa_bytes_to_usec` and `pa_usec_to_bytes`, with whole frames rounded down.
- `RaopWatchdog`: the UDP timing watchdog, as a function over a sequence of clock events.
- `RaopIo`: one pass of the I/O thread's loop after polling, as a pure function (`Iterate`) of the thread's state and of what the environment reports.
- `RaopSink`: the class `RaopSinkCtl`, whose fields are the sink's `userdata` and the I/O thread's loop locals.
  - Its methods are the message handlers, the state and volume callbacks, and the I/O pass.
  - Every call the sink makes to the RAOP client, the smoother, the poll set's write interest or the host is appended to a ghost `trace` of `Action`s, and the methods' postconditions list those calls. Two kinds of call are not in the trace: the `pa_rtpoll_set_timer_*` calls are the `timer` field instead, and the I/O thread's start-up smoother reset is not modelled (see "## Left out").
  - `IoIteration` runs the pass in place and is proved to do exactly what `RaopIo.Iterate` describes. The lemmas about runs of `Iterate` (`RaopIo.Run`) therefore hold for back-to-back `IoIteration` calls with no handler in between. A handler that restarts the cursor (RECORDING, RUNNING) starts a new run.

The clock (`pa_rtclock_now`) and the client's answers (`is_alive`, `can_stream`, `is_recording`, `is_authenticated`, the send's result and errno) are parameters. The volume curve `pa_raop_client_adjust_volume` is a function parameter.

## Model

| member | source | states |
|---|---|---|
| RaopConfig.ProtocolName | src/modules/raop/raop-sink.c:812-819 | each protocol's spelling parses back to that protocol |
| RaopConfig.ParseProtocol | src/modules/raop/raop-sink.c:812-819 | exactly "TCP" gives TCP, exactly "UDP" gives UDP, every other string is unsupported (each an if-and-only-if) |
| RaopConfig.EncryptionName | src/modules/raop/raop-sink.c:824-833 | each encryption's spelling parses back to it |
| RaopConfig.ParseEncryption | src/modules/raop/raop-sink.c:824-833 | absent or "none" gives no encryption, "RSA" gives RSA, anything else is unsupported (if-and-only-if) |
| RaopConfig.CodecName | src/modules/raop/raop-sink.c:835-844 | each codec's spelling parses back to it |
| RaopConfig.ParseCodec | src/modules/raop/raop-sink.c:835-844 | absent or "PCM" gives PCM, "ALAC" gives ALAC, anything else is unsupported (if-and-only-if) |
| RaopConfig.ParseTransport | src/modules/raop/raop-sink.c:760-844 | the errors come in order: missing protocol, then unsupported protocol, encryption, codec; success exactly when all three parse, with the parsed values |
| RaopConfig.ArgsFor | src/modules/raop/raop-sink.c:812-844 | every transport is reachable from explicit arguments |
| RaopConfig.ParseTransportExact | src/modules/raop/raop-sink.c:812-844 | a successful parse came from the transport's own spellings, or from absent encryption or codec for the defaults |
| RaopTime.BytesToUsec | src/modules/raop/raop-sink.c:632 | the duration never exceeds the bytes' exact playing time |
| RaopTime.UsecToBytes | src/modules/raop/raop-sink.c:620 | the bytes never exceed what plays in the duration |
| RaopTime.BytesToUsecMonotone | src/modules/raop/raop-sink.c:632-640 | more bytes never play for less time |
| RaopTime.ConversionsOfZero | src/modules/raop/raop-sink.c:620 | no time is no bytes and no bytes is no time; used to show that without a device delay the smoother position is the cursor |
| RaopIo.NoDelayPositionIsCursor | src/modules/raop/raop-sink.c:620 | with `u->delay` zero (line 797, never changed), the position `write_count - pa_usec_to_bytes(delay)` is the cursor itself |
| RaopWatchdog.Heartbeat | src/modules/raop/raop-sink.c:500-503 | a timing packet records its time and resets the level to 1 |
| RaopWatchdog.Tick | src/modules/raop/raop-sink.c:527-558 | without a stream the watchdog only disarms (level kept, no request); the level stays in 1..3 and never changes before any timing packet has arrived; the level rises only one step, and only when the silence exceeds 10 s times the level; a reconnect request needs a live connection and more than 30 s of silence and restarts the watchdog |
| RaopWatchdog.WatchKeepsRange | src/modules/raop/raop-sink.c:527-558 | over any run of deadlines and timing packets, the level stays in 1..3 |
| RaopWatchdog.ReconnectsBoundedByHeartbeats | src/modules/raop/raop-sink.c:527-558 | reconnect requests never outnumber the timing packets received (plus one if armed at the start) |
| RaopWatchdog.QuietWithinLossWindow | src/modules/raop/raop-sink.c:537-554 | without timing packets, no reconnect is requested while the silence stays within 30 s |
| RaopWatchdog.EscalationSchedule | src/modules/raop/raop-sink.c:537-554 | after a packet at t0, deadlines past t0+10 s and t0+20 s raise the level to 2 and 3, and one past t0+30 s restarts the watchdog and requests a reconnect exactly when the connection is alive |
| RaopIo.ClassifySendError | src/modules/raop/raop-sink.c:588-612 | a failed send waits for POLLOUT exactly when errno is neither EINTR nor EAGAIN and the transport is not out-of-band; otherwise it requests a reconnect with auto-reconnect and fails without it |
| RaopIo.Rearm | src/modules/raop/raop-sink.c:517-522 | after the first pass of a stream the watchdog is at rest and the deadline 0; otherwise nothing changes; only the watchdog, the deadline and the flag are touched, and the flag is cleared |
| RaopIo.Supervise | src/modules/raop/raop-sink.c:527-558 | only a timer deadline on an out-of-band transport with auto-reconnect runs the watchdog; the level stays in range; a reconnect needs a live connection and restarts the watchdog |
| RaopIo.RenderIfDue | src/modules/raop/raop-sink.c:573-583 | a block is pulled exactly when no chunk is pending and the deadline is within a block; it is one block of the block size, and the render offset is its start; a pending chunk is never replaced; nothing else changes |
| RaopIo.Advance | src/modules/raop/raop-sink.c:614-619 | only the cursor and the chunk change; the cursor grows by what left the chunk; a send moves the chunk index by the bytes accepted and the cursor by the same amount (line 615); a discard empties the chunk |
| RaopIo.Reschedule | src/modules/raop/raop-sink.c:630-644 | a timed pass (auto-null without a stream, or an out-of-band stream woken by the timer) and a TCP pass whose chunk is drained set the deadline and timer to the cursor's send time, and every other pass keeps them; write interest is armed exactly on a TCP pass with a remainder and dropped exactly on one whose chunk is drained; no other call is made |
| RaopIo.SentFeedsCursor | src/modules/raop/raop-sink.c:613-645 | a send that went through feeds the smoother exactly one position, that of the new cursor (line 620); the packet is sent first, or not at all on a discard |
| RaopIo.DeliverFacts | src/modules/raop/raop-sink.c:585-646 | no chunk means a no-op; a failed send changes nothing except the fail flag; an accepted send advances the cursor and the chunk index by the bytes accepted; a discard counts the whole chunk; every rescheduling is to start plus the cursor's playing time; the smoother gets at most one position, the new cursor's, and gets it whenever the cursor moved |
| RaopIo.DeliverRendersNothing | src/modules/raop/raop-sink.c:585-646 | the send part of a pass never pulls audio from the render source |
| RaopIo.Play | src/modules/raop/raop-sink.c:573-646 | the render and the send keep the cursor monotone; at most one smoother position, the new cursor; a fail only without auto-reconnect and ending in an unload request |
| RaopIo.Iterate | src/modules/raop/raop-sink.c:513-646 | a sink that is not running does nothing; otherwise the restart flag is cleared, the cursor never goes back, the watchdog level stays in range, the timer is kept or set to the cursor's send time, auto-reconnect never fails, a fail ends in an unload request |
| RaopIo.DeadlineNeverMovesBack | src/modules/raop/raop-sink.c:630-644 | a pass never moves the timer deadline earlier, and keeps it within the cursor's send time |
| RaopIo.RenderOnlyWhenDrained | src/modules/raop/raop-sink.c:573-583 | a pass renders at most one block, of the block size, as its first action and only over an empty chunk; it renders exactly when the sink runs, the watchdog lets the pass go on, there is a stream or auto-null, and the deadline is within a block |
| RaopIo.TimedPassRearmsTimer | src/modules/raop/raop-sink.c:630-633 | a timed pass that plays a pending chunk, discarded or accepted, sleeps until the new cursor's send time |
| RaopIo.TcpPassFollowsWriteInterest | src/modules/raop/raop-sink.c:634-643 | on TCP without auto-null, an accepted send that leaves a remainder ends by arming write interest and keeps the timer; one that drains the chunk ends by dropping write interest, with the timer at the cursor's send time |
| RaopIo.PassCountsPlayedBytes | src/modules/raop/raop-sink.c:613-619 | a pass advances the cursor by exactly the bytes the client accepted, or by the whole pending chunk when it is discarded under auto-null, and by nothing on a failed send or a pass that does not play |
| RaopIo.RunCountsPlayedBytes | src/modules/raop/raop-sink.c:613-619 | over any run of passes, the cursor grows by the sum of the bytes each pass counted as played |
| RaopIo.SmootherFeedMonotone | src/modules/raop/raop-sink.c:613-628 | over any run of passes, the smoother is fed a non-decreasing series of positions between those of the starting and final cursor |
| RaopIo.AutoReconnectNeverFails | src/modules/raop/raop-sink.c:588-612 | over any run of passes after polling with auto-reconnect, no send failure puts the thread in its fail state (a POLLERR on a dead connection or a polling error still can, see OnPollError) |
| RaopIo.TransportErrorWithoutReconnect | src/modules/raop/raop-sink.c:604-611 | without auto-reconnect, a failed send that is not a POLLOUT wait ends in the fail state with exactly one unload request and no reconnect request |
| RaopIo.EagainWithoutOobIsNotAWait | src/modules/raop/raop-sink.c:598-603 | on TCP, EAGAIN reconnects or fails rather than waiting for POLLOUT |
| RaopSink.VolumeCommand | src/modules/raop/raop-sink.c:372-408 | nothing is sent exactly while muted; otherwise the adjusted loudest channel |
| RaopSink.MuteCommand | src/modules/raop/raop-sink.c:410-421 | muting sends the mute value; unmuting sends what setting the volume sends |
| RaopSink.MutedVolumeIsSilent | src/modules/raop/raop-sink.c:380-382 | while muted, no volume is sent whatever the level |
| RaopSink.LinkLossReaction | src/modules/raop/raop-sink.c:245-282 | suspended: disable the timer only; idle: nothing; otherwise re-authenticate exactly with auto-reconnect and request the unload exactly without it; the timer is disabled exactly when suspended, or when reconnecting without auto-null |
| RaopSink.RaopSinkCtl.constructor | src/modules/raop/raop-sink.c:765-942 | auto-null follows auto-reconnect; out-of-band on; no device delay; nothing registered; a zero cursor; the watchdog at rest; block size in bytes and its duration; the sink put (IDLE) and authentication started |
| RaopSink.RaopSinkCtl.OnDisconnectRequest | src/modules/raop/raop-sink.c:168-177 | only a running sink disconnects and re-authenticates |
| RaopSink.RaopSinkCtl.GetLatency | src/modules/raop/raop-sink.c:135-187 | 0 when auto-null is off and the client cannot stream; otherwise the smoother's delay plus the configured latency in microseconds |
| RaopSink.RaopSinkCtl.OnAuthenticated | src/modules/raop/raop-sink.c:192-213 | the unload request on failed authentication; with auto-reconnect and running, then the smoother reset and an announce if not alive |
| RaopSink.RaopSinkCtl.OnConnected | src/modules/raop/raop-sink.c:215-221 | the poll item is registered and the out-of-band flag is the client's answer |
| RaopSink.RaopSinkCtl.OnRecording | src/modules/raop/raop-sink.c:223-243 | the cursor and start time restart and the first flag is set; suspended: timer disabled and flush; otherwise timer armed now and the volume pushed |
| RaopSink.RaopSinkCtl.OnDisconnected | src/modules/raop/raop-sink.c:245-282 | the poll item is released first, then LinkLossReaction's calls and timer |
| RaopSink.RaopSinkCtl.SetSinkState | src/modules/raop/raop-sink.c:293-370 | the same state is a no-op; suspended tears down a live connection; idle after running disables the timer and flushes; running resets the smoother, restarts the cursor under auto-null, then announces or starts streaming; the state is recorded |
| RaopSink.RaopSinkCtl.SetVolumeCb | src/modules/raop/raop-sink.c:372-408 | sends the VolumeCommand, if any |
| RaopSink.RaopSinkCtl.SetMuteCb | src/modules/raop/raop-sink.c:410-421 | sends the MuteCommand |
| RaopSink.RaopSinkCtl.OnOobPacket | src/modules/raop/raop-sink.c:496-504 | the packet goes to the client; a timing packet is the watchdog's heartbeat, others leave it alone |
| RaopSink.RaopSinkCtl.OnPollError | src/modules/raop/raop-sink.c:485-495 | reconnect request when auto-reconnect and alive; otherwise the fail state and the unload request |
| RaopSink.RaopSinkCtl.RearmPhase | src/modules/raop/raop-sink.c:517-522 | the loop locals become exactly Rearm of the old state |
| RaopSink.RaopSinkCtl.SupervisePhase | src/modules/raop/raop-sink.c:527-558 | the watchdog becomes Supervise's; a reconnect request is posted exactly when Supervise asks for one |
| RaopSink.RaopSinkCtl.RenderPhase | src/modules/raop/raop-sink.c:573-583 | the chunk and offset become RenderIfDue's, with its render call |
| RaopSink.RaopSinkCtl.FailState | src/modules/raop/raop-sink.c:649-653 | the thread enters the fail state and requests its unload |
| RaopSink.RaopSinkCtl.SendFailed | src/modules/raop/raop-sink.c:588-612 | the reaction of ClassifySendError: its calls, and the fail state exactly when it says fail |
| RaopSink.RaopSinkCtl.AdvancePhase | src/modules/raop/raop-sink.c:614-619 | the cursor and chunk become Advance's |
| RaopSink.RaopSinkCtl.ReschedulePhase | src/modules/raop/raop-sink.c:630-644 | the deadline, timer and write interest become Reschedule's |
| RaopSink.RaopSinkCtl.SentPhase | src/modules/raop/raop-sink.c:613-645 | the state and calls become Sent's: packet, cursor, smoother update, rescheduling |
| RaopSink.RaopSinkCtl.DeliverPhase | src/modules/raop/raop-sink.c:585-646 | the state and calls become Deliver's |
| RaopSink.RaopSinkCtl.PlayPhase | src/modules/raop/raop-sink.c:573-646 | the state and calls become Play's: render, then deliver |
| RaopSink.RaopSinkCtl.IoIteration | src/modules/raop/raop-sink.c:513-646 | the new state and the calls are exactly those of RaopIo.Iterate, and the watchdog range is kept |

The definitions that the rows above state properties of, with their source lines:

- `RaopIo.Deliver` (src/modules/raop/raop-sink.c:585-646): the send of the pending chunk; its properties are `DeliverFacts` and `DeliverRendersNothing`.
- `RaopIo.Sent` (src/modules/raop/raop-sink.c:613-645): a send that went through or a discard, then the cursor, the smoother update and the rescheduling; see `SentFeedsCursor`.
- `RaopIo.Position` (src/modules/raop/raop-sink.c:620): the smoother position; see `NoDelayPositionIsCursor`.
- `RaopIo.Run` (src/modules/raop/raop-sink.c:441-647): consecutive passes of the loop, stopping at the fail state; see `SmootherFeedMonotone`, `RunCountsPlayedBytes` and `AutoReconnectNeverFails`.
- `RaopIo.TimedPass` (src/modules/raop/raop-sink.c:630): the passes that sleep until the next packet time; see `Reschedule` and `TimedPassRearmsTimer`.
- `RaopIo.Counted` and `RaopIo.RunCounted` (src/modules/raop/raop-sink.c:613-619): the bytes a pass, or a run of passes, counts as played; see `PassCountsPlayedBytes` and `RunCountsPlayedBytes`.
- `RaopWatchdog.Watch` (src/modules/raop/raop-sink.c:500-558): the watchdog over a run of deadlines and timing packets; see `WatchKeepsRange`, `ReconnectsBoundedByHeartbeats`, `QuietWithinLossWindow` and `EscalationSchedule`.

## Left out

- Polling itself (`pa_rtpoll_run`, 454-457), rewinds (459-462) and the per-descriptor loop over `revents` (464-511) are not modelled. They decide whether the pass reaches line 513. `OnPollError` and `OnOobPacket` model what happens to one descriptor.
- When a POLLERR is handled with a reconnect, `continue` skips `pollfd++`. The next descriptor index then examines the same descriptor again. This pairing of descriptors to indices is not modelled.
- Threads and message queues are not modelled. The handlers run one at a time on the controller. A DISCONNECT_REQUEST posted by the I/O thread is an action in the trace, not a call.
- The main thread's `u->sink->state` and the I/O thread's `thread_info.state` are one field, `sinkState`. The host writes it once the state callback returns; `SetSinkState` records it at the end.
- A sink created with a suspend cause, which `pa_sink_put` (line 938, in the host) starts SUSPENDED rather than IDLE, is not modelled: the constructor ends in IDLE.
- The I/O thread's start-up (lines 432-439): `pa_thread_mq_install` and the smoother reset to the thread's start time are not modelled; the handlers' own smoother resets are.
- The smoother's internals are represented by their calls only: reset, put, and the delay passed to `GetLatency`. The build without `USE_SMOOTHER_2` is not modelled.
- The module's link of auto-null to auto-reconnect is made by the constructor (line 780). The handlers read the two flags separately.
- Volume arithmetic is not modelled: `pa_cvolume_max`, `pa_sw_cvolume_divide` and the software volume. The loudest channel is a number, and the client's curve is an uninterpreted function.
- Sample spec, channel map, server, `latency_msec`, `autoreconnect` and sink-properties parsing are not modelled. Nor are card, port, profile, sink and thread creation, `userdata_free` and logging. Only the transport arguments are parsed.
- The audio data is not modelled: a chunk is its index and length. The client's send is an outcome (bytes accepted, or errno), and at most the pending bytes are accepted.
- Integers are unbounded. The 64-bit `write_count`, `intvl` and microsecond clock never wrap in the model. `now - last_timing` is assumed non-negative because the clock is monotonic (a requirement of `Tick` and `IoIteration`). The smoother position of line 620 is a signed integer; in `uint64` it would wrap if the delay's bytes exceeded the cursor, which cannot happen while the delay is 0.
- An EAGAIN on the TCP transport is handled as a broken transport, as line 598 is written, not as a wait for write interest. The comment at line 599 speaks of a full buffer, the usual meaning of EAGAIN. The model follows the code; `EagainWithoutOobIsNotAWait` states the consequence.
- The READ of the oob packet, the descriptor closing on disconnect and `pa_raop_client_handle_oob_packet`'s work belong to the client. They are single actions here.
