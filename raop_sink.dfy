/**
 * The RAOP sink's controller: the per-device state that the message handlers,
 * the host's state and volume callbacks and the I/O thread update in place.
 * The RAOP client's answers and the clock are parameters; every call to a
 * collaborator is appended to the ghost `trace`.
 */
module RaopSink {
  import opened RaopConfig
  import opened RaopTime
  import opened RaopWatchdog
  import opened RaopIo

  /** The host's sink states. */
  datatype SinkState = Init | Idle | Running | Suspended | Unlinked | InvalidSinkState

  /** PA_SINK_IS_OPENED: the sink is in use. */
  predicate IsOpened(st: SinkState) {
    st == Running || st == Idle
  }

  /** What the host's sink holds for the volume callbacks: the mute flag and the loudest channel of the real volume. */
  datatype SinkVolume = SinkVolume(muted: bool, realMax: nat)

  /** PA_VOLUME_MUTED, the value the client is sent when muting. */
  const VolumeMuted: nat := 0

  /**
   * The decision of sink_set_volume_cb: nothing while muted; otherwise the
   * loudest channel mapped through the client's volume curve `adjust`
   * (the per-channel remainder is applied in software by the host).
   */
  function VolumeCommand(v: SinkVolume, adjust: nat -> nat): (r: Option<nat>)
    ensures r.None? <==> v.muted
    ensures r.Some? ==> r.value == adjust(v.realMax)
  {
    if v.muted then None else Some(adjust(v.realMax))
  }

  /** The decision of sink_set_mute_cb: the mute value when muting, what setting the volume sends when unmuting. */
  function MuteCommand(v: SinkVolume, adjust: nat -> nat): (r: nat)
    ensures v.muted ==> r == VolumeMuted
    ensures !v.muted ==> VolumeCommand(v, adjust) == Some(r)
  {
    if v.muted then VolumeMuted else VolumeCommand(v, adjust).value
  }

  function VolumeActions(c: Option<nat>): seq<Action> {
    match c
    case None => []
    case Some(volume) => [SetVolume(volume)]
  }

  /** While muted, setting the volume sends nothing whatever the volume is. */
  lemma MutedVolumeIsSilent(level: nat, adjust: nat -> nat)
    ensures VolumeActions(VolumeCommand(SinkVolume(true, level), adjust)) == []
  {
  }

  /** What losing the connection leads to, once the client's sockets are released. */
  datatype LinkLoss = LinkLoss(disableTimer: bool, actions: seq<Action>)

  /**
   * The decision of the DISCONNECTED / INVALID handler: suspended, stop the
   * timer and nothing else; not idle, re-authenticate with auto-reconnect
   * (stopping the timer unless auto-null keeps draining) or ask for the
   * unload without it; idle, nothing.
   */
  function LinkLossReaction(state: SinkState, autoreconnect: bool, autonull: bool): (r: LinkLoss)
    ensures state == Suspended ==> r == LinkLoss(true, [])
    ensures Authenticate in r.actions <==> autoreconnect && state != Suspended && state != Idle
    ensures UnloadRequest in r.actions <==> !autoreconnect && state != Suspended && state != Idle
    ensures state == Idle ==> r == LinkLoss(false, [])
    ensures |r.actions| <= 1
    ensures r.disableTimer <==> state == Suspended || (autoreconnect && state != Idle && !autonull)
  {
    if state == Suspended then LinkLoss(true, [])
    else if autoreconnect then
      if state != Idle then LinkLoss(!autonull, [Authenticate]) else LinkLoss(false, [])
    else
      if state != Idle then LinkLoss(false, [UnloadRequest]) else LinkLoss(false, [])
  }

  /** Going to RUNNING restarts the audio cursor under auto-null, or when streaming starts on a connection that is not recording. */
  predicate CursorRestarts(autonull: bool, client: ClientView) {
    autonull || (client.alive && !client.recording)
  }

  class RaopSinkCtl {
    const transport: Transport
    const autoreconnect: bool
    /** Behave like a null sink while disconnected. */
    const autonull: bool
    /** The configured extra latency, in milliseconds. */
    const latencyMs: nat
    const spec: SampleSpec
    const blockSize: nat
    const blockUsec: nat
    /** `u->delay`: the device delay the smoother's position lags the cursor by. */
    const delay: nat

    /** The transport uses out-of-band (UDP) sockets; streaming is timer-driven then. */
    var oob: bool
    /** The host's state of the sink, as its I/O thread sees it. */
    var sinkState: SinkState
    /** The client's sockets are registered in the poll set. */
    var rtpollItemPresent: bool
    var timer: Timer
    /** Bytes handed to the network (or discarded under auto-null) since the stream started. */
    var writeCount: nat
    var start: nat
    /** The next I/O pass is the first after a (re)start. */
    var first: bool
    var memchunk: Chunk

    // locals of the I/O thread's loop
    var offset: nat
    var lastTiming: nat
    var checkTimingCount: nat
    var intvl: nat
    /** The I/O thread has failed and only waits to be shut down. */
    var failed: bool

    ghost var trace: seq<Action>

    /**
     * The watchdog level is in range. The constructor establishes it and the
     * only methods that write the level, IoIteration and OnOobPacket, keep
     * it; no other method has the level in its modifies clause.
     */
    ghost predicate Valid()
      reads this
    {
      InRange(Watchdog(lastTiming, checkTimingCount))
    }

    /** What the I/O pass reads and does not change. */
    function Ctx(): IoContext
      reads this
    {
      IoContext(sinkState == Running, autoreconnect, autonull, oob, start, blockSize, blockUsec, spec, delay)
    }

    /** What the I/O pass changes. */
    function Io(): IoState
      reads this
    {
      IoState(writeCount, memchunk, offset, intvl, timer, first, Watchdog(lastTiming, checkTimingCount), failed)
    }

    /**
     * A freshly created sink: auto-null follows auto-reconnect, the transport
     * starts out out-of-band, nothing is registered, the block size is the
     * client's frames per block in bytes, and authentication is started. The
     * host has put the sink (IDLE) before authentication starts; that move
     * from INIT does nothing in the state callback.
     */
    constructor (transport: Transport, autoreconnect: bool, latencyMs: nat, spec: SampleSpec, framesPerBlock: nat)
      ensures Valid()
      ensures this.transport == transport && this.autoreconnect == autoreconnect && autonull == autoreconnect
      ensures this.latencyMs == latencyMs && this.spec == spec
      ensures blockSize == framesPerBlock * spec.frameSize && blockUsec == BytesToUsec(blockSize, spec)
      ensures delay == 0
      ensures oob && sinkState == Idle && !rtpollItemPresent && timer == Disabled
      ensures writeCount == 0 && start == 0 && !first && memchunk == Chunk(0, 0)
      ensures offset == 0 && lastTiming == 0 && checkTimingCount == 1 && intvl == 0 && !failed
      ensures trace == [Authenticate]
    {
      this.transport := transport;
      this.autoreconnect := autoreconnect;
      autonull := autoreconnect;
      this.latencyMs := latencyMs;
      this.spec := spec;
      blockSize := framesPerBlock * spec.frameSize;
      blockUsec := BytesToUsec(framesPerBlock * spec.frameSize, spec);
      delay := 0;
      oob := true;
      sinkState := Idle;
      rtpollItemPresent := false;
      timer := Disabled;
      writeCount, start, first := 0, 0, false;
      memchunk := Chunk(0, 0);
      offset, lastTiming, checkTimingCount, intvl := 0, 0, 1, 0;
      failed := false;
      trace := [Authenticate];
    }

    /** DISCONNECT_REQUEST: only a running sink disconnects the client and starts authenticating again. */
    method OnDisconnectRequest()
      modifies this`trace
      ensures sinkState == Running ==> trace == old(trace) + [Disconnect, Authenticate]
      ensures sinkState != Running ==> trace == old(trace)
    {
      if sinkState == Running {
        trace := trace + [Disconnect, Authenticate];
      }
    }

    /**
     * GET_LATENCY: 0 when the client cannot stream and auto-null is off;
     * otherwise the smoother's delay estimate plus the configured latency.
     */
    method GetLatency(client: ClientView, smootherDelay: int) returns (r: int)
      ensures !autonull && !client.canStream ==> r == 0
      ensures autonull || client.canStream ==> r == smootherDelay + latencyMs * USecPerMSec
    {
      r := 0;
      if autonull || client.canStream {
        r := smootherDelay + latencyMs * USecPerMSec;
      }
    }

    /**
     * AUTHENTICATED: an unauthenticated client makes the module ask for its
     * unload; independently of that, a running sink with auto-reconnect
     * resets the smoother and announces when the connection is not alive.
     */
    method OnAuthenticated(client: ClientView, now: nat)
      modifies this`trace
      ensures trace == old(trace)
                       + (if !client.authenticated then [UnloadRequest] else [])
                       + (if autoreconnect && sinkState == Running
                          then [SmootherReset(now)] + (if !client.alive then [Announce] else [])
                          else [])
    {
      if !client.authenticated {
        trace := trace + [UnloadRequest];
      }
      if autoreconnect && sinkState == Running {
        trace := trace + [SmootherReset(now)];
        if !client.alive {
          trace := trace + [Announce];
        }
      }
    }

    /** CONNECTED: the client's sockets enter the poll set; the client tells whether they are out-of-band. */
    method OnConnected(registeredOob: bool)
      requires !rtpollItemPresent
      modifies this`rtpollItemPresent, this`oob, this`trace
      ensures rtpollItemPresent && oob == registeredOob
      ensures trace == old(trace) + [RegisterPollItem]
    {
      rtpollItemPresent := true;
      oob := registeredOob;
      trace := trace + [RegisterPollItem];
    }

    /**
     * RECORDING: the cursor and the start time restart and the next I/O pass
     * is marked as the first; the timer is armed now, except that a suspended
     * sink disables it again and flushes, while any other pushes the volume.
     */
    method OnRecording(now: nat, volume: SinkVolume, adjust: nat -> nat)
      modifies this`writeCount, this`start, this`first, this`timer, this`trace
      ensures writeCount == 0 && start == now && first
      ensures sinkState == Suspended ==> timer == Disabled && trace == old(trace) + [Flush]
      ensures sinkState != Suspended ==>
                timer == ArmedAt(now) && trace == old(trace) + VolumeActions(VolumeCommand(volume, adjust)) + [ForwardVolume]
    {
      writeCount := 0;
      start := now;
      first := true;
      timer := ArmedAt(now);
      if sinkState == Suspended {
        timer := Disabled;
        trace := trace + [Flush];
      } else {
        SetVolumeCb(volume, adjust);
        trace := trace + [ForwardVolume];
      }
    }

    /**
     * DISCONNECTED and INVALID: the client's sockets leave the poll set first;
     * then the reaction of LinkLossReaction.
     */
    method OnDisconnected()
      modifies this`rtpollItemPresent, this`timer, this`trace
      ensures !rtpollItemPresent
      ensures trace == old(trace) + (if old(rtpollItemPresent) then [ReleasePollItem] else [])
                                  + LinkLossReaction(sinkState, autoreconnect, autonull).actions
      ensures timer == if LinkLossReaction(sinkState, autoreconnect, autonull).disableTimer then Disabled else old(timer)
    {
      if rtpollItemPresent {
        trace := trace + [ReleasePollItem];
        rtpollItemPresent := false;
      }
      if sinkState == Suspended {
        timer := Disabled;
        return;
      }
      if autoreconnect {
        if sinkState != Idle {
          if !autonull {
            timer := Disabled;
          }
          trace := trace + [Authenticate];
        }
      } else {
        if sinkState != Idle {
          trace := trace + [UnloadRequest];
        }
      }
    }

    /**
     * The host moves the sink to `newState` (and records it once this returns).
     * SUSPENDED tears a live connection down; IDLE after RUNNING stops the
     * timer and flushes; RUNNING resets the smoother, restarts the cursor
     * under auto-null, then announces a dead connection or starts streaming
     * on one that is not recording.
     */
    method SetSinkState(newState: SinkState, client: ClientView, now: nat)
      requires newState == Suspended && newState != sinkState ==> IsOpened(sinkState)
      modifies this`sinkState, this`writeCount, this`start, this`first, this`timer, this`trace
      ensures sinkState == newState
      ensures newState == old(sinkState) || newState !in {Suspended, Idle, Running} ==>
                writeCount == old(writeCount) && start == old(start) && first == old(first)
                && timer == old(timer) && trace == old(trace)
      ensures newState != old(sinkState) && newState == Suspended ==>
                writeCount == old(writeCount) && start == old(start) && first == old(first) && timer == old(timer)
                && trace == old(trace) + (if client.alive then [Teardown] else [])
      ensures newState != old(sinkState) && newState == Idle ==>
                writeCount == old(writeCount) && start == old(start) && first == old(first)
                && (old(sinkState) == Running ==> timer == Disabled && trace == old(trace) + [Flush])
                && (old(sinkState) != Running ==> timer == old(timer) && trace == old(trace))
      ensures newState != old(sinkState) && newState == Running ==>
                trace == old(trace) + [SmootherReset(now)]
                         + (if !client.alive then [Announce] else if !client.recording then [Stream] else [])
                && first == (autonull || old(first))
                && (CursorRestarts(autonull, client) ==> writeCount == 0 && start == now && timer == ArmedAt(now))
                && (!CursorRestarts(autonull, client) ==>
                      writeCount == old(writeCount) && start == old(start) && timer == old(timer))
    {
      if newState == sinkState {
        return;
      }
      match newState {
        case Suspended =>
          if client.alive {
            trace := trace + [Teardown];
          }
        case Idle =>
          if sinkState == Running {
            timer := Disabled;
            trace := trace + [Flush];
          }
        case Running =>
          trace := trace + [SmootherReset(now)];
          if autonull {
            start := now;
            writeCount := 0;
            first := true;
            timer := ArmedAt(now);
          }
          if !client.alive {
            trace := trace + [Announce];
          } else if !client.recording {
            trace := trace + [Stream];
            timer := ArmedAt(now);
            writeCount := 0;
            start := now;
          }
        case _ =>
      }
      sinkState := newState;
    }

    /** sink_set_volume_cb: pushes the decision of VolumeCommand to the client. */
    method SetVolumeCb(volume: SinkVolume, adjust: nat -> nat)
      modifies this`trace
      ensures trace == old(trace) + VolumeActions(VolumeCommand(volume, adjust))
    {
      if volume.muted {
        return;
      }
      var v := adjust(volume.realMax);
      trace := trace + [SetVolume(v)];
    }

    /** sink_set_mute_cb: muting sends the mute value, unmuting sets the volume again. */
    method SetMuteCb(volume: SinkVolume, adjust: nat -> nat)
      modifies this`trace
      ensures trace == old(trace) + [SetVolume(MuteCommand(volume, adjust))]
    {
      if volume.muted {
        trace := trace + [SetVolume(VolumeMuted)];
      } else {
        SetVolumeCb(volume, adjust);
      }
    }

    /** A packet read from an out-of-band socket; one from the timing socket is the watchdog's heartbeat. */
    method OnOobPacket(fromTimingSocket: bool, now: nat)
      requires Valid() && rtpollItemPresent && oob && !failed
      modifies this`lastTiming, this`checkTimingCount, this`trace
      ensures Valid()
      ensures trace == old(trace) + [HandleOobPacket]
      ensures fromTimingSocket ==> Watchdog(lastTiming, checkTimingCount) == Heartbeat(now)
      ensures !fromTimingSocket ==> lastTiming == old(lastTiming) && checkTimingCount == old(checkTimingCount)
    {
      trace := trace + [HandleOobPacket];
      if fromTimingSocket {
        lastTiming := now;
        checkTimingCount := 1;
      }
    }

    /** POLLERR on an out-of-band socket: a reconnect request when that can help, the fail state otherwise. */
    method OnPollError(client: ClientView)
      requires rtpollItemPresent && oob && !failed
      modifies this`failed, this`trace
      ensures autoreconnect && client.alive ==> !failed && trace == old(trace) + [DisconnectRequest]
      ensures !(autoreconnect && client.alive) ==> failed && trace == old(trace) + [UnloadRequest]
    {
      if autoreconnect && client.alive {
        trace := trace + [DisconnectRequest];
        return;
      }
      failed := true;
      trace := trace + [UnloadRequest];
    }

    /** The first pass after a (re)start forgets the watchdog history and the deadline (Rearm). */
    method RearmPhase()
      modifies this`lastTiming, this`checkTimingCount, this`intvl, this`first
      ensures Io() == Rearm(old(Io()))
    {
      if first {
        lastTiming := 0;
        checkTimingCount := 1;
        intvl := 0;
        first := false;
      }
    }

    /** The timing watchdog on a timer deadline (Supervise); `reconnect` ends the pass with a reconnect request. */
    method SupervisePhase(io: Inputs) returns (reconnect: bool)
      requires lastTiming <= io.now
      modifies this`lastTiming, this`checkTimingCount, this`trace
      ensures Io() == old(Io()).(watchdog := Supervise(Ctx(), old(Io()), io).next)
      ensures reconnect == Supervise(Ctx(), old(Io()), io).reconnect
      ensures trace == old(trace) + (if reconnect then [DisconnectRequest] else [])
    {
      reconnect := false;
      if oob && autoreconnect && io.onTimeout {
        if !io.client.canStream {
          lastTiming := 0;
        } else if lastTiming != 0 {
          var since := io.now - lastTiming;
          if since > (TimingLossMax / DisconnectCycle) * checkTimingCount {
            if checkTimingCount < DisconnectCycle {
              checkTimingCount := checkTimingCount + 1;
            } else {
              checkTimingCount := 1;
              lastTiming := 0;
              if io.client.alive {
                trace := trace + [DisconnectRequest];
                reconnect := true;
              }
            }
          }
        }
      }
    }

    /** A block is rendered when nothing is pending and the deadline is near (RenderIfDue). */
    method RenderPhase(io: Inputs)
      modifies this`memchunk, this`offset, this`trace
      ensures Io() == RenderIfDue(Ctx(), old(Io()), io).next
      ensures trace == old(trace) + RenderIfDue(Ctx(), old(Io()), io).actions
    {
      if memchunk.length == 0 && intvl < io.now + blockUsec {
        memchunk := Chunk(io.renderIndex, blockSize);
        offset := memchunk.index;
        trace := trace + [Render(blockSize)];
      }
    }

    /** The loop's fail label: ask for the unload and stop doing work. */
    method FailState()
      modifies this`failed, this`trace
      ensures failed && trace == old(trace) + [UnloadRequest]
    {
      failed := true;
      trace := trace + [UnloadRequest];
    }

    /** A failed send: a reconnect request, a wait for write interest, or the fail state (ClassifySendError). */
    method SendFailed(errno: Errno)
      modifies this`failed, this`trace
      ensures failed == (old(failed) || ClassifySendError(errno, oob, autoreconnect) == Fail)
      ensures trace == old(trace) + ReactionActions(ClassifySendError(errno, oob, autoreconnect))
    {
      if errno == EINTR {
        if autoreconnect {
          trace := trace + [DisconnectRequest];
        } else {
          FailState();
        }
      } else if errno != EAGAIN && !oob {
        trace := trace + [ArmPollOut];
      } else {
        if autoreconnect {
          trace := trace + [DisconnectRequest];
        } else {
          FailState();
        }
      }
    }

    /** The cursor accounting after a successful send or a discard (Advance). */
    method AdvancePhase(io: Inputs, sendstream: bool)
      requires sendstream == Sends(Ctx(), io.client)
      requires sendstream ==> io.send.Accepted? && io.send.bytes <= memchunk.length
      modifies this`writeCount, this`memchunk
      ensures Io() == Advance(Ctx(), old(Io()), io)
    {
      var index := memchunk.index;
      if sendstream {
        // the client's send moves the chunk past the bytes it accepted
        memchunk := Chunk(memchunk.index + io.send.bytes, memchunk.length - io.send.bytes);
        writeCount := writeCount + (memchunk.index - index);
      } else {
        writeCount := writeCount + memchunk.length;
        memchunk := memchunk.(length := 0);
      }
    }

    /** The next deadline and the write interest (Reschedule). */
    method ReschedulePhase(io: Inputs)
      modifies this`intvl, this`timer, this`trace
      ensures Io() == Reschedule(Ctx(), old(Io()), io).next
      ensures trace == old(trace) + Reschedule(Ctx(), old(Io()), io).actions
    {
      if (autonull && !io.client.canStream) || (oob && io.client.canStream && io.onTimeout) {
        intvl := start + BytesToUsec(writeCount, spec);
        timer := ArmedAt(intvl);
      } else if !oob {
        if memchunk.length > 0 {
          trace := trace + [ArmPollOut];
        } else {
          intvl := start + BytesToUsec(writeCount, spec);
          timer := ArmedAt(intvl);
          trace := trace + [DisarmPollOut];
        }
      }
    }

    /** A send that went through, or a discard, and what follows it (Sent). */
    method SentPhase(io: Inputs, sendstream: bool)
      requires sendstream == Sends(Ctx(), io.client)
      requires sendstream ==> io.send.Accepted? && io.send.bytes <= memchunk.length
      modifies this`writeCount, this`memchunk, this`intvl, this`timer, this`trace
      ensures Io() == Sent(Ctx(), old(Io()), io).next
      ensures trace == old(trace) + Sent(Ctx(), old(Io()), io).actions
    {
      ghost var ctx, s0, t0 := Ctx(), Io(), trace;
      if sendstream {
        trace := trace + [SendPacket(offset)];
      }
      ghost var sent := trace[|t0|..];
      AdvancePhase(io, sendstream);
      ghost var s1 := Advance(ctx, s0, io);
      trace := trace + [SmootherPut(io.putTime, writeCount - UsecToBytes(delay, spec))];
      ghost var t1 := trace;
      ReschedulePhase(io);
      ghost var sched := Reschedule(ctx, s1, io);
      assert t1 + sched.actions == t0 + (sent + [SmootherPut(io.putTime, Position(ctx, s1.writeCount))] + sched.actions);
    }

    /** The send of the pending chunk and what follows it (Deliver). */
    method DeliverPhase(io: Inputs)
      requires io.send.Accepted? ==> io.send.bytes <= memchunk.length
      modifies this`writeCount, this`memchunk, this`intvl, this`timer, this`failed, this`trace
      ensures Io() == Deliver(Ctx(), old(Io()), io).next
      ensures trace == old(trace) + Deliver(Ctx(), old(Io()), io).actions
    {
      if memchunk.length > 0 {
        var sendstream := !autonull || (autonull && io.client.canStream);
        if sendstream && io.send.Failed? {
          trace := trace + [SendPacket(offset)];
          SendFailed(io.send.errno);
        } else {
          SentPhase(io, sendstream);
        }
      }
    }

    /** Rendering and sending (Play). */
    method PlayPhase(io: Inputs)
      requires io.send.Accepted? ==> io.send.bytes <= RenderIfDue(Ctx(), Io(), io).next.chunk.length
      modifies this`writeCount, this`memchunk, this`offset, this`intvl, this`timer, this`failed, this`trace
      ensures Io() == Play(Ctx(), old(Io()), io).next
      ensures trace == old(trace) + Play(Ctx(), old(Io()), io).actions
    {
      ghost var ctx, s0, t0 := Ctx(), Io(), trace;
      ghost var rendered := RenderIfDue(ctx, s0, io);
      RenderPhase(io);
      assert Io() == rendered.next && trace == t0 + rendered.actions;
      ghost var sent := Deliver(ctx, rendered.next, io);
      DeliverPhase(io);
      assert t0 + rendered.actions + sent.actions == t0 + (rendered.actions + sent.actions);
      PlayIsRenderThenDeliver(ctx, s0, io);
    }

    /**
     * One pass of the I/O loop after polling, when it was not serviced by the
     * out-of-band sockets: it does what RaopIo.Iterate describes.
     */
    method IoIteration(io: Inputs)
      requires Valid() && StepOk(Ctx(), Io(), io)
      // with registered out-of-band sockets, only a timer deadline gets past the socket servicing
      requires rtpollItemPresent && oob ==> io.onTimeout
      // on TCP a client that can stream has its socket registered, which the write-interest updates rely on
      requires !oob && io.client.canStream ==> rtpollItemPresent
      modifies this`writeCount, this`memchunk, this`offset, this`intvl, this`timer, this`first
      modifies this`lastTiming, this`checkTimingCount, this`failed, this`trace
      ensures Valid()
      ensures Io() == Iterate(old(Ctx()), old(Io()), io).next
      ensures trace == old(trace) + Iterate(old(Ctx()), old(Io()), io).actions
    {
      if sinkState != Running {
        return;
      }
      ghost var ctx, s0, t0 := Ctx(), Io(), trace;
      ghost var s1 := Rearm(s0);
      RearmPhase();
      ghost var sup := Supervise(ctx, s1, io);
      ghost var s2 := s1.(watchdog := sup.next);
      var reconnect := SupervisePhase(io);
      assert Io() == s2 && reconnect == sup.reconnect;
      if reconnect {
        assert Iterate(ctx, s0, io) == Step(s2, [DisconnectRequest]);
        return;
      }
      assert trace == t0;
      if !autonull && !io.client.canStream {
        assert Iterate(ctx, s0, io) == Step(s2, []);
        return;
      }
      assert Iterate(ctx, s0, io) == Play(ctx, s2, io);
      PlayPhase(io);
    }
  }
}
