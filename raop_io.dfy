/**
 * One pass of the I/O thread's loop once polling has returned and the sink
 * is to do audio work: the restart of the watchdog bookkeeping, the timing
 * watchdog, the render trigger, the send of the pending chunk with the
 * classification of its failures, the audio-cursor accounting and the next
 * deadline. This module states that pass as a function of the thread's
 * state and of what the clock, the render source and the RAOP client
 * report; the controller class runs it in place and is proved to agree.
 */
module RaopIo {
  import opened RaopTime
  import opened RaopWatchdog

  datatype Timer = Disabled | ArmedAt(deadline: nat)

  /** The pending audio chunk (`memchunk`): where its unsent bytes start and how many remain. */
  datatype Chunk = Chunk(index: nat, length: nat)

  /** What the RAOP client answers when asked. */
  datatype ClientView = ClientView(alive: bool, canStream: bool, recording: bool, authenticated: bool)

  /** errno after a failed send, as far as the sink distinguishes it. */
  datatype Errno = EINTR | EAGAIN | OtherErrno

  /** The result of the client's non-blocking packet send. */
  datatype SendOutcome = Accepted(bytes: nat) | Failed(errno: Errno)

  /** Every call the sink makes to a collaborator, in the order it makes them. */
  datatype Action =
    | UnloadRequest                          // module unload, requested from the host
    | SmootherReset(at: nat)
    | SmootherPut(at: nat, position: int)
    | Announce | Authenticate | Disconnect | Flush | Teardown | Stream   // RAOP client commands
    | SetVolume(volume: nat)                 // volume pushed to the RAOP client
    | ForwardVolume                          // the host's own SET_VOLUME handling
    | RegisterPollItem | ReleasePollItem     // the client's sockets entering / leaving the poll set
    | HandleOobPacket                        // an out-of-band packet handed to the client
    | Render(bytes: nat)                     // a block pulled from the host's render source
    | SendPacket(offset: nat)                // the pending chunk handed to the client
    | DisconnectRequest                      // the I/O thread asking the main thread to reconnect
    | ArmPollOut | DisarmPollOut             // write interest on the client's socket

  /** What the pass reads and does not write. */
  datatype IoContext = IoContext(
    running: bool,          // the sink's I/O-thread state is RUNNING
    autoreconnect: bool, autonull: bool, oob: bool,
    start: nat,             // when the current stream started
    blockSize: nat, blockUsec: nat, spec: SampleSpec,
    delay: nat)             // the device delay the smoother's position is behind the cursor by

  /** What the pass writes: cursor, pending chunk, render offset, deadline, timer, restart flag, watchdog, fail state. */
  datatype IoState = IoState(
    writeCount: nat, chunk: Chunk, offset: nat, intvl: nat, timer: Timer,
    first: bool, watchdog: Watchdog, failed: bool)

  /**
   * What the environment reports during one pass: the client's answers, whether
   * the timer deadline was what woke the thread, the two clock readings (before
   * the watchdog and after the send), the index of a freshly rendered block,
   * and the result of the send.
   */
  datatype Inputs = Inputs(
    client: ClientView, onTimeout: bool, now: nat, putTime: nat,
    renderIndex: nat, send: SendOutcome)

  datatype Step = Step(next: IoState, actions: seq<Action>)

  /** The start time plus the playing time of everything handed over so far: when the next block is due. */
  function SendTime(ctx: IoContext, writeCount: nat): nat {
    ctx.start + BytesToUsec(writeCount, ctx.spec)
  }

  /** The position handed to the smoother: the cursor less the bytes that play within the device delay. */
  function Position(ctx: IoContext, writeCount: nat): int {
    writeCount - UsecToBytes(ctx.delay, ctx.spec)
  }

  /** Without a device delay the smoother is fed the cursor itself. */
  lemma NoDelayPositionIsCursor(ctx: IoContext, writeCount: nat)
    requires ctx.delay == 0
    ensures Position(ctx, writeCount) == writeCount
  {
    ConversionsOfZero(ctx.spec);
  }

  /** Whether the chunk goes to the network; with auto-null and no stream it is discarded at real-time rate. */
  predicate Sends(ctx: IoContext, client: ClientView) {
    !ctx.autonull || (ctx.autonull && client.canStream)
  }

  /** The first pass after a (re)start forgets the watchdog history and the deadline. */
  function Rearm(s: IoState): (r: IoState)
    ensures !r.first
    ensures r == s.(watchdog := r.watchdog, intvl := r.intvl, first := false)
    ensures s.first ==> r.watchdog == Restarted && r.intvl == 0
    ensures !s.first ==> r == s
  {
    if s.first then s.(watchdog := Restarted, intvl := 0, first := false) else s
  }

  /** The watchdog runs on timer deadlines only, and only with an out-of-band transport and auto-reconnect. */
  function Supervise(ctx: IoContext, s: IoState, io: Inputs): (r: TickResult)
    requires s.watchdog.lastTiming <= io.now
    ensures InRange(s.watchdog) ==> InRange(r.next)
    ensures !(ctx.oob && ctx.autoreconnect && io.onTimeout) ==> r == TickResult(s.watchdog, false)
    ensures r.reconnect ==> io.client.alive && r.next == Restarted
  {
    if ctx.oob && ctx.autoreconnect && io.onTimeout then
      Tick(s.watchdog, io.now, io.client.canStream, io.client.alive)
    else
      TickResult(s.watchdog, false)
  }

  /** A block is rendered when nothing is pending and the deadline is within one block of now. */
  predicate RenderDue(ctx: IoContext, s: IoState, now: nat) {
    s.chunk.length == 0 && s.intvl < now + ctx.blockUsec
  }

  function RenderIfDue(ctx: IoContext, s: IoState, io: Inputs): (r: Step)
    ensures r.next == s.(chunk := r.next.chunk, offset := r.next.offset)
    ensures r.actions != [] <==> RenderDue(ctx, s, io.now)
    ensures r.next.chunk != s.chunk ==> s.chunk.length == 0
    ensures r.actions != [] ==>
              r.actions == [Render(ctx.blockSize)] && r.next.chunk == Chunk(io.renderIndex, ctx.blockSize)
              && r.next.offset == r.next.chunk.index
    ensures r.actions == [] ==> r.next == s
  {
    if RenderDue(ctx, s, io.now) then
      Step(s.(chunk := Chunk(io.renderIndex, ctx.blockSize), offset := io.renderIndex), [Render(ctx.blockSize)])
    else
      Step(s, [])
  }

  /** How the loop reacts to a failed send. */
  datatype FailureReaction = RequestDisconnect | WaitForPollOut | Fail

  /**
   * The classification of a failed send, as the code writes it: EINTR
   * reconnects or fails; on a transport without out-of-band sockets an
   * errno other than EINTR and EAGAIN arms write interest and waits;
   * everything else, EAGAIN included, reconnects or fails.
   */
  function ClassifySendError(errno: Errno, oob: bool, autoreconnect: bool): (r: FailureReaction)
    ensures r == WaitForPollOut <==> errno != EINTR && errno != EAGAIN && !oob
    ensures r == RequestDisconnect <==> autoreconnect && !(errno != EINTR && errno != EAGAIN && !oob)
    ensures r == Fail <==> !autoreconnect && !(errno != EINTR && errno != EAGAIN && !oob)
  {
    if errno == EINTR then
      if autoreconnect then RequestDisconnect else Fail
    else if errno != EAGAIN && !oob then
      WaitForPollOut
    else if autoreconnect then RequestDisconnect else Fail
  }

  function ReactionActions(f: FailureReaction): seq<Action> {
    match f
    case RequestDisconnect => [DisconnectRequest]
    case WaitForPollOut => [ArmPollOut]
    case Fail => [UnloadRequest]
  }

  /** The positions fed to the smoother, in order. */
  function PutPositions(acts: seq<Action>): seq<int> {
    if acts == [] then []
    else (if acts[0].SmootherPut? then [acts[0].position] else []) + PutPositions(acts[1..])
  }

  lemma {:induction false} PutPositionsAppend(a: seq<Action>, b: seq<Action>)
    ensures PutPositions(a + b) == PutPositions(a) + PutPositions(b)
    decreases |a|
  {
    if a == [] {
      assert a + b == b;
    } else {
      assert (a + b)[0] == a[0] && (a + b)[1..] == a[1..] + b;
      PutPositionsAppend(a[1..], b);
    }
  }

  lemma {:induction false} PutPositionsNone(acts: seq<Action>)
    requires forall i :: 0 <= i < |acts| ==> !acts[i].SmootherPut?
    ensures PutPositions(acts) == []
    decreases |acts|
  {
    if acts != [] {
      PutPositionsNone(acts[1..]);
    }
  }

  /** The chunk after a successful send, or its discard under auto-null, and the cursor counting it. */
  function Advance(ctx: IoContext, s: IoState, io: Inputs): (r: IoState)
    requires Sends(ctx, io.client) ==> io.send.Accepted? && io.send.bytes <= s.chunk.length
    ensures r == s.(writeCount := r.writeCount, chunk := r.chunk)
    ensures r.writeCount - s.writeCount == s.chunk.length - r.chunk.length
    ensures Sends(ctx, io.client) ==> r.chunk.index - s.chunk.index == io.send.bytes
    ensures Sends(ctx, io.client) ==> r.writeCount - s.writeCount == r.chunk.index - s.chunk.index
    ensures !Sends(ctx, io.client) ==> r.chunk.length == 0
  {
    if Sends(ctx, io.client) then
      s.(writeCount := s.writeCount + io.send.bytes,
         chunk := Chunk(s.chunk.index + io.send.bytes, s.chunk.length - io.send.bytes))
    else
      s.(writeCount := s.writeCount + s.chunk.length, chunk := s.chunk.(length := 0))
  }

  /** A pass that sleeps until the next packet time: a discard under auto-null, or an out-of-band stream woken by the timer. */
  predicate TimedPass(ctx: IoContext, io: Inputs) {
    (ctx.autonull && !io.client.canStream) || (ctx.oob && io.client.canStream && io.onTimeout)
  }

  /**
   * The next deadline once the cursor has been counted: timer-driven passes
   * sleep until the cursor's send time; on a transport without out-of-band
   * sockets, a remainder keeps write interest and an empty chunk drops it and
   * sleeps. The actions are the ones after the smoother update.
   */
  function Reschedule(ctx: IoContext, s: IoState, io: Inputs): (r: Step)
    ensures r.next == s || r.next == s.(intvl := SendTime(ctx, s.writeCount), timer := ArmedAt(SendTime(ctx, s.writeCount)))
    ensures r.actions == [] || r.actions == [ArmPollOut] || r.actions == [DisarmPollOut]
    // the timer is re-armed at the cursor's send time on a timed pass or once a TCP chunk is drained, and kept otherwise
    ensures TimedPass(ctx, io) || (!ctx.oob && s.chunk.length == 0) ==>
              r.next == s.(intvl := SendTime(ctx, s.writeCount), timer := ArmedAt(SendTime(ctx, s.writeCount)))
    ensures !(TimedPass(ctx, io) || (!ctx.oob && s.chunk.length == 0)) ==> r.next == s
    // write interest is armed exactly while a TCP chunk has a remainder, and dropped exactly when it is drained
    ensures r.actions == [ArmPollOut] <==> !TimedPass(ctx, io) && !ctx.oob && s.chunk.length > 0
    ensures r.actions == [DisarmPollOut] <==> !TimedPass(ctx, io) && !ctx.oob && s.chunk.length == 0
  {
    var due := SendTime(ctx, s.writeCount);
    if TimedPass(ctx, io) then
      Step(s.(intvl := due, timer := ArmedAt(due)), [])
    else if !ctx.oob then
      if s.chunk.length > 0 then
        Step(s, [ArmPollOut])
      else
        Step(s.(intvl := due, timer := ArmedAt(due)), [DisarmPollOut])
    else
      Step(s, [])
  }

  /** The actions of a send that went through (or a discard), ending with those of the rescheduling. */
  function Sent(ctx: IoContext, s: IoState, io: Inputs): Step
    requires Sends(ctx, io.client) ==> io.send.Accepted? && io.send.bytes <= s.chunk.length
  {
    var s1 := Advance(ctx, s, io);
    var sched := Reschedule(ctx, s1, io);
    Step(sched.next, (if Sends(ctx, io.client) then [SendPacket(s.offset)] else [])
                     + [SmootherPut(io.putTime, Position(ctx, s1.writeCount))] + sched.actions)
  }

  /** The send of the pending chunk and what follows it (the chunk is the one after rendering). */
  function Deliver(ctx: IoContext, s: IoState, io: Inputs): Step
    requires io.send.Accepted? ==> io.send.bytes <= s.chunk.length
  {
    if s.chunk.length == 0 then
      Step(s, [])
    else if Sends(ctx, io.client) && io.send.Failed? then
      var reaction := ClassifySendError(io.send.errno, ctx.oob, ctx.autoreconnect);
      Step(s.(failed := s.failed || reaction == Fail), [SendPacket(s.offset)] + ReactionActions(reaction))
    else
      Sent(ctx, s, io)
  }

  /** A feed with one smoother update between actions that are not updates yields that one position. */
  lemma PutPositionsOfOne(before: seq<Action>, put: Action, after: seq<Action>)
    requires put.SmootherPut?
    requires forall i :: 0 <= i < |before| ==> !before[i].SmootherPut?
    requires forall i :: 0 <= i < |after| ==> !after[i].SmootherPut?
    ensures PutPositions(before + [put] + after) == [put.position]
  {
    assert before + [put] + after == before + ([put] + after);
    PutPositionsAppend(before, [put] + after);
    PutPositionsAppend([put], after);
    PutPositionsNone(before);
    PutPositionsNone(after);
    assert [put][1..] == [];
  }

  /** The smoother gets exactly one position from a send that went through: the new cursor's. */
  lemma SentFeedsCursor(ctx: IoContext, s: IoState, io: Inputs)
    requires Sends(ctx, io.client) ==> io.send.Accepted? && io.send.bytes <= s.chunk.length
    ensures PutPositions(Sent(ctx, s, io).actions) == [Position(ctx, Sent(ctx, s, io).next.writeCount)]
    ensures Sends(ctx, io.client) ==> |Sent(ctx, s, io).actions| > 0 && Sent(ctx, s, io).actions[0] == SendPacket(s.offset)
    ensures !Sends(ctx, io.client) ==> SendPacket(s.offset) !in Sent(ctx, s, io).actions
  {
    var s1 := Advance(ctx, s, io);
    var sched := Reschedule(ctx, s1, io);
    var sent: seq<Action> := if Sends(ctx, io.client) then [SendPacket(s.offset)] else [];
    PutPositionsOfOne(sent, SmootherPut(io.putTime, Position(ctx, s1.writeCount)), sched.actions);
  }

  /** What the send and the cursor accounting do. */
  lemma DeliverFacts(ctx: IoContext, s: IoState, io: Inputs)
    requires io.send.Accepted? ==> io.send.bytes <= s.chunk.length
    ensures var r := Deliver(ctx, s, io);
      && s.writeCount <= r.next.writeCount
      && r.next.first == s.first && r.next.watchdog == s.watchdog && r.next.offset == s.offset
      && (s.chunk.length == 0 ==> r == Step(s, []))
      // a failed send changes neither the cursor nor the chunk nor the deadline
      && (s.chunk.length > 0 && Sends(ctx, io.client) && io.send.Failed? ==>
            r.next == s.(failed := s.failed || ClassifySendError(io.send.errno, ctx.oob, ctx.autoreconnect) == Fail)
            && r.actions == [SendPacket(s.offset)] + ReactionActions(ClassifySendError(io.send.errno, ctx.oob, ctx.autoreconnect)))
      // an accepted send advances the cursor by exactly the bytes the chunk's index moved
      && (s.chunk.length > 0 && Sends(ctx, io.client) && io.send.Accepted? ==>
            r.next.writeCount - s.writeCount == r.next.chunk.index - s.chunk.index == io.send.bytes
            && r.next.chunk.length == s.chunk.length - io.send.bytes
            && |r.actions| > 0 && r.actions[0] == SendPacket(s.offset))
      // with auto-null and no stream the whole chunk counts as played and is dropped
      && (s.chunk.length > 0 && !Sends(ctx, io.client) ==>
            r.next.writeCount == s.writeCount + s.chunk.length && r.next.chunk.length == 0
            && SendPacket(s.offset) !in r.actions)
      // every timer rescheduling is to the start time plus the playing time of the cursor
      && (r.next.timer == s.timer || r.next.timer == ArmedAt(SendTime(ctx, r.next.writeCount)))
      && (r.next.intvl == s.intvl || (r.next.intvl == SendTime(ctx, r.next.writeCount) && r.next.timer == ArmedAt(r.next.intvl)))
      && (r.next.failed != s.failed ==> !ctx.autoreconnect && |r.actions| > 0 && r.actions[|r.actions| - 1] == UnloadRequest)
      && (PutPositions(r.actions) == [] || PutPositions(r.actions) == [Position(ctx, r.next.writeCount)])
      && (r.next.writeCount != s.writeCount ==> PutPositions(r.actions) == [Position(ctx, r.next.writeCount)])
  {
    if s.chunk.length > 0 {
      if Sends(ctx, io.client) && io.send.Failed? {
        PutPositionsNone([SendPacket(s.offset)] + ReactionActions(ClassifySendError(io.send.errno, ctx.oob, ctx.autoreconnect)));
      } else {
        SentFeedsCursor(ctx, s, io);
      }
    }
  }

  /** The chunk that the send will see: the pending one, or a freshly rendered block. */
  function Pending(ctx: IoContext, s: IoState, io: Inputs): Chunk {
    RenderIfDue(ctx, Rearm(s), io).next.chunk
  }

  /**
   * When a pass can run: the thread has not failed, the clock has not gone
   * back before the last timing packet, and the client accepts at most the
   * pending bytes.
   */
  predicate StepOk(ctx: IoContext, s: IoState, io: Inputs) {
    && !s.failed
    && Rearm(s).watchdog.lastTiming <= io.now
    && (io.send.Accepted? ==> io.send.bytes <= Pending(ctx, s, io).length)
  }

  /** Rendering and sending, once the watchdog has let the pass go on and there is a stream or auto-null. */
  function Play(ctx: IoContext, s: IoState, io: Inputs): (r: Step)
    requires io.send.Accepted? ==> io.send.bytes <= RenderIfDue(ctx, s, io).next.chunk.length
    ensures s.writeCount <= r.next.writeCount
    ensures r.next.first == s.first && r.next.watchdog == s.watchdog
    ensures r.next.timer == s.timer || r.next.timer == ArmedAt(SendTime(ctx, r.next.writeCount))
    ensures r.next.failed != s.failed ==> !ctx.autoreconnect && |r.actions| > 0 && r.actions[|r.actions| - 1] == UnloadRequest
    ensures PutPositions(r.actions) == [] || PutPositions(r.actions) == [Position(ctx, r.next.writeCount)]
    ensures r.next.writeCount != s.writeCount ==> PutPositions(r.actions) == [Position(ctx, r.next.writeCount)]
  {
    var rendered := RenderIfDue(ctx, s, io);
    var sent := Deliver(ctx, rendered.next, io);
    DeliverFacts(ctx, rendered.next, io);
    PutPositionsAppend(rendered.actions, sent.actions);
    assert PutPositions(rendered.actions) == [] by {
      if rendered.actions != [] { assert rendered.actions[1..] == []; }
    }
    Step(sent.next, rendered.actions + sent.actions)
  }

  /** Play is rendering followed by the send. */
  lemma PlayIsRenderThenDeliver(ctx: IoContext, s: IoState, io: Inputs)
    requires io.send.Accepted? ==> io.send.bytes <= RenderIfDue(ctx, s, io).next.chunk.length
    ensures Play(ctx, s, io).next == Deliver(ctx, RenderIfDue(ctx, s, io).next, io).next
    ensures Play(ctx, s, io).actions == RenderIfDue(ctx, s, io).actions + Deliver(ctx, RenderIfDue(ctx, s, io).next, io).actions
  {
  }

  /** The send never pulls audio from the render source. */
  lemma DeliverRendersNothing(ctx: IoContext, s: IoState, io: Inputs)
    requires io.send.Accepted? ==> io.send.bytes <= s.chunk.length
    ensures forall i :: 0 <= i < |Deliver(ctx, s, io).actions| ==> !Deliver(ctx, s, io).actions[i].Render?
  {
  }

  /** One pass of the loop from the sink-state check on. */
  function Iterate(ctx: IoContext, s: IoState, io: Inputs): (r: Step)
    requires StepOk(ctx, s, io)
    ensures !ctx.running ==> r == Step(s, [])
    ensures ctx.running ==> !r.next.first
    ensures s.writeCount <= r.next.writeCount
    ensures InRange(s.watchdog) ==> InRange(r.next.watchdog)
    ensures r.next.timer == s.timer || r.next.timer == ArmedAt(SendTime(ctx, r.next.writeCount))
    ensures ctx.autoreconnect ==> !r.next.failed
    ensures r.next.failed ==> |r.actions| > 0 && r.actions[|r.actions| - 1] == UnloadRequest
    ensures PutPositions(r.actions) == [] || PutPositions(r.actions) == [Position(ctx, r.next.writeCount)]
    ensures r.next.writeCount != s.writeCount ==> PutPositions(r.actions) == [Position(ctx, r.next.writeCount)]
  {
    if !ctx.running then
      Step(s, [])
    else
      var s1 := Rearm(s);
      var t := Supervise(ctx, s1, io);
      var s2 := s1.(watchdog := t.next);
      if t.reconnect then
        Step(s2, [DisconnectRequest])
      else if !ctx.autonull && !io.client.canStream then
        Step(s2, [])
      else
        Play(ctx, s2, io)
  }

  /**
   * A pass never moves the timer's deadline back: it reschedules to the
   * playing time of the cursor, and the cursor only grows.
   */
  lemma DeadlineNeverMovesBack(ctx: IoContext, s: IoState, io: Inputs)
    requires StepOk(ctx, s, io)
    requires s.timer.ArmedAt? ==> s.timer.deadline <= SendTime(ctx, s.writeCount)
    ensures var r := Iterate(ctx, s, io);
            && (r.next.timer.ArmedAt? ==> r.next.timer.deadline <= SendTime(ctx, r.next.writeCount))
            && (s.timer.ArmedAt? && r.next.timer.ArmedAt? ==> s.timer.deadline <= r.next.timer.deadline)
  {
    BytesToUsecMonotone(s.writeCount, Iterate(ctx, s, io).next.writeCount, ctx.spec);
  }

  /**
   * A pass renders at most one block, of the block size, as its first action
   * and only over an empty chunk, so unsent bytes are never replaced; and it
   * renders exactly when the sink runs, the watchdog lets the pass go on,
   * there is a stream or auto-null, and the deadline is within a block.
   */
  lemma RenderOnlyWhenDrained(ctx: IoContext, s: IoState, io: Inputs)
    requires StepOk(ctx, s, io)
    ensures var r := Iterate(ctx, s, io);
      && (forall i :: 0 <= i < |r.actions| && r.actions[i].Render? ==>
            i == 0 && r.actions[i] == Render(ctx.blockSize) && s.chunk.length == 0)
      && (|r.actions| > 0 && r.actions[0].Render? <==>
            ctx.running && !Supervise(ctx, Rearm(s), io).reconnect
            && (ctx.autonull || io.client.canStream) && RenderDue(ctx, Rearm(s), io.now))
  {
    if ctx.running {
      var s1 := Rearm(s);
      var t := Supervise(ctx, s1, io);
      var s2 := s1.(watchdog := t.next);
      if !t.reconnect && (ctx.autonull || io.client.canStream) {
        var rendered := RenderIfDue(ctx, s2, io);
        DeliverRendersNothing(ctx, rendered.next, io);
        PlayIsRenderThenDeliver(ctx, s2, io);
      }
    }
  }

  /**
   * A timed pass that plays a pending chunk, sent in full or in part or
   * discarded, sleeps until the new cursor's send time.
   */
  lemma TimedPassRearmsTimer(ctx: IoContext, s: IoState, io: Inputs)
    requires StepOk(ctx, s, io)
    requires ctx.running && !Supervise(ctx, Rearm(s), io).reconnect && TimedPass(ctx, io)
    requires Pending(ctx, s, io).length > 0 && (Sends(ctx, io.client) ==> io.send.Accepted?)
    ensures var r := Iterate(ctx, s, io);
            && r.next.timer == ArmedAt(SendTime(ctx, r.next.writeCount))
            && r.next.intvl == SendTime(ctx, r.next.writeCount)
  {
    var s2 := Rearm(s).(watchdog := Supervise(ctx, Rearm(s), io).next);
    assert RenderIfDue(ctx, s2, io).next.chunk == Pending(ctx, s, io);
  }

  /**
   * On the TCP transport without auto-null, an accepted send that leaves a
   * remainder ends by arming write interest and keeps the timer; one that
   * drains the chunk drops write interest and sleeps until the cursor's send
   * time.
   */
  lemma TcpPassFollowsWriteInterest(ctx: IoContext, s: IoState, io: Inputs)
    requires StepOk(ctx, s, io)
    requires ctx.running && !ctx.oob && !ctx.autonull && io.client.canStream
    requires Pending(ctx, s, io).length > 0 && io.send.Accepted?
    ensures var r := Iterate(ctx, s, io);
            && |r.actions| > 0
            && (r.next.chunk.length > 0 ==> r.actions[|r.actions| - 1] == ArmPollOut && r.next.timer == s.timer)
            && (r.next.chunk.length == 0 ==>
                  r.actions[|r.actions| - 1] == DisarmPollOut && r.next.timer == ArmedAt(SendTime(ctx, r.next.writeCount)))
  {
    var s2 := Rearm(s).(watchdog := Supervise(ctx, Rearm(s), io).next);
    var rendered := RenderIfDue(ctx, s2, io);
    assert rendered.next.chunk == Pending(ctx, s, io);
    var s3 := Advance(ctx, rendered.next, io);
    var sched := Reschedule(ctx, s3, io);
    assert Iterate(ctx, s, io).actions == rendered.actions + ([SendPacket(rendered.next.offset)]
             + [SmootherPut(io.putTime, Position(ctx, s3.writeCount))] + sched.actions);
  }

  /** The bytes a pass counts as played: those the client accepted, or the pending chunk discarded under auto-null. */
  function Counted(ctx: IoContext, s: IoState, io: Inputs): nat
    requires StepOk(ctx, s, io)
  {
    if !ctx.running || Supervise(ctx, Rearm(s), io).reconnect || (!ctx.autonull && !io.client.canStream) then 0
    else if !Sends(ctx, io.client) then Pending(ctx, s, io).length
    else if io.send.Accepted? then io.send.bytes
    else 0
  }

  /** A pass advances the cursor by exactly the bytes it counts as played, and a failed send by nothing. */
  lemma PassCountsPlayedBytes(ctx: IoContext, s: IoState, io: Inputs)
    requires StepOk(ctx, s, io)
    ensures Iterate(ctx, s, io).next.writeCount == s.writeCount + Counted(ctx, s, io)
  {
    if ctx.running && !Supervise(ctx, Rearm(s), io).reconnect && (ctx.autonull || io.client.canStream) {
      var s2 := Rearm(s).(watchdog := Supervise(ctx, Rearm(s), io).next);
      var rendered := RenderIfDue(ctx, s2, io);
      assert rendered.next.chunk == Pending(ctx, s, io);
      DeliverFacts(ctx, rendered.next, io);
    }
  }

  /** Passes can follow one another: each one can run, until the thread fails. */
  predicate RunOk(ctx: IoContext, s: IoState, ins: seq<Inputs>)
    decreases |ins|
  {
    ins == [] || s.failed || (StepOk(ctx, s, ins[0]) && RunOk(ctx, Iterate(ctx, s, ins[0]).next, ins[1..]))
  }

  /** Consecutive passes with no other event in between; the thread stops at a failure. */
  function Run(ctx: IoContext, s: IoState, ins: seq<Inputs>): Step
    requires RunOk(ctx, s, ins)
    decreases |ins|
  {
    if ins == [] || s.failed then Step(s, [])
    else
      var h := Iterate(ctx, s, ins[0]);
      var t := Run(ctx, h.next, ins[1..]);
      Step(t.next, h.actions + t.actions)
  }

  /** The bytes counted as played over a run, pass by pass. */
  function RunCounted(ctx: IoContext, s: IoState, ins: seq<Inputs>): nat
    requires RunOk(ctx, s, ins)
    decreases |ins|
  {
    if ins == [] || s.failed then 0
    else Counted(ctx, s, ins[0]) + RunCounted(ctx, Iterate(ctx, s, ins[0]).next, ins[1..])
  }

  /** Over a run the cursor grows by the sum of the bytes accepted and the chunks discarded. */
  lemma {:induction false} RunCountsPlayedBytes(ctx: IoContext, s: IoState, ins: seq<Inputs>)
    requires RunOk(ctx, s, ins)
    ensures Run(ctx, s, ins).next.writeCount == s.writeCount + RunCounted(ctx, s, ins)
    decreases |ins|
  {
    if ins != [] && !s.failed {
      PassCountsPlayedBytes(ctx, s, ins[0]);
      RunCountsPlayedBytes(ctx, Iterate(ctx, s, ins[0]).next, ins[1..]);
    }
  }

  /**
   * The smoother is fed a non-decreasing series of positions, each between
   * the cursor before the run and the cursor after it; the cursor itself
   * never goes back.
   */
  lemma {:induction false} SmootherFeedMonotone(ctx: IoContext, s: IoState, ins: seq<Inputs>)
    requires RunOk(ctx, s, ins)
    ensures s.writeCount <= Run(ctx, s, ins).next.writeCount
    ensures var ps := PutPositions(Run(ctx, s, ins).actions);
            && (forall i :: 0 <= i < |ps| ==> Position(ctx, s.writeCount) <= ps[i] <= Position(ctx, Run(ctx, s, ins).next.writeCount))
            && (forall i, j :: 0 <= i < j < |ps| ==> ps[i] <= ps[j])
    decreases |ins|
  {
    if ins != [] && !s.failed {
      var h := Iterate(ctx, s, ins[0]);
      var t := Run(ctx, h.next, ins[1..]);
      SmootherFeedMonotone(ctx, h.next, ins[1..]);
      PutPositionsAppend(h.actions, t.actions);
    }
  }

  /**
   * With auto-reconnect, no pass after polling reaches the fail state: every
   * send failure becomes a reconnect request. (Polling errors and a POLLERR
   * on a dead connection, handled before these passes, can still fail.)
   */
  lemma {:induction false} AutoReconnectNeverFails(ctx: IoContext, s: IoState, ins: seq<Inputs>)
    requires RunOk(ctx, s, ins) && !s.failed && ctx.autoreconnect
    ensures !Run(ctx, s, ins).next.failed
    decreases |ins|
  {
    if ins != [] {
      AutoReconnectNeverFails(ctx, Iterate(ctx, s, ins[0]).next, ins[1..]);
    }
  }

  /**
   * A transport error without auto-reconnect: the send that fails (other than
   * a wait for write interest) ends the pass in the fail state with exactly
   * one unload request and no reconnect request.
   */
  lemma TransportErrorWithoutReconnect(ctx: IoContext, s: IoState, io: Inputs)
    requires !ctx.autoreconnect && s.chunk.length > 0 && Sends(ctx, io.client) && io.send.Failed?
    requires !(io.send.errno == OtherErrno && !ctx.oob)
    ensures Deliver(ctx, s, io).next.failed
    ensures Deliver(ctx, s, io).actions == [SendPacket(s.offset), UnloadRequest]
    ensures DisconnectRequest !in Deliver(ctx, s, io).actions
  {
  }

  /** As line 598 is written, a full socket buffer (EAGAIN) on the TCP transport is handled as a broken transport, not by waiting for write interest. */
  lemma EagainWithoutOobIsNotAWait(autoreconnect: bool)
    ensures ClassifySendError(EAGAIN, false, autoreconnect) == (if autoreconnect then RequestDisconnect else Fail)
  {
  }
}
