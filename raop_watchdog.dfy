/**
 * The UDP timing watchdog of the I/O thread. With an out-of-band transport
 * the receiver asks for timing every few seconds; the thread remembers when
 * the last timing packet came (0 meaning "none since the stream started")
 * and, on each timer deadline, escalates a warning level once a further
 * tenth of a 30-second window has passed in silence. At the third level it
 * starts over and asks for a reconnect, but only if the connection is alive.
 */
module RaopWatchdog {
  import opened RaopTime

  /** UDP_TIMING_PACKET_LOSS_MAX: the silence after which a reconnect is requested. */
  const TimingLossMax: nat := 30 * USecPerSec

  /** UDP_TIMING_PACKET_DISCONNECT_CYCLE: the level at which the watchdog gives up. */
  const DisconnectCycle: nat := 3

  /** One escalation window: the loss window split into its cycles (10 s). */
  const WarnWindow: nat := TimingLossMax / DisconnectCycle

  /** The locals `last_timing` and `check_timing_count` of the I/O thread. */
  datatype Watchdog = Watchdog(lastTiming: nat, count: nat)

  /** The level stays between 1 and the disconnect cycle. */
  predicate InRange(w: Watchdog) {
    1 <= w.count <= DisconnectCycle
  }

  /** 1 while a timing packet has been seen since the last restart, 0 otherwise. */
  function Armed(w: Watchdog): nat {
    if w.lastTiming == 0 then 0 else 1
  }

  /** The state every (re)start of the stream begins with. */
  const Restarted: Watchdog := Watchdog(0, 1)

  /** A timing packet read from the timing socket at `now`. */
  function Heartbeat(now: nat): (w: Watchdog)
    ensures InRange(w) && w.lastTiming == now
  {
    Watchdog(now, 1)
  }

  datatype TickResult = TickResult(next: Watchdog, reconnect: bool)

  /**
   * The check made on a timer deadline (out-of-band transport, auto-reconnect).
   * `now` comes from the monotonic clock, so it is never before the last timing packet.
   */
  function Tick(w: Watchdog, now: nat, canStream: bool, alive: bool): (r: TickResult)
    requires w.lastTiming <= now
    ensures InRange(w) ==> InRange(r.next)
    ensures !canStream ==> r == TickResult(w.(lastTiming := 0), false)
    ensures w.lastTiming == 0 ==> r == TickResult(w, false)
    ensures r.next.lastTiming == w.lastTiming || r.next.lastTiming == 0
    ensures r.reconnect ==> alive && r.next == Restarted
    ensures InRange(w) && r.reconnect ==> now - w.lastTiming > TimingLossMax
    ensures InRange(w) && w.lastTiming != 0 && r.next.lastTiming == 0 ==>
              !canStream || (now - w.lastTiming > TimingLossMax && r.next == Restarted && r.reconnect == alive)
    ensures r.next.count != w.count ==>
              r.next == Restarted || (r.next.count == w.count + 1 && now - w.lastTiming > WarnWindow * w.count)
  {
    if !canStream then
      TickResult(w.(lastTiming := 0), false)
    else if w.lastTiming != 0 then
      var since := now - w.lastTiming;
      if since > WarnWindow * w.count then
        if w.count < DisconnectCycle then TickResult(w.(count := w.count + 1), false)
        else TickResult(Restarted, alive)
      else TickResult(w, false)
    else
      TickResult(w, false)
  }

  /** What the watchdog sees: a timer deadline or a timing packet, each with its clock reading. */
  datatype Event =
    | Deadline(now: nat, canStream: bool, alive: bool)
    | TimingPacket(now: nat)

  /** The clock readings never go back, nor before the last timing packet. */
  predicate Ordered(last: nat, evs: seq<Event>) {
    (forall i :: 0 <= i < |evs| ==> last <= evs[i].now)
    && (forall i, j :: 0 <= i < j < |evs| ==> evs[i].now <= evs[j].now)
  }

  function Step(w: Watchdog, e: Event): (r: TickResult)
    requires w.lastTiming <= e.now
  {
    match e
    case Deadline(now, canStream, alive) => Tick(w, now, canStream, alive)
    case TimingPacket(now) => TickResult(Heartbeat(now), false)
  }

  datatype Outcome = Outcome(last: Watchdog, reconnects: nat)

  /** The watchdog after a run of events, with the number of reconnects it requested. */
  function Watch(w: Watchdog, evs: seq<Event>): Outcome
    requires Ordered(w.lastTiming, evs)
    decreases |evs|
  {
    if evs == [] then Outcome(w, 0)
    else
      var r := Step(w, evs[0]);
      assert Ordered(r.next.lastTiming, evs[1..]);
      var rest := Watch(r.next, evs[1..]);
      Outcome(rest.last, rest.reconnects + (if r.reconnect then 1 else 0))
  }

  function Heartbeats(evs: seq<Event>): nat {
    if evs == [] then 0 else (if evs[0].TimingPacket? then 1 else 0) + Heartbeats(evs[1..])
  }

  /** Whatever happens, the level stays within [1, 3]. */
  lemma {:induction false} WatchKeepsRange(w: Watchdog, evs: seq<Event>)
    requires InRange(w) && Ordered(w.lastTiming, evs)
    ensures InRange(Watch(w, evs).last)
    decreases |evs|
  {
    if evs != [] {
      var r := Step(w, evs[0]);
      assert Ordered(r.next.lastTiming, evs[1..]);
      WatchKeepsRange(r.next, evs[1..]);
    }
  }

  /**
   * Each reconnect request uses up one timing packet: after a request the
   * watchdog stays quiet until the receiver sends timing again, so a dead
   * receiver cannot cause a storm of reconnects.
   */
  lemma {:induction false} ReconnectsBoundedByHeartbeats(w: Watchdog, evs: seq<Event>)
    requires Ordered(w.lastTiming, evs)
    ensures Watch(w, evs).reconnects + Armed(Watch(w, evs).last) <= Heartbeats(evs) + Armed(w)
    ensures Watch(w, evs).reconnects <= Heartbeats(evs) + Armed(w)
    decreases |evs|
  {
    if evs != [] {
      var r := Step(w, evs[0]);
      assert Ordered(r.next.lastTiming, evs[1..]);
      ReconnectsBoundedByHeartbeats(r.next, evs[1..]);
    }
  }

  /** Without timing packets, no reconnect is requested while the silence is at most the loss window. */
  lemma {:induction false} QuietWithinLossWindow(w: Watchdog, evs: seq<Event>)
    requires InRange(w) && Ordered(w.lastTiming, evs)
    requires forall i :: 0 <= i < |evs| ==> evs[i].Deadline?
    requires forall i :: 0 <= i < |evs| ==> evs[i].now - w.lastTiming <= TimingLossMax
    ensures Watch(w, evs).reconnects == 0
    decreases |evs|
  {
    QuietAfter(w, w.lastTiming, evs);
  }

  /** Helper of QuietWithinLossWindow: the silence bound only weakens once the watchdog is disarmed. */
  lemma {:induction false} QuietAfter(w: Watchdog, t0: nat, evs: seq<Event>)
    requires InRange(w) && Ordered(w.lastTiming, evs)
    requires w.lastTiming == t0 || w.lastTiming == 0
    requires forall i :: 0 <= i < |evs| ==> evs[i].Deadline?
    requires forall i :: 0 <= i < |evs| ==> evs[i].now - t0 <= TimingLossMax
    ensures Watch(w, evs).reconnects == 0
    decreases |evs|
  {
    if evs != [] {
      var r := Step(w, evs[0]);
      assert Ordered(r.next.lastTiming, evs[1..]);
      QuietAfter(r.next, t0, evs[1..]);
    }
  }

  /**
   * The escalation schedule: after a timing packet at t0, deadlines past
   * t0 + 10 s and t0 + 20 s each raise the level (the two warnings), and a
   * deadline past t0 + 30 s starts over and requests a reconnect if and
   * only if the connection is alive.
   */
  lemma EscalationSchedule(t0: nat, t1: nat, t2: nat, t3: nat, alive: bool)
    requires t0 + WarnWindow < t1 <= t2 && t0 + 2 * WarnWindow < t2 <= t3 && t0 + TimingLossMax < t3
    requires t0 != 0
    ensures Watch(Heartbeat(t0), [Deadline(t1, true, alive)]) == Outcome(Watchdog(t0, 2), 0)
    ensures Watch(Heartbeat(t0), [Deadline(t1, true, alive), Deadline(t2, true, alive)]) == Outcome(Watchdog(t0, 3), 0)
    ensures Watch(Heartbeat(t0), [Deadline(t1, true, alive), Deadline(t2, true, alive), Deadline(t3, true, alive)])
            == Outcome(Restarted, if alive then 1 else 0)
  {
    var e1, e2, e3 := Deadline(t1, true, alive), Deadline(t2, true, alive), Deadline(t3, true, alive);
    assert [e1, e2, e3][1..] == [e2, e3] && [e2, e3][1..] == [e3] && [e1, e2][1..] == [e2];
    assert Watch(Watchdog(t0, 2), [e2]) == Outcome(Watchdog(t0, 3), 0);
    assert Watch(Watchdog(t0, 3), [e3]) == Outcome(Restarted, if alive then 1 else 0);
    assert Watch(Watchdog(t0, 2), [e2, e3]) == Outcome(Restarted, if alive then 1 else 0);
  }
}
