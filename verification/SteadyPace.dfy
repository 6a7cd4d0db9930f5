/** The send rate of a running client (`sendDueUpdates` in `Worker.cpp`): over a spell in which
    the client stays active, its attempts are those of the send gate, and after an activation
    they keep to the rate. */
module SteadyPace {
  import opened Wire
  import opened Settings
  import opened Motion
  import opened SimClient
  import opened ClientInvariants
  import opened ClientHistory
  import opened Protocol
  import opened Pacing
  import Bundle

  /** The client is active, and was after every event on the way. */
  ghost predicate StaysActive(p: Platform, cfg: Config, c: Client, es: seq<Event>)
    requires cfg.updateHz >= 1
    decreases |es|
  {
    Live(p, cfg, c, es).client.state == ACTIVE && (es != [] ==> StaysActive(p, cfg, c, es[..|es| - 1]))
  }

  /** The clock readings of the ticks among the events. */
  function TickTimes(es: seq<Event>): seq<real> {
    if es == [] then []
    else
      var e := es[|es| - 1];
      TickTimes(es[..|es| - 1]) + if e.Ticked? then [e.tick.nowSec] else []
  }

  // ----- A client's ticks are the gate's -----------------------------------------------

  lemma OtherEventsKeepPace(p: Platform, cfg: Config, c: Client, e: Event)
    requires cfg.updateHz >= 1 && !e.Ticked? && c.state == ACTIVE && React(p, cfg, c, e).client.state == ACTIVE
    ensures React(p, cfg, c, e).client.lastSend == c.lastSend && React(p, cfg, c, e).client.attempts == c.attempts
  {
    match e
    case Answered(u) =>
    case Woken(w) =>
    case Received(data, rx, clock) => MembersPace(cfg, c.(lastRx := rx), Bundle.Deliver(data).delivered, clock);
  }

  lemma TickPasses(p: Platform, cfg: Config, c: Client, t: Tick)
    requires cfg.updateHz >= 1 && c.state == ACTIVE && SendDue(p, cfg, c, t).client.state == ACTIVE
    ensures var d, i := SendDue(p, cfg, c, t).client, Interval(cfg.updateHz);
            if Due(i, c.lastSend, t.nowSec)
            then d.lastSend == Advance(i, c.lastSend, t.nowSec) && d.attempts == c.attempts + [t.nowSec]
            else d == c
  {
    hide Transmit, Interval;
    if Due(Interval(cfg.updateHz), c.lastSend, t.nowSec) {
      var ready := AtSend(cfg, c, t);
      assert ready.attempts == c.attempts + [t.nowSec];
      TransmitPace(p, cfg, ready, t);
    }
  }

  /** Over any events through which the client stays active, its attempts grow by the gate's
      and its mark is the gate's. */
  lemma {:induction false} SpellIsGate(p: Platform, cfg: Config, c: Client, es: seq<Event>)
    requires cfg.updateHz >= 1 && StaysActive(p, cfg, c, es)
    ensures var d, r := Live(p, cfg, c, es).client, RunTicks(Interval(cfg.updateHz), c.lastSend, TickTimes(es));
            d.lastSend == r.last && |d.attempts| == |c.attempts| + r.attempts
    decreases |es|
  {
    hide React, SendDue, Interval;
    if es != [] {
      var rest, e := es[..|es| - 1], es[|es| - 1];
      SpellIsGate(p, cfg, c, rest);
      var b := Live(p, cfg, c, rest).client;
      ActiveBefore(p, cfg, c, es);
      if e.Ticked? {
        TickReacts(p, cfg, b, e.tick);
        TickPasses(p, cfg, b, e.tick);
        OneTickMore(Interval(cfg.updateHz), c.lastSend, TickTimes(rest), e.tick.nowSec);
      } else {
        OtherEventsKeepPace(p, cfg, b, e);
        assert TickTimes(rest) + [] == TickTimes(rest);
      }
    }
  }

  lemma ActiveBefore(p: Platform, cfg: Config, c: Client, es: seq<Event>)
    requires cfg.updateHz >= 1 && es != [] && StaysActive(p, cfg, c, es)
    ensures Live(p, cfg, c, es[..|es| - 1]).client.state == ACTIVE
  {
    hide React;
  }

  lemma TickReacts(p: Platform, cfg: Config, c: Client, t: Tick)
    requires cfg.updateHz >= 1
    ensures React(p, cfg, c, Ticked(t)) == SendDue(p, cfg, c, t)
  {
    hide SendDue;
  }

  lemma OneTickMore(i: real, last: real, ticks: seq<real>, now: real)
    ensures var before, after := RunTicks(i, last, ticks), RunTicks(i, last, ticks + [now]);
            after == if Due(i, before.last, now) then Progress(before.attempts + 1, Advance(i, before.last, now)) else before
  {
    assert (ticks + [now])[..|ticks|] == ticks;
  }

  // ----- Splitting a history -----------------------------------------------------------

  lemma {:induction false} LiveSplit(p: Platform, cfg: Config, c: Client, a: seq<Event>, b: seq<Event>)
    requires cfg.updateHz >= 1
    ensures Live(p, cfg, c, a + b).client == Live(p, cfg, Live(p, cfg, c, a).client, b).client
    ensures StaysActive(p, cfg, c, a + b) ==> StaysActive(p, cfg, c, a) && StaysActive(p, cfg, Live(p, cfg, c, a).client, b)
    decreases |b|
  {
    hide React;
    if b == [] {
      assert a + b == a;
    } else {
      LiveSplit(p, cfg, c, a, b[..|b| - 1]);
      assert (a + b)[..|a + b| - 1] == a + b[..|b| - 1];
    }
  }

  lemma {:induction false} TickTimesSplit(a: seq<Event>, b: seq<Event>)
    ensures TickTimes(a + b) == TickTimes(a) + TickTimes(b)
    decreases |b|
  {
    if b == [] {
      assert a + b == a;
    } else {
      TickTimesSplit(a, b[..|b| - 1]);
      assert (a + b)[..|a + b| - 1] == a + b[..|b| - 1];
    }
  }

  lemma {:induction false} CloseSplit(i: real, start: real, a: seq<real>, b: seq<real>)
    requires Close(i, start, a + b)
    ensures Close(i, start, a) && Close(i, EndOf(start, a), b) && EndOf(start, a + b) == EndOf(EndOf(start, a), b)
    decreases |b|
  {
    if b == [] {
      assert a + b == a;
    } else {
      var rest := b[..|b| - 1];
      assert (a + b)[..|a + b| - 1] == a + rest;
      CloseSplit(i, start, a, rest);
    }
  }

  // ----- Steady rate after an activation -----------------------------------------------

  /** Activation leaves the mark at most an interval behind the clock. */
  lemma ActivationLag(cfg: Config, c: Client, w: Wake)
    requires cfg.updateHz >= 1 && ReadyAt(c, w.now) && ValidWake(cfg, w) && w.socketOk
    ensures var d := Activate(cfg, c, w).client;
            d.state == ACTIVE && 0.0 <= w.nowSec - d.lastSend <= Interval(cfg.updateHz)
  {
    hide Place, Template, Interval;
    var i := Interval(cfg.updateHz);
    assert 0.0 <= w.stagger * i <= i;
  }

  /** The tick of the same loop turn leaves it less than one behind. */
  lemma FirstTickLag(p: Platform, cfg: Config, c: Client, t: Tick)
    requires cfg.updateHz >= 1 && c.state == ACTIVE && SendDue(p, cfg, c, t).client.state == ACTIVE
    requires 0.0 <= t.nowSec - c.lastSend <= Interval(cfg.updateHz)
    ensures 0.0 <= t.nowSec - SendDue(p, cfg, c, t).client.lastSend < Interval(cfg.updateHz)
  {
    hide SendDue, Interval;
    TickPasses(p, cfg, c, t);
    SlackAfterTick(Interval(cfg.updateHz), c.lastSend, t.nowSec);
  }

  /** The loop turn that activates the client: it wakes, and is ticked at the same reading. */
  ghost predicate Begins(cfg: Config, c: Client, w: Wake, t: Tick) {
    ReadyAt(c, w.now) && ValidWake(cfg, w) && w.socketOk && t.nowSec == w.nowSec
  }

  lemma BeginsLagging(p: Platform, cfg: Config, c: Client, w: Wake, t: Tick)
    requires cfg.updateHz >= 1 && Begins(cfg, c, w, t) && Live(p, cfg, c, [Woken(w), Ticked(t)]).client.state == ACTIVE
    ensures 0.0 <= w.nowSec - Live(p, cfg, c, [Woken(w), Ticked(t)]).client.lastSend < Interval(cfg.updateHz)
  {
    hide SendDue, Activate, Interval, ValidWake, ReadyAt;
    var es := [Woken(w), Ticked(t)];
    assert es[..1] == [Woken(w)] && [Woken(w)][..0] == [];
    assert Live(p, cfg, c, []) == Quiet(c);
    assert Live(p, cfg, c, [Woken(w)]).client == Activate(cfg, c, w).client;
    assert Live(p, cfg, c, es).client == SendDue(p, cfg, Activate(cfg, c, w).client, t).client;
    ActivationLag(cfg, c, w);
    FirstTickLag(p, cfg, Activate(cfg, c, w).client, t);
  }

  /** Between the moments after `a` and after `b` the attempts are W * hz to within less than one. */
  ghost predicate KeepsRate(hz: nat, made: int, from: real, until: real) {
    -1.0 < made as real - (until - from) * hz as real < 1.0
  }

  /** From an activation on, while the client stays active and ticks are at most one interval
      apart, the attempts between any two moments of the spell keep to the rate.  Whatever
      else the client receives or is told in between makes no difference. */
  lemma SteadyAfterActivation(p: Platform, cfg: Config, c: Client, w: Wake, t: Tick, a: seq<Event>, b: seq<Event>)
    requires cfg.updateHz >= 1 && Begins(cfg, c, w, t)
    requires StaysActive(p, cfg, Live(p, cfg, c, [Woken(w), Ticked(t)]).client, a + b)
    requires Close(Interval(cfg.updateHz), w.nowSec, TickTimes(a + b))
    ensures var begin := [Woken(w), Ticked(t)];
            KeepsRate(cfg.updateHz,
                      |Live(p, cfg, c, begin + a + b).client.attempts| - |Live(p, cfg, c, begin + a).client.attempts|,
                      EndOf(w.nowSec, TickTimes(a)), EndOf(w.nowSec, TickTimes(a + b)))
  {
    hide Live, React, Interval, Begins, RunTicks, Close, TickTimes;
    var begin, i := [Woken(w), Ticked(t)], Interval(cfg.updateHz);
    var d := Live(p, cfg, c, begin).client;
    LiveSplit(p, cfg, d, a, b);
    var e := Live(p, cfg, d, a).client;
    ActiveAtStart(p, cfg, d, a);
    BeginsLagging(p, cfg, c, w, t);
    TickTimesSplit(a, b);
    CloseSplit(i, w.nowSec, TickTimes(a), TickTimes(b));
    SpellIsGate(p, cfg, d, a);
    PhaseKept(i, d.lastSend, w.nowSec, TickTimes(a));
    SpellIsGate(p, cfg, e, b);
    WithinOneFromPhase(cfg.updateHz, e.lastSend, EndOf(w.nowSec, TickTimes(a)), TickTimes(b));
    LiveSplit(p, cfg, c, begin, a);
    LiveSplit(p, cfg, c, begin, a + b);
    assert begin + a + b == begin + (a + b);
  }

  lemma {:induction false} ActiveAtStart(p: Platform, cfg: Config, c: Client, es: seq<Event>)
    requires cfg.updateHz >= 1 && StaysActive(p, cfg, c, es)
    ensures c.state == ACTIVE
    decreases |es|
  {
    hide React;
    if es != [] {
      ActiveAtStart(p, cfg, c, es[..|es| - 1]);
    }
  }

  // ----- In a run of the whole system --------------------------------------------------

  /** What a schedule does to one client. */
  function EventsFor(run: seq<Label>, w: nat, i: nat): seq<Event> {
    if run == [] then []
    else
      var l := run[|run| - 1];
      EventsFor(run[..|run| - 1], w, i) + if l.Step? && l.w == w && l.slot == i then [l.event] else []
  }

  lemma NextIsReact(p: Platform, cfg: Config, s: System, l: Label, w: nat, i: nat)
    requires cfg.updateHz >= 1 && Enabled(cfg, s, l) && w < |s.shards| && i < |s.shards[w].clients|
    ensures var t := Next(p, cfg, s, l);
            && w < |t.shards| && i < |t.shards[w].clients|
            && t.shards[w].clients[i] == if l.Step? && l.w == w && l.slot == i
                                         then React(p, cfg, s.shards[w].clients[i], l.event).client else s.shards[w].clients[i]
  {
    hide React, Possible;
  }

  /** In any run a client is what its own events made of it. */
  lemma {:induction false} RunIsHistory(p: Platform, cfg: Config, s: System, run: seq<Label>, w: nat, i: nat)
    requires cfg.updateHz >= 1 && Exec(p, cfg, s, run).Some? && w < |s.shards| && i < |s.shards[w].clients|
    ensures var t := Exec(p, cfg, s, run).value;
            && w < |t.shards| && i < |t.shards[w].clients|
            && t.shards[w].clients[i] == Live(p, cfg, s.shards[w].clients[i], EventsFor(run, w, i)).client
    decreases |run|
  {
    hide React, Next, Enabled;
    if run != [] {
      var before, l, c := run[..|run| - 1], run[|run| - 1], s.shards[w].clients[i];
      RunIsHistory(p, cfg, s, before, w, i);
      NextIsReact(p, cfg, Exec(p, cfg, s, before).value, l, w, i);
      var es := EventsFor(before, w, i);
      if l.Step? && l.w == w && l.slot == i {
        assert (es + [l.event])[..|es|] == es;
      } else {
        assert es + [] == es;
      }
    }
  }

  /** The steady rate in a run: two moments of a run after the client of a slot was activated,
      with anything at all happening to the rest of the system. */
  lemma SteadyInRun(p: Platform, cfg: Config, s: System, run: seq<Label>, more: seq<Label>, w: nat, i: nat,
                    wake: Wake, t: Tick, a: seq<Event>, b: seq<Event>)
    requires cfg.updateHz >= 1 && w < |s.shards| && i < |s.shards[w].clients| && Begins(cfg, s.shards[w].clients[i], wake, t)
    requires Exec(p, cfg, s, run).Some? && Exec(p, cfg, s, run + more).Some?
    requires EventsFor(run, w, i) == [Woken(wake), Ticked(t)] + a
    requires EventsFor(run + more, w, i) == [Woken(wake), Ticked(t)] + a + b
    requires StaysActive(p, cfg, Live(p, cfg, s.shards[w].clients[i], [Woken(wake), Ticked(t)]).client, a + b)
    requires Close(Interval(cfg.updateHz), wake.nowSec, TickTimes(a + b))
    ensures var u, v := Exec(p, cfg, s, run).value, Exec(p, cfg, s, run + more).value;
            && w < |u.shards| && i < |u.shards[w].clients| && w < |v.shards| && i < |v.shards[w].clients|
            && KeepsRate(cfg.updateHz, |v.shards[w].clients[i].attempts| - |u.shards[w].clients[i].attempts|,
                         EndOf(wake.nowSec, TickTimes(a)), EndOf(wake.nowSec, TickTimes(a + b)))
  {
    hide Live, StaysActive, Close, TickTimes, Exec, EventsFor, Begins, KeepsRate;
    RunIsHistory(p, cfg, s, run, w, i);
    RunIsHistory(p, cfg, s, run + more, w, i);
    SteadyAfterActivation(p, cfg, s.shards[w].clients[i], wake, t, a, b);
  }

  // ----- A lag of exactly one interval -------------------------------------------------

  /** When a stall of exactly two intervals ends. */
  function StallEnd(cfg: Config): real
    requires cfg.updateHz >= 1
  {
    1.0 + 2.0 * Interval(cfg.updateHz)
  }

  function TickAt(t: real): Tick {
    Tick(t, 0, 0.0, AHEAD, true)
  }

  function Stall(cfg: Config): seq<Event>
    requires cfg.updateHz >= 1
  {
    [Woken(PromptWake(SECOND_TICKS, 1.0)), Ticked(TickAt(1.0)), Received([], StallEnd(cfg), []), Ticked(TickAt(StallEnd(cfg)))]
  }

  lemma DeliveredTick(p: Platform, cfg: Config, c: Client, t: real)
    requires cfg.updateHz >= 1 && c.state == ACTIVE && c.lastRx == t && Due(Interval(cfg.updateHz), c.lastSend, t)
    ensures var d := SendDue(p, cfg, c, TickAt(t)).client;
            && d.state == ACTIVE && d.lastSend == Advance(Interval(cfg.updateHz), c.lastSend, t)
            && d.lastRx == t && d.attempts == c.attempts + [t]
  {
    hide Transmit, Interval;
    var ready := AtSend(cfg, c, TickAt(t));
    TransmitKeeps(p, cfg, ready, TickAt(t));
    TransmitPace(p, cfg, ready, TickAt(t));
    TransmitHears(p, cfg, ready, TickAt(t));
  }

  lemma TransmitHears(p: Platform, cfg: Config, c: Client, t: Tick)
    ensures Transmit(p, cfg, c, t).client.lastRx == c.lastRx
  {
    hide UpdateWalk, Built;
  }

  /** A history after which the mark trails the clock by exactly one interval, so that a second
      tick at the same instant is one more attempt in no time at all. */
  lemma StallLeavesFullLag(p: Platform, cfg: Config)
    requires cfg.updateHz >= 1
    ensures var c0, es := NewClient(FIRST, 0), Stall(cfg);
            var d := Live(p, cfg, c0, es).client;
            && Plausible(p, cfg, c0, es) && Clock(es) == StallEnd(cfg) && d.state == ACTIVE
            && StallEnd(cfg) - d.lastSend == Interval(cfg.updateHz)
            && |SendDue(p, cfg, d, TickAt(StallEnd(cfg))).client.attempts| == |d.attempts| + 1
  {
    hide Activate, SendDue, Datagram, Live, Plausible, ValidWake, Interval;
    var c0, i, end := NewClient(FIRST, 0), Interval(cfg.updateHz), StallEnd(cfg);
    var e0, e1, e2, e3 := Woken(PromptWake(SECOND_TICKS, 1.0)), Ticked(TickAt(1.0)), Received([], end, []), Ticked(TickAt(end));
    Started(p, cfg, c0);
    PromptlyDue(cfg, SECOND_TICKS, 1.0);
    Onward(p, cfg, c0, [], e0, c0);
    var c1 := Activate(cfg, c0, PromptWake(SECOND_TICKS, 1.0)).client;
    DeliveredTick(p, cfg, c1, 1.0);
    Onward(p, cfg, c0, [] + [e0], e1, c1);
    var c2 := SendDue(p, cfg, c1, TickAt(1.0)).client;
    NoMembers();
    HearNothing(p, cfg, c2, end, []);
    Onward(p, cfg, c0, [] + [e0] + [e1], e2, c2);
    var c3 := c2.(lastRx := end);
    SlackAfterTick(i, c3.lastSend, end);
    DeliveredTick(p, cfg, c3, end);
    Onward(p, cfg, c0, [] + [e0] + [e1] + [e2], e3, c3);
    DeliveredTick(p, cfg, SendDue(p, cfg, c3, TickAt(end)).client, end);
    assert [] + [e0] + [e1] + [e2] + [e3] == Stall(cfg);
  }
}
