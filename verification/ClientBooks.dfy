/** What every step of a client accounts for: gauges, sockets, identity and requests. */
module ClientBooks {
  import opened Bytes
  import opened Wire
  import opened Settings
  import opened Motion
  import opened SimClient
  import Bundle
  import Pacing

  function Bit(b: bool): int {
    if b then 1 else 0
  }

  /** The client is waiting on the control thread. */
  predicate Owed(c: Client) {
    c.state == SUSPENDED || c.refreshRequested
  }

  predicate SocketFits(c: Client) {
    c.open <==> c.state == ACTIVE
  }

  /** The gauge increments are the state change, and every request carries the client's account. */
  ghost predicate Booked(c: Client, o: Outcome) {
    && o.active == Bit(o.client.state == ACTIVE) - Bit(c.state == ACTIVE)
    && o.suspended == Bit(o.client.state == SUSPENDED) - Bit(c.state == SUSPENDED)
    && Who(o.client.creds) == Who(c.creds)
    && (forall k :: 0 <= k < |o.asks| ==> Who(o.asks[k].creds) == Who(c.creds))
    && (SocketFits(c) ==> SocketFits(o.client))
  }

  /** Outside an answer, a client is left waiting only with a new request, a known failure, or
      because it already was. */
  ghost predicate KeepsWaiting(c: Client, o: Outcome) {
    Owed(o.client) ==> o.asks != [] || o.client.refused || (Owed(c) && !c.refused)
  }

  lemma SuspendBooked(c: Client, kind: Kind)
    ensures Booked(c, Suspend(c, kind)) && KeepsWaiting(c, Suspend(c, kind))
    ensures Suspend(c, kind).client.state == SUSPENDED
    ensures |Suspend(c, kind).asks| == Bit(c.state != SUSPENDED)
  {
  }

  lemma ApplyBooked(cfg: Config, c: Client, u: Update)
    requires !u.failed ==> Who(u.creds) == Who(c.creds)
    ensures Booked(c, Apply(cfg, c, u)) && Apply(cfg, c, u).asks == []
    ensures Owed(Apply(cfg, c, u).client) ==> Apply(cfg, c, u).client.refused
  {
  }

  /** The two clients agree on everything the control protocol looks at. */
  predicate SameStanding(c: Client, d: Client) {
    && d.state == c.state && d.open == c.open && d.creds == c.creds
    && d.refreshRequested == c.refreshRequested && d.refused == c.refused
  }

  lemma ConnectBooked(c: Client, armed: Client, socketOk: bool)
    requires SameStanding(c, armed) && c.state == WAITING
    ensures Booked(c, Connect(armed, socketOk)) && KeepsWaiting(c, Connect(armed, socketOk))
    ensures |Connect(armed, socketOk).asks| <= 1
  {
  }

  lemma ActivateBooked(cfg: Config, c: Client, w: Wake)
    requires cfg.updateHz >= 1
    ensures Booked(c, Activate(cfg, c, w)) && KeepsWaiting(c, Activate(cfg, c, w))
    ensures |Activate(cfg, c, w).asks| <= 1
  {
    if ReadyAt(c, w.now) {
      ConnectBooked(c, Arm(cfg, c, w), w.socketOk);
    }
  }

  /** A message changes the requests owed, but once the client is suspended it asks no more. */
  ghost predicate AsksOnce(c: Client, o: Outcome) {
    && |o.asks| == Bit(o.client.state == SUSPENDED && c.state != SUSPENDED)
    && (c.state == SUSPENDED ==> o.client.state == SUSPENDED && o.client.refused == c.refused)
    && (o.asks == [] ==> o.client.refused == c.refused && (o.client.refreshRequested ==> c.refreshRequested || c.state == SUSPENDED))
  }

  lemma ErrorCodeBooked(cfg: Config, c: Client, code: byte, now: Readings)
    ensures Booked(c, ErrorCode(cfg, c, code, now)) && AsksOnce(c, ErrorCode(cfg, c, code, now))
  {
    var k := Classify(cfg, c, code, now).client;
    assert SameStanding(c, k);
    SuspendBooked(k.(refreshRequested := true), REFRESH);
    SuspendBooked(k.(unauthorized := 0), REASSIGN);
  }

  lemma MemberBooked(cfg: Config, c: Client, m: Bytes, now: Readings)
    ensures Booked(c, Member(cfg, c, m, now)) && AsksOnce(c, Member(cfg, c, m, now))
  {
    if m != [] && m[0] == GENERIC_ERROR_MESSAGE && |m| >= 3 {
      ErrorCodeBooked(cfg, c, m[2], now);
    }
    SuspendBooked(c, REASSIGN);
  }

  lemma {:induction false} MembersBooked(cfg: Config, c: Client, ms: seq<Bytes>, clock: seq<Readings>)
    ensures Booked(c, Members(cfg, c, ms, clock)) && AsksOnce(c, Members(cfg, c, ms, clock))
    decreases |ms|
  {
    if ms != [] {
      var rest := ms[..|ms| - 1];
      MembersBooked(cfg, c, rest, clock);
      var a := Members(cfg, c, rest, clock);
      MemberBooked(cfg, a.client, ms[|ms| - 1], Reading(clock, |ms| - 1));
      JoinAsks(c, a, Member(cfg, a.client, ms[|ms| - 1], Reading(clock, |ms| - 1)));
    }
  }

  lemma JoinAsks(c: Client, a: Outcome, b: Outcome)
    requires Booked(c, a) && Booked(a.client, b) && AsksOnce(c, a) && AsksOnce(a.client, b)
    ensures Booked(c, Join(a, b)) && AsksOnce(c, Join(a, b))
  {
    var j := Join(a, b);
    forall k | 0 <= k < |j.asks|
      ensures Who(j.asks[k].creds) == Who(c.creds)
    {
      if k < |a.asks| {
        assert j.asks[k] == a.asks[k];
      } else {
        assert j.asks[k] == b.asks[k - |a.asks|];
      }
    }
  }

  /** One datagram causes at most one control request, whatever its members are, and exactly
      one when it is what suspends the client. */
  lemma DatagramAsksOnce(p: Platform, cfg: Config, c: Client, data: Bytes, rx: real, clock: seq<Readings>)
    ensures var o := Datagram(p, cfg, c, data, rx, clock);
            && Booked(c, o) && KeepsWaiting(c, o)
            && |o.asks| == Bit(o.client.state == SUSPENDED && c.state != SUSPENDED)
  {
    var heard := c.(lastRx := rx);
    MembersBooked(cfg, heard, Bundle.Deliver(data).delivered, clock);
  }

  /** A send either leaves the client's standing alone or suspends it with one request. */
  ghost predicate SendsOrSuspends(c: Client, o: Outcome) {
    && Booked(c, o)
    && |o.asks| == Bit(o.client.state == SUSPENDED && c.state != SUSPENDED)
    && (o.asks == [] ==> SameStanding(c, o.client))
  }

  lemma HandedBooked(cfg: Config, c: Client, delivered: bool, sent: seq<Bytes>)
    ensures SendsOrSuspends(c, Handed(cfg, c, delivered).(sent := sent))
  {
    SuspendBooked(c.(sendErrors := 0), REASSIGN);
  }

  lemma StampedBooked(c: Client, body: Body, message: Buffer, o: Outcome)
    requires SendsOrSuspends(Stamped(c, body, message), o)
    ensures SendsOrSuspends(c, o)
  {
  }

  lemma TransmitBooked(p: Platform, cfg: Config, c: Client, t: Tick)
    ensures SendsOrSuspends(c, Transmit(p, cfg, c, t))
  {
    var body := UpdateWalk(p, cfg, c.body, t.nowSec, t.aim);
    var built := Built(p, cfg, c, body, t.epochMs);
    HandedBooked(cfg, Stamped(c, body, built.buf), t.delivered, [built.buf[..UpdateSize(cfg.fmt)]]);
    StampedBooked(c, body, built.buf, Transmit(p, cfg, c, t));
  }

  lemma SendDueBooked(p: Platform, cfg: Config, c: Client, t: Tick)
    requires cfg.updateHz >= 1
    ensures Booked(c, SendDue(p, cfg, c, t)) && KeepsWaiting(c, SendDue(p, cfg, c, t))
    ensures |SendDue(p, cfg, c, t).asks| <= 2
  {
    SuspendBooked(c, REASSIGN);
    if c.state == ACTIVE && !Silent(cfg, c, t.nowSec)
       && Pacing.Due(Pacing.Interval(cfg.updateHz), c.lastSend, t.nowSec) {
      var gate := PassGate(cfg, c, t);
      var ready := Advertise(cfg, gate.client, t.nowSec);
      GateBooked(cfg, c, t);
      TransmitBooked(p, cfg, ready, t);
      JoinGate(c, gate, ready, Transmit(p, cfg, ready, t));
    }
  }

  lemma GateBooked(cfg: Config, c: Client, t: Tick)
    requires cfg.updateHz >= 1
    ensures var g := PassGate(cfg, c, t); var r := Advertise(cfg, g.client, t.nowSec);
            && Booked(c, g) && |g.asks| <= 1
            && r.state == c.state && r.open == c.open && r.creds == c.creds
            && (g.asks == [] ==> SameStanding(c, r))
  {
  }

  lemma JoinGate(c: Client, g: Outcome, ready: Client, o: Outcome)
    requires Booked(c, g) && SendsOrSuspends(ready, o) && |g.asks| <= 1
    requires ready.state == c.state && ready.open == c.open && ready.creds == c.creds
    requires g.asks == [] ==> SameStanding(c, ready)
    requires g.client.state == c.state && g.active == 0 && g.suspended == 0
    ensures Booked(c, Join(g, o)) && KeepsWaiting(c, Join(g, o)) && |Join(g, o).asks| <= 2
  {
    var j := Join(g, o);
    forall k | 0 <= k < |j.asks|
      ensures Who(j.asks[k].creds) == Who(c.creds)
    {
      if k < |g.asks| {
        assert j.asks[k] == g.asks[k];
      } else {
        assert j.asks[k] == o.asks[k - |g.asks|];
      }
    }
  }

  /** Every step of every kind. */
  lemma ReactBooked(p: Platform, cfg: Config, c: Client, e: Event)
    requires cfg.updateHz >= 1 && OwnAnswer(c, e)
    ensures Booked(c, React(p, cfg, c, e)) && |React(p, cfg, c, e).asks| <= 2
    ensures !e.Answered? ==> KeepsWaiting(c, React(p, cfg, c, e))
    ensures e.Answered? ==> React(p, cfg, c, e).asks == []
    ensures e.Answered? && Owed(React(p, cfg, c, e).client) ==> React(p, cfg, c, e).client.refused
  {
    match e
    case Answered(u) => ApplyBooked(cfg, c, u);
    case Woken(w) => ActivateBooked(cfg, c, w);
    case Received(data, rx, clock) => DatagramAsksOnce(p, cfg, c, data, rx, clock);
    case Ticked(t) => SendDueBooked(p, cfg, c, t);
  }
}
