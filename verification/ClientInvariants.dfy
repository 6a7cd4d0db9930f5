/** What every history of one client keeps: the message buffer, the cube and its permission
    box, the send pacing and the refresh request. */
module ClientInvariants {
  import opened Bytes
  import opened Wire
  import opened Settings
  import opened Motion
  import opened SimClient
  import Bundle
  import Pacing

  // ----- The message buffer ------------------------------------------------------------

  /** Once placed, the buffer carries the session of the client's current credentials. */
  ghost predicate Loaded(cfg: Config, c: Client) {
    (c.Placed() ==> Carries(c.message, SessionOf(cfg, c))) && (c.state == ACTIVE ==> c.Placed())
  }

  lemma RebuildLoads(cfg: Config, c: Client)
    ensures Carries(Rebuild(cfg, c).message, SessionOf(cfg, Rebuild(cfg, c)))
  {
    TemplateCarries(SessionOf(cfg, c));
  }

  /** A step that leaves the buffer, the UUID and the game token id alone. */
  predicate SameLoad(c: Client, d: Client) {
    d.message == c.message && d.uuid == c.uuid && d.creds.gameTokenId == c.creds.gameTokenId
  }

  lemma ApplyLoaded(cfg: Config, c: Client, u: Update)
    requires Loaded(cfg, c)
    ensures Loaded(cfg, Apply(cfg, c, u).client)
  {
    RebuildLoads(cfg, c.(creds := u.creds, refreshRequested := false, refused := false));
  }

  lemma ArmLoaded(cfg: Config, c: Client, w: Wake)
    requires cfg.updateHz >= 1 && Loaded(cfg, c) && ValidWake(cfg, w)
    ensures Arm(cfg, c, w).Placed() && Carries(Arm(cfg, c, w).message, SessionOf(cfg, Arm(cfg, c, w)))
  {
    if !c.Placed() {
      InitLoaded(cfg, c, w);
    }
  }

  lemma InitLoaded(cfg: Config, c: Client, w: Wake)
    requires cfg.updateHz >= 1
    ensures Init(cfg, c, w).uuid == w.uuid && Carries(Init(cfg, c, w).message, SessionOf(cfg, Init(cfg, c, w)))
  {
    var interval := Pacing.Interval(cfg.updateHz);
    RebuildLoads(cfg, c.(body := Place(cfg, c.creds.index, w.spawn, w.nowSec, c.body), uuid := w.uuid,
                         lastSend := w.nowSec - interval + w.stagger * interval, seqNo := 0));
  }

  lemma ErrorLoad(cfg: Config, c: Client, code: byte, now: Readings)
    ensures SameLoad(c, ErrorCode(cfg, c, code, now).client)
    ensures ErrorCode(cfg, c, code, now).client.state == ACTIVE ==> c.state == ACTIVE
    ensures ErrorCode(cfg, c, code, now).sent == []
  {
  }

  lemma MemberLoad(cfg: Config, c: Client, m: Bytes, now: Readings)
    ensures SameLoad(c, Member(cfg, c, m, now).client)
    ensures Member(cfg, c, m, now).client.state == ACTIVE ==> c.state == ACTIVE
    ensures Member(cfg, c, m, now).sent == []
  {
    hide ErrorCode;
    if |m| >= 3 {
      ErrorLoad(cfg, c, m[2], now);
    }
  }

  lemma {:induction false} MembersLoad(cfg: Config, c: Client, ms: seq<Bytes>, clock: seq<Readings>)
    ensures SameLoad(c, Members(cfg, c, ms, clock).client)
    ensures Members(cfg, c, ms, clock).client.state == ACTIVE ==> c.state == ACTIVE
    ensures Members(cfg, c, ms, clock).sent == []
    decreases |ms|
  {
    if ms != [] {
      var rest := ms[..|ms| - 1];
      MembersLoad(cfg, c, rest, clock);
      MemberLoad(cfg, Members(cfg, c, rest, clock).client, ms[|ms| - 1], Reading(clock, |ms| - 1));
    }
  }

  lemma DatagramLoad(p: Platform, cfg: Config, c: Client, data: Bytes, rx: real, clock: seq<Readings>)
    ensures SameLoad(c, Datagram(p, cfg, c, data, rx, clock).client)
    ensures Datagram(p, cfg, c, data, rx, clock).client.state == ACTIVE ==> c.state == ACTIVE
    ensures Datagram(p, cfg, c, data, rx, clock).sent == []
  {
    MembersLoad(cfg, c.(lastRx := rx), Bundle.Deliver(data).delivered, clock);
  }

  /** What a transmission puts on the wire: the pure encoding of the client's own UUID, app,
      current game token id, chunk, pose and sequence number, signed with its current token. */
  ghost predicate IsEncoding(p: Platform, cfg: Config, before: Client, after: Client, epochMs: real, message: Bytes) {
    var s, q := SessionOf(cfg, before), PoseOf(p, cfg, after.body, epochMs);
    var tag := Sign(p, Prefix(p, s, after.body.chunk, q), before.creds.appToken);
    && tag.Some?
    && message == Encode(p, s, after.body.chunk, q, before.seqNo, tag.value)
    && VerifyNotification(p, message, before.creds.appToken)
  }

  lemma HandedKeeps(cfg: Config, c: Client, delivered: bool)
    ensures SameLoad(c, Handed(cfg, c, delivered).client) && Handed(cfg, c, delivered).client.body == c.body
    ensures Handed(cfg, c, delivered).client.state == ACTIVE ==> c.state == ACTIVE
  {
  }

  lemma TransmitEncodes(p: Platform, cfg: Config, c: Client, t: Tick)
    requires c.Placed() && Carries(c.message, SessionOf(cfg, c))
    ensures var o := Transmit(p, cfg, c, t);
            && Carries(o.client.message, SessionOf(cfg, o.client)) && o.client.uuid == c.uuid
            && |o.sent| <= 1
            && (forall m :: m in o.sent ==> IsEncoding(p, cfg, c, o.client, t.epochMs, m))
  {
    var s := SessionOf(cfg, c);
    var body := UpdateWalk(p, cfg, c.body, t.nowSec, t.aim);
    var q := PoseOf(p, cfg, body, t.epochMs);
    var built := Built(p, cfg, c, body, t.epochMs);
    FinalizeEncodes(p, c.message, s, body.chunk, q, c.seqNo, c.creds.appToken);
    HandedKeeps(cfg, Stamped(c, body, built.buf), t.delivered);
    match Sign(p, Prefix(p, s, body.chunk, q), c.creds.appToken)
    case Some(tag) => EncodedVerifies(p, s, body.chunk, q, c.seqNo, tag, c.creds.appToken);
    case None =>
  }

  /** The client as it stands when the message is built: past the gate, capabilities sent. */
  function AtSend(cfg: Config, c: Client, t: Tick): Client
    requires cfg.updateHz >= 1
  {
    Advertise(cfg, PassGate(cfg, c, t).client, t.nowSec)
  }

  lemma AtSendLoad(cfg: Config, c: Client, t: Tick)
    requires cfg.updateHz >= 1
    ensures SameLoad(c, AtSend(cfg, c, t)) && AtSend(cfg, c, t).creds == c.creds
  {
  }

  /** Every actor update handed to `send` is that encoding, and the step keeps the buffer loaded. */
  lemma SendDueEncodes(p: Platform, cfg: Config, c: Client, t: Tick)
    requires cfg.updateHz >= 1 && Loaded(cfg, c)
    ensures var o := SendDue(p, cfg, c, t);
            && Loaded(cfg, o.client) && |o.sent| <= 1
            && (forall m :: m in o.sent ==> IsEncoding(p, cfg, AtSend(cfg, c, t), o.client, t.epochMs, m))
  {
    if c.state == ACTIVE && !Silent(cfg, c, t.nowSec)
       && Pacing.Due(Pacing.Interval(cfg.updateHz), c.lastSend, t.nowSec) {
      AtSendLoad(cfg, c, t);
      TransmitEncodes(p, cfg, AtSend(cfg, c, t), t);
    }
  }

  lemma ReactLoaded(p: Platform, cfg: Config, c: Client, e: Event)
    requires cfg.updateHz >= 1 && Possible(cfg, c, e) && Loaded(cfg, c)
    ensures Loaded(cfg, React(p, cfg, c, e).client)
  {
    hide Datagram, SendDue, Apply;
    match e
    case Answered(u) => ApplyLoaded(cfg, c, u);
    case Woken(w) => ArmLoaded(cfg, c, w);
    case Received(data, rx, clock) => DatagramLoad(p, cfg, c, data, rx, clock);
    case Ticked(t) => SendDueEncodes(p, cfg, c, t);
  }

  // ----- The permission box in a cube --------------------------------------------------

  /** Position and box centre stay on the cube, and no reload has been recorded. */
  ghost predicate Boxed(cfg: Config, c: Client) {
    && (c.Placed() ==> Confined(cfg, c.body))
    && (c.perm.valid ==> NearCube(cfg, c.perm.center))
    && (c.perm.valid ==> c.Placed())
    && c.perm.reloadAt == 0
  }

  predicate SamePlace(c: Client, d: Client) {
    d.body == c.body && d.perm == c.perm && d.uuid == c.uuid
  }

  lemma BoxedTransfer(cfg: Config, c: Client, d: Client)
    requires Boxed(cfg, c) && SamePlace(c, d)
    ensures Boxed(cfg, d)
  {
  }

  lemma SuspendPlace(c: Client, kind: Kind)
    ensures SamePlace(c, Suspend(c, kind).client) && Suspend(c, kind).tally == NOTHING
  {
  }

  lemma NearMeansInside(cfg: Config, a: Chunk, b: Chunk)
    requires NearCube(cfg, a) && NearCube(cfg, b) && cfg.volumeChunks <= cfg.permWindowRadiusChunks
    ensures !OutsideBox(cfg, a, b)
  {
  }

  lemma MemberBoxed(cfg: Config, c: Client, m: Bytes, now: Readings)
    requires cfg.volumeChunks <= cfg.permWindowRadiusChunks && Boxed(cfg, c)
    ensures SamePlace(c, Member(cfg, c, m, now).client) && Member(cfg, c, m, now).tally.windowReload == 0
  {
    if c.perm.valid {
      NearMeansInside(cfg, c.body.chunk, c.perm.center);
    }
  }

  lemma {:induction false} MembersBoxed(cfg: Config, c: Client, ms: seq<Bytes>, clock: seq<Readings>)
    requires cfg.volumeChunks <= cfg.permWindowRadiusChunks && Boxed(cfg, c)
    ensures SamePlace(c, Members(cfg, c, ms, clock).client) && Members(cfg, c, ms, clock).tally.windowReload == 0
    decreases |ms|
  {
    if ms != [] {
      var rest := ms[..|ms| - 1];
      MembersBoxed(cfg, c, rest, clock);
      MemberBoxed(cfg, Members(cfg, c, rest, clock).client, ms[|ms| - 1], Reading(clock, |ms| - 1));
    }
  }

  lemma ArmBoxed(cfg: Config, c: Client, w: Wake)
    requires cfg.updateHz >= 1 && cfg.IsCube() && Boxed(cfg, c) && ValidWake(cfg, w)
    ensures Boxed(cfg, Arm(cfg, c, w))
  {
    if !c.Placed() {
      PlacedInOwnChunk(cfg, c.creds.index, w.spawn, w.nowSec, c.body);
    }
  }

  lemma AtSendPlace(cfg: Config, c: Client, t: Tick)
    requires cfg.updateHz >= 1
    ensures SamePlace(c, AtSend(cfg, c, t)) && PassGate(cfg, c, t).tally == NOTHING
  {
  }

  lemma SendDueBoxed(p: Platform, cfg: Config, c: Client, t: Tick)
    requires cfg.updateHz >= 1 && cfg.IsCube() && Boxed(cfg, c) && (c.state == ACTIVE ==> c.Placed())
    ensures Boxed(cfg, SendDue(p, cfg, c, t).client) && SendDue(p, cfg, c, t).tally.windowReload == 0
  {
    if c.state == ACTIVE && !Silent(cfg, c, t.nowSec)
       && Pacing.Due(Pacing.Interval(cfg.updateHz), c.lastSend, t.nowSec) {
      var ready := AtSend(cfg, c, t);
      AtSendPlace(cfg, c, t);
      BoxedTransfer(cfg, c, ready);
      TransmitBoxed(p, cfg, ready, t);
    } else {
      SuspendPlace(c, REASSIGN);
      BoxedTransfer(cfg, c, SendDue(p, cfg, c, t).client);
    }
  }

  lemma TransmitBoxed(p: Platform, cfg: Config, c: Client, t: Tick)
    requires cfg.IsCube() && Boxed(cfg, c) && c.Placed()
    ensures Boxed(cfg, Transmit(p, cfg, c, t).client) && Transmit(p, cfg, c, t).tally == NOTHING
  {
    WalkStaysConfined(p, cfg, c.body, t.nowSec, t.aim);
    var body := UpdateWalk(p, cfg, c.body, t.nowSec, t.aim);
    var built := Built(p, cfg, c, body, t.epochMs);
    StampedBoxed(cfg, c, body, built.buf, t.delivered);
  }

  lemma StampedBoxed(cfg: Config, c: Client, body: Body, message: Buffer, delivered: bool)
    requires Boxed(cfg, c) && Confined(cfg, body)
    ensures Boxed(cfg, Stamped(c, body, message))
    ensures Boxed(cfg, Handed(cfg, Stamped(c, body, message), delivered).client)
    ensures Handed(cfg, Stamped(c, body, message), delivered).tally == NOTHING
  {
  }

  lemma ApplyBoxed(cfg: Config, c: Client, u: Update)
    requires Boxed(cfg, c)
    ensures Boxed(cfg, Apply(cfg, c, u).client) && Apply(cfg, c, u).tally.windowReload == 0
  {
    BoxedTransfer(cfg, c, Apply(cfg, c, u).client);
  }

  lemma ActivateBoxed(cfg: Config, c: Client, w: Wake)
    requires cfg.updateHz >= 1 && cfg.IsCube() && Boxed(cfg, c) && ValidWake(cfg, w)
    ensures Boxed(cfg, Activate(cfg, c, w).client) && Activate(cfg, c, w).tally.windowReload == 0
  {
    if ReadyAt(c, w.now) {
      ArmBoxed(cfg, c, w);
      SuspendPlace(Arm(cfg, c, w), REASSIGN);
      BoxedTransfer(cfg, Arm(cfg, c, w), Activate(cfg, c, w).client);
    }
  }

  lemma DatagramBoxed(p: Platform, cfg: Config, c: Client, data: Bytes, rx: real, clock: seq<Readings>)
    requires cfg.volumeChunks <= cfg.permWindowRadiusChunks && Boxed(cfg, c)
    ensures Boxed(cfg, Datagram(p, cfg, c, data, rx, clock).client)
    ensures Datagram(p, cfg, c, data, rx, clock).tally.windowReload == 0
  {
    var heard := c.(lastRx := rx);
    BoxedTransfer(cfg, c, heard);
    MembersBoxed(cfg, heard, Bundle.Deliver(data).delivered, clock);
    BoxedTransfer(cfg, heard, Datagram(p, cfg, c, data, rx, clock).client);
  }

  /** Whatever the tick times, re-aims, suspensions, re-activations and refusals, a step of a
      client in a cube no wider than the permission radius files no window reload. */
  lemma ReactBoxed(p: Platform, cfg: Config, c: Client, e: Event)
    requires cfg.updateHz >= 1 && Possible(cfg, c, e)
    requires cfg.IsCube() && cfg.volumeChunks <= cfg.permWindowRadiusChunks
    requires Boxed(cfg, c) && (c.state == ACTIVE ==> c.Placed())
    ensures Boxed(cfg, React(p, cfg, c, e).client)
    ensures React(p, cfg, c, e).tally.windowReload == 0
  {
    match e
    case Answered(u) => ApplyBoxed(cfg, c, u);
    case Woken(w) => ActivateBoxed(cfg, c, w);
    case Received(data, rx, clock) => DatagramBoxed(p, cfg, c, data, rx, clock);
    case Ticked(t) => SendDueBoxed(p, cfg, c, t);
  }

  // ----- Pacing ------------------------------------------------------------------------

  ghost predicate Paced(cfg: Config, c: Client, clock: real)
    requires cfg.updateHz >= 1
  {
    && Pacing.Spaced(Pacing.Interval(cfg.updateHz), c.attempts, c.lastSend, clock)
    && (!c.Placed() ==> c.attempts == [])
  }

  predicate SamePace(c: Client, d: Client) {
    d.attempts == c.attempts && d.lastSend == c.lastSend && d.uuid == c.uuid
  }

  /** The worker's clock reading after the event. */
  function After(e: Event, clock: real): real {
    match e
    case Woken(w) => w.nowSec
    case Ticked(t) => t.nowSec
    case _ => clock
  }

  lemma ErrorPace(cfg: Config, c: Client, code: byte, now: Readings)
    ensures SamePace(c, ErrorCode(cfg, c, code, now).client)
  {
  }

  lemma MemberPace(cfg: Config, c: Client, m: Bytes, now: Readings)
    ensures SamePace(c, Member(cfg, c, m, now).client)
  {
    hide ErrorCode;
    if |m| >= 3 {
      ErrorPace(cfg, c, m[2], now);
    }
  }

  lemma {:induction false} MembersPace(cfg: Config, c: Client, ms: seq<Bytes>, clock: seq<Readings>)
    ensures SamePace(c, Members(cfg, c, ms, clock).client)
    decreases |ms|
  {
    if ms != [] {
      var rest := ms[..|ms| - 1];
      MembersPace(cfg, c, rest, clock);
      MemberPace(cfg, Members(cfg, c, rest, clock).client, ms[|ms| - 1], Reading(clock, |ms| - 1));
    }
  }

  lemma TransmitPace(p: Platform, cfg: Config, c: Client, t: Tick)
    ensures SamePace(c, Transmit(p, cfg, c, t).client)
  {
    var body := UpdateWalk(p, cfg, c.body, t.nowSec, t.aim);
    HandedPace(cfg, Stamped(c, body, Built(p, cfg, c, body, t.epochMs).buf), t.delivered);
  }

  lemma HandedPace(cfg: Config, c: Client, delivered: bool)
    ensures SamePace(c, Handed(cfg, c, delivered).client)
  {
  }

  lemma ActivatePaced(cfg: Config, c: Client, w: Wake, clock: real)
    requires cfg.updateHz >= 1 && Paced(cfg, c, clock) && clock <= w.nowSec && ValidWake(cfg, w)
    ensures Paced(cfg, Activate(cfg, c, w).client, w.nowSec)
  {
    if ReadyAt(c, w.now) {
      if c.Placed() {
        Pacing.ResumeKeepsSpacing(Pacing.Interval(cfg.updateHz), c.attempts, c.lastSend, clock, w.nowSec);
      }
      assert Arm(cfg, c, w).attempts == c.attempts && Arm(cfg, c, w).Placed();
      assert SamePace(Arm(cfg, c, w), Activate(cfg, c, w).client);
    }
  }

  lemma SendDuePaced(p: Platform, cfg: Config, c: Client, t: Tick, clock: real)
    requires cfg.updateHz >= 1 && Paced(cfg, c, clock) && clock <= t.nowSec && (c.state == ACTIVE ==> c.Placed())
    ensures Paced(cfg, SendDue(p, cfg, c, t).client, t.nowSec)
  {
    var interval := Pacing.Interval(cfg.updateHz);
    if c.state == ACTIVE && !Silent(cfg, c, t.nowSec) && Pacing.Due(interval, c.lastSend, t.nowSec) {
      Pacing.AttemptKeepsSpacing(interval, c.attempts, c.lastSend, clock, t.nowSec);
      var ready := AtSend(cfg, c, t);
      assert ready.attempts == c.attempts + [t.nowSec] && ready.uuid == c.uuid;
      assert ready.lastSend == Pacing.Advance(interval, c.lastSend, t.nowSec);
      TransmitPace(p, cfg, ready, t);
    }
  }

  lemma ReactPaced(p: Platform, cfg: Config, c: Client, e: Event, clock: real)
    requires cfg.updateHz >= 1 && Possible(cfg, c, e)
    requires Paced(cfg, c, clock) && clock <= After(e, clock) && (c.state == ACTIVE ==> c.Placed())
    ensures Paced(cfg, React(p, cfg, c, e).client, After(e, clock))
  {
    match e
    case Answered(u) =>
    case Woken(w) => ActivatePaced(cfg, c, w, clock);
    case Received(data, rx, k) => MembersPace(cfg, c.(lastRx := rx), Bundle.Deliver(data).delivered, k);
    case Ticked(t) => SendDuePaced(p, cfg, c, t, clock);
  }
}
