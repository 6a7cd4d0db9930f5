/** What every client of every run keeps besides the protocol: it stands where its chunk and pose
    say, counts its packets in its sequence number, and runs only once its session has settled;
    and what therefore is in the bytes of every message it sends. */
module ClientRuns {
  import opened Bytes
  import opened Wire
  import opened Settings
  import opened Motion
  import opened SimClient
  import opened ClientInvariants
  import opened ClientSteps
  import opened Protocol
  import SteadyPace
  import ProtocolTheorems
  import Bundle
  import Pacing

  /** The sequence number is the number of packets since the first activation, modulo 256. */
  predicate Numbered(c: Client) {
    c.seqNo == (|c.attempts| + c.adverts) % 256 && (!c.Placed() ==> c.attempts == [] && c.adverts == 0)
  }

  /** An active client was activated no earlier than its own time and its session's. */
  predicate Timely(c: Client) {
    c.state == ACTIVE ==> c.activatedAt >= c.activateAt && c.activatedAt >= c.creds.udpReadyAt
  }

  /** A placed client stands where its chunk and pose say; a sparse one in the chunk it owns. */
  predicate Standing(cfg: Config, c: Client) {
    c.Placed() ==> Projected(cfg, c.body) && (cfg.IsSparse() ==> InOwnChunk(cfg, c.body))
  }

  predicate InGoodOrder(cfg: Config, c: Client) {
    Numbered(c) && Timely(c) && Standing(cfg, c) && (c.state == ACTIVE ==> c.Placed())
  }

  // ----- Every step keeps it -----------------------------------------------------------

  /** Nothing here has changed, and the client is not newly active. */
  predicate Undisturbed(c: Client, d: Client) {
    && d.attempts == c.attempts && d.adverts == c.adverts && d.seqNo == c.seqNo && d.uuid == c.uuid && d.body == c.body
    && d.activatedAt == c.activatedAt && d.activateAt == c.activateAt && d.creds == c.creds
    && (d.state == ACTIVE ==> c.state == ACTIVE)
  }

  lemma UndisturbedKeeps(cfg: Config, c: Client, d: Client)
    requires InGoodOrder(cfg, c) && Undisturbed(c, d)
    ensures InGoodOrder(cfg, d)
  {
    hide Projected, InOwnChunk;
  }

  lemma SuspendUndisturbed(c: Client, kind: Kind)
    ensures Undisturbed(c, Suspend(c, kind).client)
  {
  }

  lemma ClassifyUndisturbed(cfg: Config, c: Client, code: byte, now: Readings)
    ensures Undisturbed(c, Classify(cfg, c, code, now).client)
  {
  }

  lemma ErrorUndisturbed(cfg: Config, c: Client, code: byte, now: Readings)
    ensures Undisturbed(c, ErrorCode(cfg, c, code, now).client)
  {
    hide Classify, Suspend;
    var k := Classify(cfg, c, code, now).client;
    ClassifyUndisturbed(cfg, c, code, now);
    SuspendUndisturbed(k.(refreshRequested := true), REFRESH);
    SuspendUndisturbed(k.(unauthorized := 0), REASSIGN);
  }

  lemma MemberUndisturbed(cfg: Config, c: Client, m: Bytes, now: Readings)
    ensures Undisturbed(c, Member(cfg, c, m, now).client)
  {
    hide ErrorCode, Suspend;
    SuspendUndisturbed(c, REASSIGN);
    if |m| >= 3 {
      ErrorUndisturbed(cfg, c, m[2], now);
    }
  }

  lemma {:induction false} MembersUndisturbed(cfg: Config, c: Client, ms: seq<Bytes>, clock: seq<Readings>)
    ensures Undisturbed(c, Members(cfg, c, ms, clock).client)
    decreases |ms|
  {
    hide Member;
    if ms != [] {
      var rest := ms[..|ms| - 1];
      MembersUndisturbed(cfg, c, rest, clock);
      MemberUndisturbed(cfg, Members(cfg, c, rest, clock).client, ms[|ms| - 1], Reading(clock, |ms| - 1));
    }
  }

  lemma DatagramKeepsOrder(p: Platform, cfg: Config, c: Client, data: Bytes, rx: real, clock: seq<Readings>)
    requires InGoodOrder(cfg, c)
    ensures InGoodOrder(cfg, Datagram(p, cfg, c, data, rx, clock).client)
  {
    hide InGoodOrder, Members;
    MembersUndisturbed(cfg, c.(lastRx := rx), Bundle.Deliver(data).delivered, clock);
    UndisturbedKeeps(cfg, c, Datagram(p, cfg, c, data, rx, clock).client);
  }

  lemma AnswerKeepsOrder(cfg: Config, c: Client, u: Update)
    requires InGoodOrder(cfg, c)
    ensures InGoodOrder(cfg, Apply(cfg, c, u).client)
  {
    hide Template, Projected, InOwnChunk;
  }

  lemma PlacedStands(cfg: Config, index: int, s: Spawn, now: real, b: Body)
    requires ValidSpawn(cfg, s)
    ensures Projected(cfg, Place(cfg, index, s, now, b)) && (cfg.IsSparse() ==> InOwnChunk(cfg, Place(cfg, index, s, now, b)))
  {
    hide Projected, InOwnChunk, Project;
    if cfg.IsCube() {
      ProjectProjects(cfg, b.(dir := s.dir, reaimAt := now + s.reaimDelay, world := CubePosition(cfg, index, s), lastMove := now));
    } else {
      PlacedOnGround(cfg, index, s, now, b);
    }
  }

  lemma ResumedStands(cfg: Config, b: Body, now: real)
    ensures Projected(cfg, b.(lastMove := now)) == Projected(cfg, b) && InOwnChunk(cfg, b.(lastMove := now)) == InOwnChunk(cfg, b)
  {
  }

  lemma WakeKeepsOrder(cfg: Config, c: Client, w: Wake)
    requires cfg.updateHz >= 1 && InGoodOrder(cfg, c) && ValidWake(cfg, w)
    ensures InGoodOrder(cfg, Activate(cfg, c, w).client)
  {
    hide Template, Projected, InOwnChunk, Place, Pacing.Interval;
    PlacedStands(cfg, c.creds.index, w.spawn, w.nowSec, c.body);
    ResumedStands(cfg, c.body, w.nowSec);
  }

  lemma WalkStands(p: Platform, cfg: Config, b: Body, now: real, aim: Aim)
    requires Projected(cfg, b) && (cfg.IsSparse() ==> InOwnChunk(cfg, b))
    ensures Projected(cfg, UpdateWalk(p, cfg, b, now, aim)) && (cfg.IsSparse() ==> InOwnChunk(cfg, UpdateWalk(p, cfg, b, now, aim)))
  {
    hide Projected, InOwnChunk, Project, Move;
    if now > b.lastMove {
      ProjectProjects(cfg, Move(p, cfg, b.(lastMove := now), Reach(cfg, b, now), now, aim));
    } else {
      ResumedStands(cfg, b, now);
    }
    if cfg.IsSparse() {
      SparseStaysHome(p, cfg, b, now, aim);
    }
  }

  /** What a tick leaves of the client's place. */
  lemma TickWalks(p: Platform, cfg: Config, c: Client, t: Tick)
    requires cfg.updateHz >= 1 && c.state == ACTIVE
    ensures var d := SendDue(p, cfg, c, t).client;
            && d.body == (if d.attempts == c.attempts then c.body else UpdateWalk(p, cfg, c.body, t.nowSec, t.aim))
            && d.uuid == c.uuid && d.activatedAt == c.activatedAt && d.activateAt == c.activateAt && d.creds == c.creds
  {
    hide Transmit, Pacing.Interval, PassGate, Advertise;
    ReadyStands(cfg, c, t);
    TransmitWalks(p, cfg, AtSend(cfg, c, t), t);
    TransmitOutcome(p, cfg, AtSend(cfg, c, t), t);
  }

  lemma ReadyStands(cfg: Config, c: Client, t: Tick)
    requires cfg.updateHz >= 1
    ensures var d := AtSend(cfg, c, t);
            && d.body == c.body && d.uuid == c.uuid && d.activatedAt == c.activatedAt && d.activateAt == c.activateAt
            && d.creds == c.creds && d.state == c.state && d.attempts == c.attempts + [t.nowSec]
  {
    hide Pacing.Interval;
  }

  lemma TransmitWalks(p: Platform, cfg: Config, c: Client, t: Tick)
    ensures var d := Transmit(p, cfg, c, t).client;
            && d.body == UpdateWalk(p, cfg, c.body, t.nowSec, t.aim) && d.uuid == c.uuid
            && d.activatedAt == c.activatedAt && d.activateAt == c.activateAt && d.creds == c.creds
  {
    hide UpdateWalk, Built;
  }

  lemma Wraps(a: nat, k: nat)
    ensures (a % 256 + k) % 256 == (a + k) % 256
  {
  }

  lemma TickKeepsNumber(p: Platform, cfg: Config, c: Client, t: Tick)
    requires cfg.updateHz >= 1 && c.state == ACTIVE && Numbered(c) && c.Placed()
    ensures Numbered(SendDue(p, cfg, c, t).client) && SendDue(p, cfg, c, t).client.Placed()
  {
    hide SendDue;
    TickNumbers(p, cfg, c, t);
    TickWalks(p, cfg, c, t);
    Wraps(|c.attempts| + c.adverts, 1);
    Wraps(|c.attempts| + c.adverts, 2);
  }

  lemma TickKeepsPlace(p: Platform, cfg: Config, c: Client, t: Tick)
    requires cfg.updateHz >= 1 && c.state == ACTIVE && Timely(c) && Standing(cfg, c) && c.Placed()
    ensures Timely(SendDue(p, cfg, c, t).client) && Standing(cfg, SendDue(p, cfg, c, t).client)
  {
    hide SendDue, UpdateWalk, Projected, InOwnChunk;
    TickWalks(p, cfg, c, t);
    WalkStands(p, cfg, c.body, t.nowSec, t.aim);
  }

  lemma TickKeepsOrder(p: Platform, cfg: Config, c: Client, t: Tick)
    requires cfg.updateHz >= 1 && InGoodOrder(cfg, c)
    ensures InGoodOrder(cfg, SendDue(p, cfg, c, t).client)
  {
    if c.state == ACTIVE {
      hide SendDue, Numbered, Timely, Standing;
      TickKeepsNumber(p, cfg, c, t);
      TickKeepsPlace(p, cfg, c, t);
    }
  }

  lemma ReactKeepsOrder(p: Platform, cfg: Config, c: Client, e: Event)
    requires cfg.updateHz >= 1 && InGoodOrder(cfg, c) && Possible(cfg, c, e)
    ensures InGoodOrder(cfg, React(p, cfg, c, e).client)
  {
    hide InGoodOrder, SendDue, Datagram, Activate, Apply, ValidWake;
    match e
    case Answered(u) => AnswerKeepsOrder(cfg, c, u);
    case Woken(w) => WakeKeepsOrder(cfg, c, w);
    case Received(data, rx, clock) => DatagramKeepsOrder(p, cfg, c, data, rx, clock);
    case Ticked(t) => TickKeepsOrder(p, cfg, c, t);
  }

  // ----- Over every run ----------------------------------------------------------------

  ghost predicate AllInGoodOrder(cfg: Config, s: System) {
    forall w, i :: 0 <= w < |s.shards| && 0 <= i < |s.shards[w].clients| ==> InGoodOrder(cfg, s.shards[w].clients[i])
  }

  lemma NewcomerInGoodOrder(cfg: Config, creds: Creds, at: int)
    ensures InGoodOrder(cfg, NewClient(creds, at))
  {
  }

  /** A slot that is new after a step holds a new client. */
  lemma NewSlots(p: Platform, cfg: Config, s: System, l: Label, w: nat, i: nat)
    requires cfg.updateHz >= 1 && Enabled(cfg, s, l)
    requires var t := Next(p, cfg, s, l); w < |t.shards| && i < |t.shards[w].clients|
    ensures w < |s.shards|
    ensures i >= |s.shards[w].clients| ==>
              exists creds, at :: Next(p, cfg, s, l).shards[w].clients[i] == NewClient(creds, at)
  {
    hide React, Possible;
  }

  lemma NextInGoodOrder(p: Platform, cfg: Config, s: System, l: Label)
    requires cfg.updateHz >= 1 && AllInGoodOrder(cfg, s) && Enabled(cfg, s, l)
    ensures AllInGoodOrder(cfg, Next(p, cfg, s, l))
  {
    hide InGoodOrder, React, Next;
    var t := Next(p, cfg, s, l);
    forall w, i | 0 <= w < |t.shards| && 0 <= i < |t.shards[w].clients|
      ensures InGoodOrder(cfg, t.shards[w].clients[i])
    {
      NewSlots(p, cfg, s, l, w, i);
      if i < |s.shards[w].clients| {
        SteadyPace.NextIsReact(p, cfg, s, l, w, i);
        if l.Step? && l.w == w && l.slot == i {
          ReactKeepsOrder(p, cfg, s.shards[w].clients[i], l.event);
        }
      } else {
        var creds, at :| t.shards[w].clients[i] == NewClient(creds, at);
        NewcomerInGoodOrder(cfg, creds, at);
      }
    }
  }

  lemma {:induction false} RunInGoodOrder(p: Platform, cfg: Config, s: System, run: seq<Label>)
    requires cfg.updateHz >= 1 && Initial(cfg, s) && Exec(p, cfg, s, run).Some?
    ensures AllInGoodOrder(cfg, Exec(p, cfg, s, run).value)
    decreases |run|
  {
    hide InGoodOrder, Next, Enabled;
    if run != [] {
      RunInGoodOrder(p, cfg, s, run[..|run| - 1]);
      NextInGoodOrder(p, cfg, Exec(p, cfg, s, run[..|run| - 1]).value, run[|run| - 1]);
    }
  }

  /** After any run, no client is active that was activated before its own time or before its
      session had settled, and every placed client stands in the chunk it reports. */
  lemma ActiveOnlyWhenReady(p: Platform, cfg: Config, s: System, run: seq<Label>, w: nat, i: nat)
    requires cfg.updateHz >= 1 && Initial(cfg, s) && Exec(p, cfg, s, run).Some?
    requires var t := Exec(p, cfg, s, run).value; w < |t.shards| && i < |t.shards[w].clients|
    ensures var c := Exec(p, cfg, s, run).value.shards[w].clients[i];
            && (c.state == ACTIVE ==> c.activatedAt >= c.activateAt && c.activatedAt >= c.creds.udpReadyAt)
            && (c.Placed() ==> Projected(cfg, c.body) && (cfg.IsSparse() ==> InOwnChunk(cfg, c.body)))
  {
    hide Projected, InOwnChunk, Exec;
    RunInGoodOrder(p, cfg, s, run);
    assert InGoodOrder(cfg, Exec(p, cfg, s, run).value.shards[w].clients[i]);
  }

  // ----- The bytes of a message --------------------------------------------------------

  /** The bytes of a UE5 update sent from a body: its chunk, its place inside the chunk, the
      height rule, the heading as roll, and the velocity. */
  predicate TellsUE5(p: Platform, cfg: Config, m: Bytes, b: Body) {
    var size, w := cfg.ChunkSize(), b.world;
    var x, y, z := (w.x / size).Floor, (w.y / size).Floor, (w.z / size).Floor;
    && |m| == 197 && m[9..17] == I64(x) && m[17..25] == I64(y) && m[25..33] == I64(z)
    && m[76..84] == p.f64(Past(w.x, x, size)) && m[84..92] == p.f64(Past(w.y, y, size))
    && m[92..100] == p.f64(if cfg.volumeChunks > 0 then Past(w.z, z, size) else -60.0)
    && m[100..108] == p.f64(0.0) && m[108..116] == p.f64(0.0) && m[116..124] == p.f64(b.yawDeg)
    && m[124..132] == p.f64(b.vel.x) && m[132..140] == p.f64(b.vel.y) && m[140..148] == p.f64(b.vel.z)
  }

  /** The bytes of a BWF update: its chunk, the world position, the yaw of the direction, the
      velocity, no flags, and the time. */
  predicate TellsBWF(p: Platform, cfg: Config, m: Bytes, b: Body, epochMs: real) {
    var size, w := cfg.ChunkSize(), b.world;
    && |m| == 157 && m[9..17] == I64((w.x / size).Floor) && m[17..25] == I64((w.y / size).Floor) && m[25..33] == I64((w.z / size).Floor)
    && m[68..72] == p.f32(w.x) && m[72..76] == p.f32(w.y) && m[76..80] == p.f32(w.z)
    && m[80..84] == p.f32(p.atan2(b.dir.x, b.dir.z)) && m[84..88] == p.f32(0.0)
    && m[88..92] == p.f32(b.vel.x) && m[92..96] == p.f32(b.vel.y) && m[96..100] == p.f32(b.vel.z)
    && m[100] == 0 && m[101] == 0 && m[104..112] == p.f64(epochMs)
  }

  predicate Tells(p: Platform, cfg: Config, m: Bytes, b: Body, epochMs: real) {
    if cfg.fmt == UE5 then TellsUE5(p, cfg, m, b) else TellsBWF(p, cfg, m, b, epochMs)
  }

  lemma EncodingTells(p: Platform, cfg: Config, s: Session, b: Body, epochMs: real, seqNo: byte, tag: Tag)
    requires s.fmt == cfg.fmt && Projected(cfg, b)
    ensures Tells(p, cfg, Encode(p, s, b.chunk, PoseOf(p, cfg, b, epochMs), seqNo, tag), b, epochMs)
  {
    hide Encode, Past;
    EncodingHoldsPose(p, s, b.chunk, PoseOf(p, cfg, b, epochMs), seqNo, tag);
  }

  lemma EncodingEnds(p: Platform, s: Session, c: Chunk, q: Pose, seqNo: byte, tag: Tag)
    ensures var m := Encode(p, s, c, q, seqNo, tag); m[|m| - 1] == seqNo
  {
  }

  /** The direction a tick walked in: in the 2D walk the one before it turned. */
  function Walked(cfg: Config, before: Body, after: Body): Vec {
    if cfg.IsSparse() || cfg.volumeChunks > 0 then after.dir else before.dir
  }

  lemma WalkHeads(p: Platform, cfg: Config, b: Body, now: real, aim: Aim)
    requires now > b.lastMove
    ensures var n := UpdateWalk(p, cfg, b, now, aim); Heads(p, cfg, n, Walked(cfg, b, n))
  {
    hide UpdateWalk, Heads, Reflects, Straight, CubeLow, CubeHigh, Projected, Edge;
    if cfg.IsSparse() {
      SparseLaw(p, cfg, b, now, aim);
    } else if cfg.volumeChunks > 0 {
      CubeLaw(p, cfg, b, now, aim);
    } else {
      PlaneLaw(p, cfg, b, now, aim);
    }
  }

  /** What every message of every run says.  Its bytes tell the place where the client stands
      after the tick, projected to chunk and pose, and its heading and velocity, which are those
      it just walked with if any time had passed; its last byte counts the client's packets. */
  lemma EverySendTellsThePlace(p: Platform, cfg: Config, s: System, run: seq<Label>, w: nat, i: nat, t: Tick, m: Bytes)
    requires cfg.updateHz >= 1 && Initial(cfg, s) && Exec(p, cfg, s, run).Some?
    requires var u := Exec(p, cfg, s, run).value; w < |u.shards| && i < |u.shards[w].clients|
    requires m in SendDue(p, cfg, Exec(p, cfg, s, run).value.shards[w].clients[i], t).sent
    ensures var c := Exec(p, cfg, s, run).value.shards[w].clients[i];
            var d := SendDue(p, cfg, c, t).client;
            && m != [] && Tells(p, cfg, m, d.body, t.epochMs)
            && (t.nowSec > c.body.lastMove ==> Heads(p, cfg, d.body, Walked(cfg, c.body, d.body)))
            && m[|m| - 1] == (|c.attempts| + d.adverts) % 256 && |d.attempts| == |c.attempts| + 1
  {
    hide SendDue, Tells, Heads, InGoodOrder, Exec, IsEncoding, AtSend;
    var c := Exec(p, cfg, s, run).value.shards[w].clients[i];
    ProtocolTheorems.EverySendIsTheEncoding(p, cfg, s, run, w, i, t, m);
    RunInGoodOrder(p, cfg, s, run);
    assert InGoodOrder(cfg, c);
    SendTells(p, cfg, c, t, m);
  }

  lemma SentWhileActive(p: Platform, cfg: Config, c: Client, t: Tick)
    requires cfg.updateHz >= 1 && SendDue(p, cfg, c, t).sent != []
    ensures c.state == ACTIVE
  {
    hide Transmit;
  }

  lemma SendTells(p: Platform, cfg: Config, c: Client, t: Tick, m: Bytes)
    requires cfg.updateHz >= 1 && InGoodOrder(cfg, c) && m in SendDue(p, cfg, c, t).sent
    requires IsEncoding(p, cfg, AtSend(cfg, c, t), SendDue(p, cfg, c, t).client, t.epochMs, m)
    ensures var d := SendDue(p, cfg, c, t).client;
            && m != [] && Tells(p, cfg, m, d.body, t.epochMs)
            && (t.nowSec > c.body.lastMove ==> Heads(p, cfg, d.body, Walked(cfg, c.body, d.body)))
            && m[|m| - 1] == (|c.attempts| + d.adverts) % 256 && |d.attempts| == |c.attempts| + 1
  {
    hide SendDue, UpdateWalk, Tells, Heads, Projected, AtSend, Encode, InOwnChunk, Sign, PoseOf, Prefix;
    SentWhileActive(p, cfg, c, t);
    var d, ready := SendDue(p, cfg, c, t).client, AtSend(cfg, c, t);
    TickNumbers(p, cfg, c, t);
    TickWalks(p, cfg, c, t);
    TickKeepsOrder(p, cfg, c, t);
    ReadyNumber(cfg, c, t);
    if t.nowSec > c.body.lastMove {
      WalkHeads(p, cfg, c.body, t.nowSec, t.aim);
    }
    var ses, q := SessionOf(cfg, ready), PoseOf(p, cfg, d.body, t.epochMs);
    var tag := Sign(p, Prefix(p, ses, d.body.chunk, q), ready.creds.appToken).value;
    EncodingTells(p, cfg, ses, d.body, t.epochMs, ready.seqNo, tag);
    EncodingEnds(p, ses, d.body.chunk, q, ready.seqNo, tag);
  }

  lemma ReadyNumber(cfg: Config, c: Client, t: Tick)
    requires cfg.updateHz >= 1 && Numbered(c)
    ensures var due := cfg.clientCaps && t.nowSec - c.lastCaps >= cfg.capsIntervalSec as real;
            AtSend(cfg, c, t).seqNo == (|c.attempts| + c.adverts + if due then 1 else 0) % 256
  {
    hide Pacing.Interval;
  }

  /** Two sends of one client with no attempt between them: their sequence numbers are
      consecutive modulo 256, but for capabilities that went out in between. */
  lemma ConsecutiveNumbers(p: Platform, cfg: Config, s: System, run: seq<Label>, more: seq<Label>, w: nat, i: nat,
                           t: Tick, m: Bytes, u: Tick, n: Bytes)
    requires cfg.updateHz >= 1 && Initial(cfg, s) && Exec(p, cfg, s, run).Some? && Exec(p, cfg, s, run + more).Some?
    requires var a, b := Exec(p, cfg, s, run).value, Exec(p, cfg, s, run + more).value;
             && w < |a.shards| && i < |a.shards[w].clients| && w < |b.shards| && i < |b.shards[w].clients|
             && m in SendDue(p, cfg, a.shards[w].clients[i], t).sent && n in SendDue(p, cfg, b.shards[w].clients[i], u).sent
             && |b.shards[w].clients[i].attempts| == |a.shards[w].clients[i].attempts| + 1
             && SendDue(p, cfg, a.shards[w].clients[i], t).client.adverts <= SendDue(p, cfg, b.shards[w].clients[i], u).client.adverts
    ensures var c, d := SendDue(p, cfg, Exec(p, cfg, s, run).value.shards[w].clients[i], t).client,
                        SendDue(p, cfg, Exec(p, cfg, s, run + more).value.shards[w].clients[i], u).client;
            m != [] && n != [] && n[|n| - 1] == (m[|m| - 1] + 1 + (d.adverts - c.adverts)) % 256
  {
    hide SendDue, Exec, Tells, Heads;
    EverySendTellsThePlace(p, cfg, s, run, w, i, t, m);
    EverySendTellsThePlace(p, cfg, s, run + more, w, i, u, n);
  }
}
