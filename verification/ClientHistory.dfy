/** Whole histories of one client, from its creation: when a refusal can be filed as a window
    reload, and what a failed refresh leaves behind. */
module ClientHistory {
  import opened Bytes
  import opened Wire
  import opened Settings
  import opened Motion
  import opened SimClient
  import opened ClientInvariants
  import Bundle
  import Pacing
  import CubeSlots

  /** The events in order, latest last. */
  function Live(p: Platform, cfg: Config, c: Client, es: seq<Event>): Outcome
    requires cfg.updateHz >= 1
    decreases |es|
  {
    if es == [] then Quiet(c)
    else
      var before := Live(p, cfg, c, es[..|es| - 1]);
      Join(before, React(p, cfg, before.client, es[|es| - 1]))
  }

  // ----- One clock ---------------------------------------------------------------------

  /** Seconds since the steady clock's epoch, of a reading in its ticks. */
  function Seconds(ticks: int): real {
    ticks as real / 1000000000.0
  }

  /** The members of a datagram that arrived at `rx` read the clock in order. */
  ghost predicate MembersInOrder(rx: real, clock: seq<Readings>, n: nat) {
    && (forall k :: 0 <= k < n ==> rx <= Seconds(Reading(clock, k).first) <= Seconds(Reading(clock, k).second))
    && (forall j, k :: 0 <= j < k < n ==> Seconds(Reading(clock, j).second) <= Seconds(Reading(clock, k).first))
  }

  /** Everything the event reads comes from one clock that had reached `now` before. */
  ghost predicate InOrder(e: Event, now: real) {
    match e
    case Answered(_) => true
    case Woken(w) => now <= Seconds(w.now) <= w.nowSec
    case Received(data, rx, clock) => now <= rx && MembersInOrder(rx, clock, |Bundle.Deliver(data).delivered|)
    case Ticked(t) => now <= t.nowSec
  }

  /** The latest reading once the event is over. */
  function Latest(e: Event, now: real): real {
    match e
    case Answered(_) => now
    case Woken(w) => w.nowSec
    case Received(data, rx, clock) =>
      var n := |Bundle.Deliver(data).delivered|;
      if n == 0 then rx else Seconds(Reading(clock, n - 1).second)
    case Ticked(t) => t.nowSec
  }

  function Clock(es: seq<Event>): real {
    if es == [] then 0.0 else Latest(es[|es| - 1], Clock(es[..|es| - 1]))
  }

  /** A history the program can have: every step possible, every reading from one clock that
      never runs backwards. */
  ghost predicate Plausible(p: Platform, cfg: Config, c: Client, es: seq<Event>)
    requires cfg.updateHz >= 1
    decreases |es|
  {
    es != [] ==>
      && Plausible(p, cfg, c, es[..|es| - 1])
      && Possible(cfg, Live(p, cfg, c, es[..|es| - 1]).client, es[|es| - 1])
      && InOrder(es[|es| - 1], Clock(es[..|es| - 1]))
  }

  lemma LiveOneMore(p: Platform, cfg: Config, c: Client, es: seq<Event>, e: Event)
    requires cfg.updateHz >= 1 && Plausible(p, cfg, c, es)
    requires Possible(cfg, Live(p, cfg, c, es).client, e) && InOrder(e, Clock(es))
    ensures Plausible(p, cfg, c, es + [e]) && Clock(es + [e]) == Latest(e, Clock(es))
    ensures Live(p, cfg, c, es + [e]) == Join(Live(p, cfg, c, es), React(p, cfg, Live(p, cfg, c, es).client, e))
  {
    assert (es + [e])[..|es|] == es;
  }

  // ----- A first activation ------------------------------------------------------------

  const CROSSING := Spawn(0.5, 0.5, 0.5, 0, 0, Vec(1.0, 0.0, 0.0), 12.0)
  const AHEAD := Aim(Vec(1.0, 0.0, 0.0), 12.0)
  const FIRST: Creds := Creds(0, "", Zeros(64), 0, "", 0, "", 0, 0)

  function Marked(): Uuid {
    seq(32, _ => 65)
  }

  /** A first activation that leaves the client due at once. */
  function PromptWake(now: int, nowSec: real): Wake {
    Wake(now, nowSec, CROSSING, Marked(), 0.0, true)
  }

  lemma PromptlyDue(cfg: Config, now: nat, nowSec: real)
    requires cfg.updateHz >= 1
    ensures ValidWake(cfg, PromptWake(now, nowSec))
    ensures var c := Activate(cfg, NewClient(FIRST, 0), PromptWake(now, nowSec)).client;
            && c.state == ACTIVE && !c.refreshRequested && c.creds == FIRST && c.lastRx == nowSec
            && c.lastSend == nowSec - Pacing.Interval(cfg.updateHz) && c.attempts == []
    ensures Activate(cfg, NewClient(FIRST, 0), PromptWake(now, nowSec)).asks == []
  {
    hide Place, Template;
  }

  // ----- Window reloads ----------------------------------------------------------------

  lemma {:induction false} NoReload(p: Platform, cfg: Config, creds: Creds, at: int, es: seq<Event>)
    requires cfg.updateHz >= 1 && cfg.IsCube() && cfg.volumeChunks <= cfg.permWindowRadiusChunks
    requires Plausible(p, cfg, NewClient(creds, at), es)
    ensures var o := Live(p, cfg, NewClient(creds, at), es);
            Boxed(cfg, o.client) && Loaded(cfg, o.client) && o.tally.windowReload == 0
    decreases |es|
  {
    if es != [] {
      var rest := es[..|es| - 1];
      NoReload(p, cfg, creds, at, rest);
      var c := Live(p, cfg, NewClient(creds, at), rest).client;
      ReactBoxed(p, cfg, c, es[|es| - 1]);
      ReactLoaded(p, cfg, c, es[|es| - 1]);
    }
  }


  /** How long the first client needs to drift from its cell to exactly the far face. */
  function CrossingTime(cfg: Config): real {
    (cfg.volumeChunks as real - 0.5) * cfg.ChunkSize() / cfg.WalkSpeed()
  }

  /** A first-send offset that leaves the client not due at once, but due by then. */
  function Offset(cfg: Config): real {
    var share := CrossingTime(cfg) * cfg.updateHz as real;
    if share < 0.5 then share else 0.5
  }

  /** The client wakes one second after the clock's epoch. */
  function Setoff(cfg: Config): Wake {
    Wake(SECOND_TICKS, 1.0, CROSSING, Marked(), Offset(cfg), true)
  }

  lemma CrossingReach(n: nat, lo: int, size: real, speed: real)
    requires n >= 1 && size > 0.0 && speed > 0.0
    ensures var t := (n as real - 0.5) * size / speed;
            && t > 0.0 && t * speed == (n as real - 0.5) * size
            && Spot(lo, 0.5, size) + 1.0 * (t * speed) == Edge(lo, size) + Edge(n, size)
  {
    var d := (n as real - 0.5) * size;
    assert d > 0.0;
    var t := d / speed;
    assert t * speed == d;
    assert Spot(lo, 0.5, size) == lo as real * size + 0.5 * size;
    assert d == n as real * size - 0.5 * size;
  }

  lemma OffsetFits(cfg: Config)
    requires cfg.updateHz >= 1 && cfg.IsCube()
    ensures 0.0 < Offset(cfg) < 1.0 && CrossingTime(cfg) > 0.0
    ensures 0.0 < Offset(cfg) * Pacing.Interval(cfg.updateHz) <= CrossingTime(cfg)
  {
    CrossingReach(cfg.volumeChunks, CubeMin(cfg), cfg.ChunkSize(), cfg.WalkSpeed());
    ShareFits(CrossingTime(cfg), cfg.updateHz as real, Pacing.Interval(cfg.updateHz));
  }

  lemma ShareFits(t: real, h: real, i: real)
    requires t > 0.0 && h > 0.0 && i > 0.0 && i * h == 1.0
    ensures var share := t * h;
            share > 0.0 && share * i == t && (share >= 0.5 ==> 0.0 < 0.5 * i <= t)
  {
    assert t * h * i == t * (i * h);
    assert t * h >= 0.5 ==> t * h * i >= 0.5 * i;
  }

  /** Client 0 wakes in the lowest cell of the cube. */
  lemma WokenInCorner(cfg: Config)
    requires cfg.updateHz >= 1 && cfg.IsCube()
    ensures ValidWake(cfg, Setoff(cfg))
    ensures var c := Activate(cfg, NewClient(FIRST, 0), Setoff(cfg)).client;
            && c.state == ACTIVE && c.activatedAt == SECOND_TICKS && c.perm == Perm(c.body.chunk, true, 0)
            && c.body.world.x == Spot(CubeMin(cfg), 0.5, cfg.ChunkSize()) && c.body.chunk.x == CubeMin(cfg)
            && c.body.dir == Vec(1.0, 0.0, 0.0) && c.body.lastMove == 1.0 && c.lastRx == 1.0
            && c.lastSend == 1.0 - Pacing.Interval(cfg.updateHz) + Offset(cfg) * Pacing.Interval(cfg.updateHz)
  {
    hide Offset, CrossingTime;
    OffsetFits(cfg);
    var newborn := NewClient(FIRST, 0);
    CubeSlots.FirstClientsSpread(cfg.volumeChunks, 0);
    PlacedInOwnChunk(cfg, 0, CROSSING, 1.0, newborn.body);
    var placed := Place(cfg, 0, CROSSING, 1.0, newborn.body);
    assert placed.world == CubePosition(cfg, 0, CROSSING);
  }

  lemma EdgeFloor(k: int, size: real)
    requires size > 0.0
    ensures FloorDiv(Edge(k, size), size) == k
  {
    assert Edge(k, size) / size == k as real;
  }

  lemma CubeStepX(p: Platform, cfg: Config, b: Body, now: real, aim: Aim)
    requires cfg.IsCube() && now > b.lastMove
    ensures UpdateWalk(p, cfg, b, now, aim).chunk.x
         == FloorDiv(Bounce(Along(b.world.x, b.dir.x, Reach(cfg, b, now)), b.dir.x, CubeLow(cfg).x, CubeHigh(cfg).x).v, cfg.ChunkSize())
  {
    hide Bounce, Along, FloorDiv, CubeLow, CubeHigh, Reach, Velocity, Heading;
  }

  lemma CrossingArrives(cfg: Config, b: Body)
    requires cfg.IsCube() && b.lastMove == 1.0 && b.dir.x == 1.0
    requires b.world.x == Spot(CubeMin(cfg), 0.5, cfg.ChunkSize())
    ensures CrossingTime(cfg) > 0.0
    ensures Along(b.world.x, b.dir.x, Reach(cfg, b, 1.0 + CrossingTime(cfg)))
         == Edge(CubeMin(cfg), cfg.ChunkSize()) + Edge(cfg.volumeChunks, cfg.ChunkSize())
  {
    hide Edge, Spot;
    CrossingReach(cfg.volumeChunks, CubeMin(cfg), cfg.ChunkSize(), cfg.WalkSpeed());
    assert 1.0 + CrossingTime(cfg) - b.lastMove == CrossingTime(cfg);
  }

  lemma WalkToFace(p: Platform, cfg: Config, b: Body, aim: Aim)
    requires cfg.IsCube() && b.lastMove == 1.0 && b.dir.x == 1.0
    requires b.world.x == Spot(CubeMin(cfg), 0.5, cfg.ChunkSize())
    ensures UpdateWalk(p, cfg, b, 1.0 + CrossingTime(cfg), aim).chunk.x == CubeMin(cfg) + cfg.volumeChunks
  {
    hide UpdateWalk, Along, Edge, Spot, Bounce, FloorDiv, Reach, CrossingTime;
    var size, lo, n := cfg.ChunkSize(), CubeMin(cfg), cfg.volumeChunks;
    CrossingArrives(cfg, b);
    CubeStepX(p, cfg, b, 1.0 + CrossingTime(cfg), aim);
    CubeBoxNonEmpty(cfg);
    BounceConfines(CubeHigh(cfg).x, 1.0, CubeLow(cfg).x, CubeHigh(cfg).x);
    EdgeSum(lo, n, size);
    EdgeFloor(lo + n, size);
  }

  /** The tick of the loop turn that activated the client, and the one that finds it across. */
  const AT_ONCE := Tick(1.0, 0, 0.0, AHEAD, true)

  function Crossing(cfg: Config): Tick {
    Tick(1.0 + CrossingTime(cfg), 0, 0.0, AHEAD, true)
  }

  lemma NotDueAtOnce(p: Platform, cfg: Config, c: Client)
    requires cfg.updateHz >= 1 && cfg.IsCube() && c.lastRx == 1.0
    requires c.lastSend == 1.0 - Pacing.Interval(cfg.updateHz) + Offset(cfg) * Pacing.Interval(cfg.updateHz)
    ensures SendDue(p, cfg, c, AT_ONCE) == Quiet(c)
  {
    hide Offset, CrossingTime, PassGate, Advertise, Transmit, Join, Pacing.Interval;
    OffsetFits(cfg);
    assert !Pacing.Due(Pacing.Interval(cfg.updateHz), c.lastSend, AT_ONCE.nowSec);
  }

  lemma TickToFace(p: Platform, cfg: Config, c: Client)
    requires cfg.updateHz >= 1 && cfg.IsCube() && c.state == ACTIVE
    requires c.body.lastMove == 1.0 && c.body.dir.x == 1.0
    requires c.body.world.x == Spot(CubeMin(cfg), 0.5, cfg.ChunkSize())
    requires c.lastSend == 1.0 - Pacing.Interval(cfg.updateHz) + Offset(cfg) * Pacing.Interval(cfg.updateHz)
    requires c.lastRx == 1.0 + CrossingTime(cfg)
    ensures var d := SendDue(p, cfg, c, Crossing(cfg)).client;
            && d.state == ACTIVE && d.perm == c.perm && d.activatedAt == c.activatedAt
            && d.body.chunk.x == CubeMin(cfg) + cfg.volumeChunks
  {
    hide Offset, CrossingTime, Transmit;
    OffsetFits(cfg);
    var t := Crossing(cfg);
    assert Pacing.Due(Pacing.Interval(cfg.updateHz), c.lastSend, t.nowSec);
    var ready := AtSend(cfg, c, t);
    assert ready.body == c.body && ready.perm == c.perm && ready.state == ACTIVE && ready.activatedAt == c.activatedAt;
    WalkToFace(p, cfg, ready.body, t.aim);
    TransmitKeeps(p, cfg, ready, t);
  }

  lemma TransmitKeeps(p: Platform, cfg: Config, c: Client, t: Tick)
    requires t.delivered
    ensures var d := Transmit(p, cfg, c, t).client;
            && d.state == c.state && d.perm == c.perm && d.activatedAt == c.activatedAt
            && d.body == UpdateWalk(p, cfg, c.body, t.nowSec, t.aim)
  {
  }

  lemma ClassifiedOutside(cfg: Config, c: Client, now: Readings)
    requires now.first - c.activatedAt >= FIRST_CONTACT_GRACE_MS * MS && c.perm.valid && c.perm.reloadAt == 0
    requires OutsideBox(cfg, c.body.chunk, c.perm.center)
    ensures Classify(cfg, c, 7, now).tally == Tally(1, 0, 1)
  {
  }

  lemma MembersOfOne(cfg: Config, c: Client, m: Bytes, clock: seq<Readings>)
    ensures Members(cfg, c, [m], clock).tally == Member(cfg, c, m, Reading(clock, 0)).tally
  {
    var ms := [m];
    assert ms[..0] == [];
    assert Members(cfg, c, ms[..0], clock) == Quiet(c);
  }

  /** A datagram that is no bundle is its own only message. */
  lemma PlainDatagram(p: Platform, cfg: Config, c: Client, m: Bytes, rx: real, clock: seq<Readings>)
    requires m != [] && m[0] != Bundle.MESSAGE_BUNDLE && m[0] != Bundle.MESSAGE_BUNDLE_SIGNED
    ensures Datagram(p, cfg, c, m, rx, clock).tally == Member(cfg, c.(lastRx := rx), m, Reading(clock, 0)).tally
  {
    MembersOfOne(cfg, c.(lastRx := rx), m, clock);
  }

  lemma RefusalTally(cfg: Config, c: Client, m: Bytes, now: Readings)
    requires |m| >= 3 && m[0] == GENERIC_ERROR_MESSAGE && m[2] == ERR_UNAUTHORIZED
    ensures Member(cfg, c, m, now).tally == Classify(cfg, c, ERR_UNAUTHORIZED, now).tally
  {
  }

  lemma RefusedOutside(p: Platform, cfg: Config, c: Client, m: Bytes, rx: real, clock: seq<Readings>)
    requires |m| >= 3 && m[0] == GENERIC_ERROR_MESSAGE && m[2] == ERR_UNAUTHORIZED
    requires Reading(clock, 0).first - c.activatedAt >= FIRST_CONTACT_GRACE_MS * MS && c.perm.valid && c.perm.reloadAt == 0
    requires OutsideBox(cfg, c.body.chunk, c.perm.center)
    ensures Datagram(p, cfg, c, m, rx, clock).tally.windowReload == 1
  {
    hide Datagram, Member, Classify, OutsideBox;
    var heard := c.(lastRx := rx);
    PlainDatagram(p, cfg, c, m, rx, clock);
    RefusalTally(cfg, heard, m, Reading(clock, 0));
    ClassifiedOutside(cfg, heard, Reading(clock, 0));
  }

  /** A reading past the crossing and the grace window. */
  function Late(cfg: Config): int {
    SECOND_TICKS + FIRST_CONTACT_GRACE_MS * MS + (CrossingTime(cfg) * 1000000000.0).Floor + 1
  }

  lemma LateIsLater(cfg: Config)
    ensures 1.0 + CrossingTime(cfg) <= Seconds(Late(cfg))
  {
    hide CrossingTime;
  }

  function Standing(t: int): seq<Readings> {
    [Readings(t, t)]
  }

  /** Wake in one corner, drift to the far face, and be refused there. */
  function Journey(cfg: Config, refusal: Bytes): seq<Event> {
    [Woken(Setoff(cfg)), Ticked(AT_ONCE), Received([], 1.0 + CrossingTime(cfg), Standing(Late(cfg))),
     Ticked(Crossing(cfg)), Received(refusal, Seconds(Late(cfg)), Standing(Late(cfg)))]
  }

  lemma HearNothing(p: Platform, cfg: Config, c: Client, rx: real, clock: seq<Readings>)
    ensures Datagram(p, cfg, c, [], rx, clock) == Quiet(c.(lastRx := rx))
  {
  }

  /** One event more, the requests and counters of the earlier ones aside. */
  lemma Onward(p: Platform, cfg: Config, c: Client, es: seq<Event>, e: Event, before: Client)
    requires cfg.updateHz >= 1 && Plausible(p, cfg, c, es) && Live(p, cfg, c, es).client == before
    requires Possible(cfg, before, e) && InOrder(e, Clock(es))
    ensures Plausible(p, cfg, c, es + [e]) && Clock(es + [e]) == Latest(e, Clock(es))
    ensures Live(p, cfg, c, es + [e]).client == React(p, cfg, before, e).client
    ensures Live(p, cfg, c, es + [e]).tally.windowReload >= React(p, cfg, before, e).tally.windowReload
  {
    hide React, Possible, InOrder, Latest;
    LiveOneMore(p, cfg, c, es, e);
  }

  lemma NoMembers()
    ensures Bundle.Deliver([]).delivered == []
  {
  }

  /** The drift: where the client stands once it is across, and what time it is. */
  lemma Drifted(p: Platform, cfg: Config)
    requires cfg.updateHz >= 1 && cfg.IsCube()
    ensures var es, c0 := Journey(cfg, [])[..4], NewClient(FIRST, 0);
            var d := Live(p, cfg, c0, es).client;
            && Plausible(p, cfg, c0, es) && Clock(es) == 1.0 + CrossingTime(cfg)
            && d.state == ACTIVE && d.activatedAt == SECOND_TICKS && d.perm.valid && d.perm.reloadAt == 0
            && d.perm.center.x == CubeMin(cfg) && d.body.chunk.x == CubeMin(cfg) + cfg.volumeChunks
  {
    hide Activate, SendDue, Datagram, CrossingTime, Offset, Live, Plausible, ValidWake;
    var t, clock, c0 := CrossingTime(cfg), Standing(Late(cfg)), NewClient(FIRST, 0);
    var e0, e1, e2, e3 := Woken(Setoff(cfg)), Ticked(AT_ONCE), Received([], 1.0 + t, clock), Ticked(Crossing(cfg));
    Started(p, cfg, c0);
    OffsetFits(cfg);
    WokenInCorner(cfg);
    Onward(p, cfg, c0, [], e0, c0);
    var c1 := Activate(cfg, c0, Setoff(cfg)).client;
    NotDueAtOnce(p, cfg, c1);
    Onward(p, cfg, c0, [] + [e0], e1, c1);
    NoMembers();
    HearNothing(p, cfg, c1, 1.0 + t, clock);
    Onward(p, cfg, c0, [] + [e0] + [e1], e2, c1);
    var c2 := c1.(lastRx := 1.0 + t);
    TickToFace(p, cfg, c2);
    Onward(p, cfg, c0, [] + [e0] + [e1] + [e2], e3, c2);
    assert [] + [e0] + [e1] + [e2] + [e3] == Journey(cfg, [])[..4];
  }

  lemma Started(p: Platform, cfg: Config, c: Client)
    requires cfg.updateHz >= 1
    ensures Plausible(p, cfg, c, []) && Live(p, cfg, c, []).client == c && Clock([]) == 0.0
  {
  }

  /** In a cube wider than the permission radius the first client can drift from one face to
      the other, and a refusal there is filed as a window reload. */
  lemma ReloadHappens(p: Platform, cfg: Config, refusal: Bytes)
    requires cfg.updateHz >= 1 && cfg.IsCube() && cfg.volumeChunks > cfg.permWindowRadiusChunks
    requires |refusal| >= 3 && refusal[0] == GENERIC_ERROR_MESSAGE && refusal[2] == ERR_UNAUTHORIZED
    ensures var es := Journey(cfg, refusal);
            Plausible(p, cfg, NewClient(FIRST, 0), es) && Live(p, cfg, NewClient(FIRST, 0), es).tally.windowReload > 0
  {
    hide Datagram, CrossingTime, Live, Plausible;
    Drifted(p, cfg);
    LateIsLater(cfg);
    OffsetFits(cfg);
    var c0, es, rx, clock := NewClient(FIRST, 0), Journey(cfg, [])[..4], Seconds(Late(cfg)), Standing(Late(cfg));
    var d := Live(p, cfg, c0, es).client;
    RefusedOutside(p, cfg, d, refusal, rx, clock);
    Onward(p, cfg, c0, es, Received(refusal, rx, clock), d);
    assert es + [Received(refusal, rx, clock)] == Journey(cfg, refusal);
  }

  /** Some client's history files a window reload. */
  ghost predicate CanReload(p: Platform, cfg: Config)
    requires cfg.updateHz >= 1
  {
    exists creds: Creds, at: int, es: seq<Event> ::
      Plausible(p, cfg, NewClient(creds, at), es) && Live(p, cfg, NewClient(creds, at), es).tally.windowReload > 0
  }

  /** In cube mode a refusal is ever filed as a window reload exactly when the cube is wider
      than the assumed permission radius. */
  lemma ReloadIffWide(p: Platform, cfg: Config)
    requires cfg.updateHz >= 1 && cfg.IsCube()
    ensures CanReload(p, cfg) <==> cfg.volumeChunks > cfg.permWindowRadiusChunks
  {
    if cfg.volumeChunks > cfg.permWindowRadiusChunks {
      ReloadHappens(p, cfg, [3, 0, 7]);
    } else {
      forall creds: Creds, at: int, es: seq<Event> | Plausible(p, cfg, NewClient(creds, at), es)
        ensures Live(p, cfg, NewClient(creds, at), es).tally.windowReload == 0
      {
        NoReload(p, cfg, creds, at, es);
      }
    }
  }

  // ----- A refused refresh -------------------------------------------------------------

  /** The answer, if the event is one, failed. */
  predicate NoSuccess(e: Event) {
    e.Answered? ==> e.update.failed
  }

  ghost predicate OnlyReassigns(o: Outcome) {
    forall k :: 0 <= k < |o.asks| ==> o.asks[k].kind == REASSIGN
  }

  lemma MemberNeverRefreshes(cfg: Config, c: Client, m: Bytes, now: Readings)
    requires c.refreshRequested
    ensures var o := Member(cfg, c, m, now); o.client.refreshRequested && OnlyReassigns(o)
  {
  }

  lemma {:induction false} MembersNeverRefresh(cfg: Config, c: Client, ms: seq<Bytes>, clock: seq<Readings>)
    requires c.refreshRequested
    ensures var o := Members(cfg, c, ms, clock); o.client.refreshRequested && OnlyReassigns(o)
    decreases |ms|
  {
    if ms != [] {
      var rest := ms[..|ms| - 1];
      MembersNeverRefresh(cfg, c, rest, clock);
      var a := Members(cfg, c, rest, clock);
      MemberNeverRefreshes(cfg, a.client, ms[|ms| - 1], Reading(clock, |ms| - 1));
      JoinReassigns(a, Member(cfg, a.client, ms[|ms| - 1], Reading(clock, |ms| - 1)));
    }
  }

  lemma JoinReassigns(a: Outcome, b: Outcome)
    requires OnlyReassigns(a) && OnlyReassigns(b)
    ensures OnlyReassigns(Join(a, b))
  {
    forall k | 0 <= k < |Join(a, b).asks|
      ensures Join(a, b).asks[k].kind == REASSIGN
    {
      assert Join(a, b).asks[k] == if k < |a.asks| then a.asks[k] else b.asks[k - |a.asks|];
    }
  }

  lemma TransmitNeverRefreshes(p: Platform, cfg: Config, c: Client, t: Tick)
    ensures var o := Transmit(p, cfg, c, t);
            o.client.refreshRequested == c.refreshRequested && OnlyReassigns(o)
  {
    var body := UpdateWalk(p, cfg, c.body, t.nowSec, t.aim);
    HandedReassigns(cfg, Stamped(c, body, Built(p, cfg, c, body, t.epochMs).buf), t.delivered);
  }

  lemma HandedReassigns(cfg: Config, c: Client, delivered: bool)
    ensures Handed(cfg, c, delivered).client.refreshRequested == c.refreshRequested
    ensures OnlyReassigns(Handed(cfg, c, delivered))
  {
  }

  lemma ActivateNeverRefreshes(cfg: Config, c: Client, w: Wake)
    requires cfg.updateHz >= 1
    ensures var o := Activate(cfg, c, w);
            o.client.refreshRequested == c.refreshRequested && OnlyReassigns(o)
  {
  }

  lemma SendNeverRefreshes(p: Platform, cfg: Config, c: Client, t: Tick)
    requires cfg.updateHz >= 1 && c.refreshRequested
    ensures var o := SendDue(p, cfg, c, t); o.client.refreshRequested && OnlyReassigns(o)
  {
    hide Transmit;
    var gate := PassGate(cfg, c, t);
    var ready := AtSend(cfg, c, t);
    assert gate.asks == [] && ready.refreshRequested;
    TransmitNeverRefreshes(p, cfg, ready, t);
    JoinReassigns(gate, Transmit(p, cfg, ready, t));
  }

  lemma ReactNeverRefreshes(p: Platform, cfg: Config, c: Client, e: Event)
    requires cfg.updateHz >= 1 && c.refreshRequested && NoSuccess(e)
    ensures var o := React(p, cfg, c, e); o.client.refreshRequested && OnlyReassigns(o)
  {
    match e
    case Answered(u) =>
    case Woken(w) => ActivateNeverRefreshes(cfg, c, w);
    case Received(data, rx, clock) => MembersNeverRefresh(cfg, c.(lastRx := rx), Bundle.Deliver(data).delivered, clock);
    case Ticked(t) => SendNeverRefreshes(p, cfg, c, t);
  }

  /** Once a refresh has been asked for, no expiring token and no token-level error asks again
      until some answer succeeds: a failed refresh of a running client is not retried, and only
      a reassignment can free it. */
  lemma {:induction false} RefreshAskedOnce(p: Platform, cfg: Config, c: Client, es: seq<Event>)
    requires cfg.updateHz >= 1 && c.refreshRequested
    requires forall k :: 0 <= k < |es| ==> NoSuccess(es[k])
    ensures var o := Live(p, cfg, c, es); o.client.refreshRequested && OnlyReassigns(o)
    decreases |es|
  {
    if es != [] {
      var rest := es[..|es| - 1];
      RefreshAskedOnce(p, cfg, c, rest);
      var a := Live(p, cfg, c, rest);
      ReactNeverRefreshes(p, cfg, a.client, es[|es| - 1]);
      JoinReassigns(a, React(p, cfg, a.client, es[|es| - 1]));
    }
  }
}
