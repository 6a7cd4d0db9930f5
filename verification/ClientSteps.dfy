/** What a datagram, a tick, an answer and an activation do to a client, said by what goes in and
    what comes out (`Worker.cpp`). */
module ClientSteps {
  import opened Bytes
  import opened Wire
  import opened Settings
  import opened Motion
  import opened SimClient
  import opened ClientInvariants
  import Bundle
  import Pacing

  // ----- Datagrams ---------------------------------------------------------------------

  /** A datagram that is no bundle is handled as one message. */
  lemma PlainIsMember(p: Platform, cfg: Config, c: Client, m: Bytes, rx: real, clock: seq<Readings>)
    requires m != [] && m[0] != Bundle.MESSAGE_BUNDLE && m[0] != Bundle.MESSAGE_BUNDLE_SIGNED
    ensures var o, d := Datagram(p, cfg, c, m, rx, clock), Member(cfg, c.(lastRx := rx), m, Reading(clock, 0));
            o.client == d.client && o.asks == d.asks && o.tally == d.tally && o.active == d.active && o.suspended == d.suspended
  {
    hide Member;
    var heard := c.(lastRx := rx);
    assert Bundle.Deliver(m).delivered == [m];
    assert [m][..0] == [];
    assert Members(cfg, heard, [], clock) == Quiet(heard);
    var d := Member(cfg, heard, m, Reading(clock, 0));
    assert [] + d.asks == d.asks;
  }

  /** What an error message makes a running client ask for: a refresh for a token-level code
      unless one is pending, another server at the last of five seconds' worth of refusals,
      and nothing otherwise. */
  lemma ErrorDatagramAsks(p: Platform, cfg: Config, c: Client, m: Bytes, rx: real, clock: seq<Readings>)
    requires c.state == ACTIVE && |m| >= 3 && m[0] == 3
    ensures var o, code := Datagram(p, cfg, c, m, rx, clock), m[2];
            if (code == 5 || code == 20 || code == 32) && !c.refreshRequested then
              && o.asks == [Ask(REFRESH, c.creds)] && o.client.state == SUSPENDED && !o.client.open
              && o.client.refreshRequested && o.client.unauthorized == c.unauthorized
            else if code == 7 && c.unauthorized + 1 >= 5 * cfg.updateHz then
              && o.asks == [Ask(REASSIGN, c.creds)] && o.client.state == SUSPENDED && !o.client.open
              && o.client.refreshRequested == c.refreshRequested && o.client.unauthorized == 0
            else if code == 7 then
              && o.asks == [] && o.client.state == ACTIVE && o.client.refreshRequested == c.refreshRequested
              && o.client.unauthorized == c.unauthorized + 1
            else o.asks == [] && o.client == c.(lastRx := rx)
  {
    hide Datagram;
    PlainIsMember(p, cfg, c, m, rx, clock);
  }

  /** How a refusal is filed: as first contact within two seconds of the activation, as a
      window reload within the grace of the last one or with the client outside its box, and
      as unexplained otherwise.  Only a reload outside the grace re-centres the box. */
  lemma RefusalIsFiled(p: Platform, cfg: Config, c: Client, m: Bytes, rx: real, clock: seq<Readings>)
    requires |m| >= 3 && m[0] == 3
    ensures var o, now := Datagram(p, cfg, c, m, rx, clock), Reading(clock, 0);
            var r: int := cfg.permWindowRadiusChunks;
            var recent := c.activatedAt != 0 && now.first - c.activatedAt < 2_000_000_000;
            var again := c.perm.reloadAt != 0 && now.second - c.perm.reloadAt < cfg.permReloadGraceMs * 1_000_000;
            var here, box := c.body.chunk, c.perm.center;
            var outside := !(-r <= here.x - box.x <= r && -r <= here.y - box.y <= r && -r <= here.z - box.z <= r);
            if m[2] != 7 then o.tally == Tally(0, 0, 0) && o.client.perm == c.perm
            else if recent then o.tally == Tally(1, 1, 0) && o.client.perm == c.perm
            else if c.perm.valid && again then o.tally == Tally(1, 0, 1) && o.client.perm == c.perm
            else if c.perm.valid && outside then o.tally == Tally(1, 0, 1) && o.client.perm == Perm(here, true, now.second)
            else o.tally == Tally(1, 0, 0) && o.client.perm == c.perm
  {
    hide Datagram;
    PlainIsMember(p, cfg, c, m, rx, clock);
  }

  lemma ReconnectAsks(p: Platform, cfg: Config, c: Client, m: Bytes, rx: real, clock: seq<Readings>)
    requires c.state == ACTIVE && m != [] && m[0] == 22
    ensures var o := Datagram(p, cfg, c, m, rx, clock);
            && o.asks == [Ask(REASSIGN, c.creds)] && o.client == c.(lastRx := rx, open := false, state := SUSPENDED, refused := false)
            && o.active == -1 && o.suspended == 1
  {
    hide Datagram;
    PlainIsMember(p, cfg, c, m, rx, clock);
  }

  /** Anything else that is no bundle is heard and no more. */
  lemma OthersOnlyHeard(p: Platform, cfg: Config, c: Client, m: Bytes, rx: real, clock: seq<Readings>)
    requires m == [] || (m[0] != 3 && m[0] != 22 && m[0] != Bundle.MESSAGE_BUNDLE && m[0] != Bundle.MESSAGE_BUNDLE_SIGNED)
    ensures var o := Datagram(p, cfg, c, m, rx, clock); o.client == c.(lastRx := rx) && o.asks == [] && o.tally == NOTHING
  {
    if m != [] {
      hide Datagram;
      PlainIsMember(p, cfg, c, m, rx, clock);
    }
  }

  /** A signed bundle whose tag does not verify under the client's token is heard and no more. */
  lemma BadTagOnlyHeard(p: Platform, cfg: Config, c: Client, m: Bytes, rx: real, clock: seq<Readings>)
    requires m != [] && m[0] == 30 && !VerifySignedBundle(p, m, c.creds.appToken)
    ensures Datagram(p, cfg, c, m, rx, clock) == Quiet(c.(lastRx := rx))
  {
  }

  /** A signed bundle verifies exactly with the tag its token signs. */
  lemma SignedBundleVerifiesIff(p: Platform, members: seq<Bytes>, tag: Tag, token: Token)
    requires Bundle.Framable(members) && members != []
    ensures VerifySignedBundle(p, Bundle.EncodeSignedBundle(members, tag), token)
       <==> Sign(p, [30] + Bundle.Frame(members), token) == Some(tag)
  {
    var m := Bundle.EncodeSignedBundle(members, tag);
    assert |Bundle.Frame(members)| >= 2;
    assert m[..|m| - 32] == [30] + Bundle.Frame(members) && m[|m| - 32..] == tag;
  }

  /** A bundle is its members one after the other. */
  lemma BundleIsItsMembers(p: Platform, cfg: Config, c: Client, members: seq<Bytes>, rx: real, clock: seq<Readings>)
    requires Bundle.Framable(members)
    ensures Datagram(p, cfg, c, Bundle.EncodeBundle(members), rx, clock) == Members(cfg, c.(lastRx := rx), members, clock)
  {
    Bundle.BundleRoundTrip(members);
  }

  /** The same messages as datagrams of their own, one after the other. */
  function Separately(p: Platform, cfg: Config, c: Client, ms: seq<Bytes>, rx: real, clock: seq<Readings>): Outcome
    decreases |ms|
  {
    if ms == [] then Quiet(c.(lastRx := rx))
    else
      var before := Separately(p, cfg, c, ms[..|ms| - 1], rx, clock);
      Join(before, Datagram(p, cfg, before.client, ms[|ms| - 1], rx, [Reading(clock, |ms| - 1)]))
  }

  ghost predicate AllPlain(ms: seq<Bytes>) {
    forall k :: 0 <= k < |ms| ==> ms[k] != [] && ms[k][0] != Bundle.MESSAGE_BUNDLE && ms[k][0] != Bundle.MESSAGE_BUNDLE_SIGNED
  }

  /** A bundle does what its members would do one by one, in order: the same client, the same
      requests, the same counters. */
  lemma BundleActsInOrder(p: Platform, cfg: Config, c: Client, members: seq<Bytes>, rx: real, clock: seq<Readings>)
    requires Bundle.Framable(members) && AllPlain(members)
    ensures var o, q := Datagram(p, cfg, c, Bundle.EncodeBundle(members), rx, clock), Separately(p, cfg, c, members, rx, clock);
            o.client == q.client && o.asks == q.asks && o.tally == q.tally && o.active == q.active && o.suspended == q.suspended
  {
    hide Datagram, Members, Separately;
    BundleIsItsMembers(p, cfg, c, members, rx, clock);
    MembersSeparately(p, cfg, c, members, rx, clock);
  }

  lemma {:induction false} MembersSeparately(p: Platform, cfg: Config, c: Client, ms: seq<Bytes>, rx: real, clock: seq<Readings>)
    requires AllPlain(ms)
    ensures var o, q := Members(cfg, c.(lastRx := rx), ms, clock), Separately(p, cfg, c, ms, rx, clock);
            && o.client == q.client && o.asks == q.asks && o.tally == q.tally && o.active == q.active && o.suspended == q.suspended
            && o.client.lastRx == rx
    decreases |ms|
  {
    hide Datagram, Member;
    if ms != [] {
      var rest, m, k := ms[..|ms| - 1], ms[|ms| - 1], |ms| - 1;
      MembersSeparately(p, cfg, c, rest, rx, clock);
      var d := Separately(p, cfg, c, rest, rx, clock).client;
      PlainIsMember(p, cfg, d, m, rx, [Reading(clock, k)]);
      assert d.(lastRx := rx) == d;
      HearsStill(cfg, d, m, Reading(clock, k));
    }
  }

  lemma HearsStill(cfg: Config, c: Client, m: Bytes, now: Readings)
    ensures Member(cfg, c, m, now).client.lastRx == c.lastRx
  {
  }

  // ----- Ticks -------------------------------------------------------------------------

  lemma TransmitOutcome(p: Platform, cfg: Config, c: Client, t: Tick)
    requires c.state == ACTIVE
    ensures var o := Transmit(p, cfg, c, t);
            var failed := o.sent != [] && !t.delivered;
            var gone := failed && c.sendErrors + 1 >= 3 * cfg.updateHz;
            && |o.sent| <= 1 && o.asks == (if gone then [Ask(REASSIGN, c.creds)] else [])
            && o.client.state == (if gone then SUSPENDED else ACTIVE) && o.client.creds == c.creds
            && o.client.refreshRequested == c.refreshRequested && o.client.attempts == c.attempts && o.client.adverts == c.adverts
            && o.client.sendErrors == (if gone then 0 else if failed then c.sendErrors + 1 else if o.sent != [] then 0 else c.sendErrors)
            && o.client.seqNo == (c.seqNo + 1) % 256 && o.client.lastSend == c.lastSend && o.client.lastRx == c.lastRx
  {
    hide UpdateWalk, Built;
  }

  /** What a tick does to a running client.  Silence beyond the limit asks for another server
      and sends nothing; a tick before the interval is over does nothing.  Otherwise it is one
      attempt, which asks once for a refresh inside the lead, and for another server at the
      last of three seconds' worth of failed sends. */
  lemma TickActs(p: Platform, cfg: Config, c: Client, t: Tick)
    requires cfg.updateHz >= 1 && c.state == ACTIVE
    ensures var o := SendDue(p, cfg, c, t);
            var silent := cfg.rxSilentReassignSec > 0 && t.nowSec - c.lastRx > cfg.rxSilentReassignSec as real;
            var expiring := !c.refreshRequested && t.sysNow + cfg.tokenRefreshLeadSec * 1_000_000_000 >= c.creds.tokenExpiresAt;
            var failed := o.sent != [] && !t.delivered;
            var gone := failed && c.sendErrors + 1 >= 3 * cfg.updateHz;
            if silent then o.asks == [Ask(REASSIGN, c.creds)] && o.sent == [] && o.client == c.(open := false, state := SUSPENDED, refused := false)
            else if t.nowSec - c.lastSend < Pacing.Interval(cfg.updateHz) then o == Quiet(c)
            else
              && |o.sent| <= 1 && o.client.attempts == c.attempts + [t.nowSec]
              && o.asks == (if expiring then [Ask(REFRESH, c.creds)] else []) + (if gone then [Ask(REASSIGN, c.creds)] else [])
              && o.client.refreshRequested == (c.refreshRequested || expiring)
              && o.client.state == (if gone then SUSPENDED else ACTIVE)
              && o.client.sendErrors == (if gone then 0 else if failed then c.sendErrors + 1 else if o.sent != [] then 0 else c.sendErrors)
  {
    hide Transmit, Pacing.Interval;
    TransmitOutcome(p, cfg, AtSend(cfg, c, t), t);
  }

  /** Capabilities go out with an attempt exactly when their interval has passed; each packet
      takes the next sequence number. */
  lemma TickNumbers(p: Platform, cfg: Config, c: Client, t: Tick)
    requires cfg.updateHz >= 1 && c.state == ACTIVE
    ensures var o := SendDue(p, cfg, c, t);
            var due := cfg.clientCaps && t.nowSec - c.lastCaps >= cfg.capsIntervalSec as real;
            if o.client.attempts == c.attempts then o.client.adverts == c.adverts && o.client.seqNo == c.seqNo && o.sent == []
            else
              && |o.client.attempts| == |c.attempts| + 1
              && o.client.adverts == c.adverts + (if due then 1 else 0)
              && o.client.seqNo == (c.seqNo + (if due then 2 else 1)) % 256
  {
    hide Transmit, Pacing.Interval;
    TransmitOutcome(p, cfg, AtSend(cfg, c, t), t);
  }

  // ----- Answers and activations -------------------------------------------------------

  /** A failed answer changes nothing; a successful one brings its credentials, ends the wait
      for a refresh and sends the client back to wait for the session to settle. */
  lemma AnswerActs(cfg: Config, c: Client, u: Update)
    ensures var d := Apply(cfg, c, u).client;
            && Apply(cfg, c, u).asks == []
            && if u.failed then d == c.(refused := true)
               else
                 && d.creds == u.creds && !d.refreshRequested && d.state == WAITING
                 && d.activateAt == (if c.state == WAITING then c.activateAt else u.creds.udpReadyAt)
                 && d.open == (c.open && c.state != ACTIVE)
                 && d.body == c.body && d.uuid == c.uuid && d.seqNo == c.seqNo && d.lastSend == c.lastSend && d.perm == c.perm
                 && d.lastCaps == (if u.creds.gameTokenId != c.creds.gameTokenId then NEVER else c.lastCaps)
  {
    hide Template;
  }

  /** When a client is activated and what that sets: not before its own time nor before its
      session has settled; a first activation places it and makes it due after its share of the
      interval, a later one resumes it where it stood. */
  lemma ActivationActs(cfg: Config, c: Client, w: Wake)
    requires cfg.updateHz >= 1
    ensures var o := Activate(cfg, c, w);
            var d := o.client;
            if c.state != WAITING || w.now < c.activateAt || w.now < c.creds.udpReadyAt then o == Quiet(c)
            else
              && d.state == (if w.socketOk then ACTIVE else SUSPENDED) && d.open == w.socketOk
              && o.asks == (if w.socketOk then [] else [Ask(REASSIGN, c.creds)])
              && d.creds == c.creds && d.lastRx == w.nowSec && d.activatedAt == w.now && d.lastCaps == NEVER
              && d.perm == Perm(d.body.chunk, true, c.perm.reloadAt) && d.refreshRequested == c.refreshRequested
              && if c.Placed() then
                   && d.body == c.body.(lastMove := w.nowSec) && d.uuid == c.uuid && d.seqNo == c.seqNo && d.lastSend == w.nowSec
                 else
                   && d.uuid == w.uuid && d.seqNo == 0 && d.body.lastMove == w.nowSec && d.body.dir == w.spawn.dir
                   && d.lastSend + Pacing.Interval(cfg.updateHz) == w.nowSec + w.stagger * Pacing.Interval(cfg.updateHz)
  {
    hide Template, Pacing.Interval, Place;
    PlaceSets(cfg, c.creds.index, w.spawn, w.nowSec, c.body);
  }

  lemma PlaceSets(cfg: Config, index: int, s: Spawn, now: real, b: Body)
    ensures Place(cfg, index, s, now, b).dir == s.dir && Place(cfg, index, s, now, b).lastMove == now
  {
    hide CubePosition, Spot, Edge;
  }
}
