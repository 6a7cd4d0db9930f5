/** One simulated client and everything the worker loop does to it (`SimClient.hpp`,
    `Worker.cpp`), as functions from the client before to what the step produced.

    What the network, the clocks, the random generator and the API answer is an input of the
    step.  `refused`, `attempts` and `adverts` are history: a failed answer since the last
    request, the times the client passed the send gate, and the capabilities it advertised.
 */
module SimClient {
  import opened Bytes
  import opened Wire
  import opened Settings
  import opened Motion
  import Bundle
  import Pacing

  datatype State = WAITING | ACTIVE | SUSPENDED

  datatype Kind = REASSIGN | REFRESH

  datatype Creds = Creds(
    index: int,
    email: string,
    appToken: Token,
    gameTokenId: int,
    gameApiUrl: string,
    tokenExpiresAt: int,
    serverIp4: string,
    serverPort: nat,
    udpReadyAt: int)

  /** A client's account: what no refresh or reassignment may change. */
  datatype Identity = Identity(index: int, email: string)

  function Who(c: Creds): Identity {
    Identity(c.index, c.email)
  }

  /** The modelled permission box; `reloadAt` is 0 until a refusal re-centres it. */
  datatype Perm = Perm(center: Chunk, valid: bool, reloadAt: int)

  type Buffer = s: Bytes | |s| == ACTOR_UPDATE_MAX_SIZE witness Zeros(ACTOR_UPDATE_MAX_SIZE)

  datatype Client = Client(
    creds: Creds,
    state: State,
    activateAt: int,
    open: bool,
    body: Body,
    uuid: Uuid,
    seqNo: byte,
    lastSend: real,
    lastCaps: real,
    lastRx: real,
    refreshRequested: bool,
    sendErrors: nat,
    unauthorized: nat,
    activatedAt: int,
    perm: Perm,
    message: Buffer,
    refused: bool,
    attempts: seq<real>,
    adverts: nat)
  {
    /** The first activation gives the client its UUID and its place. */
    predicate Placed() {
      uuid[0] != 0
    }
  }

  /** A request handed to the control queue: its kind and the credential snapshot. */
  datatype Ask = Ask(kind: Kind, creds: Creds)

  /** How a refusal was counted. */
  datatype Tally = Tally(unauthorized: nat, firstContact: nat, windowReload: nat)

  const NOTHING := Tally(0, 0, 0)

  function AddTally(a: Tally, b: Tally): Tally {
    Tally(a.unauthorized + b.unauthorized, a.firstContact + b.firstContact, a.windowReload + b.windowReload)
  }

  /** What one step did: the client after it, the requests pushed, the gauge increments, the
      actor updates handed to `send`, and the refusal counters. */
  datatype Outcome = Outcome(client: Client, asks: seq<Ask>, active: int, suspended: int, sent: seq<Bytes>, tally: Tally)

  function Quiet(c: Client): Outcome {
    Outcome(c, [], 0, 0, [], NOTHING)
  }

  const NEVER := -1000000000.0
  const GENERIC_ERROR_MESSAGE := 3
  const COMMAND_RECONNECT := 22
  const ERR_INVALID_TOKEN := 5
  const ERR_UNAUTHORIZED := 7
  const ERR_USER_NOT_AUTHENTICATED := 20
  const ERR_TOKEN_EXPIRED := 32
  /** Clock ticks (nanoseconds) in a millisecond. */
  const MS := 1_000_000
  /** And in a second. */
  const SECOND_TICKS := 1_000_000_000
  const FIRST_CONTACT_GRACE_MS := 2000

  function NewClient(creds: Creds, activateAt: int): Client {
    Client(creds, WAITING, activateAt, false, AT_ORIGIN, Zeros(32), 0, 0.0, NEVER, 0.0,
           false, 0, 0, 0, Perm(Chunk(0, 0, 0), false, 0), Zeros(ACTOR_UPDATE_MAX_SIZE), false, [], 0)
  }

  // ----- Suspension --------------------------------------------------------------------

  /** `suspendClient`. */
  function Suspend(c: Client, kind: Kind): Outcome {
    if c.state == SUSPENDED then Quiet(c)
    else
      Outcome(c.(open := false, state := SUSPENDED, refused := false), [Ask(kind, c.creds)],
              if c.state == ACTIVE then -1 else 0, 1, [], NOTHING)
  }

  // ----- Control answers ---------------------------------------------------------------

  datatype Update = Update(slot: nat, failed: bool, creds: Creds)

  function SessionOf(cfg: Config, c: Client): Session {
    Session(cfg.fmt, c.uuid, cfg.appId, c.creds.gameTokenId, cfg.distance, cfg.decay)
  }

  /** `rebuildTemplate`. */
  function Rebuild(cfg: Config, c: Client): Client {
    c.(lastCaps := NEVER, message := Template(SessionOf(cfg, c)))
  }

  /** One turn of `applyPendingUpdates`. */
  function Apply(cfg: Config, c: Client, u: Update): Outcome {
    if u.failed then Quiet(c.(refused := true))
    else
      var renewed := c.(creds := u.creds, refreshRequested := false, refused := false);
      var ready := if u.creds.gameTokenId != c.creds.gameTokenId then Rebuild(cfg, renewed) else renewed;
      if c.state == SUSPENDED then
        Outcome(ready.(state := WAITING, activateAt := u.creds.udpReadyAt), [], 0, -1, [], NOTHING)
      else if c.state == ACTIVE then
        Outcome(ready.(open := false, state := WAITING, activateAt := u.creds.udpReadyAt), [], -1, 0, [], NOTHING)
      else Quiet(ready)
  }

  // ----- Activation --------------------------------------------------------------------

  /** Both clock readings of a loop turn, the random draws and whether the socket opens. */
  datatype Wake = Wake(now: int, nowSec: real, spawn: Spawn, uuid: Uuid, stagger: real, socketOk: bool)

  ghost predicate ValidWake(cfg: Config, w: Wake) {
    ValidSpawn(cfg, w.spawn) && w.uuid[0] != 0 && 0.0 <= w.stagger < 1.0
  }

  /** `initSimulation`. */
  function Init(cfg: Config, c: Client, w: Wake): Client
    requires cfg.updateHz >= 1
  {
    var interval := Pacing.Interval(cfg.updateHz);
    Rebuild(cfg, c.(body := Place(cfg, c.creds.index, w.spawn, w.nowSec, c.body), uuid := w.uuid,
                    lastSend := w.nowSec - interval + w.stagger * interval, seqNo := 0))
  }

  function Resume(c: Client, w: Wake): Client {
    c.(body := c.body.(lastMove := w.nowSec), lastSend := w.nowSec, lastCaps := NEVER)
  }

  predicate ReadyAt(c: Client, now: int) {
    c.state == WAITING && now >= c.activateAt && now >= c.creds.udpReadyAt
  }

  /** Start or resume the simulation and re-arm the grace window and the permission box. */
  function Arm(cfg: Config, c: Client, w: Wake): Client
    requires cfg.updateHz >= 1
  {
    var up := if c.Placed() then Resume(c, w) else Init(cfg, c, w);
    up.(lastRx := w.nowSec, activatedAt := w.now, perm := up.perm.(center := up.body.chunk, valid := true))
  }

  function Connect(c: Client, socketOk: bool): Outcome {
    if !socketOk then Suspend(c, REASSIGN)
    else Outcome(c.(open := true, state := ACTIVE), [], 1, 0, [], NOTHING)
  }

  /** One turn of `activateDueClients`. */
  function Activate(cfg: Config, c: Client, w: Wake): Outcome
    requires cfg.updateHz >= 1
  {
    if !ReadyAt(c, w.now) then Quiet(c) else Connect(Arm(cfg, c, w), w.socketOk)
  }

  // ----- Inbound -----------------------------------------------------------------------

  predicate OutsideBox(cfg: Config, a: Chunk, b: Chunk) {
    var r := cfg.permWindowRadiusChunks;
    AbsInt(a.x - b.x) > r || AbsInt(a.y - b.y) > r || AbsInt(a.z - b.z) > r
  }

  /** The steady clock as one refusal reads it: once for the grace window, then, if it gets
      that far, once for the permission box. */
  datatype Readings = Readings(first: int, second: int)

  /** What the k-th member of a datagram reads. */
  function Reading(clock: seq<Readings>, k: nat): Readings {
    if k < |clock| then clock[k] else Readings(0, 0)
  }

  predicate SameEpisode(cfg: Config, c: Client, now: int) {
    c.perm.reloadAt != 0 && now - c.perm.reloadAt < cfg.permReloadGraceMs * MS
  }

  datatype Classified = Classified(client: Client, tally: Tally)

  /** Which counters an error code moves, and whether it re-centres the box. */
  function Classify(cfg: Config, c: Client, code: byte, now: Readings): Classified {
    if code != ERR_UNAUTHORIZED then Classified(c, NOTHING)
    else if c.activatedAt != 0 && now.first - c.activatedAt < FIRST_CONTACT_GRACE_MS * MS then
      Classified(c, Tally(1, 1, 0))
    else if c.perm.valid && (SameEpisode(cfg, c, now.second) || OutsideBox(cfg, c.body.chunk, c.perm.center)) then
      Classified(if SameEpisode(cfg, c, now.second) then c
                 else c.(perm := c.perm.(center := c.body.chunk, reloadAt := now.second)),
                 Tally(1, 0, 1))
    else Classified(c, Tally(1, 0, 0))
  }

  predicate TokenLevel(code: byte) {
    code == ERR_INVALID_TOKEN || code == ERR_TOKEN_EXPIRED || code == ERR_USER_NOT_AUTHENTICATED
  }

  /** A GENERIC_ERROR_MESSAGE carrying `code`. */
  function ErrorCode(cfg: Config, c: Client, code: byte, now: Readings): Outcome {
    var k := Classify(cfg, c, code, now);
    var o :=
      if TokenLevel(code) && !k.client.refreshRequested then
        Suspend(k.client.(refreshRequested := true), REFRESH)
      else if code == ERR_UNAUTHORIZED then
        if k.client.unauthorized + 1 >= 5 * cfg.updateHz
        then Suspend(k.client.(unauthorized := 0), REASSIGN)
        else Quiet(k.client.(unauthorized := k.client.unauthorized + 1))
      else Quiet(k.client);
    o.(tally := k.tally)
  }

  /** One message: a datagram of its own or a bundle member. */
  function Member(cfg: Config, c: Client, m: Bytes, now: Readings): Outcome {
    var kind := if m == [] then 0 else m[0];
    if kind == GENERIC_ERROR_MESSAGE then
      if |m| >= 3 then ErrorCode(cfg, c, m[2], now) else Quiet(c)
    else if kind == COMMAND_RECONNECT then Suspend(c, REASSIGN)
    else Quiet(c)
  }

  function Join(a: Outcome, b: Outcome): Outcome {
    Outcome(b.client, a.asks + b.asks, a.active + b.active, a.suspended + b.suspended,
            a.sent + b.sent, AddTally(a.tally, b.tally))
  }

  /** The callback over the members, the k-th at `Reading(clock, k)`.  It carries on after a
      suspension: the bundle is walked to its end. */
  function Members(cfg: Config, c: Client, ms: seq<Bytes>, clock: seq<Readings>): Outcome
    decreases |ms|
  {
    if ms == [] then Quiet(c)
    else
      var before := Members(cfg, c, ms[..|ms| - 1], clock);
      Join(before, Member(cfg, before.client, ms[|ms| - 1], Reading(clock, |ms| - 1)))
  }

  /** `handleDatagram`. */
  function Datagram(p: Platform, cfg: Config, c: Client, data: Bytes, rx: real, clock: seq<Readings>): Outcome {
    var heard := c.(lastRx := rx);
    if data == [] then Quiet(heard)
    else if data[0] == Bundle.MESSAGE_BUNDLE_SIGNED && !VerifySignedBundle(p, data, c.creds.appToken) then Quiet(heard)
    else Members(cfg, heard, Bundle.Deliver(data).delivered, clock)
  }

  // ----- Sending -----------------------------------------------------------------------

  /** The clocks of a send turn, the re-aim draws and what `send` answers. */
  datatype Tick = Tick(nowSec: real, sysNow: int, epochMs: real, aim: Aim, delivered: bool)

  function NextSeq(s: byte): byte {
    (s + 1) % 256
  }

  predicate Silent(cfg: Config, c: Client, now: real) {
    cfg.rxSilentReassignSec > 0 && now - c.lastRx > cfg.rxSilentReassignSec as real
  }

  predicate WantsRefresh(cfg: Config, c: Client, sysNow: int) {
    !c.refreshRequested && sysNow + cfg.tokenRefreshLeadSec * SECOND_TICKS >= c.creds.tokenExpiresAt
  }

  /** Advance the send mark and ask once for a refresh inside the lead window. */
  function PassGate(cfg: Config, c: Client, t: Tick): Outcome
    requires cfg.updateHz >= 1
  {
    var paced := c.(lastSend := Pacing.Advance(Pacing.Interval(cfg.updateHz), c.lastSend, t.nowSec),
                    attempts := c.attempts + [t.nowSec]);
    if WantsRefresh(cfg, c, t.sysNow) then
      Quiet(paced.(refreshRequested := true, refused := false)).(asks := [Ask(REFRESH, c.creds)])
    else Quiet(paced)
  }

  /** CLIENT_CAPABILITIES, when due, takes a sequence number of its own. */
  function Advertise(cfg: Config, c: Client, now: real): Client {
    if cfg.clientCaps && now - c.lastCaps >= cfg.capsIntervalSec as real
    then c.(lastCaps := now, seqNo := NextSeq(c.seqNo), adverts := c.adverts + 1) else c
  }

  /** Move, patch the message and sign it. */
  function Built(p: Platform, cfg: Config, c: Client, body: Body, epochMs: real): (f: Finalized)
    ensures |f.buf| == ACTOR_UPDATE_MAX_SIZE
  {
    Finalize(p, c.message, cfg.fmt, body.chunk, PoseOf(p, cfg, body, epochMs), c.seqNo, c.creds.appToken)
  }

  function Stamped(c: Client, body: Body, message: Buffer): Client {
    c.(body := body, message := message, seqNo := NextSeq(c.seqNo))
  }

  /** What `send` answered: a run of failures moves the client to another server. */
  function Handed(cfg: Config, c: Client, delivered: bool): Outcome {
    if delivered then Quiet(c.(sendErrors := 0))
    else if c.sendErrors + 1 >= 3 * cfg.updateHz then Suspend(c.(sendErrors := 0), REASSIGN)
    else Quiet(c.(sendErrors := c.sendErrors + 1))
  }

  function Transmit(p: Platform, cfg: Config, c: Client, t: Tick): Outcome {
    var body := UpdateWalk(p, cfg, c.body, t.nowSec, t.aim);
    var built := Built(p, cfg, c, body, t.epochMs);
    var moved := Stamped(c, body, built.buf);
    if !built.ok then Quiet(moved)
    else Handed(cfg, moved, t.delivered).(sent := [built.buf[..UpdateSize(cfg.fmt)]])
  }

  /** One turn of `sendDueUpdates`. */
  function SendDue(p: Platform, cfg: Config, c: Client, t: Tick): Outcome
    requires cfg.updateHz >= 1
  {
    if c.state != ACTIVE then Quiet(c)
    else if Silent(cfg, c, t.nowSec) then Suspend(c, REASSIGN)
    else if !Pacing.Due(Pacing.Interval(cfg.updateHz), c.lastSend, t.nowSec) then Quiet(c)
    else
      var gate := PassGate(cfg, c, t);
      Join(gate, Transmit(p, cfg, Advertise(cfg, gate.client, t.nowSec), t))
  }

  // ----- Steps of one client -----------------------------------------------------------

  datatype Event =
    | Answered(update: Update)
    | Woken(wake: Wake)
    | Received(data: Bytes, rx: real, clock: seq<Readings>)
    | Ticked(tick: Tick)

  /** A successful answer carries the client's own account. */
  predicate OwnAnswer(c: Client, e: Event) {
    e.Answered? && !e.update.failed ==> Who(e.update.creds) == Who(c.creds)
  }

  /** What the loop and its inputs allow; an answer is applied whatever it carries. */
  ghost predicate Possible(cfg: Config, c: Client, e: Event) {
    match e
    case Answered(_) => true
    case Woken(w) => ValidWake(cfg, w)
    case Received(_, _, _) => c.state == ACTIVE
    case Ticked(t) => ValidAim(t.aim)
  }

  function React(p: Platform, cfg: Config, c: Client, e: Event): Outcome
    requires cfg.updateHz >= 1
  {
    match e
    case Answered(u) => Apply(cfg, c, u)
    case Woken(w) => Activate(cfg, c, w)
    case Received(data, rx, clock) => Datagram(p, cfg, c, data, rx, clock)
    case Ticked(t) => SendDue(p, cfg, c, t)
  }
}
