/** The worker and the control queue as the objects they are (`Worker.cpp`, `Worker.hpp`).

    The worker holds its clients in a vector that its methods rewrite slot by slot, pushes to
    the shared queue and moves the shared gauges.  Each method is proved to do, in order, the
    client steps of `SimClient`; `WorkerRuns` proves that these are runs of `Protocol`.
 */
module WorkerThread {
  import opened Bytes
  import opened Wire
  import opened Settings
  import opened Motion
  import opened SimClient
  import opened Protocol
  import Bundle

  class ControlQueue {
    var queue: seq<Request>
    var shutdown: bool

    constructor ()
      ensures queue == [] && !shutdown
    {
      queue, shutdown := [], false;
    }

    method Push(r: Request)
      modifies this
      ensures queue == old(queue) + [r] && shutdown == old(shutdown)
    {
      queue := queue + [r];
    }

    /** Called when the wait is over: a request is there or the queue was shut down.  After a
        shutdown it still hands out what is queued. */
    method Pop() returns (popped: Option<Request>)
      requires queue != [] || shutdown
      modifies this
      ensures shutdown == old(shutdown)
      ensures old(queue) == [] ==> popped == None && queue == []
      ensures old(queue) != [] ==> popped == Some(old(queue)[0]) && old(queue) == [old(queue)[0]] + queue
    {
      if queue == [] {
        return None;
      }
      popped := Some(queue[0]);
      queue := queue[1..];
    }

    method Shutdown()
      modifies this
      ensures shutdown && queue == old(queue)
    {
      shutdown := true;
    }
  }

  /** The shared counters a worker moves. */
  class Gauges {
    var active: int
    var suspended: int
    var tally: Tally

    constructor ()
      ensures active == 0 && suspended == 0 && tally == NOTHING
    {
      active, suspended, tally := 0, 0, NOTHING;
    }
  }

  // ----- Specification -----------------------------------------------------------------

  /** What a worker can change: its clients, the queue and the gauges. */
  datatype Ledger = Ledger(clients: seq<Client>, queue: seq<Request>, active: int, suspended: int, tally: Tally)

  /** One client step, entered at its slot. */
  function Record(w: nat, l: Ledger, slot: nat, o: Outcome): Ledger
    requires slot < |l.clients|
  {
    Ledger(l.clients[slot := o.client], l.queue + Addressed(w, slot, o.asks),
           l.active + o.active, l.suspended + o.suspended, AddTally(l.tally, o.tally))
  }

  ghost predicate SlotsExist(n: nat, us: seq<Update>) {
    forall k :: 0 <= k < |us| ==> us[k].slot < n
  }

  function ApplyAll(cfg: Config, w: nat, l: Ledger, us: seq<Update>): (r: Ledger)
    requires SlotsExist(|l.clients|, us)
    ensures |r.clients| == |l.clients|
    decreases |us|
  {
    if us == [] then l
    else
      var u, before := us[|us| - 1], ApplyAll(cfg, w, l, us[..|us| - 1]);
      Record(w, before, u.slot, Apply(cfg, before.clients[u.slot], u))
  }

  function ActivateAll(cfg: Config, w: nat, l: Ledger, wakes: seq<Wake>): (r: Ledger)
    requires cfg.updateHz >= 1 && |wakes| <= |l.clients|
    ensures |r.clients| == |l.clients|
    decreases |wakes|
  {
    if wakes == [] then l
    else
      var i := |wakes| - 1;
      var before := ActivateAll(cfg, w, l, wakes[..i]);
      Record(w, before, i, Activate(cfg, before.clients[i], wakes[i]))
  }

  function SendAll(p: Platform, cfg: Config, w: nat, l: Ledger, ticks: seq<Tick>): (r: Ledger)
    requires cfg.updateHz >= 1 && |ticks| <= |l.clients|
    ensures |r.clients| == |l.clients|
    decreases |ticks|
  {
    if ticks == [] then l
    else
      var i := |ticks| - 1;
      var before := SendAll(p, cfg, w, l, ticks[..i]);
      Record(w, before, i, SendDue(p, cfg, before.clients[i], ticks[i]))
  }

  lemma RecordQuiet(w: nat, l: Ledger, slot: nat, c: Client)
    requires slot < |l.clients|
    ensures Record(w, l, slot, Quiet(c)) == l.(clients := l.clients[slot := c])
  {
    assert l.queue + Addressed(w, slot, []) == l.queue;
  }

  lemma RecordSame(w: nat, l: Ledger, slot: nat)
    requires slot < |l.clients|
    ensures Record(w, l, slot, Quiet(l.clients[slot])) == l
  {
    RecordQuiet(w, l, slot, l.clients[slot]);
    assert l.clients[slot := l.clients[slot]] == l.clients;
  }

  /** Two outcomes of one client, one after the other, are their join. */
  lemma RecordJoin(w: nat, l: Ledger, slot: nat, a: Outcome, b: Outcome)
    requires slot < |l.clients|
    ensures Record(w, Record(w, l, slot, a), slot, b) == Record(w, l, slot, Join(a, b))
  {
    assert l.clients[slot := a.client][slot := b.client] == l.clients[slot := b.client];
    assert l.queue + Addressed(w, slot, a.asks) + Addressed(w, slot, b.asks)
        == l.queue + Addressed(w, slot, a.asks + b.asks);
  }

  /** Rewriting the slot before the step changes nothing but the tally. */
  lemma Rewritten(w: nat, l: Ledger, slot: nat, k: Classified, c: Client, o: Outcome)
    requires slot < |l.clients|
    ensures Record(w, l.(clients := l.clients[slot := k.client][slot := c], tally := AddTally(l.tally, k.tally)), slot,
                   o.(tally := NOTHING))
         == Record(w, l, slot, o.(tally := k.tally))
  {
    assert l.clients[slot := k.client][slot := c][slot := o.client] == l.clients[slot := o.client];
  }

  lemma OneAsk(w: nat, slot: nat, ask: Ask)
    ensures Addressed(w, slot, [ask]) == [Request(w, slot, ask.kind, ask.creds)]
  {
  }

  // ----- The worker --------------------------------------------------------------------

  class Worker {
    const index: nat
    const cfg: Config
    const stats: Gauges
    const control: ControlQueue
    var clients: seq<Client>
    var inbox: seq<Update>
    var pending: seq<PendingAdd>

    constructor (index: nat, cfg: Config, stats: Gauges, control: ControlQueue)
      ensures this.index == index && this.cfg == cfg && this.stats == stats && this.control == control
      ensures clients == [] && inbox == [] && pending == []
    {
      this.index, this.cfg, this.stats, this.control := index, cfg, stats, control;
      clients, inbox, pending := [], [], [];
    }

    ghost function View(): Ledger
      reads this, stats, control
    {
      Ledger(clients, control.queue, stats.active, stats.suspended, stats.tally)
    }

    method AddClient(creds: Creds, activateAt: int)
      modifies this`pending
      ensures pending == old(pending) + [PendingAdd(creds, activateAt)]
    {
      pending := pending + [PendingAdd(creds, activateAt)];
    }

    method PostUpdate(u: Update)
      modifies this`inbox
      ensures inbox == old(inbox) + [u]
    {
      inbox := inbox + [u];
    }

    /** Append every queued client; the slots already in use do not move. */
    method ApplyPendingClients()
      modifies this`pending, this`clients
      ensures pending == [] && |clients| == |old(clients)| + |old(pending)|
      ensures clients[..|old(clients)|] == old(clients)
      ensures forall k :: 0 <= k < |old(pending)| ==>
                clients[|old(clients)| + k] == NewClient(old(pending)[k].creds, old(pending)[k].activateAt)
    {
      var incoming := pending;
      pending := [];
      ghost var before := clients;
      for k := 0 to |incoming|
        invariant |clients| == |before| + k && clients[..|before|] == before
        invariant forall j :: 0 <= j < k ==> clients[|before| + j] == NewClient(incoming[j].creds, incoming[j].activateAt)
        invariant pending == []
      {
        clients := clients + [NewClient(incoming[k].creds, incoming[k].activateAt)];
      }
    }

    method SuspendClient(slot: nat, kind: Kind)
      requires slot < |clients|
      modifies this`clients, stats, control
      ensures View() == Record(index, old(View()), slot, Suspend(old(clients)[slot], kind))
      ensures control.shutdown == old(control.shutdown)
    {
      var client := clients[slot];
      if client.state == SUSPENDED {
        RecordSame(index, View(), slot);
        return;
      }
      OneAsk(index, slot, Ask(kind, client.creds));
      client := client.(open := false);
      if client.state == ACTIVE {
        stats.active := stats.active - 1;
      }
      client := client.(state := SUSPENDED, refused := false);
      stats.suspended := stats.suspended + 1;
      clients := clients[slot := client];
      control.Push(Request(index, slot, kind, client.creds));
    }

    method ApplyUpdate(u: Update)
      requires u.slot < |clients|
      modifies this`clients, stats
      ensures View() == Record(index, old(View()), u.slot, Apply(cfg, old(clients)[u.slot], u))
    {
      var client := clients[u.slot];
      ghost var o := Apply(cfg, client, u);
      assert o.asks == [];
      assert control.queue + Addressed(index, u.slot, o.asks) == control.queue;
      var wasSuspended := client.state == SUSPENDED;
      if u.failed {
        clients := clients[u.slot := client.(refused := true)];
        return;
      }
      var tokenChanged := u.creds.gameTokenId != client.creds.gameTokenId;
      client := client.(creds := u.creds, refreshRequested := false, refused := false);
      if tokenChanged {
        client := Rebuild(cfg, client);
      }
      if wasSuspended {
        stats.suspended := stats.suspended - 1;
        client := client.(state := WAITING, activateAt := client.creds.udpReadyAt);
      } else if client.state == ACTIVE {
        client := client.(open := false, state := WAITING, activateAt := client.creds.udpReadyAt);
        stats.active := stats.active - 1;
      }
      clients := clients[u.slot := client];
    }

    method ApplyPendingUpdates()
      requires SlotsExist(|clients|, inbox)
      modifies this`inbox, this`clients, stats
      ensures inbox == [] && View() == ApplyAll(cfg, index, old(View()), old(inbox))
    {
      var updates := inbox;
      inbox := [];
      for k := 0 to |updates|
        invariant inbox == [] && |clients| == |old(clients)|
        invariant SlotsExist(|old(clients)|, updates[..k])
        invariant View() == ApplyAll(cfg, index, old(View()), updates[..k])
      {
        assert updates[..k + 1][..k] == updates[..k];
        ApplyUpdate(updates[k]);
      }
      assert updates[..|updates|] == updates;
    }

    /** Place the client on its first activation, resume it on a later one, and re-arm its
        grace window and permission box. */
    method ArmClient(before: Client, w: Wake) returns (client: Client)
      requires cfg.updateHz >= 1
      ensures client == Arm(cfg, before, w)
    {
      client := before;
      if !client.Placed() {
        client := Init(cfg, client, w);
      } else {
        client := client.(body := client.body.(lastMove := w.nowSec), lastSend := w.nowSec, lastCaps := NEVER);
      }
      client := client.(lastRx := w.nowSec, activatedAt := w.now);
      client := client.(perm := client.perm.(center := client.body.chunk, valid := true));
    }

    method ActivateClient(slot: nat, w: Wake)
      requires cfg.updateHz >= 1 && slot < |clients|
      modifies this`clients, stats, control
      ensures View() == Record(index, old(View()), slot, Activate(cfg, old(clients)[slot], w))
      ensures control.shutdown == old(control.shutdown)
    {
      hide Arm, Suspend;
      var client := clients[slot];
      if client.state != WAITING || w.now < client.activateAt || w.now < client.creds.udpReadyAt {
        RecordSame(index, View(), slot);
        return;
      }
      client := ArmClient(client, w);
      ghost var l := View();
      clients := clients[slot := client];
      if !w.socketOk {
        SuspendClient(slot, REASSIGN);
        assert l.clients[slot := client][slot := clients[slot]] == l.clients[slot := clients[slot]];
        return;
      }
      clients := clients[slot := client.(open := true, state := ACTIVE)];
      stats.active := stats.active + 1;
      assert l.clients[slot := client][slot := clients[slot]] == l.clients[slot := clients[slot]];
      assert l.queue + Addressed(index, slot, []) == l.queue;
    }

    method ActivateDueClients(wakes: seq<Wake>)
      requires cfg.updateHz >= 1 && |wakes| == |clients|
      modifies this`clients, stats, control
      ensures View() == ActivateAll(cfg, index, old(View()), wakes)
    {
      for k := 0 to |wakes|
        invariant |clients| == |wakes|
        invariant View() == ActivateAll(cfg, index, old(View()), wakes[..k])
      {
        assert wakes[..k + 1][..k] == wakes[..k];
        ActivateClient(k, wakes[k]);
      }
      assert wakes[..|wakes|] == wakes;
    }

    /** The counters an error code moves, and the box it re-centres. */
    method ClassifyRefusal(slot: nat, code: byte, now: Readings)
      requires slot < |clients|
      modifies this`clients, stats
      ensures var k := Classify(cfg, old(clients)[slot], code, now);
              View() == old(View()).(clients := old(clients)[slot := k.client], tally := AddTally(old(stats.tally), k.tally))
    {
      var client := clients[slot];
      if code == ERR_UNAUTHORIZED {
        stats.tally := stats.tally.(unauthorized := stats.tally.unauthorized + 1);
        if client.activatedAt != 0 && now.first - client.activatedAt < FIRST_CONTACT_GRACE_MS * MS {
          stats.tally := stats.tally.(firstContact := stats.tally.firstContact + 1);
        } else if client.perm.valid {
          var sameEpisode := client.perm.reloadAt != 0 && now.second - client.perm.reloadAt < cfg.permReloadGraceMs * MS;
          if sameEpisode || OutsideBox(cfg, client.body.chunk, client.perm.center) {
            stats.tally := stats.tally.(windowReload := stats.tally.windowReload + 1);
            if !sameEpisode {
              client := client.(perm := client.perm.(center := client.body.chunk, reloadAt := now.second));
            }
          }
        }
      }
      clients := clients[slot := client];
    }

    method HandleError(slot: nat, code: byte, now: Readings)
      requires slot < |clients|
      modifies this`clients, stats, control
      ensures View() == Record(index, old(View()), slot, ErrorCode(cfg, old(clients)[slot], code, now))
      ensures control.shutdown == old(control.shutdown)
    {
      ghost var l := View();
      ghost var k := Classify(cfg, clients[slot], code, now);
      ClassifyRefusal(slot, code, now);
      var client := clients[slot];
      ghost var mid := View();
      if TokenLevel(code) && !client.refreshRequested {
        clients := clients[slot := client.(refreshRequested := true)];
        SuspendClient(slot, REFRESH);
        Rewritten(index, l, slot, k, client.(refreshRequested := true), Suspend(client.(refreshRequested := true), REFRESH));
      } else if code == ERR_UNAUTHORIZED {
        if client.unauthorized + 1 >= 5 * cfg.updateHz {
          clients := clients[slot := client.(unauthorized := 0)];
          SuspendClient(slot, REASSIGN);
          Rewritten(index, l, slot, k, client.(unauthorized := 0), Suspend(client.(unauthorized := 0), REASSIGN));
        } else {
          var counted := client.(unauthorized := client.unauthorized + 1);
          clients := clients[slot := counted];
          RecordQuiet(index, mid.(clients := mid.clients[slot := counted]), slot, counted);
          Rewritten(index, l, slot, k, counted, Quiet(counted));
        }
      } else {
        RecordSame(index, mid, slot);
        Rewritten(index, l, slot, k, client, Quiet(client));
      }
    }

    method HandleMember(slot: nat, m: Bytes, now: Readings)
      requires slot < |clients|
      modifies this`clients, stats, control
      ensures View() == Record(index, old(View()), slot, Member(cfg, old(clients)[slot], m, now))
      ensures control.shutdown == old(control.shutdown)
    {
      var kind := if m == [] then 0 else m[0];
      if kind == GENERIC_ERROR_MESSAGE {
        if |m| >= 3 {
          HandleError(slot, m[2], now);
        } else {
          RecordSame(index, View(), slot);
        }
      } else if kind == COMMAND_RECONNECT {
        SuspendClient(slot, REASSIGN);
      } else {
        RecordSame(index, View(), slot);
      }
    }

    /** Every member is handled, also after one of them has suspended the client. */
    method HandleDatagram(p: Platform, slot: nat, data: Bytes, rx: real, clock: seq<Readings>)
      requires slot < |clients|
      modifies this`clients, stats, control
      ensures View() == Record(index, old(View()), slot, Datagram(p, cfg, old(clients)[slot], data, rx, clock))
    {
      ghost var l := View();
      var token := clients[slot].creds.appToken;
      var heard := clients[slot].(lastRx := rx);
      clients := clients[slot := heard];
      RecordQuiet(index, l, slot, heard);
      if data == [] || (data[0] == Bundle.MESSAGE_BUNDLE_SIGNED && !VerifySignedBundle(p, data, token)) {
        return;
      }
      var members, ok := Bundle.ForEachMessage(data);
      for k := 0 to |members|
        invariant |clients| == |l.clients|
        invariant View() == Record(index, l, slot, Members(cfg, heard, members[..k], clock))
      {
        assert members[..k + 1][..k] == members[..k];
        ghost var before := Members(cfg, heard, members[..k], clock);
        HandleMember(slot, members[k], Reading(clock, k));
        RecordJoin(index, l, slot, before, Member(cfg, before.client, members[k], Reading(clock, k)));
      }
      assert members[..|members|] == members;
    }

    /** The send gate: mark the attempt and ask once for a refresh inside the lead window. */
    method PassSendGate(slot: nat, t: Tick)
      requires cfg.updateHz >= 1 && slot < |clients|
      modifies this`clients, control
      ensures View() == Record(index, old(View()), slot, PassGate(cfg, old(clients)[slot], t))
      ensures control.shutdown == old(control.shutdown)
    {
      var client := clients[slot];
      var interval := 1.0 / cfg.updateHz as real;
      ghost var l := View();
      var next := client.lastSend + interval;
      if t.nowSec - next > interval {
        next := t.nowSec;
      }
      client := client.(lastSend := next, attempts := client.attempts + [t.nowSec]);
      if !client.refreshRequested && t.sysNow + cfg.tokenRefreshLeadSec * SECOND_TICKS >= client.creds.tokenExpiresAt {
        client := client.(refreshRequested := true, refused := false);
        OneAsk(index, slot, Ask(REFRESH, client.creds));
        control.Push(Request(index, slot, REFRESH, client.creds));
      } else {
        RecordQuiet(index, l, slot, client);
      }
      clients := clients[slot := client];
    }

    /** Advertise, move, build, sign and hand the datagram to `send`. */
    method TransmitClient(p: Platform, slot: nat, t: Tick)
      requires slot < |clients|
      modifies this`clients, stats, control
      ensures View() == Record(index, old(View()), slot, Transmit(p, cfg, Advertise(cfg, old(clients)[slot], t.nowSec), t))
      ensures control.shutdown == old(control.shutdown)
    {
      hide UpdateWalk, Built, Stamped, Handed, AddTally;
      ghost var l := View();
      var client := clients[slot];
      if cfg.clientCaps && t.nowSec - client.lastCaps >= cfg.capsIntervalSec as real {
        client := client.(lastCaps := t.nowSec, seqNo := NextSeq(client.seqNo), adverts := client.adverts + 1);
      }
      var body := UpdateWalk(p, cfg, client.body, t.nowSec, t.aim);
      var built := Built(p, cfg, client, body, t.epochMs);
      client := Stamped(client, body, built.buf);
      if !built.ok {
        clients := clients[slot := client];
        RecordQuiet(index, l, slot, client);
        return;
      }
      HandOver(slot, client, t.delivered);
    }

    method HandOver(slot: nat, sending: Client, delivered: bool)
      requires slot < |clients|
      modifies this`clients, stats, control
      ensures View() == Record(index, old(View()), slot, Handed(cfg, sending, delivered))
      ensures control.shutdown == old(control.shutdown)
    {
      ghost var l := View();
      var client := sending;
      if delivered {
        client := client.(sendErrors := 0);
      } else {
        client := client.(sendErrors := client.sendErrors + 1);
        if client.sendErrors >= 3 * cfg.updateHz {
          client := client.(sendErrors := 0);
          clients := clients[slot := client];
          SuspendClient(slot, REASSIGN);
          assert l.clients[slot := client][slot := clients[slot]] == l.clients[slot := clients[slot]];
          return;
        }
      }
      clients := clients[slot := client];
      RecordQuiet(index, l, slot, client);
    }

    method SendDueUpdate(p: Platform, slot: nat, t: Tick)
      requires cfg.updateHz >= 1 && slot < |clients|
      modifies this`clients, stats, control
      ensures View() == Record(index, old(View()), slot, SendDue(p, cfg, old(clients)[slot], t))
      ensures control.shutdown == old(control.shutdown)
    {
      ghost var l := View();
      var client := clients[slot];
      if client.state != ACTIVE {
        RecordSame(index, l, slot);
        return;
      }
      if cfg.rxSilentReassignSec > 0 && t.nowSec - client.lastRx > cfg.rxSilentReassignSec as real {
        SuspendClient(slot, REASSIGN);
        return;
      }
      if t.nowSec - client.lastSend < 1.0 / cfg.updateHz as real {
        RecordSame(index, l, slot);
        return;
      }
      ghost var gate := PassGate(cfg, client, t);
      PassSendGate(slot, t);
      TransmitClient(p, slot, t);
      RecordJoin(index, l, slot, gate, Transmit(p, cfg, Advertise(cfg, gate.client, t.nowSec), t));
    }

    method SendDueUpdates(p: Platform, ticks: seq<Tick>)
      requires cfg.updateHz >= 1 && |ticks| == |clients|
      modifies this`clients, stats, control
      ensures View() == SendAll(p, cfg, index, old(View()), ticks)
    {
      for k := 0 to |ticks|
        invariant |clients| == |ticks|
        invariant View() == SendAll(p, cfg, index, old(View()), ticks[..k])
      {
        assert ticks[..k + 1][..k] == ticks[..k];
        SendDueUpdate(p, k, ticks[k]);
      }
      assert ticks[..|ticks|] == ticks;
    }
  }
}
