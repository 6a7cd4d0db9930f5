/** What the invariant means for whole runs, in the terms of the harness. */
module ProtocolTheorems {
  import opened Bytes
  import opened Wire
  import opened Settings
  import opened SimClient
  import opened ClientInvariants
  import opened Protocol
  import opened ProtocolInvariants
  import opened ProtocolProofs
  import Pacing

  lemma RunClientInv(p: Platform, cfg: Config, s: System, run: seq<Label>, w: nat, i: nat)
    requires cfg.updateHz >= 1 && Initial(cfg, s) && Exec(p, cfg, s, run).Some?
    requires var t := Exec(p, cfg, s, run).value; w < |t.shards| && i < |t.shards[w].clients|
    ensures var sh := Exec(p, cfg, s, run).value.shards[w]; ClientInv(cfg, sh.clients[i], sh.clock)
  {
    RunInv(p, cfg, s, run);
    var sh := Exec(p, cfg, s, run).value.shards[w];
    assert ShardInv(cfg, w, sh);
  }

  /** No client is lost: after any run, a suspended client has a request or an answer of its
      own still in flight, or has been refused since it was suspended. */
  lemma NoClientIsLost(p: Platform, cfg: Config, s: System, run: seq<Label>, w: nat, i: nat)
    requires cfg.updateHz >= 1 && Initial(cfg, s) && Exec(p, cfg, s, run).Some?
    requires var t := Exec(p, cfg, s, run).value; w < |t.shards| && i < |t.shards[w].clients|
    ensures var t := Exec(p, cfg, s, run).value;
            t.shards[w].clients[i].state == SUSPENDED ==> InFlight(t, w, i) || t.shards[w].clients[i].refused
  {
    RunInv(p, cfg, s, run);
  }

  /** The same for a client that keeps running while it waits for a proactive refresh. */
  lemma RefreshIsInFlightOrRefused(p: Platform, cfg: Config, s: System, run: seq<Label>, w: nat, i: nat)
    requires cfg.updateHz >= 1 && Initial(cfg, s) && Exec(p, cfg, s, run).Some?
    requires var t := Exec(p, cfg, s, run).value; w < |t.shards| && i < |t.shards[w].clients|
    ensures var t := Exec(p, cfg, s, run).value;
            t.shards[w].clients[i].refreshRequested ==> InFlight(t, w, i) || t.shards[w].clients[i].refused
  {
    RunInv(p, cfg, s, run);
  }

  /** After any run the gauges count the clients, and a socket is open exactly for ACTIVE. */
  lemma GaugesCountClients(p: Platform, cfg: Config, s: System, run: seq<Label>)
    requires cfg.updateHz >= 1 && Initial(cfg, s) && Exec(p, cfg, s, run).Some?
    ensures var t := Exec(p, cfg, s, run).value;
            && t.active == Total(t.shards, ACTIVE) && t.suspended == Total(t.shards, SUSPENDED)
            && (forall w, i :: 0 <= w < |t.shards| && 0 <= i < |t.shards[w].clients| ==>
                  (t.shards[w].clients[i].open <==> t.shards[w].clients[i].state == ACTIVE))
  {
    RunInv(p, cfg, s, run);
    var t := Exec(p, cfg, s, run).value;
    forall w, i | 0 <= w < |t.shards| && 0 <= i < |t.shards[w].clients|
      ensures t.shards[w].clients[i].open <==> t.shards[w].clients[i].state == ACTIVE
    {
      assert ShardInv(cfg, w, t.shards[w]);
      assert ClientInv(cfg, t.shards[w].clients[i], t.shards[w].clock);
    }
  }

  /** Each pushed request is answered at most once, in the order pushed, by an update for its
      own slot; each worker applies its answers at most once, in that order; and when the
      control thread has left after a shutdown every request has been answered. */
  lemma AnsweredOnceInOrder(p: Platform, cfg: Config, s: System, run: seq<Label>)
    requires cfg.updateHz >= 1 && Initial(cfg, s) && Exec(p, cfg, s, run).Some?
    ensures var t := Exec(p, cfg, s, run).value;
            && Requests(t.answered) <= t.pushed
            && (forall k :: 0 <= k < |t.answered| ==> Matches(t.answered[k]))
            && (forall w :: 0 <= w < |t.shards| ==> t.shards[w].applied <= AnswersFor(t.answered, w))
            && (t.exited ==> Requests(t.answered) == t.pushed)
            && (t.exited ==> forall w :: 0 <= w < |t.shards| ==> t.shards[w].outbox == [])
  {
    RunInv(p, cfg, s, run);
    var t := Exec(p, cfg, s, run).value;
    if t.exited {
      assert Requests(t.answered) + [] + [] == Requests(t.answered);
      forall w | 0 <= w < |t.shards|
        ensures t.shards[w].outbox == []
      {
        assert ShardInv(cfg, w, t.shards[w]);
      }
    }
  }

  /** Every request and update in flight for a slot carries the account of the client there. */
  lemma InFlightCarriesIdentity(p: Platform, cfg: Config, s: System, run: seq<Label>)
    requires cfg.updateHz >= 1 && Initial(cfg, s) && Exec(p, cfg, s, run).Some?
    ensures var t := Exec(p, cfg, s, run).value;
            && (forall k :: 0 <= k < |t.queue| ==> RequestFits(t.shards, t.queue[k]))
            && (t.serving.Some? ==> RequestFits(t.shards, t.serving.value))
            && (forall w :: 0 <= w < |t.shards| ==>
                  UpdatesFit(t.shards[w].clients, t.shards[w].inbox) && UpdatesFit(t.shards[w].clients, t.shards[w].applying))
  {
    RunInv(p, cfg, s, run);
    var t := Exec(p, cfg, s, run).value;
    forall w | 0 <= w < |t.shards|
      ensures UpdatesFit(t.shards[w].clients, t.shards[w].inbox) && UpdatesFit(t.shards[w].clients, t.shards[w].applying)
    {
      assert ShardInv(cfg, w, t.shards[w]);
    }
  }

  ghost predicate SystemSlots(s: System, t: System) {
    |s.shards| == |t.shards| && forall w :: 0 <= w < |s.shards| ==> SameSlots(s.shards[w].clients, t.shards[w].clients)
  }

  lemma NextKeepsSlots(p: Platform, cfg: Config, s: System, l: Label)
    requires cfg.updateHz >= 1 && Addresses(cfg, s) && Enabled(cfg, s, l)
    ensures SystemSlots(s, Next(p, cfg, s, l))
  {
    hide React, ClientInv;
    if l.Step? {
      assert ShardInv(cfg, l.w, s.shards[l.w]);
      StepSlots(p, cfg, l.w, s.shards[l.w], l.slot, l.event);
    }
  }

  lemma {:induction false} RunKeepsSlots(p: Platform, cfg: Config, s: System, run: seq<Label>)
    requires cfg.updateHz >= 1 && Inv(cfg, s) && Exec(p, cfg, s, run).Some?
    ensures SystemSlots(s, Exec(p, cfg, s, run).value) && Inv(cfg, Exec(p, cfg, s, run).value)
    decreases |run|
  {
    hide React, ClientInv, Inv;
    if run != [] {
      var before := run[..|run| - 1];
      RunKeepsSlots(p, cfg, s, before);
      var u := Exec(p, cfg, s, before).value;
      var t := Exec(p, cfg, s, run).value;
      NextInv(p, cfg, u, run[|run| - 1]);
      InvAddresses(cfg, u);
      NextKeepsSlots(p, cfg, u, run[|run| - 1]);
      SlotsChain(s, u, t);
    }
  }

  lemma InvAddresses(cfg: Config, s: System)
    requires cfg.updateHz >= 1 && Inv(cfg, s)
    ensures Addresses(cfg, s)
  {
  }

  lemma SlotsChain(s: System, u: System, t: System)
    requires SystemSlots(s, u) && SystemSlots(u, t)
    ensures SystemSlots(s, t)
  {
    forall w | 0 <= w < |s.shards|
      ensures SameSlots(s.shards[w].clients, t.shards[w].clients)
    {
      assert SameSlots(s.shards[w].clients, u.shards[w].clients);
      assert SameSlots(u.shards[w].clients, t.shards[w].clients);
    }
  }

  /** However refreshes, reassignments and hot-adds interleave, the client of a slot keeps its
      slot and its account from any moment of a run to any later one.  Nothing in the worker
      tests what it applies: that every answer fits is the invariant's doing. */
  lemma IdentityNeverChanges(p: Platform, cfg: Config, s: System, run: seq<Label>, more: seq<Label>)
    requires cfg.updateHz >= 1 && Initial(cfg, s) && Exec(p, cfg, s, run).Some?
    requires Exec(p, cfg, Exec(p, cfg, s, run).value, more).Some?
    ensures var now := Exec(p, cfg, s, run).value; SystemSlots(now, Exec(p, cfg, now, more).value)
  {
    RunInv(p, cfg, s, run);
    RunKeepsSlots(p, cfg, Exec(p, cfg, s, run).value, more);
  }

  /** In a cube no wider than the permission radius no run of the whole system ever counts a
      window reload. */
  lemma NarrowCubeNeverReloads(p: Platform, cfg: Config, s: System, run: seq<Label>)
    requires cfg.updateHz >= 1 && Initial(cfg, s) && Exec(p, cfg, s, run).Some? && NarrowCube(cfg)
    ensures Exec(p, cfg, s, run).value.tally.windowReload == 0
  {
    RunInv(p, cfg, s, run);
  }

  lemma PacedBound(cfg: Config, c: Client, clock: real, from: real, window: real, j: nat, k: nat)
    requires cfg.updateHz >= 1 && Paced(cfg, c, clock)
    requires j <= k < |c.attempts| && from <= c.attempts[j] && c.attempts[k] <= from + window
    ensures (k - j + 1) as real <= window * cfg.updateHz as real + 2.0
  {
    Pacing.BurstBound(cfg.updateHz, c.attempts, c.lastSend, clock, from, window, j, k);
  }

  /** After any run, stalls and re-activations included, any window of length W holds at most
      W * updateHz + 2 send attempts of one client. */
  lemma NoBurst(p: Platform, cfg: Config, s: System, run: seq<Label>, w: nat, i: nat, from: real, window: real, j: nat, k: nat)
    requires cfg.updateHz >= 1 && Initial(cfg, s) && Exec(p, cfg, s, run).Some?
    requires var t := Exec(p, cfg, s, run).value; w < |t.shards| && i < |t.shards[w].clients|
    requires var made := Exec(p, cfg, s, run).value.shards[w].clients[i].attempts;
             j <= k < |made| && from <= made[j] && made[k] <= from + window
    ensures (k - j + 1) as real <= window * cfg.updateHz as real + 2.0
  {
    RunClientInv(p, cfg, s, run, w, i);
    var sh := Exec(p, cfg, s, run).value.shards[w];
    PacedBound(cfg, sh.clients[i], sh.clock, from, window, j, k);
  }

  /** Whatever happened before, every actor update a worker sends is the pure encoding of the
      client's own account, token, chunk, pose and sequence number, and it verifies. */
  lemma EverySendIsTheEncoding(p: Platform, cfg: Config, s: System, run: seq<Label>, w: nat, i: nat, t: Tick, message: Bytes)
    requires cfg.updateHz >= 1 && Initial(cfg, s) && Exec(p, cfg, s, run).Some?
    requires var u := Exec(p, cfg, s, run).value; w < |u.shards| && i < |u.shards[w].clients|
    requires message in SendDue(p, cfg, Exec(p, cfg, s, run).value.shards[w].clients[i], t).sent
    ensures var c := Exec(p, cfg, s, run).value.shards[w].clients[i];
            IsEncoding(p, cfg, AtSend(cfg, c, t), SendDue(p, cfg, c, t).client, t.epochMs, message)
  {
    RunClientInv(p, cfg, s, run, w, i);
    var sh := Exec(p, cfg, s, run).value.shards[w];
    SendDueEncodes(p, cfg, sh.clients[i], t);
  }
}
