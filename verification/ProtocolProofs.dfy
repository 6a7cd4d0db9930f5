/** Every step of every interleaving keeps the protocol invariant. */
module ProtocolProofs {
  import opened Bytes
  import opened Wire
  import opened Settings
  import opened SimClient
  import opened ClientBooks
  import opened Protocol
  import opened ProtocolInvariants

  // ----- Addresses and clients ---------------------------------------------------------

  /** Slots are append-only and keep their account. */
  ghost predicate SameSlots(cs: seq<Client>, ds: seq<Client>) {
    |cs| <= |ds| && forall i :: 0 <= i < |cs| ==> Who(ds[i].creds) == Who(cs[i].creds)
  }

  lemma AddressesOnShard(cfg: Config, s: System, w: nat, sh: Shard)
    requires cfg.updateHz >= 1 && Addresses(cfg, s) && w < |s.shards|
    requires ShardInv(cfg, w, sh) && SameSlots(s.shards[w].clients, sh.clients)
    ensures Addresses(cfg, OnShard(s, w, sh))
  {
    var t := OnShard(s, w, sh);
    forall k | 0 <= k < |t.queue|
      ensures RequestFits(t.shards, t.queue[k])
    {
      assert RequestFits(s.shards, s.queue[k]);
    }
  }

  lemma AppendShardInv(cfg: Config, w: nat, sh: Shard, creds: Creds, at: int)
    requires cfg.updateHz >= 1 && ShardInv(cfg, w, sh) && sh.incoming != [] && !sh.stopped
    ensures ShardInv(cfg, w, sh.(incoming := sh.incoming[1..], clients := sh.clients + [NewClient(creds, at)]))
  {
    NewClientInv(cfg, creds, at, sh.clock);
  }

  lemma PushAddresses(p: Platform, cfg: Config, s: System, w: nat)
    requires cfg.updateHz >= 1 && Addresses(cfg, s) && Enabled(cfg, s, Push(w))
    ensures Addresses(cfg, Next(p, cfg, s, Push(w)))
  {
    var sh := s.shards[w];
    var rest := sh.(outbox := sh.outbox[1..]);
    assert ShardInv(cfg, w, sh);
    AddressesOnShard(cfg, s, w, rest);
    assert RequestFits(s.shards, sh.outbox[0]);
  }

  lemma PostAddresses(p: Platform, cfg: Config, s: System, failed: bool, creds: Creds)
    requires cfg.updateHz >= 1 && Addresses(cfg, s) && Enabled(cfg, s, Post(failed, creds))
    ensures Addresses(cfg, Next(p, cfg, s, Post(failed, creds)))
  {
    var r := s.serving.value;
    var sh := s.shards[r.worker];
    assert ShardInv(cfg, r.worker, sh) && RequestFits(s.shards, r);
    AddressesOnShard(cfg, s, r.worker, sh.(inbox := sh.inbox + [Update(r.slot, failed, creds)]));
  }

  lemma StepSlots(p: Platform, cfg: Config, w: nat, sh: Shard, slot: nat, e: Event)
    requires cfg.updateHz >= 1 && ShardInv(cfg, w, sh) && StepEnabled(cfg, sh, slot, e)
    ensures SameSlots(sh.clients, StepShard(w, sh, slot, e, React(p, cfg, sh.clients[slot], e)).clients)
  {
    hide React, ClientInv;
    AppliesOwn(cfg, w, sh, slot, e);
    ReactBooked(p, cfg, sh.clients[slot], e);
  }

  lemma StepAddresses(p: Platform, cfg: Config, s: System, w: nat, slot: nat, e: Event)
    requires cfg.updateHz >= 1 && Addresses(cfg, s) && Enabled(cfg, s, Step(w, slot, e))
    ensures Addresses(cfg, Next(p, cfg, s, Step(w, slot, e)))
  {
    var sh := s.shards[w];
    assert ShardInv(cfg, w, sh);
    StepShardInv(p, cfg, w, sh, slot, e);
    StepSlots(p, cfg, w, sh, slot, e);
    AddressesOnShard(cfg, s, w, StepShard(w, sh, slot, e, React(p, cfg, sh.clients[slot], e)));
  }

  lemma NextAddresses(p: Platform, cfg: Config, s: System, l: Label)
    requires cfg.updateHz >= 1 && Addresses(cfg, s) && Enabled(cfg, s, l)
    ensures Addresses(cfg, Next(p, cfg, s, l))
  {
    match l
    case Enqueue(w, add) =>
      assert ShardInv(cfg, w, s.shards[w]);
      AddressesOnShard(cfg, s, w, s.shards[w].(pending := s.shards[w].pending + [add]));
    case TakePending(w) =>
      assert ShardInv(cfg, w, s.shards[w]);
      AddressesOnShard(cfg, s, w, s.shards[w].(pending := [], incoming := s.shards[w].pending));
    case Append(w) =>
      var sh := s.shards[w];
      assert ShardInv(cfg, w, sh);
      AppendShardInv(cfg, w, sh, sh.incoming[0].creds, sh.incoming[0].activateAt);
      AddressesOnShard(cfg, s, w, sh.(incoming := sh.incoming[1..],
                                      clients := sh.clients + [NewClient(sh.incoming[0].creds, sh.incoming[0].activateAt)]));
    case TakeInbox(w) =>
      assert ShardInv(cfg, w, s.shards[w]);
      AddressesOnShard(cfg, s, w, s.shards[w].(inbox := [], applying := s.shards[w].inbox));
    case Step(w, slot, e) => StepAddresses(p, cfg, s, w, slot, e);
    case Push(w) => PushAddresses(p, cfg, s, w);
    case Pop =>
    case Post(failed, creds) => PostAddresses(p, cfg, s, failed, creds);
    case StopWorker(w) =>
      assert ShardInv(cfg, w, s.shards[w]);
      AddressesOnShard(cfg, s, w, s.shards[w].(stopped := true));
    case Shutdown =>
    case ExitControl =>
  }

  // ----- Gauges ------------------------------------------------------------------------

  lemma SameClientsSameTotal(s: System, w: nat, sh: Shard, st: State)
    requires w < |s.shards| && sh.clients == s.shards[w].clients
    ensures Total(OnShard(s, w, sh).shards, st) == Total(s.shards, st)
  {
    TotalUpdate(s.shards, w, sh, st);
  }

  lemma StepGauges(p: Platform, cfg: Config, s: System, w: nat, slot: nat, e: Event)
    requires cfg.updateHz >= 1 && GaugesExact(s) && Addresses(cfg, s) && Enabled(cfg, s, Step(w, slot, e))
    ensures GaugesExact(Next(p, cfg, s, Step(w, slot, e)))
  {
    hide React, ClientInv, Possible;
    var sh := s.shards[w];
    AppliesOwn(cfg, w, sh, slot, e);
    var o := React(p, cfg, sh.clients[slot], e);
    var t := StepShard(w, sh, slot, e, o);
    ReactBooked(p, cfg, sh.clients[slot], e);
    CountUpdate(sh.clients, slot, o.client, ACTIVE);
    CountUpdate(sh.clients, slot, o.client, SUSPENDED);
    TotalUpdate(s.shards, w, t, ACTIVE);
    TotalUpdate(s.shards, w, t, SUSPENDED);
  }

  lemma AppendGauges(p: Platform, cfg: Config, s: System, w: nat)
    requires cfg.updateHz >= 1 && GaugesExact(s) && Enabled(cfg, s, Append(w))
    ensures GaugesExact(Next(p, cfg, s, Append(w)))
  {
    var sh := s.shards[w];
    var c := NewClient(sh.incoming[0].creds, sh.incoming[0].activateAt);
    var t := sh.(incoming := sh.incoming[1..], clients := sh.clients + [c]);
    CountAppend(sh.clients, c, ACTIVE);
    CountAppend(sh.clients, c, SUSPENDED);
    TotalUpdate(s.shards, w, t, ACTIVE);
    TotalUpdate(s.shards, w, t, SUSPENDED);
  }

  /** The shard a step other than `Step` and `Append` leaves behind has the same clients. */
  lemma NextGauges(p: Platform, cfg: Config, s: System, l: Label)
    requires cfg.updateHz >= 1 && GaugesExact(s) && Addresses(cfg, s) && Enabled(cfg, s, l)
    ensures GaugesExact(Next(p, cfg, s, l))
  {
    match l
    case Step(w, slot, e) => StepGauges(p, cfg, s, w, slot, e);
    case Append(w) => AppendGauges(p, cfg, s, w);
    case Pop =>
    case Shutdown =>
    case ExitControl =>
    case Post(failed, creds) =>
      var w := s.serving.value.worker;
      SameClientsSameTotal(s, w, Next(p, cfg, s, l).shards[w], ACTIVE);
      SameClientsSameTotal(s, w, Next(p, cfg, s, l).shards[w], SUSPENDED);
    case _ =>
      SameClientsSameTotal(s, l.w, Next(p, cfg, s, l).shards[l.w], ACTIVE);
      SameClientsSameTotal(s, l.w, Next(p, cfg, s, l).shards[l.w], SUSPENDED);
  }

  // ----- No client is lost -------------------------------------------------------------

  lemma AskedSplit(rs: seq<Request>, w: nat, i: nat)
    requires rs != []
    ensures Asked(rs, w, i) <==> (rs[0].worker == w && rs[0].slot == i) || Asked(rs[1..], w, i)
  {
    if Asked(rs, w, i) {
      var k :| 0 <= k < |rs| && rs[k].worker == w && rs[k].slot == i;
      assert k > 0 ==> rs[1..][k - 1] == rs[k];
    }
    if Asked(rs[1..], w, i) {
      var k :| 0 <= k < |rs[1..]| && rs[1..][k].worker == w && rs[1..][k].slot == i;
      assert rs[k + 1] == rs[1..][k];
    }
  }

  lemma AskedAppend(rs: seq<Request>, more: seq<Request>, w: nat, i: nat)
    ensures Asked(rs + more, w, i) <==> Asked(rs, w, i) || Asked(more, w, i)
  {
    var all := rs + more;
    if Asked(rs, w, i) {
      var k :| 0 <= k < |rs| && rs[k].worker == w && rs[k].slot == i;
      assert all[k] == rs[k];
    }
    if Asked(more, w, i) {
      var k :| 0 <= k < |more| && more[k].worker == w && more[k].slot == i;
      assert all[|rs| + k] == more[k];
    }
    if Asked(all, w, i) {
      var k :| 0 <= k < |all| && all[k].worker == w && all[k].slot == i;
      assert k < |rs| ==> rs[k] == all[k];
      assert k >= |rs| ==> more[k - |rs|] == all[k];
    }
  }

  lemma ToldSplit(us: seq<Update>, i: nat)
    requires us != []
    ensures Told(us, i) <==> us[0].slot == i || Told(us[1..], i)
  {
    if Told(us, i) {
      var k :| 0 <= k < |us| && us[k].slot == i;
      assert k > 0 ==> us[1..][k - 1] == us[k];
    }
    if Told(us[1..], i) {
      var k :| 0 <= k < |us[1..]| && us[1..][k].slot == i;
      assert us[k + 1] == us[1..][k];
    }
  }

  lemma ToldAppend(us: seq<Update>, u: Update, i: nat)
    ensures Told(us + [u], i) <==> Told(us, i) || u.slot == i
  {
    var all := us + [u];
    if Told(us, i) {
      var k :| 0 <= k < |us| && us[k].slot == i;
      assert all[k] == us[k];
    }
    if u.slot == i {
      assert all[|us|].slot == i;
    }
    if Told(all, i) {
      var k :| 0 <= k < |all| && all[k].slot == i;
      assert k < |us| ==> us[k] == all[k];
    }
  }

  /** Moving a request or an answer along loses nothing. */
  lemma MoveKeepsFlight(p: Platform, cfg: Config, s: System, l: Label, w: nat, i: nat)
    requires cfg.updateHz >= 1 && Enabled(cfg, s, l) && !l.Step? && w < |s.shards| && InFlight(s, w, i)
    requires l.Push? ==> ShardInv(cfg, l.w, s.shards[l.w])
    ensures |Next(p, cfg, s, l).shards| == |s.shards| && InFlight(Next(p, cfg, s, l), w, i)
  {
    match l
    case Push(v) =>
      var r := s.shards[v].outbox[0];
      AskedSplit(s.shards[v].outbox, w, i);
      AskedAppend(s.queue, [r], w, i);
      assert [r][0] == r;
    case Pop => AskedSplit(s.queue, w, i);
    case Post(failed, creds) =>
      var r := s.serving.value;
      ToldAppend(s.shards[r.worker].inbox, Update(r.slot, failed, creds), i);
    case _ =>
  }

  lemma StepKeepsOthers(p: Platform, cfg: Config, s: System, v: nat, slot: nat, e: Event, w: nat, i: nat)
    requires cfg.updateHz >= 1 && Enabled(cfg, s, Step(v, slot, e)) && w < |s.shards| && InFlight(s, w, i)
    requires e.Answered? ==> w != v || i != slot
    ensures |Next(p, cfg, s, Step(v, slot, e)).shards| == |s.shards|
    ensures InFlight(Next(p, cfg, s, Step(v, slot, e)), w, i)
  {
    var sh := s.shards[v];
    var o := React(p, cfg, sh.clients[slot], e);
    AskedAppend(sh.outbox, Addressed(v, slot, o.asks), w, i);
    if e.Answered? {
      ToldSplit(sh.applying, i);
    }
  }

  lemma StepNoneLost(p: Platform, cfg: Config, s: System, v: nat, slot: nat, e: Event)
    requires cfg.updateHz >= 1 && NoneLost(s) && Addresses(cfg, s) && Enabled(cfg, s, Step(v, slot, e))
    ensures NoneLost(Next(p, cfg, s, Step(v, slot, e)))
  {
    hide React, ClientInv, Possible;
    AppliesOwn(cfg, v, s.shards[v], slot, e);
    var t := Next(p, cfg, s, Step(v, slot, e));
    var c := s.shards[v].clients[slot];
    var o := React(p, cfg, c, e);
    ReactBooked(p, cfg, c, e);
    forall w, i | 0 <= w < |t.shards| && 0 <= i < |t.shards[w].clients| && Owed(t.shards[w].clients[i])
      ensures InFlight(t, w, i) || t.shards[w].clients[i].refused
    {
      if w == v && i == slot {
        if o.asks != [] {
          assert t.shards[v].outbox[|s.shards[v].outbox|] == Addressed(v, slot, o.asks)[0];
        } else if !o.client.refused {
          StepKeepsOthers(p, cfg, s, v, slot, e, w, i);
        }
      } else {
        assert t.shards[w].clients[i] == s.shards[w].clients[i];
        if InFlight(s, w, i) {
          StepKeepsOthers(p, cfg, s, v, slot, e, w, i);
        }
      }
    }
  }

  lemma NextNoneLost(p: Platform, cfg: Config, s: System, l: Label)
    requires cfg.updateHz >= 1 && NoneLost(s) && Addresses(cfg, s) && Enabled(cfg, s, l)
    ensures NoneLost(Next(p, cfg, s, l))
  {
    hide React;
    if l.Step? {
      StepNoneLost(p, cfg, s, l.w, l.slot, l.event);
    } else {
      var t := Next(p, cfg, s, l);
      forall w, i | 0 <= w < |t.shards| && 0 <= i < |t.shards[w].clients| && Owed(t.shards[w].clients[i])
        ensures InFlight(t, w, i) || t.shards[w].clients[i].refused
      {
        assert i < |s.shards[w].clients| && t.shards[w].clients[i] == s.shards[w].clients[i];
        if InFlight(s, w, i) {
          MoveKeepsFlight(p, cfg, s, l, w, i);
        }
      }
    }
  }

  // ----- Order -------------------------------------------------------------------------

  lemma RequestsAppend(answers: seq<Answer>, a: Answer)
    ensures Requests(answers + [a]) == Requests(answers) + [a.request]
  {
    assert (answers + [a])[..|answers|] == answers;
  }

  lemma AnswersForAppend(answers: seq<Answer>, a: Answer, w: nat)
    ensures AnswersFor(answers + [a], w) == AnswersFor(answers, w) + if a.request.worker == w then [a.update] else []
  {
    assert (answers + [a])[..|answers|] == answers;
  }

  lemma PostInOrder(p: Platform, cfg: Config, s: System, failed: bool, creds: Creds)
    requires cfg.updateHz >= 1 && InOrder(s) && Enabled(cfg, s, Post(failed, creds))
    ensures InOrder(Next(p, cfg, s, Post(failed, creds)))
  {
    hide Requests, AnswersFor;
    var r := s.serving.value;
    var a := Answer(r, Update(r.slot, failed, creds));
    var t := Next(p, cfg, s, Post(failed, creds));
    RequestsAppend(s.answered, a);
    assert Requests(s.answered) + [r] + s.queue == Requests(t.answered) + [] + s.queue;
    forall w | 0 <= w < |t.shards|
      ensures AnswersFor(t.answered, w) == t.shards[w].applied + t.shards[w].applying + t.shards[w].inbox
    {
      AnswersForAppend(s.answered, a, w);
    }
  }

  function Logged(sh: Shard): seq<Update> {
    sh.applied + sh.applying + sh.inbox
  }

  /** A step on one shard that keeps what it has been told keeps the order. */
  lemma OnShardInOrder(s: System, w: nat, sh: Shard)
    requires InOrder(s) && w < |s.shards| && Logged(sh) == Logged(s.shards[w])
    ensures InOrder(OnShard(s, w, sh))
  {
    var t := OnShard(s, w, sh);
    forall v | 0 <= v < |t.shards|
      ensures AnswersFor(t.answered, v) == t.shards[v].applied + t.shards[v].applying + t.shards[v].inbox
    {
      assert AnswersFor(s.answered, v) == Logged(s.shards[v]);
    }
  }

  lemma AppliedMoves(sh: Shard)
    requires sh.applying != []
    ensures sh.applied + [sh.applying[0]] + sh.applying[1..] + sh.inbox == Logged(sh)
  {
    assert [sh.applying[0]] + sh.applying[1..] == sh.applying;
  }

  lemma StepInOrder(p: Platform, cfg: Config, s: System, w: nat, slot: nat, e: Event)
    requires cfg.updateHz >= 1 && InOrder(s) && Enabled(cfg, s, Step(w, slot, e))
    ensures InOrder(Next(p, cfg, s, Step(w, slot, e)))
  {
    var sh := s.shards[w];
    var t := StepShard(w, sh, slot, e, React(p, cfg, sh.clients[slot], e));
    if e.Answered? {
      AppliedMoves(sh);
    }
    OnShardInOrder(s, w, t);
    SameQueueInOrder(OnShard(s, w, t), Next(p, cfg, s, Step(w, slot, e)));
  }

  lemma SameQueueInOrder(s: System, t: System)
    requires InOrder(s) && t.shards == s.shards && t.pushed == s.pushed && t.answered == s.answered
    requires t.serving == s.serving && t.queue == s.queue
    ensures InOrder(t)
  {
  }

  lemma PushInOrder(p: Platform, cfg: Config, s: System, w: nat)
    requires cfg.updateHz >= 1 && InOrder(s) && Enabled(cfg, s, Push(w))
    ensures InOrder(Next(p, cfg, s, Push(w)))
  {
    OnShardInOrder(s, w, s.shards[w].(outbox := s.shards[w].outbox[1..]));
    var front := Requests(s.answered) + (if s.serving.Some? then [s.serving.value] else []);
    assert front + s.queue + [s.shards[w].outbox[0]] == front + (s.queue + [s.shards[w].outbox[0]]);
  }

  lemma PopInOrder(p: Platform, cfg: Config, s: System)
    requires cfg.updateHz >= 1 && InOrder(s) && Enabled(cfg, s, Pop)
    ensures InOrder(Next(p, cfg, s, Pop))
  {
    assert [s.queue[0]] + s.queue[1..] == s.queue;
    assert Requests(s.answered) + [] + s.queue == Requests(s.answered) + [s.queue[0]] + s.queue[1..];
  }

  lemma NextInOrder(p: Platform, cfg: Config, s: System, l: Label)
    requires cfg.updateHz >= 1 && InOrder(s) && Enabled(cfg, s, l)
    ensures InOrder(Next(p, cfg, s, l))
  {
    match l
    case Post(failed, creds) => PostInOrder(p, cfg, s, failed, creds);
    case Pop => PopInOrder(p, cfg, s);
    case Push(w) => PushInOrder(p, cfg, s, w);
    case Step(w, slot, e) => StepInOrder(p, cfg, s, w, slot, e);
    case Shutdown => SameQueueInOrder(s, Next(p, cfg, s, l));
    case ExitControl => SameQueueInOrder(s, Next(p, cfg, s, l));
    case _ =>
      OnShardInOrder(s, l.w, Next(p, cfg, s, l).shards[l.w]);
  }

  // ----- Shutdown ----------------------------------------------------------------------

  lemma NextDraining(p: Platform, cfg: Config, s: System, l: Label)
    requires cfg.updateHz >= 1 && Draining(s) && Addresses(cfg, s) && Enabled(cfg, s, l)
    ensures Draining(Next(p, cfg, s, l))
  {
    assert l.Push? ==> ShardInv(cfg, l.w, s.shards[l.w]);
  }

  // ----- Whole runs --------------------------------------------------------------------

  lemma {:induction false} ExecSplit(p: Platform, cfg: Config, s: System, a: seq<Label>, b: seq<Label>)
    requires cfg.updateHz >= 1 && Exec(p, cfg, s, a).Some?
    ensures Exec(p, cfg, s, a + b) == Exec(p, cfg, Exec(p, cfg, s, a).value, b)
    decreases |b|
  {
    hide Next, Enabled;
    if b == [] {
      assert a + b == a;
    } else {
      ExecSplit(p, cfg, s, a, b[..|b| - 1]);
      assert (a + b)[..|a + b| - 1] == a + b[..|b| - 1];
    }
  }

  lemma ExecOne(p: Platform, cfg: Config, s: System, l: Label)
    requires cfg.updateHz >= 1 && Enabled(cfg, s, l)
    ensures Exec(p, cfg, s, [l]) == Some(Next(p, cfg, s, l))
  {
    hide Next, Enabled;
    assert [l][..0] == [];
    assert Exec(p, cfg, s, []) == Some(s);
  }

  lemma NextInv(p: Platform, cfg: Config, s: System, l: Label)
    requires cfg.updateHz >= 1 && Inv(cfg, s) && Enabled(cfg, s, l)
    ensures Inv(cfg, Next(p, cfg, s, l))
  {
    hide React, NoneLost, InOrder;
    NextAddresses(p, cfg, s, l);
    NextGauges(p, cfg, s, l);
    NextNoneLost(p, cfg, s, l);
    NextInOrder(p, cfg, s, l);
    NextDraining(p, cfg, s, l);
    if l.Step? {
      assert ShardInv(cfg, l.w, s.shards[l.w]);
      AppliesOwn(cfg, l.w, s.shards[l.w], l.slot, l.event);
      ClientStepInv(p, cfg, s.shards[l.w].clients[l.slot], l.event, s.shards[l.w].clock);
    }
  }

  /** Every reachable state satisfies the invariant. */
  lemma {:induction false} RunInv(p: Platform, cfg: Config, s: System, run: seq<Label>)
    requires cfg.updateHz >= 1 && Initial(cfg, s) && Exec(p, cfg, s, run).Some?
    ensures Inv(cfg, Exec(p, cfg, s, run).value)
    decreases |run|
  {
    if run == [] {
      InitialInv(cfg, s);
    } else {
      RunInv(p, cfg, s, run[..|run| - 1]);
      NextInv(p, cfg, Exec(p, cfg, s, run[..|run| - 1]).value, run[|run| - 1]);
    }
  }
}
