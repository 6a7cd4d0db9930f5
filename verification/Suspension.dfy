/** What a failed answer leaves behind, over whole runs: when a suspended client can still come
    back, and a run in which a failed answer finds its client running. */
module Suspension {
  import opened Bytes
  import opened Wire
  import opened Settings
  import opened Motion
  import opened SimClient
  import opened ClientInvariants
  import opened ClientHistory
  import opened Protocol
  import opened ProtocolInvariants
  import opened ProtocolProofs
  import Pacing

  ghost predicate IsSuspended(s: System, w: nat, i: nat) {
    w < |s.shards| && i < |s.shards[w].clients| && s.shards[w].clients[i].state == SUSPENDED
  }

  /** One of these answers is a success for the client. */
  ghost predicate Saved(us: seq<Update>, i: nat) {
    exists k :: 0 <= k < |us| && us[k].slot == i && !us[k].failed
  }

  /** The client's worker has stopped, or nothing of its own is still to be answered and every
      answer under way to it has failed. */
  ghost predicate Doomed(s: System, w: nat, i: nat)
    requires w < |s.shards|
  {
    || s.shards[w].stopped
    || (&& !Asked(s.shards[w].outbox, w, i) && !Asked(s.queue, w, i)
        && !(s.serving.Some? && s.serving.value.worker == w && s.serving.value.slot == i)
        && !Saved(s.shards[w].inbox, i) && !Saved(s.shards[w].applying, i))
  }

  // ----- A doomed client stays suspended -----------------------------------------------

  lemma SuspendedIsQuiet(p: Platform, cfg: Config, c: Client, e: Event)
    requires cfg.updateHz >= 1 && c.state == SUSPENDED && Possible(cfg, c, e) && (e.Answered? ==> e.update.failed)
    ensures React(p, cfg, c, e).client.state == SUSPENDED && React(p, cfg, c, e).asks == []
  {
  }

  lemma SavedSplit(us: seq<Update>, i: nat)
    requires us != []
    ensures Saved(us, i) <==> (us[0].slot == i && !us[0].failed) || Saved(us[1..], i)
  {
    if Saved(us, i) {
      var k :| 0 <= k < |us| && us[k].slot == i && !us[k].failed;
      assert k > 0 ==> us[1..][k - 1] == us[k];
    }
    if Saved(us[1..], i) {
      var k :| 0 <= k < |us[1..]| && us[1..][k].slot == i && !us[1..][k].failed;
      assert us[k + 1] == us[1..][k];
    }
  }

  lemma SavedAppend(us: seq<Update>, u: Update, i: nat)
    ensures Saved(us + [u], i) <==> Saved(us, i) || (u.slot == i && !u.failed)
  {
    var all := us + [u];
    if Saved(us, i) {
      var k :| 0 <= k < |us| && us[k].slot == i && !us[k].failed;
      assert all[k] == us[k];
    }
    assert all[|us|] == u;
    if Saved(all, i) {
      var k :| 0 <= k < |all| && all[k].slot == i && !all[k].failed;
      assert k < |us| ==> us[k] == all[k];
    }
  }

  lemma StepKeepsDoom(p: Platform, cfg: Config, s: System, v: nat, slot: nat, e: Event, w: nat, i: nat)
    requires cfg.updateHz >= 1 && Enabled(cfg, s, Step(v, slot, e)) && IsSuspended(s, w, i) && Doomed(s, w, i)
    ensures var t := Next(p, cfg, s, Step(v, slot, e)); IsSuspended(t, w, i) && Doomed(t, w, i)
  {
    hide React, Possible;
    var sh := s.shards[v];
    var o := React(p, cfg, sh.clients[slot], e);
    if v == w {
      if e.Answered? {
        SavedSplit(sh.applying, i);
      }
      if slot == i {
        SuspendedIsQuiet(p, cfg, sh.clients[i], e);
      }
      assert [] + Addressed(w, slot, o.asks) == Addressed(w, slot, o.asks);
    }
  }

  lemma PushKeepsDoom(p: Platform, cfg: Config, s: System, v: nat, w: nat, i: nat)
    requires cfg.updateHz >= 1 && Inv(cfg, s) && Enabled(cfg, s, Push(v)) && IsSuspended(s, w, i) && Doomed(s, w, i)
    ensures IsSuspended(Next(p, cfg, s, Push(v)), w, i) && Doomed(Next(p, cfg, s, Push(v)), w, i)
  {
    hide ClientInv, Asked, Saved, GaugesExact, NoneLost, ProtocolInvariants.InOrder;
    assert ShardInv(cfg, v, s.shards[v]);
    var r := s.shards[v].outbox[0];
    AskedSplit(s.shards[v].outbox, w, i);
    AskedAppend(s.queue, [r], w, i);
    AskedOne(r, w, i);
  }

  lemma AskedOne(r: Request, w: nat, i: nat)
    ensures Asked([r], w, i) <==> r.worker == w && r.slot == i
  {
    assert [r][0] == r;
  }

  lemma PostKeepsDoom(p: Platform, cfg: Config, s: System, failed: bool, creds: Creds, w: nat, i: nat)
    requires cfg.updateHz >= 1 && Enabled(cfg, s, Post(failed, creds)) && IsSuspended(s, w, i) && Doomed(s, w, i)
    ensures var t := Next(p, cfg, s, Post(failed, creds)); IsSuspended(t, w, i) && Doomed(t, w, i)
  {
    hide Asked, Saved;
    var r := s.serving.value;
    SavedAppend(s.shards[r.worker].inbox, Update(r.slot, failed, creds), i);
  }

  lemma MoveKeepsDoom(p: Platform, cfg: Config, s: System, l: Label, w: nat, i: nat)
    requires cfg.updateHz >= 1 && Inv(cfg, s) && Enabled(cfg, s, l) && !l.Step?
    requires IsSuspended(s, w, i) && Doomed(s, w, i)
    ensures IsSuspended(Next(p, cfg, s, l), w, i) && Doomed(Next(p, cfg, s, l), w, i)
  {
    match l
    case Push(v) =>
      hide Next, Enabled, Inv, Doomed;
      PushKeepsDoom(p, cfg, s, v, w, i);
    case Pop =>
      hide Inv, Asked;
      AskedSplit(s.queue, w, i);
    case Post(failed, creds) =>
      hide Next, Enabled, Inv, Doomed;
      PostKeepsDoom(p, cfg, s, failed, creds, w, i);
    case TakeInbox(v) =>
      hide Inv, Asked;
      NothingSaved(i);
    case _ =>
      hide Inv, Asked, Saved;
  }

  lemma NothingSaved(i: nat)
    ensures !Saved([], i)
  {
  }

  lemma {:induction false} DoomedStaysSuspended(p: Platform, cfg: Config, s: System, run: seq<Label>, w: nat, i: nat)
    requires cfg.updateHz >= 1 && Inv(cfg, s) && IsSuspended(s, w, i) && Doomed(s, w, i) && Exec(p, cfg, s, run).Some?
    ensures var t := Exec(p, cfg, s, run).value; Inv(cfg, t) && IsSuspended(t, w, i) && Doomed(t, w, i)
    decreases |run|
  {
    if run != [] {
      hide Inv, Next, Enabled, IsSuspended, Doomed;
      var before, l := run[..|run| - 1], run[|run| - 1];
      DoomedStaysSuspended(p, cfg, s, before, w, i);
      var u := Exec(p, cfg, s, before).value;
      NextInv(p, cfg, u, l);
      NextKeepsDoom(p, cfg, u, l, w, i);
    }
  }

  lemma NextKeepsDoom(p: Platform, cfg: Config, s: System, l: Label, w: nat, i: nat)
    requires cfg.updateHz >= 1 && Inv(cfg, s) && Enabled(cfg, s, l) && IsSuspended(s, w, i)
    requires IsSuspended(s, w, i) ==> Doomed(s, w, i)
    ensures IsSuspended(Next(p, cfg, s, l), w, i) && Doomed(Next(p, cfg, s, l), w, i)
  {
    hide Inv, React;
    if l.Step? {
      StepKeepsDoom(p, cfg, s, l.w, l.slot, l.event, w, i);
    } else {
      MoveKeepsDoom(p, cfg, s, l, w, i);
    }
  }

  // ----- Any other suspended client can come back --------------------------------------

  /** What is still on its way to the client, farther things weighing more. */
  function Distance(s: System, w: nat): nat
    requires w < |s.shards|
  {
    5 * |s.shards[w].outbox| + 4 * |s.queue| + (if s.serving.Some? then 3 else 0) + 2 * |s.shards[w].inbox| + |s.shards[w].applying|
  }

  /** The next move towards an answer: push, apply, take the inbox, post a success, or pop. */
  function Towards(s: System, w: nat): Label
    requires w < |s.shards|
  {
    var sh := s.shards[w];
    if sh.outbox != [] then Push(w)
    else if sh.applying != [] then Step(w, sh.applying[0].slot, Answered(sh.applying[0]))
    else if sh.inbox != [] then TakeInbox(w)
    else if s.serving.Some? then Post(false, s.serving.value.creds)
    else Pop
  }

  lemma TowardsEnabled(cfg: Config, s: System, w: nat, i: nat)
    requires cfg.updateHz >= 1 && Inv(cfg, s) && IsSuspended(s, w, i) && !Doomed(s, w, i)
    ensures Enabled(cfg, s, Towards(s, w))
  {
    hide ClientInv;
    assert ShardInv(cfg, w, s.shards[w]);
    var sh := s.shards[w];
    if sh.outbox == [] && sh.applying != [] {
      assert Fits(sh.clients, sh.applying[0].slot, sh.applying[0].creds);
    }
  }

  lemma ApplyingTowards(p: Platform, cfg: Config, s: System, w: nat, i: nat)
    requires cfg.updateHz >= 1 && IsSuspended(s, w, i) && !Doomed(s, w, i)
    requires s.shards[w].outbox == [] && s.shards[w].applying != [] && Enabled(cfg, s, Towards(s, w))
    ensures var t := Next(p, cfg, s, Towards(s, w));
            && |t.shards| == |s.shards| && Distance(t, w) < Distance(s, w)
            && (IsSuspended(t, w, i) ==> !Doomed(t, w, i)) && i < |t.shards[w].clients|
  {
    var sh := s.shards[w];
    var u := sh.applying[0];
    SavedSplit(sh.applying, i);
    assert React(p, cfg, sh.clients[u.slot], Answered(u)).asks == [];
  }

  lemma MovesTowards(p: Platform, cfg: Config, s: System, w: nat, i: nat)
    requires cfg.updateHz >= 1 && IsSuspended(s, w, i) && !Doomed(s, w, i) && Enabled(cfg, s, Towards(s, w))
    requires s.shards[w].outbox != [] || s.shards[w].applying == []
    ensures var t := Next(p, cfg, s, Towards(s, w));
            |t.shards| == |s.shards| && Distance(t, w) < Distance(s, w) && IsSuspended(t, w, i) && !Doomed(t, w, i)
  {
    var sh := s.shards[w];
    if sh.outbox != [] {
      AskedSplit(sh.outbox, w, i);
      AskedAppend(s.queue, [sh.outbox[0]], w, i);
      assert [sh.outbox[0]][0] == sh.outbox[0];
    } else if sh.inbox == [] && s.serving.Some? {
      var r := s.serving.value;
      SavedAppend(s.shards[r.worker].inbox, Update(r.slot, false, r.creds), i);
    } else if sh.inbox == [] {
      AskedSplit(s.queue, w, i);
    }
  }

  ghost predicate Resumed(s: System, w: nat, i: nat) {
    w < |s.shards| && i < |s.shards[w].clients| && s.shards[w].clients[i].state != SUSPENDED
  }

  lemma OneMoveTowards(p: Platform, cfg: Config, s: System, w: nat, i: nat)
    requires cfg.updateHz >= 1 && Inv(cfg, s) && IsSuspended(s, w, i) && !Doomed(s, w, i)
    ensures Enabled(cfg, s, Towards(s, w)) && Inv(cfg, Next(p, cfg, s, Towards(s, w)))
    ensures var t := Next(p, cfg, s, Towards(s, w));
            && |t.shards| == |s.shards| && Distance(t, w) < Distance(s, w)
            && (Resumed(t, w, i) || (IsSuspended(t, w, i) && !Doomed(t, w, i)))
  {
    hide Inv, Next, Enabled, Doomed, Towards, Distance;
    TowardsEnabled(cfg, s, w, i);
    NextInv(p, cfg, s, Towards(s, w));
    if s.shards[w].outbox == [] && s.shards[w].applying != [] {
      ApplyingTowards(p, cfg, s, w, i);
    } else {
      MovesTowards(p, cfg, s, w, i);
    }
  }

  lemma {:induction false} CanResume(p: Platform, cfg: Config, s: System, w: nat, i: nat)
    requires cfg.updateHz >= 1 && Inv(cfg, s) && IsSuspended(s, w, i) && !Doomed(s, w, i)
    ensures exists run :: Exec(p, cfg, s, run).Some? && Resumed(Exec(p, cfg, s, run).value, w, i)
    decreases Distance(s, w)
  {
    hide Inv, Next, Enabled, Doomed, Towards, Resumed, Distance, Exec;
    var l := Towards(s, w);
    OneMoveTowards(p, cfg, s, w, i);
    var t := Next(p, cfg, s, l);
    ExecOne(p, cfg, s, l);
    if !Resumed(t, w, i) {
      CanResume(p, cfg, t, w, i);
      var rest :| Exec(p, cfg, t, rest).Some? && Resumed(Exec(p, cfg, t, rest).value, w, i);
      ExecSplit(p, cfg, s, [l], rest);
    }
  }

  /** Whatever the rest of the run, the client is still suspended after it. */
  ghost predicate StaysSuspended(p: Platform, cfg: Config, s: System, w: nat, i: nat)
    requires cfg.updateHz >= 1
  {
    forall more :: Exec(p, cfg, s, more).Some? ==> IsSuspended(Exec(p, cfg, s, more).value, w, i)
  }

  /** In every reachable state, a suspended client is suspended for good, whatever happens
      next, if and only if its worker has stopped, or no request of its own is left in the
      outbox, in the queue or being served and every answer under way to it has failed. */
  lemma SuspendedForGoodIff(p: Platform, cfg: Config, s: System, run: seq<Label>, w: nat, i: nat)
    requires cfg.updateHz >= 1 && Initial(cfg, s) && Exec(p, cfg, s, run).Some?
    requires IsSuspended(Exec(p, cfg, s, run).value, w, i)
    ensures StaysSuspended(p, cfg, Exec(p, cfg, s, run).value, w, i) <==> Doomed(Exec(p, cfg, s, run).value, w, i)
  {
    RunInv(p, cfg, s, run);
    hide Inv, Doomed, Exec;
    var now := Exec(p, cfg, s, run).value;
    if Doomed(now, w, i) {
      forall more | Exec(p, cfg, now, more).Some?
        ensures IsSuspended(Exec(p, cfg, now, more).value, w, i)
      {
        DoomedStaysSuspended(p, cfg, now, more, w, i);
      }
    } else {
      CanResume(p, cfg, now, w, i);
    }
  }

  // ----- A failed answer to a running client -------------------------------------------

  const ASK := Request(0, 0, REFRESH, FIRST)
  const REFUSAL := Update(0, true, FIRST)

  /** A tick at which the token is about to expire. */
  function Expiring(cfg: Config, t: real): Tick {
    Tick(t, -cfg.tokenRefreshLeadSec * SECOND_TICKS, 0.0, AHEAD, true)
  }

  lemma AsksWhileRunning(p: Platform, cfg: Config, c: Client, t: real)
    requires cfg.updateHz >= 1 && c.state == ACTIVE && !c.refreshRequested && c.creds == FIRST && c.lastRx == t
    requires c.lastSend == t - Pacing.Interval(cfg.updateHz)
    ensures var o := SendDue(p, cfg, c, Expiring(cfg, t));
            o.client.state == ACTIVE && o.asks == [Ask(REFRESH, FIRST)]
  {
    hide Transmit, Pacing.Interval;
    var ready := AtSend(cfg, c, Expiring(cfg, t));
    DeliveredKeeps(p, cfg, ready, Expiring(cfg, t));
    assert [Ask(REFRESH, FIRST)] + [] == [Ask(REFRESH, FIRST)];
  }

  lemma DeliveredKeeps(p: Platform, cfg: Config, c: Client, t: Tick)
    requires t.delivered
    ensures Transmit(p, cfg, c, t).client.state == c.state && Transmit(p, cfg, c, t).asks == []
  {
    hide UpdateWalk, Built;
  }

  /** The first worker and the control thread, as far as this run goes. */
  ghost predicate Sees(s: System, sh: Shard, queue: seq<Request>, serving: Option<Request>) {
    |s.shards| >= 1 && s.shards[0] == sh && s.queue == queue && s.serving == serving && !s.exited
  }

  lemma OneLabelMore(p: Platform, cfg: Config, s: System, run: seq<Label>, u: System, l: Label)
    requires cfg.updateHz >= 1 && Exec(p, cfg, s, run) == Some(u) && Enabled(cfg, u, l)
    ensures Exec(p, cfg, s, run + [l]) == Some(Next(p, cfg, u, l))
  {
    hide Enabled, Next;
    assert (run + [l])[..|run|] == run;
  }

  /** A client is added, wakes, and asks for a refresh while it runs. */
  function Departure(cfg: Config, t: real): seq<Label> {
    [Enqueue(0, PendingAdd(FIRST, 0)), TakePending(0), Append(0), Step(0, 0, Woken(PromptWake(0, t))),
     Step(0, 0, Ticked(Expiring(cfg, t)))]
  }

  /** The refresh is pushed, served in vain, and its failure applied. */
  const RETURN := [Push(0), Pop, Post(true, FIRST), TakeInbox(0), Step(0, 0, Answered(REFUSAL))]

  lemma StepSees(p: Platform, cfg: Config, s: System, sh: Shard, e: Event)
    requires cfg.updateHz >= 1 && Sees(s, sh, [], None) && !sh.stopped && sh.outbox == [] && |sh.clients| == 1
    requires StepEnabled(cfg, sh, 0, e)
    ensures Enabled(cfg, s, Step(0, 0, e))
    ensures Sees(Next(p, cfg, s, Step(0, 0, e)), StepShard(0, sh, 0, e, React(p, cfg, sh.clients[0], e)), [], None)
  {
    hide React, Possible;
  }

  lemma ClientAdded(p: Platform, cfg: Config, s: System, t: real)
    requires cfg.updateHz >= 1 && Sees(s, EmptyShard(t), [], None)
    ensures var u := Exec(p, cfg, s, Departure(cfg, t)[..3]);
            u.Some? && Sees(u.value, EmptyShard(t).(clients := [NewClient(FIRST, 0)]), [], None)
  {
    hide Exec;
    var add := PendingAdd(FIRST, 0);
    var l0, l1, l2 := Enqueue(0, add), TakePending(0), Append(0);
    Unmoved(p, cfg, s);
    OneLabelMore(p, cfg, s, [], s, l0);
    var s1 := Next(p, cfg, s, l0);
    assert [] + [add] == [add];
    OneLabelMore(p, cfg, s, [] + [l0], s1, l1);
    var s2 := Next(p, cfg, s1, l1);
    OneLabelMore(p, cfg, s, [] + [l0] + [l1], s2, l2);
    assert [] + [NewClient(FIRST, 0)] == [NewClient(FIRST, 0)];
    assert [] + [l0] + [l1] + [l2] == Departure(cfg, t)[..3];
  }

  lemma Unmoved(p: Platform, cfg: Config, s: System)
    requires cfg.updateHz >= 1
    ensures Exec(p, cfg, s, []) == Some(s)
  {
  }

  lemma Departed(p: Platform, cfg: Config, s: System, t: real)
    requires cfg.updateHz >= 1 && Sees(s, EmptyShard(t), [], None)
    ensures var u := Exec(p, cfg, s, Departure(cfg, t));
            && u.Some? && |u.value.shards| >= 1 && |u.value.shards[0].clients| == 1
            && u.value.shards[0].clients[0].state == ACTIVE
            && Sees(u.value, EmptyShard(t).(clients := u.value.shards[0].clients, outbox := [ASK]), [], None)
  {
    hide Exec, Next, Enabled, Activate, SendDue, ValidWake;
    var e1, e2 := Woken(PromptWake(0, t)), Ticked(Expiring(cfg, t));
    ClientAdded(p, cfg, s, t);
    var s3 := Exec(p, cfg, s, Departure(cfg, t)[..3]).value;
    PromptlyDue(cfg, 0, t);
    StepSees(p, cfg, s3, s3.shards[0], e1);
    OneLabelMore(p, cfg, s, Departure(cfg, t)[..3], s3, Step(0, 0, e1));
    var s4, c1 := Next(p, cfg, s3, Step(0, 0, e1)), Activate(cfg, NewClient(FIRST, 0), PromptWake(0, t)).client;
    assert s4.shards[0] == EmptyShard(t).(clients := [c1]);
    AsksWhileRunning(p, cfg, c1, t);
    StepSees(p, cfg, s4, s4.shards[0], e2);
    OneLabelMore(p, cfg, s, Departure(cfg, t)[..3] + [Step(0, 0, e1)], s4, Step(0, 0, e2));
    assert Departure(cfg, t)[..3] + [Step(0, 0, e1)] + [Step(0, 0, e2)] == Departure(cfg, t);
  }

  lemma Returned(p: Platform, cfg: Config, s: System, sh: Shard)
    requires cfg.updateHz >= 1 && Sees(s, sh, [], None) && !sh.stopped && |sh.clients| == 1 && sh.clients[0].state == ACTIVE
    requires sh.outbox == [ASK] && sh.inbox == [] && sh.applying == []
    ensures var u := Exec(p, cfg, s, RETURN[..4]);
            u.Some? && Sees(u.value, sh.(outbox := [], applying := [REFUSAL]), [], None)
  {
    hide Exec;
    Unmoved(p, cfg, s);
    OneLabelMore(p, cfg, s, [], s, Push(0));
    var s1 := Next(p, cfg, s, Push(0));
    assert [] + [ASK] == [ASK];
    OneLabelMore(p, cfg, s, [] + [Push(0)], s1, Pop);
    var s2 := Next(p, cfg, s1, Pop);
    OneLabelMore(p, cfg, s, [] + [Push(0)] + [Pop], s2, Post(true, FIRST));
    var s3 := Next(p, cfg, s2, Post(true, FIRST));
    assert [] + [REFUSAL] == [REFUSAL];
    OneLabelMore(p, cfg, s, [] + [Push(0)] + [Pop] + [Post(true, FIRST)], s3, TakeInbox(0));
    assert [] + [Push(0)] + [Pop] + [Post(true, FIRST)] + [TakeInbox(0)] == RETURN[..4];
  }

  /** The witness: from every initial state with a worker there is a run that ends by applying
      a failed answer to a client that was running and is running still. */
  lemma FailedAnswerFindsClientRunning(p: Platform, cfg: Config, s: System)
    requires cfg.updateHz >= 1 && cfg.threads >= 1 && Initial(cfg, s)
    ensures var run := Departure(cfg, s.shards[0].clock) + RETURN;
            && var before := Exec(p, cfg, s, run[..9]);
            && before.Some? && |before.value.shards| >= 1 && |before.value.shards[0].clients| == 1
            && before.value.shards[0].clients[0].state == ACTIVE && before.value.shards[0].applying == [REFUSAL]
            && var after := Exec(p, cfg, s, run);
            && after.Some? && |after.value.shards| >= 1 && |after.value.shards[0].clients| == 1
            && after.value.shards[0].clients[0].state == ACTIVE && after.value.shards[0].applied == [REFUSAL]
  {
    hide Exec, Next, Enabled;
    var t := s.shards[0].clock;
    Departed(p, cfg, s, t);
    var u := Exec(p, cfg, s, Departure(cfg, t)).value;
    Returned(p, cfg, u, u.shards[0]);
    ExecSplit(p, cfg, s, Departure(cfg, t), RETURN[..4]);
    var v := Exec(p, cfg, u, RETURN[..4]).value;
    var l := Step(0, 0, Answered(REFUSAL));
    StepSees(p, cfg, v, v.shards[0], Answered(REFUSAL));
    OneLabelMore(p, cfg, s, Departure(cfg, t) + RETURN[..4], v, l);
    var run := Departure(cfg, t) + RETURN;
    assert run[..9] == Departure(cfg, t) + RETURN[..4];
    assert Departure(cfg, t) + RETURN[..4] + [l] == run;
    assert [] + [REFUSAL] == [REFUSAL];
  }
}
