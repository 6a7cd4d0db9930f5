/** What the worker object does is a run of the interleaved system: each entry in its ledger is a
    client step followed by the pushes of the requests it made. */
module WorkerRuns {
  import opened Bytes
  import opened Wire
  import opened Settings
  import opened Motion
  import opened SimClient
  import opened ClientInvariants
  import opened Protocol
  import opened WorkerThread
  import ProtocolProofs

  /** The system as one worker object sees it: its clients, the shared queue and gauges. */
  function LedgerOf(s: System, w: nat): Ledger
    requires w < |s.shards|
  {
    Ledger(s.shards[w].clients, s.queue, s.active, s.suspended, s.tally)
  }

  /** Labels of the worker's own thread. */
  ghost predicate ByWorker(w: nat, run: seq<Label>) {
    forall k :: 0 <= k < |run| ==> run[k] == TakeInbox(w) || run[k] == Push(w) || (run[k].Step? && run[k].w == w)
  }

  /** The worker's thread alone leads from one state to the other. */
  ghost predicate Leads(p: Platform, cfg: Config, s: System, w: nat, t: System)
    requires cfg.updateHz >= 1
  {
    exists run :: ByWorker(w, run) && Exec(p, cfg, s, run) == Some(t)
  }

  lemma LeadsNowhere(p: Platform, cfg: Config, s: System, w: nat)
    requires cfg.updateHz >= 1
    ensures Leads(p, cfg, s, w, s)
  {
    assert ByWorker(w, []) && Exec(p, cfg, s, []) == Some(s);
  }

  lemma LeadsOn(p: Platform, cfg: Config, s: System, w: nat, t: System, u: System)
    requires cfg.updateHz >= 1 && Leads(p, cfg, s, w, t) && Leads(p, cfg, t, w, u)
    ensures Leads(p, cfg, s, w, u)
  {
    hide Exec;
    var a :| ByWorker(w, a) && Exec(p, cfg, s, a) == Some(t);
    var b :| ByWorker(w, b) && Exec(p, cfg, t, b) == Some(u);
    ProtocolProofs.ExecSplit(p, cfg, s, a, b);
    assert ByWorker(w, a + b);
  }

  lemma LeadsByOne(p: Platform, cfg: Config, s: System, w: nat, l: Label)
    requires cfg.updateHz >= 1 && Enabled(cfg, s, l) && ByWorker(w, [l])
    ensures Leads(p, cfg, s, w, Next(p, cfg, s, l))
  {
    hide Exec, Next, Enabled;
    ProtocolProofs.ExecOne(p, cfg, s, l);
  }

  // ----- A step and its pushes ---------------------------------------------------------

  /** Everything in the worker's outbox pushed. */
  function Flushed(s: System, w: nat): System
    requires w < |s.shards|
  {
    OnShard(s, w, s.shards[w].(outbox := []))
      .(queue := s.queue + s.shards[w].outbox, pushed := s.pushed + s.shards[w].outbox)
  }

  lemma {:induction false} FlushIsRun(p: Platform, cfg: Config, s: System, w: nat)
    requires cfg.updateHz >= 1 && w < |s.shards|
    ensures Leads(p, cfg, s, w, Flushed(s, w))
    decreases |s.shards[w].outbox|
  {
    if s.shards[w].outbox == [] {
      assert s.shards[w := s.shards[w]] == s.shards && s.queue + [] == s.queue && s.pushed + [] == s.pushed;
      assert Flushed(s, w) == s;
      LeadsNowhere(p, cfg, s, w);
    } else {
      var t := Next(p, cfg, s, Push(w));
      PushFlushes(p, cfg, s, w);
      LeadsByOne(p, cfg, s, w, Push(w));
      FlushIsRun(p, cfg, t, w);
      LeadsOn(p, cfg, s, w, t, Flushed(s, w));
    }
  }

  lemma PushFlushes(p: Platform, cfg: Config, s: System, w: nat)
    requires cfg.updateHz >= 1 && Enabled(cfg, s, Push(w))
    ensures var t := Next(p, cfg, s, Push(w));
            w < |t.shards| && |t.shards[w].outbox| < |s.shards[w].outbox| && Flushed(t, w) == Flushed(s, w)
  {
    var out, t := s.shards[w].outbox, Next(p, cfg, s, Push(w));
    assert [out[0]] + out[1..] == out;
    assert s.queue + [out[0]] + out[1..] == s.queue + out;
    assert s.pushed + [out[0]] + out[1..] == s.pushed + out;
    assert Flushed(t, w).shards == Flushed(s, w).shards;
  }

  /** One ledger entry in the system: the step, then its pushes. */
  function Entered(p: Platform, cfg: Config, s: System, w: nat, slot: nat, e: Event): System
    requires cfg.updateHz >= 1 && Enabled(cfg, s, Step(w, slot, e))
  {
    Flushed(Next(p, cfg, s, Step(w, slot, e)), w)
  }

  lemma EntryLeads(p: Platform, cfg: Config, s: System, w: nat, slot: nat, e: Event)
    requires cfg.updateHz >= 1 && Enabled(cfg, s, Step(w, slot, e))
    ensures Leads(p, cfg, s, w, Entered(p, cfg, s, w, slot, e))
  {
    hide Leads, Flushed, React, Possible;
    var l := Step(w, slot, e);
    var u := Next(p, cfg, s, l);
    LeadsByOne(p, cfg, s, w, l);
    FlushIsRun(p, cfg, u, w);
    LeadsOn(p, cfg, s, w, u, Flushed(u, w));
  }

  /** The shard after the step and its pushes. */
  lemma EntryShard(p: Platform, cfg: Config, s: System, w: nat, slot: nat, e: Event)
    requires cfg.updateHz >= 1 && Enabled(cfg, s, Step(w, slot, e))
    ensures var t, o := Entered(p, cfg, s, w, slot, e), React(p, cfg, s.shards[w].clients[slot], e);
            && w < |t.shards| && t.shards[w] == StepShard(w, s.shards[w], slot, e, o).(outbox := [])
            && t.queue == s.queue + Addressed(w, slot, o.asks)
            && t.active == s.active + o.active && t.suspended == s.suspended + o.suspended && t.tally == AddTally(s.tally, o.tally)
  {
    hide React, Possible, AddTally;
    var o := React(p, cfg, s.shards[w].clients[slot], e);
    assert [] + Addressed(w, slot, o.asks) == Addressed(w, slot, o.asks);
  }

  /** Entering an outcome in the ledger is a run: the client step and the pushes it calls for. */
  lemma EntryIsRun(p: Platform, cfg: Config, s: System, w: nat, slot: nat, e: Event)
    requires cfg.updateHz >= 1 && Enabled(cfg, s, Step(w, slot, e))
    ensures var t := Entered(p, cfg, s, w, slot, e);
            && Leads(p, cfg, s, w, t) && w < |t.shards|
            && LedgerOf(t, w) == Record(w, LedgerOf(s, w), slot, React(p, cfg, s.shards[w].clients[slot], e))
            && Running(t, w) && t.shards[w].clock == After(e, s.shards[w].clock) && t.shards[w].inbox == s.shards[w].inbox
            && t.shards[w].applying == if e.Answered? then s.shards[w].applying[1..] else s.shards[w].applying
  {
    hide React, Possible, Leads, Entered, AddTally;
    EntryLeads(p, cfg, s, w, slot, e);
    EntryShard(p, cfg, s, w, slot, e);
  }

  // ----- The loops ---------------------------------------------------------------------

  lemma {:induction false} ApplyRun(p: Platform, cfg: Config, s: System, w: nat, us: seq<Update>, k: nat) returns (t: System)
    requires cfg.updateHz >= 1 && Running(s, w) && s.shards[w].applying == us && k <= |us|
    requires SlotsExist(|s.shards[w].clients|, us)
    ensures Leads(p, cfg, s, w, t) && Running(t, w) && t.shards[w].clock == s.shards[w].clock
    ensures t.shards[w].applying == us[k..] && t.shards[w].inbox == s.shards[w].inbox
    ensures SlotsExist(|s.shards[w].clients|, us[..k]) && LedgerOf(t, w) == ApplyAll(cfg, w, LedgerOf(s, w), us[..k])
    decreases k
  {
    hide Leads, Record;
    if k == 0 {
      t := s;
      LeadsNowhere(p, cfg, s, w);
    } else {
      var u := ApplyRun(p, cfg, s, w, us, k - 1);
      var e := Answered(us[k - 1]);
      assert us[..k][..k - 1] == us[..k - 1];
      assert |u.shards[w].clients| == |ApplyAll(cfg, w, LedgerOf(s, w), us[..k - 1]).clients|;
      EntryIsRun(p, cfg, u, w, us[k - 1].slot, e);
      t := Entered(p, cfg, u, w, us[k - 1].slot, e);
      LeadsOn(p, cfg, s, w, u, t);
    }
  }

  /** The draws and readings of one loop turn. */
  ghost predicate OneTurn(cfg: Config, now: real, wakes: seq<Wake>, ticks: seq<Tick>) {
    && (forall k :: 0 <= k < |wakes| ==> ValidWake(cfg, wakes[k]) && wakes[k].nowSec == now)
    && (forall k :: 0 <= k < |ticks| ==> ValidAim(ticks[k].aim) && ticks[k].nowSec == now)
  }

  lemma {:induction false} ActivateRun(p: Platform, cfg: Config, s: System, w: nat, now: real, wakes: seq<Wake>) returns (t: System)
    requires cfg.updateHz >= 1 && Running(s, w) && |wakes| <= |s.shards[w].clients|
    requires s.shards[w].clock <= now && OneTurn(cfg, now, wakes, [])
    ensures Leads(p, cfg, s, w, t) && Running(t, w) && t.shards[w].clock <= now
    ensures t.shards[w].applying == s.shards[w].applying && t.shards[w].inbox == s.shards[w].inbox
    ensures LedgerOf(t, w) == ActivateAll(cfg, w, LedgerOf(s, w), wakes)
    decreases |wakes|
  {
    hide Leads, Record, ValidWake, Activate;
    if wakes == [] {
      t := s;
      LeadsNowhere(p, cfg, s, w);
    } else {
      var i := |wakes| - 1;
      var u := ActivateRun(p, cfg, s, w, now, wakes[..i]);
      var e := Woken(wakes[i]);
      EntryIsRun(p, cfg, u, w, i, e);
      t := Entered(p, cfg, u, w, i, e);
      LeadsOn(p, cfg, s, w, u, t);
    }
  }

  lemma {:induction false} SendRun(p: Platform, cfg: Config, s: System, w: nat, now: real, ticks: seq<Tick>) returns (t: System)
    requires cfg.updateHz >= 1 && Running(s, w) && |ticks| <= |s.shards[w].clients|
    requires s.shards[w].clock <= now && OneTurn(cfg, now, [], ticks)
    ensures Leads(p, cfg, s, w, t) && Running(t, w)
    ensures t.shards[w].applying == s.shards[w].applying && t.shards[w].inbox == s.shards[w].inbox
    ensures LedgerOf(t, w) == SendAll(p, cfg, w, LedgerOf(s, w), ticks)
    ensures t.shards[w].clock <= now
    decreases |ticks|
  {
    hide Leads, Record, ValidAim, SendDue;
    if ticks == [] {
      t := s;
      LeadsNowhere(p, cfg, s, w);
    } else {
      var i := |ticks| - 1;
      var u := SendRun(p, cfg, s, w, now, ticks[..i]);
      var e := Ticked(ticks[i]);
      EntryIsRun(p, cfg, u, w, i, e);
      t := Entered(p, cfg, u, w, i, e);
      LeadsOn(p, cfg, s, w, u, t);
    }
  }

  /** A loop turn of the object, inbox, activations and sends in order, is a run of the system
      by this worker's thread alone that ends in the object's ledger, with the inbox worked off
      and every request pushed. */
  lemma TurnIsRun(p: Platform, cfg: Config, s: System, w: nat, now: real, wakes: seq<Wake>, ticks: seq<Tick>)
    requires cfg.updateHz >= 1 && Running(s, w) && s.shards[w].applying == []
    requires SlotsExist(|s.shards[w].clients|, s.shards[w].inbox)
    requires |wakes| == |ticks| == |s.shards[w].clients| && s.shards[w].clock <= now && OneTurn(cfg, now, wakes, ticks)
    ensures exists t: System ::
              && Leads(p, cfg, s, w, t) && Running(t, w) && t.shards[w].inbox == [] && t.shards[w].applying == []
              && LedgerOf(t, w) == SendAll(p, cfg, w, ActivateAll(cfg, w, ApplyAll(cfg, w, LedgerOf(s, w), s.shards[w].inbox), wakes), ticks)
  {
    hide ApplyAll, ActivateAll, SendAll, ValidWake, ValidAim;
    var us := s.shards[w].inbox;
    LeadsByOne(p, cfg, s, w, TakeInbox(w));
    var s1 := Next(p, cfg, s, TakeInbox(w));
    hide Leads, Next, Enabled;
    var s2 := ApplyRun(p, cfg, s1, w, us, |us|);
    assert us[..|us|] == us && us[|us|..] == [];
    var s3 := ActivateRun(p, cfg, s2, w, now, wakes);
    var s4 := SendRun(p, cfg, s3, w, now, ticks);
    LeadsOn(p, cfg, s, w, s1, s2);
    LeadsOn(p, cfg, s, w, s2, s3);
    LeadsOn(p, cfg, s, w, s3, s4);
  }

  /** So is a datagram drained from the socket of an active client. */
  lemma DatagramIsRun(p: Platform, cfg: Config, s: System, w: nat, slot: nat, data: Bytes, rx: real, clock: seq<Readings>)
    requires cfg.updateHz >= 1 && Running(s, w) && slot < |s.shards[w].clients| && s.shards[w].clients[slot].state == ACTIVE
    ensures exists t: System ::
              && Leads(p, cfg, s, w, t) && Running(t, w)
              && LedgerOf(t, w) == Record(w, LedgerOf(s, w), slot, Datagram(p, cfg, s.shards[w].clients[slot], data, rx, clock))
  {
    hide Leads, Record, Datagram;
    EntryIsRun(p, cfg, s, w, slot, Received(data, rx, clock));
  }
}
