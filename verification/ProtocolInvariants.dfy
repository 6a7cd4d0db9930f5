/** What every reachable state of the protocol satisfies. */
module ProtocolInvariants {
  import opened Bytes
  import opened Wire
  import opened Settings
  import opened SimClient
  import opened ClientBooks
  import opened ClientInvariants
  import opened Protocol

  // ----- Gauges ------------------------------------------------------------------------

  function Count(cs: seq<Client>, st: State): int {
    if cs == [] then 0 else Count(cs[..|cs| - 1], st) + Bit(cs[|cs| - 1].state == st)
  }

  function Total(shards: seq<Shard>, st: State): int {
    if shards == [] then 0 else Total(shards[..|shards| - 1], st) + Count(shards[|shards| - 1].clients, st)
  }

  lemma {:induction false} CountUpdate(cs: seq<Client>, i: nat, c: Client, st: State)
    requires i < |cs|
    ensures Count(cs[i := c], st) == Count(cs, st) + Bit(c.state == st) - Bit(cs[i].state == st)
    decreases |cs|
  {
    var last, ds := |cs| - 1, cs[i := c];
    if i == last {
      assert ds[..last] == cs[..last];
    } else {
      CountUpdate(cs[..last], i, c, st);
      assert ds[..last] == cs[..last][i := c];
    }
  }

  lemma CountAppend(cs: seq<Client>, c: Client, st: State)
    ensures Count(cs + [c], st) == Count(cs, st) + Bit(c.state == st)
  {
    assert (cs + [c])[..|cs|] == cs;
  }

  lemma {:induction false} TotalUpdate(shards: seq<Shard>, w: nat, sh: Shard, st: State)
    requires w < |shards|
    ensures Total(shards[w := sh], st) == Total(shards, st) + Count(sh.clients, st) - Count(shards[w].clients, st)
    decreases |shards|
  {
    var last, ts := |shards| - 1, shards[w := sh];
    if w == last {
      assert ts[..last] == shards[..last];
    } else {
      TotalUpdate(shards[..last], w, sh, st);
      assert ts[..last] == shards[..last][w := sh];
    }
  }

  lemma {:induction false} TotalEmpty(shards: seq<Shard>, st: State)
    requires forall w :: 0 <= w < |shards| ==> shards[w].clients == []
    ensures Total(shards, st) == 0
    decreases |shards|
  {
    if shards != [] {
      TotalEmpty(shards[..|shards| - 1], st);
    }
  }

  ghost predicate GaugesExact(s: System) {
    s.active == Total(s.shards, ACTIVE) && s.suspended == Total(s.shards, SUSPENDED)
  }

  // ----- Clients and addresses ---------------------------------------------------------

  /** A cube in which no refusal can be a window reload. */
  predicate NarrowCube(cfg: Config) {
    cfg.IsCube() && cfg.volumeChunks <= cfg.permWindowRadiusChunks
  }

  ghost predicate ClientInv(cfg: Config, c: Client, clock: real)
    requires cfg.updateHz >= 1
  {
    && SocketFits(c) && Loaded(cfg, c) && Paced(cfg, c, clock)
    && (NarrowCube(cfg) ==> Boxed(cfg, c))
  }

  /** The credentials belong to the account of the client in that slot. */
  predicate Fits(cs: seq<Client>, slot: nat, creds: Creds) {
    slot < |cs| && Who(creds) == Who(cs[slot].creds)
  }

  ghost predicate UpdatesFit(cs: seq<Client>, us: seq<Update>) {
    forall k :: 0 <= k < |us| ==> Fits(cs, us[k].slot, us[k].creds)
  }

  ghost predicate ShardInv(cfg: Config, w: nat, sh: Shard)
    requires cfg.updateHz >= 1
  {
    && (forall i :: 0 <= i < |sh.clients| ==> ClientInv(cfg, sh.clients[i], sh.clock))
    && (forall k :: 0 <= k < |sh.outbox| ==> sh.outbox[k].worker == w && Fits(sh.clients, sh.outbox[k].slot, sh.outbox[k].creds))
    && UpdatesFit(sh.clients, sh.inbox) && UpdatesFit(sh.clients, sh.applying)
    && (sh.stopped ==> sh.outbox == [] && sh.applying == [] && sh.incoming == [])
  }

  ghost predicate RequestFits(shards: seq<Shard>, r: Request) {
    r.worker < |shards| && Fits(shards[r.worker].clients, r.slot, r.creds)
  }

  ghost predicate Addresses(cfg: Config, s: System)
    requires cfg.updateHz >= 1
  {
    && (forall w :: 0 <= w < |s.shards| ==> ShardInv(cfg, w, s.shards[w]))
    && (forall k :: 0 <= k < |s.queue| ==> RequestFits(s.shards, s.queue[k]))
    && (s.serving.Some? ==> RequestFits(s.shards, s.serving.value))
  }

  // ----- No client is lost -------------------------------------------------------------

  ghost predicate Asked(rs: seq<Request>, w: nat, i: nat) {
    exists k :: 0 <= k < |rs| && rs[k].worker == w && rs[k].slot == i
  }

  ghost predicate Told(us: seq<Update>, i: nat) {
    exists k :: 0 <= k < |us| && us[k].slot == i
  }

  /** A request of this client, or its answer, is still on its way. */
  ghost predicate InFlight(s: System, w: nat, i: nat)
    requires w < |s.shards|
  {
    || Asked(s.shards[w].outbox, w, i)
    || Asked(s.queue, w, i)
    || (s.serving.Some? && s.serving.value.worker == w && s.serving.value.slot == i)
    || Told(s.shards[w].inbox, i)
    || Told(s.shards[w].applying, i)
  }

  /** Every client that waits on the control thread has something in flight, or has had a
      failed answer since it last asked. */
  ghost predicate NoneLost(s: System) {
    forall w, i :: 0 <= w < |s.shards| && 0 <= i < |s.shards[w].clients| && Owed(s.shards[w].clients[i]) ==>
      InFlight(s, w, i) || s.shards[w].clients[i].refused
  }

  // ----- Every request is answered once, in order --------------------------------------

  function Requests(answers: seq<Answer>): (rs: seq<Request>)
    ensures |rs| == |answers|
  {
    if answers == [] then [] else Requests(answers[..|answers| - 1]) + [answers[|answers| - 1].request]
  }

  /** The answers addressed to worker `w`, in order. */
  function AnswersFor(answers: seq<Answer>, w: nat): seq<Update> {
    if answers == [] then []
    else
      var a := answers[|answers| - 1];
      AnswersFor(answers[..|answers| - 1], w) + if a.request.worker == w then [a.update] else []
  }

  ghost predicate Matches(a: Answer) {
    a.update.slot == a.request.slot && Who(a.update.creds) == Who(a.request.creds)
  }

  ghost predicate InOrder(s: System) {
    && s.pushed == Requests(s.answered) + (if s.serving.Some? then [s.serving.value] else []) + s.queue
    && (forall k :: 0 <= k < |s.answered| ==> Matches(s.answered[k]))
    && (forall w :: 0 <= w < |s.shards| ==>
          AnswersFor(s.answered, w) == s.shards[w].applied + s.shards[w].applying + s.shards[w].inbox)
  }

  ghost predicate Draining(s: System) {
    && (s.shut ==> forall w :: 0 <= w < |s.shards| ==> s.shards[w].stopped)
    && (s.exited ==> s.shut && s.queue == [] && s.serving == None)
  }

  ghost predicate Inv(cfg: Config, s: System)
    requires cfg.updateHz >= 1
  {
    && Addresses(cfg, s) && GaugesExact(s) && NoneLost(s) && InOrder(s) && Draining(s)
    && (NarrowCube(cfg) ==> s.tally.windowReload == 0)
  }

  lemma InitialInv(cfg: Config, s: System)
    requires cfg.updateHz >= 1 && Initial(cfg, s)
    ensures Inv(cfg, s)
  {
    TotalEmpty(s.shards, ACTIVE);
    TotalEmpty(s.shards, SUSPENDED);
  }

  // ----- One client step ---------------------------------------------------------------

  lemma ClientStepInv(p: Platform, cfg: Config, c: Client, e: Event, clock: real)
    requires cfg.updateHz >= 1 && ClientInv(cfg, c, clock) && Possible(cfg, c, e) && OwnAnswer(c, e)
    requires clock <= After(e, clock)
    ensures ClientInv(cfg, React(p, cfg, c, e).client, After(e, clock))
    ensures Booked(c, React(p, cfg, c, e))
    ensures NarrowCube(cfg) ==> React(p, cfg, c, e).tally.windowReload == 0
  {
    ReactBooked(p, cfg, c, e);
    ReactLoaded(p, cfg, c, e);
    ReactPaced(p, cfg, c, e, clock);
    if NarrowCube(cfg) {
      ReactBoxed(p, cfg, c, e);
    }
  }

  lemma ClientInvLater(cfg: Config, c: Client, clock: real, later: real)
    requires cfg.updateHz >= 1 && ClientInv(cfg, c, clock) && clock <= later
    ensures ClientInv(cfg, c, later)
  {
  }

  lemma NewClientInv(cfg: Config, creds: Creds, at: int, clock: real)
    requires cfg.updateHz >= 1
    ensures ClientInv(cfg, NewClient(creds, at), clock)
  {
  }

  lemma UpdatesFitStep(cs: seq<Client>, i: nat, c: Client, us: seq<Update>)
    requires i < |cs| && Who(c.creds) == Who(cs[i].creds) && UpdatesFit(cs, us)
    ensures UpdatesFit(cs[i := c], us)
  {
  }

  /** What a worker is about to apply belongs to the client it is for. */
  lemma AppliesOwn(cfg: Config, w: nat, sh: Shard, slot: nat, e: Event)
    requires cfg.updateHz >= 1 && ShardInv(cfg, w, sh) && StepEnabled(cfg, sh, slot, e)
    ensures OwnAnswer(sh.clients[slot], e)
  {
    hide ClientInv;
    assert e.Answered? ==> Fits(sh.clients, sh.applying[0].slot, sh.applying[0].creds);
  }

  lemma ClientsStep(cfg: Config, cs: seq<Client>, slot: nat, ds: seq<Client>, clock: real, later: real)
    requires cfg.updateHz >= 1 && slot < |cs| && clock <= later
    requires |ds| == |cs| && ds == cs[slot := ds[slot]] && ClientInv(cfg, ds[slot], later)
    requires forall i :: 0 <= i < |cs| ==> ClientInv(cfg, cs[i], clock)
    ensures forall i :: 0 <= i < |ds| ==> ClientInv(cfg, ds[i], later)
  {
    hide ClientInv;
    forall i | 0 <= i < |ds|
      ensures ClientInv(cfg, ds[i], later)
    {
      if i != slot {
        ClientInvLater(cfg, cs[i], clock, later);
      }
    }
  }

  lemma OutboxStep(w: nat, cs: seq<Client>, slot: nat, c: Client, asks: seq<Ask>)
    requires slot < |cs| && forall k :: 0 <= k < |asks| ==> Who(asks[k].creds) == Who(c.creds)
    ensures var rs := Addressed(w, slot, asks);
            forall k :: 0 <= k < |rs| ==> rs[k].worker == w && Fits(cs[slot := c], rs[k].slot, rs[k].creds)
  {
  }

  lemma StepShardInv(p: Platform, cfg: Config, w: nat, sh: Shard, slot: nat, e: Event)
    requires cfg.updateHz >= 1 && ShardInv(cfg, w, sh) && StepEnabled(cfg, sh, slot, e)
    requires !sh.stopped && sh.outbox == []
    ensures ShardInv(cfg, w, StepShard(w, sh, slot, e, React(p, cfg, sh.clients[slot], e)))
  {
    hide React, ClientInv, Possible;
    var c := sh.clients[slot];
    var o := React(p, cfg, c, e);
    AppliesOwn(cfg, w, sh, slot, e);
    ClientStepInv(p, cfg, c, e, sh.clock);
    ClientsStep(cfg, sh.clients, slot, sh.clients[slot := o.client], sh.clock, After(e, sh.clock));
    UpdatesFitStep(sh.clients, slot, o.client, sh.inbox);
    UpdatesFitStep(sh.clients, slot, o.client, sh.applying);
    OutboxStep(w, sh.clients, slot, o.client, o.asks);
    assert [] + Addressed(w, slot, o.asks) == Addressed(w, slot, o.asks);
  }
}
