/** The worker threads, the control queue and the control thread as one interleaved system
    (`Worker.cpp`, `Worker.hpp`, `controlLoop` and `stop` in `Harness.cpp`).

    A step is what one thread does between two accesses to shared state.  A client step hands
    its requests to the worker's `outbox`; each is pushed in a step of its own, so pushes of
    different workers interleave freely.  The inbox and the pending list are first swapped out
    under their lock and then worked off one by one.  `pushed`, `answered` and `applied` are
    histories.
 */
module Protocol {
  import opened Bytes
  import opened Wire
  import opened Settings
  import opened SimClient
  import opened ClientInvariants

  datatype Request = Request(worker: nat, slot: nat, kind: Kind, creds: Creds)

  datatype Answer = Answer(request: Request, update: Update)

  datatype PendingAdd = PendingAdd(creds: Creds, activateAt: int)

  datatype Shard = Shard(
    pending: seq<PendingAdd>,
    incoming: seq<PendingAdd>,
    clients: seq<Client>,
    outbox: seq<Request>,
    inbox: seq<Update>,
    applying: seq<Update>,
    applied: seq<Update>,
    clock: real,
    stopped: bool)

  datatype System = System(
    shards: seq<Shard>,
    queue: seq<Request>,
    shut: bool,
    serving: Option<Request>,
    exited: bool,
    active: int,
    suspended: int,
    tally: Tally,
    pushed: seq<Request>,
    answered: seq<Answer>)

  datatype Label =
    | Enqueue(w: nat, add: PendingAdd)
    | TakePending(w: nat)
    | Append(w: nat)
    | TakeInbox(w: nat)
    | Step(w: nat, slot: nat, event: Event)
    | Push(w: nat)
    | Pop
    | Post(failed: bool, creds: Creds)
    | StopWorker(w: nat)
    | Shutdown
    | ExitControl

  function EmptyShard(clock: real): Shard {
    Shard([], [], [], [], [], [], [], clock, false)
  }

  ghost predicate Initial(cfg: Config, s: System) {
    && |s.shards| == cfg.threads
    && (forall w :: 0 <= w < |s.shards| ==> s.shards[w] == EmptyShard(s.shards[w].clock))
    && s.queue == [] && !s.shut && s.serving == None && !s.exited
    && s.active == 0 && s.suspended == 0 && s.tally == NOTHING && s.pushed == [] && s.answered == []
  }

  /** The worker's loop may take its next step. */
  predicate Running(s: System, w: nat) {
    w < |s.shards| && !s.shards[w].stopped && s.shards[w].outbox == []
  }

  ghost predicate StepEnabled(cfg: Config, sh: Shard, slot: nat, e: Event) {
    && slot < |sh.clients| && Possible(cfg, sh.clients[slot], e) && sh.clock <= After(e, sh.clock)
    && (e.Answered? ==> sh.applying != [] && e.update == sh.applying[0] && slot == e.update.slot)
  }

  ghost predicate Enabled(cfg: Config, s: System, l: Label) {
    match l
    case Enqueue(w, _) => w < |s.shards|
    case TakePending(w) => Running(s, w) && s.shards[w].incoming == []
    case Append(w) => Running(s, w) && s.shards[w].incoming != []
    case TakeInbox(w) => Running(s, w) && s.shards[w].applying == []
    case Step(w, slot, e) => Running(s, w) && StepEnabled(cfg, s.shards[w], slot, e)
    case Push(w) => w < |s.shards| && s.shards[w].outbox != []
    case Pop => !s.exited && s.serving == None && s.queue != []
    case Post(_, creds) => s.serving.Some? && s.serving.value.worker < |s.shards| && Who(creds) == Who(s.serving.value.creds)
    case StopWorker(w) => Running(s, w) && s.shards[w].incoming == [] && s.shards[w].applying == []
    case Shutdown => forall w :: 0 <= w < |s.shards| ==> s.shards[w].stopped
    case ExitControl => s.shut && s.queue == [] && s.serving == None
  }

  /** A worker's requests, addressed with its index and the client's slot. */
  function Addressed(w: nat, slot: nat, asks: seq<Ask>): (rs: seq<Request>)
    ensures |rs| == |asks|
    ensures forall k :: 0 <= k < |asks| ==> rs[k] == Request(w, slot, asks[k].kind, asks[k].creds)
  {
    seq(|asks|, k requires 0 <= k < |asks| => Request(w, slot, asks[k].kind, asks[k].creds))
  }

  function StepShard(w: nat, sh: Shard, slot: nat, e: Event, o: Outcome): Shard
    requires slot < |sh.clients| && (e.Answered? ==> sh.applying != [])
  {
    sh.(clients := sh.clients[slot := o.client], outbox := sh.outbox + Addressed(w, slot, o.asks),
        applying := if e.Answered? then sh.applying[1..] else sh.applying,
        applied := if e.Answered? then sh.applied + [sh.applying[0]] else sh.applied,
        clock := After(e, sh.clock))
  }

  function OnShard(s: System, w: nat, sh: Shard): System
    requires w < |s.shards|
  {
    s.(shards := s.shards[w := sh])
  }

  function Next(p: Platform, cfg: Config, s: System, l: Label): System
    requires cfg.updateHz >= 1 && Enabled(cfg, s, l)
  {
    match l
    case Enqueue(w, add) =>
      OnShard(s, w, s.shards[w].(pending := s.shards[w].pending + [add]))
    case TakePending(w) =>
      OnShard(s, w, s.shards[w].(pending := [], incoming := s.shards[w].pending))
    case Append(w) =>
      var sh := s.shards[w];
      OnShard(s, w, sh.(incoming := sh.incoming[1..],
                        clients := sh.clients + [NewClient(sh.incoming[0].creds, sh.incoming[0].activateAt)]))
    case TakeInbox(w) =>
      OnShard(s, w, s.shards[w].(inbox := [], applying := s.shards[w].inbox))
    case Step(w, slot, e) =>
      var o := React(p, cfg, s.shards[w].clients[slot], e);
      OnShard(s, w, StepShard(w, s.shards[w], slot, e, o))
        .(active := s.active + o.active, suspended := s.suspended + o.suspended, tally := AddTally(s.tally, o.tally))
    case Push(w) =>
      var sh := s.shards[w];
      OnShard(s, w, sh.(outbox := sh.outbox[1..]))
        .(queue := s.queue + [sh.outbox[0]], pushed := s.pushed + [sh.outbox[0]])
    case Pop =>
      s.(queue := s.queue[1..], serving := Some(s.queue[0]))
    case Post(failed, creds) =>
      var r := s.serving.value;
      var u := Update(r.slot, failed, creds);
      OnShard(s, r.worker, s.shards[r.worker].(inbox := s.shards[r.worker].inbox + [u]))
        .(serving := None, answered := s.answered + [Answer(r, u)])
    case StopWorker(w) =>
      OnShard(s, w, s.shards[w].(stopped := true))
    case Shutdown => s.(shut := true)
    case ExitControl => s.(exited := true)
  }

  /** Where a schedule leads, if every one of its steps was enabled in turn. */
  ghost function Exec(p: Platform, cfg: Config, s: System, run: seq<Label>): Option<System>
    requires cfg.updateHz >= 1
    decreases |run|
  {
    if run == [] then Some(s)
    else
      match Exec(p, cfg, s, run[..|run| - 1])
      case Some(u) => if Enabled(cfg, u, run[|run| - 1]) then Some(Next(p, cfg, u, run[|run| - 1])) else None
      case None => None
  }
}
