/** Index allocation (`Harness.cpp`): the start slice, hot-adds and how clients are dealt to
    workers, on top of `Provisioning`.

    A step is one critical section of the harness, one finished `provisionRange`, or one client
    handed to its worker.  The control server answers only once `start` has returned, so adds
    are requested in the Running phase alone; `stop` may have been raised at any time.
 */
module Allocation {
  import opened Bytes
  import opened SimClient
  import opened Provisioning
  import opened WorkerThread
  import Protocol
  import DerivedEmail
  import CubeSlots

  /** The settings `validate` admits. */
  datatype Plan = Plan(setup: Setup, clients: nat, indexBase: nat, indexLimit: nat, threads: nat,
                       rampBatchSize: nat, rampIntervalMs: nat)
  {
    ghost predicate Valid() {
      indexLimit >= clients && threads >= 1 && rampBatchSize >= 1 && Sound(setup.roster)
    }
  }

  datatype Handed = Handed(worker: nat, add: Protocol.PendingAdd)

  /** What the start-up or add thread is in the middle of. */
  datatype Job =
    | NoJob
    | Adding(count: nat, start: int)
    | HandOut(creds: seq<Creds>, next: nat, rampStart: int)

  datatype Phase = New | Failed | Starting | Running

  /** `spoilt` records that some range came back empty. */
  datatype Fleet = Fleet(phase: Phase, used: nat, busy: bool, addError: string, job: Job,
                         handed: seq<Handed>, tally: SignIns, spoilt: bool)

  const INITIAL := Fleet(New, 0, false, "", NoJob, [], SignIns(0, 0, 0), false)

  /** `markRunStarted` has been called. */
  predicate RunStarted(f: Fleet) {
    f.phase == Starting || f.phase == Running
  }

  // ----- Steps -------------------------------------------------------------------------

  const BLANK := Creds(0, "", seq(64, _ => 0), 0, "", 0, "", 0, 0)

  /** The result vector: slots never written hold default credentials. */
  function Vector(result: seq<Option<Creds>>): (v: seq<Creds>)
    ensures |v| == |result|
  {
    seq(|result|, i requires 0 <= i < |result| => match result[i] case Some(c) => c case None => BLANK)
  }

  /** C++ remainder, with the harness's guard for a negative one. */
  function WorkerOf(p: Plan, index: int): nat
    requires p.threads >= 1
  {
    if index < 0 then 0 else index % p.threads
  }

  /** The i-th client of a hand-out: its worker, and the ramp batch that delays it. */
  function Dealt(p: Plan, creds: seq<Creds>, i: nat, rampStart: int): Handed
    requires i < |creds| && p.threads >= 1 && p.rampBatchSize >= 1
  {
    Handed(WorkerOf(p, creds[i].index), Protocol.PendingAdd(creds[i], rampStart + (i / p.rampBatchSize) * (p.rampIntervalMs * MS)))
  }

  /** The ramp: the first batch at once, each client one interval after the client a batch before
      it; and every client on the worker of its index. */
  lemma RampSpreads(p: Plan, creds: seq<Creds>, i: nat, rampStart: int)
    requires i < |creds| && p.threads >= 1 && p.rampBatchSize >= 1
    ensures Dealt(p, creds, i, rampStart).add.creds == creds[i]
    ensures i < p.rampBatchSize ==> Dealt(p, creds, i, rampStart).add.activateAt == rampStart
    ensures i + p.rampBatchSize < |creds| ==>
              Dealt(p, creds, i + p.rampBatchSize, rampStart).add.activateAt
              == Dealt(p, creds, i, rampStart).add.activateAt + p.rampIntervalMs * 1_000_000
    ensures 0 <= creds[i].index ==> Dealt(p, creds, i, rampStart).worker == creds[i].index % p.threads
  {
    var b, q := p.rampBatchSize, i / p.rampBatchSize;
    CubeSlots.ModUnique(i + b, b, q + 1, i % b);
    assert (q + 1) * (p.rampIntervalMs * MS) == q * (p.rampIntervalMs * MS) + p.rampIntervalMs * MS;
  }

  function Started(p: Plan, f: Fleet, after: SignIns, result: seq<Option<Creds>>, rampStart: int): Fleet {
    if p.clients == 0 then f.(phase := Running)
    else if result == [] then f.(phase := Failed, tally := after, spoilt := true)
    else f.(phase := Starting, tally := after, used := |result|, job := HandOut(Vector(result), 0, rampStart))
  }

  const NO_COUNT := "count must be >= 1"
  const ADD_RUNNING := "busy: an add is already running"
  const OVER_LIMIT := "add would exceed LT_INDEX_LIMIT"
  const ADD_ABORTED := "add aborted"
  const ADD_FAILED := "provisioning failed (see logs)"

  /** `requestAdd`: what it answers. */
  function AddRefusal(p: Plan, f: Fleet, count: int): string {
    if count < 1 then NO_COUNT
    else if f.busy then ADD_RUNNING
    else if f.used + count > p.indexLimit then OVER_LIMIT
    else ""
  }

  /** An add is taken exactly when it asks for someone, none is running and the limit allows it. */
  lemma AddTakenIff(p: Plan, f: Fleet, count: int)
    ensures AddRefusal(p, f, count) == "" <==> count >= 1 && !f.busy && f.used + count <= p.indexLimit
    ensures AddRefusal(p, f, count) != "" ==> Requested(p, f, count) == f
    ensures count < 1 ==> AddRefusal(p, f, count) == NO_COUNT
    ensures count >= 1 && f.busy ==> AddRefusal(p, f, count) == ADD_RUNNING
  {
  }

  function Requested(p: Plan, f: Fleet, count: int): Fleet {
    if AddRefusal(p, f, count) != "" then f
    else f.(busy := true, addError := "", job := Adding(count, p.indexBase + f.used))
  }

  /** `runAdd` once `provisionRange` has returned. */
  function Settled(f: Fleet, after: SignIns, result: seq<Option<Creds>>, stopped: bool, rampStart: int): Fleet {
    if result == [] then
      f.(tally := after, spoilt := true, busy := false, job := NoJob,
         addError := if stopped then ADD_ABORTED else ADD_FAILED)
    else f.(tally := after, job := HandOut(Vector(result), 0, rampStart))
  }

  predicate CanHand(p: Plan, f: Fleet) {
    p.threads >= 1 && p.rampBatchSize >= 1 && f.job.HandOut? && f.job.next < |f.job.creds|
  }

  function HandedNext(p: Plan, f: Fleet): Fleet
    requires CanHand(p, f)
  {
    f.(handed := f.handed + [Dealt(p, f.job.creds, f.job.next, f.job.rampStart)],
       job := f.job.(next := f.job.next + 1))
  }

  predicate CanCommit(f: Fleet) {
    f.job.HandOut? && f.job.next == |f.job.creds|
  }

  function Committed(f: Fleet): Fleet
    requires CanCommit(f)
  {
    if f.phase == Starting then f.(phase := Running, job := NoJob)
    else f.(used := f.used + |f.job.creds|, busy := false, addError := "", job := NoJob)
  }

  datatype Label =
    | Start(after: SignIns, result: seq<Option<Creds>>, rampStart: int)
    | RequestAdd(count: int)
    | Settle(after: SignIns, result: seq<Option<Creds>>, stopped: bool, rampStart: int)
    | Hand
    | Commit

  /** Some interleaving of the provisioning threads returns this, or the range was refused
      before they started. */
  ghost predicate Provisions(g: Range, before: SignIns, after: SignIns, result: seq<Option<Creds>>) {
    if g.count == 0 || !Admitted(g.setup, g.start, g.count) then result == [] && after == before
    else exists pool, moves :: PoolRun(g, pool, moves, before, after, result)
  }

  ghost predicate PoolRun(g: Range, pool: Pool, moves: seq<Move>, before: SignIns, after: SignIns,
                          result: seq<Option<Creds>>)
  {
    InitialPool(g, pool, before) &&
    match RunPool(g, pool, moves)
    case None => false
    case Some(q) => Joined(q) && after == q.tally && result == Returned(q)
  }

  ghost predicate Enabled(p: Plan, f: Fleet, l: Label) {
    match l
    case Start(after, result, _) =>
      f.phase == New && Provisions(Range(p.setup, p.indexBase, p.clients, false), f.tally, after, result)
    case RequestAdd(_) => f.phase == Running
    case Settle(after, result, _, _) =>
      f.phase == Running && f.job.Adding?
      && Provisions(Range(p.setup, f.job.start, f.job.count, true), f.tally, after, result)
    case Hand => CanHand(p, f)
    case Commit => CanCommit(f)
  }

  ghost function Next(p: Plan, f: Fleet, l: Label): Fleet
    requires Enabled(p, f, l)
  {
    match l
    case Start(after, result, at) => Started(p, f, after, result, at)
    case RequestAdd(count) => Requested(p, f, count)
    case Settle(after, result, stopped, at) => Settled(f, after, result, stopped, at)
    case Hand => HandedNext(p, f)
    case Commit => Committed(f)
  }

  ghost function Exec(p: Plan, f: Fleet, labels: seq<Label>): Option<Fleet>
    decreases |labels|
  {
    if labels == [] then Some(f)
    else
      match Exec(p, f, labels[..|labels| - 1])
      case None => None
      case Some(g) => if Enabled(p, g, labels[|labels| - 1]) then Some(Next(p, g, labels[|labels| - 1])) else None
  }

  // ----- Invariant ---------------------------------------------------------------------

  /** The k-th client handed out is the account of index base + k, on the worker of that index. */
  ghost predicate InPlace(p: Plan, k: nat, h: Handed)
    requires p.Valid()
  {
    Who(h.add.creds) == p.setup.AccountOf(p.indexBase + k) && h.worker == (p.indexBase + k) % p.threads
  }

  ghost predicate Contiguous(p: Plan, f: Fleet)
    requires p.Valid()
  {
    forall k :: 0 <= k < |f.handed| ==> InPlace(p, k, f.handed[k])
  }

  /** The credentials being handed out continue where the clients handed out so far end. */
  ghost predicate Continues(p: Plan, f: Fleet) {
    f.job.HandOut? ==>
      && f.job.next <= |f.job.creds| && f.job.next <= |f.handed|
      && forall i :: 0 <= i < |f.job.creds| ==>
           Who(f.job.creds[i]) == p.setup.AccountOf(p.indexBase + |f.handed| - f.job.next + i)
  }

  ghost predicate Counted(p: Plan, f: Fleet) {
    && f.used <= p.indexLimit
    && match f.phase
       case New => f.used == 0 && f.handed == [] && f.job.NoJob? && !f.busy
       case Failed => f.used == 0 && f.handed == [] && f.job.NoJob? && !f.busy
       case Starting => f.job.HandOut? && !f.busy && f.used == |f.job.creds| == p.clients && |f.handed| == f.job.next
       case Running =>
         match f.job
         case NoJob => !f.busy && |f.handed| == f.used
         case Adding(count, start) =>
           f.busy && |f.handed| == f.used && start == p.indexBase + f.used && 1 <= count && f.used + count <= p.indexLimit
         case HandOut(creds, next, _) => f.busy && |f.handed| == f.used + next && f.used + |creds| <= p.indexLimit
  }

  /** Clients whose credentials have been obtained. */
  function Obtained(f: Fleet): nat {
    if f.phase == Running && f.job.HandOut? then f.used + |f.job.creds| else f.used
  }

  ghost predicate TallyRight(p: Plan, f: Fleet) {
    && (p.setup.rosterFile && p.setup.rosterRequired ==> f.tally.mintedBefore == 0 && f.tally.mintedDuring == 0)
    && (!RunStarted(f) ==> f.tally.mintedDuring == 0)
    && (!f.spoilt ==> Sum(f.tally) == Obtained(f))
  }

  ghost predicate Inv(p: Plan, f: Fleet)
    requires p.Valid()
  {
    Contiguous(p, f) && Continues(p, f) && Counted(p, f) && TallyRight(p, f)
  }

  lemma ProvisionsContract(g: Range, before: SignIns, after: SignIns, result: seq<Option<Creds>>)
    requires Sound(g.setup.roster) && Provisions(g, before, after, result)
    ensures RangeContract(g, before, after, result)
  {
    if g.count > 0 && Admitted(g.setup, g.start, g.count) {
      var pool, moves :| PoolRun(g, pool, moves, before, after, result);
      EveryInterleavingProvisions(g, pool, moves, before);
    }
  }

  lemma HandInv(p: Plan, f: Fleet)
    requires p.Valid() && Inv(p, f) && CanHand(p, f)
    ensures Inv(p, HandedNext(p, f))
  {
    var g := HandedNext(p, f);
    assert Who(f.job.creds[f.job.next]) == p.setup.AccountOf(p.indexBase + |f.handed|);
    forall k | 0 <= k < |g.handed|
      ensures InPlace(p, k, g.handed[k])
    {
      assert k < |f.handed| ==> InPlace(p, k, f.handed[k]);
    }
  }

  /** The credentials a range delivered are those of consecutive indices. */
  lemma VectorAt(g: Range, before: SignIns, after: SignIns, result: seq<Option<Creds>>, i: nat)
    requires RangeContract(g, before, after, result) && result != [] && i < g.count
    ensures |Vector(result)| == g.count && Who(Vector(result)[i]) == g.setup.AccountOf(g.start + i)
  {
  }

  lemma StartedContinues(p: Plan, f: Fleet, after: SignIns, result: seq<Option<Creds>>, at: int)
    requires f.handed == [] && result != [] && p.clients > 0
    requires RangeContract(Range(p.setup, p.indexBase, p.clients, false), f.tally, after, result)
    ensures Continues(p, Started(p, f, after, result, at)) && |result| == p.clients
  {
    hide RangeContract, Vector;
    var g, range := Started(p, f, after, result, at), Range(p.setup, p.indexBase, p.clients, false);
    VectorAt(range, f.tally, after, result, 0);
    forall i | 0 <= i < p.clients
      ensures Who(g.job.creds[i]) == p.setup.AccountOf(p.indexBase + i)
    {
      VectorAt(range, f.tally, after, result, i);
    }
  }

  lemma StartedInv(p: Plan, f: Fleet, after: SignIns, result: seq<Option<Creds>>, at: int)
    requires p.Valid() && Inv(p, f) && f.phase == New
    requires RangeContract(Range(p.setup, p.indexBase, p.clients, false), f.tally, after, result)
    ensures Inv(p, Started(p, f, after, result, at))
  {
    hide Vector;
    if p.clients > 0 && result != [] {
      StartedContinues(p, f, after, result, at);
    }
  }

  lemma SettledInv(p: Plan, f: Fleet, after: SignIns, result: seq<Option<Creds>>, stopped: bool, at: int)
    requires p.Valid() && Inv(p, f) && f.phase == Running && f.job.Adding?
    requires RangeContract(Range(p.setup, f.job.start, f.job.count, true), f.tally, after, result)
    ensures Inv(p, Settled(f, after, result, stopped, at))
  {
  }

  lemma NextInv(p: Plan, f: Fleet, l: Label)
    requires p.Valid() && Inv(p, f) && Enabled(p, f, l)
    ensures Inv(p, Next(p, f, l))
  {
    match l
    case Start(after, result, at) =>
      ProvisionsContract(Range(p.setup, p.indexBase, p.clients, false), f.tally, after, result);
      StartedInv(p, f, after, result, at);
    case Settle(after, result, stopped, at) =>
      ProvisionsContract(Range(p.setup, f.job.start, f.job.count, true), f.tally, after, result);
      SettledInv(p, f, after, result, stopped, at);
    case Hand => HandInv(p, f);
    case RequestAdd(_) =>
    case Commit =>
  }

  lemma {:induction false} ExecInv(p: Plan, f: Fleet, labels: seq<Label>)
    requires p.Valid() && Inv(p, f) && Exec(p, f, labels).Some?
    ensures Inv(p, Exec(p, f, labels).value)
    decreases |labels|
  {
    if labels != [] {
      var before := labels[..|labels| - 1];
      ExecInv(p, f, before);
      NextInv(p, Exec(p, f, before).value, labels[|labels| - 1]);
    }
  }

  // ----- Main results ------------------------------------------------------------------

  ghost predicate Reachable(p: Plan, f: Fleet) {
    exists labels :: Exec(p, INITIAL, labels) == Some(f)
  }

  lemma ReachableInv(p: Plan, f: Fleet)
    requires p.Valid() && Reachable(p, f)
    ensures Inv(p, f)
  {
    var labels :| Exec(p, INITIAL, labels) == Some(f);
    ExecInv(p, INITIAL, labels);
  }

  /** Across start and every sequence of accepted, refused, failed and running adds: the
      clients handed to workers are base, base + 1, ... in order, each once, each on worker
      index mod threads; nothing passes the limit; and between adds exactly `used` of them are
      out. */
  lemma IndicesAreContiguous(p: Plan, f: Fleet)
    requires p.Valid() && Reachable(p, f)
    ensures forall k :: 0 <= k < |f.handed| ==> InPlace(p, k, f.handed[k])
    ensures f.used <= p.indexLimit && |f.handed| <= p.indexLimit
    ensures f.phase == Running && !f.busy ==> |f.handed| == f.used
    ensures f.phase == Running ==> f.used <= |f.handed| && (f.job.Adding? ==> |f.handed| == f.used)
  {
    ReachableInv(p, f);
  }

  /** A failed add consumes no index: nothing it touched was handed out, and the next add that
      is accepted starts where the failed one did. */
  lemma FailedAddConsumesNothing(p: Plan, f: Fleet, l: Label, count: int)
    requires p.Valid() && Reachable(p, f) && l.Settle? && Enabled(p, f, l) && l.result == []
    requires AddRefusal(p, Next(p, f, l), count) == ""
    ensures var g := Next(p, f, l);
            && g.used == f.used && g.handed == f.handed && !g.busy
            && g.addError == (if l.stopped then ADD_ABORTED else ADD_FAILED)
            && Requested(p, g, count).job == Adding(count, f.job.start)
  {
    ReachableInv(p, f);
  }

  /** With a required roster nobody ever signs in; while no range has failed, every client
      obtained is in exactly one of the three session counters. */
  lemma SessionsAreBooked(p: Plan, f: Fleet)
    requires p.Valid() && Reachable(p, f)
    ensures p.setup.rosterFile && p.setup.rosterRequired ==> f.tally.mintedBefore == 0 && f.tally.mintedDuring == 0
    ensures !f.spoilt ==> f.tally.reused + f.tally.mintedBefore + f.tally.mintedDuring == Obtained(f)
    ensures !RunStarted(f) ==> f.tally.mintedDuring == 0
  {
    ReachableInv(p, f);
  }

  /** Once the run has started, the count of sessions minted before it never moves again. */
  lemma {:induction false} MintedBeforeIsFrozen(p: Plan, f: Fleet, labels: seq<Label>)
    requires p.Valid() && RunStarted(f) && Exec(p, f, labels).Some?
    ensures RunStarted(Exec(p, f, labels).value)
    ensures Exec(p, f, labels).value.tally.mintedBefore == f.tally.mintedBefore
    decreases |labels|
  {
    if labels != [] {
      var before, l := labels[..|labels| - 1], labels[|labels| - 1];
      MintedBeforeIsFrozen(p, f, before);
      var g := Exec(p, f, before).value;
      if l.Settle? {
        ProvisionsContract(Range(p.setup, g.job.start, g.job.count, true), g.tally, l.after, l.result);
      }
    }
  }

  /** Two generators with disjoint index ranges never run the same account, whatever adds each
      of them saw, and neither runs one twice. */
  lemma FleetAccountsDistinct(p: Plan, f: Fleet, q: Plan, g: Fleet, email: string, pattern: string, width: nat, i: nat, j: nat)
    requires p.Valid() && Reachable(p, f) && q.Valid() && Reachable(q, g)
    requires forall k :: p.setup.emailOf(k) == DerivedEmail.Derived(email, pattern, width, k)
    requires forall k :: q.setup.emailOf(k) == DerivedEmail.Derived(email, pattern, width, k)
    requires 1 <= width <= 16 && DerivedEmail.Contains(DerivedEmail.Personalised(email, pattern), "{index}")
    requires p.indexBase + p.indexLimit <= DerivedEmail.INT_MAX && q.indexBase + q.indexLimit <= DerivedEmail.INT_MAX
    requires i < |f.handed| && j < |g.handed|
    requires p.indexBase + p.indexLimit <= q.indexBase || (p == q && f == g && i != j)
    ensures f.handed[i].add.creds.email != g.handed[j].add.creds.email
  {
    hide Reachable, DerivedEmail.Derived, DerivedEmail.Contains, DerivedEmail.Personalised;
    IndicesAreContiguous(p, f);
    IndicesAreContiguous(q, g);
    assert InPlace(p, i, f.handed[i]) && InPlace(q, j, g.handed[j]);
    DerivedEmail.AccountsDistinct(email, pattern, width, p.indexBase + i, q.indexBase + j);
  }

  /** Once n^3 clients have been handed out they stand in every chunk of the cube. */
  lemma HandedClientsFillCube(p: Plan, f: Fleet, n: nat, c: CubeSlots.Cell)
    requires p.Valid() && Reachable(p, f) && n >= 1 && CubeSlots.Slots(n) <= |f.handed| && CubeSlots.InCube(n, c)
    ensures exists k :: 0 <= k < |f.handed| && CubeSlots.CellOf(n, f.handed[k].add.creds.index) == c
  {
    hide Reachable, CubeSlots.CellOf, CubeSlots.InCube;
    IndicesAreContiguous(p, f);
    CubeSlots.WindowFillsCube(n, p.indexBase);
    var i :| p.indexBase <= i < p.indexBase + CubeSlots.Slots(n) && CubeSlots.CellOf(n, i) == c;
    assert InPlace(p, i - p.indexBase, f.handed[i - p.indexBase]);
  }

  // ----- The harness object ------------------------------------------------------------

  /** Everything still to be handed out, handed out. */
  function HandedAll(p: Plan, f: Fleet): (g: Fleet)
    requires p.threads >= 1 && p.rampBatchSize >= 1 && f.job.HandOut? && f.job.next <= |f.job.creds|
    ensures CanCommit(g) && g.phase == f.phase && g.job.creds == f.job.creds
    decreases |f.job.creds| - f.job.next
  {
    if f.job.next == |f.job.creds| then f else HandedAll(p, HandedNext(p, f))
  }

  /** A whole `runAdd`. */
  function Added(p: Plan, f: Fleet, after: SignIns, result: seq<Option<Creds>>, stopped: bool, rampStart: int): Fleet
    requires p.threads >= 1 && p.rampBatchSize >= 1
  {
    var g := Settled(f, after, result, stopped, rampStart);
    if result == [] then g else Committed(HandedAll(p, g))
  }

  /** The clients on their way to one worker, in the order they were handed out. */
  function Inbox(handed: seq<Handed>, w: nat): seq<Protocol.PendingAdd> {
    if handed == [] then []
    else
      var h := handed[|handed| - 1];
      Inbox(handed[..|handed| - 1], w) + if h.worker == w then [h.add] else []
  }

  lemma InboxAppend(handed: seq<Handed>, h: Handed, from: nat)
    requires from <= |handed|
    ensures forall w :: Inbox((handed + [h])[from..], w) == Inbox(handed[from..], w) + if h.worker == w then [h.add] else []
  {
    assert (handed + [h])[from..] == handed[from..] + [h];
    assert (handed[from..] + [h])[..|handed| - from] == handed[from..];
  }

  lemma NothingHanded()
    ensures forall w :: Inbox([], w) == []
  {
  }

  /** Handing out one by one is a run of the machine. */
  lemma {:induction false} HandedAllIsRun(p: Plan, f: Fleet)
    requires p.threads >= 1 && p.rampBatchSize >= 1 && f.job.HandOut? && f.job.next <= |f.job.creds|
    ensures exists labels :: Exec(p, f, labels) == Some(HandedAll(p, f))
    decreases |f.job.creds| - f.job.next
  {
    if f.job.next == |f.job.creds| {
      assert Exec(p, f, []) == Some(f);
    } else {
      HandedAllIsRun(p, HandedNext(p, f));
      var rest :| Exec(p, HandedNext(p, f), rest) == Some(HandedAll(p, HandedNext(p, f)));
      assert Exec(p, f, []) == Some(f) && [Hand][..0] == [];
      assert Exec(p, f, [Hand]) == Some(HandedNext(p, f));
      ExecSplit(p, f, [Hand], rest);
    }
  }

  lemma {:induction false} ExecSplit(p: Plan, f: Fleet, a: seq<Label>, b: seq<Label>)
    requires Exec(p, f, a).Some?
    ensures Exec(p, f, a + b) == Exec(p, Exec(p, f, a).value, b)
    decreases |b|
  {
    if b == [] {
      assert a + b == a;
    } else {
      ExecSplit(p, f, a, b[..|b| - 1]);
      assert (a + b)[..|a + b| - 1] == a + b[..|b| - 1];
    }
  }

  /** A whole `runAdd` is a run of the machine, so all of the above holds after it. */
  lemma AddedIsReachable(p: Plan, f: Fleet, after: SignIns, result: seq<Option<Creds>>, stopped: bool, rampStart: int)
    requires p.Valid() && Reachable(p, f) && Enabled(p, f, Settle(after, result, stopped, rampStart))
    ensures Reachable(p, Added(p, f, after, result, stopped, rampStart))
  {
    var l := Settle(after, result, stopped, rampStart);
    var g := Settled(f, after, result, stopped, rampStart);
    ReachableStep(p, f, l);
    if result != [] {
      HandedAllIsRun(p, g);
      var labels :| Exec(p, g, labels) == Some(HandedAll(p, g));
      var sofar :| Exec(p, INITIAL, sofar) == Some(g);
      ExecSplit(p, INITIAL, sofar, labels);
      ReachableStep(p, HandedAll(p, g), Commit);
    }
  }

  lemma ReachableStep(p: Plan, f: Fleet, l: Label)
    requires Reachable(p, f) && Enabled(p, f, l)
    ensures Reachable(p, Next(p, f, l))
  {
    var labels :| Exec(p, INITIAL, labels) == Some(f);
    assert (labels + [l])[..|labels|] == labels;
    assert Exec(p, INITIAL, labels + [l]) == Some(Next(p, f, l));
  }

  class Harness {
    const plan: Plan
    const workers: seq<Worker>
    var used: nat
    var busy: bool
    var addError: string
    var signIns: SignIns
    ghost var phase: Phase
    ghost var job: Job
    ghost var handed: seq<Handed>
    ghost var spoilt: bool

    constructor (plan: Plan, workers: seq<Worker>)
      ensures this.plan == plan && this.workers == workers && View() == INITIAL
    {
      this.plan, this.workers := plan, workers;
      used, busy, addError, signIns := 0, false, "", SignIns(0, 0, 0);
      phase, job, handed, spoilt := New, NoJob, [], false;
    }

    ghost function View(): Fleet
      reads this
    {
      Fleet(phase, used, busy, addError, job, handed, signIns, spoilt)
    }

    /** One worker object per thread. */
    ghost predicate Staffed() {
      && plan.Valid() && |workers| == plan.threads
      && forall i, j :: 0 <= i < j < |workers| ==> workers[i] != workers[j]
    }

    /** One turn of the loop in `distribute`. */
    method HandOne(creds: seq<Creds>, i: nat, rampStart: int)
      requires Staffed() && i < |creds| && job == HandOut(creds, i, rampStart)
      modifies this`job, this`handed, workers
      ensures View() == HandedNext(plan, old(View()))
      ensures forall w :: 0 <= w < |workers| ==>
                var h := Dealt(plan, creds, i, rampStart);
                workers[w].pending == old(workers[w].pending) + if h.worker == w then [h.add] else []
    {
      var batch := i / plan.rampBatchSize;
      var activateAt := rampStart + batch * (plan.rampIntervalMs * MS);
      var workerIdx := WorkerOf(plan, creds[i].index);
      workers[workerIdx].AddClient(creds[i], activateAt);
      handed, job := handed + [Dealt(plan, creds, i, rampStart)], job.(next := i + 1);
    }

    /** Deal the credentials to the workers' queues, ramp batch by ramp batch. */
    method Distribute(creds: seq<Creds>, rampStart: int)
      requires Staffed() && job == HandOut(creds, 0, rampStart)
      modifies this`job, this`handed, workers
      ensures View() == HandedAll(plan, old(View()))
      ensures |handed| == |old(handed)| + |creds| && handed[..|old(handed)|] == old(handed)
      ensures forall w :: 0 <= w < |workers| ==>
                workers[w].pending == old(workers[w].pending) + Inbox(handed[|old(handed)|..], w)
    {
      NothingHanded();
      assert handed[|handed|..] == [];
      hide Inbox, Dealt;
      for i := 0 to |creds|
        invariant job == HandOut(creds, i, rampStart)
        invariant HandedAll(plan, View()) == HandedAll(plan, old(View()))
        invariant |handed| == |old(handed)| + i && handed[..|old(handed)|] == old(handed)
        invariant forall w :: 0 <= w < |workers| ==>
                    workers[w].pending == old(workers[w].pending) + Inbox(handed[|old(handed)|..], w)
      {
        InboxAppend(handed, Dealt(plan, creds, i, rampStart), |old(handed)|);
        HandOne(creds, i, rampStart);
      }
    }

    method RequestAdd(count: int) returns (error: string)
      requires phase == Running
      modifies this`busy, this`addError, this`job
      ensures error == AddRefusal(plan, old(View()), count)
      ensures View() == Requested(plan, old(View()), count)
    {
      if count < 1 {
        return NO_COUNT;
      }
      if busy {
        return ADD_RUNNING;
      }
      if used + count > plan.indexLimit {
        return OVER_LIMIT;
      }
      busy, addError, job := true, "", Adding(count, plan.indexBase + used);
      return "";
    }

    /** `result` and `after` are what `provisionRange` returned and left in the counters. */
    method RunAdd(after: SignIns, result: seq<Option<Creds>>, stopped: bool, rampStart: int)
      requires Staffed() && phase == Running && job.Adding? && |result| in {0, job.count}
      modifies this`used, this`busy, this`addError, this`signIns, this`job, this`handed, this`spoilt, workers
      ensures View() == Added(plan, old(View()), after, result, stopped, rampStart)
      ensures |old(handed)| <= |handed|
      ensures forall w :: 0 <= w < |workers| ==>
                workers[w].pending == old(workers[w].pending) + Inbox(handed[|old(handed)|..], w)
    {
      signIns := after;
      if result == [] {
        busy, addError, job, spoilt := false, if stopped then ADD_ABORTED else ADD_FAILED, NoJob, true;
        return;
      }
      job := HandOut(Vector(result), 0, rampStart);
      Distribute(Vector(result), rampStart);
      used, busy, addError, job := used + |result|, false, "", NoJob;
    }

    /** The part of `start` that fills the workers. */
    method Start(after: SignIns, result: seq<Option<Creds>>, rampStart: int) returns (ok: bool)
      requires Staffed() && phase == New && (plan.clients == 0 ==> after == signIns)
      modifies this`used, this`signIns, this`job, this`handed, this`spoilt, this`phase, workers
      ensures ok <==> plan.clients == 0 || result != []
      ensures var f := Started(plan, old(View()), after, result, rampStart);
              View() == if plan.clients > 0 && ok then Committed(HandedAll(plan, f)) else f
    {
      if plan.clients == 0 {
        phase := Running;
        return true;
      }
      signIns := after;
      if result == [] {
        phase, spoilt := Failed, true;
        return false;
      }
      used, phase := |result|, Starting;
      job := HandOut(Vector(result), 0, rampStart);
      Distribute(Vector(result), rampStart);
      job, phase := NoJob, Running;
      return true;
    }
  }
}
