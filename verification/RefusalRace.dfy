/** The refusal handlers of the workers racing with a snapshot's loads (`Worker.cpp`, `Stats.cpp`).

    A handler first counts the error code and then, for UNAUTHORIZED, at most one explanation.
    A snapshot loads first-contact, then window-reload, then the error codes.  Steps are single
    accesses to shared counters in a sequentially consistent order.
 */
module RefusalRace {
  import opened Bytes

  datatype Reading = Reading(firstContact: nat, windowReload: nat, unauthorized: nat)

  /** How far the snapshot thread has come. */
  datatype Progress = Between | LoadedFirst(f: nat) | LoadedReload(f: nat, w: nat)

  /** `deciding[k]`: worker k has counted a refusal it has not explained yet. */
  datatype State = State(firstContact: nat, windowReload: nat, unauthorized: nat, deciding: seq<bool>,
                         progress: Progress, readings: seq<Reading>)

  datatype Step =
    | Count(worker: nat)
    | FirstContact(worker: nat)
    | WindowReload(worker: nat)
    | Neither(worker: nat)
    | LoadFirst
    | LoadReload
    | LoadCodes

  function Initial(workers: nat): State {
    State(0, 0, 0, seq(workers, _ => false), Between, [])
  }

  predicate Deciding(s: State, worker: nat) {
    worker < |s.deciding| && s.deciding[worker]
  }

  predicate Enabled(s: State, a: Step) {
    match a
    case Count(k) => k < |s.deciding| && !s.deciding[k]
    case FirstContact(k) => Deciding(s, k)
    case WindowReload(k) => Deciding(s, k)
    case Neither(k) => Deciding(s, k)
    case LoadFirst => s.progress.Between?
    case LoadReload => s.progress.LoadedFirst?
    case LoadCodes => s.progress.LoadedReload?
  }

  function Next(s: State, a: Step): State
    requires Enabled(s, a)
  {
    match a
    case Count(k) => s.(unauthorized := s.unauthorized + 1, deciding := s.deciding[k := true])
    case FirstContact(k) => s.(firstContact := s.firstContact + 1, deciding := s.deciding[k := false])
    case WindowReload(k) => s.(windowReload := s.windowReload + 1, deciding := s.deciding[k := false])
    case Neither(k) => s.(deciding := s.deciding[k := false])
    case LoadFirst => s.(progress := LoadedFirst(s.firstContact))
    case LoadReload => s.(progress := LoadedReload(s.progress.f, s.windowReload))
    case LoadCodes =>
      s.(progress := Between, readings := s.readings + [Reading(s.progress.f, s.progress.w, s.unauthorized)])
  }

  function Exec(s: State, steps: seq<Step>): Option<State>
    decreases |steps|
  {
    if steps == [] then Some(s)
    else
      match Exec(s, steps[..|steps| - 1])
      case None => None
      case Some(t) => if Enabled(t, steps[|steps| - 1]) then Some(Next(t, steps[|steps| - 1])) else None
  }

  // ----- Invariant ---------------------------------------------------------------------

  function Undecided(deciding: seq<bool>): nat {
    if deciding == [] then 0 else Undecided(deciding[..|deciding| - 1]) + if deciding[|deciding| - 1] then 1 else 0
  }

  predicate Explained(r: Reading) {
    r.firstContact + r.windowReload <= r.unauthorized
  }

  ghost predicate Inv(s: State) {
    && s.firstContact + s.windowReload + Undecided(s.deciding) <= s.unauthorized
    && (s.progress.LoadedFirst? ==> s.progress.f <= s.firstContact)
    && (s.progress.LoadedReload? ==> s.progress.f <= s.firstContact && s.progress.w <= s.windowReload)
    && (forall k :: 0 <= k < |s.readings| ==> Explained(s.readings[k]))
    && (forall k, l :: 0 <= k < l < |s.readings| ==> NoLater(s.readings[k], s.readings[l]))
    && (forall k :: 0 <= k < |s.readings| ==> Behind(s, s.readings[k]))
  }

  predicate NoLater(a: Reading, b: Reading) {
    a.firstContact <= b.firstContact && a.windowReload <= b.windowReload && a.unauthorized <= b.unauthorized
  }

  /** Whatever the snapshot loads from here on is at least this reading. */
  predicate Behind(s: State, r: Reading) {
    && r.unauthorized <= s.unauthorized
    && r.firstContact <= (match s.progress case Between => s.firstContact case LoadedFirst(f) => f case LoadedReload(f, _) => f)
    && r.windowReload <= (match s.progress case LoadedReload(_, w) => w case _ => s.windowReload)
  }

  lemma {:induction false} UndecidedUpdate(d: seq<bool>, k: nat, b: bool)
    requires k < |d|
    ensures Undecided(d[k := b]) == Undecided(d) + (if b then 1 else 0) - (if d[k] then 1 else 0)
    decreases |d|
  {
    var last := |d| - 1;
    if k == last {
      assert d[k := b][..last] == d[..last];
    } else {
      UndecidedUpdate(d[..last], k, b);
      assert d[k := b][..last] == d[..last][k := b];
    }
  }

  lemma {:induction false} UndecidedNone(d: seq<bool>)
    requires forall k :: 0 <= k < |d| ==> !d[k]
    ensures Undecided(d) == 0
    decreases |d|
  {
    if d != [] {
      UndecidedNone(d[..|d| - 1]);
    }
  }

  lemma NextInv(s: State, a: Step)
    requires Inv(s) && Enabled(s, a)
    ensures Inv(Next(s, a))
  {
    match a
    case Count(k) => UndecidedUpdate(s.deciding, k, true);
    case FirstContact(k) => UndecidedUpdate(s.deciding, k, false);
    case WindowReload(k) => UndecidedUpdate(s.deciding, k, false);
    case Neither(k) => UndecidedUpdate(s.deciding, k, false);
    case _ =>
  }

  lemma {:induction false} ExecInv(s: State, steps: seq<Step>)
    requires Inv(s) && Exec(s, steps).Some?
    ensures Inv(Exec(s, steps).value)
    decreases |steps|
  {
    if steps != [] {
      ExecInv(s, steps[..|steps| - 1]);
      NextInv(Exec(s, steps[..|steps| - 1]).value, steps[|steps| - 1]);
    }
  }

  // ----- Main results ------------------------------------------------------------------

  /** What the report prints: the difference, or 0 if it were negative. */
  function Unexplained(r: Reading): nat {
    if r.unauthorized > r.firstContact + r.windowReload then r.unauthorized - r.firstContact - r.windowReload else 0
  }

  function Difference(now: Reading, origin: Reading): Reading {
    Reading(if now.firstContact >= origin.firstContact then now.firstContact - origin.firstContact else 0,
            if now.windowReload >= origin.windowReload then now.windowReload - origin.windowReload else 0,
            if now.unauthorized >= origin.unauthorized then now.unauthorized - origin.unauthorized else 0)
  }

  /** For every interleaving, the unexplained count of every lifetime snapshot is an exact
      difference, never a clamp, and later snapshots never go back. */
  lemma LifetimeIsExact(workers: nat, steps: seq<Step>, k: nat)
    requires Exec(Initial(workers), steps).Some? && k < |Exec(Initial(workers), steps).value.readings|
    ensures var r := Exec(Initial(workers), steps).value.readings[k];
            Unexplained(r) + r.firstContact + r.windowReload == r.unauthorized
  {
    UndecidedNone(Initial(workers).deciding);
    ExecInv(Initial(workers), steps);
    assert Explained(Exec(Initial(workers), steps).value.readings[k]);
  }

  /** Nothing is under way when the snapshot loads the codes: no handler has counted a refusal it
      has yet to explain, and neither explanation has moved since it was loaded. */
  ghost predicate CleanMark(s: State) {
    && s.progress.LoadedReload? && s.progress.f == s.firstContact && s.progress.w == s.windowReload
    && forall k :: 0 <= k < |s.deciding| ==> !s.deciding[k]
  }

  /** The window between two readings prints an exact difference. */
  predicate ExactWindow(now: Reading, origin: Reading) {
    var d := Difference(now, origin);
    Unexplained(d) + d.firstContact + d.windowReload == d.unauthorized
  }

  /** Whatever follows, every window that this reading opens is exact. */
  ghost predicate AlwaysExact(s: State, k: nat) {
    forall steps :: Exec(s, steps).Some? ==> WindowsExact(Exec(s, steps).value, k)
  }

  ghost predicate WindowsExact(s: State, k: nat) {
    k < |s.readings| && forall l :: k < l < |s.readings| ==> ExactWindow(s.readings[l], s.readings[k])
  }

  // ----- From a clean mark on ----------------------------------------------------------

  /** Explanations since the mark, pending ones included, never exceed the refusals since. */
  ghost predicate Ahead(mark: Reading, k: nat, s: State) {
    && |s.readings| > k && s.readings[k] == mark
    && mark.unauthorized <= s.unauthorized && mark.firstContact <= s.firstContact && mark.windowReload <= s.windowReload
    && s.firstContact + s.windowReload + Undecided(s.deciding) - mark.firstContact - mark.windowReload
         <= s.unauthorized - mark.unauthorized
    && (!s.progress.Between? ==> mark.firstContact <= s.progress.f <= s.firstContact)
    && (s.progress.LoadedReload? ==> mark.windowReload <= s.progress.w <= s.windowReload)
    && (forall l :: k < l < |s.readings| ==> After(mark, s.readings[l]))
  }

  predicate After(mark: Reading, r: Reading) {
    && NoLater(mark, r)
    && r.firstContact - mark.firstContact + r.windowReload - mark.windowReload <= r.unauthorized - mark.unauthorized
  }

  lemma NextAhead(mark: Reading, k: nat, s: State, a: Step)
    requires Ahead(mark, k, s) && Enabled(s, a)
    ensures Ahead(mark, k, Next(s, a))
  {
    match a
    case Count(w) => UndecidedUpdate(s.deciding, w, true);
    case FirstContact(w) => UndecidedUpdate(s.deciding, w, false);
    case WindowReload(w) => UndecidedUpdate(s.deciding, w, false);
    case Neither(w) => UndecidedUpdate(s.deciding, w, false);
    case _ =>
  }

  lemma {:induction false} ExecAhead(mark: Reading, k: nat, s: State, steps: seq<Step>)
    requires Ahead(mark, k, s) && Exec(s, steps).Some?
    ensures Ahead(mark, k, Exec(s, steps).value)
    decreases |steps|
  {
    if steps != [] {
      ExecAhead(mark, k, s, steps[..|steps| - 1]);
      NextAhead(mark, k, Exec(s, steps[..|steps| - 1]).value, steps[|steps| - 1]);
    }
  }

  // ----- From any other mark -----------------------------------------------------------

  function NonePending(n: nat): seq<bool> {
    seq(n, _ => false)
  }

  function Decided(s: State): State {
    s.(firstContact := s.firstContact + Undecided(s.deciding), deciding := NonePending(|s.deciding|))
  }

  lemma ExplainOne(s: State, k: nat)
    requires Deciding(s, k)
    ensures Enabled(s, FirstContact(k)) && Undecided(Next(s, FirstContact(k)).deciding) < Undecided(s.deciding)
    ensures Decided(Next(s, FirstContact(k))) == Decided(s)
  {
    UndecidedUpdate(s.deciding, k, false);
  }

  /** Every pending handler can explain its refusal as a first contact. */
  lemma {:induction false} PendingExplain(s: State)
    ensures exists steps :: Exec(s, steps) == Some(Decided(s))
    decreases Undecided(s.deciding)
  {
    if forall k :: 0 <= k < |s.deciding| ==> !s.deciding[k] {
      UndecidedNone(s.deciding);
      assert s.deciding == NonePending(|s.deciding|);
      assert Exec(s, []) == Some(Decided(s));
    } else {
      hide Exec, Next, Decided;
      var k :| 0 <= k < |s.deciding| && s.deciding[k];
      ExplainOne(s, k);
      var t := Next(s, FirstContact(k));
      PendingExplain(t);
      var steps :| Exec(t, steps) == Some(Decided(t));
      ExecOne(s, FirstContact(k));
      ExecSplit(s, [FirstContact(k)], steps);
    }
  }

  /** A snapshot with nothing counted inside it. */
  lemma SnapshotAtOnce(s: State)
    requires s.progress.Between?
    ensures Exec(s, [LoadFirst, LoadReload, LoadCodes])
         == Some(s.(readings := s.readings + [Reading(s.firstContact, s.windowReload, s.unauthorized)]))
  {
    ExecTwo(s, LoadFirst, LoadReload);
    var t := s.(progress := LoadedReload(s.firstContact, s.windowReload));
    ExecOne(t, LoadCodes);
    ExecSplit(s, [LoadFirst, LoadReload], [LoadCodes]);
    assert [LoadFirst, LoadReload] + [LoadCodes] == [LoadFirst, LoadReload, LoadCodes];
  }

  /** After a mark that is not clean, let the pending handlers explain themselves and take a
      clean snapshot: the window has explanations and no refusal. */
  lemma UncleanMarkClamps(s: State)
    requires Inv(s) && s.progress.LoadedReload? && !CleanMark(s)
    ensures !AlwaysExact(Next(s, LoadCodes), |s.readings|)
  {
    var k, m := |s.readings|, Next(s, LoadCodes);
    PendingExplain(m);
    var steps :| Exec(m, steps) == Some(Decided(m));
    var t := Decided(m);
    SnapshotAtOnce(t);
    ExecSplit(m, steps, [LoadFirst, LoadReload, LoadCodes]);
    var u := Exec(t, [LoadFirst, LoadReload, LoadCodes]).value;
    if s.progress.f == s.firstContact && s.progress.w == s.windowReload {
      SomePending(s.deciding);
    }
    assert !ExactWindow(u.readings[k + 1], u.readings[k]);
    assert !WindowsExact(u, k);
    assert Exec(m, steps + [LoadFirst, LoadReload, LoadCodes]) == Some(u);
  }

  lemma {:induction false} SomePending(d: seq<bool>)
    requires exists k :: 0 <= k < |d| && d[k]
    ensures Undecided(d) > 0
    decreases |d|
  {
    var last := |d| - 1;
    if !d[last] {
      var k :| 0 <= k < |d| && d[k];
      assert d[..last][k];
      SomePending(d[..last]);
    }
  }

  /** A window is the difference of two snapshots.  Whether it can clamp is settled when it is
      opened: in every run, every window that a reading opens is exact in every continuation if
      and only if, when that reading loaded the codes, no handler was pending and neither
      explanation had moved since it was loaded. */
  lemma WindowIsExactIff(workers: nat, steps: seq<Step>)
    requires Exec(Initial(workers), steps).Some? && Exec(Initial(workers), steps).value.progress.LoadedReload?
    ensures var s := Exec(Initial(workers), steps).value;
            AlwaysExact(Next(s, LoadCodes), |s.readings|) <==> CleanMark(s)
  {
    UndecidedNone(Initial(workers).deciding);
    ExecInv(Initial(workers), steps);
    var s := Exec(Initial(workers), steps).value;
    if CleanMark(s) {
      CleanMarkIsExact(s);
    } else {
      UncleanMarkClamps(s);
    }
  }

  lemma CleanMarkIsExact(s: State)
    requires Inv(s) && CleanMark(s)
    ensures AlwaysExact(Next(s, LoadCodes), |s.readings|)
  {
    var k, m := |s.readings|, Next(s, LoadCodes);
    UndecidedNone(s.deciding);
    assert Ahead(m.readings[k], k, m);
    forall steps | Exec(m, steps).Some?
      ensures WindowsExact(Exec(m, steps).value, k)
    {
      ExecAhead(m.readings[k], k, m, steps);
      var t := Exec(m, steps).value;
      forall l | k < l < |t.readings|
        ensures ExactWindow(t.readings[l], t.readings[k])
      {
        assert After(t.readings[k], t.readings[l]);
      }
    }
  }

  /** `n` refusals by one worker, each counted and explained. */
  function Refusals(n: nat): seq<Step> {
    if n == 0 then [] else Refusals(n - 1) + [Count(0), FirstContact(0)]
  }

  lemma {:induction false} ExecSplit(s: State, a: seq<Step>, b: seq<Step>)
    requires Exec(s, a).Some?
    ensures Exec(s, a + b) == Exec(Exec(s, a).value, b)
    decreases |b|
  {
    if b == [] {
      assert a + b == a;
    } else {
      ExecSplit(s, a, b[..|b| - 1]);
      assert (a + b)[..|a + b| - 1] == a + b[..|b| - 1];
    }
  }

  lemma ExecOne(s: State, a: Step)
    requires Enabled(s, a)
    ensures Exec(s, [a]) == Some(Next(s, a))
  {
    assert [a][..0] == [];
  }

  lemma ExecTwo(s: State, a: Step, b: Step)
    requires Enabled(s, a) && Enabled(Next(s, a), b)
    ensures Exec(s, [a, b]) == Some(Next(Next(s, a), b))
  {
    ExecOne(s, a);
    ExecOne(Next(s, a), b);
    ExecSplit(s, [a], [b]);
    assert [a] + [b] == [a, b];
  }

  lemma {:induction false} RefusalsRun(s: State, n: nat)
    requires |s.deciding| >= 1 && !s.deciding[0]
    ensures Exec(s, Refusals(n)) == Some(s.(unauthorized := s.unauthorized + n, firstContact := s.firstContact + n))
  {
    if n > 0 {
      RefusalsRun(s, n - 1);
      var t := Exec(s, Refusals(n - 1)).value;
      ExecSplit(s, Refusals(n - 1), [Count(0), FirstContact(0)]);
      ExecTwo(t, Count(0), FirstContact(0));
      assert t.deciding[0 := true][0 := false] == t.deciding;
    }
  }

  /** A snapshot with n explained refusals between its loads, and one after it. */
  function TornMark(n: nat): seq<Step> {
    [LoadFirst, LoadReload] + Refusals(n) + [LoadCodes] + [LoadFirst, LoadReload] + [LoadCodes]
  }

  /** How much it can hide is unbounded: a mark that loads the explanations
      before, and the codes after, n explained refusals opens a window with n explanations
      and not one refusal. */
  lemma WindowCanClamp(workers: nat, n: nat)
    requires workers >= 1
    ensures Exec(Initial(workers), TornMark(n)).Some?
    ensures var q := Exec(Initial(workers), TornMark(n)).value.readings;
            |q| == 2 && Difference(q[1], q[0]) == Reading(n, 0, 0)
  {
    var s := Initial(workers);
    var a, b := [LoadFirst, LoadReload], Refusals(n);
    ExecTwo(s, LoadFirst, LoadReload);
    var s1 := s.(progress := LoadedReload(0, 0));
    RefusalsRun(s1, n);
    ExecSplit(s, a, b);
    var s2 := s1.(unauthorized := n, firstContact := n);
    ExecOne(s2, LoadCodes);
    ExecSplit(s, a + b, [LoadCodes]);
    var s3 := Next(s2, LoadCodes);
    ExecTwo(s3, LoadFirst, LoadReload);
    ExecSplit(s, a + b + [LoadCodes], a);
    var s4 := s3.(progress := LoadedReload(n, 0));
    ExecOne(s4, LoadCodes);
    ExecSplit(s, a + b + [LoadCodes] + a, [LoadCodes]);
  }
}
