/** Lifetime counters and rung windows (`Stats` in `Stats.cpp`): a window is the lifetime
    snapshot minus the snapshot taken when the window was marked, with a maximum of its own. */
module Windows {
  import opened Bytes
  import opened Percentile
  import opened Snapshot

  /** The moments of a mark and of a later reading, as numbers of events counted by then.
      `markWindow` loads its origin and later resets the window maximum; `loadWindow` loads the
      lifetime and later, once the mark is over, reads that maximum.  The two lifetime loads
      are outside the lock and may come in either order. */
  datatype Moments = Moments(origin: nat, reset: nat, now: nat, maximum: nat)

  predicate Possible(es: seq<Event>, m: Moments) {
    m.origin <= m.reset <= m.maximum <= |es| && m.now <= m.maximum
  }

  /** What `loadWindow` reports. */
  function Window(es: seq<Event>, m: Moments): Snap
    requires Possible(es, m)
  {
    Minus(Summary(es[..m.now]), Summary(es[..m.origin])).(latencyMaxMs := Summary(es[m.reset..m.maximum]).latencyMaxMs)
  }

  /** What it should: the events between the two lifetime loads, none if the mark came last. */
  function Since(es: seq<Event>, m: Moments): seq<Event>
    requires Possible(es, m)
  {
    if m.origin <= m.now then es[m.origin..m.now] else []
  }

  lemma {:induction false} TalliesGrow(es: seq<Event>)
    ensures var s := Summary(es); s.signInReused >= 0 && s.signInMintedBefore >= 0 && s.signInMintedDuring >= 0
    decreases |es|
  {
    if es != [] {
      TalliesGrow(es[..|es| - 1]);
      ObserveTallies(Summary(es[..|es| - 1]), es[|es| - 1]);
    }
  }

  lemma ObserveTallies(s: Snap, e: Event)
    ensures var t := Observe(s, e);
            t.signInReused >= s.signInReused && t.signInMintedBefore >= s.signInMintedBefore && t.signInMintedDuring >= s.signInMintedDuring
  {
  }

  lemma OvertakenIsEmpty(a: Snap, d: Snap)
    requires d.signInReused >= 0 && d.signInMintedBefore >= 0 && d.signInMintedDuring >= 0
    ensures Minus(a, Plus(a, d)).(latencyMaxMs := 0) == Zero()
  {
    assert SatSubAll(a.latencyHist, AddAll(a.latencyHist, d.latencyHist)) == EmptyHistogram();
    assert SatSubAll(a.errorCodes, AddAll(a.errorCodes, d.errorCodes)) == EmptyCodes();
  }

  /** For every order in which a mark's and a reading's accesses fall among the events, the
      window is the summary of exactly the events since the mark, if and only if the sign-in
      tallies grew by no more than the cap of their subtraction and the largest latency between
      the reset and the reading of the maximum equals the largest between the lifetime loads. */
  lemma WindowCountsSinceMark(es: seq<Event>, m: Moments)
    requires Possible(es, m)
    ensures Window(es, m) == Summary(Since(es, m)) <==>
            WithinCap(Summary(Since(es, m))) && Summary(es[m.reset..m.maximum]).latencyMaxMs == Summary(Since(es, m)).latencyMaxMs
  {
    hide Summary, Minus, Plus;
    if m.origin <= m.now {
      assert es[..m.now] == es[..m.origin] + es[m.origin..m.now];
      SummaryAppend(es[..m.origin], es[m.origin..m.now]);
      MinusUndoesPlus(Summary(es[..m.origin]), Summary(es[m.origin..m.now]));
    } else {
      assert es[..m.origin] == es[..m.now] + es[m.now..m.origin];
      SummaryAppend(es[..m.now], es[m.now..m.origin]);
      TalliesGrow(es[m.now..m.origin]);
      OvertakenIsEmpty(Summary(es[..m.now]), Summary(es[m.now..m.origin]));
      NothingIsZero();
    }
  }

  lemma NothingIsZero()
    ensures Summary([]) == Zero()
  {
  }

  /** A latency counted between the two halves of a mark is a sample of the new window, which
      then reports a maximum of zero. */
  lemma MaximumSlipsThroughMark()
    ensures var w := Window([Latency(9)], Moments(0, 1, 1, 1)); w.latencySamples == 1 && w.latencyMaxMs == 0
  {
    SummaryOfOne(Latency(9));
    assert [Latency(9)][..1] == [Latency(9)] && [Latency(9)][..0] == [] && [Latency(9)][1..1] == [];
  }

  /** And one counted between the two halves of a reading is a maximum without a sample. */
  lemma MaximumSlipsIntoReading()
    ensures var w := Window([Latency(9)], Moments(0, 0, 0, 1)); w.latencySamples == 0 && w.latencyMaxMs == 9
  {
    SummaryOfOne(Latency(9));
    assert [Latency(9)][0..1] == [Latency(9)] && [Latency(9)][..0] == [];
  }

  lemma SummaryOfOne(e: Event)
    ensures Summary([e]) == Observe(Zero(), e)
  {
    assert [e][..0] == [];
  }

  /** A mark and a reading with nothing counted inside either. */
  function CleanWindow(before: seq<Event>, since: seq<Event>): Snap {
    Window(before + since, Moments(|before|, |before|, |before + since|, |before + since|))
  }

  lemma CleanWindowCounts(before: seq<Event>, since: seq<Event>)
    ensures CleanWindow(before, since) == Summary(since) <==> WithinCap(Summary(since))
  {
    hide Summary, Minus;
    var es := before + since;
    assert es[|before|..|es|] == since;
    WindowCountsSinceMark(es, Moments(|before|, |before|, |es|, |es|));
  }

  /** The windows of consecutive marks, each read just before the next mark, added up. */
  function WindowsAdded(before: seq<Event>, stretches: seq<seq<Event>>): Snap
    decreases |stretches|
  {
    if stretches == [] then Zero()
    else
      var rest := stretches[..|stretches| - 1];
      Plus(WindowsAdded(before, rest), CleanWindow(before + Concat(rest), stretches[|stretches| - 1]))
  }

  /** Windows tile the lifetime: they add up to what was counted since the first mark, and the
      lifetime snapshot is the first origin plus all of them. */
  lemma {:induction false} WindowsTile(before: seq<Event>, stretches: seq<seq<Event>>)
    requires forall k :: 0 <= k < |stretches| ==> WithinCap(Summary(stretches[k]))
    ensures WindowsAdded(before, stretches) == Summary(Concat(stretches))
    ensures Summary(before + Concat(stretches)) == Plus(Summary(before), WindowsAdded(before, stretches))
    decreases |stretches|
  {
    hide Summary, Plus, CleanWindow;
    if stretches == [] {
      NothingIsZero();
    } else {
      var rest, last := stretches[..|stretches| - 1], stretches[|stretches| - 1];
      WindowsTile(before, rest);
      CleanWindowCounts(before + Concat(rest), last);
      SummaryAppend(Concat(rest), last);
    }
    SummaryAppend(before, Concat(stretches));
  }

  // ----- Loads one by one --------------------------------------------------------------

  /** Everything a snapshot loads on its own. */
  datatype Cell = Plain(c: Counter) | Code(code: byte) | Bucket(b: nat) | Samples | SumMs

  predicate IsCell(x: Cell) {
    x.Bucket? ==> x.b < BUCKETS
  }

  function Held(s: Snap, x: Cell): nat
    requires IsCell(x)
  {
    match x
    case Plain(c) => Value(s, c)
    case Code(code) => s.errorCodes[code]
    case Bucket(b) => s.latencyHist[b]
    case Samples => s.latencySamples
    case SumMs => s.latencySumMs
  }

  /** What the events count into it. */
  function Counted(es: seq<Event>, x: Cell): nat
    requires IsCell(x)
  {
    match x
    case Plain(c) => Total(es, c)
    case Code(code) => Errors(es, code)
    case Bucket(b) => HistogramOf(Latencies(es))[b]
    case Samples => |Latencies(es)|
    case SumMs => Sum(Latencies(es))
  }

  lemma HeldIsCounted(es: seq<Event>, x: Cell)
    requires IsCell(x)
    ensures Held(Summary(es), x) == Counted(es, x)
  {
    hide Summary, HistogramOf, Value, Total, Errors, Sum;
    SummaryLatencies(es);
    match x
    case Plain(c) => SummaryCounts(es, c, 0);
    case Code(code) => SummaryCounts(es, TxPackets, code);
    case _ =>
  }

  lemma HeldPlus(a: Snap, b: Snap, x: Cell)
    requires IsCell(x)
    ensures Held(Plus(a, b), x) == Held(a, x) + Held(b, x)
  {
    match x
    case Plain(c) => PlusValue(a, b, c);
    case _ =>
  }

  lemma PlusValue(a: Snap, b: Snap, c: Counter)
    ensures Value(Plus(a, b), c) == Value(a, c) + Value(b, c)
  {
  }

  /** A snapshot loads its cells one at a time while others count, so every cell has moments of
      its own: loaded after origin(x) events for the mark and after now(x) for the reading, its
      difference is exactly what was counted in between, and 0 if the mark came last.  In the
      first case the subtraction does not saturate. */
  lemma TornLoadsAreExact(es: seq<Event>, origin: Cell -> nat, now: Cell -> nat, x: Cell)
    requires IsCell(x) && origin(x) <= |es| && now(x) <= |es|
    ensures SatSub(Held(Summary(es[..now(x)]), x), Held(Summary(es[..origin(x)]), x))
         == if origin(x) <= now(x) then Counted(es[origin(x)..now(x)], x) else 0
    ensures origin(x) <= now(x) ==> Held(Summary(es[..now(x)]), x) >= Held(Summary(es[..origin(x)]), x)
  {
    hide Summary, Counted, Held;
    var t, u := origin(x), now(x);
    var lo, hi := if t <= u then t else u, if t <= u then u else t;
    assert es[..hi] == es[..lo] + es[lo..hi];
    SummaryAppend(es[..lo], es[lo..hi]);
    HeldPlus(Summary(es[..lo]), Summary(es[lo..hi]), x);
    HeldIsCounted(es[lo..hi], x);
  }

  // ----- The object --------------------------------------------------------------------

  class Stats {
    var now: Snap
    var windowLatencyMaxMs: nat
    var windowOrigin: Snap
    var rungId: string
    ghost var events: seq<Event>
    ghost var mark: nat

    ghost predicate Valid()
      reads this
    {
      && mark <= |events| && now == Summary(events) && windowOrigin == Summary(events[..mark])
      && windowLatencyMaxMs == Summary(events[mark..]).latencyMaxMs
    }

    constructor ()
      ensures Valid() && events == [] && mark == 0 && rungId == ""
    {
      now, windowLatencyMaxMs, windowOrigin, rungId := Zero(), 0, Zero(), "";
      events, mark := [], 0;
    }

    /** The window maximum follows the events since the mark. */
    ghost method Note(e: Event)
      requires mark <= |events|
      modifies this`events
      ensures events == old(events) + [e]
      ensures events[..mark] == old(events[..mark])
      ensures Summary(events) == Observe(Summary(old(events)), e)
      ensures Summary(events[mark..]) == Observe(Summary(old(events[mark..])), e)
    {
      events := events + [e];
      assert events[..|events| - 1] == old(events);
      assert events[mark..] == old(events[mark..]) + [e];
      assert events[mark..][..|events[mark..]| - 1] == old(events[mark..]);
    }

    /** Any of the plain counters. */
    method FetchAdd(c: Counter, n: nat)
      requires Valid()
      modifies this`now, this`events
      ensures Valid() && mark == old(mark) && events == old(events) + [Bump(c, n)]
    {
      Note(Bump(c, n));
      BumpedKeeps(Summary(old(events[mark..])), c, n);
      now := Bumped(now, c, n);
    }

    method CountError(code: byte)
      requires Valid()
      modifies this`now, this`events
      ensures Valid() && mark == old(mark) && events == old(events) + [Error(code)]
    {
      Note(Error(code));
      now := Refused(now, code);
    }

    method RecordLatencyMs(latency: int)
      requires Valid()
      modifies this`now, this`windowLatencyMaxMs, this`events
      ensures Valid() && mark == old(mark) && events == old(events) + [Latency(latency)]
    {
      Note(Latency(latency));
      var ms := if latency < 0 then 0 else latency;
      var bucket := FindBucket(ms);
      assert bucket == BucketOf(latency);
      if ms > windowLatencyMaxMs {
        windowLatencyMaxMs := ms;
      }
      now := Timed(now, ms, bucket);
    }

    /** The provisioner's tallies only grow. */
    method SetSignIn(reused: nat, before: nat, during: nat)
      requires Valid()
      requires reused >= now.signInReused && before >= now.signInMintedBefore && during >= now.signInMintedDuring
      modifies this`now, this`events
      ensures Valid() && mark == old(mark)
      ensures now.signInReused == reused && now.signInMintedBefore == before && now.signInMintedDuring == during
      ensures |events| == |old(events)| + 1 && events[..|old(events)|] == old(events) && events[|old(events)|].SignIn?
    {
      Note(SignIn(reused - now.signInReused, before - now.signInMintedBefore, during - now.signInMintedDuring));
      now := now.(signInReused := reused, signInMintedBefore := before, signInMintedDuring := during);
    }

    method MarkWindow(id: string)
      requires Valid()
      modifies this`windowOrigin, this`rungId, this`windowLatencyMaxMs, this`mark
      ensures Valid() && mark == |events| && rungId == id
    {
      windowOrigin, rungId, windowLatencyMaxMs := now, id, 0;
      mark := |events|;
      assert events[..mark] == events && events[mark..] == [];
    }

    method LoadWindow() returns (d: Snap)
      requires Valid()
      ensures d == Summary(events[mark..]) <==> WithinCap(Summary(events[mark..]))
      ensures d == CleanWindow(events[..mark], events[mark..])
    {
      d := Minus(now, windowOrigin);
      d := d.(latencyMaxMs := windowLatencyMaxMs);
      assert events[..mark] + events[mark..] == events && events[mark..|events|] == events[mark..] && events[..|events|] == events;
      CleanWindowCounts(events[..mark], events[mark..]);
    }
  }
}
