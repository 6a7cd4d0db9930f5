/** Merging the reports of several hosts into one (`mergeFleetStats` in `Stats.cpp`).

    A report is what `buildStatsJson` writes; the counters in it are JSON documents and may be
    anything.  Rates are `real`, so their sums do not depend on rounding.
 */
module FleetMerge {
  import opened Bytes
  import opened Percentile
  import opened Snapshot
  import opened SnapshotJson

  datatype WindowPart = WindowPart(id: Option<string>, open: nat, duration: real, counters: Json)

  datatype Rates = Rates(dtSec: real, txPps: real, txBps: real, rxDps: real, rxBps: real, rxNotifPs: real, avgLatencyMs: real)

  datatype Report = Report(
    used: int, limit: int, busy: bool, rungId: string,
    replayLogging: string, replayRequested: string, replayAtEnd: string,
    active: int, suspended: int,
    lifetime: Json, window: Option<WindowPart>, interval: Option<Rates>)

  /** Everything the merge carries except the rung label. */
  datatype Core = Core(
    life: Snap, win: Snap, used: int, limit: int, active: int, suspended: int, busy: bool,
    open: nat, duration: real, rates: Rates,
    replayLogging: string, replayRequested: string, replayAtEnd: string)

  function Longer(a: real, b: real): real {
    if a >= b then a else b
  }

  /** Earliest open; 0 means the host never opened a window. */
  function Earlier(a: nat, b: nat): nat {
    if b != 0 && (a == 0 || b < a) then b else a
  }

  function Agreed(a: string, b: string): string {
    if a == b then a else "mixed"
  }

  const IDLE := Rates(0.0, 0.0, 0.0, 0.0, 0.0, 0.0, 0.0)

  function AddRates(a: Rates, b: Rates): Rates {
    Rates(Longer(a.dtSec, b.dtSec), a.txPps + b.txPps, a.txBps + b.txBps, a.rxDps + b.rxDps, a.rxBps + b.rxBps,
          a.rxNotifPs + b.rxNotifPs, 0.0)
  }

  function Part(h: Report): Core {
    Core(FromJson(h.lifetime), if h.window.Some? then FromJson(h.window.value.counters) else Zero(),
         h.used, h.limit, h.active, h.suspended, h.busy,
         if h.window.Some? then h.window.value.open else 0,
         if h.window.Some? then Longer(0.0, h.window.value.duration) else 0.0,
         if h.interval.Some? then AddRates(IDLE, h.interval.value) else IDLE,
         h.replayLogging, h.replayRequested, h.replayAtEnd)
  }

  function Join(a: Core, b: Core): Core {
    Core(Plus(a.life, b.life), Plus(a.win, b.win), a.used + b.used, a.limit + b.limit, a.active + b.active,
         a.suspended + b.suspended, a.busy || b.busy, Earlier(a.open, b.open), Longer(a.duration, b.duration),
         AddRates(a.rates, b.rates), Agreed(a.replayLogging, b.replayLogging),
         Agreed(a.replayRequested, b.replayRequested), Agreed(a.replayAtEnd, b.replayAtEnd))
  }

  /** Durations are not negative, and no average is carried across hosts. */
  predicate Normal(c: Core) {
    c.duration >= 0.0 && c.rates.dtSec >= 0.0 && c.rates.avgLatencyMs == 0.0
  }

  function Fold(hosts: seq<Report>): (c: Core)
    requires hosts != []
    ensures Normal(c)
    decreases |hosts|
  {
    var last := |hosts| - 1;
    if last == 0 then Part(hosts[0]) else Join(Fold(hosts[..last]), Part(hosts[last]))
  }

  /** The label of a host's window: its own, or else the host's. */
  function RungOf(h: Report): string
    requires h.window.Some?
  {
    if h.window.value.id.Some? then h.window.value.id.value else h.rungId
  }

  function FirstRung(hosts: seq<Report>): string {
    if hosts != [] && hosts[0].window.Some? then RungOf(hosts[0]) else ""
  }

  ghost predicate Disagree(hosts: seq<Report>) {
    exists k :: 1 <= k < |hosts| && hosts[k].window.Some? && RungOf(hosts[k]) != FirstRung(hosts)
  }

  function Written(c: Core, rungId: string): Report {
    Report(c.used, c.limit, c.busy, rungId, c.replayLogging, c.replayRequested, c.replayAtEnd, c.active, c.suspended,
           ToJson(c.life), Some(WindowPart(Some(rungId), c.open, c.duration, ToJson(c.win))), Some(c.rates))
  }

  const NOBODY := Core(Zero(), Zero(), 0, 0, 0, 0, false, 0, 0.0, IDLE, "", "", "")

  function Merged(hosts: seq<Report>): Report {
    Written(if hosts == [] then NOBODY else Fold(hosts), FirstRung(hosts))
  }

  /** The three fields every host should agree on. */
  method Labels(first: bool, acc: Core, h: Report) returns (r: Core)
    ensures r == if first then acc.(replayLogging := h.replayLogging, replayRequested := h.replayRequested, replayAtEnd := h.replayAtEnd)
                 else acc.(replayLogging := Agreed(acc.replayLogging, h.replayLogging),
                           replayRequested := Agreed(acc.replayRequested, h.replayRequested),
                           replayAtEnd := Agreed(acc.replayAtEnd, h.replayAtEnd))
  {
    if first {
      return acc.(replayLogging := h.replayLogging, replayRequested := h.replayRequested, replayAtEnd := h.replayAtEnd);
    }
    r := acc;
    if h.replayLogging != r.replayLogging {
      r := r.(replayLogging := "mixed");
    }
    if h.replayRequested != r.replayRequested {
      r := r.(replayRequested := "mixed");
    }
    if h.replayAtEnd != r.replayAtEnd {
      r := r.(replayAtEnd := "mixed");
    }
  }

  /** One turn of the merge loop, the rung label aside. */
  method Absorb(first: bool, before: Core, h: Report) returns (acc: Core)
    requires Normal(before) && (first ==> before == NOBODY)
    ensures acc == if first then Part(h) else Join(before, Part(h))
  {
    hide FromJson, Plus;
    acc := before;
    var life, win := FromJson(h.lifetime), Zero();
    if h.window.Some? {
      var w := h.window.value;
      win := FromJson(w.counters);
      acc := acc.(duration := Longer(acc.duration, w.duration));
      if w.open != 0 && (acc.open == 0 || w.open < acc.open) {
        acc := acc.(open := w.open);
      }
    }
    acc := if first then acc.(life := life, win := win) else acc.(life := Plus(acc.life, life), win := Plus(acc.win, win));
    acc := acc.(used := acc.used + h.used, limit := acc.limit + h.limit, active := acc.active + h.active,
                suspended := acc.suspended + h.suspended);
    if h.interval.Some? {
      acc := acc.(rates := AddRates(acc.rates, h.interval.value));
    }
    if h.busy {
      acc := acc.(busy := true);
    }
    acc := Labels(first, acc, h);
  }

  lemma FoldStep(hosts: seq<Report>, k: nat)
    requires k < |hosts|
    ensures Fold(hosts[..k + 1]) == if k == 0 then Part(hosts[0]) else Join(Fold(hosts[..k]), Part(hosts[k]))
  {
    hide Part, Join;
    assert hosts[..k + 1][..k] == hosts[..k];
  }

  /** The merge loop: the core, the label and whether the labels disagree. */
  method Gather(hosts: seq<Report>) returns (acc: Core, rungId: string, warning: bool)
    ensures acc == if hosts == [] then NOBODY else Fold(hosts)
    ensures rungId == FirstRung(hosts)
    ensures warning <==> Disagree(hosts)
  {
    hide Part, Join;
    acc, rungId, warning := NOBODY, "", false;
    for k := 0 to |hosts|
      invariant if k == 0 then acc == NOBODY && rungId == "" else acc == Fold(hosts[..k]) && rungId == FirstRung(hosts)
      invariant warning <==> exists j :: 1 <= j < k && hosts[j].window.Some? && RungOf(hosts[j]) != FirstRung(hosts)
    {
      if hosts[k].window.Some? {
        if k == 0 {
          rungId := RungOf(hosts[k]);
        } else if RungOf(hosts[k]) != rungId {
          warning := true;
        }
      }
      acc := Absorb(k == 0, acc, hosts[k]);
      FoldStep(hosts, k);
    }
    assert hosts[..|hosts|] == hosts;
  }

  method MergeFleetStats(hosts: seq<Report>) returns (out: Report, warning: bool)
    ensures out == Merged(hosts)
    ensures warning <==> Disagree(hosts)
  {
    var acc, rungId;
    acc, rungId, warning := Gather(hosts);
    out := Written(acc, rungId);
  }

  // ----- Any grouping, any order -------------------------------------------------------

  lemma JoinCommutes(a: Core, b: Core)
    requires Normal(a) && Normal(b)
    ensures Join(a, b) == Join(b, a)
  {
    hide Plus;
    PlusCommutes(a.life, b.life);
    PlusCommutes(a.win, b.win);
  }

  lemma JoinAssociates(a: Core, b: Core, c: Core)
    requires Normal(a) && Normal(b) && Normal(c)
    ensures Normal(Join(a, b)) && Join(Join(a, b), c) == Join(a, Join(b, c))
  {
    hide Plus;
    PlusAssociates(a.life, b.life, c.life);
    PlusAssociates(a.win, b.win, c.win);
  }

  lemma PartIsNormal(h: Report)
    ensures Normal(Part(h))
  {
    hide FromJson;
  }

  lemma FoldOne(h: Report)
    ensures Fold([h]) == Part(h)
  {
    hide Part, Join;
  }

  lemma FoldLast(hosts: seq<Report>, h: Report)
    requires hosts != []
    ensures Fold(hosts + [h]) == Join(Fold(hosts), Part(h))
  {
    hide Part, Join;
    assert (hosts + [h])[..|hosts|] == hosts;
  }

  lemma {:induction false} FoldAppend(a: seq<Report>, b: seq<Report>)
    requires a != [] && b != []
    ensures Fold(a + b) == Join(Fold(a), Fold(b))
    decreases |b|
  {
    hide Part, Join;
    var rest, h := b[..|b| - 1], b[|b| - 1];
    assert b == rest + [h];
    if rest == [] {
      FoldLast(a, h);
      FoldOne(h);
    } else {
      assert a + b == a + rest + [h];
      FoldAppend(a, rest);
      FoldLast(a + rest, h);
      FoldLast(rest, h);
      PartIsNormal(h);
      JoinAssociates(Fold(a), Fold(rest), Part(h));
    }
  }

  /** Reading a merged report back gives the core it was written from. */
  lemma PartOfWritten(c: Core, rungId: string)
    requires Normal(c)
    ensures Part(Written(c, rungId)) == c
  {
    hide FromJson, ToJson;
    JsonRoundTrip(c.life);
    JsonRoundTrip(c.win);
  }

  /** Merging merged reports is merging their hosts: any grouping of non-empty groups gives the
      same report, whatever documents the hosts sent. */
  lemma MergeRegroups(a: seq<Report>, b: seq<Report>)
    requires a != [] && b != []
    ensures Merged([Merged(a), Merged(b)]) == Merged(a + b)
  {
    hide Part, Join, ToJson;
    var both := [Merged(a), Merged(b)];
    assert both == [Merged(a)] + [Merged(b)];
    FoldAppend([Merged(a)], [Merged(b)]);
    FoldOne(Merged(a));
    FoldOne(Merged(b));
    PartOfWritten(Fold(a), FirstRung(a));
    PartOfWritten(Fold(b), FirstRung(b));
    FoldAppend(a, b);
    assert FirstRung(both) == FirstRung(a) == FirstRung(a + b);
  }

  // ----- The warning under grouping ----------------------------------------------------

  /** Some host's window carries another label. */
  ghost predicate Strays(hosts: seq<Report>, id: string) {
    exists k :: 0 <= k < |hosts| && hosts[k].window.Some? && RungOf(hosts[k]) != id
  }

  lemma DisagreeMeansStrays(hosts: seq<Report>)
    requires hosts != []
    ensures Disagree(hosts) <==> Strays(hosts, FirstRung(hosts))
  {
  }

  lemma StraysAppend(a: seq<Report>, b: seq<Report>, id: string)
    ensures Strays(a + b, id) <==> Strays(a, id) || Strays(b, id)
  {
    var all := a + b;
    if Strays(a, id) {
      var k :| 0 <= k < |a| && a[k].window.Some? && RungOf(a[k]) != id;
      assert all[k] == a[k];
    }
    if Strays(b, id) {
      var k :| 0 <= k < |b| && b[k].window.Some? && RungOf(b[k]) != id;
      assert all[|a| + k] == b[k];
    }
    if Strays(all, id) {
      var k :| 0 <= k < |all| && all[k].window.Some? && RungOf(all[k]) != id;
      assert k < |a| ==> a[k] == all[k];
      assert k >= |a| ==> b[k - |a|] == all[k];
    }
  }

  /** All hosts together: the first group disagrees, or the second strays from its label. */
  lemma TogetherWarns(a: seq<Report>, b: seq<Report>)
    requires a != [] && b != []
    ensures Disagree(a + b) <==> Disagree(a) || Strays(b, FirstRung(a))
  {
    hide Disagree;
    assert FirstRung(a + b) == FirstRung(a);
    DisagreeMeansStrays(a + b);
    DisagreeMeansStrays(a);
    StraysAppend(a, b, FirstRung(a));
  }

  /** Merged groups: only their first labels are compared. */
  lemma GroupsWarn(a: seq<Report>, b: seq<Report>)
    requires a != [] && b != []
    ensures Disagree([Merged(a), Merged(b)]) <==> FirstRung(a) != FirstRung(b)
  {
    hide Part, Join, ToJson, Fold;
    var both := [Merged(a), Merged(b)];
    assert both[1].window.Some? && RungOf(both[1]) == FirstRung(b) && FirstRung(both) == FirstRung(a);
  }

  /** Exactly when grouping changes nothing about the warning.  With equal first labels it is
      lost if and only if one of the groups disagreed by itself.  With different ones it is
      invented if and only if the second group's first host has no window and everything else
      agrees with the first group. */
  lemma GroupingKeepsWarningIff(a: seq<Report>, b: seq<Report>)
    requires a != [] && b != []
    ensures (Disagree([Merged(a), Merged(b)]) <==> Disagree(a + b)) <==>
            if FirstRung(a) == FirstRung(b) then !Disagree(a) && !Disagree(b)
            else b[0].window.Some? || Disagree(a) || Strays(b, FirstRung(a))
  {
    hide Disagree, Merged;
    TogetherWarns(a, b);
    GroupsWarn(a, b);
    DisagreeMeansStrays(b);
    assert b[0].window.Some? && FirstRung(a) != FirstRung(b) ==> Strays(b, FirstRung(a));
  }

  /** A disagreement inside a group is no longer seen when the groups are merged. */
  lemma GroupingLosesWarning(h: Report, other: string)
    requires h.window.Some? && h.window.value.id.Some? && h.window.value.id.value != other
    ensures var g := h.(window := Some(h.window.value.(id := Some(other))));
            Disagree([h, g] + [h]) && !Disagree([Merged([h, g]), Merged([h])])
  {
    hide Part, Join, ToJson, Fold;
    var g := h.(window := Some(h.window.value.(id := Some(other))));
    assert [h, g][1] == g;
    TogetherWarns([h, g], [h]);
    GroupsWarn([h, g], [h]);
  }

  /** A group whose only host has no window makes a warning out of nothing. */
  lemma GroupingInventsWarning(h: Report, g: Report)
    requires h.window.Some? && RungOf(h) != "" && g.window.None?
    ensures !Disagree([h] + [g]) && Disagree([Merged([h]), Merged([g])])
  {
    hide Part, Join, ToJson, Fold;
    TogetherWarns([h], [g]);
    GroupsWarn([h], [g]);
  }

  /** Any host may be counted last. */
  lemma FoldMovesLast(hosts: seq<Report>, k: nat)
    requires k < |hosts| && |hosts| > 1
    ensures Fold(hosts) == Join(Fold(Without(hosts, k)), Part(hosts[k]))
  {
    hide Part, Join, Fold;
    var a, h, b := hosts[..k], hosts[k], hosts[k + 1..];
    assert hosts == a + [h] + b;
    PartIsNormal(h);
    if b == [] {
      assert a + [h] + b == a + [h] && a + b == a;
      FoldLast(a, h);
    } else {
      FoldOne(h);
      FoldAppend([h], b);
      JoinCommutes(Part(h), Fold(b));
      if a == [] {
        assert a + [h] + b == [h] + b && a + b == b;
      } else {
        assert a + [h] + b == a + ([h] + b);
        FoldAppend(a, [h] + b);
        FoldAppend(a, b);
        JoinAssociates(Fold(a), Fold(b), Part(h));
      }
    }
  }

  /** The order of the hosts does not matter to anything but the rung label. */
  lemma {:induction false} MergeIgnoresOrder(a: seq<Report>, b: seq<Report>)
    requires a != [] && multiset(a) == multiset(b)
    ensures b != [] && Fold(a) == Fold(b)
    decreases |a|
  {
    hide Part, Join, Fold;
    assert |multiset(a)| == |multiset(b)|;
    var last := |a| - 1;
    assert a[last] in multiset(b);
    var k :| 0 <= k < |b| && b[k] == a[last];
    if last == 0 {
      assert a == b;
    } else {
      WithoutOne(a, last);
      WithoutOne(b, k);
      FoldMovesLast(a, last);
      FoldMovesLast(b, k);
      MergeIgnoresOrder(Without(a, last), Without(b, k));
    }
  }

  // ----- Sums, maxima and labels -------------------------------------------------------

  datatype Figure = Used | Limit | Active | Suspended

  function FigureOf(h: Report, f: Figure): int {
    match f
    case Used => h.used
    case Limit => h.limit
    case Active => h.active
    case Suspended => h.suspended
  }

  function TotalFigure(hosts: seq<Report>, f: Figure): int {
    if hosts == [] then 0 else TotalFigure(hosts[..|hosts| - 1], f) + FigureOf(hosts[|hosts| - 1], f)
  }

  datatype Rate = TxPackets | TxBytes | RxDatagrams | RxBytes | RxNotifications

  function RateOf(r: Rates, x: Rate): real {
    match x
    case TxPackets => r.txPps
    case TxBytes => r.txBps
    case RxDatagrams => r.rxDps
    case RxBytes => r.rxBps
    case RxNotifications => r.rxNotifPs
  }

  /** Summed over the hosts that reported an interval. */
  function TotalRate(hosts: seq<Report>, x: Rate): real {
    if hosts == [] then 0.0
    else
      var h := hosts[|hosts| - 1];
      TotalRate(hosts[..|hosts| - 1], x) + if h.interval.Some? then RateOf(h.interval.value, x) else 0.0
  }

  datatype Label = Observed | Requested | AtEnd

  function LabelOf(h: Report, l: Label): string {
    match l
    case Observed => h.replayLogging
    case Requested => h.replayRequested
    case AtEnd => h.replayAtEnd
  }

  ghost predicate AllSay(hosts: seq<Report>, l: Label, v: string) {
    forall k :: 0 <= k < |hosts| ==> LabelOf(hosts[k], l) == v
  }

  lemma JoinFields(a: Core, b: Core, f: Figure, x: Rate, l: Label, r: string)
    ensures var c := Join(a, b);
            && FigureOf(Written(c, r), f) == FigureOf(Written(a, r), f) + FigureOf(Written(b, r), f)
            && RateOf(c.rates, x) == RateOf(a.rates, x) + RateOf(b.rates, x) && c.rates.dtSec == Longer(a.rates.dtSec, b.rates.dtSec)
            && (c.busy <==> a.busy || b.busy)
            && LabelOf(Written(c, r), l) == Agreed(LabelOf(Written(a, r), l), LabelOf(Written(b, r), l))
  {
    hide Plus, ToJson;
  }

  lemma PartFields(h: Report, f: Figure, x: Rate, l: Label, r: string)
    ensures var c := Part(h);
            && FigureOf(Written(c, r), f) == FigureOf(h, f)
            && RateOf(c.rates, x) == (if h.interval.Some? then RateOf(h.interval.value, x) else 0.0)
            && c.rates.dtSec == (if h.interval.Some? then Longer(0.0, h.interval.value.dtSec) else 0.0)
            && (c.busy <==> h.busy) && LabelOf(Written(c, r), l) == LabelOf(h, l)
  {
    hide FromJson, ToJson;
  }

  /** The interval length of the fleet is the longest any host reported. */
  ghost predicate LongestInterval(hosts: seq<Report>, dt: real) {
    && dt >= 0.0
    && (forall k :: 0 <= k < |hosts| && hosts[k].interval.Some? ==> hosts[k].interval.value.dtSec <= dt)
    && (dt > 0.0 ==> exists k :: 0 <= k < |hosts| && hosts[k].interval.Some? && hosts[k].interval.value.dtSec == dt)
  }

  lemma LongestAppend(hosts: seq<Report>, h: Report, dt: real)
    requires LongestInterval(hosts, dt)
    ensures LongestInterval(hosts + [h], if h.interval.Some? then Longer(dt, h.interval.value.dtSec) else dt)
  {
    var all := hosts + [h];
    assert all[|hosts|] == h;
    if dt > 0.0 {
      var k :| 0 <= k < |hosts| && hosts[k].interval.Some? && hosts[k].interval.value.dtSec == dt;
      assert all[k] == hosts[k];
    }
  }

  ghost predicate SomeBusy(hosts: seq<Report>) {
    exists k :: 0 <= k < |hosts| && hosts[k].busy
  }

  lemma BusyAppend(hosts: seq<Report>, h: Report)
    ensures SomeBusy(hosts + [h]) <==> SomeBusy(hosts) || h.busy
  {
    var all := hosts + [h];
    assert all[|hosts|] == h;
    if SomeBusy(hosts) {
      var k :| 0 <= k < |hosts| && hosts[k].busy;
      assert all[k].busy;
    }
  }

  ghost predicate Labelled(hosts: seq<Report>, l: Label, v: string) {
    if exists u :: AllSay(hosts, l, u) then AllSay(hosts, l, v) else v == "mixed"
  }

  lemma LabelAppend(hosts: seq<Report>, h: Report, l: Label, v: string)
    requires hosts != [] && Labelled(hosts, l, v)
    ensures Labelled(hosts + [h], l, Agreed(v, LabelOf(h, l)))
  {
    var all := hosts + [h];
    assert all[|hosts|] == h && all[0] == hosts[0];
    forall u | AllSay(all, l, u)
      ensures AllSay(hosts, l, u) && u == LabelOf(h, l)
    {
      assert forall k :: 0 <= k < |hosts| ==> all[k] == hosts[k];
    }
    if exists u :: AllSay(hosts, l, u) {
      assert AllSay(hosts, l, v);
      assert v == LabelOf(hosts[0], l);
      if v == LabelOf(h, l) {
        assert AllSay(all, l, v);
      }
    }
  }

  lemma {:induction false} FoldTotals(hosts: seq<Report>, f: Figure, x: Rate, l: Label, r: string)
    requires hosts != []
    ensures var c := Fold(hosts);
            && FigureOf(Written(c, r), f) == TotalFigure(hosts, f) && RateOf(c.rates, x) == TotalRate(hosts, x)
            && LongestInterval(hosts, c.rates.dtSec) && (c.busy <==> SomeBusy(hosts))
            && Labelled(hosts, l, LabelOf(Written(c, r), l))
    decreases |hosts|
  {
    hide Part, Join, Written, LongestInterval, SomeBusy, Labelled, FigureOf, RateOf, LabelOf;
    var last := |hosts| - 1;
    var rest, h := hosts[..last], hosts[last];
    PartFields(h, f, x, l, r);
    assert hosts == rest + [h];
    if last == 0 {
      assert rest == [];
      FoldOne(h);
      OnlyHost(h, l);
    } else {
      FoldTotals(rest, f, x, l, r);
      FoldLast(rest, h);
      JoinFields(Fold(rest), Part(h), f, x, l, r);
      LongestAppend(rest, h, Fold(rest).rates.dtSec);
      BusyAppend(rest, h);
      LabelAppend(rest, h, l, LabelOf(Written(Fold(rest), r), l));
    }
  }

  lemma OnlyHost(h: Report, l: Label)
    ensures LongestInterval([h], if h.interval.Some? then Longer(0.0, h.interval.value.dtSec) else 0.0)
    ensures SomeBusy([h]) <==> h.busy
    ensures Labelled([h], l, LabelOf(h, l))
  {
    assert [h][0] == h;
    assert AllSay([h], l, LabelOf(h, l));
  }

  /** What the merged report says besides the counters: every figure and every rate is the sum of
      the hosts', the interval is the longest, the fleet is busy exactly when some host is, and
      a replay label is the hosts' common one, or "mixed" if there is none. */
  lemma MergeAddsUp(hosts: seq<Report>, f: Figure, x: Rate, l: Label)
    requires hosts != []
    ensures var m := Merged(hosts);
            && FigureOf(m, f) == TotalFigure(hosts, f) && (m.busy <==> SomeBusy(hosts))
            && Labelled(hosts, l, LabelOf(m, l))
            && m.interval.Some? && RateOf(m.interval.value, x) == TotalRate(hosts, x) && m.interval.value.avgLatencyMs == 0.0
            && LongestInterval(hosts, m.interval.value.dtSec)
  {
    hide Fold, ToJson;
    FoldTotals(hosts, f, x, l, FirstRung(hosts));
  }

  // ----- One host that saw everything --------------------------------------------------

  /** Host k counted lives[k] since it started and wins[k] in its window. */
  ghost predicate Counted(hosts: seq<Report>, lives: seq<seq<Event>>, wins: seq<seq<Event>>) {
    && |hosts| == |lives| == |wins|
    && forall k :: 0 <= k < |hosts| ==>
         && hosts[k].lifetime == ToJson(Summary(lives[k]))
         && hosts[k].window.Some? && hosts[k].window.value.counters == ToJson(Summary(wins[k]))
  }

  lemma PartCounted(h: Report, life: seq<Event>, win: seq<Event>)
    requires h.lifetime == ToJson(Summary(life)) && h.window.Some? && h.window.value.counters == ToJson(Summary(win))
    ensures Part(h).life == Summary(life) && Part(h).win == Summary(win)
  {
    hide FromJson, ToJson, Summary;
    JsonRoundTrip(Summary(life));
    JsonRoundTrip(Summary(win));
  }

  lemma JoinCounts(a: Core, b: Core)
    ensures Join(a, b).life == Plus(a.life, b.life) && Join(a, b).win == Plus(a.win, b.win)
  {
    hide Plus;
  }

  /** The merged counters, histogram, maximum and error table are those of a single host that
      saw every host's events, for the lifetime and for the window. */
  lemma {:induction false} MergeIsOneHost(hosts: seq<Report>, lives: seq<seq<Event>>, wins: seq<seq<Event>>)
    requires hosts != [] && Counted(hosts, lives, wins)
    ensures Fold(hosts).life == Summary(Concat(lives)) && Fold(hosts).win == Summary(Concat(wins))
    decreases |hosts|
  {
    hide Part, Join, Summary, ToJson;
    var last := |hosts| - 1;
    PartCounted(hosts[last], lives[last], wins[last]);
    if last == 0 {
      assert hosts == [hosts[0]];
      FoldOne(hosts[0]);
      ConcatOne(lives);
      ConcatOne(wins);
    } else {
      MergeIsOneHost(hosts[..last], lives[..last], wins[..last]);
      assert hosts == hosts[..last] + [hosts[last]];
      FoldLast(hosts[..last], hosts[last]);
      JoinCounts(Fold(hosts[..last]), Part(hosts[last]));
      SummaryAppend(Concat(lives[..last]), lives[last]);
      SummaryAppend(Concat(wins[..last]), wins[last]);
    }
  }

  lemma ConcatOne(all: seq<seq<Event>>)
    requires |all| == 1
    ensures Concat(all) == all[0]
  {
    assert all[..0] == [];
    assert Concat([]) + all[0] == all[0];
  }

  /** The fleet's percentiles are read from the merged histogram: each lies in the bucket of
      the sample of its rank among all the samples of all the hosts. */
  lemma FleetPercentile(hosts: seq<Report>, lives: seq<seq<Event>>, wins: seq<seq<Event>>, sorted: seq<int>, p: real)
    requires hosts != [] && Counted(hosts, lives, wins)
    requires var all := Latencies(Concat(lives)); all != [] && Sorted(sorted) && multiset(sorted) == multiset(all)
    ensures var s := Fold(hosts).life;
            var k := Rank(s.latencySamples, p);
            k <= |sorted| && SharesBucket(PercentileOf(s.latencySamples, s.latencyHist, p), sorted[k - 1])
  {
    hide Fold, Concat, Summary, PercentileOf, SharesBucket, ToJson, Rank, HistogramOf;
    MergeIsOneHost(hosts, lives, wins);
    var s, all := Fold(hosts).life, Latencies(Concat(lives));
    SummaryLatencies(Concat(lives));
    PercentileInRankedBucket(all, sorted, p, s.latencySamples, s.latencyHist, Rank(s.latencySamples, p));
  }

  // ----- The merged window -------------------------------------------------------------

  predicate OpenedOne(h: Report) {
    h.window.Some? && h.window.value.open != 0
  }

  /** Instant t lies in a window. */
  predicate Spans(open: nat, duration: real, t: real) {
    open as real <= t <= open as real + duration
  }

  predicate Inside(h: Report, t: real) {
    OpenedOne(h) && Spans(h.window.value.open, h.window.value.duration, t)
  }

  /** The merged window opens with the earliest host that opened one, and lasts as long as the
      longest. */
  lemma {:induction false} MergedWindow(hosts: seq<Report>)
    requires hosts != []
    ensures var c := Fold(hosts);
            && (forall k :: 0 <= k < |hosts| && OpenedOne(hosts[k]) ==> 0 < c.open <= hosts[k].window.value.open)
            && (forall k :: 0 <= k < |hosts| && hosts[k].window.Some? ==> hosts[k].window.value.duration <= c.duration)
            && (c.open != 0 ==> exists k :: 0 <= k < |hosts| && OpenedOne(hosts[k]) && hosts[k].window.value.open == c.open)
            && (c.duration > 0.0 ==> exists k :: 0 <= k < |hosts| && hosts[k].window.Some? && hosts[k].window.value.duration == c.duration)
    decreases |hosts|
  {
    hide Part, Join;
    var last := |hosts| - 1;
    PartWindow(hosts[last]);
    if last > 0 {
      MergedWindow(hosts[..last]);
      var rest := hosts[..last];
      assert forall k :: 0 <= k < last ==> rest[k] == hosts[k];
      assert Fold(hosts) == Join(Fold(rest), Part(hosts[last]));
      JoinWindow(Fold(rest), Part(hosts[last]));
    }
  }

  lemma PartWindow(h: Report)
    ensures Part(h).open == if h.window.Some? then h.window.value.open else 0
    ensures Part(h).duration == if h.window.Some? then Longer(0.0, h.window.value.duration) else 0.0
  {
    hide FromJson;
  }

  lemma JoinWindow(a: Core, b: Core)
    ensures Join(a, b).open == Earlier(a.open, b.open) && Join(a, b).duration == Longer(a.duration, b.duration)
  {
    hide Plus;
  }

  /** The merged window contains the whole window of the host that opened first, and so every
      instant at which all the hosts that opened a window were inside theirs. */
  lemma MergedWindowCoversCommon(hosts: seq<Report>, t: real)
    requires hosts != [] && exists k :: 0 <= k < |hosts| && OpenedOne(hosts[k])
    ensures forall k :: 0 <= k < |hosts| && Inside(hosts[k], t) && hosts[k].window.value.open == Fold(hosts).open ==>
              Spans(Fold(hosts).open, Fold(hosts).duration, t)
    ensures (forall k :: 0 <= k < |hosts| && OpenedOne(hosts[k]) ==> Inside(hosts[k], t)) ==>
              Spans(Fold(hosts).open, Fold(hosts).duration, t)
  {
    hide Fold;
    MergedWindow(hosts);
  }

  predicate Covers(c: Core, h: Report, t: real) {
    Inside(h, t) ==> Spans(c.open, c.duration, t)
  }

  /** It is not the union: it covers a host's whole window exactly when that host opened late
      by no more than its window is shorter than the longest. */
  lemma MergedWindowCoversHost(hosts: seq<Report>, k: nat)
    requires k < |hosts| && OpenedOne(hosts[k]) && hosts[k].window.value.duration >= 0.0
    ensures (forall t :: Covers(Fold(hosts), hosts[k], t)) <==>
            hosts[k].window.value.open as real - Fold(hosts).open as real <= Fold(hosts).duration - hosts[k].window.value.duration
  {
    hide Fold;
    MergedWindow(hosts);
    var w := hosts[k].window.value;
    var end := w.open as real + w.duration;
    assert Inside(hosts[k], end);
    assert (forall t :: Covers(Fold(hosts), hosts[k], t)) ==> Covers(Fold(hosts), hosts[k], end);
  }

  /** Two hosts that opened two seconds apart: the last two seconds of the later one fall
      outside the merged window. */
  lemma MergedWindowIsNotUnion(j: Json)
    ensures var h := Report(0, 0, false, "r", "", "", "", 0, 0, j, Some(WindowPart(Some("r"), 10, 5.0, j)), None);
            var g := h.(window := Some(h.window.value.(open := 12)));
            Inside(g, 17.0) && !Spans(Fold([h, g]).open, Fold([h, g]).duration, 17.0)
  {
    hide FromJson, Plus;
    var h := Report(0, 0, false, "r", "", "", "", 0, 0, j, Some(WindowPart(Some("r"), 10, 5.0, j)), None);
    var g := h.(window := Some(h.window.value.(open := 12)));
    FoldOne(h);
    FoldLast([h], g);
    assert [h] + [g] == [h, g];
  }
}
