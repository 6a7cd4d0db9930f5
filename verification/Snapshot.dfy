/** Counter snapshots (`CounterSnap` in `Stats.hpp` and `Stats.cpp`) and what they mean: a
    snapshot is the summary of the events counted so far.

    Counters are unbounded here; the program's are 64 bits wide.
 */
module Snapshot {
  import opened Bytes
  import opened Percentile

  datatype Counter =
    | TxPackets
    | TxBytes
    | TxSendErrors
    | RxDatagrams
    | RxBytes
    | RxBundles
    | RxSignedBundles
    | RxSignedMembers
    | TxCapabilities
    | RxActorNotifications
    | RxOtherSpatial
    | RxErrorMessages
    | RxReconnectCommands
    | RxSilentReassigns
    | RcvbufSetFailures
    | RxHmacFailures
    | RxMalformed
    | TokenRefreshes
    | RefreshesKeptServer
    | Reassignments
    | ControlFailures
    | UnauthorizedFirstContact
    | UnauthorizedWindowReload

  type Codes = s: seq<nat> | |s| == 256 witness seq(256, _ => 0)

  datatype Snap = Snap(
    txPackets: nat, txBytes: nat, txSendErrors: nat, rxDatagrams: nat,
    rxBytes: nat, rxBundles: nat, rxSignedBundles: nat, rxSignedMembers: nat,
    txCapabilities: nat, rxActorNotifications: nat, rxOtherSpatial: nat, rxErrorMessages: nat,
    rxReconnectCommands: nat, rxSilentReassigns: nat, rcvbufSetFailures: nat, rxHmacFailures: nat,
    rxMalformed: nat, tokenRefreshes: nat, refreshesKeptServer: nat, reassignments: nat,
    controlFailures: nat, unauthorizedFirstContact: nat, unauthorizedWindowReload: nat,
    latencySamples: nat, latencySumMs: nat, latencyMaxMs: nat, latencyHist: Histogram, errorCodes: Codes,
    signInReused: int, signInMintedBefore: int, signInMintedDuring: int)

  function EmptyCodes(): Codes {
    seq(256, _ => 0)
  }

  function Zero(): Snap {
    Snap(0, 0, 0, 0, 0, 0, 0, 0, 0, 0, 0, 0, 0, 0, 0, 0, 0, 0, 0, 0, 0, 0, 0,
         0, 0, 0, EmptyHistogram(), EmptyCodes(), 0, 0, 0)
  }

  function Value(s: Snap, c: Counter): nat {
    match c
    case TxPackets => s.txPackets
    case TxBytes => s.txBytes
    case TxSendErrors => s.txSendErrors
    case RxDatagrams => s.rxDatagrams
    case RxBytes => s.rxBytes
    case RxBundles => s.rxBundles
    case RxSignedBundles => s.rxSignedBundles
    case RxSignedMembers => s.rxSignedMembers
    case TxCapabilities => s.txCapabilities
    case RxActorNotifications => s.rxActorNotifications
    case RxOtherSpatial => s.rxOtherSpatial
    case RxErrorMessages => s.rxErrorMessages
    case RxReconnectCommands => s.rxReconnectCommands
    case RxSilentReassigns => s.rxSilentReassigns
    case RcvbufSetFailures => s.rcvbufSetFailures
    case RxHmacFailures => s.rxHmacFailures
    case RxMalformed => s.rxMalformed
    case TokenRefreshes => s.tokenRefreshes
    case RefreshesKeptServer => s.refreshesKeptServer
    case Reassignments => s.reassignments
    case ControlFailures => s.controlFailures
    case UnauthorizedFirstContact => s.unauthorizedFirstContact
    case UnauthorizedWindowReload => s.unauthorizedWindowReload
  }

  function Bumped(s: Snap, c: Counter, n: nat): Snap {
    match c
    case TxPackets => s.(txPackets := s.txPackets + n)
    case TxBytes => s.(txBytes := s.txBytes + n)
    case TxSendErrors => s.(txSendErrors := s.txSendErrors + n)
    case RxDatagrams => s.(rxDatagrams := s.rxDatagrams + n)
    case RxBytes => s.(rxBytes := s.rxBytes + n)
    case RxBundles => s.(rxBundles := s.rxBundles + n)
    case RxSignedBundles => s.(rxSignedBundles := s.rxSignedBundles + n)
    case RxSignedMembers => s.(rxSignedMembers := s.rxSignedMembers + n)
    case TxCapabilities => s.(txCapabilities := s.txCapabilities + n)
    case RxActorNotifications => s.(rxActorNotifications := s.rxActorNotifications + n)
    case RxOtherSpatial => s.(rxOtherSpatial := s.rxOtherSpatial + n)
    case RxErrorMessages => s.(rxErrorMessages := s.rxErrorMessages + n)
    case RxReconnectCommands => s.(rxReconnectCommands := s.rxReconnectCommands + n)
    case RxSilentReassigns => s.(rxSilentReassigns := s.rxSilentReassigns + n)
    case RcvbufSetFailures => s.(rcvbufSetFailures := s.rcvbufSetFailures + n)
    case RxHmacFailures => s.(rxHmacFailures := s.rxHmacFailures + n)
    case RxMalformed => s.(rxMalformed := s.rxMalformed + n)
    case TokenRefreshes => s.(tokenRefreshes := s.tokenRefreshes + n)
    case RefreshesKeptServer => s.(refreshesKeptServer := s.refreshesKeptServer + n)
    case Reassignments => s.(reassignments := s.reassignments + n)
    case ControlFailures => s.(controlFailures := s.controlFailures + n)
    case UnauthorizedFirstContact => s.(unauthorizedFirstContact := s.unauthorizedFirstContact + n)
    case UnauthorizedWindowReload => s.(unauthorizedWindowReload := s.unauthorizedWindowReload + n)
  }

  // ----- Events ------------------------------------------------------------------------

  /** One thing counted.  A sign-in event is the growth of the provisioner's three tallies
      between two calls of `setSignIn`. */
  datatype Event =
    | Bump(c: Counter, n: nat)
    | Latency(ms: int)
    | Error(code: byte)
    | SignIn(reused: nat, before: nat, during: nat)

  function Max(a: nat, b: nat): nat {
    if a >= b then a else b
  }

  /** A latency counted in its bucket. */
  function Timed(s: Snap, ms: nat, bucket: nat): Snap
    requires bucket < BUCKETS
  {
    s.(latencySamples := s.latencySamples + 1, latencySumMs := s.latencySumMs + ms, latencyMaxMs := Max(s.latencyMaxMs, ms),
       latencyHist := s.latencyHist[bucket := s.latencyHist[bucket] + 1])
  }

  function Refused(s: Snap, code: byte): Snap {
    s.(errorCodes := s.errorCodes[code := s.errorCodes[code] + 1])
  }

  function Observe(s: Snap, e: Event): Snap {
    match e
    case Bump(c, n) => Bumped(s, c, n)
    case Latency(ms) => Timed(s, Clamped(ms), BucketOf(ms))
    case Error(code) => Refused(s, code)
    case SignIn(r, b, d) =>
      s.(signInReused := s.signInReused + r, signInMintedBefore := s.signInMintedBefore + b,
         signInMintedDuring := s.signInMintedDuring + d)
  }

  function Summary(es: seq<Event>): Snap {
    if es == [] then Zero() else Observe(Summary(es[..|es| - 1]), es[|es| - 1])
  }

  // ----- Plus and minus ----------------------------------------------------------------

  function AddAll(a: seq<nat>, b: seq<nat>): (r: seq<nat>)
    requires |a| == |b|
    ensures |r| == |a|
  {
    seq(|a|, i requires 0 <= i < |a| => a[i] + b[i])
  }

  function SatSub(a: nat, b: nat): nat {
    if a >= b then a - b else 0
  }

  function SatSubAll(a: seq<nat>, b: seq<nat>): (r: seq<nat>)
    requires |a| == |b|
    ensures |r| == |a|
  {
    seq(|a|, i requires 0 <= i < |a| => SatSub(a[i], b[i]))
  }

  const INT_CAP := 2000000000

  /** Saturates at both ends. */
  function SaturatingIntSub(a: int, b: int): nat {
    if a < b then 0 else if a - b > INT_CAP then INT_CAP else a - b
  }

  function Plus(a: Snap, b: Snap): Snap {
    Snap(
      a.txPackets + b.txPackets, a.txBytes + b.txBytes,
      a.txSendErrors + b.txSendErrors, a.rxDatagrams + b.rxDatagrams,
      a.rxBytes + b.rxBytes, a.rxBundles + b.rxBundles,
      a.rxSignedBundles + b.rxSignedBundles, a.rxSignedMembers + b.rxSignedMembers,
      a.txCapabilities + b.txCapabilities, a.rxActorNotifications + b.rxActorNotifications,
      a.rxOtherSpatial + b.rxOtherSpatial, a.rxErrorMessages + b.rxErrorMessages,
      a.rxReconnectCommands + b.rxReconnectCommands, a.rxSilentReassigns + b.rxSilentReassigns,
      a.rcvbufSetFailures + b.rcvbufSetFailures, a.rxHmacFailures + b.rxHmacFailures,
      a.rxMalformed + b.rxMalformed, a.tokenRefreshes + b.tokenRefreshes,
      a.refreshesKeptServer + b.refreshesKeptServer, a.reassignments + b.reassignments,
      a.controlFailures + b.controlFailures, a.unauthorizedFirstContact + b.unauthorizedFirstContact,
      a.unauthorizedWindowReload + b.unauthorizedWindowReload,
      a.latencySamples + b.latencySamples, a.latencySumMs + b.latencySumMs,
      Max(a.latencyMaxMs, b.latencyMaxMs), AddAll(a.latencyHist, b.latencyHist), AddAll(a.errorCodes, b.errorCodes),
      a.signInReused + b.signInReused,
      a.signInMintedBefore + b.signInMintedBefore,
      a.signInMintedDuring + b.signInMintedDuring)
  }

  function Minus(now: Snap, origin: Snap): Snap {
    Snap(
      SatSub(now.txPackets, origin.txPackets),
      SatSub(now.txBytes, origin.txBytes),
      SatSub(now.txSendErrors, origin.txSendErrors),
      SatSub(now.rxDatagrams, origin.rxDatagrams),
      SatSub(now.rxBytes, origin.rxBytes),
      SatSub(now.rxBundles, origin.rxBundles),
      SatSub(now.rxSignedBundles, origin.rxSignedBundles),
      SatSub(now.rxSignedMembers, origin.rxSignedMembers),
      SatSub(now.txCapabilities, origin.txCapabilities),
      SatSub(now.rxActorNotifications, origin.rxActorNotifications),
      SatSub(now.rxOtherSpatial, origin.rxOtherSpatial),
      SatSub(now.rxErrorMessages, origin.rxErrorMessages),
      SatSub(now.rxReconnectCommands, origin.rxReconnectCommands),
      SatSub(now.rxSilentReassigns, origin.rxSilentReassigns),
      SatSub(now.rcvbufSetFailures, origin.rcvbufSetFailures),
      SatSub(now.rxHmacFailures, origin.rxHmacFailures),
      SatSub(now.rxMalformed, origin.rxMalformed),
      SatSub(now.tokenRefreshes, origin.tokenRefreshes),
      SatSub(now.refreshesKeptServer, origin.refreshesKeptServer),
      SatSub(now.reassignments, origin.reassignments),
      SatSub(now.controlFailures, origin.controlFailures),
      SatSub(now.unauthorizedFirstContact, origin.unauthorizedFirstContact),
      SatSub(now.unauthorizedWindowReload, origin.unauthorizedWindowReload),
      SatSub(now.latencySamples, origin.latencySamples),
      SatSub(now.latencySumMs, origin.latencySumMs),
      now.latencyMaxMs,
      SatSubAll(now.latencyHist, origin.latencyHist),
      SatSubAll(now.errorCodes, origin.errorCodes),
      SaturatingIntSub(now.signInReused, origin.signInReused),
      SaturatingIntSub(now.signInMintedBefore, origin.signInMintedBefore),
      SaturatingIntSub(now.signInMintedDuring, origin.signInMintedDuring))
  }

  /** The array loops of `plus`: the sum is accumulated into a copy of `a`. */
  method Accumulate(a: seq<nat>, b: seq<nat>) returns (s: seq<nat>)
    requires |a| == |b|
    ensures s == AddAll(a, b)
  {
    s := a;
    for i := 0 to |a|
      invariant |s| == |a|
      invariant forall k :: 0 <= k < i ==> s[k] == a[k] + b[k]
      invariant forall k :: i <= k < |a| ==> s[k] == a[k]
    {
      s := s[i := s[i] + b[i]];
    }
  }

  /** The array loops of `minus`. */
  method Subtract(now: seq<nat>, origin: seq<nat>) returns (d: seq<nat>)
    requires |now| == |origin|
    ensures d == SatSubAll(now, origin)
  {
    d := seq(|now|, _ => 0);
    for i := 0 to |now|
      invariant |d| == |now|
      invariant forall k :: 0 <= k < i ==> d[k] == SatSub(now[k], origin[k])
    {
      d := d[i := SatSub(now[i], origin[i])];
    }
  }

  lemma PlusCommutes(a: Snap, b: Snap)
    ensures Plus(a, b) == Plus(b, a)
  {
    assert AddAll(a.latencyHist, b.latencyHist) == AddAll(b.latencyHist, a.latencyHist);
    assert AddAll(a.errorCodes, b.errorCodes) == AddAll(b.errorCodes, a.errorCodes);
  }

  lemma AddAllAssociates(a: seq<nat>, b: seq<nat>, c: seq<nat>)
    requires |a| == |b| == |c|
    ensures AddAll(AddAll(a, b), c) == AddAll(a, AddAll(b, c))
  {
  }

  lemma PlusAssociates(a: Snap, b: Snap, c: Snap)
    ensures Plus(Plus(a, b), c) == Plus(a, Plus(b, c))
  {
    AddAllAssociates(a.latencyHist, b.latencyHist, c.latencyHist);
    AddAllAssociates(a.errorCodes, b.errorCodes, c.errorCodes);
  }

  lemma PlusZero(a: Snap)
    ensures Plus(a, Zero()) == a && Plus(Zero(), a) == a
  {
    assert AddAll(a.latencyHist, EmptyHistogram()) == a.latencyHist == AddAll(EmptyHistogram(), a.latencyHist);
    assert AddAll(a.errorCodes, EmptyCodes()) == a.errorCodes == AddAll(EmptyCodes(), a.errorCodes);
  }

  lemma BumpedPlus(s: Snap, t: Snap, c: Counter, n: nat)
    ensures Bumped(Plus(s, t), c, n) == Plus(s, Bumped(t, c, n))
  {
  }

  lemma TimedPlus(s: Snap, t: Snap, ms: nat, b: nat)
    requires b < BUCKETS
    ensures Timed(Plus(s, t), ms, b) == Plus(s, Timed(t, ms, b))
  {
    AddAllUpdate(s.latencyHist, t.latencyHist, b);
  }

  lemma ErrorPlus(s: Snap, t: Snap, code: byte)
    ensures Refused(Plus(s, t), code) == Plus(s, Refused(t, code))
  {
    AddAllUpdate(s.errorCodes, t.errorCodes, code);
  }

  lemma AddAllUpdate(a: seq<nat>, b: seq<nat>, i: nat)
    requires |a| == |b| && i < |a|
    ensures AddAll(a, b[i := b[i] + 1]) == AddAll(a, b)[i := AddAll(a, b)[i] + 1]
  {
  }

  lemma ObservePlus(s: Snap, t: Snap, e: Event)
    ensures Observe(Plus(s, t), e) == Plus(s, Observe(t, e))
  {
    match e
    case Bump(c, n) =>
      hide Plus, Bumped;
      BumpedPlus(s, t, c, n);
    case Latency(ms) =>
      hide Plus, Timed, BucketOf;
      TimedPlus(s, t, Clamped(ms), BucketOf(ms));
    case Error(code) =>
      hide Plus, Refused;
      ErrorPlus(s, t, code);
    case SignIn(_, _, _) =>
  }

  /** Counting two stretches of events one after the other is adding their summaries. */
  lemma {:induction false} SummaryAppend(a: seq<Event>, b: seq<Event>)
    ensures Summary(a + b) == Plus(Summary(a), Summary(b))
    decreases |b|
  {
    if b == [] {
      assert a + b == a;
      PlusZero(Summary(a));
    } else {
      var rest, e := b[..|b| - 1], b[|b| - 1];
      assert (a + b)[..|a + b| - 1] == a + rest;
      SummaryAppend(a, rest);
      ObservePlus(Summary(a), Summary(rest), e);
    }
  }

  /** Stretches of events one after the other. */
  function Concat(stretches: seq<seq<Event>>): seq<Event> {
    if stretches == [] then [] else Concat(stretches[..|stretches| - 1]) + stretches[|stretches| - 1]
  }

  // ----- What a summary says, counter by counter ---------------------------------------

  function Total(es: seq<Event>, c: Counter): nat {
    if es == [] then 0
    else
      var e := es[|es| - 1];
      Total(es[..|es| - 1], c) + if e.Bump? && e.c == c then e.n else 0
  }

  function Errors(es: seq<Event>, code: byte): nat {
    if es == [] then 0 else Errors(es[..|es| - 1], code) + if es[|es| - 1] == Error(code) then 1 else 0
  }

  /** The latencies recorded, in order. */
  function Latencies(es: seq<Event>): seq<int> {
    if es == [] then []
    else
      var e := es[|es| - 1];
      Latencies(es[..|es| - 1]) + if e.Latency? then [e.ms] else []
  }

  function Greatest(s: seq<int>): nat {
    if s == [] then 0 else Max(Greatest(s[..|s| - 1]), Clamped(s[|s| - 1]))
  }

  function Sum(s: seq<int>): nat {
    if s == [] then 0 else Sum(s[..|s| - 1]) + Clamped(s[|s| - 1])
  }

  lemma BumpedSelf(s: Snap, c: Counter, n: nat)
    ensures Value(Bumped(s, c, n), c) == Value(s, c) + n
  {
  }

  lemma BumpedOther(s: Snap, c: Counter, n: nat, d: Counter)
    requires c != d
    ensures Value(Bumped(s, c, n), d) == Value(s, d)
  {
  }

  lemma BumpedValue(s: Snap, c: Counter, n: nat, d: Counter)
    ensures Value(Bumped(s, c, n), d) == Value(s, d) + if c == d then n else 0
  {
    hide Bumped, Value;
    if c == d {
      BumpedSelf(s, c, n);
    } else {
      BumpedOther(s, c, n, d);
    }
  }

  lemma BumpedKeeps(s: Snap, c: Counter, n: nat)
    ensures var t := Bumped(s, c, n);
            && t.errorCodes == s.errorCodes && t.latencyHist == s.latencyHist && t.latencySamples == s.latencySamples
            && t.latencySumMs == s.latencySumMs && t.latencyMaxMs == s.latencyMaxMs
  {
  }

  lemma OthersKeep(s: Snap, e: Event, c: Counter)
    requires !e.Bump?
    ensures Value(Observe(s, e), c) == Value(s, c)
  {
  }

  lemma ObserveCounts(s: Snap, e: Event, c: Counter)
    ensures Value(Observe(s, e), c) == Value(s, c) + if e.Bump? && e.c == c then e.n else 0
  {
    if e.Bump? {
      BumpedValue(s, e.c, e.n, c);
    } else {
      OthersKeep(s, e, c);
    }
  }

  lemma ObserveErrors(s: Snap, e: Event, code: byte)
    ensures Observe(s, e).errorCodes[code] == s.errorCodes[code] + if e == Error(code) then 1 else 0
  {
    if e.Bump? {
      BumpedKeeps(s, e.c, e.n);
    }
  }

  lemma {:induction false} SummaryCounts(es: seq<Event>, c: Counter, code: byte)
    ensures Value(Summary(es), c) == Total(es, c)
    ensures Summary(es).errorCodes[code] == Errors(es, code)
    decreases |es|
  {
    if es != [] {
      SummaryCounts(es[..|es| - 1], c, code);
      ObserveCounts(Summary(es[..|es| - 1]), es[|es| - 1], c);
      ObserveErrors(Summary(es[..|es| - 1]), es[|es| - 1], code);
    }
  }

  /** A snapshot holds the count, sum, maximum and histogram of these latencies. */
  ghost predicate HoldsLatencies(s: Snap, l: seq<int>) {
    && s.latencySamples == |l| && s.latencySumMs == Sum(l) && s.latencyMaxMs == Greatest(l)
    && s.latencyHist == HistogramOf(l)
  }

  lemma TimedHolds(s: Snap, l: seq<int>, ms: int)
    requires HoldsLatencies(s, l)
    ensures HoldsLatencies(Timed(s, Clamped(ms), BucketOf(ms)), l + [ms])
  {
    assert (l + [ms])[..|l|] == l;
  }

  lemma ObserveHolds(s: Snap, l: seq<int>, e: Event)
    requires HoldsLatencies(s, l)
    ensures HoldsLatencies(Observe(s, e), l + if e.Latency? then [e.ms] else [])
  {
    hide HistogramOf, Sum, Greatest, BucketOf;
    match e
    case Bump(c, n) =>
      BumpedKeeps(s, c, n);
      assert l + [] == l;
    case Latency(ms) => TimedHolds(s, l, ms);
    case Error(_) => assert l + [] == l;
    case SignIn(_, _, _) => assert l + [] == l;
  }

  lemma {:induction false} SummaryLatencies(es: seq<Event>)
    ensures HoldsLatencies(Summary(es), Latencies(es))
    decreases |es|
  {
    if es == [] {
      assert Summary(es) == Zero() && Latencies(es) == [];
    } else {
      hide HoldsLatencies, Observe;
      SummaryLatencies(es[..|es| - 1]);
      ObserveHolds(Summary(es[..|es| - 1]), Latencies(es[..|es| - 1]), es[|es| - 1]);
    }
  }

  // ----- Subtraction is exact ----------------------------------------------------------

  /** The sign-in tallies of this stretch fit the range of their subtraction. */
  predicate WithinCap(s: Snap) {
    0 <= s.signInReused <= INT_CAP && 0 <= s.signInMintedBefore <= INT_CAP && 0 <= s.signInMintedDuring <= INT_CAP
  }

  lemma SatSubAllUndoes(a: seq<nat>, b: seq<nat>)
    requires |a| == |b|
    ensures SatSubAll(AddAll(a, b), a) == b
  {
  }

  /** Subtracting what was added last gives it back, its maximum aside, exactly when the
      sign-in tallies of the stretch fit the range of their subtraction. */
  lemma MinusUndoesPlus(origin: Snap, d: Snap)
    ensures Minus(Plus(origin, d), origin).(latencyMaxMs := d.latencyMaxMs) == d <==> WithinCap(d)
  {
    SatSubAllUndoes(origin.latencyHist, d.latencyHist);
    SatSubAllUndoes(origin.errorCodes, d.errorCodes);
  }
}
