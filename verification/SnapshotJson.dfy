/** Snapshots as JSON documents (`toJson` and `fromJson` in `Stats.cpp`).

    Documents are structured values: an object maps keys to values, and the keys are named
    after the strings the program writes.
 */
module SnapshotJson {
  import opened Bytes
  import opened Percentile
  import opened Snapshot

  datatype Key =
    | TX_PACKETS | TX_BYTES | TX_SEND_ERRORS | RX_DATAGRAMS
    | RX_BYTES | RX_BUNDLES | RX_SIGNED_BUNDLES | RX_SIGNED_MEMBERS
    | TX_CAPABILITIES | RX_ACTOR_NOTIFICATIONS | RX_OTHER_SPATIAL | RX_ERROR_MESSAGES
    | RX_RECONNECT_COMMANDS | RX_SILENT_REASSIGNS | RCVBUF_SET_FAILURES | RX_HMAC_FAILURES
    | RX_MALFORMED | TOKEN_REFRESHES | REFRESHES_KEPT_SERVER | REASSIGNMENTS
    | CONTROL_FAILURES
    | LATENCY | SAMPLES | SUM_MS | AVG_MS | MAX_MS | P50_MS | P95_MS | P99_MS | HIST | LE_MS | N
    | ERRORS | BY_CODE | CODE | UNAUTHORIZED_FIRST_CONTACT | UNAUTHORIZED_WINDOW_RELOAD | UNAUTHORIZED_UNEXPLAINED
    | SIGN_IN | REUSED | MINTED_BEFORE | MINTED_DURING

  datatype Json =
    | Null
    | Unsigned(n: nat)
    | Integer(i: int)
    | Float(x: real)
    | Text(s: string)
    | Arr(items: seq<Json>)
    | Obj(fields: map<Key, Json>)

  // ----- Reading -----------------------------------------------------------------------

  function Field(j: Json, k: Key): Option<Json> {
    if j.Obj? && k in j.fields then Some(j.fields[k]) else None
  }

  /** Missing or not a number: 0.  A negative integer wraps to 64 bits, a fraction is cut. */
  function JU64(j: Json, k: Key): nat {
    match Field(j, k)
    case Some(Unsigned(n)) => n
    case Some(Integer(i)) => i % TWO_64
    case Some(Float(x)) => if x >= 0.0 then x.Floor else 0
    case _ => 0
  }

  function JInt(j: Json, k: Key): int {
    match Field(j, k)
    case Some(Unsigned(n)) => n
    case Some(Integer(i)) => i
    case _ => 0
  }

  function SubObject(j: Json, k: Key): Json {
    match Field(j, k)
    case Some(Obj(m)) => Obj(m)
    case _ => Obj(map[])
  }

  function SubArray(j: Json, k: Key): seq<Json> {
    match Field(j, k)
    case Some(Arr(items)) => items
    case _ => []
  }

  function LoadHistogram(items: seq<Json>): Histogram {
    seq(BUCKETS, i requires 0 <= i < BUCKETS => if i < |items| then JU64(items[i], N) else 0)
  }

  function LoadRow(codes: Codes, row: Json): Codes {
    var code := JInt(row, CODE);
    if 0 <= code < 256 then codes[code := JU64(row, N)] else codes
  }

  function LoadRows(rows: seq<Json>): Codes {
    if rows == [] then EmptyCodes() else LoadRow(LoadRows(rows[..|rows| - 1]), rows[|rows| - 1])
  }

  function FromJson(j: Json): Snap {
    var l, e, g := SubObject(j, LATENCY), SubObject(j, ERRORS), SubObject(j, SIGN_IN);
    Snap(JU64(j, TX_PACKETS), JU64(j, TX_BYTES), JU64(j, TX_SEND_ERRORS),
         JU64(j, RX_DATAGRAMS), JU64(j, RX_BYTES), JU64(j, RX_BUNDLES),
         JU64(j, RX_SIGNED_BUNDLES), JU64(j, RX_SIGNED_MEMBERS), JU64(j, TX_CAPABILITIES),
         JU64(j, RX_ACTOR_NOTIFICATIONS), JU64(j, RX_OTHER_SPATIAL), JU64(j, RX_ERROR_MESSAGES),
         JU64(j, RX_RECONNECT_COMMANDS), JU64(j, RX_SILENT_REASSIGNS), JU64(j, RCVBUF_SET_FAILURES),
         JU64(j, RX_HMAC_FAILURES), JU64(j, RX_MALFORMED), JU64(j, TOKEN_REFRESHES),
         JU64(j, REFRESHES_KEPT_SERVER), JU64(j, REASSIGNMENTS), JU64(j, CONTROL_FAILURES),
         JU64(e, UNAUTHORIZED_FIRST_CONTACT), JU64(e, UNAUTHORIZED_WINDOW_RELOAD),
         JU64(l, SAMPLES), JU64(l, SUM_MS), JU64(l, MAX_MS), LoadHistogram(SubArray(l, HIST)),
         LoadRows(SubArray(e, BY_CODE)), JInt(g, REUSED), JInt(g, MINTED_BEFORE), JInt(g, MINTED_DURING))
  }

  /** The histogram loop of `fromJson`: surplus entries are ignored. */
  method ReadHistogram(items: seq<Json>) returns (h: Histogram)
    ensures h == LoadHistogram(items)
  {
    h := EmptyHistogram();
    var i := 0;
    while i < |items| && i < BUCKETS
      invariant 0 <= i <= BUCKETS && i <= |items|
      invariant forall k :: 0 <= k < i ==> h[k] == JU64(items[k], N)
      invariant forall k :: i <= k < BUCKETS ==> h[k] == 0
    {
      h := h[i := JU64(items[i], N)];
      i := i + 1;
    }
  }

  /** The error-table loop of `fromJson`: rows with a code out of range are ignored. */
  method ReadRows(rows: seq<Json>) returns (codes: Codes)
    ensures codes == LoadRows(rows)
  {
    codes := EmptyCodes();
    for i := 0 to |rows|
      invariant codes == LoadRows(rows[..i])
    {
      assert rows[..i + 1][..i] == rows[..i];
      var code := JInt(rows[i], CODE);
      if 0 <= code < 256 {
        codes := codes[code := JU64(rows[i], N)];
      }
    }
    assert rows[..|rows|] == rows;
  }

  // ----- Writing -----------------------------------------------------------------------

  function HistogramJson(h: Histogram): seq<Json> {
    seq(BUCKETS, i requires 0 <= i < BUCKETS =>
      Obj(map[LE_MS := if i < BUCKETS - 1 then Unsigned(BOUNDS[i]) else Null, N := Unsigned(h[i])]))
  }

  function Average(s: Snap): real {
    if s.latencySamples == 0 then 0.0 else s.latencySumMs as real / s.latencySamples as real
  }

  function LatencyDocument(s: Snap, average: real, p50: real, p95: real, p99: real): Json {
    Obj(map[SAMPLES := Unsigned(s.latencySamples), SUM_MS := Unsigned(s.latencySumMs), AVG_MS := Float(average),
            MAX_MS := Unsigned(s.latencyMaxMs), P50_MS := Float(p50), P95_MS := Float(p95), P99_MS := Float(p99),
            HIST := Arr(HistogramJson(s.latencyHist))])
  }

  function Quantile(s: Snap, p: real): real {
    PercentileOf(s.latencySamples, s.latencyHist, p)
  }

  function LatencyJson(s: Snap): Json {
    LatencyDocument(s, Average(s), Quantile(s, 0.50), Quantile(s, 0.95), Quantile(s, 0.99))
  }

  function Row(code: nat, n: nat): Json {
    Obj(map[CODE := Integer(code), N := Unsigned(n)])
  }

  /** One row per code that was seen, in code order. */
  function Rows(codes: seq<nat>): seq<Json> {
    if codes == [] then []
    else
      var last := |codes| - 1;
      Rows(codes[..last]) + if codes[last] == 0 then [] else [Row(last, codes[last])]
  }

  method WriteRows(codes: Codes) returns (rows: seq<Json>)
    ensures rows == Rows(codes)
  {
    rows := [];
    for c := 0 to 256
      invariant rows == Rows(codes[..c])
    {
      assert codes[..c + 1][..c] == codes[..c];
      if codes[c] != 0 {
        rows := rows + [Row(c, codes[c])];
      }
    }
    assert codes[..256] == codes;
  }

  /** UNAUTHORIZED refusals that neither explanation accounts for. */
  function Unexplained(s: Snap): nat {
    SatSub(s.errorCodes[7], s.unauthorizedFirstContact + s.unauthorizedWindowReload)
  }

  function ErrorsJson(s: Snap): Json {
    Obj(map[BY_CODE := Arr(Rows(s.errorCodes)),
            UNAUTHORIZED_FIRST_CONTACT := Unsigned(s.unauthorizedFirstContact),
            UNAUTHORIZED_WINDOW_RELOAD := Unsigned(s.unauthorizedWindowReload),
            UNAUTHORIZED_UNEXPLAINED := Unsigned(Unexplained(s))])
  }

  function SignInJson(s: Snap): Json {
    Obj(map[REUSED := Integer(s.signInReused), MINTED_BEFORE := Integer(s.signInMintedBefore),
            MINTED_DURING := Integer(s.signInMintedDuring)])
  }

  function Document(s: Snap, latency: Json, errors: Json, signIn: Json): Json {
    Obj(map[
      TX_PACKETS := Unsigned(s.txPackets), TX_BYTES := Unsigned(s.txBytes),
      TX_SEND_ERRORS := Unsigned(s.txSendErrors), RX_DATAGRAMS := Unsigned(s.rxDatagrams),
      RX_BYTES := Unsigned(s.rxBytes), RX_BUNDLES := Unsigned(s.rxBundles),
      RX_SIGNED_BUNDLES := Unsigned(s.rxSignedBundles), RX_SIGNED_MEMBERS := Unsigned(s.rxSignedMembers),
      TX_CAPABILITIES := Unsigned(s.txCapabilities), RX_ACTOR_NOTIFICATIONS := Unsigned(s.rxActorNotifications),
      RX_OTHER_SPATIAL := Unsigned(s.rxOtherSpatial), RX_ERROR_MESSAGES := Unsigned(s.rxErrorMessages),
      RX_RECONNECT_COMMANDS := Unsigned(s.rxReconnectCommands), RX_SILENT_REASSIGNS := Unsigned(s.rxSilentReassigns),
      RCVBUF_SET_FAILURES := Unsigned(s.rcvbufSetFailures), RX_HMAC_FAILURES := Unsigned(s.rxHmacFailures),
      RX_MALFORMED := Unsigned(s.rxMalformed), TOKEN_REFRESHES := Unsigned(s.tokenRefreshes),
      REFRESHES_KEPT_SERVER := Unsigned(s.refreshesKeptServer), REASSIGNMENTS := Unsigned(s.reassignments),
      CONTROL_FAILURES := Unsigned(s.controlFailures),
      LATENCY := latency, ERRORS := errors, SIGN_IN := signIn])
  }

  function ToJson(s: Snap): Json {
    Document(s, LatencyJson(s), ErrorsJson(s), SignInJson(s))
  }

  // ----- Round trip --------------------------------------------------------------------

  lemma HistogramRoundTrip(h: Histogram)
    ensures LoadHistogram(HistogramJson(h)) == h
  {
    var items := HistogramJson(h);
    forall i | 0 <= i < BUCKETS
      ensures JU64(items[i], N) == h[i]
    {
    }
  }

  /** Leaving out the zero rows loses nothing. */
  lemma {:induction false} RowsRoundTrip(codes: seq<nat>)
    requires |codes| <= 256
    ensures forall c :: 0 <= c < 256 ==> LoadRows(Rows(codes))[c] == if c < |codes| then codes[c] else 0
    decreases |codes|
  {
    if codes != [] {
      var last := |codes| - 1;
      RowsRoundTrip(codes[..last]);
      var before, rows := Rows(codes[..last]), Rows(codes);
      if codes[last] != 0 {
        assert rows[..|rows| - 1] == before && rows[|rows| - 1] == Row(last, codes[last]);
        LoadsRow(LoadRows(before), last, codes[last]);
      } else {
        assert rows == before;
      }
    }
  }

  lemma LoadsRow(codes: Codes, c: nat, n: nat)
    requires c < 256
    ensures LoadRow(codes, Row(c, n)) == codes[c := n]
  {
    assert Field(Row(c, n), CODE) == Some(Integer(c)) && Field(Row(c, n), N) == Some(Unsigned(n));
  }

  lemma LatencyRoundTrip(s: Snap, average: real, p50: real, p95: real, p99: real)
    ensures var l := LatencyDocument(s, average, p50, p95, p99);
            && JU64(l, SAMPLES) == s.latencySamples && JU64(l, SUM_MS) == s.latencySumMs && JU64(l, MAX_MS) == s.latencyMaxMs
            && LoadHistogram(SubArray(l, HIST)) == s.latencyHist
  {
    HistogramRoundTrip(s.latencyHist);
  }

  lemma ErrorsRoundTrip(s: Snap)
    ensures var e := ErrorsJson(s);
            && JU64(e, UNAUTHORIZED_FIRST_CONTACT) == s.unauthorizedFirstContact
            && JU64(e, UNAUTHORIZED_WINDOW_RELOAD) == s.unauthorizedWindowReload
            && LoadRows(SubArray(e, BY_CODE)) == s.errorCodes
  {
    RowsRoundTrip(s.errorCodes);
    assert SubArray(ErrorsJson(s), BY_CODE) == Rows(s.errorCodes);
  }

  lemma SignInRoundTrip(s: Snap)
    ensures var g := SignInJson(s);
            && JInt(g, REUSED) == s.signInReused && JInt(g, MINTED_BEFORE) == s.signInMintedBefore
            && JInt(g, MINTED_DURING) == s.signInMintedDuring
  {
  }

  lemma TopRoundTrip(s: Snap, l: Json, e: Json, g: Json)
    requires l.Obj? && e.Obj? && g.Obj?
    ensures var j := Document(s, l, e, g);
            && SubObject(j, LATENCY) == l && SubObject(j, ERRORS) == e && SubObject(j, SIGN_IN) == g
  {
  }

  predicate HoldsTraffic(j: Json, s: Snap) {
    && Field(j, TX_PACKETS) == Some(Unsigned(s.txPackets))
    && Field(j, TX_BYTES) == Some(Unsigned(s.txBytes))
    && Field(j, TX_SEND_ERRORS) == Some(Unsigned(s.txSendErrors))
    && Field(j, RX_DATAGRAMS) == Some(Unsigned(s.rxDatagrams))
    && Field(j, RX_BYTES) == Some(Unsigned(s.rxBytes))
  }

  predicate HoldsReceipts(j: Json, s: Snap) {
    && Field(j, RX_BUNDLES) == Some(Unsigned(s.rxBundles))
    && Field(j, RX_SIGNED_BUNDLES) == Some(Unsigned(s.rxSignedBundles))
    && Field(j, RX_SIGNED_MEMBERS) == Some(Unsigned(s.rxSignedMembers))
    && Field(j, TX_CAPABILITIES) == Some(Unsigned(s.txCapabilities))
    && Field(j, RX_ACTOR_NOTIFICATIONS) == Some(Unsigned(s.rxActorNotifications))
    && Field(j, RX_OTHER_SPATIAL) == Some(Unsigned(s.rxOtherSpatial))
    && Field(j, RX_ERROR_MESSAGES) == Some(Unsigned(s.rxErrorMessages))
  }

  predicate HoldsFaults(j: Json, s: Snap) {
    && Field(j, RX_RECONNECT_COMMANDS) == Some(Unsigned(s.rxReconnectCommands))
    && Field(j, RX_SILENT_REASSIGNS) == Some(Unsigned(s.rxSilentReassigns))
    && Field(j, RCVBUF_SET_FAILURES) == Some(Unsigned(s.rcvbufSetFailures))
    && Field(j, RX_HMAC_FAILURES) == Some(Unsigned(s.rxHmacFailures))
    && Field(j, RX_MALFORMED) == Some(Unsigned(s.rxMalformed))
    && Field(j, TOKEN_REFRESHES) == Some(Unsigned(s.tokenRefreshes))
    && Field(j, REFRESHES_KEPT_SERVER) == Some(Unsigned(s.refreshesKeptServer))
    && Field(j, REASSIGNMENTS) == Some(Unsigned(s.reassignments))
    && Field(j, CONTROL_FAILURES) == Some(Unsigned(s.controlFailures))
  }

  lemma TrafficRoundTrip(s: Snap, l: Json, e: Json, g: Json)
    ensures HoldsTraffic(Document(s, l, e, g), s)
  {
  }

  lemma ReceiptsRoundTrip(s: Snap, l: Json, e: Json, g: Json)
    ensures HoldsReceipts(Document(s, l, e, g), s)
  {
  }

  lemma FaultsRoundTrip(s: Snap, l: Json, e: Json, g: Json)
    ensures HoldsFaults(Document(s, l, e, g), s)
  {
  }

  /** Reading back what was written restores every counter, the histogram, the maximum and the
      whole error table. */
  lemma JsonRoundTrip(s: Snap)
    ensures FromJson(ToJson(s)) == s
  {
    LatencyRoundTrip(s, Average(s), Quantile(s, 0.50), Quantile(s, 0.95), Quantile(s, 0.99));
    ErrorsRoundTrip(s);
    SignInRoundTrip(s);
    Assembled(s, ToJson(s), LatencyJson(s), ErrorsJson(s), SignInJson(s));
  }

  lemma Assembled(s: Snap, j: Json, l: Json, e: Json, g: Json)
    requires l.Obj? && e.Obj? && g.Obj? && j == Document(s, l, e, g)
    requires JU64(l, SAMPLES) == s.latencySamples && JU64(l, SUM_MS) == s.latencySumMs
    requires JU64(l, MAX_MS) == s.latencyMaxMs && LoadHistogram(SubArray(l, HIST)) == s.latencyHist
    requires JU64(e, UNAUTHORIZED_FIRST_CONTACT) == s.unauthorizedFirstContact
    requires JU64(e, UNAUTHORIZED_WINDOW_RELOAD) == s.unauthorizedWindowReload
    requires LoadRows(SubArray(e, BY_CODE)) == s.errorCodes
    requires JInt(g, REUSED) == s.signInReused && JInt(g, MINTED_BEFORE) == s.signInMintedBefore
    requires JInt(g, MINTED_DURING) == s.signInMintedDuring
    ensures FromJson(j) == s
  {
    TopRoundTrip(s, l, e, g);
    TrafficRoundTrip(s, l, e, g);
    ReceiptsRoundTrip(s, l, e, g);
    FaultsRoundTrip(s, l, e, g);
  }

  // ----- What a reader of the document finds -------------------------------------------

  /** The derived figures: the average, the three percentiles and the unexplained refusals. */
  lemma DerivedFigures(s: Snap)
    ensures var l, e := LatencyJson(s), ErrorsJson(s);
            && Field(l, P50_MS) == Some(Float(PercentileOf(s.latencySamples, s.latencyHist, 0.50)))
            && Field(l, P95_MS) == Some(Float(PercentileOf(s.latencySamples, s.latencyHist, 0.95)))
            && Field(l, P99_MS) == Some(Float(PercentileOf(s.latencySamples, s.latencyHist, 0.99)))
            && Field(l, AVG_MS) == Some(Float(Average(s))) && Field(l, MAX_MS) == Some(Unsigned(s.latencyMaxMs))
            && Field(e, UNAUTHORIZED_UNEXPLAINED) == Some(Unsigned(Unexplained(s)))
  {
    hide PercentileOf;
  }

  lemma AverageIsMean(s: Snap)
    ensures Average(s) * s.latencySamples as real == if s.latencySamples == 0 then 0.0 else s.latencySumMs as real
  {
  }

  /** A refusal is explained once at most: what is left is the difference, never below zero. */
  lemma UnexplainedIsRest(s: Snap)
    ensures var known := s.unauthorizedFirstContact + s.unauthorizedWindowReload;
            Unexplained(s) + known == if s.errorCodes[7] >= known then s.errorCodes[7] else known
  {
  }

  /** The histogram rows carry their upper bounds, the last one none. */
  lemma HistogramRows(h: Histogram, i: nat)
    requires i < BUCKETS
    ensures var row := HistogramJson(h)[i];
            && Field(row, N) == Some(Unsigned(h[i]))
            && Field(row, LE_MS) == Some(if i < BUCKETS - 1 then Unsigned(Hi(i)) else Null)
  {
  }

  /** What is missing, or is no number, counts for nothing; what is no object holds nothing. */
  lemma MissingCountsZero(j: Json, k: Key)
    ensures Field(j, k) == None ==> JU64(j, k) == 0 && JInt(j, k) == 0
  {
  }

  lemma Nothing(j: Json)
    requires !j.Obj? || j == Obj(map[])
    ensures forall k :: JU64(j, k) == 0 && JInt(j, k) == 0 && SubObject(j, k) == Obj(map[]) && SubArray(j, k) == []
  {
  }

  lemma NoObjectIsZero(j: Json)
    requires !j.Obj?
    ensures FromJson(j) == Zero()
  {
    hide JU64, JInt, SubObject, SubArray;
    Nothing(j);
    Nothing(Obj(map[]));
    assert LoadHistogram([]) == EmptyHistogram();
  }
}
