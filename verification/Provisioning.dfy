/** Parallel provisioning of an index range (`Provisioner::provisionRange`) and the roster it
    draws sessions from (`Provisioner.cpp`).

    The threads share an offset counter, a sticky failure flag and a stop flag that is only
    ever raised.  A step of the pool is one access to shared state by one thread, or the stop
    flag going up; the remote calls answer nondeterministically.
 */
module Provisioning {
  import opened Bytes
  import opened Wire
  import opened SimClient
  import DerivedEmail

  // ----- The roster --------------------------------------------------------------------

  /** One element of the roster's `sessions` array; None where the field is absent. */
  datatype Entry = Entry(index: Option<int>, token: Option<string>, email: Option<string>, gameTokenId: Option<int>, expiresAt: Option<int>)

  datatype AppToken = AppToken(token: string, gameTokenId: int, expiresAt: int)

  datatype Roster = Roster(appTokens: bool, sessions: map<int, string>, emails: map<int, string>, tokens: map<int, AppToken>)

  predicate Usable(appTokens: bool, e: Entry) {
    && e.index.Some? && e.token.Some? && e.token.value != ""
    && (appTokens ==> |e.token.value| == 64 && e.gameTokenId.Some? && e.gameTokenId.value != 0)
  }

  function LoadOne(r: Roster, e: Entry): Roster {
    if e.index.None? || e.token.None? || e.token.value == "" then r
    else
      var i := e.index.value;
      var named := if e.email.Some? then r.(emails := r.emails[i := e.email.value]) else r;
      if r.appTokens then
        if !Usable(true, e) then named
        else
          named.(tokens := r.tokens[i := AppToken(e.token.value, e.gameTokenId.value,
                                                  if e.expiresAt.Some? then e.expiresAt.value else 0)],
                 sessions := r.sessions[i := "app-token"])
      else named.(sessions := r.sessions[i := e.token.value])
  }

  function Load(appTokens: bool, entries: seq<Entry>): Roster
    decreases |entries|
  {
    if entries == [] then Roster(appTokens, map[], map[], map[])
    else LoadOne(Load(appTokens, entries[..|entries| - 1]), entries[|entries| - 1])
  }

  /** The constructor's loop. */
  method LoadRoster(appTokens: bool, entries: seq<Entry>) returns (r: Roster)
    ensures r == Load(appTokens, entries)
  {
    r := Roster(appTokens, map[], map[], map[]);
    for k := 0 to |entries|
      invariant r == Load(appTokens, entries[..k])
    {
      assert entries[..k + 1][..k] == entries[..k];
      r := LoadOne(r, entries[k]);
    }
    assert entries[..|entries|] == entries;
  }

  /** Coverage means a usable credential: no listed session is empty, and in an app-token
      roster exactly the listed indices have a token. */
  ghost predicate Sound(r: Roster) {
    && (forall i :: i in r.sessions ==> r.sessions[i] != "")
    && (if r.appTokens then r.tokens.Keys == r.sessions.Keys else r.tokens == map[])
  }

  lemma {:induction false} LoadIsSound(appTokens: bool, entries: seq<Entry>)
    ensures Sound(Load(appTokens, entries)) && Load(appTokens, entries).appTokens == appTokens
    ensures forall i :: i in Load(appTokens, entries).sessions <==>
              exists k :: 0 <= k < |entries| && Usable(appTokens, entries[k]) && entries[k].index == Some(i)
    decreases |entries|
  {
    if entries != [] {
      var rest, e := entries[..|entries| - 1], entries[|entries| - 1];
      LoadIsSound(appTokens, rest);
      var before, after := Load(appTokens, rest), Load(appTokens, entries);
      LoadOneSound(before, e);
      forall i
        ensures i in after.sessions <==>
                  exists k :: 0 <= k < |entries| && Usable(appTokens, entries[k]) && entries[k].index == Some(i)
      {
        if i in before.sessions {
          var k :| 0 <= k < |rest| && Usable(appTokens, rest[k]) && rest[k].index == Some(i);
          assert entries[k] == rest[k];
        }
        if exists k :: 0 <= k < |entries| && Usable(appTokens, entries[k]) && entries[k].index == Some(i) {
          var k :| 0 <= k < |entries| && Usable(appTokens, entries[k]) && entries[k].index == Some(i);
          assert k < |rest| ==> rest[k] == entries[k];
        }
      }
    }
  }

  lemma LoadOneSound(r: Roster, e: Entry)
    requires Sound(r)
    ensures Sound(LoadOne(r, e)) && LoadOne(r, e).appTokens == r.appTokens
    ensures forall i :: i in LoadOne(r, e).sessions <==> i in r.sessions || (Usable(r.appTokens, e) && e.index == Some(i))
  {
  }

  /** Position of the last usable entry for an index; -1 if there is none. */
  function LastUsable(appTokens: bool, entries: seq<Entry>, i: int): (k: int)
    ensures -1 <= k < |entries|
  {
    if entries == [] then -1
    else
      var last := |entries| - 1;
      if Usable(appTokens, entries[last]) && entries[last].index == Some(i) then last
      else LastUsable(appTokens, entries[..last], i)
  }

  /** What is listed for an index comes from its last usable entry: the session, or the token
      with its id and expiry, 0 where the entry names none. */
  lemma {:induction false} LastEntryWins(appTokens: bool, entries: seq<Entry>, i: int)
    ensures var r, k := Load(appTokens, entries), LastUsable(appTokens, entries, i);
            && (i in r.sessions <==> k >= 0)
            && (k >= 0 && !appTokens ==> entries[k].token == Some(r.sessions[i]))
            && (appTokens ==> (i in r.tokens <==> k >= 0))
            && (k >= 0 && appTokens ==>
                  && entries[k].token == Some(r.tokens[i].token) && entries[k].gameTokenId == Some(r.tokens[i].gameTokenId)
                  && r.tokens[i].expiresAt == (if entries[k].expiresAt.Some? then entries[k].expiresAt.value else 0))
            && r.appTokens == appTokens
    decreases |entries|
  {
    if entries != [] {
      LastEntryWins(appTokens, entries[..|entries| - 1], i);
    }
  }

  /** The email on record for an index is that of the last entry that has a token and names one. */
  function LastEmail(entries: seq<Entry>, i: int): Option<string> {
    if entries == [] then None
    else
      var e := entries[|entries| - 1];
      if e.index == Some(i) && e.token.Some? && e.token.value != "" && e.email.Some? then e.email
      else LastEmail(entries[..|entries| - 1], i)
  }

  lemma {:induction false} LastEmailWins(appTokens: bool, entries: seq<Entry>, i: int)
    ensures var r := Load(appTokens, entries);
            LastEmail(entries, i) == (if i in r.emails then Some(r.emails[i]) else None) && r.appTokens == appTokens
    decreases |entries|
  {
    if entries != [] {
      LastEmailWins(appTokens, entries[..|entries| - 1], i);
    }
  }

  // ----- Where a client's session comes from -------------------------------------------

  /** The provisioner's settings; `emailOf` is `derivedEmail` of the configuration. */
  datatype Setup = Setup(emailOf: int -> string, gameApiUrl: string, rosterGameApiUrl: string,
                         rosterFile: bool, rosterRequired: bool, roster: Roster)
  {
    function AccountOf(index: int): Identity {
      Identity(index, emailOf(index))
    }
  }

  datatype Source = Reuse | Refuse | MustSignIn

  predicate WrongEmail(r: Roster, index: int, email: string) {
    index in r.emails && r.emails[index] != email
  }

  /** `rosterAppToken`, then `rosterSession`: a roster for another population is a refusal. */
  function SourceOf(s: Setup, index: int): Source {
    var r, email := s.roster, s.emailOf(index);
    if r.appTokens && index in r.tokens then
      if WrongEmail(r, index, email) then Refuse
      else if s.gameApiUrl == "" && s.rosterGameApiUrl == "" then Refuse
      else Reuse
    else if index !in r.sessions then MustSignIn
    else if WrongEmail(r, index, email) then Refuse
    else if r.sessions[index] != "" then Reuse
    else MustSignIn
  }

  /** A covered index is reused, unless the roster lists it under another email or an app-token
      roster comes without any game API; then it is refused.  Only uncovered indices sign in. */
  lemma SourceIsDecided(s: Setup, index: int)
    requires Sound(s.roster)
    ensures SourceOf(s, index) == MustSignIn <==> index !in s.roster.sessions
    ensures SourceOf(s, index) == Refuse <==>
              && index in s.roster.sessions
              && ((index in s.roster.emails && s.roster.emails[index] != s.emailOf(index))
                  || (s.roster.appTokens && s.gameApiUrl == "" && s.rosterGameApiUrl == ""))
  {
  }

  /** What minting an app token and placing the client answered. */
  datatype Minted = Minted(token: Token, gameTokenId: int, gameApiUrl: string, expiresAt: int)

  datatype Seat = Seat(ip4: string, port: nat, readyAt: int)

  /** The octets of a token, which is 64 characters long. */
  function Octets(text: string): Token {
    seq(64, i requires 0 <= i < 64 => if i < |text| then text[i] as int % 256 else 0)
  }

  /** The credentials a thread assembles: the roster's token where it has one, or else a minted one. */
  function Assembled(s: Setup, index: int, minted: Minted, seat: Seat): Creds {
    if s.roster.appTokens && index in s.roster.tokens then
      var t := s.roster.tokens[index];
      Creds(index, s.emailOf(index), Octets(t.token), t.gameTokenId, if s.gameApiUrl != "" then s.gameApiUrl else s.rosterGameApiUrl,
            t.expiresAt, seat.ip4, seat.port, seat.readyAt)
    else
      Creds(index, s.emailOf(index), minted.token, minted.gameTokenId,
            if s.gameApiUrl != "" then s.gameApiUrl else minted.gameApiUrl, minted.expiresAt,
            seat.ip4, seat.port, seat.readyAt)
  }

  /** The configured game API goes before any other; a client of an app-token roster runs on the
      roster's token, its id and its expiry, and failing that on the roster's game API. */
  predicate Equipped(s: Setup, index: int, c: Creds) {
    && (s.gameApiUrl != "" ==> c.gameApiUrl == s.gameApiUrl)
    && (s.roster.appTokens && index in s.roster.tokens ==>
          && c.appToken == Octets(s.roster.tokens[index].token) && c.gameTokenId == s.roster.tokens[index].gameTokenId
          && c.tokenExpiresAt == s.roster.tokens[index].expiresAt
          && (s.gameApiUrl == "" ==> c.gameApiUrl == s.rosterGameApiUrl))
  }

  ghost predicate Covers(r: Roster, start: int, count: nat) {
    forall i :: start <= i < start + count ==> i in r.sessions
  }

  /** The coverage count of `provisionRange`. */
  method CountCovered(r: Roster, start: int, count: nat) returns (covered: nat)
    ensures covered <= count
    ensures covered == count <==> Covers(r, start, count)
  {
    covered := 0;
    for i := 0 to count
      invariant covered <= i
      invariant covered == i <==> Covers(r, start, i)
    {
      if start + i in r.sessions {
        covered := covered + 1;
      }
    }
  }

  /** A short roster is refused before any thread starts. */
  ghost predicate Admitted(s: Setup, start: int, count: nat) {
    s.rosterFile && s.rosterRequired ==> Covers(s.roster, start, count)
  }

  // ----- The pool ----------------------------------------------------------------------

  datatype SignIns = SignIns(reused: nat, mintedBefore: nat, mintedDuring: nat)

  function Sum(t: SignIns): nat {
    t.reused + t.mintedBefore + t.mintedDuring
  }

  /** Where a thread is in its loop, and the offset it has claimed. */
  datatype Phase = Idle | Claimed(off: nat) | Passed(off: nat) | Working(off: nat) | Signed(off: nat) | Gone

  datatype Range = Range(setup: Setup, start: int, count: nat, runStarted: bool)

  datatype Pool = Pool(next: nat, failed: bool, stop: bool, out: seq<Option<Creds>>, phases: seq<Phase>,
                       tally: SignIns, claims: seq<nat>)

  datatype Move =
    | RaiseStop
    | Claim(t: nat)
    | ReadFailed(t: nat)
    | ReadStop(t: nat)
    | Obtain(t: nat, threw: bool)
    | Finish(t: nat, threw: bool, minted: Minted, seat: Seat)

  ghost predicate InitialPool(g: Range, p: Pool, tally: SignIns) {
    && p.next == 0 && !p.failed && |p.out| == g.count && |p.phases| >= 1 && p.tally == tally && p.claims == []
    && (forall i :: 0 <= i < |p.out| ==> p.out[i] == None)
    && (forall t :: 0 <= t < |p.phases| ==> p.phases[t] == Idle)
  }

  predicate CanMove(g: Range, p: Pool, m: Move) {
    match m
    case RaiseStop => true
    case Claim(t) => t < |p.phases| && p.phases[t] == Idle
    case ReadFailed(t) => t < |p.phases| && p.phases[t].Claimed?
    case ReadStop(t) => t < |p.phases| && p.phases[t].Passed?
    case Obtain(t, threw) => t < |p.phases| && p.phases[t].Working? && (SourceOf(g.setup, g.start + p.phases[t].off) == Refuse ==> threw)
    case Finish(t, _, _, _) => t < |p.phases| && p.phases[t].Signed?
  }

  function At(p: Pool, t: nat, ph: Phase): Pool
    requires t < |p.phases|
  {
    p.(phases := p.phases[t := ph])
  }

  /** The counter a new session lands in. */
  function Booked(g: Range, off: nat, t: SignIns): SignIns {
    if SourceOf(g.setup, g.start + off) == Reuse then t.(reused := t.reused + 1)
    else if g.runStarted then t.(mintedDuring := t.mintedDuring + 1)
    else t.(mintedBefore := t.mintedBefore + 1)
  }

  function PoolStep(g: Range, p: Pool, m: Move): Pool
    requires CanMove(g, p, m) && |p.out| == g.count
    requires m.Finish? ==> p.phases[m.t].off < g.count
  {
    match m
    case RaiseStop => p.(stop := true)
    case Claim(t) => At(p, t, Claimed(p.next)).(next := p.next + 1, claims := p.claims + [t])
    case ReadFailed(t) =>
      At(p, t, if p.phases[t].off >= g.count || p.failed then Gone else Passed(p.phases[t].off))
    case ReadStop(t) => At(p, t, if p.stop then Gone else Working(p.phases[t].off))
    case Obtain(t, threw) =>
      if threw then At(p, t, Gone).(failed := true)
      else At(p, t, Signed(p.phases[t].off)).(tally := Booked(g, p.phases[t].off, p.tally))
    case Finish(t, threw, minted, seat) =>
      if threw then At(p, t, Gone).(failed := true)
      else At(p, t, Idle).(out := p.out[p.phases[t].off := Some(Assembled(g.setup, g.start + p.phases[t].off, minted, seat))])
  }

  /** What `provisionRange` returns once every thread has joined. */
  function Returned(p: Pool): seq<Option<Creds>> {
    if p.stop || p.failed then [] else p.out
  }

  ghost predicate Joined(p: Pool) {
    forall t :: 0 <= t < |p.phases| ==> p.phases[t] == Gone
  }

  // ----- Invariant ---------------------------------------------------------------------

  /** The thread is busy with an offset. */
  predicate Busy(ph: Phase) {
    !ph.Idle? && !ph.Gone?
  }

  /** Offset `off` has been handed out and its thread is still busy with it. */
  predicate Held(p: Pool, off: nat) {
    && off < |p.claims| && p.claims[off] < |p.phases|
    && Busy(p.phases[p.claims[off]]) && p.phases[p.claims[off]].off == off
  }

  /** Every offset handed out went to one thread, and busy threads hold what they were handed. */
  ghost predicate Shape(g: Range, p: Pool) {
    && |p.out| == g.count && |p.phases| >= 1 && |p.claims| == p.next
    && (forall t :: 0 <= t < |p.phases| && Busy(p.phases[t]) ==>
          p.phases[t].off < p.next && p.claims[p.phases[t].off] == t && (p.phases[t].Claimed? || p.phases[t].off < g.count))
  }

  ghost predicate Filled(g: Range, p: Pool, off: nat)
    requires off < |p.out|
  {
    && p.out[off].Some? && Who(p.out[off].value) == g.setup.AccountOf(g.start + off)
    && Equipped(g.setup, g.start + off, p.out[off].value)
  }

  ghost predicate SlotsRight(g: Range, p: Pool) {
    |p.out| == g.count &&
    forall off :: 0 <= off < g.count && p.out[off].Some? ==> off < p.next && Filled(g, p, off) && !Held(p, off)
  }

  /** Until something fails or stops, nothing handed out is dropped, and threads leave only
      when the range is used up. */
  ghost predicate Complete(g: Range, p: Pool) {
    |p.out| == g.count &&
    (!p.failed && !p.stop ==>
       && (forall off :: 0 <= off < g.count && off < p.next ==> p.out[off].Some? || Held(p, off))
       && (forall t :: 0 <= t < |p.phases| && p.phases[t].Gone? ==> p.next > g.count))
  }

  function CountFilled(out: seq<Option<Creds>>): nat {
    if out == [] then 0 else CountFilled(out[..|out| - 1]) + if out[|out| - 1].Some? then 1 else 0
  }

  function CountSigned(phases: seq<Phase>): nat {
    if phases == [] then 0 else CountSigned(phases[..|phases| - 1]) + if phases[|phases| - 1].Signed? then 1 else 0
  }

  /** The slot draws its session from the roster. */
  predicate Draws(g: Range, off: nat) {
    SourceOf(g.setup, g.start + off) == Reuse
  }

  /** Among the filled slots, the busy threads, and the first n offsets, those that do. */
  function FilledDraws(g: Range, out: seq<Option<Creds>>): nat {
    if out == [] then 0
    else FilledDraws(g, out[..|out| - 1]) + if out[|out| - 1].Some? && Draws(g, |out| - 1) then 1 else 0
  }

  function SignedDraws(g: Range, phases: seq<Phase>): nat {
    if phases == [] then 0 else SignedDraws(g, phases[..|phases| - 1]) + Drawing(g, phases[|phases| - 1])
  }

  function Drawing(g: Range, ph: Phase): nat {
    if ph.Signed? && Draws(g, ph.off) then 1 else 0
  }

  function DrawsBelow(g: Range, n: nat): nat {
    if n == 0 then 0 else DrawsBelow(g, n - 1) + if Draws(g, n - 1) then 1 else 0
  }

  lemma {:induction false} FilledDrawsUpdate(g: Range, out: seq<Option<Creds>>, i: nat, c: Creds)
    requires i < |out| && out[i].None?
    ensures FilledDraws(g, out[i := Some(c)]) == FilledDraws(g, out) + if Draws(g, i) then 1 else 0
    decreases |out|
  {
    hide Draws;
    var last, more := |out| - 1, out[i := Some(c)];
    if i == last {
      assert more[..last] == out[..last];
    } else {
      FilledDrawsUpdate(g, out[..last], i, c);
      assert more[..last] == out[..last][i := Some(c)];
    }
  }

  lemma {:induction false} FilledDrawsNone(g: Range, out: seq<Option<Creds>>)
    requires forall i :: 0 <= i < |out| ==> out[i] == None
    ensures FilledDraws(g, out) == 0
    decreases |out|
  {
    if out != [] {
      FilledDrawsNone(g, out[..|out| - 1]);
    }
  }

  lemma {:induction false} FilledDrawsAll(g: Range, out: seq<Option<Creds>>)
    requires forall i :: 0 <= i < |out| ==> out[i].Some?
    ensures FilledDraws(g, out) == DrawsBelow(g, |out|)
    decreases |out|
  {
    hide Draws;
    if out != [] {
      FilledDrawsAll(g, out[..|out| - 1]);
    }
  }

  lemma {:induction false} SignedDrawsUpdate(g: Range, phases: seq<Phase>, t: nat, ph: Phase)
    requires t < |phases|
    ensures SignedDraws(g, phases[t := ph]) == SignedDraws(g, phases) + Drawing(g, ph) - Drawing(g, phases[t])
    decreases |phases|
  {
    hide Drawing;
    var last, more := |phases| - 1, phases[t := ph];
    if t == last {
      assert more[..last] == phases[..last];
    } else {
      SignedDrawsUpdate(g, phases[..last], t, ph);
      assert more[..last] == phases[..last][t := ph];
    }
  }

  lemma {:induction false} SignedDrawsNone(g: Range, phases: seq<Phase>)
    requires forall t :: 0 <= t < |phases| ==> !phases[t].Signed?
    ensures SignedDraws(g, phases) == 0
    decreases |phases|
  {
    if phases != [] {
      SignedDrawsNone(g, phases[..|phases| - 1]);
    }
  }

  /** Every session obtained is in a filled slot or on its way to one. */
  ghost predicate Accounted(g: Range, p: Pool, tally: SignIns) {
    && (!p.failed ==> Sum(p.tally) == Sum(tally) + CountFilled(p.out) + CountSigned(p.phases))
    && (!p.failed ==> p.tally.reused == tally.reused + FilledDraws(g, p.out) + SignedDraws(g, p.phases))
    && (g.runStarted ==> p.tally.mintedBefore == tally.mintedBefore)
    && (!g.runStarted ==> p.tally.mintedDuring == tally.mintedDuring)
    && (g.setup.rosterFile && g.setup.rosterRequired ==>
          p.tally.mintedBefore == tally.mintedBefore && p.tally.mintedDuring == tally.mintedDuring)
  }

  ghost predicate PoolInv(g: Range, p: Pool, tally: SignIns) {
    Shape(g, p) && SlotsRight(g, p) && Complete(g, p) && Accounted(g, p, tally)
  }

  lemma {:induction false} CountFilledUpdate(out: seq<Option<Creds>>, i: nat, c: Creds)
    requires i < |out| && out[i].None?
    ensures CountFilled(out[i := Some(c)]) == CountFilled(out) + 1
    decreases |out|
  {
    var last, more := |out| - 1, out[i := Some(c)];
    if i == last {
      assert more[..last] == out[..last];
    } else {
      CountFilledUpdate(out[..last], i, c);
      assert more[..last] == out[..last][i := Some(c)];
    }
  }

  lemma {:induction false} CountFilledNone(out: seq<Option<Creds>>)
    requires forall i :: 0 <= i < |out| ==> out[i] == None
    ensures CountFilled(out) == 0
    decreases |out|
  {
    if out != [] {
      CountFilledNone(out[..|out| - 1]);
    }
  }

  lemma {:induction false} CountFilledAll(out: seq<Option<Creds>>)
    requires forall i :: 0 <= i < |out| ==> out[i].Some?
    ensures CountFilled(out) == |out|
    decreases |out|
  {
    if out != [] {
      CountFilledAll(out[..|out| - 1]);
    }
  }

  lemma {:induction false} CountSignedUpdate(phases: seq<Phase>, t: nat, ph: Phase)
    requires t < |phases|
    ensures CountSigned(phases[t := ph]) == CountSigned(phases) + (if ph.Signed? then 1 else 0) - (if phases[t].Signed? then 1 else 0)
    decreases |phases|
  {
    var last, more := |phases| - 1, phases[t := ph];
    if t == last {
      assert more[..last] == phases[..last];
    } else {
      CountSignedUpdate(phases[..last], t, ph);
      assert more[..last] == phases[..last][t := ph];
    }
  }

  lemma {:induction false} CountSignedNone(phases: seq<Phase>)
    requires forall t :: 0 <= t < |phases| ==> !phases[t].Signed?
    ensures CountSigned(phases) == 0
    decreases |phases|
  {
    if phases != [] {
      CountSignedNone(phases[..|phases| - 1]);
    }
  }

  lemma InitialPoolInv(g: Range, p: Pool, tally: SignIns)
    requires InitialPool(g, p, tally)
    ensures PoolInv(g, p, tally)
  {
    CountFilledNone(p.out);
    CountSignedNone(p.phases);
    FilledDrawsNone(g, p.out);
    SignedDrawsNone(g, p.phases);
  }

  lemma StepShape(g: Range, p: Pool, m: Move)
    requires Shape(g, p) && CanMove(g, p, m)
    ensures Shape(g, PoolStep(g, p, m))
  {
  }

  lemma StepSlots(g: Range, p: Pool, m: Move)
    requires Shape(g, p) && SlotsRight(g, p) && CanMove(g, p, m)
    ensures SlotsRight(g, PoolStep(g, p, m))
  {
    var q := PoolStep(g, p, m);
    forall off | 0 <= off < g.count && q.out[off].Some?
      ensures off < q.next && Filled(g, q, off) && !Held(q, off)
    {
      if p.out[off].Some? {
        assert !Held(p, off) && Filled(g, p, off);
      }
    }
  }

  lemma StepComplete(g: Range, p: Pool, m: Move)
    requires Shape(g, p) && Complete(g, p) && CanMove(g, p, m)
    ensures Complete(g, PoolStep(g, p, m))
  {
    var q := PoolStep(g, p, m);
    if !q.failed && !q.stop {
      forall off | 0 <= off < g.count && off < q.next
        ensures q.out[off].Some? || Held(q, off)
      {
        if off < p.next {
          assert p.out[off].Some? || Held(p, off);
        }
      }
    }
  }

  /** Under a required roster that covers the range nobody signs in. */
  lemma CoveredIsReused(s: Setup, start: int, count: nat, off: nat)
    requires Sound(s.roster) && Covers(s.roster, start, count) && off < count
    ensures SourceOf(s, start + off) != MustSignIn
  {
    assert start + off in s.roster.sessions;
  }

  lemma ObtainAccounted(g: Range, p: Pool, m: Move, tally: SignIns)
    requires Shape(g, p) && Accounted(g, p, tally) && CanMove(g, p, m) && m.Obtain?
    requires Sound(g.setup.roster) && Admitted(g.setup, g.start, g.count)
    ensures Accounted(g, PoolStep(g, p, m), tally)
  {
    hide SourceOf;
    var off := p.phases[m.t].off;
    CountSignedUpdate(p.phases, m.t, Signed(off));
    SignedDrawsUpdate(g, p.phases, m.t, Signed(off));
    if g.setup.rosterFile && g.setup.rosterRequired {
      CoveredIsReused(g.setup, g.start, g.count, off);
    }
  }

  lemma FinishAccounted(g: Range, p: Pool, m: Move, tally: SignIns)
    requires Shape(g, p) && SlotsRight(g, p) && Accounted(g, p, tally) && CanMove(g, p, m) && m.Finish?
    ensures Accounted(g, PoolStep(g, p, m), tally)
  {
    hide SourceOf, Assembled, Equipped;
    if !m.threw {
      var off := p.phases[m.t].off;
      assert Held(p, off);
      var c := Assembled(g.setup, g.start + off, m.minted, m.seat);
      CountFilledUpdate(p.out, off, c);
      CountSignedUpdate(p.phases, m.t, Idle);
      FilledDrawsUpdate(g, p.out, off, c);
      SignedDrawsUpdate(g, p.phases, m.t, Idle);
    }
  }

  lemma StepAccounted(g: Range, p: Pool, m: Move, tally: SignIns)
    requires Shape(g, p) && SlotsRight(g, p) && Accounted(g, p, tally) && CanMove(g, p, m)
    requires Sound(g.setup.roster) && Admitted(g.setup, g.start, g.count)
    ensures Accounted(g, PoolStep(g, p, m), tally)
  {
    match m
    case RaiseStop =>
    case Obtain(_, _) => ObtainAccounted(g, p, m, tally);
    case Finish(_, _, _, _) => FinishAccounted(g, p, m, tally);
    case _ =>
      CountSignedUpdate(p.phases, m.t, PoolStep(g, p, m).phases[m.t]);
      SignedDrawsUpdate(g, p.phases, m.t, PoolStep(g, p, m).phases[m.t]);
  }

  // ----- Whole runs of the pool --------------------------------------------------------

  ghost function RunPool(g: Range, p: Pool, moves: seq<Move>): Option<Pool>
    requires Shape(g, p)
    ensures RunPool(g, p, moves).Some? ==> Shape(g, RunPool(g, p, moves).value)
    decreases |moves|
  {
    if moves == [] then Some(p)
    else
      match RunPool(g, p, moves[..|moves| - 1])
      case None => None
      case Some(q) =>
        if CanMove(g, q, moves[|moves| - 1]) then
          StepShape(g, q, moves[|moves| - 1]);
          Some(PoolStep(g, q, moves[|moves| - 1]))
        else None
  }

  lemma {:induction false} RunPoolInv(g: Range, p: Pool, moves: seq<Move>, tally: SignIns)
    requires Sound(g.setup.roster) && Admitted(g.setup, g.start, g.count)
    requires PoolInv(g, p, tally) && RunPool(g, p, moves).Some?
    ensures PoolInv(g, RunPool(g, p, moves).value, tally)
    decreases |moves|
  {
    if moves != [] {
      RunPoolInv(g, p, moves[..|moves| - 1], tally);
      var q, m := RunPool(g, p, moves[..|moves| - 1]).value, moves[|moves| - 1];
      StepShape(g, q, m);
      StepSlots(g, q, m);
      StepComplete(g, q, m);
      StepAccounted(g, q, m, tally);
    }
  }

  /** What a caller of `provisionRange` may rely on. */
  ghost predicate RangeContract(g: Range, tally: SignIns, after: SignIns, result: seq<Option<Creds>>) {
    && (result != [] ==>
          && |result| == g.count
          && (forall off :: 0 <= off < g.count ==> result[off].Some? && Who(result[off].value) == g.setup.AccountOf(g.start + off))
          && (forall off :: 0 <= off < g.count ==> result[off].Some? && Equipped(g.setup, g.start + off, result[off].value))
          && Sum(after) == Sum(tally) + g.count && after.reused == tally.reused + DrawsBelow(g, g.count))
    && (g.runStarted ==> after.mintedBefore == tally.mintedBefore)
    && (!g.runStarted ==> after.mintedDuring == tally.mintedDuring)
    && (g.setup.rosterFile && g.setup.rosterRequired ==>
          after.mintedBefore == tally.mintedBefore && after.mintedDuring == tally.mintedDuring)
  }

  /** For every interleaving of any number of threads, once they have all left: a non-empty
      result is complete, slot by slot the account of its own index, on the roster's token where
      the roster has one; it raised the three session counters by exactly the size of the range,
      and the count of reused sessions by exactly the indices the roster serves. */
  lemma EveryInterleavingProvisions(g: Range, p: Pool, moves: seq<Move>, tally: SignIns)
    requires Sound(g.setup.roster) && Admitted(g.setup, g.start, g.count)
    requires InitialPool(g, p, tally) && RunPool(g, p, moves).Some? && Joined(RunPool(g, p, moves).value)
    ensures var q := RunPool(g, p, moves).value; RangeContract(g, tally, q.tally, Returned(q))
  {
    InitialPoolInv(g, p, tally);
    RunPoolInv(g, p, moves, tally);
    var q := RunPool(g, p, moves).value;
    if Returned(q) != [] {
      assert q.phases[0].Gone?;
      forall off | 0 <= off < g.count
        ensures q.out[off].Some? && Who(q.out[off].value) == g.setup.AccountOf(g.start + off)
        ensures Equipped(g.setup, g.start + off, q.out[off].value)
      {
        assert q.out[off].Some? || Held(q, off);
        assert Filled(g, q, off);
      }
      CountFilledAll(q.out);
      CountSignedNone(q.phases);
      FilledDrawsAll(g, q.out);
      SignedDrawsNone(g, q.phases);
    }
  }

  /** Each offset is handed to one thread only, and a busy thread works on what it was handed. */
  lemma OffsetsClaimedOnce(g: Range, p: Pool, moves: seq<Move>, tally: SignIns, t: nat, u: nat)
    requires InitialPool(g, p, tally) && Shape(g, p) && RunPool(g, p, moves).Some?
    requires var q := RunPool(g, p, moves).value; t < |q.phases| && u < |q.phases| && Busy(q.phases[t]) && Busy(q.phases[u])
    ensures var q := RunPool(g, p, moves).value;
            && q.phases[t].off < |q.claims| == q.next && q.claims[q.phases[t].off] == t
            && (q.phases[t].off == q.phases[u].off ==> t == u)
  {
  }

  /** Two clients of one provisioned range are two accounts, as long as the personalised
      pattern still names `{index}`. */
  lemma ProvisionedAccountsDistinct(g: Range, tally: SignIns, after: SignIns, result: seq<Option<Creds>>,
                                    email: string, pattern: string, width: nat, i: nat, j: nat)
    requires RangeContract(g, tally, after, result) && i < j < |result|
    requires forall k :: g.setup.emailOf(k) == DerivedEmail.Derived(email, pattern, width, k)
    requires 1 <= width <= 16 && 0 <= g.start && g.start + g.count <= DerivedEmail.INT_MAX
    requires DerivedEmail.Contains(DerivedEmail.Personalised(email, pattern), "{index}")
    ensures result[i].Some? && result[j].Some? && result[i].value.email != result[j].value.email
  {
    hide DerivedEmail.Derived, DerivedEmail.Contains, DerivedEmail.Personalised, Equipped;
    DerivedEmail.AccountsDistinct(email, pattern, width, g.start + i, g.start + j);
  }
}
