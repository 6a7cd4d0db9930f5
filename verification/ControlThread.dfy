/** The control thread: `controlLoop` in `Harness.cpp`, with `refreshToken` and `assignServer`
    of `Provisioner.cpp` reduced to what the API answered. */
module ControlThread {
  import opened Bytes
  import opened Wire
  import opened SimClient
  import opened Protocol
  import opened ProtocolInvariants
  import opened WorkerThread
  import ProtocolProofs

  const MAX_ATTEMPTS := 15

  datatype Placement = Placement(ip4: string, port: nat, readyAt: int)

  datatype Refreshed = Refreshed(token: Token, gameTokenId: int, expiresAt: int, authorized: Option<Placement>)

  /** What the API answers while one request is served: the refresh, the k-th placement (None
      when the call throws), and whether the queue was already shut down after it. */
  datatype Api = Api(refresh: Option<Refreshed>, assign: nat -> Option<Placement>, shut: nat -> bool)

  function Placed(c: Creds, at: Placement): Creds {
    c.(serverIp4 := at.ip4, serverPort := at.port, udpReadyAt := at.readyAt)
  }

  function Renewed(c: Creds, f: Refreshed): Creds {
    var n := c.(appToken := f.token, gameTokenId := f.gameTokenId, tokenExpiresAt := f.expiresAt);
    match f.authorized
    case Some(at) => Placed(n, at)
    case None => n
  }

  predicate Kept(r: Request, api: Api) {
    r.kind == REFRESH && api.refresh.Some? && api.refresh.value.authorized.Some?
  }

  /** The token half of the credentials. */
  predicate SameToken(c: Creds, token: Token, gameTokenId: int, expiresAt: int) {
    c.appToken == token && c.gameTokenId == gameTokenId && c.tokenExpiresAt == expiresAt
  }

  /** The server half. */
  predicate StandsAt(c: Creds, at: Placement) {
    c.serverIp4 == at.ip4 && c.serverPort == at.port && c.udpReadyAt == at.readyAt
  }

  /** All attempts up to and including the a-th were refused. */
  ghost predicate Refused(api: Api, a: nat) {
    forall b :: 1 <= b <= a ==> api.assign(b).None?
  }

  /** Placement is given up at attempt `a`: everything failed, and it was the last attempt or
      the queue had been shut down; no earlier attempt gave up. */
  ghost predicate GivesUpAt(api: Api, a: nat) {
    1 <= a <= MAX_ATTEMPTS && Refused(api, a) && (a == MAX_ATTEMPTS || api.shut(a))
    && forall b :: 1 <= b < a ==> !api.shut(b)
  }

  ghost predicate PlacedAt(api: Api, a: nat) {
    1 <= a <= MAX_ATTEMPTS && Refused(api, a - 1) && api.assign(a).Some? && forall b :: 1 <= b < a ==> !api.shut(b)
  }

  class ControlStats {
    var tokenRefreshes: nat
    var refreshesKeptServer: nat
    var reassignments: nat
    var controlFailures: nat
  }

  /** The placement loop: at most fifteen attempts, fewer once the queue is shut down. */
  method PlaceWithRetries(creds: Creds, api: Api) returns (placed: Option<Creds>)
    ensures placed.Some? <==> exists a :: PlacedAt(api, a)
    ensures placed.None? <==> exists a :: GivesUpAt(api, a)
    ensures forall a :: PlacedAt(api, a) ==> placed == Some(Placed(creds, api.assign(a).value))
  {
    var attempt := 1;
    while true
      invariant 1 <= attempt <= MAX_ATTEMPTS && Refused(api, attempt - 1)
      invariant forall b :: 1 <= b < attempt ==> !api.shut(b)
      decreases MAX_ATTEMPTS - attempt
    {
      var answer := api.assign(attempt);
      if answer.Some? {
        assert PlacedAt(api, attempt);
        return Some(Placed(creds, answer.value));
      }
      if attempt >= MAX_ATTEMPTS || api.shut(attempt) {
        assert GivesUpAt(api, attempt);
        return None;
      }
      attempt := attempt + 1;
    }
  }

  /** Serve one request.  Exactly one update comes out, for the same slot and account; it is a
      failure exactly when the refresh was refused or the placement it needed was given up.  A
      success after a refresh carries the new token, its id and its expiry, and without one the
      old; its server is the one the refresh authorized, or else the one that was assigned.
      A refresh that kept its server asks for no placement and never counts as a move. */
  method Serve(r: Request, api: Api, stats: ControlStats) returns (u: Update)
    modifies stats
    ensures u.slot == r.slot && Who(u.creds) == Who(r.creds)
    ensures u.failed <==> (r.kind == REFRESH && api.refresh.None?) || (!Kept(r, api) && exists a :: GivesUpAt(api, a))
    ensures !u.failed && r.kind == REFRESH ==> api.refresh.Some?
    ensures !u.failed && r.kind == REFRESH ==>
              SameToken(u.creds, api.refresh.value.token, api.refresh.value.gameTokenId, api.refresh.value.expiresAt)
    ensures !u.failed && r.kind == REASSIGN ==> SameToken(u.creds, r.creds.appToken, r.creds.gameTokenId, r.creds.tokenExpiresAt)
    ensures !u.failed && Kept(r, api) ==> StandsAt(u.creds, api.refresh.value.authorized.value)
    ensures !u.failed && !Kept(r, api) ==> exists a :: PlacedAt(api, a) && StandsAt(u.creds, api.assign(a).value)
    ensures u.creds.gameApiUrl == r.creds.gameApiUrl
    ensures stats.controlFailures == old(stats.controlFailures) + if u.failed then 1 else 0
    ensures stats.tokenRefreshes == old(stats.tokenRefreshes) + if r.kind == REFRESH && api.refresh.Some? then 1 else 0
    ensures stats.refreshesKeptServer == old(stats.refreshesKeptServer) + if Kept(r, api) then 1 else 0
    ensures stats.reassignments == old(stats.reassignments) +
              if !u.failed && (r.kind == REASSIGN
                               || (!Kept(r, api) && (u.creds.serverIp4 != r.creds.serverIp4 || u.creds.serverPort != r.creds.serverPort)))
              then 1 else 0
  {
    var creds := r.creds;
    var keptServer := false;
    if r.kind == REFRESH {
      if api.refresh == None {
        stats.controlFailures := stats.controlFailures + 1;
        return Update(r.slot, true, creds);
      }
      creds := Renewed(creds, api.refresh.value);
      keptServer := api.refresh.value.authorized.Some?;
      stats.tokenRefreshes := stats.tokenRefreshes + 1;
      if keptServer {
        stats.refreshesKeptServer := stats.refreshesKeptServer + 1;
      }
    }
    var previousIp4, previousPort := creds.serverIp4, creds.serverPort;
    if !keptServer {
      var placed := PlaceWithRetries(creds, api);
      if placed == None {
        stats.controlFailures := stats.controlFailures + 1;
        return Update(r.slot, true, creds);
      }
      creds := placed.value;
    }
    var moved := creds.serverIp4 != previousIp4 || creds.serverPort != previousPort;
    if r.kind != REFRESH || moved {
      stats.reassignments := stats.reassignments + 1;
    }
    return Update(r.slot, false, creds);
  }

  /** The loop after a shutdown, with no worker pushing any more: every queued request is
      still served, each by exactly one update, posted in order to the worker that asked. */
  method DrainAfterShutdown(queue: ControlQueue, inboxes: array<seq<Update>>, stats: ControlStats, apis: seq<Api>)
    returns (ghost answers: seq<Answer>)
    requires queue.shutdown && |apis| == |queue.queue|
    requires forall k :: 0 <= k < |queue.queue| ==> queue.queue[k].worker < inboxes.Length
    modifies queue, inboxes, stats
    ensures queue.queue == []
    ensures |answers| == |old(queue.queue)|
    ensures forall k :: 0 <= k < |answers| ==> answers[k].request == old(queue.queue)[k] && Matches(answers[k])
    ensures forall w :: 0 <= w < inboxes.Length ==> inboxes[w] == old(inboxes[w]) + AnswersFor(answers, w)
  {
    ghost var all := queue.queue;
    answers := [];
    var served := 0;
    while true
      invariant queue.shutdown && 0 <= served <= |all| && queue.queue == all[served..] && |answers| == served
      invariant forall k :: 0 <= k < served ==> answers[k].request == all[k] && Matches(answers[k])
      invariant forall w :: 0 <= w < inboxes.Length ==> inboxes[w] == old(inboxes[w]) + AnswersFor(answers, w)
      decreases |all| - served
    {
      var popped := queue.Pop();
      if popped == None {
        break;
      }
      var r := popped.value;
      assert r == all[served];
      var u := Serve(r, apis[served], stats);
      forall w | 0 <= w < inboxes.Length
        ensures AnswersFor(answers + [Answer(r, u)], w) == AnswersFor(answers, w) + if r.worker == w then [u] else []
      {
        ProtocolProofs.AnswersForAppend(answers, Answer(r, u), w);
      }
      inboxes[r.worker] := inboxes[r.worker] + [u];
      answers := answers + [Answer(r, u)];
      served := served + 1;
    }
  }
}
