/**
 Any number of batch requests at once. A step is one Redis command, one transaction or one failure of
 one request, so a run is any interleaving of the requests' claims and commits as time passes.
 */
module BatchRuns {
  import opened Domain
  import opened Scans

  datatype Phase = Claiming | Committed | Failed

  datatype Request = Request(batch: seq<Scan>, pos: nat, processed: seq<Scan>, phase: Phase)

  /** A successful SET NX: which scan, for which request, when. */
  datatype Claim = Claim(scan: Scan, at: Time, req: nat)

  /** `claims` records the successful SET NX commands in the order in which Redis ran them. */
  datatype Server = Server(now: Time, keys: Keys, requests: seq<Request>, rows: seq<Scan>, claims: seq<Claim>)

  datatype Event =
    | Receive(batch: seq<Scan>)
    | ClaimNext(r: nat)
    | Commit(r: nat, dbOk: bool)
    | Crash(r: nat)
    | Wait(until: Time)

  function Initial(now: Time): Server
  {
    Server(now, map[], [], [], [])
  }

  predicate Running(s: Server, r: nat)
  {
    r < |s.requests| && s.requests[r].phase == Claiming
  }

  function StepClaim(s: Server, r: nat): Server
  {
    if !Running(s, r) || s.requests[r].pos >= |s.requests[r].batch| then s
    else
      var q := s.requests[r];
      var scan := q.batch[q.pos];
      if Live(s.keys, CacheKey(scan.clientEventId), s.now) then s.(requests := s.requests[r := q.(pos := q.pos + 1)])
      else s.(keys := Claimed(s.keys, scan.clientEventId, s.now),
              requests := s.requests[r := q.(pos := q.pos + 1, processed := q.processed + [scan])],
              claims := s.claims + [Claim(scan, s.now, r)])
  }

  function StepCommit(s: Server, r: nat, dbOk: bool): Server
  {
    if !Running(s, r) || s.requests[r].pos < |s.requests[r].batch| then s
    else
      var q := s.requests[r];
      if q.processed == [] || (dbOk && Insertable(s.rows, q.processed))
      then s.(rows := s.rows + q.processed, requests := s.requests[r := q.(phase := Committed)])
      else s.(requests := s.requests[r := q.(phase := Failed)])
  }

  function Step(s: Server, e: Event): Server
  {
    match e
    case Receive(batch) => s.(requests := s.requests + [Request(batch, 0, [], Claiming)])
    case ClaimNext(r) => StepClaim(s, r)
    case Commit(r, dbOk) => StepCommit(s, r, dbOk)
    case Crash(r) => if Running(s, r) then s.(requests := s.requests[r := s.requests[r].(phase := Failed)]) else s
    case Wait(until) => if until > s.now then s.(now := until) else s
  }

  function Run(s: Server, events: seq<Event>): Server
  {
    if events == [] then s else Step(Run(s, events[..|events| - 1]), events[|events| - 1])
  }

  // ---- What is stored -------------------------------------------------------------------------

  function Ids(scans: seq<Scan>): (r: seq<string>)
    ensures |r| == |scans| && forall i | 0 <= i < |r| :: r[i] == scans[i].clientEventId
  {
    if scans == [] then [] else Ids(scans[..|scans| - 1]) + [scans[|scans| - 1].clientEventId]
  }

  lemma IdsAppend(a: seq<Scan>, b: seq<Scan>)
    ensures Ids(a + b) == Ids(a) + Ids(b)
  {
  }

  /** The requests whose transaction went through. */
  function Done(requests: seq<Request>): set<nat>
  {
    set r | 0 <= r < |requests| && requests[r].phase == Committed
  }

  /** The scans claimed by some requests, in claim order. */
  function ClaimedBy(claims: seq<Claim>, reqs: set<nat>): seq<Scan>
  {
    if claims == [] then []
    else
      var last := claims[|claims| - 1];
      ClaimedBy(claims[..|claims| - 1], reqs) + (if last.req in reqs then [last.scan] else [])
  }

  /** Claims of one id are a whole window apart, and the key outlives the latest of them by a window. */
  ghost predicate Spaced(claims: seq<Claim>, keys: Keys, now: Time)
  {
    && (forall i | 0 <= i < |claims| :: claims[i].at <= now)
    && (forall i, j | 0 <= i < j < |claims| && claims[i].scan.clientEventId == claims[j].scan.clientEventId ::
          claims[i].at + TTL <= claims[j].at)
    && (forall i | 0 <= i < |claims| :: KeptAlive(claims[i], keys))
  }

  predicate KeptAlive(c: Claim, keys: Keys)
  {
    var key := CacheKey(c.scan.clientEventId);
    key in keys && keys[key].expiresAt.Some? && c.at + TTL <= keys[key].expiresAt.value
  }

  ghost predicate RequestOk(claims: seq<Claim>, r: nat, q: Request)
  {
    && q.processed == ClaimedBy(claims, {r})
    && q.pos <= |q.batch|
    && (q.phase == Committed ==> q.pos == |q.batch|)
    && (forall i | 0 <= i < q.pos :: WasClaimed(claims, q.batch[i].clientEventId))
  }

  ghost predicate Stored(claims: seq<Claim>, requests: seq<Request>, rows: seq<Scan>)
  {
    multiset(Ids(rows)) == multiset(ClaimedIds(claims, Done(requests)))
  }

  ghost predicate InRange(claims: seq<Claim>, n: nat)
  {
    forall i | 0 <= i < |claims| :: claims[i].req < n
  }

  ghost predicate KeysClaimed(keys: Keys, claims: seq<Claim>)
  {
    forall id | CacheKey(id) in keys :: WasClaimed(claims, id)
  }

  ghost predicate RequestsOk(claims: seq<Claim>, requests: seq<Request>)
  {
    forall r | 0 <= r < |requests| :: RequestOk(claims, r, requests[r])
  }

  ghost predicate Inv(s: Server)
  {
    && Spaced(s.claims, s.keys, s.now)
    && InRange(s.claims, |s.requests|)
    && KeysClaimed(s.keys, s.claims)
    && RequestsOk(s.claims, s.requests)
    && Stored(s.claims, s.requests, s.rows)
    && UniqueKeys(s.rows)
  }

  ghost predicate WasClaimed(claims: seq<Claim>, id: string)
  {
    exists c | c in claims :: c.scan.clientEventId == id
  }

  lemma ClaimedBySnoc(claims: seq<Claim>, c: Claim, reqs: set<nat>)
    ensures ClaimedBy(claims + [c], reqs) == ClaimedBy(claims, reqs) + (if c.req in reqs then [c.scan] else [])
  {
    assert (claims + [c])[..|claims|] == claims;
  }

  /** The ids claimed by some requests, in claim order. */
  function ClaimedIds(claims: seq<Claim>, reqs: set<nat>): seq<string>
  {
    if claims == [] then []
    else
      var last := claims[|claims| - 1];
      ClaimedIds(claims[..|claims| - 1], reqs) + (if last.req in reqs then [last.scan.clientEventId] else [])
  }

  lemma {:induction false} IdsOfClaimed(claims: seq<Claim>, reqs: set<nat>)
    ensures Ids(ClaimedBy(claims, reqs)) == ClaimedIds(claims, reqs)
  {
    if claims != [] {
      IdsOfClaimed(claims[..|claims| - 1], reqs);
    }
  }

  lemma ClaimedIdsSnoc(claims: seq<Claim>, c: Claim, reqs: set<nat>)
    ensures ClaimedIds(claims + [c], reqs)
            == ClaimedIds(claims, reqs) + (if c.req in reqs then [c.scan.clientEventId] else [])
  {
    assert (claims + [c])[..|claims|] == claims;
  }

  /** Adding a committed request adds exactly its own claims. */
  lemma {:induction false} CommitAddsOwn(claims: seq<Claim>, done: set<nat>, r: nat)
    requires r !in done
    ensures multiset(ClaimedIds(claims, done + {r}))
            == multiset(ClaimedIds(claims, done)) + multiset(ClaimedIds(claims, {r}))
  {
    if claims != [] {
      CommitAddsOwn(claims[..|claims| - 1], done, r);
    }
  }

  lemma DoneCommit(requests: seq<Request>, r: nat, phase: Phase)
    requires r < |requests| && requests[r].phase == Claiming
    ensures r !in Done(requests)
    ensures Done(requests[r := requests[r].(phase := phase)])
            == if phase == Committed then Done(requests) + {r} else Done(requests)
  {
  }

  lemma RequestUpdated(claims: seq<Claim>, requests: seq<Request>, r: nat, q: Request)
    requires RequestsOk(claims, requests) && r < |requests| && RequestOk(claims, r, q)
    ensures RequestsOk(claims, requests[r := q])
  {
    hide RequestOk;
  }

  lemma CommittedRows(claims: seq<Claim>, requests: seq<Request>, rows: seq<Scan>, r: nat)
    requires Stored(claims, requests, rows) && r < |requests| && requests[r].phase == Claiming
    requires requests[r].processed == ClaimedBy(claims, {r})
    ensures Stored(claims, requests[r := requests[r].(phase := Committed)], rows + requests[r].processed)
  {
    DoneCommit(requests, r, Committed);
    CommitAddsOwn(claims, Done(requests), r);
    IdsOfClaimed(claims, {r});
    IdsAppend(rows, requests[r].processed);
  }

  /** A request's own facts, and what closing it leaves intact. */
  lemma RequestCloses(claims: seq<Claim>, requests: seq<Request>, r: nat)
    requires RequestsOk(claims, requests) && r < |requests| && requests[r].phase == Claiming
    ensures requests[r].processed == ClaimedBy(claims, {r}) && requests[r].pos <= |requests[r].batch|
    ensures RequestsOk(claims, requests[r := requests[r].(phase := Failed)])
    ensures requests[r].pos == |requests[r].batch| ==>
              RequestsOk(claims, requests[r := requests[r].(phase := Committed)])
    ensures Done(requests[r := requests[r].(phase := Failed)]) == Done(requests)
  {
    DoneCommit(requests, r, Failed);
    assert RequestOk(claims, r, requests[r]);
    hide Done, ClaimedBy, RequestsOk, WasClaimed;
    RequestUpdated(claims, requests, r, requests[r].(phase := Failed));
    if requests[r].pos == |requests[r].batch| {
      RequestUpdated(claims, requests, r, requests[r].(phase := Committed));
    }
  }

  lemma RowsStayUnique(rows: seq<Scan>, batch: seq<Scan>)
    requires UniqueKeys(rows) && (batch == [] || Insertable(rows, batch))
    ensures UniqueKeys(rows + batch)
  {
  }

  lemma CommitKeeps(s: Server, r: nat, dbOk: bool)
    requires Inv(s)
    ensures Inv(StepCommit(s, r, dbOk))
  {
    hide Spaced, Done, KeysClaimed, InRange, RequestsOk, ClaimedBy, ClaimedIds, UniqueKeys, Insertable;
    if Running(s, r) && s.requests[r].pos >= |s.requests[r].batch| {
      var q := s.requests[r];
      RequestCloses(s.claims, s.requests, r);
      if q.processed == [] || (dbOk && Insertable(s.rows, q.processed)) {
        CommittedRows(s.claims, s.requests, s.rows, r);
        RowsStayUnique(s.rows, q.processed);
      }
    }
  }

  lemma WasClaimedMono(claims: seq<Claim>, c: Claim)
    ensures forall id | WasClaimed(claims, id) :: WasClaimed(claims + [c], id)
    ensures WasClaimed(claims + [c], c.scan.clientEventId)
  {
    assert c in claims + [c];
    forall id | WasClaimed(claims, id) ensures WasClaimed(claims + [c], id) {
      var d :| d in claims && d.scan.clientEventId == id;
      assert d in claims + [c];
    }
  }

  lemma SpacedAppend(claims: seq<Claim>, keys: Keys, now: Time, c: Claim)
    requires Spaced(claims, keys, now) && c.at == now && !Live(keys, CacheKey(c.scan.clientEventId), now)
    ensures Spaced(claims + [c], Claimed(keys, c.scan.clientEventId, now), now)
  {
    var id := c.scan.clientEventId;
    forall i | 0 <= i < |claims|
      ensures KeptAlive(claims[i], Claimed(keys, id, now))
      ensures claims[i].scan.clientEventId == id ==> claims[i].at + TTL <= now
    {
      assert KeptAlive(claims[i], keys);
      CacheKeyInjective(claims[i].scan.clientEventId, id);
    }
    forall i | 0 <= i < |claims + [c]| ensures KeptAlive((claims + [c])[i], Claimed(keys, id, now)) {
    }
  }

  lemma RequestKept(claims: seq<Claim>, c: Claim, r: nat, q: Request)
    requires RequestOk(claims, r, q) && c.req != r
    ensures RequestOk(claims + [c], r, q)
  {
    ClaimedBySnoc(claims, c, {r});
    WasClaimedMono(claims, c);
    assert ClaimedBy(claims, {r}) + [] == ClaimedBy(claims, {r});
  }

  lemma RequestsKept(claims: seq<Claim>, c: Claim, requests: seq<Request>, r: nat, q: Request)
    requires RequestsOk(claims, requests) && r < |requests| && c.req == r && RequestOk(claims + [c], r, q)
    ensures RequestsOk(claims + [c], requests[r := q])
  {
    hide RequestOk;
    forall k | 0 <= k < |requests| && k != r ensures RequestOk(claims + [c], k, requests[k]) {
      RequestKept(claims, c, k, requests[k]);
    }
  }

  lemma RequestAdvances(claims: seq<Claim>, c: Claim, r: nat, q: Request)
    requires RequestOk(claims, r, q) && q.phase == Claiming && q.pos < |q.batch| && c.req == r
    requires c.scan == q.batch[q.pos]
    ensures RequestOk(claims + [c], r, q.(pos := q.pos + 1, processed := q.processed + [c.scan]))
  {
    WasClaimedMono(claims, c);
    ClaimedBySnoc(claims, c, {r});
  }

  lemma StoredKept(claims: seq<Claim>, c: Claim, requests: seq<Request>, rows: seq<Scan>, q: Request)
    requires Stored(claims, requests, rows) && c.req < |requests| && requests[c.req].phase == q.phase == Claiming
    ensures Stored(claims + [c], requests[c.req := q], rows)
  {
    assert Done(requests[c.req := q]) == Done(requests);
    ClaimedIdsSnoc(claims, c, Done(requests));
    assert ClaimedIds(claims, Done(requests)) + [] == ClaimedIds(claims, Done(requests));
  }

  lemma KeysStayClaimed(keys: Keys, claims: seq<Claim>, c: Claim, now: Time)
    requires KeysClaimed(keys, claims)
    ensures KeysClaimed(Claimed(keys, c.scan.clientEventId, now), claims + [c])
  {
    WasClaimedMono(claims, c);
    forall id | CacheKey(id) in Claimed(keys, c.scan.clientEventId, now) ensures WasClaimed(claims + [c], id) {
      CacheKeyInjective(id, c.scan.clientEventId);
    }
  }

  lemma RequestAt(claims: seq<Claim>, requests: seq<Request>, r: nat)
    requires RequestsOk(claims, requests) && r < |requests|
    ensures RequestOk(claims, r, requests[r])
  {
  }

  lemma InRangeAppend(claims: seq<Claim>, c: Claim, n: nat)
    requires InRange(claims, n) && c.req < n
    ensures InRange(claims + [c], n)
  {
  }

  lemma WonClaimKeeps(s: Server, r: nat, c: Claim)
    requires Inv(s) && Running(s, r) && s.requests[r].pos < |s.requests[r].batch|
    requires c == Claim(s.requests[r].batch[s.requests[r].pos], s.now, r)
    requires !Live(s.keys, CacheKey(c.scan.clientEventId), s.now)
    ensures Inv(StepClaim(s, r))
  {
    hide Spaced, Done, KeysClaimed, Stored, Claimed, CacheKey, Live, UniqueKeys, InRange, RequestsOk, RequestOk;
    var q := s.requests[r];
    var q' := q.(pos := q.pos + 1, processed := q.processed + [c.scan]);
    SpacedAppend(s.claims, s.keys, s.now, c);
    RequestAt(s.claims, s.requests, r);
    RequestAdvances(s.claims, c, r, q);
    RequestsKept(s.claims, c, s.requests, r, q');
    StoredKept(s.claims, c, s.requests, s.rows, q');
    KeysStayClaimed(s.keys, s.claims, c, s.now);
    InRangeAppend(s.claims, c, |s.requests|);
  }

  lemma LiveIsClaimed(keys: Keys, claims: seq<Claim>, id: string, now: Time)
    requires KeysClaimed(keys, claims) && Live(keys, CacheKey(id), now)
    ensures WasClaimed(claims, id)
  {
  }

  lemma RequestSkips(claims: seq<Claim>, r: nat, q: Request)
    requires RequestOk(claims, r, q) && q.phase == Claiming && q.pos < |q.batch|
    requires WasClaimed(claims, q.batch[q.pos].clientEventId)
    ensures RequestOk(claims, r, q.(pos := q.pos + 1))
  {
    hide ClaimedBy, WasClaimed;
  }

  lemma StoredStays(claims: seq<Claim>, requests: seq<Request>, rows: seq<Scan>, r: nat, q: Request)
    requires Stored(claims, requests, rows) && r < |requests| && requests[r].phase == q.phase
    ensures Stored(claims, requests[r := q], rows)
  {
    assert Done(requests[r := q]) == Done(requests);
  }

  lemma SkippedClaimKeeps(s: Server, r: nat)
    requires Inv(s) && Running(s, r) && s.requests[r].pos < |s.requests[r].batch|
    requires Live(s.keys, CacheKey(s.requests[r].batch[s.requests[r].pos].clientEventId), s.now)
    ensures Inv(StepClaim(s, r))
  {
    var q := s.requests[r];
    var q' := q.(pos := q.pos + 1);
    LiveIsClaimed(s.keys, s.claims, q.batch[q.pos].clientEventId, s.now);
    RequestAt(s.claims, s.requests, r);
    hide Spaced, KeysClaimed, InRange, RequestsOk, RequestOk, Stored, UniqueKeys, Live, CacheKey, WasClaimed, Claimed;
    RequestSkips(s.claims, r, q);
    RequestUpdated(s.claims, s.requests, r, q');
    StoredStays(s.claims, s.requests, s.rows, r, q');
  }

  lemma ClaimKeeps(s: Server, r: nat)
    requires Inv(s)
    ensures Inv(StepClaim(s, r))
  {
    hide Inv;
    if Running(s, r) && s.requests[r].pos < |s.requests[r].batch| {
      var scan := s.requests[r].batch[s.requests[r].pos];
      if Live(s.keys, CacheKey(scan.clientEventId), s.now) {
        SkippedClaimKeeps(s, r);
      } else {
        WonClaimKeeps(s, r, Claim(scan, s.now, r));
      }
    }
  }

  lemma NewcomerKept(claims: seq<Claim>, requests: seq<Request>, batch: seq<Scan>)
    requires RequestsOk(claims, requests) && InRange(claims, |requests|)
    ensures var more := requests + [Request(batch, 0, [], Claiming)];
            RequestsOk(claims, more) && InRange(claims, |more|) && Done(more) == Done(requests)
  {
    var newcomer := Request(batch, 0, [], Claiming);
    NoClaimsYet(claims, |requests|);
    assert RequestOk(claims, |requests|, newcomer);
    assert Done(requests + [newcomer]) == Done(requests);
    hide RequestOk, Done;
  }

  lemma ReceiveKeeps(s: Server, batch: seq<Scan>)
    requires Inv(s)
    ensures Inv(Step(s, Receive(batch)))
  {
    hide Spaced, KeysClaimed, RequestsOk, InRange, Done, ClaimedIds, UniqueKeys;
    NewcomerKept(s.claims, s.requests, batch);
  }

  lemma CrashKeeps(s: Server, r: nat)
    requires Inv(s)
    ensures Inv(Step(s, Crash(r)))
  {
    if Running(s, r) {
      DoneCommit(s.requests, r, Failed);
      assert RequestOk(s.claims, r, s.requests[r].(phase := Failed));
      hide Spaced, KeysClaimed, RequestsOk, RequestOk, Done, ClaimedIds;
      RequestUpdated(s.claims, s.requests, r, s.requests[r].(phase := Failed));
    }
  }

  lemma StepKeeps(s: Server, e: Event)
    requires Inv(s)
    ensures Inv(Step(s, e))
  {
    hide RequestsOk, KeysClaimed, Stored;
    match e
    case Receive(batch) => ReceiveKeeps(s, batch);
    case ClaimNext(r) => ClaimKeeps(s, r);
    case Commit(r, dbOk) => CommitKeeps(s, r, dbOk);
    case Crash(r) => CrashKeeps(s, r);
    case Wait(_) =>
  }

  lemma {:induction false} NoClaimsYet(claims: seq<Claim>, r: nat)
    requires forall i | 0 <= i < |claims| :: claims[i].req < r
    ensures ClaimedBy(claims, {r}) == []
  {
    if claims != [] {
      NoClaimsYet(claims[..|claims| - 1], r);
    }
  }

  lemma {:induction false} RunKeeps(now: Time, events: seq<Event>)
    ensures Inv(Run(Initial(now), events))
  {
    if events == [] {
      assert Done([]) == {};
    } else {
      RunKeeps(now, events[..|events| - 1]);
      StepKeeps(Run(Initial(now), events[..|events| - 1]), events[|events| - 1]);
    }
  }

  // ---- The theorems ---------------------------------------------------------------------------

  /** Over all time, two successful claims of one id are at least a whole window apart. */
  lemma ClaimsAreAWindowApart(now: Time, events: seq<Event>, i: nat, j: nat)
    requires var claims := Run(Initial(now), events).claims;
             i < j < |claims| && claims[i].scan.clientEventId == claims[j].scan.clientEventId
    ensures var claims := Run(Initial(now), events).claims;
            claims[i].at + 86400 * 1000 <= claims[j].at
  {
    RunKeeps(now, events);
  }

  ghost predicate Finished(s: Server)
  {
    forall r | 0 <= r < |s.requests| :: s.requests[r].phase != Claiming
  }

  ghost predicate Received(s: Server, id: string)
  {
    exists r, i | 0 <= r < |s.requests| && 0 <= i < |s.requests[r].batch| :: s.requests[r].batch[i].clientEventId == id
  }

  /** How often an id is stored. */
  function TimesStored(s: Server, id: string): nat
  {
    multiset(Ids(s.rows))[id]
  }

  /** The successful claims of one id, oldest first. */
  function ClaimsOf(claims: seq<Claim>, id: string): seq<Claim>
  {
    if claims == [] then []
    else
      var last := claims[|claims| - 1];
      ClaimsOf(claims[..|claims| - 1], id) + (if last.scan.clientEventId == id then [last] else [])
  }

  /** How many claims belong to the given requests. */
  function Commits(own: seq<Claim>, done: set<nat>): nat
  {
    if own == [] then 0
    else Commits(own[..|own| - 1], done) + (if own[|own| - 1].req in done then 1 else 0)
  }

  lemma {:induction false} CommitsAppend(a: seq<Claim>, b: seq<Claim>, done: set<nat>)
    ensures Commits(a + b, done) == Commits(a, done) + Commits(b, done)
    decreases |b|
  {
    if b == [] {
      assert a + b == a;
    } else {
      assert (a + b)[..|a + b| - 1] == a + b[..|b| - 1];
      CommitsAppend(a, b[..|b| - 1], done);
    }
  }

  lemma {:induction false} CommitsSame(own: seq<Claim>, done: set<nat>, done': set<nat>)
    requires forall c | c in own :: c.req in done <==> c.req in done'
    ensures Commits(own, done) == Commits(own, done')
  {
    if own != [] {
      CommitsSame(own[..|own| - 1], done, done');
    }
  }

  lemma {:induction false} CommitsBounds(own: seq<Claim>, done: set<nat>)
    ensures Commits(own, done) <= |own|
    ensures (forall c | c in own :: c.req in done) ==> Commits(own, done) == |own|
    ensures (forall c | c in own :: c.req !in done) ==> Commits(own, done) == 0
  {
    if own != [] {
      CommitsBounds(own[..|own| - 1], done);
    }
  }

  lemma {:induction false} CountClaimed(claims: seq<Claim>, reqs: set<nat>, id: string)
    ensures multiset(ClaimedIds(claims, reqs))[id] == Commits(ClaimsOf(claims, id), reqs)
  {
    if claims != [] {
      var n := |claims| - 1;
      CountClaimed(claims[..n], reqs, id);
      CommitsAppend(ClaimsOf(claims[..n], id), [claims[n]], reqs);
      assert Commits([claims[n]], reqs) == if claims[n].req in reqs then 1 else 0;
      assert ClaimsOf(claims[..n], id) + [] == ClaimsOf(claims[..n], id);
    }
  }

  /** Over all time and any interleaving an id is stored as often as a request that claimed it committed. */
  lemma StoredAsOftenAsCommitted(now: Time, events: seq<Event>, id: string)
    ensures var s := Run(Initial(now), events);
            TimesStored(s, id) == Commits(ClaimsOf(s.claims, id), Done(s.requests))
  {
    RunKeeps(now, events);
    var s := Run(Initial(now), events);
    hide RequestsOk, Spaced, KeysClaimed, UniqueKeys;
    CountClaimed(s.claims, Done(s.requests), id);
  }

  /** The claims of one id are its claims, a whole window apart. */
  lemma {:induction false} OwnClaims(claims: seq<Claim>, id: string)
    requires forall i, j | 0 <= i < j < |claims| && claims[i].scan.clientEventId == claims[j].scan.clientEventId ::
               claims[i].at + TTL <= claims[j].at
    ensures forall c :: c in ClaimsOf(claims, id) <==> c in claims && c.scan.clientEventId == id
    ensures forall i, j | 0 <= i < j < |ClaimsOf(claims, id)| ::
              ClaimsOf(claims, id)[i].at + TTL <= ClaimsOf(claims, id)[j].at
  {
    if claims != [] {
      var n := |claims| - 1;
      OwnClaims(claims[..n], id);
      var own := ClaimsOf(claims[..n], id);
      assert claims == claims[..n] + [claims[n]];
      forall i | 0 <= i < |own| && claims[n].scan.clientEventId == id ensures own[i].at + TTL <= claims[n].at {
        assert own[i] in own;
        var k :| 0 <= k < n && claims[..n][k] == own[i];
        assert claims[k] == own[i];
      }
    }
  }

  lemma OwnClaimsOf(s: Server, id: string)
    requires Inv(s)
    ensures var own := ClaimsOf(s.claims, id);
            && (forall c :: c in own <==> c in s.claims && c.scan.clientEventId == id)
            && (forall i, j | 0 <= i < j < |own| :: own[i].at + TTL <= own[j].at)
            && (forall i | 0 <= i < |own| :: own[i].at <= s.now && own[i].req < |s.requests|)
  {
    hide RequestsOk, KeysClaimed, Stored, UniqueKeys;
    OwnClaims(s.claims, id);
    var own := ClaimsOf(s.claims, id);
    forall i | 0 <= i < |own| ensures own[i].at <= s.now && own[i].req < |s.requests| {
      assert own[i] in own;
      var k :| 0 <= k < |s.claims| && s.claims[k] == own[i];
    }
  }

  /** A claim that is not the last of its id is a window old. */
  lemma NotTheLast(s: Server, id: string, k: nat)
    requires Inv(s) && k < |ClaimsOf(s.claims, id)|
    ensures |ClaimsOf(s.claims, id)| > k + 1 ==> ClaimsOf(s.claims, id)[k].at + TTL <= s.now
  {
    OwnClaimsOf(s, id);
    var own := ClaimsOf(s.claims, id);
    hide Inv, ClaimsOf;
    if |own| > k + 1 {
      assert own[k].at + TTL <= own[k + 1].at;
    }
  }

  /** Time goes on, claims are never forgotten, new ones are made now, and closed requests stay closed. */
  ghost predicate Follows(s: Server, s': Server, id: string)
  {
    var own, own' := ClaimsOf(s.claims, id), ClaimsOf(s'.claims, id);
    && s.now <= s'.now && |s.requests| <= |s'.requests| && own <= own'
    && (forall i | |own| <= i < |own'| :: s.now <= own'[i].at)
    && (forall r | 0 <= r < |s.requests| && s.requests[r].phase != Claiming ::
           s'.requests[r].phase == s.requests[r].phase)
  }

  lemma ClaimsOfSnoc(claims: seq<Claim>, c: Claim, id: string)
    ensures ClaimsOf(claims + [c], id) == ClaimsOf(claims, id) + (if c.scan.clientEventId == id then [c] else [])
  {
    assert (claims + [c])[..|claims|] == claims;
  }

  lemma StepFollows(s: Server, e: Event, id: string)
    ensures Follows(s, Step(s, e), id)
  {
    hide Live, Claimed, CacheKey, Insertable, ClaimsOf;
    if e.ClaimNext? && Running(s, e.r) && s.requests[e.r].pos < |s.requests[e.r].batch| {
      ClaimsOfSnoc(s.claims, Claim(s.requests[e.r].batch[s.requests[e.r].pos], s.now, e.r), id);
    }
  }

  lemma {:induction false} RunFollows(s: Server, more: seq<Event>, id: string)
    ensures Follows(s, Run(s, more), id)
  {
    if more != [] {
      hide Step, ClaimsOf;
      var n := |more| - 1;
      RunFollows(s, more[..n], id);
      StepFollows(Run(s, more[..n]), more[n], id);
    }
  }

  /** No request that ever claimed the id is still under way. */
  ghost predicate Closed(s: Server, id: string)
  {
    forall c | c in ClaimsOf(s.claims, id) :: c.req < |s.requests| && s.requests[c.req].phase != Claiming
  }

  /** What later runs add is decided by the claims that they add. */
  lemma StoredByNewClaims(now: Time, events: seq<Event>, more: seq<Event>, id: string)
    requires Closed(Run(Initial(now), events), id)
    ensures var s0, s := Run(Initial(now), events), Run(Initial(now), events + more);
            var own0, own := ClaimsOf(s0.claims, id), ClaimsOf(s.claims, id);
            && Follows(s0, s, id)
            && TimesStored(s, id) == TimesStored(s0, id) + Commits(own[|own0|..], Done(s.requests))
  {
    RunAppend(Initial(now), events, more);
    var s0, s := Run(Initial(now), events), Run(Initial(now), events + more);
    var own0, own := ClaimsOf(s0.claims, id), ClaimsOf(s.claims, id);
    hide ClaimsOf, Commits, Run;
    RunFollows(s0, more, id);
    StoredAsOftenAsCommitted(now, events, id);
    StoredAsOftenAsCommitted(now, events + more, id);
    assert own == own0 + own[|own0|..];
    CommitsAppend(own0, own[|own0|..], Done(s.requests));
    CommitsSame(own0, Done(s.requests), Done(s0.requests));
  }

  /**
   In any window, wherever it starts, an id whose older claims are settled is stored at most once more,
   and exactly once precisely when a request wins its claim in the window and commits.
   */
  lemma StoredOnceIff(now: Time, events: seq<Event>, more: seq<Event>, id: string)
    requires Closed(Run(Initial(now), events), id)
    requires Run(Initial(now), events + more).now < Run(Initial(now), events).now + 86400000
    ensures var s0, s := Run(Initial(now), events), Run(Initial(now), events + more);
            var own0, own := ClaimsOf(s0.claims, id), ClaimsOf(s.claims, id);
            && own0 <= own && |own| <= |own0| + 1
            && TimesStored(s, id)
                 == TimesStored(s0, id) + (if own != own0 && own[|own0|].req in Done(s.requests) then 1 else 0)
  {
    hide Run, ClaimsOf, TimesStored, Done, Inv, Closed;
    StoredByNewClaims(now, events, more, id);
    RunKeeps(now, events + more);
    var s0, s := Run(Initial(now), events), Run(Initial(now), events + more);
    var own0, own := ClaimsOf(s0.claims, id), ClaimsOf(s.claims, id);
    var added := own[|own0|..];
    if own != own0 {
      NotTheLast(s, id, |own0|);
      assert added == [own[|own0|]] && added[..0] == [];
    }
  }

  /**
   A claim shuts its id out for a whole window, counted from the claim: if the requests that claimed it so
   far are closed, nothing that happens before the expiry stores it. So an id whose winner failed is lost
   until then, however often it is resubmitted.
   */
  lemma LostUntilExpiry(now: Time, events: seq<Event>, more: seq<Event>, c: Claim)
    requires c in Run(Initial(now), events).claims && Closed(Run(Initial(now), events), c.scan.clientEventId)
    requires Run(Initial(now), events + more).now < c.at + 86400000
    ensures var s0, s := Run(Initial(now), events), Run(Initial(now), events + more);
            var id := c.scan.clientEventId;
            && ClaimsOf(s.claims, id) == ClaimsOf(s0.claims, id)
            && TimesStored(s, id) == TimesStored(s0, id)
            && ((forall d | d in ClaimsOf(s0.claims, id) :: d.req !in Done(s0.requests)) ==> TimesStored(s, id) == 0)
  {
    hide Run, ClaimsOf, TimesStored, Done, Inv, Commits, Closed;
    var id := c.scan.clientEventId;
    StoredByNewClaims(now, events, more, id);
    StoredAsOftenAsCommitted(now, events, id);
    RunKeeps(now, events);
    RunKeeps(now, events + more);
    var s0, s := Run(Initial(now), events), Run(Initial(now), events + more);
    var own0, own := ClaimsOf(s0.claims, id), ClaimsOf(s.claims, id);
    OwnClaimsOf(s0, id);
    CommitsBounds(own0, Done(s0.requests));
    var k :| 0 <= k < |own0| && own0[k] == c;
    assert own[k] == c;
    NotTheLast(s, id, k);
    assert own[|own0|..] == [];
    CommitsBounds([], Done(s.requests));
  }

  lemma ReceivedIsClaimed(s: Server, id: string)
    requires Inv(s) && Finished(s) && Received(s, id)
    requires forall r | 0 <= r < |s.requests| :: s.requests[r].phase != Failed
    ensures WasClaimed(s.claims, id)
  {
    hide Spaced, KeysClaimed, Stored, UniqueKeys, ClaimedBy;
    var r, i :| 0 <= r < |s.requests| && 0 <= i < |s.requests[r].batch| && s.requests[r].batch[i].clientEventId == id;
    RequestAt(s.claims, s.requests, r);
  }

  lemma ReceivedIdOnce(s: Server, id: string)
    requires Inv(s) && Finished(s) && Received(s, id)
    requires forall r | 0 <= r < |s.requests| :: s.requests[r].phase != Failed
    ensures var own := ClaimsOf(s.claims, id);
            && own != [] && Commits(own, Done(s.requests)) == |own|
            && (s.now < own[0].at + TTL ==> |own| == 1)
  {
    hide Inv, Received, ClaimsOf, Commits;
    var own := ClaimsOf(s.claims, id);
    ReceivedIsClaimed(s, id);
    OwnClaimsOf(s, id);
    CommitsBounds(own, Done(s.requests));
    forall c | c in own ensures c.req in Done(s.requests) {
      var k :| 0 <= k < |own| && own[k] == c;
    }
    NotTheLast(s, id, 0);
  }

  /**
   When all requests are finished and none failed, every received id is stored once for each of its claims:
   at least once, and exactly once while the window of its first claim lasts.
   */
  lemma EveryReceivedIdOnce(now: Time, events: seq<Event>, id: string)
    requires Finished(Run(Initial(now), events)) && Received(Run(Initial(now), events), id)
    requires forall r | 0 <= r < |Run(Initial(now), events).requests| ::
             Run(Initial(now), events).requests[r].phase != Failed
    ensures var s := Run(Initial(now), events);
            var own := ClaimsOf(s.claims, id);
            && TimesStored(s, id) == |own| >= 1
            && (s.now < own[0].at + 86400000 ==> TimesStored(s, id) == 1)
  {
    RunKeeps(now, events);
    StoredAsOftenAsCommitted(now, events, id);
    ReceivedIdOnce(Run(Initial(now), events), id);
  }

  lemma {:induction false} RunAppend(s: Server, a: seq<Event>, b: seq<Event>)
    ensures Run(s, a + b) == Run(Run(s, a), b)
    decreases |b|
  {
    if b == [] {
      assert a + b == a;
    } else {
      assert (a + b)[..|a + b| - 1] == a + b[..|b| - 1];
      RunAppend(s, a, b[..|b| - 1]);
    }
  }

  // ---- One request on its own -----------------------------------------------------------------

  /** The steps of request `r` when nothing else runs: wait for the clock reading, then claim. */
  function LoopEvents(r: nat, clock: seq<Time>): seq<Event>
  {
    if clock == [] then [] else LoopEvents(r, clock[..|clock| - 1]) + [Wait(clock[|clock| - 1]), ClaimNext(r)]
  }

  lemma RunTwo(s: Server, a: Event, b: Event)
    ensures Run(s, [a, b]) == Step(Step(s, a), b)
  {
    hide Step;
    assert [a, b][..1] == [a] && [a][..0] == [];
    assert Run(s, [a]) == Step(Run(s, []), a);
  }

  /** Where the undisturbed request stands after the first `k` scans. */
  ghost predicate Stands(s0: Server, s: Server, r: nat, k: nat, split: Split, now: Time)
    requires r < |s0.requests|
  {
    && s.keys == split.keys && s.now == now && |s.requests| == |s0.requests|
    && s.requests[r] == s0.requests[r].(pos := k, processed := split.processed)
  }

  lemma OneMoreClaim(s0: Server, s: Server, r: nat, k: nat, split: Split, now: Time, at: Time)
    requires r < |s0.requests| && s0.requests[r].phase == Claiming && k < |s0.requests[r].batch|
    requires Stands(s0, s, r, k, split, now) && now <= at
    ensures var scan := s0.requests[r].batch[k];
            var live := Live(split.keys, CacheKey(scan.clientEventId), at);
            Stands(s0, Step(Step(s, Wait(at)), ClaimNext(r)), r, k + 1,
                   if live then split.(skipped := split.skipped + [scan.clientEventId])
                   else Split(Claimed(split.keys, scan.clientEventId, at), split.processed + [scan], split.skipped), at)
  {
    hide Live, Claimed, CacheKey;
  }

  lemma LoopSnoc(s: Server, r: nat, clock: seq<Time>, k: nat)
    requires k < |clock|
    ensures Run(s, LoopEvents(r, clock[..k + 1]))
            == Step(Step(Run(s, LoopEvents(r, clock[..k])), Wait(clock[k])), ClaimNext(r))
  {
    hide Step;
    assert clock[..k + 1][..k] == clock[..k];
    RunAppend(s, LoopEvents(r, clock[..k]), [Wait(clock[k]), ClaimNext(r)]);
    RunTwo(Run(s, LoopEvents(r, clock[..k])), Wait(clock[k]), ClaimNext(r));
  }

  lemma ClaimAllSnoc(keys: Keys, scans: seq<Scan>, clock: seq<Time>, k: nat)
    requires k < |clock| <= |scans|
    ensures var split := ClaimAll(keys, scans[..k], clock[..k]);
            ClaimAll(keys, scans[..k + 1], clock[..k + 1])
            == if Live(split.keys, CacheKey(scans[k].clientEventId), clock[k])
               then split.(skipped := split.skipped + [scans[k].clientEventId])
               else Split(Claimed(split.keys, scans[k].clientEventId, clock[k]), split.processed + [scans[k]],
                          split.skipped)
  {
    assert scans[..k + 1][..k] == scans[..k] && clock[..k + 1][..k] == clock[..k];
  }

  /** Undisturbed, the first `k` steps of a request do what the endpoint's loop does on the first `k` scans. */
  lemma {:induction false} AloneIsTheLoop(s: Server, r: nat, clock: seq<Time>, k: nat)
    requires Running(s, r) && s.requests[r].pos == 0 && s.requests[r].processed == []
    requires k <= |clock| <= |s.requests[r].batch|
    requires Advancing(clock) && (clock != [] ==> s.now <= clock[0])
    ensures Stands(s, Run(s, LoopEvents(r, clock[..k])), r, k, ClaimAll(s.keys, s.requests[r].batch[..k], clock[..k]),
                   if k == 0 then s.now else clock[k - 1])
  {
    if k > 0 {
      var n := k - 1;
      var batch, now := s.requests[r].batch, if n == 0 then s.now else clock[n - 1];
      AloneIsTheLoop(s, r, clock, n);
      assert now <= clock[n];
      hide Stands, Step, ClaimAll, Live, Claimed, CacheKey, LoopEvents, Run, Advancing;
      ClaimAllSnoc(s.keys, batch, clock, n);
      LoopSnoc(s, r, clock, n);
      OneMoreClaim(s, Run(s, LoopEvents(r, clock[..n])), r, n, ClaimAll(s.keys, batch[..n], clock[..n]), now, clock[n]);
    }
  }

  /** The commit of an undisturbed request ends as the endpoint's transaction does. */
  lemma AloneIsTheEndpoint(s: Server, r: nat, clock: seq<Time>, dbOk: bool)
    requires Running(s, r) && s.requests[r].pos == 0 && s.requests[r].processed == []
    requires |clock| == |s.requests[r].batch| && Advancing(clock) && (clock != [] ==> s.now <= clock[0])
    requires UniqueKeys(s.rows)
    ensures var split := ClaimAll(s.keys, s.requests[r].batch, clock);
            var s' := Run(s, LoopEvents(r, clock) + [Commit(r, dbOk)]);
            && s'.keys == split.keys && r < |s'.requests|
            && if split.processed == [] || (dbOk && UniqueKeys(s.rows + split.processed))
               then s'.rows == s.rows + split.processed && s'.requests[r].phase == Committed
               else s'.rows == s.rows && s'.requests[r].phase == Failed
  {
    var batch := s.requests[r].batch;
    var split := ClaimAll(s.keys, batch, clock);
    assert clock[..|clock|] == clock && batch[..|clock|] == batch;
    AloneIsTheLoop(s, r, clock, |clock|);
    LoopKeepsRows(s, r, clock);
    InsertableIff(s.rows, split.processed);
    var looped := Run(s, LoopEvents(r, clock));
    var all := LoopEvents(r, clock) + [Commit(r, dbOk)];
    assert all[..|all| - 1] == LoopEvents(r, clock);
    hide LoopEvents, ClaimAll, UniqueKeys, Insertable;
    assert Run(s, all) == Step(looped, Commit(r, dbOk));
  }

  lemma ClaimKeepsRows(s: Server, at: Time, r: nat)
    ensures Step(Step(s, Wait(at)), ClaimNext(r)).rows == s.rows
  {
    hide Live, Claimed, CacheKey;
  }

  lemma {:induction false} LoopKeepsRows(s: Server, r: nat, clock: seq<Time>)
    ensures Run(s, LoopEvents(r, clock)).rows == s.rows
  {
    if clock != [] {
      var n := |clock| - 1;
      LoopKeepsRows(s, r, clock[..n]);
      LoopSnoc(s, r, clock, n);
      assert clock[..n + 1] == clock;
      hide Step, LoopEvents, Run;
      ClaimKeepsRows(Run(s, LoopEvents(r, clock[..n])), clock[n], r);
    }
  }
}
