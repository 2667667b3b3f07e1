/**
 The offline outbox and its background replay as a state machine.

 One step is one uninterrupted piece of browser or server work, so that a run of steps is any
 interleaving of user actions, triggers, replies and server work that the event loop allows. The
 network and the storage are the environment: every event carries what they do. `Audit` only
 records what happened: no code of the application reads it, and only the environment looks up in it
 which request it delivers late.
 */
module Outbox {
  import opened Domain
  import opened TaskServer

  const MAX_ATTEMPTS: nat := 8

  /** What `queueRequest` hands to the store. An empty `qrCode` or `reason` stands for an absent one. */
  datatype Draft = Draft(
    clientEventId: string,
    taskId: string,
    action: Action,
    qrCode: string,
    reason: string,
    clientScannedAt: Time)

  /** A stored record; `id` comes from the store's key generator. */
  datatype PendingScan = PendingScan(id: nat, draft: Draft, attempts: nat)

  // ---- Environment ----------------------------------------------------------------------------

  /** Whether the request reaches its handler, and when. */
  datatype Reach = Undelivered | Delivered(at: Time, scanWriteFails: bool)

  /** Codes that proxies and guards answer themselves; only a handler answers 2xx. */
  type GatewayCode = c: nat | !(200 <= c < 300) witness 502

  datatype Answer = Lost | FromHandler | FromGateway(code: GatewayCode)

  /** `settled` marks an answer that the handler gave after checking the task for its owner. */
  datatype Reply = NetworkError | Response(status: nat, settled: bool)

  /** An online request of `apiRequest` that reached its handler although `fetch` was rejected. */
  datatype Attempt = Attempt(user: string, at: Time, scanWriteFails: bool)

  datatype Event =
    | Add(draft: Draft, attempt: Option<Attempt>, stored: bool)
    | Trigger(onLine: bool, token: Option<string>)
    | Load(k: nat, ok: bool)
    | Send(k: nat, reach: Reach, answer: Answer)
    | Settle(k: nat, ok: bool)
    | Late(i: nat, user: string, at: Time, scanWriteFails: bool)
    | Elsewhere(taskId: string, call: Call)

  // ---- State ----------------------------------------------------------------------------------

  /** One activation of `flushQueue` past its guards. */
  datatype Frame =
    | Loading(user: string)
    | Draining(user: string, snapshot: seq<PendingScan>, pos: nat, reply: Option<Reply>,
               drainedAny: bool, removals: nat)

  datatype Disposition = Accepted | Refused | Dropped | DeadLettered

  datatype Removal = Removal(id: nat, how: Disposition)

  /** The first run of a record's handler on behalf of the task's owner. */
  datatype Effect = Effect(id: nat, call: Call)

  datatype FlushReport = FlushReport(removals: nat, notified: bool)

  datatype Audit = Audit(
    task: string,
    origin: Option<Task>,
    enqueued: seq<PendingScan>,
    removed: seq<Removal>,
    effects: seq<Effect>,
    sent: set<nat>,
    errors: map<nat, nat>,
    missed: map<nat, nat>,
    flushes: seq<FlushReport>)

  datatype System = System(
    pending: seq<PendingScan>,
    nextKey: nat,
    isFlushing: bool,
    frames: seq<Frame>,
    db: Database,
    audit: Audit)

  function Initial(task: string, db: Database): System
  {
    System([], 1, false, [], db,
           Audit(task, if task in db then Some(db[task]) else None, [], [], [], {}, map[], map[], []))
  }

  // ---- Store ----------------------------------------------------------------------------------

  function Without(q: seq<PendingScan>, id: nat): seq<PendingScan>
  {
    if q == [] then []
    else if q[0].id == id then Without(q[1..], id)
    else [q[0]] + Without(q[1..], id)
  }

  /** Exactly the records with the id are taken out. */
  lemma {:induction false} WithoutIff(q: seq<PendingScan>, id: nat)
    ensures forall x :: x in Without(q, id) <==> x in q && x.id != id
  {
    if q != [] {
      WithoutIff(q[1..], id);
      assert q == [q[0]] + q[1..];
    }
  }

  function Patched(q: seq<PendingScan>, id: nat, attempts: nat): (r: seq<PendingScan>)
    ensures |r| == |q|
    ensures forall i | 0 <= i < |q| :: r[i] == if q[i].id == id then q[i].(attempts := attempts) else q[i]
  {
    if q == [] then []
    else [if q[0].id == id then q[0].(attempts := attempts) else q[0]] + Patched(q[1..], id, attempts)
  }

  /** The unique index on `clientEventId` rejects a record whose id is already stored. */
  predicate Stores(q: seq<PendingScan>, draft: Draft, stored: bool)
  {
    stored && forall r | r in q :: r.draft.clientEventId != draft.clientEventId
  }

  // ---- Server ---------------------------------------------------------------------------------

  function CallOf(draft: Draft, user: string, at: Time, scanWriteFails: bool): Call
  {
    var op := match draft.action
      case Start => StartTask(user, draft.qrCode)
      case Complete => CompleteTask(user, draft.qrCode)
      case Flag => FlagTask(user, draft.reason);
    Call(op, at, scanWriteFails)
  }

  /** The request of a record, action by action. */
  lemma CallOfFields(draft: Draft, user: string, at: Time, scanWriteFails: bool)
    ensures var call := CallOf(draft, user, at, scanWriteFails);
            && call.at == at && call.scanWriteFails == scanWriteFails
            && (draft.action == Start <==> call.op.StartTask?)
            && (draft.action == Complete <==> call.op.CompleteTask?)
            && (draft.action == Flag <==> call.op.FlagTask?)
            && (call.op.StartTask? || call.op.CompleteTask? ==>
                  call.op.userId == user && call.op.qrCode == draft.qrCode)
            && (call.op.FlagTask? ==> call.op.userId == user && call.op.reason == draft.reason)
  {
  }

  predicate Authorised(db: Database, draft: Draft, user: string)
  {
    draft.taskId in db && db[draft.taskId].owner == Some(user)
  }

  predicate Counted(effects: seq<Effect>, id: nat)
  {
    exists e | e in effects :: e.id == id
  }

  /** Runs the handler of a record; the first authorised run for the observed task is noted. */
  function RunHandler(s: System, r: PendingScan, user: string, at: Time, scanWriteFails: bool): System
  {
    var call := CallOf(r.draft, user, at, scanWriteFails);
    var noted := r.draft.taskId == s.audit.task && Authorised(s.db, r.draft, user) && !Counted(s.audit.effects, r.id);
    s.(db := Serve(s.db, r.draft.taskId, call).0,
       audit := if noted then s.audit.(effects := s.audit.effects + [Effect(r.id, call)]) else s.audit)
  }

  /** A handler run touches the server and the noted effects only. */
  lemma OnlyServes(s: System, r: PendingScan, user: string, at: Time, scanWriteFails: bool)
    ensures var s' := RunHandler(s, r, user, at, scanWriteFails);
            s' == s.(db := s'.db, audit := s.audit.(effects := s'.audit.effects))
  {
    hide Serve, CallOf, Authorised, Counted;
  }

  // ---- Steps ----------------------------------------------------------------------------------

  function StepAdd(s: System, draft: Draft, attempt: Option<Attempt>, stored: bool): System
  {
    var r := PendingScan(s.nextKey, draft, 0);
    var s1 := if attempt.None? then s
              else RunHandler(s, r, attempt.value.user, attempt.value.at, attempt.value.scanWriteFails);
    if !Stores(s.pending, draft, stored) then s1
    else s1.(pending := s.pending + [r], nextKey := s.nextKey + 1,
             audit := s1.audit.(enqueued := s.audit.enqueued + [r]))
  }

  function StepTrigger(s: System, onLine: bool, token: Option<string>): System
  {
    if s.isFlushing || !onLine || token.None? then s
    else s.(isFlushing := true, frames := s.frames + [Loading(token.value)])
  }

  /** The `finally` block: release the flag, announce the flush when something was drained. */
  function Finish(s: System, k: nat): System
    requires k < |s.frames|
  {
    var f := s.frames[k];
    var report := if f.Loading? then FlushReport(0, false) else FlushReport(f.removals, f.drainedAny);
    s.(isFlushing := false, frames := s.frames[..k] + s.frames[k + 1..],
       audit := s.audit.(flushes := s.audit.flushes + [report]))
  }

  function StepLoad(s: System, k: nat, ok: bool): System
  {
    if k >= |s.frames| || !s.frames[k].Loading? then s
    else if !ok || s.pending == [] then Finish(s, k)
    else s.(frames := s.frames[k := Draining(s.frames[k].user, s.pending, 0, None, false, 0)])
  }

  predicate Busy(s: System, k: nat)
  {
    k < |s.frames| && s.frames[k].Draining? && s.frames[k].pos < |s.frames[k].snapshot|
  }

  /** `fetch`: the handler may or may not run, and its answer may or may not come back. */
  function StepSend(s: System, k: nat, reach: Reach, answer: Answer): System
  {
    if !Busy(s, k) || s.frames[k].reply.Some? then s
    else
      var f := s.frames[k];
      var item := f.snapshot[f.pos];
      var ran := if reach.Undelivered? then s else RunHandler(s, item, f.user, reach.at, reach.scanWriteFails);
      var reply := match answer
        case Lost => NetworkError
        case FromHandler =>
          if reach.Undelivered? then NetworkError
          else Response(Serve(s.db, item.draft.taskId, CallOf(item.draft, f.user, reach.at, reach.scanWriteFails)).1,
                        Authorised(s.db, item.draft, f.user))
        case FromGateway(code) => Response(code, false);
      ran.(frames := s.frames[k := f.(reply := Some(reply))],
           audit := ran.audit.(sent := s.audit.sent + {item.id}))
  }

  function At(m: map<nat, nat>, id: nat): nat
  {
    if id in m then m[id] else 0
  }

  /** A removal; on success the loop goes on to the next record of the snapshot, or ends. */
  function Removed(s: System, k: nat, ok: bool, how: Disposition): System
    requires Busy(s, k)
  {
    var f := s.frames[k];
    var id := f.snapshot[f.pos].id;
    if !ok then Finish(s, k)
    else
      var next := f.(pos := f.pos + 1, reply := None, drainedAny := true, removals := f.removals + 1);
      var s1 := s.(pending := Without(s.pending, id), frames := s.frames[k := next],
                   audit := s.audit.(removed := s.audit.removed + [Removal(id, how)]));
      if next.pos == |next.snapshot| || how == DeadLettered then Finish(s1, k) else s1
  }

  /** Notes a 5xx answer, and whether its bookkeeping write got lost. */
  function Tallied(s: System, id: nat, ok: bool): System
  {
    var a := s.audit.(errors := s.audit.errors[id := At(s.audit.errors, id) + 1]);
    s.(audit := if ok then a else a.(missed := a.missed[id := At(a.missed, id) + 1]))
  }

  /** A 5xx answer: count the attempt or dead-letter the record at the limit, then end the cycle. */
  function Failed(s: System, k: nat, ok: bool): System
    requires Busy(s, k)
  {
    var item := s.frames[k].snapshot[s.frames[k].pos];
    var attempts := item.attempts + 1;
    if attempts >= MAX_ATTEMPTS then Removed(s, k, ok, DeadLettered)
    else if !ok then Finish(s, k)
    else Finish(s.(pending := Patched(s.pending, item.id, attempts)), k)
  }

  /** What `flushQueue` does with a reply; `ok` says whether its storage write succeeds. */
  function StepSettle(s: System, k: nat, ok: bool): System
  {
    if !Busy(s, k) || s.frames[k].reply.None? then s
    else match s.frames[k].reply.value
      case NetworkError => Finish(s, k)
      case Response(status, settled) =>
        if 200 <= status < 300 then Removed(s, k, ok, Accepted)
        else if status == 401 then Finish(s, k)
        else if 400 <= status < 500 then Removed(s, k, ok, if settled then Refused else Dropped)
        else if status >= 500 then Failed(Tallied(s, s.frames[k].snapshot[s.frames[k].pos].id, ok), k, ok)
        else Finish(s, k)
  }

  /** A request that the browser gave up on reaches the server after all. */
  function StepLate(s: System, i: nat, user: string, at: Time, scanWriteFails: bool): System
  {
    if i >= |s.audit.enqueued| || s.audit.enqueued[i].id !in s.audit.sent then s
    else RunHandler(s, s.audit.enqueued[i], user, at, scanWriteFails)
  }

  function Step(s: System, e: Event): System
  {
    match e
    case Add(draft, attempt, stored) => StepAdd(s, draft, attempt, stored)
    case Trigger(onLine, token) => StepTrigger(s, onLine, token)
    case Load(k, ok) => StepLoad(s, k, ok)
    case Send(k, reach, answer) => StepSend(s, k, reach, answer)
    case Settle(k, ok) => StepSettle(s, k, ok)
    case Late(i, user, at, scanWriteFails) => StepLate(s, i, user, at, scanWriteFails)
    case Elsewhere(id, call) => s.(db := Serve(s.db, id, call).0)
  }

  function Run(s: System, events: seq<Event>): System
  {
    if events == [] then s
    else Step(Run(s, events[..|events| - 1]), events[|events| - 1])
  }

  lemma RunLast(s: System, events: seq<Event>)
    requires events != []
    ensures Run(s, events) == Step(Run(s, events[..|events| - 1]), events[|events| - 1])
  {
    hide Step;
  }

  lemma AddGrows(s: System, draft: Draft, attempt: Option<Attempt>, stored: bool)
    ensures var s' := StepAdd(s, draft, attempt, stored);
            var r := PendingScan(s.nextKey, draft, 0);
            if Stores(s.pending, draft, stored)
            then s'.pending == s.pending + [r] && s'.nextKey == s.nextKey + 1
                 && s'.audit == s.audit.(enqueued := s.audit.enqueued + [r], effects := s'.audit.effects)
            else s'.pending == s.pending && s'.nextKey == s.nextKey
                 && s'.audit == s.audit.(effects := s'.audit.effects)
  {
    hide RunHandler, Stores;
    if attempt.Some? {
      var a := attempt.value;
      OnlyServes(s, PendingScan(s.nextKey, draft, 0), a.user, a.at, a.scanWriteFails);
    }
  }

  lemma SendLeavesQueue(s: System, k: nat, reach: Reach, answer: Answer)
    ensures var s' := StepSend(s, k, reach, answer);
            && s'.pending == s.pending && s'.nextKey == s.nextKey
            && s'.audit == s.audit.(effects := s'.audit.effects, sent := s'.audit.sent)
  {
    hide RunHandler, Serve, CallOf, Authorised;
    if Busy(s, k) && reach.Delivered? {
      OnlyServes(s, s.frames[k].snapshot[s.frames[k].pos], s.frames[k].user, reach.at, reach.scanWriteFails);
    }
  }

  /** One request: what reaches the server is the record's call in the activation's session, and what comes back. */
  lemma SendOutcome(s: System, k: nat, reach: Reach, answer: Answer)
    requires Busy(s, k) && s.frames[k].reply.None?
    ensures var f, s' := s.frames[k], StepSend(s, k, reach, answer);
            var item := f.snapshot[f.pos];
            && s'.frames == s.frames[k := f.(reply := s'.frames[k].reply)]
            && s'.audit.sent == s.audit.sent + {item.id}
            && (reach.Undelivered? ==> s'.db == s.db)
            && (reach.Delivered? ==>
                  s'.db == Serve(s.db, item.draft.taskId, CallOf(item.draft, f.user, reach.at, reach.scanWriteFails)).0)
            && (answer.Lost? || (answer.FromHandler? && reach.Undelivered?) ==>
                  s'.frames[k].reply == Some(NetworkError))
            && (answer.FromGateway? ==> s'.frames[k].reply == Some(Response(answer.code, false)))
            && (answer.FromHandler? && reach.Delivered? ==>
                  && s'.frames[k].reply.Some? && s'.frames[k].reply.value.Response?
                  && s'.frames[k].reply.value.status
                     == Serve(s.db, item.draft.taskId, CallOf(item.draft, f.user, reach.at, reach.scanWriteFails)).1)
  {
    hide Serve, CallOf, Authorised, Counted;
  }

  lemma LateLeavesQueue(s: System, i: nat, user: string, at: Time, scanWriteFails: bool)
    ensures var s' := StepLate(s, i, user, at, scanWriteFails);
            && s'.pending == s.pending && s'.nextKey == s.nextKey
            && s'.audit == s.audit.(effects := s'.audit.effects)
  {
    hide RunHandler;
    if i < |s.audit.enqueued| {
      OnlyServes(s, s.audit.enqueued[i], user, at, scanWriteFails);
    }
  }

  /** What a step other than settling can touch of the queue and its history. */
  lemma QueueOnlyGrows(s: System, e: Event)
    requires !e.Settle?
    ensures var s' := Step(s, e);
            && s'.audit.removed == s.audit.removed && s'.audit.errors == s.audit.errors
            && s'.audit.missed == s.audit.missed
            && s'.audit.task == s.audit.task && s'.audit.origin == s.audit.origin
    ensures var s' := Step(s, e);
            || (s'.pending == s.pending && s'.nextKey == s.nextKey && s'.audit.enqueued == s.audit.enqueued)
            || (e.Add? && var r := PendingScan(s.nextKey, e.draft, 0);
                          && s'.pending == s.pending + [r] && s'.nextKey == s.nextKey + 1
                          && s'.audit.enqueued == s.audit.enqueued + [r])
  {
    hide StepAdd, StepSend, StepLate, Serve, Stores;
    match e
    case Add(draft, attempt, stored) => AddGrows(s, draft, attempt, stored);
    case Send(k, reach, answer) => SendLeavesQueue(s, k, reach, answer);
    case Late(i, user, at, scanWriteFails) => LateLeavesQueue(s, i, user, at, scanWriteFails);
    case _ =>
  }

  lemma {:induction false} RunAppend(s: System, a: seq<Event>, b: seq<Event>)
    ensures Run(s, a + b) == Run(Run(s, a), b)
    decreases |b|
  {
    if b == [] {
      assert a + b == a;
    } else {
      var n := |b| - 1;
      assert (a + b)[..|a + b| - 1] == a + b[..n];
      RunAppend(s, a, b[..n]);
    }
  }
}
