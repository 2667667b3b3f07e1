/**
 Replaying the outbox at least once has the effect of running each record once.

 The observed task (`audit.task`) is written by the queue only; everything else about the run is
 free: lost answers, answers of gateways, 5xx after the handler ran, failed storage writes, repeated
 flushes, other users' sessions, online attempts that fall back to the queue, and late duplicates.
 */
module ExactlyOnce {
  import opened Domain
  import opened TaskServer
  import opened Outbox
  import opened OutboxInvariants
  import opened Overlay

  function Calls(effects: seq<Effect>): (r: seq<Call>)
    ensures |r| == |effects| && forall i | 0 <= i < |r| :: r[i] == effects[i].call
  {
    if effects == [] then [] else Calls(effects[..|effects| - 1]) + [effects[|effects| - 1].call]
  }

  /** The row of the observed task is the fold of the noted effects, which are in enqueue order. */
  ghost predicate Ledger(task: string, origin: Option<Task>, effects: seq<Effect>, db: Database)
  {
    && (origin.Some? <==> task in db)
    && (origin.None? ==> effects == [])
    && (origin.Some? ==> db[task] == Replay(origin.value, Calls(effects)) && db[task].owner == origin.value.owner)
    && (forall i, j | 0 <= i < j < |effects| :: effects[i].id < effects[j].id)
  }

  /** An effect is the run, for the task's owner, of some record of the history. */
  ghost predicate RunOf(e: Effect, r: PendingScan, task: string, owner: Option<string>)
  {
    && r.id == e.id && r.draft.taskId == task
    && owner.Some? && e.call == CallOf(r.draft, owner.value, e.call.at, e.call.scanWriteFails)
  }

  ghost predicate Recorded(e: Effect, enqueued: seq<PendingScan>, task: string, owner: Option<string>)
  {
    exists i | 0 <= i < |enqueued| :: RunOf(e, enqueued[i], task, owner)
  }

  ghost predicate AllRecorded(effects: seq<Effect>, enqueued: seq<PendingScan>, task: string, origin: Option<Task>)
  {
    origin.Some? ==> forall i | 0 <= i < |effects| :: Recorded(effects[i], enqueued, task, origin.value.owner)
  }

  ghost predicate NotBefore(effects: seq<Effect>, pending: seq<PendingScan>, task: string)
  {
    forall i, j | 0 <= i < |effects| && 0 <= j < |pending| && pending[j].draft.taskId == task ::
      effects[i].id <= pending[j].id
  }

  predicate Final(how: Disposition)
  {
    how.Accepted? || how.Refused?
  }

  ghost predicate Covered(enqueued: seq<PendingScan>, removed: seq<Removal>, task: string, effects: seq<Effect>)
  {
    forall i | 0 <= i < |removed| && i < |enqueued| && enqueued[i].draft.taskId == task && Final(removed[i].how) ::
      Counted(effects, removed[i].id)
  }

  predicate Promises(reply: Reply)
  {
    reply.Response? && (reply.settled || 200 <= reply.status < 300)
  }

  ghost predicate AnswerHonest(frames: seq<Frame>, task: string, effects: seq<Effect>)
  {
    |frames| == 1 && frames[0].Draining? && frames[0].reply.Some? && Promises(frames[0].reply.value)
    && frames[0].pos < |frames[0].snapshot| && frames[0].snapshot[frames[0].pos].draft.taskId == task
    ==> Counted(effects, frames[0].snapshot[frames[0].pos].id)
  }

  ghost predicate Once(s: System)
  {
    var a := s.audit;
    && Inv(s)
    && Ledger(a.task, a.origin, a.effects, s.db)
    && AllRecorded(a.effects, a.enqueued, a.task, a.origin)
    && NotBefore(a.effects, s.pending, a.task)
    && Covered(a.enqueued, a.removed, a.task, a.effects)
    && AnswerHonest(s.frames, a.task, a.effects)
  }

  // ---- Repeating a handler --------------------------------------------------------------------

  /** A second run of the same record is quiet, whoever's session it uses and whenever it happens. */
  lemma RepeatIsQuiet(task: Task, draft: Draft, owner: string, at: Time, fails: bool, user: string, at': Time,
                      fails': bool)
    requires task.owner == Some(owner)
    ensures var once := Handle(task, CallOf(draft, owner, at, fails)).task;
            Handle(once, CallOf(draft, user, at', fails')).task == once
  {
  }

  lemma StrangersAreQuiet(db: Database, draft: Draft, user: string, at: Time, fails: bool)
    requires !Authorised(db, draft, user)
    ensures Serve(db, draft.taskId, CallOf(draft, user, at, fails)).0 == db
    ensures Serve(db, draft.taskId, CallOf(draft, user, at, fails)).1 >= 400
  {
    if draft.taskId in db {
      assert db[draft.taskId := db[draft.taskId]] == db;
    }
  }

  lemma OthersUntouched(db: Database, id: string, call: Call, task: string)
    requires id != task
    ensures var db' := Serve(db, id, call).0; (task in db' <==> task in db) && (task in db ==> db'[task] == db[task])
  {
  }

  lemma OwnerKept(task: Task, call: Call)
    ensures Handle(task, call).task.owner == task.owner
  {
  }

  lemma CallsAppend(effects: seq<Effect>, e: Effect)
    ensures Calls(effects + [e]) == Calls(effects) + [e.call]
  {
    assert (effects + [e])[..|effects|] == effects;
  }

  lemma LedgerAppend(task: string, origin: Option<Task>, effects: seq<Effect>, db: Database, e: Effect)
    requires Ledger(task, origin, effects, db) && task in db
    requires forall x | x in effects :: x.id < e.id
    ensures Ledger(task, origin, effects + [e], db[task := Handle(db[task], e.call).task])
  {
    OwnerKept(db[task], e.call);
    hide Handle;
    CallsAppend(effects, e);
    var calls := Calls(effects);
    assert (calls + [e.call])[..|calls|] == calls;
  }

  /** Running a record keeps the ledger if it is new and later than all effects, or quiet. */
  lemma RunKeepsLedger(s: System, r: PendingScan, user: string, at: Time, fails: bool)
    requires Ledger(s.audit.task, s.audit.origin, s.audit.effects, s.db)
    requires r.draft.taskId == s.audit.task && Authorised(s.db, r.draft, user) ==>
               if Counted(s.audit.effects, r.id)
               then Handle(s.db[s.audit.task], CallOf(r.draft, user, at, fails)).task == s.db[s.audit.task]
               else forall e | e in s.audit.effects :: e.id < r.id
    ensures var s' := RunHandler(s, r, user, at, fails);
            Ledger(s'.audit.task, s'.audit.origin, s'.audit.effects, s'.db)
  {
    var t := s.audit.task;
    var call := CallOf(r.draft, user, at, fails);
    if r.draft.taskId != t {
      OthersUntouched(s.db, r.draft.taskId, call, t);
    } else if !Authorised(s.db, r.draft, user) {
      StrangersAreQuiet(s.db, r.draft, user, at, fails);
    } else {
      ServeIsHandle(s.db, t, call);
      if !Counted(s.audit.effects, r.id) {
        hide Ledger, Handle, Serve;
        LedgerAppend(t, s.audit.origin, s.audit.effects, s.db, Effect(r.id, call));
      } else {
        assert s.db[t := s.db[t]] == s.db;
      }
    }
  }

  /** The controller's early answer to a flag without a reason leaves the row as the handler would. */
  lemma ServeIsHandle(db: Database, id: string, call: Call)
    requires id in db
    ensures Serve(db, id, call).0 == db[id := Handle(db[id], call).task]
  {
    assert db[id := db[id]] == db;
  }

  /** The oldest pending record of the task is either not yet counted, or it is the last effect. */
  lemma HeadIsNextOrLast(s: System, r: PendingScan, user: string, at: Time, fails: bool)
    requires Once(s) && s.pending != [] && s.pending[0] == r
    requires r.draft.taskId == s.audit.task && Authorised(s.db, r.draft, user)
    ensures if Counted(s.audit.effects, r.id)
            then Handle(s.db[s.audit.task], CallOf(r.draft, user, at, fails)).task == s.db[s.audit.task]
            else forall e | e in s.audit.effects :: e.id < r.id
  {
    var a := s.audit;
    if Counted(a.effects, r.id) {
      var k :| 0 <= k < |a.effects| && a.effects[k].id == r.id;
      var n := |a.effects| - 1;
      assert a.effects[n].id <= r.id;
      assert k == n;
      assert r.(attempts := 0) == a.enqueued[|a.removed|];
      CountedIsRunOf(s, n, r);
      var calls := Calls(a.effects);
      var before := Replay(a.origin.value, calls[..n]);
      OwnerKept(before, calls[n]);
      RepeatIsQuiet(before, r.draft, a.origin.value.owner.value, calls[n].at, calls[n].scanWriteFails, user, at, fails);
    }
  }

  lemma FreshAttempts(s: System)
    requires Inv(s)
    ensures forall x | x in s.audit.enqueued :: x.(attempts := 0) == x
  {
  }

  lemma IdsDetermine(enqueued: seq<PendingScan>, e: Effect, task: string, owner: Option<string>, r: PendingScan)
    requires Increasing(enqueued) && Recorded(e, enqueued, task, owner) && r.(attempts := 0) in enqueued && r.id == e.id
    requires forall x | x in enqueued :: x.attempts == 0
    ensures RunOf(e, r, task, owner)
  {
    var i :| 0 <= i < |enqueued| && RunOf(e, enqueued[i], task, owner);
    var j :| 0 <= j < |enqueued| && enqueued[j] == r.(attempts := 0);
    assert enqueued[i].id == enqueued[j].id;
    assert i == j;
  }

  /** Ids determine records, so an effect with a pending record's id is a run of that record. */
  lemma CountedIsRunOf(s: System, k: nat, r: PendingScan)
    requires Once(s) && k < |s.audit.effects| && s.audit.effects[k].id == r.id
    requires r.(attempts := 0) in s.audit.enqueued
    ensures s.audit.origin.Some? && RunOf(s.audit.effects[k], r, s.audit.task, s.audit.origin.value.owner)
  {
    var a := s.audit;
    hide Covered, NotBefore, AnswerHonest, Increasing, RunOf, Recorded;
    IdsDetermine(a.enqueued, a.effects[k], a.task, a.origin.value.owner, r);
  }

  // ---- Late duplicates ------------------------------------------------------------------------

  ghost predicate StaffCalls(calls: seq<Call>)
  {
    forall i | 0 <= i < |calls| :: !calls[i].op.UpdateTaskStatus?
  }

  /** Once the owner's start has run, the task never returns to a startable status; a flag is final. */
  lemma {:induction false} ProgressIsFinal(task: Task, calls: seq<Call>, k: nat)
    requires StaffCalls(calls) && k < |calls| && Owns(calls[k].op, task)
    ensures var status := Replay(task, calls).status;
            && (calls[k].op.StartTask? ==> status != SCHEDULED && status != PENDING)
            && (calls[k].op.FlagTask? && calls[k].op.reason != "" ==> status == FLAGGED)
    decreases |calls|
  {
    var n := |calls| - 1;
    OwnersKept(task, calls[..n]);
    if k < n {
      ProgressIsFinal(task, calls[..n], k);
    }
  }

  lemma {:induction false} OwnersKept(task: Task, calls: seq<Call>)
    ensures Replay(task, calls).owner == task.owner
  {
    if calls != [] {
      OwnersKept(task, calls[..|calls| - 1]);
    }
  }

  lemma RecordedIsStaffCall(e: Effect, enqueued: seq<PendingScan>, task: string, owner: Option<string>)
    requires Recorded(e, enqueued, task, owner)
    ensures !e.call.op.UpdateTaskStatus?
  {
    var i :| 0 <= i < |enqueued| && RunOf(e, enqueued[i], task, owner);
  }

  lemma EffectsAreStaffCalls(s: System)
    requires Once(s) && s.audit.origin.Some?
    ensures StaffCalls(Calls(s.audit.effects))
  {
    var a := s.audit;
    hide Inv, Ledger, NotBefore, Covered, AnswerHonest, Recorded;
    forall i | 0 <= i < |a.effects| ensures !Calls(a.effects)[i].op.UpdateTaskStatus? {
      RecordedIsStaffCall(a.effects[i], a.enqueued, a.task, a.origin.value.owner);
    }
  }

  /** What a counted record has left behind: a start or flag has had its effect for good. */
  lemma CountedHasRun(s: System, r: PendingScan)
    requires Once(s) && r in s.audit.enqueued && r.draft.taskId == s.audit.task && Counted(s.audit.effects, r.id)
    requires s.audit.task in s.db
    ensures var status := s.db[s.audit.task].status;
            && (r.draft.action.Start? ==> status != SCHEDULED && status != PENDING)
            && (r.draft.action.Flag? && r.draft.reason != "" ==> status == FLAGGED)
  {
    var a := s.audit;
    var k :| 0 <= k < |a.effects| && a.effects[k].id == r.id;
    FreshAttempts(s);
    CountedIsRunOf(s, k, r);
    hide Inv, AllRecorded, NotBefore, Covered, AnswerHonest, Replay;
    EffectsAreStaffCalls(s);
    ProgressIsFinal(a.origin.value, Calls(a.effects), k);
  }

  /** A late duplicate of a counted record changes the task exactly when it completes a running one. */
  lemma LateChangesIff(s: System, r: PendingScan, user: string, at: Time, fails: bool)
    requires Once(s) && r in s.audit.enqueued && r.draft.taskId == s.audit.task
    requires Authorised(s.db, r.draft, user) && Counted(s.audit.effects, r.id)
    ensures var task := s.db[s.audit.task];
            Handle(task, CallOf(r.draft, user, at, fails)).task != task
            <==> r.draft.action.Complete? && task.status == IN_PROGRESS
  {
    CountedHasRun(s, r);
    assert s.db[s.audit.task].owner == Some(user);
    hide *;
    QuietUnlessRunning(s.db[s.audit.task], r.draft, user, at, fails);
  }

  lemma QuietUnlessRunning(task: Task, draft: Draft, user: string, at: Time, fails: bool)
    requires task.owner == Some(user)
    requires draft.action.Start? ==> task.status != SCHEDULED && task.status != PENDING
    requires draft.action.Flag? && draft.reason != "" ==> task.status == FLAGGED
    ensures Handle(task, CallOf(draft, user, at, fails)).task != task
            <==> draft.action.Complete? && task.status == IN_PROGRESS
  {
    if draft.action.Complete? && task.status == IN_PROGRESS {
      assert Handle(task, CallOf(draft, user, at, fails)).task.status == DONE;
    }
  }

  // ---- Runs -----------------------------------------------------------------------------------

  /** A late request is in order: a quiet duplicate, or a first run that overtakes nothing. */
  ghost predicate LateInOrder(s: System, r: PendingScan)
  {
    if Counted(s.audit.effects, r.id)
    then s.audit.task in s.db ==> !(r.draft.action.Complete? && s.db[s.audit.task].status == IN_PROGRESS)
    else (forall e | e in s.audit.effects :: e.id < r.id)
         && (forall p | p in s.pending && p.draft.taskId == s.audit.task :: r.id <= p.id)
  }

  /** The queue is the observed task's only writer, and first runs do not overtake queued records. */
  ghost predicate Admissible(s: System, e: Event)
  {
    var task := s.audit.task;
    match e
    case Add(draft, attempt, stored) =>
      attempt.Some? && draft.taskId == task && Authorised(s.db, draft, attempt.value.user) ==>
        Stores(s.pending, draft, stored) && forall p | p in s.pending :: p.draft.taskId != task
    case Late(i, user, _, _) =>
      (i < |s.audit.enqueued| && s.audit.enqueued[i].draft.taskId == task
       && Authorised(s.db, s.audit.enqueued[i].draft, user)) ==> LateInOrder(s, s.audit.enqueued[i])
    case Elsewhere(id, _) => id != task
    case _ => true
  }

  ghost predicate AdmissibleRun(s: System, events: seq<Event>)
  {
    forall i | 0 <= i < |events| :: Admissible(Run(s, events[..i]), events[i])
  }

  lemma EffectsBelowNextKey(s: System)
    requires Once(s)
    ensures forall e | e in s.audit.effects :: e.id < s.nextKey
  {
    var a := s.audit;
    forall i | 0 <= i < |a.effects| ensures a.effects[i].id < s.nextKey {
      assert Recorded(a.effects[i], a.enqueued, a.task, a.origin.value.owner);
    }
  }

  lemma RecordedMono(effects: seq<Effect>, enqueued: seq<PendingScan>, r: PendingScan, task: string,
                     origin: Option<Task>)
    requires AllRecorded(effects, enqueued, task, origin)
    ensures AllRecorded(effects, enqueued + [r], task, origin)
  {
    if origin.Some? {
      forall i | 0 <= i < |effects| ensures Recorded(effects[i], enqueued + [r], task, origin.value.owner) {
        var j :| 0 <= j < |enqueued| && RunOf(effects[i], enqueued[j], task, origin.value.owner);
        assert (enqueued + [r])[j] == enqueued[j];
      }
    }
  }

  lemma CountedMono(effects: seq<Effect>, e: Effect)
    ensures forall id | Counted(effects, id) :: Counted(effects + [e], id)
    ensures Counted(effects + [e], e.id)
  {
    assert e in effects + [e];
    forall id | Counted(effects, id) ensures Counted(effects + [e], id) {
      var x :| x in effects && x.id == id;
      assert x in effects + [e];
    }
  }

  /** The order a first run must respect. */
  ghost predicate InTurn(s: System, r: PendingScan, user: string, at: Time, fails: bool)
  {
    r.draft.taskId == s.audit.task && Authorised(s.db, r.draft, user) ==>
      if Counted(s.audit.effects, r.id)
      then Handle(s.db[s.audit.task], CallOf(r.draft, user, at, fails)).task == s.db[s.audit.task]
      else (forall e | e in s.audit.effects :: e.id < r.id)
           && (forall p | p in s.pending && p.draft.taskId == s.audit.task :: r.id <= p.id)
  }

  /** Handler runs for other tasks, or without the owner's session, do not matter. */
  lemma ForeignOnce(s: System, r: PendingScan, user: string, at: Time, fails: bool)
    requires Once(s) && !(r.draft.taskId == s.audit.task && Authorised(s.db, r.draft, user))
    ensures Once(RunHandler(s, r, user, at, fails))
    ensures RunHandler(s, r, user, at, fails).audit == s.audit
  {
    RunKeepsLedger(s, r, user, at, fails);
  }

  lemma EffectAppend(s: System, i: nat, e: Effect)
    requires Once(s) && i < |s.audit.enqueued| && s.audit.origin.Some?
    requires RunOf(e, s.audit.enqueued[i], s.audit.task, s.audit.origin.value.owner)
    requires forall p | p in s.pending && p.draft.taskId == s.audit.task :: e.id <= p.id
    ensures var a := s.audit;
            var effects := a.effects + [e];
            && AllRecorded(effects, a.enqueued, a.task, a.origin)
            && NotBefore(effects, s.pending, a.task)
            && Covered(a.enqueued, a.removed, a.task, effects)
            && AnswerHonest(s.frames, a.task, effects)
            && Counted(effects, e.id)
  {
    hide Inv, Ledger;
    CountedMono(s.audit.effects, e);
  }

  lemma NewEffectOnce(s: System, i: nat, r: PendingScan, user: string, at: Time, fails: bool)
    requires Once(s) && i < |s.audit.enqueued| && s.audit.enqueued[i] == r.(attempts := 0)
    requires InTurn(s, r, user, at, fails)
    requires r.draft.taskId == s.audit.task && Authorised(s.db, r.draft, user) && !Counted(s.audit.effects, r.id)
    ensures Once(RunHandler(s, r, user, at, fails))
    ensures Counted(RunHandler(s, r, user, at, fails).audit.effects, r.id)
  {
    var a := s.audit;
    assert a.origin.Some? && a.origin.value.owner == Some(user);
    hide Ledger, Serve, Fifo, AllRecorded, NotBefore, Covered, AnswerHonest, Counted;
    RunKeepsLedger(s, r, user, at, fails);
    EffectAppend(s, i, Effect(r.id, CallOf(r.draft, user, at, fails)));
  }

  /** Running a record of the history in turn keeps everything. */
  lemma RunOnce(s: System, i: nat, r: PendingScan, user: string, at: Time, fails: bool)
    requires Once(s) && i < |s.audit.enqueued| && s.audit.enqueued[i] == r.(attempts := 0)
    requires InTurn(s, r, user, at, fails)
    ensures var s' := RunHandler(s, r, user, at, fails);
            && Once(s')
            && (r.draft.taskId == s.audit.task && Authorised(s.db, r.draft, user) ==> Counted(s'.audit.effects, r.id))
  {
    if !(r.draft.taskId == s.audit.task && Authorised(s.db, r.draft, user)) {
      ForeignOnce(s, r, user, at, fails);
    } else if !Counted(s.audit.effects, r.id) {
      NewEffectOnce(s, i, r, user, at, fails);
    } else {
      RunKeepsLedger(s, r, user, at, fails);
    }
  }

  lemma EnqueueOnce(s: System, draft: Draft)
    requires Once(s) && Stores(s.pending, draft, true)
    ensures Once(StepAdd(s, draft, None, true))
  {
    AddKeeps(s, draft, None, true);
    EffectsBelowNextKey(s);
    var r := PendingScan(s.nextKey, draft, 0);
    RecordedMono(s.audit.effects, s.audit.enqueued, r, s.audit.task, s.audit.origin);
  }

  /** Attempting first and enqueueing then is the same as enqueueing first and running the record then. */
  lemma AttemptThenEnqueue(s: System, draft: Draft, attempt: Attempt)
    requires Stores(s.pending, draft, true)
    ensures StepAdd(s, draft, Some(attempt), true)
            == RunHandler(StepAdd(s, draft, None, true), PendingScan(s.nextKey, draft, 0),
                          attempt.user, attempt.at, attempt.scanWriteFails)
  {
  }

  lemma AttemptInTurn(s: System, draft: Draft, attempt: Attempt)
    requires Once(s) && Admissible(s, Add(draft, Some(attempt), true)) && Stores(s.pending, draft, true)
    ensures InTurn(StepAdd(s, draft, None, true), PendingScan(s.nextKey, draft, 0),
                   attempt.user, attempt.at, attempt.scanWriteFails)
  {
    EffectsBelowNextKey(s);
  }

  lemma AddOnce(s: System, draft: Draft, attempt: Option<Attempt>, stored: bool)
    requires Once(s) && Admissible(s, Add(draft, attempt, stored))
    ensures Once(StepAdd(s, draft, attempt, stored))
  {
    var r := PendingScan(s.nextKey, draft, 0);
    if Stores(s.pending, draft, stored) {
      EnqueueOnce(s, draft);
      if attempt.Some? {
        AttemptInTurn(s, draft, attempt.value);
        AttemptThenEnqueue(s, draft, attempt.value);
        RunOnce(StepAdd(s, draft, None, true), |s.audit.enqueued|, r,
                attempt.value.user, attempt.value.at, attempt.value.scanWriteFails);
      }
    } else if attempt.Some? {
      ForeignOnce(s, r, attempt.value.user, attempt.value.at, attempt.value.scanWriteFails);
    }
  }

  lemma LateOnce(s: System, i: nat, user: string, at: Time, fails: bool)
    requires Once(s) && Admissible(s, Late(i, user, at, fails))
    ensures Once(StepLate(s, i, user, at, fails))
  {
    if i < |s.audit.enqueued| {
      var r := s.audit.enqueued[i];
      if r.draft.taskId == s.audit.task && Authorised(s.db, r.draft, user) && Counted(s.audit.effects, r.id) {
        LateChangesIff(s, r, user, at, fails);
      }
      RunOnce(s, i, r, user, at, fails);
    }
  }

  /** Running the record at the head of the queue keeps everything, and counts it if the owner's session runs it. */
  lemma HeadRunOnce(s: System, reach: Reach)
    requires Once(s) && Busy(s, 0) && s.frames[0].reply.None? && reach.Delivered?
    ensures var f := s.frames[0];
            var item := f.snapshot[f.pos];
            var ran := RunHandler(s, item, f.user, reach.at, reach.scanWriteFails);
            && Once(ran)
            && (item.draft.taskId == s.audit.task && Authorised(s.db, item.draft, f.user) ==>
                  Counted(ran.audit.effects, item.id))
  {
    var f := s.frames[0];
    var item := f.snapshot[f.pos];
    HeadIsItem(s);
    PendingIncreasing(s.audit.enqueued, s.audit.removed, s.pending, s.nextKey);
    assert s.audit.enqueued[|s.audit.removed|] == item.(attempts := 0);
    hide Once, Inv, Fifo, RunHandler, Serve, Handle, Counted, CallOf, Increasing, FrameOk;
    if item.draft.taskId == s.audit.task && Authorised(s.db, item.draft, f.user) {
      HeadIsNextOrLast(s, item, f.user, reach.at, reach.scanWriteFails);
    }
    RunOnce(s, |s.audit.removed|, item, f.user, reach.at, reach.scanWriteFails);
  }

  /** Noting the reply keeps everything, as an answer that promises a run came from one. */
  lemma SentAnswerOnce(s: System, ran: System, reach: Reach, answer: Answer)
    requires Inv(s) && Busy(s, 0) && s.frames[0].reply.None? && Once(ran) && Inv(StepSend(s, 0, reach, answer))
    requires var f := s.frames[0];
             var item := f.snapshot[f.pos];
             if reach.Undelivered? then ran == s
             else && ran == RunHandler(s, item, f.user, reach.at, reach.scanWriteFails)
                  && (item.draft.taskId == s.audit.task && Authorised(s.db, item.draft, f.user) ==>
                        Counted(ran.audit.effects, item.id))
    ensures Once(StepSend(s, 0, reach, answer))
  {
    var f := s.frames[0];
    var item := f.snapshot[f.pos];
    if reach.Delivered? {
      OnlyServes(s, item, f.user, reach.at, reach.scanWriteFails);
      if !Authorised(s.db, item.draft, f.user) {
        StrangersAreQuiet(s.db, item.draft, f.user, reach.at, reach.scanWriteFails);
      }
    }
    hide Inv, Ledger, AllRecorded, Covered, NotBefore, RunHandler, Serve, CallOf, Authorised, Counted;
  }

  lemma SendOnce(s: System, k: nat, reach: Reach, answer: Answer)
    requires Once(s)
    ensures Once(StepSend(s, k, reach, answer))
  {
    if Busy(s, k) && s.frames[k].reply.None? {
      assert k == 0;
      var f := s.frames[0];
      var item := f.snapshot[f.pos];
      SendKeeps(s, 0, reach, answer);
      if reach.Delivered? {
        HeadRunOnce(s, reach);
        SentAnswerOnce(s, RunHandler(s, item, f.user, reach.at, reach.scanWriteFails), reach, answer);
      } else {
        SentAnswerOnce(s, s, reach, answer);
      }
    }
  }

  lemma CoveredAppend(enqueued: seq<PendingScan>, removed: seq<Removal>, task: string, effects: seq<Effect>, r: Removal)
    requires Covered(enqueued, removed, task, effects)
    requires |removed| < |enqueued| && enqueued[|removed|].draft.taskId == task && Final(r.how) ==>
               Counted(effects, r.id)
    ensures Covered(enqueued, removed + [r], task, effects)
  {
  }

  lemma NotBeforeTail(effects: seq<Effect>, pending: seq<PendingScan>, task: string, attempts: nat)
    requires NotBefore(effects, pending, task) && pending != []
    ensures NotBefore(effects, pending[1..], task)
    ensures NotBefore(effects, Patched(pending, pending[0].id, attempts), task)
  {
    var q := Patched(pending, pending[0].id, attempts);
    forall i, j | 0 <= i < |effects| && 0 <= j < |q| && q[j].draft.taskId == task ensures effects[i].id <= q[j].id {
      assert pending[j].draft.taskId == task;
    }
  }

  /** The reply to the head of the queue is honest: a verdict that settles it for good counted it. */
  lemma HeadVerdictIsCounted(s: System)
    requires Once(s) && Busy(s, 0) && s.frames[0].reply.Some?
    ensures |s.frames| == 1 && s.pending != [] && s.frames[0].snapshot[s.frames[0].pos] == s.pending[0]
    ensures var a := s.audit;
            var how := Verdict(s.frames[0].reply.value, s.pending[0].attempts);
            && |a.removed| < |a.enqueued|
            && (how.Some? && a.enqueued[|a.removed|].draft.taskId == a.task && Final(how.value) ==>
                  Counted(a.effects, s.pending[0].id))
  {
    hide Ledger, AllRecorded, NotBefore, Covered, Counted;
    HeadIsItem(s);
    assert s.pending[0].(attempts := 0) == s.audit.enqueued[|s.audit.removed|];
  }

  lemma SettleOnce(s: System, k: nat, ok: bool)
    requires Once(s)
    ensures Once(StepSettle(s, k, ok))
  {
    if Busy(s, k) && s.frames[k].reply.Some? {
      assert k == 0;
      var a := s.audit;
      hide Ledger, AllRecorded, NotBefore, Covered, StepSettle, Fifo, Without, Patched, At, Counted, Verdict;
      HeadVerdictIsCounted(s);
      var item, reply := s.pending[0], s.frames[0].reply.value;
      var how := Verdict(reply, item.attempts);
      SettleKeeps(s, k, ok);
      SettleFollowsVerdict(s, ok);
      FifoSettled(s, StepSettle(s, 0, ok), item, reply, ok);
      NotBeforeTail(a.effects, s.pending, a.task, item.attempts + 1);
      if how.Some? {
        CoveredAppend(a.enqueued, a.removed, a.task, a.effects, Removal(item.id, how.value));
      }
    }
  }

  lemma StepOnce(s: System, e: Event)
    requires Once(s) && Admissible(s, e)
    ensures Once(Step(s, e))
  {
    match e
    case Add(draft, attempt, stored) => AddOnce(s, draft, attempt, stored);
    case Trigger(_, _) =>
    case Load(k, ok) => LoadKeeps(s, k, ok);
    case Send(k, reach, answer) => SendOnce(s, k, reach, answer);
    case Settle(k, ok) => SettleOnce(s, k, ok);
    case Late(i, user, at, scanWriteFails) => LateOnce(s, i, user, at, scanWriteFails);
    case Elsewhere(id, call) => OthersUntouched(s.db, id, call, s.audit.task);
  }

  lemma {:induction false} RunKeepsOnce(s: System, events: seq<Event>)
    requires Once(s) && AdmissibleRun(s, events)
    ensures Once(Run(s, events))
  {
    if events != [] {
      var n := |events| - 1;
      forall i | 0 <= i < n ensures Admissible(Run(s, events[..n][..i]), events[..n][i]) {
        assert events[..n][..i] == events[..i];
      }
      RunKeepsOnce(s, events[..n]);
      hide Once, Step;
      StepOnce(Run(s, events[..n]), events[n]);
    }
  }

  // ---- The theorems ---------------------------------------------------------------------------

  lemma ObservationKept(s: System, e: Event)
    requires Inv(s)
    ensures Step(s, e).audit.task == s.audit.task && Step(s, e).audit.origin == s.audit.origin
  {
    match e
    case Settle(k, ok) =>
      if Busy(s, k) && s.frames[k].reply.Some? {
        SettleFollowsVerdict(s, ok);
      }
    case _ =>
  }

  lemma {:induction false} ObservationFixed(s: System, events: seq<Event>)
    requires Inv(s)
    ensures Run(s, events).audit.task == s.audit.task && Run(s, events).audit.origin == s.audit.origin
  {
    if events != [] {
      var n := |events| - 1;
      ObservationFixed(s, events[..n]);
      hide Inv;
      RunKeeps(s, events[..n]);
      ObservationKept(Run(s, events[..n]), events[n]);
    }
  }

  ghost predicate OldestPending(s: System, id: nat)
  {
    exists j | 0 <= j < |s.pending| ::
      && s.pending[j].id == id && s.pending[j].draft.taskId == s.audit.task
      && forall j' | 0 <= j' < j :: s.pending[j'].draft.taskId != s.audit.task
  }

  ghost predicate WasRemoved(removed: seq<Removal>, id: nat)
  {
    exists i | 0 <= i < |removed| :: removed[i].id == id
  }

  /** Every effect belongs to a record that has left or to the oldest one that is still pending. */
  ghost predicate DrawnFromFront(s: System)
  {
    forall e | e in s.audit.effects :: WasRemoved(s.audit.removed, e.id) || OldestPending(s, e.id)
  }

  lemma EffectIsDrawnFromFront(s: System, k: nat, i: nat)
    requires Fifo(s.audit.enqueued, s.audit.removed, s.pending, s.nextKey)
    requires NotBefore(s.audit.effects, s.pending, s.audit.task)
    requires k < |s.audit.effects| && i < |s.audit.enqueued|
    requires s.audit.enqueued[i].id == s.audit.effects[k].id && s.audit.enqueued[i].draft.taskId == s.audit.task
    ensures WasRemoved(s.audit.removed, s.audit.effects[k].id) || OldestPending(s, s.audit.effects[k].id)
  {
    var a := s.audit;
    if i < |a.removed| {
      assert a.removed[i].id == a.effects[k].id;
    } else {
      PendingIncreasing(a.enqueued, a.removed, s.pending, s.nextKey);
      var j := i - |a.removed|;
      assert s.pending[j].(attempts := 0) == a.enqueued[i];
      assert s.pending[j].id == a.effects[k].id && s.pending[j].draft.taskId == a.task;
    }
  }

  lemma RecordOf(s: System, k: nat) returns (i: nat)
    requires Once(s) && k < |s.audit.effects|
    ensures Fifo(s.audit.enqueued, s.audit.removed, s.pending, s.nextKey)
    ensures NotBefore(s.audit.effects, s.pending, s.audit.task)
    ensures i < |s.audit.enqueued|
    ensures s.audit.enqueued[i].id == s.audit.effects[k].id && s.audit.enqueued[i].draft.taskId == s.audit.task
  {
    var a := s.audit;
    hide Fifo, NotBefore, Covered, AnswerHonest;
    i :| 0 <= i < |a.enqueued| && RunOf(a.effects[k], a.enqueued[i], a.task, a.origin.value.owner);
  }

  lemma EffectsAreDrawnFromFront(s: System)
    requires Once(s)
    ensures DrawnFromFront(s)
  {
    hide Once, WasRemoved, OldestPending, Fifo, NotBefore;
    forall e | e in s.audit.effects ensures WasRemoved(s.audit.removed, e.id) || OldestPending(s, e.id) {
      var k :| 0 <= k < |s.audit.effects| && s.audit.effects[k] == e;
      var i := RecordOf(s, k);
      EffectIsDrawnFromFront(s, k, i);
    }
  }

  /** In enqueue order, each record at most once, and each a run for the owner of some enqueued record. */
  ghost predicate InEnqueueOrder(a: Audit, owner: Option<string>)
  {
    && (forall i, j | 0 <= i < j < |a.effects| :: a.effects[i].id < a.effects[j].id)
    && (forall i | 0 <= i < |a.effects| :: Recorded(a.effects[i], a.enqueued, a.task, owner))
  }

  /**
   The server row is the fold of the handlers over a subsequence of the enqueued records: in enqueue
   order, each record at most once, drawn from the removed records and at most the oldest pending one,
   and covering every record that the queue removed on the strength of a handler's answer.
   */
  lemma AtLeastOnceActsLikeOnce(task: string, db: Database, events: seq<Event>)
    requires task in db && AdmissibleRun(Initial(task, db), events)
    ensures var s := Run(Initial(task, db), events);
            var a := s.audit;
            && task in s.db && s.db[task] == Replay(db[task], Calls(a.effects))
            && InEnqueueOrder(a, db[task].owner)
            && DrawnFromFront(s)
            && Covered(a.enqueued, a.removed, task, a.effects)
  {
    var s0 := Initial(task, db);
    RunKeepsOnce(s0, events);
    ObservationFixed(s0, events);
    EffectsAreDrawnFromFront(Run(s0, events));
  }

  function EffectIds(effects: seq<Effect>): (r: seq<nat>)
    ensures |r| == |effects| && forall i | 0 <= i < |r| :: r[i] == effects[i].id
  {
    if effects == [] then [] else [effects[0].id] + EffectIds(effects[1..])
  }

  /** The ids of the observed task's records, in enqueue order. */
  function MineIds(q: seq<PendingScan>, task: string): seq<nat>
  {
    if q == [] then []
    else if q[0].draft.taskId == task then [q[0].id] + MineIds(q[1..], task)
    else MineIds(q[1..], task)
  }

  ghost predicate Ascending(a: seq<nat>)
  {
    forall i, j | 0 <= i < j < |a| :: a[i] < a[j]
  }

  lemma {:induction false} MineIdsAscending(q: seq<PendingScan>, task: string)
    requires Increasing(q)
    ensures Ascending(MineIds(q, task))
    ensures forall x :: x in MineIds(q, task) <==> exists i | 0 <= i < |q| :: q[i].id == x && q[i].draft.taskId == task
  {
    if q != [] {
      MineIdsAscending(q[1..], task);
      var m := MineIds(q[1..], task);
      forall x ensures x in MineIds(q, task) <==> exists i | 0 <= i < |q| :: q[i].id == x && q[i].draft.taskId == task {
        if x in m {
          var i :| 0 <= i < |q[1..]| && q[1..][i].id == x && q[1..][i].draft.taskId == task;
          assert q[i + 1].id == x && q[i + 1].draft.taskId == task;
        }
        if i :| 0 <= i < |q| && q[i].id == x && q[i].draft.taskId == task {
          if i > 0 { assert q[1..][i - 1] == q[i]; }
        }
      }
      forall j | 0 <= j < |m| ensures q[0].id < m[j] {
        assert m[j] in m;
      }
    }
  }

  lemma {:induction false} AscendingDetermined(a: seq<nat>, b: seq<nat>)
    requires Ascending(a) && Ascending(b) && forall x :: x in a <==> x in b
    ensures a == b
    decreases |a|
  {
    if b != [] {
      assert b[0] in a;
    }
    if a != [] {
      assert a[0] in b && (b != [] ==> b[0] in a);
      var a', b' := a[1..], b[1..];
      forall x ensures x in a' <==> x in b' {
        assert x in a' <==> x in a && x != a[0];
        assert x in b' <==> x in b && x != b[0];
      }
      AscendingDetermined(a', b');
    }
  }

  ghost predicate Settled(s: System)
  {
    var a := s.audit;
    && (forall p | p in s.pending :: p.draft.taskId != a.task)
    && (forall i | 0 <= i < |a.removed| && i < |a.enqueued| && a.enqueued[i].draft.taskId == a.task ::
           Final(a.removed[i].how))
  }

  lemma MineIsCounted(s: System, i: nat)
    requires Once(s) && Settled(s) && i < |s.audit.enqueued| && s.audit.enqueued[i].draft.taskId == s.audit.task
    ensures Counted(s.audit.effects, s.audit.enqueued[i].id)
  {
    var a := s.audit;
    forall k | |a.removed| <= k < |a.enqueued| ensures a.enqueued[k].draft.taskId != a.task {
      assert s.pending[k - |a.removed|].(attempts := 0) == a.enqueued[k];
      assert s.pending[k - |a.removed|] in s.pending;
    }
    assert i < |a.removed|;
  }

  lemma CountedIffId(effects: seq<Effect>, x: nat)
    ensures Counted(effects, x) <==> x in EffectIds(effects)
  {
    if Counted(effects, x) {
      var e :| e in effects && e.id == x;
      var k :| 0 <= k < |effects| && effects[k] == e;
      assert EffectIds(effects)[k] == x;
    }
  }

  ghost predicate AllCounted(s: System)
  {
    forall i | 0 <= i < |s.audit.enqueued| && s.audit.enqueued[i].draft.taskId == s.audit.task ::
      Counted(s.audit.effects, s.audit.enqueued[i].id)
  }

  lemma IdsAscend(s: System)
    requires Once(s)
    ensures Ascending(EffectIds(s.audit.effects)) && Increasing(s.audit.enqueued)
  {
    hide EffectIds, AllRecorded, NotBefore, Covered, AnswerHonest;
  }

  lemma RanIffMine(s: System, x: nat)
    requires Once(s) && AllCounted(s) && s.audit.origin.Some?
    ensures x in EffectIds(s.audit.effects) <==> x in MineIds(s.audit.enqueued, s.audit.task)
  {
    var a := s.audit;
    IdsAscend(s);
    MineIdsAscending(a.enqueued, a.task);
    CountedIffId(a.effects, x);
    hide Once, EffectIds, MineIds, Increasing, Ascending;
    if x in EffectIds(a.effects) {
      var k :| 0 <= k < |a.effects| && a.effects[k].id == x;
      var i := RecordOf(s, k);
      assert a.enqueued[i].id == x && a.enqueued[i].draft.taskId == a.task;
    }
    if x in MineIds(a.enqueued, a.task) {
      var i :| 0 <= i < |a.enqueued| && a.enqueued[i].id == x && a.enqueued[i].draft.taskId == a.task;
    }
  }

  /** If every enqueued action has run, they have run exactly once each and in order. */
  lemma AllCountedMeansExactlyOnce(s: System)
    requires Once(s) && AllCounted(s) && s.audit.origin.Some?
    ensures EffectIds(s.audit.effects) == MineIds(s.audit.enqueued, s.audit.task)
  {
    var a := s.audit;
    MineIdsAscending(a.enqueued, a.task);
    IdsAscend(s);
    hide *;
    forall x ensures x in EffectIds(a.effects) <==> x in MineIds(a.enqueued, a.task) {
      RanIffMine(s, x);
    }
    AscendingDetermined(EffectIds(a.effects), MineIds(a.enqueued, a.task));
  }

  lemma SettledIsCounted(s: System)
    requires Once(s) && Settled(s)
    ensures AllCounted(s)
  {
    hide Once, Settled;
    forall i | 0 <= i < |s.audit.enqueued| && s.audit.enqueued[i].draft.taskId == s.audit.task
      ensures Counted(s.audit.effects, s.audit.enqueued[i].id)
    {
      MineIsCounted(s, i);
    }
  }

  /** Once nothing is pending and no record was lost, every enqueued action has run exactly once, in order. */
  lemma DrainedMeansExactlyOnce(s: System)
    requires Once(s) && Settled(s) && s.audit.origin.Some?
    ensures EffectIds(s.audit.effects) == MineIds(s.audit.enqueued, s.audit.task)
  {
    hide *;
    SettledIsCounted(s);
    AllCountedMeansExactlyOnce(s);
  }

  /** What a record's handler needs to run again on behalf of the owner. */
  predicate Reopened(task: Task, action: Action)
    requires !action.Flag?
  {
    if action.Start? then task.status == SCHEDULED || task.status == PENDING else task.status == IN_PROGRESS
  }

  /** No staff call reopens what a handler has left behind: starts stay started and completions completed. */
  lemma {:induction false} StaffNeverReopen(task: Task, action: Action, later: seq<Call>)
    requires !action.Flag? && task.status == Target(action) && StaffCalls(later)
    ensures !Reopened(Replay(task, later), action)
    ensures action.Complete? ==> Replay(task, later).status in {DONE, FLAGGED}
    ensures action.Start? ==> Replay(task, later).status in {IN_PROGRESS, DONE, FLAGGED}
  {
    if later != [] {
      StaffNeverReopen(task, action, later[..|later| - 1]);
    }
  }

  /** A retry with a working scan write repairs the scan exactly if the task has been reopened; else it is refused. */
  lemma RetryRepairsIff(task: Task, draft: Draft, owner: string, at: Time)
    requires task.owner == Some(owner) && draft.qrCode != "" && !draft.action.Flag?
    ensures var retry := Handle(task, CallOf(draft, owner, at, false));
            var kind := if draft.action.Start? then CHECK_IN else CHECK_OUT;
            if Reopened(task, draft.action)
            then retry.code == OK && retry.task.scans == task.scans + [ScanRow(owner, kind, draft.qrCode, at)]
            else retry.code == BAD_REQUEST && retry.task == task
  {
  }

  lemma RefusedUnlessReopened(task: Task, draft: Draft, user: string, at: Time, fails: bool)
    requires !draft.action.Flag? && !Reopened(task, draft.action)
    ensures Handle(task, CallOf(draft, user, at, fails)) == Outcome(task, BAD_REQUEST)
  {
  }

  /**
   The scan row is the one thing a retry does not repair: when its write fails after the task row was
   updated, the answer is a 5xx, and whatever the staff do in between, every retry is refused.
   */
  lemma LostScanStaysLost(task: Task, draft: Draft, owner: string, at: Time, later: seq<Call>, user: string, at': Time,
                          fails': bool)
    requires task.owner == Some(owner) && draft.qrCode != "" && !draft.action.Flag? && StaffCalls(later)
    requires Handle(task, CallOf(draft, owner, at, false)).code == OK
    ensures var failed := Handle(task, CallOf(draft, owner, at, true));
            var retried := Replay(failed.task, later);
            && failed.code == SERVER_ERROR && failed.task.scans == task.scans && failed.task.status != task.status
            && Handle(retried, CallOf(draft, user, at', fails')) == Outcome(retried, BAD_REQUEST)
            && Handle(task, CallOf(draft, owner, at, false)).task.scans != task.scans
  {
    var good := Handle(task, CallOf(draft, owner, at, false)).task;
    assert |good.scans| == |task.scans| + 1;
    var failed := Handle(task, CallOf(draft, owner, at, true)).task;
    assert failed.status == Target(draft.action);
    hide Replay;
    StaffNeverReopen(failed, draft.action, later);
    RefusedUnlessReopened(Replay(failed, later), draft, user, at', fails');
  }

  /** A supervisor can repair it: after a status update back to PENDING the retry of a start writes the scan. */
  lemma ReopeningRepairs(task: Task, draft: Draft, owner: string, at: Time, reopenedAt: Time, retriedAt: Time)
    requires task.owner == Some(owner) && draft.qrCode != "" && draft.action.Start? && Reopened(task, Start)
    ensures var failed := Handle(task, CallOf(draft, owner, at, true));
            var reopened := Handle(failed.task, Call(UpdateTaskStatus(PENDING), reopenedAt, false));
            var retry := Handle(reopened.task, CallOf(draft, owner, retriedAt, false));
            && failed.code == SERVER_ERROR && reopened.code == OK && retry.code == OK
            && retry.task.scans == task.scans + [ScanRow(owner, CHECK_IN, draft.qrCode, retriedAt)]
  {
    var failed := Handle(task, CallOf(draft, owner, at, true)).task;
    var reopened := Handle(failed, Call(UpdateTaskStatus(PENDING), reopenedAt, false)).task;
    RetryRepairsIff(reopened, draft, owner, retriedAt);
  }
}
