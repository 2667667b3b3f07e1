/**
 What holds in whatever order the requests arrive: no late request is assumed to keep its place, online
 requests may go past a queue that is not empty, and only the staff actions have to be the task's writers.
 */
module ArrivalOrder {
  import opened Domain
  import opened TaskServer
  import opened Outbox
  import opened OutboxInvariants
  import opened ExactlyOnce
  import opened Overlay

  /** Past the queue the observed task sees requests for staff actions only, no supervisor's status update. */
  predicate StaffRequest(task: string, e: Event)
  {
    e.Elsewhere? && e.taskId == task ==> !e.call.op.UpdateTaskStatus?
  }

  ghost predicate StaffOnly(task: string, events: seq<Event>)
  {
    forall i | 0 <= i < |events| :: StaffRequest(task, events[i])
  }

  /** The run of a record's handler on the observed task for its owner, if that is what it is. */
  function OwnerRun(s: System, draft: Draft, user: string, at: Time, scanWriteFails: bool): Option<Call>
  {
    if draft.taskId == s.audit.task && Authorised(s.db, draft, user)
    then Some(CallOf(draft, user, at, scanWriteFails)) else None
  }

  /** The handler run that an event makes on the observed task for its owner. */
  function Reached(s: System, e: Event): Option<Call>
  {
    match e
    case Add(draft, Some(a), _) => OwnerRun(s, draft, a.user, a.at, a.scanWriteFails)
    case Send(k, Delivered(at, scanWriteFails), _) =>
      if !Busy(s, k) || s.frames[k].reply.Some? then None
      else OwnerRun(s, s.frames[k].snapshot[s.frames[k].pos].draft, s.frames[k].user, at, scanWriteFails)
    case Late(i, user, at, scanWriteFails) =>
      if i >= |s.audit.enqueued| || s.audit.enqueued[i].id !in s.audit.sent then None
      else OwnerRun(s, s.audit.enqueued[i].draft, user, at, scanWriteFails)
    case Elsewhere(id, call) =>
      if id == s.audit.task && id in s.db && s.db[id].owner.Some? && Owns(call.op, s.db[id]) then Some(call) else None
    case _ => None
  }

  /** When the owner's run of a record, first or repeated, early or late, changes the row. */
  predicate Changes(task: Task, draft: Draft)
  {
    match draft.action
    case Start => task.status == SCHEDULED || task.status == PENDING
    case Complete => task.status == IN_PROGRESS
    case Flag => draft.reason != "" && task.status != FLAGGED
  }

  lemma OwnerRunChangesIff(task: Task, draft: Draft, user: string, at: Time, scanWriteFails: bool)
    requires task.owner == Some(user)
    ensures var after := Handle(task, CallOf(draft, user, at, scanWriteFails)).task;
            && (after != task <==> Changes(task, draft))
            && (after != task ==> after.status == Target(draft.action))
  {
    var after := Handle(task, CallOf(draft, user, at, scanWriteFails)).task;
    if Changes(task, draft) {
      assert after.status == Target(draft.action) != task.status;
    }
  }

  /** The handler runs that change the observed task, as they arrive. */
  function ChangingCalls(s: System, events: seq<Event>): seq<Call>
  {
    if events == [] then []
    else
      var n := |events| - 1;
      var before := Run(s, events[..n]);
      var call := Reached(before, events[n]);
      ChangingCalls(s, events[..n])
      + (if call.Some? && before.audit.task in before.db
            && Handle(before.db[before.audit.task], call.value).task != before.db[before.audit.task]
         then [call.value] else [])
  }

  // ---- One step -------------------------------------------------------------------------------

  lemma RunHandlerReaches(s: System, r: PendingScan, user: string, at: Time, scanWriteFails: bool)
    requires s.audit.task in s.db
    ensures var db' := RunHandler(s, r, user, at, scanWriteFails).db;
            var call := OwnerRun(s, r.draft, user, at, scanWriteFails);
            && s.audit.task in db'
            && db'[s.audit.task]
                 == if call.Some? then Handle(s.db[s.audit.task], call.value).task else s.db[s.audit.task]
  {
    var call := CallOf(r.draft, user, at, scanWriteFails);
    hide Handle;
    if r.draft.taskId != s.audit.task {
      OthersUntouched(s.db, r.draft.taskId, call, s.audit.task);
    } else if !Authorised(s.db, r.draft, user) {
      StrangersAreQuiet(s.db, r.draft, user, at, scanWriteFails);
    } else {
      ServeIsHandle(s.db, r.draft.taskId, call);
    }
  }

  lemma StepReaches(s: System, e: Event)
    requires Inv(s) && s.audit.task in s.db && StaffRequest(s.audit.task, e)
    ensures var s' := Step(s, e);
            && s.audit.task in s'.db
            && s'.db[s.audit.task] == if Reached(s, e).Some? then Handle(s.db[s.audit.task], Reached(s, e).value).task
                                      else s.db[s.audit.task]
  {
    hide Handle, Serve, CallOf, Authorised, Counted, OwnerRun;
    match e
    case Add(draft, attempt, _) =>
      if attempt.Some? {
        var a := attempt.value;
        RunHandlerReaches(s, PendingScan(s.nextKey, draft, 0), a.user, a.at, a.scanWriteFails);
      }
    case Send(k, reach, _) =>
      if Busy(s, k) && s.frames[k].reply.None? && reach.Delivered? {
        var f := s.frames[k];
        RunHandlerReaches(s, f.snapshot[f.pos], f.user, reach.at, reach.scanWriteFails);
      }
    case Late(i, user, at, scanWriteFails) =>
      if i < |s.audit.enqueued| && s.audit.enqueued[i].id in s.audit.sent {
        RunHandlerReaches(s, s.audit.enqueued[i], user, at, scanWriteFails);
      }
    case Settle(k, ok) =>
      if Busy(s, k) && s.frames[k].reply.Some? {
        hide StepSettle;
        SettleFollowsVerdict(s, ok);
      }
    case Elsewhere(id, call) => DirectReaches(s, id, call);
    case _ =>
  }

  lemma DirectReaches(s: System, id: string, call: Call)
    requires s.audit.task in s.db && StaffRequest(s.audit.task, Elsewhere(id, call))
    ensures var db' := Serve(s.db, id, call).0;
            var reached := Reached(s, Elsewhere(id, call));
            && s.audit.task in db'
            && db'[s.audit.task] == if reached.Some? then Handle(s.db[s.audit.task], call).task else s.db[s.audit.task]
  {
    if id != s.audit.task {
      OthersUntouched(s.db, id, call, s.audit.task);
    } else {
      ServeIsHandle(s.db, id, call);
    }
  }

  // ---- Where the calls come from --------------------------------------------------------------

  ghost predicate Added(events: seq<Event>, draft: Draft)
  {
    exists i | 0 <= i < |events| :: events[i].Add? && events[i].draft == draft
  }

  ghost predicate QueueAdded(s: System, events: seq<Event>)
  {
    forall r | r in s.audit.enqueued :: Added(events, r.draft)
  }

  lemma AddedMono(events: seq<Event>, e: Event, draft: Draft)
    requires Added(events, draft) || (e.Add? && e.draft == draft)
    ensures Added(events + [e], draft)
  {
    if Added(events, draft) {
      var i :| 0 <= i < |events| && events[i].Add? && events[i].draft == draft;
      assert (events + [e])[i] == events[i];
    } else {
      assert (events + [e])[|events|] == e;
    }
  }

  lemma EnqueuedBy(s: System, e: Event)
    requires Inv(s)
    ensures forall r | r in Step(s, e).audit.enqueued :: r in s.audit.enqueued || (e.Add? && e.draft == r.draft)
  {
    hide Serve, CallOf, Counted, Authorised, Fifo;
    if e.Settle? && Busy(s, e.k) && s.frames[e.k].reply.Some? {
      hide StepSettle;
      SettleFollowsVerdict(s, e.ok);
    }
  }

  lemma {:induction false} RunAdds(s: System, events: seq<Event>)
    requires Inv(s) && s.audit.enqueued == []
    ensures QueueAdded(Run(s, events), events)
  {
    if events != [] {
      hide Inv, Step, Added;
      var n := |events| - 1;
      RunAdds(s, events[..n]);
      RunKeeps(s, events[..n]);
      EnqueuedBy(Run(s, events[..n]), events[n]);
      assert events == events[..n] + [events[n]];
      forall r | r in Run(s, events).audit.enqueued ensures Added(events, r.draft) {
        AddedMono(events[..n], events[n], r.draft);
      }
    }
  }

  /** The action was queued, or requested online past the queue. */
  ghost predicate Made(events: seq<Event>, draft: Draft, call: Call)
  {
    Added(events, draft) || Elsewhere(draft.taskId, call) in events
  }

  /** The call is the owner's run of a staff action that was taken on the observed task. */
  ghost predicate Requested(events: seq<Event>, call: Call, task: string, user: string)
  {
    exists draft ::
      Made(events, draft, call) && draft.taskId == task && call == CallOf(draft, user, call.at, call.scanWriteFails)
  }

  /** A staff call as a record would put it. */
  function DirectDraft(task: string, op: Op): Draft
    requires !op.UpdateTaskStatus?
  {
    match op
    case StartTask(_, qr) => Draft("", task, Start, qr, "", 0)
    case CompleteTask(_, qr) => Draft("", task, Complete, qr, "", 0)
    case FlagTask(_, reason) => Draft("", task, Flag, "", reason, 0)
  }

  lemma MadeMono(events: seq<Event>, e: Event, draft: Draft, call: Call)
    requires Made(events, draft, call)
    ensures Made(events + [e], draft, call)
  {
    if Added(events, draft) {
      AddedMono(events, e, draft);
    }
  }

  lemma ReachedIsRequested(s: System, events: seq<Event>, e: Event)
    requires Inv(s) && QueueAdded(s, events) && Reached(s, e).Some? && StaffRequest(s.audit.task, e)
    ensures s.audit.task in s.db && s.db[s.audit.task].owner.Some?
    ensures Requested(events + [e], Reached(s, e).value, s.audit.task, s.db[s.audit.task].owner.value)
  {
    var draft := match e
      case Add(draft, _, _) => draft
      case Send(k, _, _) => s.frames[k].snapshot[s.frames[k].pos].draft
      case Late(i, _, _, _) => s.audit.enqueued[i].draft
      case Elsewhere(id, call) => DirectDraft(id, call.op);
    var call := Reached(s, e).value;
    if e.Elsewhere? {
      assert e in events + [e];
      assert Made(events + [e], draft, call);
      assert call == CallOf(draft, s.db[s.audit.task].owner.value, call.at, call.scanWriteFails);
      return;
    }
    if e.Send? {
      HeadIsItem(s);
      assert s.pending[0].(attempts := 0) == s.audit.enqueued[|s.audit.removed|];
      assert s.audit.enqueued[|s.audit.removed|] in s.audit.enqueued;
    }
    AddedMono(events, e, draft);
    assert Made(events + [e], draft, call);
    hide Added, Inv;
  }

  // ---- Whole runs -----------------------------------------------------------------------------

  function Rank(op: Op): nat
  {
    match op
    case StartTask(_, _) => 0
    case CompleteTask(_, _) => 1
    case FlagTask(_, _) => 2
    case UpdateTaskStatus(_) => 3
  }

  ghost predicate InRankOrder(calls: seq<Call>)
  {
    forall i, j | 0 <= i < j < |calls| :: Rank(calls[i].op) < Rank(calls[j].op)
  }

  /** What the last change was, the status still shows. */
  predicate Reflects(task: Task, calls: seq<Call>)
  {
    calls != [] ==> match calls[|calls| - 1].op
                    case StartTask(_, _) => task.status == IN_PROGRESS
                    case CompleteTask(_, _) => task.status == DONE
                    case FlagTask(_, _) => task.status == FLAGGED
                    case UpdateTaskStatus(_) => false
  }

  /** After its last change only a call of a higher rank changes a row. */
  lemma OnlyHigherRanksChange(task: Task, calls: seq<Call>, draft: Draft, user: string, at: Time, fails: bool)
    requires task.owner == Some(user) && Reflects(task, calls) && InRankOrder(calls)
    requires Handle(task, CallOf(draft, user, at, fails)).task != task
    ensures var call := CallOf(draft, user, at, fails);
            && InRankOrder(calls + [call]) && Reflects(Handle(task, call).task, calls + [call])
  {
    OwnerRunChangesIff(task, draft, user, at, fails);
    var call := CallOf(draft, user, at, fails);
    assert calls != [] ==> Rank(calls[|calls| - 1].op) < Rank(call.op);
  }

  ghost predicate Explained(s0: System, s: System, calls: seq<Call>, events: seq<Event>)
  {
    var task := s0.audit.task;
    && task in s0.db && task in s.db && s.audit.task == task
    && s.db[task] == Replay(s0.db[task], calls) && s.db[task].owner == s0.db[task].owner
    && Reflects(s.db[task], calls) && InRankOrder(calls)
    && forall i | 0 <= i < |calls| ::
      s0.db[task].owner.Some? && Requested(events, calls[i], task, s0.db[task].owner.value)
  }

  lemma RequestedMono(events: seq<Event>, e: Event, call: Call, task: string, user: string)
    requires Requested(events, call, task, user)
    ensures Requested(events + [e], call, task, user)
  {
    var draft :| && Made(events, draft, call) && draft.taskId == task
                 && call == CallOf(draft, user, call.at, call.scanWriteFails);
    MadeMono(events, e, draft, call);
  }

  lemma ReplaySnoc(task: Task, calls: seq<Call>, call: Call)
    ensures Replay(task, calls + [call]) == Handle(Replay(task, calls), call).task
  {
    hide Handle;
    assert (calls + [call])[..|calls|] == calls;
  }

  lemma ExplainedStep(s0: System, s: System, calls: seq<Call>, events: seq<Event>, e: Event)
    requires Inv(s) && Explained(s0, s, calls, events) && QueueAdded(s, events)
    requires StaffRequest(s0.audit.task, e)
    ensures var task, call := s0.audit.task, Reached(s, e);
            var changed := call.Some? && Handle(s.db[task], call.value).task != s.db[task];
            Explained(s0, Step(s, e), calls + (if changed then [call.value] else []), events + [e])
  {
    hide Handle, Step, Fifo, Requested, Replay, Reached, FrameOk;
    var task, call := s0.audit.task, Reached(s, e);
    StepReaches(s, e);
    ObservationKept(s, e);
    forall i | 0 <= i < |calls| ensures Requested(events + [e], calls[i], task, s0.db[task].owner.value) {
      RequestedMono(events, e, calls[i], task, s0.db[task].owner.value);
    }
    assert calls + [] == calls;
    if call.Some? && Handle(s.db[task], call.value).task != s.db[task] {
      ReachedIsRequested(s, events, e);
      var user := s.db[task].owner.value;
      var draft := RequestOf(events + [e], call.value, task, user);
      OnlyHigherRanksChange(s.db[task], calls, draft, user, call.value.at, call.value.scanWriteFails);
      ReplaySnoc(s0.db[task], calls, call.value);
      OwnerKept(s.db[task], call.value);
    }
  }

  lemma RequestOf(events: seq<Event>, call: Call, task: string, user: string) returns (draft: Draft)
    requires Requested(events, call, task, user)
    ensures call == CallOf(draft, user, call.at, call.scanWriteFails)
  {
    draft :| && Made(events, draft, call) && draft.taskId == task
             && call == CallOf(draft, user, call.at, call.scanWriteFails);
  }

  lemma ChangingLast(s: System, events: seq<Event>)
    requires events != []
    ensures var n := |events| - 1;
            var before := Run(s, events[..n]);
            var call := Reached(before, events[n]);
            var changed := call.Some? && before.audit.task in before.db
                           && Handle(before.db[before.audit.task], call.value).task != before.db[before.audit.task];
            ChangingCalls(s, events) == ChangingCalls(s, events[..n]) + (if changed then [call.value] else [])
  {
    hide Run, Reached, Handle;
  }

  lemma NothingYet(s0: System)
    requires s0.audit.task in s0.db
    ensures Explained(s0, Run(s0, []), ChangingCalls(s0, []), [])
  {
  }

  lemma {:induction false} RunIsExplained(s0: System, events: seq<Event>)
    requires Inv(s0) && s0.audit.task in s0.db && s0.audit.enqueued == [] && StaffOnly(s0.audit.task, events)
    ensures Explained(s0, Run(s0, events), ChangingCalls(s0, events), events)
  {
    hide *;
    if events == [] {
      NothingYet(s0);
    } else {
      var n := |events| - 1;
      var before, calls := Run(s0, events[..n]), ChangingCalls(s0, events[..n]);
      StaffOnlyPrefix(s0.audit.task, events);
      RunIsExplained(s0, events[..n]);
      RunKeeps(s0, events[..n]);
      RunAdds(s0, events[..n]);
      IsExplained(s0, before, calls, events[..n]);
      ExplainedStep(s0, before, calls, events[..n], events[n]);
      RunLast(s0, events);
      ChangingLast(s0, events);
      assert events == events[..n] + [events[n]];
    }
  }

  lemma StaffOnlyPrefix(task: string, events: seq<Event>)
    requires StaffOnly(task, events) && events != []
    ensures StaffOnly(task, events[..|events| - 1])
    ensures StaffRequest(task, events[|events| - 1])
  {
  }

  lemma {:induction false} RankAtLeast(calls: seq<Call>, i: nat)
    requires InRankOrder(calls) && i < |calls|
    ensures Rank(calls[i].op) >= i
  {
    if i > 0 {
      RankAtLeast(calls, i - 1);
    }
  }

  lemma IsExplained(s0: System, s: System, calls: seq<Call>, events: seq<Event>)
    requires Explained(s0, s, calls, events)
    ensures s0.audit.task in s0.db && s0.audit.task in s.db && s.audit.task == s0.audit.task
    ensures s.db[s0.audit.task] == Replay(s0.db[s0.audit.task], calls)
    ensures |calls| <= 3
    ensures forall i, j | 0 <= i < j < |calls| :: Rank(calls[i].op) < Rank(calls[j].op) <= 2
    ensures forall i | 0 <= i < |calls| ::
              && s0.db[s0.audit.task].owner.Some?
              && Requested(events, calls[i], s0.audit.task, s0.db[s0.audit.task].owner.value)
  {
    hide Requested, Replay, Reflects;
    var task := s0.audit.task;
    forall i | 0 <= i < |calls| ensures Rank(calls[i].op) <= 2 {
      var draft := RequestOf(events, calls[i], task, s0.db[task].owner.value);
    }
    if calls != [] {
      RankAtLeast(calls, |calls| - 1);
    }
  }

  /**
   In whatever order and however often requests arrive, late, dropped and dead-lettered ones and online
   ones past the queue included, the row is the fold of at most one start, one completion and one flag, in
   that order, each of them the owner's run of an action that was taken. So no record changes it twice.
   */
  lemma EachActionChangesOnce(task: string, db: Database, events: seq<Event>)
    requires task in db && StaffOnly(task, events)
    ensures var s := Run(Initial(task, db), events);
            var calls := ChangingCalls(Initial(task, db), events);
            && task in s.db && s.db[task] == Replay(db[task], calls)
            && |calls| <= 3
            && (forall i, j | 0 <= i < j < |calls| :: Rank(calls[i].op) < Rank(calls[j].op) <= 2)
            && (forall i | 0 <= i < |calls| ::
                  db[task].owner.Some? && Requested(events, calls[i], task, db[task].owner.value))
  {
    InitialInv(task, db);
    var s0 := Initial(task, db);
    assert s0.audit.enqueued == [] && s0.audit.task == task && s0.db == db;
    hide *;
    RunIsExplained(s0, events);
    IsExplained(s0, Run(s0, events), ChangingCalls(s0, events), events);
  }
}
