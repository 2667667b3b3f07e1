/** `flushQueue` as the code has it, proved to take exactly the steps of the outbox machine. */
module SyncServices {
  import opened Domain
  import opened TaskServer
  import opened Outbox
  import opened OutboxStores

  /** What goes on outside the flush: records queued, triggers fired, late requests, other writers. */
  predicate Outside(e: Event)
  {
    e.Add? || e.Trigger? || e.Late? || e.Elsewhere?
  }

  type OutsideEvent = e: Event | Outside(e) witness Trigger(false, None)

  /** One record of the loop: the fate of the request, what goes on until its reply is settled, and the write. */
  datatype Turn = Turn(reach: Reach, answer: Answer, meanwhile: seq<OutsideEvent>, storageOk: bool)

  function TurnEvents(turn: Turn): seq<Event>
  {
    [Send(0, turn.reach, turn.answer)] + turn.meanwhile + [Settle(0, turn.storageOk)]
  }

  function TurnsEvents(turns: seq<Turn>): seq<Event>
  {
    if turns == [] then [] else TurnsEvents(turns[..|turns| - 1]) + TurnEvents(turns[|turns| - 1])
  }

  /** One call of `flushQueue`: its guards, what goes on while it reads the queue, and its loop. */
  function FlushEvents(onLine: bool, token: Option<string>, early: seq<OutsideEvent>, readOk: bool,
                       turns: seq<Turn>): seq<Event>
  {
    [Trigger(onLine, token)] + early + [Load(0, readOk)] + TurnsEvents(turns)
  }

  /** The guards let the call through. */
  predicate Starts(isFlushing: bool, onLine: bool, token: Option<string>)
  {
    !isFlushing && onLine && token.Some?
  }

  function Closed(m: System, removals: nat, drainedAny: bool): System
  {
    m.(isFlushing := false, frames := [],
       audit := m.audit.(flushes := m.audit.flushes + [FlushReport(removals, drainedAny)]))
  }

  /** The activation `f` after its current record, when `removed` says whether that record left. */
  function After(f: Frame, removed: bool): (r: Frame)
    requires f.Draining?
    ensures r.Draining? && r.snapshot == f.snapshot && r.pos == f.pos
  {
    f.(drainedAny := f.drainedAny || removed, removals := f.removals + (if removed then 1 else 0))
  }

  /** The machine after a reply to `f`, given what is left in the store. */
  function Onward(m: System, f: Frame, goOn: bool, removed: bool): System
    requires f.Draining?
  {
    var next := After(f, removed);
    if goOn && f.pos + 1 < |f.snapshot| then m.(frames := [next.(pos := f.pos + 1, reply := None)])
    else Closed(m, next.removals, next.drainedAny)
  }

  lemma OnwardIgnoresReply(m: System, f: Frame, reply: Reply, goOn: bool, removed: bool)
    requires f.Draining?
    ensures Onward(m, f.(reply := Some(reply)), goOn, removed) == Onward(m, f, goOn, removed)
  {
  }

  lemma LoadOutcome(s: System, user: string, readOk: bool)
    requires s.frames == [Loading(user)]
    ensures StepLoad(s, 0, readOk)
            == if !readOk || s.pending == [] then Closed(s, 0, false)
               else s.(frames := [Draining(user, s.pending, 0, None, false, 0)])
  {
  }

  lemma FinishOnward(s: System)
    requires |s.frames| == 1 && s.frames[0].Draining?
    ensures Finish(s, 0) == Onward(s, s.frames[0], false, false)
  {
    var f := s.frames[0];
    assert After(f, false).removals == f.removals && (After(f, false).drainedAny <==> f.drainedAny);
  }

  lemma RemovedOnward(s: System, ok: bool, how: Disposition)
    requires |s.frames| == 1 && Busy(s, 0)
    ensures var f := s.frames[0];
            var id := f.snapshot[f.pos].id;
            Removed(s, 0, ok, how)
            == if !ok then Onward(s, f, false, false)
               else Onward(s.(pending := Without(s.pending, id),
                              audit := s.audit.(removed := s.audit.removed + [Removal(id, how)])),
                           f, !how.DeadLettered?, true)
  {
    FinishOnward(s);
  }

  lemma FailedOnward(s: System, ok: bool)
    requires |s.frames| == 1 && Busy(s, 0) && s.frames[0].snapshot[s.frames[0].pos].attempts + 1 < MAX_ATTEMPTS
    ensures var f := s.frames[0];
            var item := f.snapshot[f.pos];
            Failed(s, 0, ok)
            == if !ok then Onward(s, f, false, false)
               else Onward(s.(pending := Patched(s.pending, item.id, item.attempts + 1)), f, false, false)
  {
    hide Patched;
    FinishOnward(s);
  }

  lemma RunOne(s: System, events: seq<Event>, e: Event)
    ensures Run(s, events + [e]) == Step(Run(s, events), e)
  {
    assert (events + [e])[..|events|] == events;
  }

  /** The audit trail after a handler run for a record. */
  function Noted(audit: Audit, db: Database, r: PendingScan, user: string, at: Time, scanWriteFails: bool): Audit
  {
    RunHandler(System([], 1, false, [], db, audit), r, user, at, scanWriteFails).audit
  }

  /** The audit trail after a 5xx answer. */
  function NotedError(audit: Audit, id: nat, ok: bool): Audit
  {
    Tallied(System([], 1, false, [], map[], audit), id, ok).audit
  }

  class SyncService {
    const store: OutboxStore
    const server: TasksService
    var isFlushing: bool
    var audit: Audit

    ghost predicate Valid()
      reads this, store
    {
      store.Valid()
    }

    /** The machine state that the objects stand for, given the activations that are under way. */
    ghost function Model(frames: seq<Frame>): System
      reads this, store, server
    {
      System(store.Contents(), store.nextKey, isFlushing, frames, server.tasks, audit)
    }

    constructor (task: string, store: OutboxStore, server: TasksService)
      requires store.Valid() && store.Contents() == [] && store.nextKey == 1
      ensures Valid() && this.store == store && this.server == server
      ensures Model([]) == Initial(task, server.tasks)
    {
      this.store, this.server, isFlushing := store, server, false;
      audit := Initial(task, server.tasks).audit;
    }

    /** The request reaches the handler of its action. */
    method Deliver(draft: Draft, user: string, at: Time, scanWriteFails: bool) returns (code: nat)
      modifies server
      ensures (server.tasks, code) == Serve(old(server.tasks), draft.taskId, CallOf(draft, user, at, scanWriteFails))
    {
      match draft.action {
        case Start => code := server.StartTask(draft.taskId, user, draft.qrCode, at, scanWriteFails);
        case Complete => code := server.CompleteTask(draft.taskId, user, draft.qrCode, at, scanWriteFails);
        case Flag => code := server.FlagTask(draft.taskId, user, draft.reason, at, scanWriteFails);
      }
    }

    /** `fetch` of one queued record with the token read at flush time. */
    method Fetch(item: PendingScan, user: string, reach: Reach, answer: Answer, ghost f: Frame) returns (reply: Reply)
      requires Valid() && f.Draining? && f.pos < |f.snapshot| && f.snapshot[f.pos] == item && f.user == user
      requires f.reply.None?
      modifies this`audit, server
      ensures Valid()
      ensures Model([f.(reply := Some(reply))]) == StepSend(old(Model([f])), 0, reach, answer)
    {
      var code := OK;
      var settled := Authorised(server.tasks, item.draft, user);
      if reach.Delivered? {
        audit := Noted(audit, server.tasks, item, user, reach.at, reach.scanWriteFails);
        code := Deliver(item.draft, user, reach.at, reach.scanWriteFails);
      }
      audit := audit.(sent := audit.sent + {item.id});
      reply := match answer
        case Lost => NetworkError
        case FromHandler => if reach.Undelivered? then NetworkError else Response(code, settled)
        case FromGateway(c) => Response(c, false);
    }

    /** The online attempt of a request or a late one: the handler runs, and the audit trail notes it. */
    method RunRecord(r: PendingScan, user: string, at: Time, scanWriteFails: bool, ghost frames: seq<Frame>)
      requires Valid()
      modifies this`audit, server
      ensures Valid() && isFlushing == old(isFlushing)
      ensures Model(frames) == RunHandler(old(Model(frames)), r, user, at, scanWriteFails)
    {
      audit := Noted(audit, server.tasks, r, user, at, scanWriteFails);
      var _ := Deliver(r.draft, user, at, scanWriteFails);
    }

    /** A request of the user interface that goes to the queue, perhaps after an attempt that did run. */
    method Queue(draft: Draft, attempt: Option<Attempt>, stored: bool, ghost frames: seq<Frame>)
      requires Valid()
      modifies this`audit, store, server
      ensures Valid() && |store.Contents()| <= |old(store.Contents())| + 1
      ensures Model(frames) == StepAdd(old(Model(frames)), draft, attempt, stored)
    {
      hide Serve, Counted, CallOf, Authorised;
      if attempt.Some? {
        var a := attempt.value;
        RunRecord(PendingScan(store.nextKey, draft, 0), a.user, a.at, a.scanWriteFails, frames);
      }
      var id := store.AddPendingScan(draft, stored);
      if id.Some? {
        audit := audit.(enqueued := audit.enqueued + [PendingScan(id.value, draft, 0)]);
      }
    }

    /** A request of somebody else reaches the server. */
    method ServeOther(taskId: string, call: Call)
      modifies server
      ensures server.tasks == Serve(old(server.tasks), taskId, call).0
    {
      var code := OK;
      match call.op {
        case StartTask(user, qr) => code := server.StartTask(taskId, user, qr, call.at, call.scanWriteFails);
        case CompleteTask(user, qr) => code := server.CompleteTask(taskId, user, qr, call.at, call.scanWriteFails);
        case FlagTask(user, reason) => code := server.FlagTask(taskId, user, reason, call.at, call.scanWriteFails);
        case UpdateTaskStatus(status) => code := server.UpdateTaskStatus(taskId, status, call.at);
      }
    }

    /** One event of the world outside while the flush awaits; a trigger finds the flag set and returns. */
    method Happen(e: OutsideEvent, ghost frames: seq<Frame>)
      requires Valid() && isFlushing
      modifies this`audit, store, server
      ensures Valid() && |store.Contents()| <= |old(store.Contents())| + 1
      ensures Model(frames) == Step(old(Model(frames)), e)
    {
      hide RunHandler, Serve, StepAdd;
      match e {
        case Add(draft, attempt, stored) => Queue(draft, attempt, stored, frames);
        case Trigger(_, _) =>
        case Late(i, user, at, scanWriteFails) =>
          if i < |audit.enqueued| && audit.enqueued[i].id in audit.sent {
            RunRecord(audit.enqueued[i], user, at, scanWriteFails, frames);
          }
        case Elsewhere(taskId, call) => ServeOther(taskId, call);
      }
    }

    /** Everything that goes on while the flush awaits. */
    method Await(events: seq<OutsideEvent>, ghost frames: seq<Frame>)
      requires Valid() && isFlushing
      modifies this`audit, store, server
      ensures Valid() && |store.Contents()| <= |old(store.Contents())| + |events|
      ensures Model(frames) == Run(old(Model(frames)), events)
    {
      for i := 0 to |events|
        invariant Valid() && |store.Contents()| <= |old(store.Contents())| + i
        invariant Model(frames) == Run(old(Model(frames)), events[..i])
      {
        assert events[..i + 1][..i] == events[..i];
        hide Step;
        Happen(events[i], frames);
      }
      assert events[..|events|] == events;
    }

    /** Takes the sent record out of the store; says whether the write succeeded. */
    method Remove(item: PendingScan, storageOk: bool, how: Disposition) returns (done: bool)
      requires Valid()
      modifies this`audit, store
      ensures Valid() && done == storageOk && store.nextKey == old(store.nextKey)
      ensures store.Contents() == if done then Without(old(store.Contents()), item.id) else old(store.Contents())
      ensures audit == if done then old(audit).(removed := old(audit).removed + [Removal(item.id, how)]) else old(audit)
    {
      done := store.RemovePendingScan(item.id, storageOk);
      if done {
        audit := audit.(removed := audit.removed + [Removal(item.id, how)]);
      }
    }

    /** The 5xx case: count the attempt, or dead-letter the record at the limit. */
    method SettleServerError(item: PendingScan, storageOk: bool, ghost f: Frame) returns (removed: bool)
      requires Valid() && isFlushing
      requires f.Draining? && f.pos < |f.snapshot| && f.snapshot[f.pos] == item
      modifies this`audit, store
      ensures Valid()
      ensures Failed(Tallied(old(Model([f])), item.id, storageOk), 0, storageOk) == Onward(Model([]), f, false, removed)
    {
      hide Finish, Removed, Without, Patched, InKeyOrder, At;
      removed := false;
      audit := NotedError(audit, item.id, storageOk);
      ghost var s := Model([f]);
      assert s == Tallied(old(Model([f])), item.id, storageOk);
      hide Tallied;
      var attempts := item.attempts + 1;
      if attempts >= MAX_ATTEMPTS {
        RemovedOnward(s, storageOk, DeadLettered);
        removed := Remove(item, storageOk, DeadLettered);
      } else {
        FailedOnward(s, storageOk);
        var _ := store.UpdatePendingScan(item.id, attempts, storageOk);
      }
    }

    /** The reply cases of the loop body: whether the loop goes on, and whether a record left the queue. */
    method SettleReply(item: PendingScan, reply: Reply, storageOk: bool, ghost f: Frame)
      returns (goOn: bool, removed: bool)
      requires Valid() && isFlushing
      requires f.Draining? && f.pos < |f.snapshot| && f.snapshot[f.pos] == item && f.reply == Some(reply)
      modifies this`audit, store
      ensures Valid()
      ensures goOn ==> removed
      ensures StepSettle(old(Model([f])), 0, storageOk) == Onward(Model([]), f, goOn, removed)
    {
      hide Finish, Removed, Failed, Tallied, Without, Patched, InKeyOrder, At;
      ghost var s := Model([f]);
      FinishOnward(s);
      goOn, removed := false, false;
      if reply.NetworkError? { return; }
      if 200 <= reply.status < 300 {
        RemovedOnward(s, storageOk, Accepted);
        removed := Remove(item, storageOk, Accepted);
        return removed, removed;
      }
      if reply.status == 401 { return; }
      if 400 <= reply.status < 500 {
        RemovedOnward(s, storageOk, if reply.settled then Refused else Dropped);
        removed := Remove(item, storageOk, if reply.settled then Refused else Dropped);
        return removed, removed;
      }
      if reply.status >= 500 {
        removed := SettleServerError(item, storageOk, f);
      }
    }

    /** One round of the loop: send the record, let the world go on, settle the reply. */
    method SendAndSettle(item: PendingScan, turn: Turn, user: string, ghost f: Frame)
      returns (goOn: bool, removed: bool)
      requires Valid() && isFlushing
      requires f.Draining? && f.pos < |f.snapshot| && f.snapshot[f.pos] == item && f.user == user && f.reply.None?
      modifies this`audit, store, server
      ensures Valid()
      ensures goOn ==> removed
      ensures Run(old(Model([f])), TurnEvents(turn)) == Onward(Model([]), f, goOn, removed)
    {
      TurnRun(Model([f]), turn);
      var reply := Fetch(item, user, turn.reach, turn.answer, f);
      ghost var f' := f.(reply := Some(reply));
      Await(turn.meanwhile, [f']);
      goOn, removed := SettleReply(item, reply, turn.storageOk, f');
      OnwardIgnoresReply(Model([]), f, reply, goOn, removed);
    }

    /** The loop over the snapshot, up to its end or its first `break`. */
    method Drain(queue: seq<PendingScan>, user: string, turns: seq<Turn>)
      returns (used: nat, drainedAny: bool, removals: nat)
      requires Valid() && isFlushing && 0 < |queue| <= |turns|
      modifies this`audit, store, server
      ensures Valid() && used <= |turns|
      ensures Run(old(Model([Draining(user, queue, 0, None, false, 0)])), TurnsEvents(turns[..used]))
              == Closed(Model([]), removals, drainedAny)
    {
      used, drainedAny, removals := 0, false, 0;
      ghost var m := Model([Draining(user, queue, 0, None, false, 0)]);
      var i := 0;
      while i < |queue|
        invariant Valid() && isFlushing && i == used <= |queue|
        invariant Run(m, TurnsEvents(turns[..used]))
                  == if i < |queue| then Model([Draining(user, queue, i, None, drainedAny, removals)])
                     else Closed(Model([]), removals, drainedAny)
      {
        ghost var f := Draining(user, queue, i, None, drainedAny, removals);
        TurnsSnoc(m, turns, i);
        var goOn, removed := SendAndSettle(queue[i], turns[i], user, f);
        used := i + 1;
        if removed {
          drainedAny := true;
          removals := removals + 1;
        }
        if !goOn { break; }
        i := i + 1;
      }
    }

    /** The whole of `flushQueue`: whatever happens outside at any of its awaits, it is a run of the machine. */
    method FlushQueue(onLine: bool, token: Option<string>, early: seq<OutsideEvent>, readOk: bool, turns: seq<Turn>)
      returns (used: nat)
      requires Valid() && |store.Contents()| + |early| <= |turns|
      modifies this, store, server
      ensures Valid() && used <= |turns|
      ensures isFlushing == old(isFlushing)
      ensures old(isFlushing) || !onLine || token.None? ==> used == 0 && Model([]) == old(Model([]))
      ensures var during := if Starts(old(isFlushing), onLine, token) then early else [];
              Model([]) == Run(old(Model([])), FlushEvents(onLine, token, during, readOk, turns[..used]))
    {
      used := 0;
      FlushStarts(Model([]), onLine, token, [], readOk, turns);
      if isFlushing { return; }
      if !onLine { return; }
      if token.None? { return; }
      isFlushing := true;
      assert StepTrigger(old(Model([])), onLine, token) == Model([Loading(token.value)]);
      Await(early, [Loading(token.value)]);
      LoadOutcome(Model([Loading(token.value)]), token.value, readOk);
      ghost var loaded := StepLoad(Model([Loading(token.value)]), 0, readOk);
      var drainedAny, removals := false, 0;
      label tried: {
        if !readOk { break tried; }
        var queue := store.GetPendingScans();
        if |queue| == 0 { break tried; }
        used, drainedAny, removals := Drain(queue, token.value, turns);
      }
      assert Run(loaded, TurnsEvents(turns[..used])) == Closed(Model([]), removals, drainedAny);
      FlushContinues(old(Model([])), onLine, token, early, readOk, turns, used);
      isFlushing := false;
      audit := audit.(flushes := audit.flushes + [FlushReport(removals, drainedAny)]);
    }
  }

  lemma TurnRun(s: System, turn: Turn)
    ensures Run(s, TurnEvents(turn))
            == StepSettle(Run(StepSend(s, 0, turn.reach, turn.answer), turn.meanwhile), 0, turn.storageOk)
  {
    var send := [Send(0, turn.reach, turn.answer)];
    RunOne(s, [], send[0]);
    RunAppend(s, send, turn.meanwhile);
    RunOne(s, send + turn.meanwhile, Settle(0, turn.storageOk));
  }

  lemma TurnsSnoc(s: System, turns: seq<Turn>, i: nat)
    requires i < |turns|
    ensures Run(s, TurnsEvents(turns[..i + 1])) == Run(Run(s, TurnsEvents(turns[..i])), TurnEvents(turns[i]))
  {
    assert turns[..i + 1][..i] == turns[..i];
    RunAppend(s, TurnsEvents(turns[..i]), TurnEvents(turns[i]));
  }

  lemma FlushStarts(s: System, onLine: bool, token: Option<string>, early: seq<OutsideEvent>, readOk: bool,
                    turns: seq<Turn>)
    ensures Run(s, FlushEvents(onLine, token, early, readOk, turns[..0]))
            == StepLoad(Run(StepTrigger(s, onLine, token), early), 0, readOk)
  {
    hide StepLoad, StepTrigger;
    var first := [Trigger(onLine, token)];
    RunOne(s, [], first[0]);
    assert [] + first == first;
    RunAppend(s, first, early);
    RunOne(s, first + early, Load(0, readOk));
    assert FlushEvents(onLine, token, early, readOk, turns[..0]) == first + early + [Load(0, readOk)];
  }

  lemma FlushContinues(s: System, onLine: bool, token: Option<string>, early: seq<OutsideEvent>, readOk: bool,
                       turns: seq<Turn>, used: nat)
    requires used <= |turns|
    ensures Run(s, FlushEvents(onLine, token, early, readOk, turns[..used]))
            == Run(StepLoad(Run(StepTrigger(s, onLine, token), early), 0, readOk), TurnsEvents(turns[..used]))
  {
    FlushStarts(s, onLine, token, early, readOk, turns);
    var start := FlushEvents(onLine, token, early, readOk, turns[..0]);
    assert FlushEvents(onLine, token, early, readOk, turns[..used]) == start + TurnsEvents(turns[..used]);
    RunAppend(s, start, TurnsEvents(turns[..used]));
  }
}
