/**
 The task handlers of the backend. Each handler reads one row, checks it and updates it; the model
 treats a handler as one atomic step, except that the scan row written after the task row may fail
 on its own (`scanWriteFails`).
 */
module TaskServer {
  import opened Domain

  datatype ScanKind = CHECK_IN | CHECK_OUT

  datatype ScanRow = ScanRow(userId: string, kind: ScanKind, token: string, at: Time)

  /** A task row together with the scan rows that refer to it. */
  datatype Task = Task(
    owner: Option<string>,
    status: Status,
    startedAt: Option<Time>,
    completedAt: Option<Time>,
    durationSec: Option<nat>,
    scans: seq<ScanRow>)

  datatype Op =
    | StartTask(userId: string, qrCode: string)
    | CompleteTask(userId: string, qrCode: string)
    | FlagTask(userId: string, reason: string)
    | UpdateTaskStatus(newStatus: Status)

  /** One request: what is asked, when the handler reads the clock, and whether its scan write fails. */
  datatype Call = Call(op: Op, at: Time, scanWriteFails: bool)

  datatype Outcome = Outcome(task: Task, code: nat)

  type Database = map<string, Task>

  const OK := 200
  const BAD_REQUEST := 400
  const NOT_FOUND := 404
  const SERVER_ERROR := 500

  predicate Owns(op: Op, task: Task)
  {
    op.UpdateTaskStatus? || Some(op.userId) == task.owner
  }

  function WithScan(task: Task, scan: ScanRow, fails: bool): Outcome
  {
    if scan.token == "" then Outcome(task, OK)
    else if fails then Outcome(task, SERVER_ERROR)
    else Outcome(task.(scans := task.scans + [scan]), OK)
  }

  function DurationSec(startedAt: Option<Time>, now: Time): nat
  {
    var start := if startedAt.Some? then startedAt.value else now;
    if now < start then 0 else (now - start) / 1000
  }

  function SetStatus(task: Task, newStatus: Status, now: Time): Outcome
  {
    if task.status == newStatus then Outcome(task, OK)
    else if task.status == DONE || task.status == MISSED then Outcome(task, BAD_REQUEST)
    else if newStatus == DONE && task.status != IN_PROGRESS then Outcome(task, BAD_REQUEST)
    else if newStatus == IN_PROGRESS then Outcome(task.(status := IN_PROGRESS, startedAt := Some(now)), OK)
    else if newStatus == DONE then
      Outcome(task.(status := DONE, completedAt := Some(now),
                    durationSec := Some(DurationSec(task.startedAt, now))), OK)
    else Outcome(task.(status := newStatus), OK)
  }

  /** What a handler does to an existing row, and the HTTP code it answers. */
  function Handle(task: Task, call: Call): Outcome
  {
    match call.op
    case StartTask(user, qr) =>
      if !Owns(call.op, task) then Outcome(task, BAD_REQUEST)
      else if task.status != SCHEDULED && task.status != PENDING then Outcome(task, BAD_REQUEST)
      else WithScan(task.(status := IN_PROGRESS, startedAt := Some(call.at)),
                    ScanRow(user, CHECK_IN, qr, call.at), call.scanWriteFails)
    case CompleteTask(user, qr) =>
      if !Owns(call.op, task) then Outcome(task, BAD_REQUEST)
      else if task.status != IN_PROGRESS then Outcome(task, BAD_REQUEST)
      else WithScan(task.(status := DONE, completedAt := Some(call.at)),
                    ScanRow(user, CHECK_OUT, qr, call.at), call.scanWriteFails)
    case FlagTask(user, reason) =>
      if reason == "" || !Owns(call.op, task) then Outcome(task, BAD_REQUEST)
      else Outcome(task.(status := FLAGGED), OK)
    case UpdateTaskStatus(newStatus) => SetStatus(task, newStatus, call.at)
  }

  /** The same on the whole table, where the row may be missing. */
  function Serve(db: Database, id: string, call: Call): (Database, nat)
  {
    if call.op.FlagTask? && call.op.reason == "" then (db, BAD_REQUEST)
    else if id !in db then (db, NOT_FOUND)
    else var r := Handle(db[id], call); (db[id := r.task], r.code)
  }

  /** Folds the handlers over a sequence of calls, oldest first. */
  function Replay(task: Task, calls: seq<Call>): Task
  {
    if calls == [] then task
    else Handle(Replay(task, calls[..|calls| - 1]), calls[|calls| - 1]).task
  }

  // ---- What a handler does, column by column --------------------------------------------------

  /** The scan of an accepted action is stored with it, unless there is none or its write fails. */
  predicate ScanStored(before: Task, after: Task, scan: ScanRow, fails: bool, code: nat)
  {
    && after.scans == (if scan.token != "" && !fails then before.scans + [scan] else before.scans)
    && code == (if scan.token != "" && fails then 500 else 200)
  }

  predicate Started(before: Task, after: Task, user: string, qrCode: string, now: Time, fails: bool, code: nat)
  {
    && after.status == IN_PROGRESS && after.startedAt == Some(now)
    && after.owner == before.owner && after.completedAt == before.completedAt && after.durationSec == before.durationSec
    && ScanStored(before, after, ScanRow(user, CHECK_IN, qrCode, now), fails, code)
  }

  predicate Completed(before: Task, after: Task, user: string, qrCode: string, now: Time, fails: bool, code: nat)
  {
    && after.status == DONE && after.completedAt == Some(now)
    && after.owner == before.owner && after.startedAt == before.startedAt && after.durationSec == before.durationSec
    && ScanStored(before, after, ScanRow(user, CHECK_OUT, qrCode, now), fails, code)
  }

  /** Nothing but the status changes. */
  predicate OnlyStatus(before: Task, after: Task, status: Status)
  {
    && after.status == status && after.owner == before.owner && after.startedAt == before.startedAt
    && after.completedAt == before.completedAt && after.durationSec == before.durationSec && after.scans == before.scans
  }

  /** The asked status, and the stamps that belong to it: a start or an end now, with the duration since the start. */
  predicate StatusSet(before: Task, after: Task, status: Status, now: Time)
  {
    && after.status == status && after.owner == before.owner && after.scans == before.scans
    && after.startedAt == (if status == IN_PROGRESS then Some(now) else before.startedAt)
    && after.completedAt == (if status == DONE then Some(now) else before.completedAt)
    && (status != DONE ==> after.durationSec == before.durationSec)
    && (status == DONE ==>
          && after.durationSec.Some?
          && var ms := if before.startedAt.Some? then now - before.startedAt.value else 0;
             if ms < 0 then after.durationSec.value == 0
             else 1000 * after.durationSec.value <= ms < 1000 * (after.durationSec.value + 1))
  }

  /** A status update is refused on a finished row, and for a completion of a row that is not running. */
  predicate UpdateRefused(before: Task, status: Status)
  {
    before.status != status
    && (before.status == DONE || before.status == MISSED || (status == DONE && before.status != IN_PROGRESS))
  }

  predicate Untouched(db: Database, after: Database, id: string)
  {
    after - {id} == db - {id} && (id in after <==> id in db)
  }

  class TasksService {
    var tasks: Database

    constructor (tasks: Database)
      ensures this.tasks == tasks
    {
      this.tasks := tasks;
    }

    method StartTask(id: string, userId: string, qrCode: string, now: Time, scanWriteFails: bool) returns (code: nat)
      modifies this
      ensures id !in old(tasks) ==> code == 404 && tasks == old(tasks)
      ensures id in old(tasks) ==>
                var before := old(tasks)[id];
                if before.owner == Some(userId) && before.status in {SCHEDULED, PENDING}
                then && Untouched(old(tasks), tasks, id)
                     && Started(before, tasks[id], userId, qrCode, now, scanWriteFails, code)
                else code == 400 && tasks == old(tasks)
      ensures (tasks, code) == Serve(old(tasks), id, Call(Op.StartTask(userId, qrCode), now, scanWriteFails))
    {
      if id !in tasks { return NOT_FOUND; }
      var task := tasks[id];
      assert tasks[id := task] == tasks;
      if task.owner != Some(userId) { return BAD_REQUEST; }
      if task.status != SCHEDULED && task.status != PENDING { return BAD_REQUEST; }
      tasks := tasks[id := task.(status := IN_PROGRESS, startedAt := Some(now))];
      if qrCode != "" {
        if scanWriteFails { return SERVER_ERROR; }
        tasks := tasks[id := tasks[id].(scans := task.scans + [ScanRow(userId, CHECK_IN, qrCode, now)])];
        assert tasks == old(tasks)[id := tasks[id]];
      }
      code := OK;
    }

    method CompleteTask(id: string, userId: string, qrCode: string, now: Time, scanWriteFails: bool) returns (code: nat)
      modifies this
      ensures id !in old(tasks) ==> code == 404 && tasks == old(tasks)
      ensures id in old(tasks) ==>
                var before := old(tasks)[id];
                if before.owner == Some(userId) && before.status == IN_PROGRESS
                then && Untouched(old(tasks), tasks, id)
                     && Completed(before, tasks[id], userId, qrCode, now, scanWriteFails, code)
                else code == 400 && tasks == old(tasks)
      ensures (tasks, code) == Serve(old(tasks), id, Call(Op.CompleteTask(userId, qrCode), now, scanWriteFails))
    {
      if id !in tasks { return NOT_FOUND; }
      var task := tasks[id];
      assert tasks[id := task] == tasks;
      if task.owner != Some(userId) { return BAD_REQUEST; }
      if task.status != IN_PROGRESS { return BAD_REQUEST; }
      tasks := tasks[id := task.(status := DONE, completedAt := Some(now))];
      if qrCode != "" {
        if scanWriteFails { return SERVER_ERROR; }
        tasks := tasks[id := tasks[id].(scans := task.scans + [ScanRow(userId, CHECK_OUT, qrCode, now)])];
        assert tasks == old(tasks)[id := tasks[id]];
      }
      code := OK;
    }

    method FlagTask(id: string, userId: string, reason: string, now: Time, scanWriteFails: bool) returns (code: nat)
      modifies this
      ensures reason == "" ==> code == 400 && tasks == old(tasks)
      ensures reason != "" && id !in old(tasks) ==> code == 404 && tasks == old(tasks)
      ensures reason != "" && id in old(tasks) ==>
                var before := old(tasks)[id];
                if before.owner == Some(userId)
                then code == 200 && Untouched(old(tasks), tasks, id) && OnlyStatus(before, tasks[id], FLAGGED)
                else code == 400 && tasks == old(tasks)
      ensures (tasks, code) == Serve(old(tasks), id, Call(Op.FlagTask(userId, reason), now, scanWriteFails))
    {
      if reason == "" { return BAD_REQUEST; }
      if id !in tasks { return NOT_FOUND; }
      var task := tasks[id];
      assert tasks[id := task] == tasks;
      if task.owner != Some(userId) { return BAD_REQUEST; }
      tasks := tasks[id := task.(status := FLAGGED)];
      code := OK;
    }

    method UpdateTaskStatus(id: string, newStatus: Status, now: Time) returns (code: nat)
      modifies this
      ensures id !in old(tasks) ==> code == 404 && tasks == old(tasks)
      ensures id in old(tasks) ==>
                var before := old(tasks)[id];
                if UpdateRefused(before, newStatus) then code == 400 && tasks == old(tasks)
                else if before.status == newStatus then code == 200 && tasks == old(tasks)
                else code == 200 && Untouched(old(tasks), tasks, id) && StatusSet(before, tasks[id], newStatus, now)
      ensures (tasks, code) == Serve(old(tasks), id, Call(Op.UpdateTaskStatus(newStatus), now, false))
    {
      if id !in tasks { return NOT_FOUND; }
      var task := tasks[id];
      assert tasks[id := task] == tasks;
      if task.status == newStatus {
        return OK;
      }
      if task.status == DONE || task.status == MISSED { return BAD_REQUEST; }
      if newStatus == DONE && task.status != IN_PROGRESS { return BAD_REQUEST; }
      var updated := task.(status := newStatus);
      if newStatus == IN_PROGRESS {
        updated := updated.(startedAt := Some(now));
      }
      if newStatus == DONE {
        var startTime := if task.startedAt.Some? then task.startedAt.value else now;
        // Math.floor on a possibly negative difference, then Math.max(0, .)
        var seconds := (now - startTime) / 1000;
        updated := updated.(completedAt := Some(now), durationSec := Some(if seconds < 0 then 0 else seconds));
      }
      tasks := tasks[id := updated];
      code := OK;
    }
  }

  lemma StartOutcome(task: Task, user: string, qrCode: string, now: Time, fails: bool)
    ensures var r := Handle(task, Call(StartTask(user, qrCode), now, fails));
            if task.owner == Some(user) && task.status in {SCHEDULED, PENDING}
            then Started(task, r.task, user, qrCode, now, fails, r.code) else r == Outcome(task, 400)
  {
  }

  lemma CompleteOutcome(task: Task, user: string, qrCode: string, now: Time, fails: bool)
    ensures var r := Handle(task, Call(CompleteTask(user, qrCode), now, fails));
            if task.owner == Some(user) && task.status == IN_PROGRESS
            then Completed(task, r.task, user, qrCode, now, fails, r.code) else r == Outcome(task, 400)
  {
  }

  lemma FlagOutcome(task: Task, user: string, reason: string, now: Time, fails: bool)
    ensures var r := Handle(task, Call(FlagTask(user, reason), now, fails));
            if task.owner == Some(user) && reason != ""
            then OnlyStatus(task, r.task, FLAGGED) && r.code == 200 else r == Outcome(task, 400)
  {
  }

  lemma StatusOutcome(task: Task, status: Status, now: Time, fails: bool)
    ensures var r := Handle(task, Call(UpdateTaskStatus(status), now, fails));
            if UpdateRefused(task, status) then r == Outcome(task, 400)
            else if task.status == status then r == Outcome(task, 200)
            else StatusSet(task, r.task, status, now) && r.code == 200
  {
  }

  /** On the table: a missing row is a 404, unless a missing reason is noticed first, and no other row is touched. */
  lemma ServeOutcome(db: Database, id: string, call: Call)
    ensures var (after, code) := Serve(db, id, call);
            && Untouched(db, after, id)
            && (call.op.FlagTask? && call.op.reason == "" ==> after == db && code == 400)
            && (id !in db && !(call.op.FlagTask? && call.op.reason == "") ==> after == db && code == 404)
            && (id in db ==> Outcome(after[id], code) == Handle(db[id], call))
  {
    var after := Serve(db, id, call).0;
    assert after - {id} == db - {id};
  }

  // ---- What the handlers keep over whole runs -------------------------------------------------

  predicate Fresh(task: Task)
  {
    task.status == SCHEDULED && task.startedAt == None && task.completedAt == None && task.durationSec == None
  }

  ghost predicate MonotoneClock(calls: seq<Call>)
  {
    forall i, j | 0 <= i < j < |calls| :: calls[i].at <= calls[j].at
  }

  ghost predicate NoFlag(calls: seq<Call>)
  {
    forall i | 0 <= i < |calls| :: !calls[i].op.FlagTask?
  }

  ghost predicate StampedBy(t: Task, now: Time)
  {
    && (t.startedAt.Some? ==> t.startedAt.value <= now)
    && (t.completedAt.Some? ==> t.completedAt.value <= now)
    && (t.status == IN_PROGRESS ==> t.startedAt.Some?)
    && (t.status == DONE ==>
          t.startedAt.Some? && t.completedAt.Some? && t.startedAt.value <= t.completedAt.value)
  }

  lemma StampedStep(task: Task, call: Call, before: Time)
    requires StampedBy(task, before) && before <= call.at
    ensures StampedBy(Handle(task, call).task, call.at)
  {
  }

  /** Over every mix of the four handlers the timestamps of a running or finished task are in order. */
  lemma {:induction false} TimestampsInOrder(task: Task, calls: seq<Call>)
    requires Fresh(task) && MonotoneClock(calls)
    ensures var t := Replay(task, calls);
            && (t.startedAt.Some? ==> calls != [] && t.startedAt.value <= calls[|calls| - 1].at)
            && (t.completedAt.Some? ==> calls != [] && t.completedAt.value <= calls[|calls| - 1].at)
            && (t.status == IN_PROGRESS ==> t.startedAt.Some?)
            && (t.status == DONE ==>
                  t.startedAt.Some? && t.completedAt.Some? && t.startedAt.value <= t.completedAt.value)
  {
    if calls != [] {
      hide Handle, Replay;
      var n := |calls| - 1;
      MonotonePrefix(calls);
      hide MonotoneClock;
      TimestampsInOrder(task, calls[..n]);
      ReplayLast(task, calls);
      StampedStep(Replay(task, calls[..n]), calls[n], if n == 0 then 0 else calls[n - 1].at);
    }
  }

  /** Without flagging, a finished row is frozen: no later call of the run changes any field. */
  lemma {:induction false} FinishedIsFrozen(task: Task, calls: seq<Call>, i: nat)
    requires NoFlag(calls) && i <= |calls|
    requires var s := Replay(task, calls[..i]).status; s == DONE || s == MISSED
    ensures Replay(task, calls) == Replay(task, calls[..i])
    decreases |calls|
  {
    if i < |calls| {
      var n := |calls| - 1;
      assert calls[..n][..i] == calls[..i];
      FinishedIsFrozen(task, calls[..n], i);
    } else {
      assert calls[..i] == calls;
    }
  }

  /** A handler moves a DONE or MISSED row exactly when it is the owner flagging it with a reason. */
  lemma LeavesFinishedIff(task: Task, call: Call)
    requires task.status == DONE || task.status == MISSED
    ensures Handle(task, call).task != task
            <==> call.op.FlagTask? && call.op.reason != "" && Some(call.op.userId) == task.owner
  {
    match call.op
    case FlagTask(user, reason) =>
      if reason != "" && Some(user) == task.owner {
        assert Handle(task, call).task.status == FLAGGED;
      }
    case _ =>
  }

  /** DONE is only ever entered from IN_PROGRESS, whichever handler is called. */
  lemma DoneOnlyFromInProgress(task: Task, call: Call)
    ensures task.status != DONE && Handle(task, call).task.status == DONE ==> task.status == IN_PROGRESS
  {
    match call.op
    case StartTask(_, _) =>
    case CompleteTask(_, _) =>
    case FlagTask(_, _) =>
    case UpdateTaskStatus(_) =>
  }

  ghost predicate FinishedBy(task: Task, calls: seq<Call>, k: nat)
  {
    k < |calls| && Replay(task, calls[..k]).status != DONE && Replay(task, calls[..k + 1]).status == DONE
  }

  ghost predicate DurationExact(t: Task)
  {
    t.durationSec.Some? ==>
      && t.startedAt.Some? && t.completedAt.Some?
      && 1000 * t.durationSec.value <= t.completedAt.value - t.startedAt.value < 1000 * (t.durationSec.value + 1)
  }

  /** The owner flags a DONE row with a reason: the one call that takes a row out of DONE. */
  predicate FlagsDone(task: Task, call: Call)
  {
    task.status == DONE && call.op.FlagTask? && call.op.reason != "" && Some(call.op.userId) == task.owner
  }

  ghost predicate NeverFlagsDone(task: Task, calls: seq<Call>)
  {
    forall i | 0 <= i < |calls| :: !FlagsDone(Replay(task, calls[..i]), calls[i])
  }

  predicate CompletedMarksDone(task: Task)
  {
    task.completedAt.Some? <==> task.status == DONE
  }

  lemma NeverFlagsDonePrefix(task: Task, calls: seq<Call>, n: nat)
    requires NeverFlagsDone(task, calls) && n <= |calls|
    ensures NeverFlagsDone(task, calls[..n])
    ensures n < |calls| ==> !FlagsDone(Replay(task, calls[..n]), calls[n])
  {
    hide FlagsDone, Replay;
    forall i | 0 <= i < n ensures !FlagsDone(Replay(task, calls[..n][..i]), calls[..n][i]) {
      assert calls[..n][..i] == calls[..i];
    }
  }

  lemma ReplayLast(task: Task, calls: seq<Call>)
    requires calls != []
    ensures Replay(task, calls) == Handle(Replay(task, calls[..|calls| - 1]), calls[|calls| - 1]).task
  {
    hide Handle;
  }

  lemma MarkedStep(task: Task, call: Call)
    requires CompletedMarksDone(task) && !FlagsDone(task, call)
    requires task.durationSec.Some? ==> task.status == DONE
    ensures CompletedMarksDone(Handle(task, call).task)
    ensures Handle(task, call).task.durationSec.Some? ==> Handle(task, call).task.status == DONE
  {
  }

  lemma {:induction false} NeverFlaggedIsMarked(task: Task, calls: seq<Call>)
    requires Fresh(task) && NeverFlagsDone(task, calls)
    ensures CompletedMarksDone(Replay(task, calls))
    ensures Replay(task, calls).durationSec.Some? ==> Replay(task, calls).status == DONE
  {
    if calls != [] {
      hide *;
      var n := |calls| - 1;
      NeverFlagsDonePrefix(task, calls, n);
      NeverFlaggedIsMarked(task, calls[..n]);
      ReplayLast(task, calls);
      MarkedStep(Replay(task, calls[..n]), calls[n]);
    }
  }

  lemma FlaggingDoneIsVisible(task: Task, call: Call)
    requires FlagsDone(task, call) && CompletedMarksDone(task)
    ensures !CompletedMarksDone(Handle(task, call).task)
  {
  }

  /** Throughout a run completedAt marks exactly the DONE rows if and only if no DONE row is flagged. */
  lemma CompletedExactlyWhenDoneIff(task: Task, calls: seq<Call>)
    requires Fresh(task)
    ensures (forall k | 0 <= k <= |calls| :: CompletedMarksDone(Replay(task, calls[..k])))
            <==> NeverFlagsDone(task, calls)
  {
    hide Replay, Handle, FlagsDone, CompletedMarksDone, Fresh;
    if NeverFlagsDone(task, calls) {
      forall k | 0 <= k <= |calls| ensures CompletedMarksDone(Replay(task, calls[..k])) {
        NeverFlagsDonePrefix(task, calls, k);
        NeverFlaggedIsMarked(task, calls[..k]);
      }
    } else {
      var i :| 0 <= i < |calls| && FlagsDone(Replay(task, calls[..i]), calls[i]);
      assert calls[..i + 1][..i] == calls[..i];
      ReplayLast(task, calls[..i + 1]);
      if CompletedMarksDone(Replay(task, calls[..i])) {
        FlaggingDoneIsVisible(Replay(task, calls[..i]), calls[i]);
      }
    }
  }

  /** As long as no DONE row is flagged, a recorded duration is that of the timestamps, on DONE rows only. */
  lemma {:induction false} DurationsAreExact(task: Task, calls: seq<Call>)
    requires Fresh(task) && MonotoneClock(calls) && NeverFlagsDone(task, calls)
    ensures var t := Replay(task, calls); DurationExact(t) && (t.durationSec.Some? ==> t.status == DONE)
  {
    NeverFlaggedIsMarked(task, calls);
    if calls != [] {
      var n := |calls| - 1;
      MonotonePrefix(calls);
      hide *;
      NeverFlagsDonePrefix(task, calls, n);
      DurationsAreExact(task, calls[..n]);
      NeverFlaggedIsMarked(task, calls[..n]);
      RunningStarted(task, calls);
      ReplayLast(task, calls);
      LastCallIsExact(Replay(task, calls[..n]), calls[n]);
    }
  }

  lemma MonotonePrefix(calls: seq<Call>)
    requires MonotoneClock(calls) && calls != []
    ensures MonotoneClock(calls[..|calls| - 1])
    ensures |calls| >= 2 ==> calls[|calls| - 2].at <= calls[|calls| - 1].at
  {
    var n := |calls| - 1;
    assert forall i | 0 <= i < n :: calls[..n][i] == calls[i];
  }

  lemma RunningStarted(task: Task, calls: seq<Call>)
    requires Fresh(task) && MonotoneClock(calls) && calls != []
    ensures var t := Replay(task, calls[..|calls| - 1]);
            t.status == IN_PROGRESS ==> t.startedAt.Some? && t.startedAt.value <= calls[|calls| - 1].at
  {
    MonotonePrefix(calls);
    hide Replay, MonotoneClock, Fresh;
    TimestampsInOrder(task, calls[..|calls| - 1]);
  }

  /** One more call on a row whose timestamps are in order. */
  lemma LastCallIsExact(task: Task, call: Call)
    requires DurationExact(task) && CompletedMarksDone(task) && !FlagsDone(task, call)
    requires task.durationSec.Some? ==> task.status == DONE
    requires task.status == IN_PROGRESS ==> task.startedAt.Some? && task.startedAt.value <= call.at
    ensures DurationExact(Handle(task, call).task)
  {
  }

  /** A staff completion leaves the duration column alone, which is right exactly if it is empty or happens to fit. */
  lemma CompletionIsExactIff(task: Task, user: string, qrCode: string, now: Time, scanWriteFails: bool)
    requires task.owner == Some(user) && task.status == IN_PROGRESS
    requires task.startedAt.Some? && task.startedAt.value <= now
    ensures var after := Handle(task, Call(CompleteTask(user, qrCode), now, scanWriteFails)).task;
            && after.status == DONE
            && (DurationExact(after)
                <==> task.durationSec == None || task.durationSec == Some(DurationSec(task.startedAt, now)))
  {
    if task.durationSec.Some? {
      var d, ms := task.durationSec.value, now - task.startedAt.value;
      assert 1000 * d <= ms < 1000 * (d + 1) <==> d == ms / 1000;
    }
  }

  lemma NoFlagNeverFlagsDone(task: Task, calls: seq<Call>)
    requires NoFlag(calls)
    ensures NeverFlagsDone(task, calls)
  {
  }

  /** In particular without flagging at all. */
  lemma CompletedExactlyWhenDone(task: Task, calls: seq<Call>)
    requires Fresh(task) && MonotoneClock(calls) && NoFlag(calls)
    ensures var t := Replay(task, calls);
            && (t.completedAt.Some? <==> t.status == DONE)
            && (t.durationSec.Some? ==> t.status == DONE)
            && DurationExact(t)
  {
    NoFlagNeverFlagsDone(task, calls);
    NeverFlaggedIsMarked(task, calls);
    DurationsAreExact(task, calls);
  }

  /** Only the supervisor path records a duration: a staff completion leaves it empty. */
  lemma {:induction false} DurationOnlyFromStatusUpdate(task: Task, calls: seq<Call>, k: nat)
    requires Fresh(task) && MonotoneClock(calls) && NoFlag(calls) && FinishedBy(task, calls, k)
    ensures Replay(task, calls).durationSec.Some? <==> calls[k].op.UpdateTaskStatus?
  {
    FinishedIsFrozen(task, calls, k + 1);
    assert calls[..k + 1][..k] == calls[..k];
    assert forall i | 0 <= i < k :: calls[..k][i] == calls[i];
    CompletedExactlyWhenDone(task, calls[..k]);
  }

  /** Once a DONE row is flagged, a second completion can show the duration of the first one. */
  lemma StaleDurationAfterFlag(user: string)
    ensures var task := Task(Some(user), SCHEDULED, None, None, None, []);
            var calls := [Call(UpdateTaskStatus(IN_PROGRESS), 0, false), Call(UpdateTaskStatus(DONE), 9000, false),
                          Call(FlagTask(user, "x"), 9000, false), Call(UpdateTaskStatus(SCHEDULED), 9000, false),
                          Call(StartTask(user, ""), 9000, false), Call(CompleteTask(user, ""), 10000, false)];
            MonotoneClock(calls) && Replay(task, calls).status == DONE && !DurationExact(Replay(task, calls))
  {
    var task := Task(Some(user), SCHEDULED, None, None, None, []);
    var c := [Call(UpdateTaskStatus(IN_PROGRESS), 0, false), Call(UpdateTaskStatus(DONE), 9000, false),
              Call(FlagTask(user, "x"), 9000, false), Call(UpdateTaskStatus(SCHEDULED), 9000, false),
              Call(StartTask(user, ""), 9000, false), Call(CompleteTask(user, ""), 10000, false)];
    assert c[..6] == c;
    assert Replay(task, c[..0]) == task;
    forall i | 0 <= i < 6 ensures Replay(task, c[..i + 1]) == Handle(Replay(task, c[..i]), c[i]).task {
      assert c[..i + 1][..i] == c[..i];
    }
    hide Replay;
    assert Replay(task, c[..1]).startedAt == Some(0);
    assert Replay(task, c[..2]).durationSec == Some(9);
    assert Replay(task, c[..3]).status == FLAGGED;
    assert Replay(task, c[..4]).status == SCHEDULED;
    assert Replay(task, c[..5]).startedAt == Some(9000);
    assert Replay(task, c[..6]).completedAt == Some(10000);
  }
}
