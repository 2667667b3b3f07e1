/** What every run of the outbox keeps, whatever the network, the storage and the triggers do. */
module OutboxInvariants {
  import opened Domain
  import opened TaskServer
  import opened Outbox

  ghost predicate Increasing(q: seq<PendingScan>)
  {
    forall i, j | 0 <= i < j < |q| :: q[i].id < q[j].id
  }

  /** Removed records followed by pending ones are exactly the enqueue history. */
  ghost predicate Fifo(enqueued: seq<PendingScan>, removed: seq<Removal>, pending: seq<PendingScan>, nextKey: nat)
  {
    && Increasing(enqueued)
    && (forall i | 0 <= i < |enqueued| :: enqueued[i].id < nextKey && enqueued[i].attempts == 0)
    && |enqueued| == |removed| + |pending|
    && (forall i | 0 <= i < |removed| :: removed[i].id == enqueued[i].id)
    && (forall j | 0 <= j < |pending| :: pending[j].(attempts := 0) == enqueued[|removed| + j])
    && (forall j | 0 <= j < |pending| :: pending[j].attempts < MAX_ATTEMPTS)
  }

  /** What is left of the snapshot is still the front of the queue, attempts included. */
  ghost predicate FrameOk(pending: seq<PendingScan>, f: Frame)
  {
    f.Draining? ==>
      && f.pos < |f.snapshot|
      && f.snapshot[f.pos..] <= pending
      && (f.drainedAny <==> f.removals > 0)
  }

  ghost predicate Reports(flushes: seq<FlushReport>)
  {
    forall i | 0 <= i < |flushes| :: flushes[i].notified <==> flushes[i].removals > 0
  }

  ghost predicate Inv(s: System)
  {
    && Fifo(s.audit.enqueued, s.audit.removed, s.pending, s.nextKey)
    && |s.frames| <= 1
    && (s.isFlushing <==> |s.frames| == 1)
    && (|s.frames| == 1 ==> FrameOk(s.pending, s.frames[0]))
    && Reports(s.audit.flushes)
  }

  lemma InitialInv(task: string, db: Database)
    ensures Inv(Initial(task, db))
  {
  }

  lemma PendingIncreasing(enqueued: seq<PendingScan>, removed: seq<Removal>, pending: seq<PendingScan>, nextKey: nat)
    requires Fifo(enqueued, removed, pending, nextKey)
    ensures Increasing(pending)
    ensures forall j | 0 <= j < |pending| :: pending[j].id == enqueued[|removed| + j].id < nextKey
  {
    forall j | 0 <= j < |pending| ensures pending[j].id == enqueued[|removed| + j].id {
      assert pending[j].(attempts := 0) == enqueued[|removed| + j];
    }
  }

  lemma {:induction false} WithoutAbsent(q: seq<PendingScan>, id: nat)
    requires forall j | 0 <= j < |q| :: q[j].id != id
    ensures Without(q, id) == q
  {
    if q != [] {
      WithoutAbsent(q[1..], id);
    }
  }

  lemma WithoutHead(q: seq<PendingScan>)
    requires q != [] && Increasing(q)
    ensures Without(q, q[0].id) == q[1..]
  {
    WithoutAbsent(q[1..], q[0].id);
  }

  lemma FifoDequeue(enqueued: seq<PendingScan>, removed: seq<Removal>, pending: seq<PendingScan>, nextKey: nat,
                    how: Disposition)
    requires Fifo(enqueued, removed, pending, nextKey) && pending != []
    ensures Without(pending, pending[0].id) == pending[1..]
    ensures Fifo(enqueued, removed + [Removal(pending[0].id, how)], pending[1..], nextKey)
  {
    PendingIncreasing(enqueued, removed, pending, nextKey);
    WithoutHead(pending);
    hide Without, Increasing;
  }

  lemma FifoPatch(enqueued: seq<PendingScan>, removed: seq<Removal>, pending: seq<PendingScan>, nextKey: nat,
                  attempts: nat)
    requires Fifo(enqueued, removed, pending, nextKey) && pending != [] && attempts < MAX_ATTEMPTS
    ensures Fifo(enqueued, removed, Patched(pending, pending[0].id, attempts), nextKey)
  {
    var q := Patched(pending, pending[0].id, attempts);
    forall j | 0 <= j < |q| ensures q[j].(attempts := 0) == enqueued[|removed| + j] && q[j].attempts < MAX_ATTEMPTS {
      assert pending[j].(attempts := 0) == enqueued[|removed| + j];
    }
  }

  lemma FifoEnqueue(enqueued: seq<PendingScan>, removed: seq<Removal>, pending: seq<PendingScan>, nextKey: nat,
                    draft: Draft)
    requires Fifo(enqueued, removed, pending, nextKey)
    ensures var r := PendingScan(nextKey, draft, 0); Fifo(enqueued + [r], removed, pending + [r], nextKey + 1)
  {
  }

  lemma FinishKeeps(s: System)
    requires Fifo(s.audit.enqueued, s.audit.removed, s.pending, s.nextKey) && Reports(s.audit.flushes)
    requires |s.frames| == 1 && (s.frames[0].Draining? ==> (s.frames[0].drainedAny <==> s.frames[0].removals > 0))
    ensures Inv(Finish(s, 0))
  {
  }

  predicate ServerError(reply: Reply)
  {
    reply.Response? && reply.status >= 500
  }

  /** Whether and how a record leaves on a reply, provided that the removal is written. */
  function Verdict(reply: Reply, attempts: nat): Option<Disposition>
  {
    if reply.NetworkError? || reply.status == 401 then None
    else if 200 <= reply.status < 300 then Some(Accepted)
    else if 400 <= reply.status < 500 then Some(if reply.settled then Refused else Dropped)
    else if reply.status >= 500 && attempts + 1 >= MAX_ATTEMPTS then Some(DeadLettered)
    else None
  }

  /** The frame that goes on to the next record. */
  function NextFrame(f: Frame): Frame
    requires f.Draining?
  {
    f.(pos := f.pos + 1, reply := None, drainedAny := true, removals := f.removals + 1)
  }

  /** The records and answers that a settled reply accounts for. */
  ghost predicate QueueSettled(s: System, s': System, item: PendingScan, reply: Reply, ok: bool)
  {
    var how := Verdict(reply, item.attempts);
    && s'.audit.removed
         == (if ok && how.Some? then s.audit.removed + [Removal(item.id, how.value)] else s.audit.removed)
    && s'.pending == (if !ok then s.pending
                      else if how.Some? then Without(s.pending, item.id)
                      else if ServerError(reply) then Patched(s.pending, item.id, item.attempts + 1)
                      else s.pending)
    && s'.audit.errors == (if ServerError(reply) then s.audit.errors[item.id := At(s.audit.errors, item.id) + 1]
                           else s.audit.errors)
    && s'.audit.missed == (if ServerError(reply) && !ok then s.audit.missed[item.id := At(s.audit.missed, item.id) + 1]
                           else s.audit.missed)
  }

  /** Nothing but the queue, its bookkeeping and the activations changes. */
  ghost predicate RestUnchanged(s: System, s': System)
  {
    && s'.db == s.db && s'.nextKey == s.nextKey
    && s'.audit.task == s.audit.task && s'.audit.origin == s.audit.origin && s'.audit.enqueued == s.audit.enqueued
    && s'.audit.effects == s.audit.effects && s'.audit.sent == s.audit.sent
  }

  /** The activation goes on with the next record, or ends with a report of all it removed. */
  ghost predicate FrameSettled(s: System, s': System, f: Frame, removed: bool, goOn: bool)
    requires f.Draining?
  {
    if goOn && f.pos + 1 < |f.snapshot|
    then s'.frames == [NextFrame(f)] && s'.isFlushing == s.isFlushing && s'.audit.flushes == s.audit.flushes
    else
      && s'.frames == [] && !s'.isFlushing
      && s'.audit.flushes
           == s.audit.flushes + [FlushReport(f.removals + (if removed then 1 else 0), f.drainedAny || removed)]
  }

  ghost predicate Settles(s: System, s': System, ok: bool)
    requires Busy(s, 0) && s.frames[0].reply.Some?
  {
    var f := s.frames[0];
    var item := f.snapshot[f.pos];
    var how := Verdict(f.reply.value, item.attempts);
    && QueueSettled(s, s', item, f.reply.value, ok)
    && RestUnchanged(s, s')
    && FrameSettled(s, s', f, ok && how.Some?, ok && how.Some? && how.value != DeadLettered)
  }

  lemma FinishSettles(s: System)
    requires |s.frames| == 1 && Busy(s, 0)
    ensures var f := s.frames[0]; FrameSettled(s, Finish(s, 0), f, false, false) && RestUnchanged(s, Finish(s, 0))
  {
  }

  lemma RemovedSettles(s: System, ok: bool, how: Disposition)
    requires |s.frames| == 1 && Busy(s, 0)
    ensures var s' := Removed(s, 0, ok, how);
            var f := s.frames[0];
            var id := f.snapshot[f.pos].id;
            && RestUnchanged(s, s') && FrameSettled(s, s', f, ok, ok && how != DeadLettered)
            && s'.audit.removed == (if ok then s.audit.removed + [Removal(id, how)] else s.audit.removed)
            && s'.pending == (if ok then Without(s.pending, id) else s.pending)
            && s'.audit.errors == s.audit.errors && s'.audit.missed == s.audit.missed
  {
  }

  /** Settling is judged by fields that queue and bookkeeping updates leave alone. */
  ghost predicate SameRest(s: System, t: System)
  {
    RestUnchanged(s, t) && t.isFlushing == s.isFlushing && t.frames == s.frames && t.audit.flushes == s.audit.flushes
  }

  lemma FrameCarriesOver(s: System, t: System, s': System, f: Frame, removed: bool, goOn: bool)
    requires f.Draining? && SameRest(s, t) && FrameSettled(t, s', f, removed, goOn) && RestUnchanged(t, s')
    ensures FrameSettled(s, s', f, removed, goOn) && RestUnchanged(s, s')
  {
  }

  lemma FinishKeepsQueue(s: System)
    requires |s.frames| == 1
    ensures var s' := Finish(s, 0);
            && s'.pending == s.pending && s'.audit.removed == s.audit.removed
            && s'.audit.errors == s.audit.errors && s'.audit.missed == s.audit.missed
  {
  }

  lemma AttemptRecorded(s: System, ok: bool)
    requires |s.frames| == 1 && Busy(s, 0) && s.frames[0].snapshot[s.frames[0].pos].attempts + 1 < MAX_ATTEMPTS
    ensures var s' := Failed(s, 0, ok);
            var f := s.frames[0];
            f.Draining? && RestUnchanged(s, s') && FrameSettled(s, s', f, false, false)
            && ErrorRecorded(s, s', f.snapshot[f.pos], ok)
  {
    var f := s.frames[0];
    var item := f.snapshot[f.pos];
    var noted := s.(pending := Patched(s.pending, item.id, item.attempts + 1));
    assert SameRest(s, noted);
    hide Without, Patched, Removed, Finish, FrameSettled, RestUnchanged, SameRest;
    if !ok {
      FinishSettles(s);
      FinishKeepsQueue(s);
    } else {
      FinishSettles(noted);
      FinishKeepsQueue(noted);
      FrameCarriesOver(s, noted, Finish(noted, 0), f, false, false);
    }
  }

  lemma FailedRecorded(s: System, ok: bool)
    requires |s.frames| == 1 && Busy(s, 0)
    ensures var s' := Failed(s, 0, ok);
            var f := s.frames[0];
            var item := f.snapshot[f.pos];
            && f.Draining?
            && RestUnchanged(s, s') && FrameSettled(s, s', f, ok && item.attempts + 1 >= MAX_ATTEMPTS, false)
            && ErrorRecorded(s, s', item, ok)
  {
    var item := s.frames[0].snapshot[s.frames[0].pos];
    if item.attempts + 1 >= MAX_ATTEMPTS {
      hide Without, Patched, Removed, FrameSettled, RestUnchanged;
      RemovedSettles(s, ok, DeadLettered);
    } else {
      AttemptRecorded(s, ok);
    }
  }

  lemma TalliedFields(s: System, id: nat, ok: bool)
    requires |s.frames| == 1 && Busy(s, 0)
    ensures var t := Tallied(s, id, ok);
            && SameRest(s, t) && Busy(t, 0) && t.pending == s.pending && t.audit.removed == s.audit.removed
            && t.audit.errors == s.audit.errors[id := At(s.audit.errors, id) + 1]
            && t.audit.missed == if ok then s.audit.missed else s.audit.missed[id := At(s.audit.missed, id) + 1]
  {
    hide At;
  }

  lemma ServerErrorVerdict(reply: Reply, attempts: nat)
    requires ServerError(reply)
    ensures Verdict(reply, attempts) == if attempts + 1 >= MAX_ATTEMPTS then Some(DeadLettered) else None
  {
  }

  /** A recorded 5xx, as the settled queue sees it. */
  ghost predicate ErrorRecorded(t: System, s': System, item: PendingScan, ok: bool)
  {
    var dead := item.attempts + 1 >= MAX_ATTEMPTS;
    && s'.audit.removed == (if ok && dead then t.audit.removed + [Removal(item.id, DeadLettered)] else t.audit.removed)
    && s'.pending == (if !ok then t.pending
                      else if dead then Without(t.pending, item.id)
                      else Patched(t.pending, item.id, item.attempts + 1))
    && s'.audit.errors == t.audit.errors && s'.audit.missed == t.audit.missed
  }

  lemma RecordedSettles(s: System, t: System, s': System, item: PendingScan, reply: Reply, ok: bool)
    requires ServerError(reply) && ErrorRecorded(t, s', item, ok)
    requires t.pending == s.pending && t.audit.removed == s.audit.removed
    requires t.audit.errors == s.audit.errors[item.id := At(s.audit.errors, item.id) + 1]
    requires t.audit.missed
             == if ok then s.audit.missed else s.audit.missed[item.id := At(s.audit.missed, item.id) + 1]
    ensures QueueSettled(s, s', item, reply, ok)
  {
    ServerErrorVerdict(reply, item.attempts);
    hide Without, Patched, At, ServerError, Verdict;
  }

  lemma SameFrames(s: System, t: System)
    requires SameRest(s, t)
    ensures t.frames == s.frames
  {
  }

  lemma FailedSettles(s: System, ok: bool, reply: Reply)
    requires |s.frames| == 1 && Busy(s, 0) && ServerError(reply)
    ensures var f := s.frames[0];
            var item := f.snapshot[f.pos];
            var s' := Failed(Tallied(s, item.id, ok), 0, ok);
            && QueueSettled(s, s', item, reply, ok)
            && RestUnchanged(s, s') && FrameSettled(s, s', f, ok && item.attempts + 1 >= MAX_ATTEMPTS, false)
  {
    var f := s.frames[0];
    var item := f.snapshot[f.pos];
    hide *;
    var t := Tallied(s, item.id, ok);
    TalliedFields(s, item.id, ok);
    SameFrames(s, t);
    FailedRecorded(t, ok);
    RecordedSettles(s, t, Failed(t, 0, ok), item, reply, ok);
    FrameCarriesOver(s, t, Failed(t, 0, ok), f, ok && item.attempts + 1 >= MAX_ATTEMPTS, false);
  }

  /** A settled reply does what its verdict says, and nothing else. */
  lemma SettleFollowsVerdict(s: System, ok: bool)
    requires |s.frames| == 1 && Busy(s, 0) && s.frames[0].reply.Some?
    ensures Settles(s, StepSettle(s, 0, ok), ok)
  {
    var item := s.frames[0].snapshot[s.frames[0].pos];
    hide Finish, Removed, Tallied, Failed, Without, Patched;
    FinishSettles(s);
    match s.frames[0].reply.value
    case NetworkError =>
    case Response(status, settled) =>
      if 200 <= status < 300 {
        RemovedSettles(s, ok, Accepted);
      } else if status != 401 && 400 <= status < 500 {
        RemovedSettles(s, ok, if settled then Refused else Dropped);
      } else if status >= 500 {
        FailedSettles(s, ok, s.frames[0].reply.value);
      }
  }

  lemma HeadIsItem(s: System)
    requires Inv(s) && Busy(s, 0)
    ensures s.pending != [] && s.frames[0].snapshot[s.frames[0].pos] == s.pending[0]
    ensures s.pending[0].attempts < MAX_ATTEMPTS
    ensures s.frames[0].snapshot[s.frames[0].pos + 1..] <= s.pending[1..]
  {
    var f := s.frames[0];
    assert f.snapshot[f.pos] == f.snapshot[f.pos..][0];
    assert f.snapshot[f.pos + 1..] == f.snapshot[f.pos..][1..];
  }

  lemma FifoSettled(s: System, s': System, item: PendingScan, reply: Reply, ok: bool)
    requires Fifo(s.audit.enqueued, s.audit.removed, s.pending, s.nextKey) && s.pending != [] && s.pending[0] == item
    requires QueueSettled(s, s', item, reply, ok)
    ensures Fifo(s.audit.enqueued, s'.audit.removed, s'.pending, s.nextKey)
    ensures ok && Verdict(reply, item.attempts).Some? ==> s'.pending == s.pending[1..]
  {
    hide Fifo, Without, Patched, At;
    var how := Verdict(reply, item.attempts);
    if how.Some? {
      FifoDequeue(s.audit.enqueued, s.audit.removed, s.pending, s.nextKey, how.value);
    } else if ServerError(reply) {
      FifoPatch(s.audit.enqueued, s.audit.removed, s.pending, s.nextKey, item.attempts + 1);
    }
  }

  lemma OneFrame(s: System)
    requires Inv(s) && Busy(s, 0)
    ensures |s.frames| == 1
  {
  }

  lemma SettledKeeps(s: System, s': System, ok: bool)
    requires Inv(s) && Busy(s, 0) && s.frames[0].reply.Some? && Settles(s, s', ok)
    ensures Inv(s')
  {
    hide Fifo, Verdict, Without, Patched, At, ServerError;
    HeadIsItem(s);
    FifoSettled(s, s', s.pending[0], s.frames[0].reply.value, ok);
  }

  lemma SettleKeeps(s: System, k: nat, ok: bool)
    requires Inv(s)
    ensures Inv(StepSettle(s, k, ok))
  {
    if Busy(s, k) && s.frames[k].reply.Some? {
      assert k == 0;
      OneFrame(s);
      hide *;
      SettleFollowsVerdict(s, ok);
      SettledKeeps(s, StepSettle(s, 0, ok), ok);
    }
  }

  lemma AddKeepsFlushing(s: System, draft: Draft, attempt: Option<Attempt>, stored: bool)
    ensures var s' := StepAdd(s, draft, attempt, stored);
            s'.frames == s.frames && s'.isFlushing == s.isFlushing && s'.audit.flushes == s.audit.flushes
  {
    hide Serve, CallOf, Authorised, Counted, Stores;
  }

  lemma AppendedKeeps(s: System, s': System, draft: Draft)
    requires Inv(s) && s'.frames == s.frames && s'.isFlushing == s.isFlushing
    requires s'.audit.flushes == s.audit.flushes && s'.audit.removed == s.audit.removed
    requires var r := PendingScan(s.nextKey, draft, 0);
             || (s'.pending == s.pending && s'.nextKey == s.nextKey && s'.audit.enqueued == s.audit.enqueued)
             || (s'.pending == s.pending + [r] && s'.nextKey == s.nextKey + 1
                 && s'.audit.enqueued == s.audit.enqueued + [r])
    ensures Inv(s')
  {
    FifoEnqueue(s.audit.enqueued, s.audit.removed, s.pending, s.nextKey, draft);
    hide Fifo, Reports;
    assert |s.frames| == 1 && s.frames[0].Draining? ==> FrameOk(s'.pending, s.frames[0]);
  }

  lemma AddKeeps(s: System, draft: Draft, attempt: Option<Attempt>, stored: bool)
    requires Inv(s)
    ensures Inv(StepAdd(s, draft, attempt, stored))
  {
    var e := Add(draft, attempt, stored);
    assert Step(s, e) == StepAdd(s, draft, attempt, stored);
    AddKeepsFlushing(s, draft, attempt, stored);
    QueueOnlyGrows(s, e);
    hide *;
    AppendedKeeps(s, Step(s, e), draft);
  }

  lemma LoadKeeps(s: System, k: nat, ok: bool)
    requires Inv(s)
    ensures Inv(StepLoad(s, k, ok))
  {
    if k < |s.frames| && s.frames[k].Loading? && (!ok || s.pending == []) {
      FinishKeeps(s);
    }
  }

  lemma SendKeeps(s: System, k: nat, reach: Reach, answer: Answer)
    requires Inv(s)
    ensures Inv(StepSend(s, k, reach, answer))
  {
  }

  lemma StepKeeps(s: System, e: Event)
    requires Inv(s)
    ensures Inv(Step(s, e))
  {
    match e
    case Add(draft, attempt, stored) => AddKeeps(s, draft, attempt, stored);
    case Trigger(_, _) =>
    case Load(k, ok) => LoadKeeps(s, k, ok);
    case Send(k, reach, answer) => SendKeeps(s, k, reach, answer);
    case Settle(k, ok) => SettleKeeps(s, k, ok);
    case Late(_, _, _, _) =>
    case Elsewhere(_, _) =>
  }

  /** History only grows, and only by additions at its end. */
  lemma StepGrows(s: System, e: Event)
    requires Inv(s)
    ensures var a, b := s.audit, Step(s, e).audit;
            && a.removed <= b.removed && a.enqueued <= b.enqueued
            && (!e.Add? ==> b.enqueued == a.enqueued)
  {
    if e.Settle? {
      if Busy(s, e.k) && s.frames[e.k].reply.Some? {
        hide StepSettle, Fifo;
        SettleFollowsVerdict(s, e.ok);
      }
    } else {
      hide Step, Fifo;
      QueueOnlyGrows(s, e);
    }
  }

  lemma {:induction false} RunKeeps(s: System, events: seq<Event>)
    requires Inv(s)
    ensures Inv(Run(s, events))
  {
    if events != [] {
      var n := |events| - 1;
      RunKeeps(s, events[..n]);
      StepKeeps(Run(s, events[..n]), events[n]);
    }
  }
}
