/** Consequences for the queue alone: history, retry accounting, mutual exclusion, draining. */
module OutboxTheorems {
  import opened TaskServer
  import opened Outbox
  import opened OutboxInvariants

  // ---- History --------------------------------------------------------------------------------

  ghost predicate IsPending(s: System, id: nat)
  {
    exists j | 0 <= j < |s.pending| :: s.pending[j].id == id
  }

  ghost predicate LeftAs(s: System, id: nat, how: Disposition)
  {
    Removal(id, how) in s.audit.removed
  }

  /** Pending or gone, not both, and gone in one way only. */
  ghost predicate HasOneFate(s: System, id: nat)
  {
    && (IsPending(s, id) != exists how :: LeftAs(s, id, how))
    && (forall how, how' | LeftAs(s, id, how) && LeftAs(s, id, how') :: how == how')
  }

  lemma OneFate(s: System, i: nat)
    requires Inv(s) && i < |s.audit.enqueued|
    ensures HasOneFate(s, s.audit.enqueued[i].id)
  {
    var a := s.audit;
    var id := a.enqueued[i].id;
    PendingIncreasing(a.enqueued, a.removed, s.pending, s.nextKey);
    forall how | LeftAs(s, id, how) ensures i < |a.removed| && a.removed[i] == Removal(id, how) {
      var k :| 0 <= k < |a.removed| && a.removed[k] == Removal(id, how);
      assert k == i;
    }
    if i < |a.removed| {
      assert LeftAs(s, id, a.removed[i].how);
    } else {
      assert s.pending[i - |a.removed|].id == id;
    }
  }

  ghost predicate RemovedThenPending(s: System)
  {
    var a := s.audit;
    && |a.enqueued| == |a.removed| + |s.pending|
    && (forall i | 0 <= i < |a.removed| :: a.removed[i].id == a.enqueued[i].id)
    && (forall j | 0 <= j < |s.pending| :: s.pending[j].(attempts := 0) == a.enqueued[|a.removed| + j])
  }

  ghost predicate LeaveInIdOrder(s: System)
  {
    forall i, j | 0 <= i < j < |s.audit.removed| :: s.audit.removed[i].id < s.audit.removed[j].id
  }

  lemma IdOrder(s: System)
    requires Inv(s)
    ensures LeaveInIdOrder(s)
  {
  }

  /**
   In every reachable state the enqueue history is the removed records followed by the pending ones,
   records leave in strictly increasing id order across all flushes, and each record is either pending
   or has left with exactly one disposition.
   */
  lemma HistoryIsRemovedThenPending(task: string, db: Database, events: seq<Event>)
    ensures var s := Run(Initial(task, db), events);
            && RemovedThenPending(s)
            && LeaveInIdOrder(s)
            && forall i | 0 <= i < |s.audit.enqueued| :: HasOneFate(s, s.audit.enqueued[i].id)
  {
    InitialInv(task, db);
    RunKeeps(Initial(task, db), events);
    var s := Run(Initial(task, db), events);
    IdOrder(s);
    forall i | 0 <= i < |s.audit.enqueued|
      ensures HasOneFate(s, s.audit.enqueued[i].id)
    {
      OneFate(s, i);
    }
  }

  ghost predicate DistinctActions(q: seq<PendingScan>)
  {
    forall i, j | 0 <= i < j < |q| :: q[i].draft.clientEventId != q[j].draft.clientEventId
  }

  lemma StepKeepsDistinct(s: System, e: Event)
    requires Inv(s) && DistinctActions(s.pending)
    ensures DistinctActions(Step(s, e).pending)
  {
    if e.Settle? {
      if Busy(s, e.k) && s.frames[e.k].reply.Some? {
        OneFrame(s);
        SettleChangesQueueIff(s, e.ok);
        hide Inv, StepSettle;
      }
    } else {
      if e.Add? { AddGrows(s, e.draft, e.attempt, e.stored); }
      hide StepAdd, Inv;
      QueueOnlyGrows(s, e);
    }
  }

  /** The pending records' client event ids are distinct in every reachable state. */
  lemma {:induction false} PendingIdsAreDistinct(task: string, db: Database, events: seq<Event>)
    ensures DistinctActions(Run(Initial(task, db), events).pending)
  {
    if events != [] {
      var n := |events| - 1;
      InitialInv(task, db);
      PendingIdsAreDistinct(task, db, events[..n]);
      hide *;
      RunKeeps(Initial(task, db), events[..n]);
      RunLast(Initial(task, db), events);
      StepKeepsDistinct(Run(Initial(task, db), events[..n]), events[n]);
    }
  }

  // ---- Mutual exclusion -----------------------------------------------------------------------

  function TotalRemovals(flushes: seq<FlushReport>): nat
  {
    if flushes == [] then 0 else TotalRemovals(flushes[..|flushes| - 1]) + flushes[|flushes| - 1].removals
  }

  function OpenRemovals(frames: seq<Frame>): nat
  {
    if |frames| == 1 && frames[0].Draining? then frames[0].removals else 0
  }

  ghost predicate Accounted(s: System)
  {
    Inv(s) && |s.audit.removed| == TotalRemovals(s.audit.flushes) + OpenRemovals(s.frames)
  }

  lemma ReportCounts(flushes: seq<FlushReport>, report: FlushReport)
    ensures TotalRemovals(flushes + [report]) == TotalRemovals(flushes) + report.removals
  {
    assert (flushes + [report])[..|flushes|] == flushes;
  }

  lemma AccountSettled(s: System, ok: bool)
    requires |s.frames| == 1 && Busy(s, 0) && s.frames[0].reply.Some?
    requires |s.audit.removed| == TotalRemovals(s.audit.flushes) + OpenRemovals(s.frames)
    ensures var s' := StepSettle(s, 0, ok);
            |s'.audit.removed| == TotalRemovals(s'.audit.flushes) + OpenRemovals(s'.frames)
  {
    hide StepSettle, Without, Patched, At, TotalRemovals;
    SettleFollowsVerdict(s, ok);
    var f := s.frames[0];
    var gone := ok && Verdict(f.reply.value, f.snapshot[f.pos].attempts).Some?;
    ReportCounts(s.audit.flushes, FlushReport(f.removals + (if gone then 1 else 0), f.drainedAny || gone));
  }

  lemma SettleAccounted(s: System, k: nat, ok: bool)
    requires Accounted(s)
    ensures Accounted(StepSettle(s, k, ok))
  {
    SettleKeeps(s, k, ok);
    if Busy(s, k) && s.frames[k].reply.Some? {
      hide Fifo, StepSettle, TotalRemovals;
      AccountSettled(s, ok);
    }
  }

  lemma StepAccounted(s: System, e: Event)
    requires Accounted(s)
    ensures Accounted(Step(s, e))
  {
    hide Fifo, StepSettle, Serve, CallOf, Counted, TotalRemovals;
    StepKeeps(s, e);
    match e
    case Settle(k, ok) => SettleAccounted(s, k, ok);
    case Load(_, _) => ReportCounts(s.audit.flushes, FlushReport(0, false));
    case _ =>
  }

  lemma {:induction false} RunAccounted(s: System, events: seq<Event>)
    requires Accounted(s)
    ensures Accounted(Run(s, events))
  {
    if events != [] {
      var n := |events| - 1;
      RunAccounted(s, events[..n]);
      StepAccounted(Run(s, events[..n]), events[n]);
    }
  }

  /**
   Over every interleaving of triggers, at most one activation is past the guard, the flag says exactly
   whether there is one, records leave only inside an activation, and a finished flush announced itself
   exactly when it removed something.
   */
  lemma AtMostOneFlush(task: string, db: Database, events: seq<Event>)
    ensures var s := Run(Initial(task, db), events);
            && |s.frames| <= 1
            && (s.isFlushing <==> |s.frames| == 1)
            && |s.audit.removed| == TotalRemovals(s.audit.flushes) + OpenRemovals(s.frames)
            && (forall i | 0 <= i < |s.audit.flushes| ::
                   s.audit.flushes[i].notified <==> s.audit.flushes[i].removals > 0)
  {
    InitialInv(task, db);
    RunAccounted(Initial(task, db), events);
  }

  /** How many of its own steps an activation can still take. */
  function Remaining(f: Frame): nat
  {
    if f.Loading? || f.pos >= |f.snapshot| then 0
    else 2 * (|f.snapshot| - f.pos) - (if f.reply.Some? then 1 else 0)
  }

  /** The flag is always released: each step an activation can take ends it or brings its end closer. */
  lemma FlagIsReleased(s: System, reach: Reach, answer: Answer, ok: bool)
    requires Inv(s) && |s.frames| == 1
    ensures var f := s.frames[0];
            var s' := if f.Loading? then StepLoad(s, 0, ok)
                      else if f.reply.None? then StepSend(s, 0, reach, answer)
                      else StepSettle(s, 0, ok);
            || (s'.frames == [] && !s'.isFlushing && |s'.audit.flushes| == |s.audit.flushes| + 1)
            || (|s'.frames| == 1 && s'.frames[0].Draining?
                && Remaining(s'.frames[0]) <= 2 * |s'.frames[0].snapshot|
                && (f.Draining? ==> Remaining(s'.frames[0]) < Remaining(f)))
  {
    if s.frames[0].Draining? && s.frames[0].reply.Some? {
      hide StepSettle, Fifo;
      SettleFollowsVerdict(s, ok);
    }
  }

  /** The step of an activation: it reads the queue, sends a record or settles a reply. */
  predicate OwnStep(s: System, e: Event)
  {
    match e
    case Load(k, _) => k < |s.frames| && s.frames[k].Loading?
    case Send(k, _, _) => Busy(s, k) && s.frames[k].reply.None?
    case Settle(k, _) => Busy(s, k) && s.frames[k].reply.Some?
    case _ => false
  }

  function OwnSteps(s: System, events: seq<Event>): nat
  {
    if events == [] then 0
    else
      var n := |events| - 1;
      OwnSteps(s, events[..n]) + (if OwnStep(Run(s, events[..n]), events[n]) then 1 else 0)
  }

  /** The activation that has just started has ended, or is still under way after `steps` steps of its own. */
  ghost predicate Spent(s: System, flushes: nat, steps: nat)
  {
    || |s.audit.flushes| > flushes
    || (|s.audit.flushes| == flushes && |s.frames| == 1
        && if s.frames[0].Loading? then steps == 0
           else steps + Remaining(s.frames[0]) <= 2 * |s.frames[0].snapshot| + 1)
  }

  lemma OthersSpendNothing(s: System, e: Event)
    requires Inv(s) && !OwnStep(s, e)
    ensures Step(s, e).audit.flushes == s.audit.flushes
    ensures |s.frames| == 1 ==> Step(s, e).frames == s.frames
  {
    hide Serve, CallOf, Counted, Authorised, Stores, Fifo;
  }

  lemma FlushesGrow(s: System, e: Event)
    requires Inv(s)
    ensures |Step(s, e).audit.flushes| >= |s.audit.flushes|
  {
    if OwnStep(s, e) {
      OwnStepSpends(s, e);
    } else {
      OthersSpendNothing(s, e);
    }
  }

  lemma OwnStepSpends(s: System, e: Event)
    requires Inv(s) && OwnStep(s, e)
    ensures |s.frames| == 1
    ensures var f, s' := s.frames[0], Step(s, e);
            || |s'.audit.flushes| == |s.audit.flushes| + 1
            || (s'.audit.flushes == s.audit.flushes && |s'.frames| == 1 && s'.frames[0].Draining?
                && if f.Loading? then Remaining(s'.frames[0]) == 2 * |s'.frames[0].snapshot|
                   else s'.frames[0].snapshot == f.snapshot && Remaining(s'.frames[0]) + 1 == Remaining(f))
  {
    match e
    case Load(_, _) =>
    case Send(_, reach, answer) => hide RunHandler; SendSpends(s, reach, answer);
    case Settle(_, ok) => hide StepSettle, Fifo; SettleFollowsVerdict(s, ok);
  }

  lemma SendSpends(s: System, reach: Reach, answer: Answer)
    requires Inv(s) && Busy(s, 0) && s.frames[0].reply.None?
    ensures var f, s' := s.frames[0], StepSend(s, 0, reach, answer);
            && s'.audit.flushes == s.audit.flushes && |s'.frames| == 1 && s'.frames[0].Draining?
            && s'.frames[0].snapshot == f.snapshot && Remaining(s'.frames[0]) + 1 == Remaining(f)
  {
    hide Serve, CallOf, Counted, Authorised, Fifo;
  }

  lemma {:induction false} RunSpends(s: System, events: seq<Event>)
    requires Inv(s) && |s.frames| == 1 && s.frames[0].Loading?
    ensures Spent(Run(s, events), |s.audit.flushes|, OwnSteps(s, events))
  {
    if events != [] {
      hide Inv, Step, OwnStep, Remaining;
      var n := |events| - 1;
      RunSpends(s, events[..n]);
      RunKeeps(s, events[..n]);
      var before := Run(s, events[..n]);
      FlushesGrow(before, events[n]);
      if OwnStep(before, events[n]) {
        OwnStepSpends(before, events[n]);
      } else {
        OthersSpendNothing(before, events[n]);
      }
    }
  }

  /**
   The flag is released in time: over any run, an activation that has not ended yet has taken at most twice
   as many steps of its own as its snapshot has records, so that the next one after those is its last.
   */
  lemma FlagIsReleasedInTime(s: System, events: seq<Event>)
    requires Inv(s) && |s.frames| == 1 && s.frames[0].Loading?
    ensures var s' := Run(s, events);
            || |s'.audit.flushes| > |s.audit.flushes|
            || (s'.isFlushing && |s'.frames| == 1
                && OwnSteps(s, events) <= if s'.frames[0].Loading? then 0 else 2 * |s'.frames[0].snapshot|)
  {
    RunSpends(s, events);
    RunKeeps(s, events);
    hide Fifo, Run, OwnSteps;
  }

  /** An activation begins exactly at a trigger that is online, has a token and finds the flag clear. */
  lemma BeginsIff(s: System, e: Event)
    requires Inv(s)
    ensures |Step(s, e).frames| > |s.frames| <==> e.Trigger? && e.onLine && e.token.Some? && !s.isFlushing
    ensures |Step(s, e).frames| > |s.frames| ==>
              Step(s, e) == s.(isFlushing := true, frames := [Loading(e.token.value)])
  {
    if OwnStep(s, e) {
      OwnStepEnds(s, e);
    } else {
      OthersSpendNothing(s, e);
    }
    hide Inv;
  }

  lemma OwnStepEnds(s: System, e: Event)
    requires Inv(s) && OwnStep(s, e)
    ensures |Step(s, e).frames| <= |s.frames| && !e.Trigger?
  {
    match e
    case Load(_, _) =>
    case Send(_, reach, answer) => hide RunHandler; SendSpends(s, reach, answer);
    case Settle(_, ok) => hide StepSettle, Fifo; SettleFollowsVerdict(s, ok);
  }

  /** Without such a trigger, over any run nothing is sent, removed or counted from an idle state. */
  lemma {:induction false} IdleWithoutTrigger(s: System, events: seq<Event>)
    requires Inv(s) && s.frames == []
    requires forall i | 0 <= i < |events| && events[i].Trigger? :: !events[i].onLine || events[i].token.None?
    ensures var s' := Run(s, events);
            && s'.frames == [] && !s'.isFlushing && s'.audit.sent == s.audit.sent
            && s'.audit.removed == s.audit.removed && s'.audit.errors == s.audit.errors
  {
    if events != [] {
      var n := |events| - 1;
      IdleWithoutTrigger(s, events[..n]);
      RunKeeps(s, events[..n]);
      var before := Run(s, events[..n]);
      StepIdle(before, events[n]);
      RunLast(s, events);
      hide *;
    }
  }

  lemma StepIdle(s: System, e: Event)
    requires Inv(s) && s.frames == [] && (e.Trigger? ==> !e.onLine || e.token.None?)
    ensures var s' := Step(s, e);
            && s'.frames == [] && s'.audit.sent == s.audit.sent && s'.audit.removed == s.audit.removed
            && s'.audit.errors == s.audit.errors && !s'.isFlushing
  {
    hide Serve, CallOf, Authorised, Counted, Stores, Fifo;
  }

  // ---- When a cycle goes on -------------------------------------------------------------------

  /** The cycle goes on exactly after a written removal on a 2xx, or a 4xx other than 401, with more to send. */
  lemma CycleGoesOnIff(s: System, ok: bool)
    requires Inv(s) && Busy(s, 0) && s.frames[0].reply.Some?
    ensures var f := s.frames[0];
            StepSettle(s, 0, ok).frames != []
            <==> && ok && f.pos + 1 < |f.snapshot| && f.reply.value.Response?
                 && var status := f.reply.value.status;
                    200 <= status < 300 || (400 <= status < 500 && status != 401)
  {
    hide Fifo, StepSettle;
    SettleFollowsVerdict(s, ok);
    HeadIsItem(s);
  }

  // ---- Retry accounting -----------------------------------------------------------------------

  /** `attempts` is the number of 5xx answers a record received, less those whose write got lost. */
  predicate Balanced(r: PendingScan, errors: map<nat, nat>, missed: map<nat, nat>)
  {
    r.attempts + At(missed, r.id) == At(errors, r.id)
  }

  /** A record is dead-lettered on its eighth recorded 5xx, and leaves otherwise before that. */
  predicate FateMatches(r: Removal, errors: map<nat, nat>, missed: map<nat, nat>)
  {
    && At(errors, r.id) <= MAX_ATTEMPTS + At(missed, r.id)
    && (r.how.DeadLettered? <==> At(errors, r.id) == MAX_ATTEMPTS + At(missed, r.id))
  }

  ghost predicate Tally(pending: seq<PendingScan>, removed: seq<Removal>, nextKey: nat, errors: map<nat, nat>,
                        missed: map<nat, nat>)
  {
    && (forall id | id in errors || id in missed :: id < nextKey)
    && (forall j | 0 <= j < |pending| :: Balanced(pending[j], errors, missed))
    && (forall i | 0 <= i < |removed| :: FateMatches(removed[i], errors, missed))
  }

  ghost predicate Tallies(s: System)
  {
    Inv(s) && Tally(s.pending, s.audit.removed, s.nextKey, s.audit.errors, s.audit.missed)
  }

  lemma HeadApart(s: System)
    requires Inv(s) && s.pending != []
    ensures Apart(s.pending, s.audit.removed, s.nextKey)
  {
    PendingIncreasing(s.audit.enqueued, s.audit.removed, s.pending, s.nextKey);
  }

  ghost predicate Apart(pending: seq<PendingScan>, removed: seq<Removal>, nextKey: nat)
  {
    && pending != [] && pending[0].id < nextKey
    && (forall j | 0 < j < |pending| :: pending[j].id != pending[0].id)
    && (forall i | 0 <= i < |removed| :: removed[i].id != pending[0].id)
  }

  lemma AtUpdated(m: map<nat, nat>, id: nat, n: nat, other: nat)
    ensures At(m[id := n], other) == if other == id then n else At(m, other)
  {
  }

  lemma BalancedNoted(r: PendingScan, id: nat, errors: map<nat, nat>, missed: map<nat, nat>)
    requires Balanced(r, errors, missed)
    ensures var errors' := errors[id := At(errors, id) + 1];
            if r.id == id then Balanced(r.(attempts := r.attempts + 1), errors', missed)
            else Balanced(r, errors', missed)
  {
  }

  lemma FateNoted(r: Removal, id: nat, errors: map<nat, nat>, missed: map<nat, nat>)
    requires FateMatches(r, errors, missed) && r.id != id
    ensures FateMatches(r, errors[id := At(errors, id) + 1], missed)
  {
  }

  lemma PatchedHead(q: seq<PendingScan>)
    requires q != [] && forall j | 0 < j < |q| :: q[j].id != q[0].id
    ensures var n := q[0].attempts + 1;
            && Patched(q, q[0].id, n) == [q[0].(attempts := n)] + q[1..] && Patched(q, q[0].id, n) != q
            && Patched(q, q[0].id, n) != q[1..]
  {
    var p := Patched(q, q[0].id, q[0].attempts + 1);
    assert p[0] != q[0];
    assert |p| == |q| != |q[1..]|;
  }

  /** The head's next 5xx when its write got lost. */
  lemma TallyLost(pending: seq<PendingScan>, removed: seq<Removal>, nextKey: nat, errors: map<nat, nat>,
                  missed: map<nat, nat>)
    requires Tally(pending, removed, nextKey, errors, missed) && Apart(pending, removed, nextKey)
    ensures var id := pending[0].id;
            Tally(pending, removed, nextKey, errors[id := At(errors, id) + 1], missed[id := At(missed, id) + 1])
  {
    hide At;
    var id := pending[0].id;
    var errors', missed' := errors[id := At(errors, id) + 1], missed[id := At(missed, id) + 1];
    forall j | 0 <= j < |pending| ensures Balanced(pending[j], errors', missed') {
      assert Balanced(pending[j], errors, missed);
      AtUpdated(errors, id, At(errors, id) + 1, pending[j].id);
      AtUpdated(missed, id, At(missed, id) + 1, pending[j].id);
    }
    forall i | 0 <= i < |removed| ensures FateMatches(removed[i], errors', missed') {
      assert FateMatches(removed[i], errors, missed);
      AtUpdated(errors, id, At(errors, id) + 1, removed[i].id);
      AtUpdated(missed, id, At(missed, id) + 1, removed[i].id);
    }
  }

  lemma NotedBalances(pending: seq<PendingScan>, errors: map<nat, nat>, missed: map<nat, nat>)
    requires pending != [] && forall j | 0 <= j < |pending| :: Balanced(pending[j], errors, missed)
    requires forall j | 0 < j < |pending| :: pending[j].id != pending[0].id
    ensures var id, n := pending[0].id, pending[0].attempts + 1;
            var q := Patched(pending, id, n);
            forall j | 0 <= j < |q| :: Balanced(q[j], errors[id := At(errors, id) + 1], missed)
  {
    var id, n := pending[0].id, pending[0].attempts + 1;
    PatchedHead(pending);
    hide Patched, At, Balanced;
    var q := Patched(pending, id, n);
    forall j | 0 <= j < |q| ensures Balanced(q[j], errors[id := At(errors, id) + 1], missed) {
      BalancedNoted(pending[j], id, errors, missed);
    }
  }

  lemma NotedFates(removed: seq<Removal>, id: nat, errors: map<nat, nat>, missed: map<nat, nat>)
    requires forall i | 0 <= i < |removed| :: FateMatches(removed[i], errors, missed) && removed[i].id != id
    ensures forall i | 0 <= i < |removed| :: FateMatches(removed[i], errors[id := At(errors, id) + 1], missed)
  {
    hide At, FateMatches;
    forall i | 0 <= i < |removed| ensures FateMatches(removed[i], errors[id := At(errors, id) + 1], missed) {
      FateNoted(removed[i], id, errors, missed);
    }
  }

  /** The head's next 5xx when it is recorded as one more attempt. */
  lemma TallyNoted(pending: seq<PendingScan>, removed: seq<Removal>, nextKey: nat, errors: map<nat, nat>,
                   missed: map<nat, nat>)
    requires Tally(pending, removed, nextKey, errors, missed) && Apart(pending, removed, nextKey)
    ensures var id, n := pending[0].id, pending[0].attempts + 1;
            Tally(Patched(pending, id, n), removed, nextKey, errors[id := At(errors, id) + 1], missed)
  {
    var id, n := pending[0].id, pending[0].attempts + 1;
    var errors' := errors[id := At(errors, id) + 1];
    hide Patched, At, Balanced, FateMatches;
    NotedBalances(pending, errors, missed);
    NotedFates(removed, id, errors, missed);
  }

  /** The head's eighth recorded 5xx, spent on the dead letter. */
  lemma TallyDead(pending: seq<PendingScan>, removed: seq<Removal>, nextKey: nat, errors: map<nat, nat>,
                  missed: map<nat, nat>)
    requires Tally(pending, removed, nextKey, errors, missed) && Apart(pending, removed, nextKey)
    requires pending[0].attempts + 1 == MAX_ATTEMPTS
    ensures var id := pending[0].id;
            Tally(pending[1..], removed + [Removal(id, DeadLettered)], nextKey,
                  errors[id := At(errors, id) + 1], missed)
  {
    var id := pending[0].id;
    var errors' := errors[id := At(errors, id) + 1];
    assert Balanced(pending[0], errors, missed);
    assert FateMatches(Removal(id, DeadLettered), errors', missed);
    hide At, Balanced, FateMatches;
    NotedFates(removed, id, errors, missed);
    forall j | 0 <= j < |pending[1..]| ensures Balanced(pending[1..][j], errors', missed) {
      BalancedNoted(pending[j + 1], id, errors, missed);
    }
  }

  lemma TallyRemoved(pending: seq<PendingScan>, removed: seq<Removal>, nextKey: nat, errors: map<nat, nat>,
                     missed: map<nat, nat>, how: Disposition)
    requires Tally(pending, removed, nextKey, errors, missed) && pending != []
    requires pending[0].attempts < MAX_ATTEMPTS && !how.DeadLettered?
    ensures Tally(pending[1..], removed + [Removal(pending[0].id, how)], nextKey, errors, missed)
  {
    assert Balanced(pending[0], errors, missed);
    forall j | 0 <= j < |pending[1..]| ensures Balanced(pending[1..][j], errors, missed) {
      assert Balanced(pending[j + 1], errors, missed);
    }
  }

  lemma TallySettled(s: System, s': System, item: PendingScan, reply: Reply, ok: bool)
    requires Tally(s.pending, s.audit.removed, s.nextKey, s.audit.errors, s.audit.missed)
    requires s.pending != [] && Apart(s.pending, s.audit.removed, s.nextKey) && s.pending[0] == item
    requires item.attempts < MAX_ATTEMPTS
    requires Without(s.pending, item.id) == s.pending[1..]
    requires QueueSettled(s, s', item, reply, ok)
    ensures Tally(s'.pending, s'.audit.removed, s.nextKey, s'.audit.errors, s'.audit.missed)
  {
    var a := s.audit;
    var how := Verdict(reply, item.attempts);
    hide Tally, Apart, Without, Patched, At;
    if ServerError(reply) {
      if ok && how.Some? {
        TallyDead(s.pending, a.removed, s.nextKey, a.errors, a.missed);
      } else if ok {
        TallyNoted(s.pending, a.removed, s.nextKey, a.errors, a.missed);
      } else {
        TallyLost(s.pending, a.removed, s.nextKey, a.errors, a.missed);
      }
    } else if ok && how.Some? {
      TallyRemoved(s.pending, a.removed, s.nextKey, a.errors, a.missed, how.value);
    }
  }

  lemma TalliesParts(s: System)
    requires Tallies(s)
    ensures Inv(s) && Tally(s.pending, s.audit.removed, s.nextKey, s.audit.errors, s.audit.missed)
  {
  }

  lemma SettledTallies(s: System, s': System, ok: bool)
    requires Inv(s) && Tally(s.pending, s.audit.removed, s.nextKey, s.audit.errors, s.audit.missed)
    requires Busy(s, 0) && s.frames[0].reply.Some? && Settles(s, s', ok) && Inv(s')
    ensures Tallies(s')
  {
    hide Fifo, Tally, QueueSettled, Verdict, Without, Patched, At, ServerError, Apart, FrameOk, Reports;
    HeadIsItem(s);
    HeadApart(s);
    FifoDequeue(s.audit.enqueued, s.audit.removed, s.pending, s.nextKey, Accepted);
    TallySettled(s, s', s.pending[0], s.frames[0].reply.value, ok);
  }

  lemma SettleTallies(s: System, k: nat, ok: bool)
    requires Tallies(s)
    ensures Tallies(StepSettle(s, k, ok))
  {
    SettleKeeps(s, k, ok);
    if Busy(s, k) && s.frames[k].reply.Some? {
      assert k == 0;
      OneFrame(s);
      hide *;
      TalliesParts(s);
      SettleFollowsVerdict(s, ok);
      SettledTallies(s, StepSettle(s, 0, ok), ok);
    }
  }

  /** Apart from settling a reply a step at most appends a record. */
  ghost predicate Appends(s: System, s': System, e: Event)
  {
    && s'.audit.removed == s.audit.removed && s'.audit.errors == s.audit.errors && s'.audit.missed == s.audit.missed
    && (|| (s'.pending == s.pending && s'.nextKey == s.nextKey)
        || (e.Add? && s'.pending == s.pending + [PendingScan(s.nextKey, e.draft, 0)] && s'.nextKey == s.nextKey + 1))
  }

  lemma OthersKeepTally(s: System, e: Event)
    requires !e.Settle?
    ensures Appends(s, Step(s, e), e)
  {
    hide Step;
    QueueOnlyGrows(s, e);
  }

  lemma TallyAppended(s: System, s': System, e: Event)
    requires Tally(s.pending, s.audit.removed, s.nextKey, s.audit.errors, s.audit.missed)
    requires Appends(s, s', e) && Inv(s')
    ensures Tallies(s')
  {
    hide Inv;
    forall j | 0 <= j < |s'.pending| ensures Balanced(s'.pending[j], s'.audit.errors, s'.audit.missed) {
      if j < |s.pending| {
        assert Balanced(s.pending[j], s.audit.errors, s.audit.missed);
      }
    }
  }

  lemma StepTallies(s: System, e: Event)
    requires Tallies(s)
    ensures Tallies(Step(s, e))
  {
    if e.Settle? {
      hide *;
      SettleTallies(s, e.k, e.ok);
    } else {
      TalliesParts(s);
      hide *;
      StepKeeps(s, e);
      OthersKeepTally(s, e);
      TallyAppended(s, Step(s, e), e);
    }
  }

  lemma {:induction false} RunTallies(s: System, events: seq<Event>)
    requires Tallies(s)
    ensures Tallies(Run(s, events))
  {
    if events != [] {
      var n := |events| - 1;
      RunTallies(s, events[..n]);
      StepTallies(Run(s, events[..n]), events[n]);
    }
  }

  /**
   Every pending record's attempts are its recorded 5xx answers and stay below the limit; a record is
   dead-lettered exactly when its eighth recorded 5xx arrives.
   */
  lemma AttemptsCountServerErrors(task: string, db: Database, events: seq<Event>)
    ensures var s := Run(Initial(task, db), events);
            && Tally(s.pending, s.audit.removed, s.nextKey, s.audit.errors, s.audit.missed)
            && forall j | 0 <= j < |s.pending| :: s.pending[j].attempts < MAX_ATTEMPTS
  {
    RunTallies(Initial(task, db), events);
  }

  ghost predicate StorageWorks(events: seq<Event>)
  {
    forall i | 0 <= i < |events| :: events[i].Settle? ==> events[i].ok
  }

  lemma {:induction false} NothingMissed(s: System, events: seq<Event>)
    requires Inv(s) && StorageWorks(events)
    ensures Run(s, events).audit.missed == s.audit.missed
  {
    if events != [] {
      hide Inv;
      var n := |events| - 1;
      NothingMissed(s, events[..n]);
      RunKeeps(s, events[..n]);
      StepMisses(Run(s, events[..n]), events[n]);
    }
  }

  lemma StepMisses(s: System, e: Event)
    requires Inv(s) && (e.Settle? ==> e.ok)
    ensures Step(s, e).audit.missed == s.audit.missed
  {
    if e.Settle? {
      if Busy(s, e.k) && s.frames[e.k].reply.Some? {
        OneFrame(s);
        hide StepSettle, Inv;
        SettleFollowsVerdict(s, e.ok);
      }
    } else {
      hide Step;
      QueueOnlyGrows(s, e);
    }
  }

  /**
   With successful storage writes: attempts are the 5xx answers received, and a record is dead-lettered on
   exactly its eighth.
   */
  lemma AttemptsAreServerErrors(task: string, db: Database, events: seq<Event>)
    requires StorageWorks(events)
    ensures var s := Run(Initial(task, db), events);
            && (forall j | 0 <= j < |s.pending| :: s.pending[j].attempts == At(s.audit.errors, s.pending[j].id) < 8)
            && (forall i | 0 <= i < |s.audit.removed| ::
                  && At(s.audit.errors, s.audit.removed[i].id) <= 8
                  && (s.audit.removed[i].how.DeadLettered? <==> At(s.audit.errors, s.audit.removed[i].id) == 8))
  {
    var s0 := Initial(task, db);
    InitialInv(task, db);
    AttemptsCountServerErrors(task, db, events);
    NothingMissed(s0, events);
    var s := Run(s0, events);
    forall j | 0 <= j < |s.pending| ensures s.pending[j].attempts == At(s.audit.errors, s.pending[j].id) {
      assert Balanced(s.pending[j], s.audit.errors, s.audit.missed);
    }
    forall i | 0 <= i < |s.audit.removed|
      ensures FateMatches(s.audit.removed[i], s.audit.errors, map[])
    {
      assert FateMatches(s.audit.removed[i], s.audit.errors, s.audit.missed);
    }
  }

  /** The replies after which a flush may touch the record it sent. */
  predicate Conclusive(reply: Reply)
  {
    reply.Response? && ((200 <= reply.status < 300) || (reply.status >= 400 && reply.status != 401))
  }

  lemma ConclusiveIff(reply: Reply, attempts: nat)
    ensures Conclusive(reply) <==> Verdict(reply, attempts).Some? || ServerError(reply)
  {
  }

  lemma SettlesParts(s: System, s': System, ok: bool)
    requires Busy(s, 0) && s.frames[0].reply.Some? && Settles(s, s', ok)
    ensures var f := s.frames[0];
            var item := f.snapshot[f.pos];
            && QueueSettled(s, s', item, f.reply.value, ok)
            && (!(ok && Verdict(f.reply.value, item.attempts).Some?) ==> s'.frames == [])
  {
    hide QueueSettled, Verdict;
  }

  lemma QueueChange(s: System, s': System, reply: Reply, ok: bool)
    requires s.pending != [] && QueueSettled(s, s', s.pending[0], reply, ok)
    ensures var head := s.pending[0];
            if ok && Verdict(reply, head.attempts).Some? then s'.pending == Without(s.pending, head.id)
            else if ok && ServerError(reply) then s'.pending == Patched(s.pending, head.id, head.attempts + 1)
            else s'.pending == s.pending
  {
    hide Verdict, Without, Patched, ServerError, At;
  }

  lemma SettledChangesQueueIff(s: System, s': System, ok: bool)
    requires Inv(s) && Busy(s, 0) && s.frames[0].reply.Some? && Settles(s, s', ok) && s.pending != []
    ensures var head := s.pending[0];
            && (s'.pending != s.pending <==> ok && Conclusive(s.frames[0].reply.value))
            && (s'.pending == s.pending || s'.pending == s.pending[1..]
                || s'.pending == [head.(attempts := head.attempts + 1)] + s.pending[1..])
            && (s'.pending != s.pending[1..] ==> s'.frames == [])
  {
    HeadApart(s);
    PatchedHead(s.pending);
    HeadIsItem(s);
    SettlesParts(s, s', ok);
    hide *;
    var reply := s.frames[0].reply.value;
    ConclusiveIff(reply, s.pending[0].attempts);
    QueueAfter(s, s', ok);
    QueueChange(s, s', reply, ok);
    assert |s.pending[1..]| != |s.pending|;
  }

  lemma QueueAfter(s: System, s': System, ok: bool)
    requires Inv(s) && Busy(s, 0) && s.frames[0].reply.Some? && Settles(s, s', ok) && s.pending != []
    requires s.frames[0].snapshot[s.frames[0].pos] == s.pending[0]
    ensures ok && Verdict(s.frames[0].reply.value, s.pending[0].attempts).Some? ==> s'.pending == s.pending[1..]
  {
    hide Fifo, Without, Patched, At, Verdict, ServerError;
    FifoSettled(s, s', s.pending[0], s.frames[0].reply.value, ok);
  }

  /** A settled reply changes the queue exactly when it is conclusive and the write succeeds; then only its head. */
  lemma SettleChangesQueueIff(s: System, ok: bool)
    requires Inv(s) && Busy(s, 0) && s.frames[0].reply.Some?
    ensures var s' := StepSettle(s, 0, ok);
            var head := s.pending[0];
            && (s'.pending != s.pending <==> ok && Conclusive(s.frames[0].reply.value))
            && (s'.pending == s.pending || s'.pending == s.pending[1..]
                || s'.pending == [head.(attempts := head.attempts + 1)] + s.pending[1..])
            && (s'.pending != s.pending[1..] ==> s'.frames == [])
  {
    OneFrame(s);
    HeadIsItem(s);
    hide *;
    SettleFollowsVerdict(s, ok);
    SettledChangesQueueIff(s, StepSettle(s, 0, ok), ok);
  }

  lemma HeadFacts(s: System)
    requires Inv(s) && Busy(s, 0)
    ensures |s.frames| == 1 && s.pending != [] && s.frames[0].snapshot[s.frames[0].pos] == s.pending[0]
    ensures Without(s.pending, s.pending[0].id) == s.pending[1..]
    ensures var head := s.pending[0];
            Patched(s.pending, head.id, head.attempts + 1) == [head.(attempts := head.attempts + 1)] + s.pending[1..]
  {
    HeadIsItem(s);
    HeadApart(s);
    hide Fifo, FrameOk, Without, Patched;
    PatchedHead(s.pending);
    FifoDequeue(s.audit.enqueued, s.audit.removed, s.pending, s.nextKey, Accepted);
  }

  /**
   What a settled reply does to the queue, in plain terms: network errors, 401 and unexpected statuses leave
   it alone, as does a failed write; 2xx and other 4xx take the head out; a 5xx counts an attempt, and the
   eighth takes it out as a dead letter.
   */
  lemma SettleOutcome(s: System, ok: bool)
    requires Inv(s) && Busy(s, 0) && s.frames[0].reply.Some?
    ensures s.pending != []
    ensures var s', head, reply := StepSettle(s, 0, ok), s.pending[0], s.frames[0].reply.value;
            if !ok || reply.NetworkError? || reply.status == 401 || reply.status < 200 || 300 <= reply.status < 400
            then s'.pending == s.pending && s'.audit.removed == s.audit.removed
            else if reply.status < 500 || head.attempts + 1 >= 8
            then && s'.pending == s.pending[1..]
                 && s'.audit.removed == s.audit.removed + [Removal(head.id,
                      if reply.status < 300 then Accepted
                      else if reply.status >= 500 then DeadLettered
                      else if reply.settled then Refused else Dropped)]
            else && s'.pending == [head.(attempts := head.attempts + 1)] + s.pending[1..]
                 && s'.audit.removed == s.audit.removed
  {
    HeadFacts(s);
    hide *;
    SettleFollowsVerdict(s, ok);
    SettlesParts(s, StepSettle(s, 0, ok), ok);
    VerdictOutcome(s, StepSettle(s, 0, ok), s.frames[0].reply.value, ok);
  }

  lemma VerdictOutcome(s: System, s': System, reply: Reply, ok: bool)
    requires s.pending != [] && QueueSettled(s, s', s.pending[0], reply, ok)
    ensures var head := s.pending[0];
            if !ok || reply.NetworkError? || reply.status == 401 || reply.status < 200 || 300 <= reply.status < 400
            then s'.pending == s.pending && s'.audit.removed == s.audit.removed
            else if reply.status < 500 || head.attempts + 1 >= 8
            then && s'.pending == Without(s.pending, head.id)
                 && s'.audit.removed == s.audit.removed + [Removal(head.id,
                      if reply.status < 300 then Accepted
                      else if reply.status >= 500 then DeadLettered
                      else if reply.settled then Refused else Dropped)]
            else && s'.pending == Patched(s.pending, head.id, head.attempts + 1)
                 && s'.audit.removed == s.audit.removed
  {
    hide Without, Patched, At;
  }

  // ---- Draining -------------------------------------------------------------------------------

  function Potential(q: seq<PendingScan>): nat
  {
    if q == [] then 0
    else Potential(q[1..]) + (if q[0].attempts <= MAX_ATTEMPTS then MAX_ATTEMPTS - q[0].attempts else 0)
  }

  predicate Productive(s: System, e: Event)
  {
    e.Settle? && Busy(s, e.k) && s.frames[e.k].reply.Some? && Conclusive(s.frames[e.k].reply.value)
  }

  function ProductiveSteps(s: System, events: seq<Event>): nat
  {
    if events == [] then 0
    else
      var n := |events| - 1;
      ProductiveSteps(s, events[..n]) + (if Productive(Run(s, events[..n]), events[n]) then 1 else 0)
  }

  ghost predicate NoNewRecordsAndStorageWorks(events: seq<Event>)
  {
    StorageWorks(events) && forall i | 0 <= i < |events| :: !events[i].Add?
  }

  lemma {:induction false} ProductiveStepsAppend(s: System, a: seq<Event>, b: seq<Event>)
    ensures ProductiveSteps(s, a + b) == ProductiveSteps(s, a) + ProductiveSteps(Run(s, a), b)
    decreases |b|
  {
    if b == [] {
      assert a + b == a;
    } else {
      hide Productive;
      var n := |b| - 1;
      assert (a + b)[..|a + b| - 1] == a + b[..n];
      ProductiveStepsAppend(s, a, b[..n]);
      RunAppend(s, a, b[..n]);
    }
  }

  lemma StepDrains(s: System, e: Event)
    requires Inv(s) && !e.Add? && (e.Settle? ==> e.ok)
    ensures Potential(Step(s, e).pending) + (if Productive(s, e) then 1 else 0) <= Potential(s.pending)
  {
    if e.Settle? && Busy(s, e.k) && s.frames[e.k].reply.Some? {
      SettleChangesQueueIff(s, e.ok);
    }
  }

  /** Each conclusive answer uses up at least one of the attempts that the queue has left. */
  lemma {:induction false} DrainBound(s: System, events: seq<Event>)
    requires Inv(s) && NoNewRecordsAndStorageWorks(events)
    ensures Potential(Run(s, events).pending) + ProductiveSteps(s, events) <= Potential(s.pending)
  {
    if events != [] {
      var n := |events| - 1;
      DrainBound(s, events[..n]);
      RunKeeps(s, events[..n]);
      StepDrains(Run(s, events[..n]), events[n]);
    }
  }

  lemma {:induction false} PotentialBounds(q: seq<PendingScan>)
    requires forall j | 0 <= j < |q| :: q[j].attempts < MAX_ATTEMPTS
    ensures |q| <= Potential(q) <= 8 * |q|
    ensures (forall j | 0 <= j < |q| :: q[j].attempts == 0) ==> Potential(q) == 8 * |q|
  {
    if q != [] {
      PotentialBounds(q[1..]);
    }
  }

  /** A queue of n records is empty after 8n conclusive answers, and never needs more. */
  lemma DrainedAfter(s: System, events: seq<Event>)
    requires Inv(s) && NoNewRecordsAndStorageWorks(events)
    ensures ProductiveSteps(s, events) <= 8 * |s.pending|
    ensures ProductiveSteps(s, events) == 8 * |s.pending| ==> Run(s, events).pending == []
  {
    DrainBound(s, events);
    RunKeeps(s, events);
    PotentialBounds(s.pending);
    PotentialBounds(Run(s, events).pending);
  }

  // ---- The head of the queue ------------------------------------------------------------------

  /** The head has left, or it is still the head and has used up at least `n` more attempts. */
  ghost predicate HeadProgress(s: System, s': System, n: nat)
    requires s.pending != []
  {
    && |s.audit.removed| <= |s'.audit.removed|
    && (|s.audit.removed| == |s'.audit.removed| ==>
          && s'.pending != []
          && s'.pending[0].(attempts := 0) == s.pending[0].(attempts := 0)
          && s'.pending[0].attempts >= s.pending[0].attempts + n)
  }

  /** A conclusive answer moves the head on, and nothing else moves it back, new records included. */
  lemma StepHead(s: System, e: Event)
    requires Inv(s) && s.pending != [] && (e.Settle? ==> e.ok)
    ensures HeadProgress(s, Step(s, e), if Productive(s, e) then 1 else 0)
  {
    if e.Settle? {
      if Busy(s, e.k) && s.frames[e.k].reply.Some? {
        SettleHead(s);
      }
    } else {
      StepGrows(s, e);
    }
  }

  lemma SettleHead(s: System)
    requires Inv(s) && s.pending != [] && Busy(s, 0) && s.frames[0].reply.Some?
    ensures HeadProgress(s, StepSettle(s, 0, true), if Conclusive(s.frames[0].reply.value) then 1 else 0)
  {
    hide Fifo, StepSettle;
    SettleChangesQueueIff(s, true);
    SettleFollowsVerdict(s, true);
    HeadIsItem(s);
    FifoSettled(s, StepSettle(s, 0, true), s.pending[0], s.frames[0].reply.value, true);
    var q := Patched(s.pending, s.pending[0].id, s.pending[0].attempts + 1);
    assert q[0] == s.pending[0].(attempts := s.pending[0].attempts + 1);
  }

  lemma {:induction false} RunHead(s: System, events: seq<Event>)
    requires Inv(s) && s.pending != [] && StorageWorks(events)
    ensures HeadProgress(s, Run(s, events), ProductiveSteps(s, events))
  {
    if events != [] {
      hide Step, Productive, Inv;
      var n := |events| - 1;
      RunHead(s, events[..n]);
      RunKeeps(s, events[..n]);
      var before := Run(s, events[..n]);
      StepKeeps(before, events[n]);
      if before.pending != [] {
        StepHead(before, events[n]);
      } else {
        StepGrows(before, events[n]);
      }
    }
  }

  /** History never shrinks over a run. */
  lemma {:induction false} RunGrows(s: System, events: seq<Event>)
    requires Inv(s)
    ensures s.audit.removed <= Run(s, events).audit.removed && s.audit.enqueued <= Run(s, events).audit.enqueued
  {
    if events != [] {
      hide Step, Inv;
      var n := |events| - 1;
      RunGrows(s, events[..n]);
      RunKeeps(s, events[..n]);
      StepGrows(Run(s, events[..n]), events[n]);
    }
  }

  /** What has left the head of the queue is no longer pending. */
  lemma GoneForGood(s: System, s': System)
    requires Inv(s) && Inv(s') && s.pending != [] && s.audit.enqueued <= s'.audit.enqueued
    requires |s'.audit.removed| > |s.audit.removed|
    ensures !IsPending(s', s.pending[0].id)
  {
    PendingIncreasing(s.audit.enqueued, s.audit.removed, s.pending, s.nextKey);
    PendingIncreasing(s'.audit.enqueued, s'.audit.removed, s'.pending, s'.nextKey);
    assert s.pending[0].id == s'.audit.enqueued[|s.audit.removed|].id;
  }

  /**
   One failing head blocks its successors for at most 8 conclusive answers, less those it has already had,
   however many records are queued behind it meanwhile.
   */
  lemma HeadBlocksAtMostEight(s: System, events: seq<Event>)
    requires Inv(s) && s.pending != [] && StorageWorks(events)
    requires ProductiveSteps(s, events) + s.pending[0].attempts >= 8
    ensures !IsPending(Run(s, events), s.pending[0].id)
  {
    RunHead(s, events);
    RunKeeps(s, events);
    RunGrows(s, events);
    GoneForGood(s, Run(s, events));
  }
}
