/** The staff member's screen over whole runs of the outbox. */
module ScreenRuns {
  import opened Domain
  import opened TaskServer
  import opened Outbox
  import opened OutboxInvariants
  import opened ExactlyOnce
  import opened Overlay
  import opened Screen

  function Actions(q: seq<PendingScan>): (r: seq<Action>)
    ensures |r| == |q| && forall i | 0 <= i < |r| :: r[i] == q[i].draft.action
  {
    if q == [] then [] else Actions(q[..|q| - 1]) + [q[|q| - 1].draft.action]
  }

  function MineActions(q: seq<PendingScan>, task: string): seq<Action>
  {
    Actions(Mine(q, task))
  }

  /** The card that the list renders for a task row. */
  function Card(id: string, task: Task): DailyTask
  {
    DailyTask(id, "", "", task.status, 0, task.startedAt, task.completedAt, [], false)
  }

  /** The status on the screen: the server row with the pending queue painted over it. */
  function OnScreen(s: System, task: string): Status
    requires task in s.db
  {
    PaintAll(Card(task, s.db[task]), s.pending).status
  }

  lemma OnScreenIsShown(s: System, task: string)
    requires task in s.db
    ensures OnScreen(s, task) == Shown(s.db[task].status, MineActions(s.pending, task))
  {
    OverlayFields(Card(task, s.db[task]), s.pending);
  }

  // ---- Own records ----------------------------------------------------------------------------

  lemma {:induction false} MineAppend(a: seq<PendingScan>, b: seq<PendingScan>, task: string)
    ensures Mine(a + b, task) == Mine(a, task) + Mine(b, task)
    decreases |b|
  {
    if b == [] {
      assert a + b == a;
    } else {
      assert (a + b)[..|a + b| - 1] == a + b[..|b| - 1];
      MineAppend(a, b[..|b| - 1], task);
    }
  }

  /** Attempts do not matter for which actions are queued. */
  lemma {:induction false} SameActions(p: seq<PendingScan>, q: seq<PendingScan>, task: string)
    requires |p| == |q| && forall i | 0 <= i < |p| :: p[i].(attempts := 0) == q[i].(attempts := 0)
    ensures |Mine(p, task)| == |Mine(q, task)| && MineActions(p, task) == MineActions(q, task)
  {
    if p != [] {
      var n := |p| - 1;
      SameActions(p[..n], q[..n], task);
      assert p[n].(attempts := 0) == q[n].(attempts := 0);
      assert Mine(p, task)[..|Mine(p[..n], task)|] == Mine(p[..n], task);
      assert Mine(q, task)[..|Mine(q[..n], task)|] == Mine(q[..n], task);
    }
  }

  lemma {:induction false} MineIdsAreMine(q: seq<PendingScan>, task: string)
    ensures |MineIds(q, task)| == |Mine(q, task)|
    ensures forall k | 0 <= k < |Mine(q, task)| :: MineIds(q, task)[k] == Mine(q, task)[k].id
  {
    if q != [] {
      MineIdsAreMine(q[1..], task);
      assert q == [q[0]] + q[1..];
      MineAppend([q[0]], q[1..], task);
      assert [q[0]][..0] == [];
    }
  }

  // ---- The server row, as far as the status goes ----------------------------------------------

  ghost predicate FlagsHaveReasons(q: seq<PendingScan>)
  {
    forall r | r in q :: r.draft.action == Flag ==> r.draft.reason != ""
  }

  lemma {:induction false} ReplayFoldsActions(task: string, origin: Task, effects: seq<Effect>,
                                              records: seq<PendingScan>)
    requires |effects| == |records| && FlagsHaveReasons(records)
    requires forall k | 0 <= k < |effects| :: RunOf(effects[k], records[k], task, origin.owner)
    ensures Replay(origin, Calls(effects)).status == ServerFold(origin.status, Actions(records))
  {
    if effects != [] {
      var n := |effects| - 1;
      ReplayFoldsActions(task, origin, effects[..n], records[..n]);
      OwnersKept(origin, Calls(effects[..n]));
      var e := effects[n];
      assert RunOf(e, records[n], task, origin.owner);
      ServerStepIsTheHandler(Replay(origin, Calls(effects[..n])), records[n].draft, origin.owner.value,
                             e.call.at, e.call.scanWriteFails);
      assert Calls(effects)[..n] == Calls(effects[..n]);
      assert Actions(records)[..n] == Actions(records[..n]);
    }
  }

  ghost predicate Lossless(a: Audit)
  {
    forall i | 0 <= i < |a.removed| && i < |a.enqueued| && a.enqueued[i].draft.taskId == a.task ::
      Final(a.removed[i].how)
  }

  ghost predicate LegalQueue(enqueued: seq<PendingScan>, task: string, origin: Option<Task>)
  {
    && FlagsHaveReasons(Mine(enqueued, task))
    && (origin.Some? ==> Legal(origin.value.status, MineActions(enqueued, task)))
  }

  ghost predicate LegalHistory(a: Audit)
  {
    LegalQueue(a.enqueued, a.task, a.origin)
  }

  /** When every action has run, the row has the status that the whole history predicts. */
  lemma CountedShowsHistory(s: System)
    requires Once(s) && s.audit.origin.Some? && AllCounted(s) && LegalHistory(s.audit)
    ensures s.db[s.audit.task].status == Shown(s.audit.origin.value.status, MineActions(s.audit.enqueued, s.audit.task))
  {
    var a := s.audit;
    var mine := Mine(a.enqueued, a.task);
    hide Inv, NotBefore, Covered, AnswerHonest, AllRecorded, AllCounted, Legal, Recorded;
    AllCountedMeansExactlyOnce(s);
    MineIdsAreMine(a.enqueued, a.task);
    MineProperties(a.enqueued, a.task);
    assert |a.effects| == |EffectIds(a.effects)| == |mine|;
    forall k | 0 <= k < |a.effects| ensures RunOf(a.effects[k], mine[k], a.task, a.origin.value.owner) {
      assert EffectIds(a.effects)[k] == MineIds(a.enqueued, a.task)[k];
      assert mine[k] in a.enqueued;
      FreshAttempts(s);
      CountedIsRunOf(s, k, mine[k]);
    }
    ReplayFoldsActions(a.task, a.origin.value, a.effects, mine);
    LegalFold(a.origin.value.status, Actions(mine));
  }

  lemma DrainedShowsHistory(s: System)
    requires Once(s) && s.audit.origin.Some? && Lossless(s.audit) && LegalHistory(s.audit)
    requires forall p | p in s.pending :: p.draft.taskId != s.audit.task
    ensures s.db[s.audit.task].status == Shown(s.audit.origin.value.status, MineActions(s.audit.enqueued, s.audit.task))
  {
    hide Once, LegalHistory, AllCounted;
    SettledIsCounted(s);
    CountedShowsHistory(s);
  }

  /** The buttons never offer anything after a completion, so its record is the task's last. */
  lemma CompletionIsLast(enqueued: seq<PendingScan>, r: PendingScan, task: string, origin: Option<Task>)
    requires LegalQueue(enqueued, task, origin) && origin.Some? && Increasing(enqueued)
    requires r in enqueued && r.draft.taskId == task && r.draft.action.Complete?
    ensures Shown(origin.value.status, MineActions(enqueued, task)) == DONE
    ensures forall x | x in enqueued && x.draft.taskId == task :: x.id <= r.id
  {
    var mine := Mine(enqueued, task);
    MineProperties(enqueued, task);
    LegalIsShort(origin.value.status, Actions(mine));
    MineIdsAscending(enqueued, task);
    MineIdsAreMine(enqueued, task);
    hide Legal, LegalQueue, Mine;
    var k :| 0 <= k < |mine| && mine[k] == r;
    assert Actions(mine)[k] == Complete;
    assert k == |mine| - 1;
    forall x | x in enqueued && x.draft.taskId == task ensures x.id <= r.id {
      var i :| 0 <= i < |mine| && mine[i] == x;
      assert MineIds(enqueued, task)[i] == x.id && MineIds(enqueued, task)[k] == r.id;
    }
  }

  /**
   If no record was lost and every action was offered by a button, a completion that has run has finished
   the task: a late duplicate of it, and hence any late duplicate, is quiet.
   */
  lemma OfferedDuplicatesAreQuiet(s: System, r: PendingScan)
    requires Once(s) && s.audit.origin.Some? && Lossless(s.audit) && LegalHistory(s.audit)
    requires r in s.audit.enqueued && r.draft.taskId == s.audit.task && Counted(s.audit.effects, r.id)
    ensures r.draft.action.Complete? ==> s.db[s.audit.task].status == DONE
    ensures LateInOrder(s, r)
  {
    if r.draft.action.Complete? {
      var a := s.audit;
      CompletionIsLast(a.enqueued, r, a.task, a.origin);
      CompletionCountsAll(s, r);
      hide Once, Lossless, LegalHistory, AllCounted, Shown;
      CountedShowsHistory(s);
    }
  }

  lemma CompletionCountsAll(s: System, r: PendingScan)
    requires Once(s) && s.audit.origin.Some? && Lossless(s.audit)
    requires r in s.audit.enqueued && r.draft.taskId == s.audit.task && Counted(s.audit.effects, r.id)
    requires forall x | x in s.audit.enqueued && x.draft.taskId == s.audit.task :: x.id <= r.id
    ensures AllCounted(s)
  {
    var a := s.audit;
    hide Ledger, AllRecorded, AnswerHonest, Increasing;
    var n :| 0 <= n < |a.effects| && a.effects[n].id == r.id;
    forall i | 0 <= i < |a.enqueued| && a.enqueued[i].draft.taskId == a.task
      ensures Counted(a.effects, a.enqueued[i].id)
    {
      if i < |a.removed| {
        assert Final(a.removed[i].how);
      } else {
        var p := s.pending[i - |a.removed|];
        assert p.(attempts := 0) == a.enqueued[i];
        assert a.effects[n].id <= p.id;
        assert a.enqueued[i] in a.enqueued;
      }
    }
  }

  lemma HistoryEndsWithPending(enqueued: seq<PendingScan>, removed: seq<Removal>, pending: seq<PendingScan>,
                               nextKey: nat, task: string)
    requires Fifo(enqueued, removed, pending, nextKey)
    ensures MineActions(enqueued, task) == MineActions(enqueued[..|removed|], task) + MineActions(pending, task)
  {
    hide Increasing;
    var gone, rest := enqueued[..|removed|], enqueued[|removed|..];
    assert enqueued == gone + rest;
    MineAppend(gone, rest, task);
    forall i | 0 <= i < |pending| ensures pending[i].(attempts := 0) == rest[i].(attempts := 0) {
      assert pending[i].(attempts := 0) == enqueued[|removed| + i];
    }
    SameActions(pending, rest, task);
  }

  lemma NoneMine(q: seq<PendingScan>, task: string)
    requires MineActions(q, task) == []
    ensures forall p | p in q :: p.draft.taskId != task
  {
    MineProperties(q, task);
    forall p | p in q ensures p.draft.taskId != task {
      assert p !in Mine(q, task);
    }
  }

  /** The screen shows the history's prediction, however much of it has been replayed. */
  lemma ScreenShowsHistory(s: System)
    requires Once(s) && s.audit.origin.Some? && Lossless(s.audit) && LegalHistory(s.audit)
    ensures OnScreen(s, s.audit.task) == Shown(s.audit.origin.value.status, MineActions(s.audit.enqueued, s.audit.task))
  {
    var a := s.audit;
    OnScreenIsShown(s, a.task);
    HistoryEndsWithPending(a.enqueued, a.removed, s.pending, s.nextKey, a.task);
    if MineActions(s.pending, a.task) == [] {
      NoneMine(s.pending, a.task);
      DrainedShowsHistory(s);
    }
  }

  // ---- Runs -----------------------------------------------------------------------------------

  /** A record of the observed task is queued only by a button that the screen offers. */
  ghost predicate Pressed(s: System, e: Event)
  {
    e.Add? && e.draft.taskId == s.audit.task && Stores(s.pending, e.draft, e.stored) && s.audit.task in s.db ==>
      Enabled(OnScreen(s, s.audit.task), e.draft.action) && (e.draft.action == Flag ==> e.draft.reason != "")
  }

  ghost predicate PressedRun(s: System, events: seq<Event>)
  {
    forall i | 0 <= i < |events| :: Pressed(Run(s, events[..i]), events[i])
  }

  lemma LosslessBefore(s: System, e: Event)
    requires Inv(s) && Lossless(Step(s, e).audit) && Step(s, e).audit.task == s.audit.task
    ensures Lossless(s.audit)
  {
    StepGrows(s, e);
    var a, b := s.audit, Step(s, e).audit;
    forall i | 0 <= i < |a.removed| && i < |a.enqueued| && a.enqueued[i].draft.taskId == a.task
      ensures Final(a.removed[i].how)
    {
      assert b.removed[i] == a.removed[i] && b.enqueued[i] == a.enqueued[i];
    }
  }

  lemma {:induction false} LegalAppend(status: Status, q: seq<Action>, a: Action)
    requires Legal(status, q) && Enabled(Shown(status, q), a)
    ensures Legal(status, q + [a])
  {
    forall i | 0 <= i < |q + [a]| ensures Enabled(Shown(status, (q + [a])[..i]), (q + [a])[i]) {
      assert i < |q| ==> (q + [a])[..i] == q[..i];
      assert i == |q| ==> (q + [a])[..i] == q;
    }
  }

  lemma ActionsSnoc(q: seq<PendingScan>, r: PendingScan)
    ensures Actions(q + [r]) == Actions(q) + [r.draft.action]
  {
    assert (q + [r])[..|q|] == q;
  }

  lemma LegalQueueAppend(enqueued: seq<PendingScan>, r: PendingScan, task: string, origin: Option<Task>)
    requires LegalQueue(enqueued, task, origin) && origin.Some?
    requires r.draft.taskId == task ==>
               && Enabled(Shown(origin.value.status, MineActions(enqueued, task)), r.draft.action)
               && (r.draft.action == Flag ==> r.draft.reason != "")
    ensures LegalQueue(enqueued + [r], task, origin)
  {
    MineSnoc(enqueued, r, task);
    if r.draft.taskId == task {
      ActionsSnoc(Mine(enqueued, task), r);
      LegalAppend(origin.value.status, MineActions(enqueued, task), r.draft.action);
    } else {
      assert Mine(enqueued, task) + [] == Mine(enqueued, task);
    }
  }

  lemma AddFields(s: System, draft: Draft, attempt: Option<Attempt>, stored: bool)
    requires Stores(s.pending, draft, stored)
    ensures var b := StepAdd(s, draft, attempt, stored).audit;
            && b.enqueued == s.audit.enqueued + [PendingScan(s.nextKey, draft, 0)]
            && b.task == s.audit.task && b.origin == s.audit.origin
  {
  }

  lemma AddStaysLegal(s: System, draft: Draft, attempt: Option<Attempt>, stored: bool)
    requires Once(s) && Lossless(s.audit) && LegalHistory(s.audit) && Pressed(s, Add(draft, attempt, stored))
    requires Stores(s.pending, draft, stored) && s.audit.origin.Some?
    ensures LegalHistory(StepAdd(s, draft, attempt, stored).audit)
  {
    ScreenShowsHistory(s);
    LegalQueueAppend(s.audit.enqueued, PendingScan(s.nextKey, draft, 0), s.audit.task, s.audit.origin);
    AddFields(s, draft, attempt, stored);
  }

  lemma StepStaysLegal(s: System, e: Event)
    requires Once(s) && s.audit.origin.Some? && LegalHistory(s.audit) && Pressed(s, e)
    requires Lossless(Step(s, e).audit) && Step(s, e).audit.task == s.audit.task
    requires Step(s, e).audit.origin == s.audit.origin
    ensures LegalHistory(Step(s, e).audit)
  {
    StepGrows(s, e);
    LosslessBefore(s, e);
    if e.Add? && Stores(s.pending, e.draft, e.stored) {
      AddStaysLegal(s, e.draft, e.attempt, e.stored);
    }
  }

  lemma RunPrefix(s0: System, events: seq<Event>, n: nat)
    requires Inv(s0)
    requires AdmissibleRun(s0, events) && PressedRun(s0, events) && |events| == n + 1
    requires Lossless(Run(s0, events).audit)
    ensures AdmissibleRun(s0, events[..n]) && PressedRun(s0, events[..n]) && Lossless(Run(s0, events[..n]).audit)
    ensures Run(s0, events) == Step(Run(s0, events[..n]), events[n])
    ensures Run(s0, events).audit.task == Run(s0, events[..n]).audit.task
    ensures Run(s0, events).audit.origin == Run(s0, events[..n]).audit.origin == s0.audit.origin
    ensures Pressed(Run(s0, events[..n]), events[n])
  {
    forall i | 0 <= i < n
      ensures Admissible(Run(s0, events[..n][..i]), events[..n][i])
      ensures Pressed(Run(s0, events[..n][..i]), events[..n][i])
    {
      assert events[..n][..i] == events[..i];
    }
    ObservationFixed(s0, events[..n]);
    ObservationFixed(s0, events);
    RunKeeps(s0, events[..n]);
    LosslessBefore(Run(s0, events[..n]), events[n]);
  }

  lemma {:induction false} LegalRun(s: System, events: seq<Event>)
    requires Once(s) && s.audit.origin.Some? && LegalHistory(s.audit)
    requires AdmissibleRun(s, events) && PressedRun(s, events) && Lossless(Run(s, events).audit)
    ensures LegalHistory(Run(s, events).audit)
  {
    if events != [] {
      var n := |events| - 1;
      RunPrefix(s, events, n);
      RunKeepsOnce(s, events[..n]);
      LegalRun(s, events[..n]);
      StepStaysLegal(Run(s, events[..n]), events[n]);
    }
  }

  lemma InitialIsLegal(task: string, db: Database)
    requires task in db
    ensures var s0 := Initial(task, db);
            Once(s0) && LegalHistory(s0.audit) && s0.audit.task == task && s0.audit.origin == Some(db[task])
  {
    assert Mine([], task) == [] && Actions([]) == [];
  }

  lemma ScreenOfRun(s0: System, events: seq<Event>)
    requires Once(s0) && s0.audit.origin.Some? && LegalHistory(s0.audit)
    requires AdmissibleRun(s0, events) && PressedRun(s0, events) && Lossless(Run(s0, events).audit)
    ensures var s, task := Run(s0, events), s0.audit.task;
            && task in s.db
            && OnScreen(s, task) == Shown(s0.audit.origin.value.status, MineActions(s.audit.enqueued, task))
  {
    RunKeepsOnce(s0, events);
    LegalRun(s0, events);
    ObservationFixed(s0, events);
    ScreenShowsHistory(Run(s0, events));
  }

  /**
   In every reachable state from which no own record was lost, the screen shows the target of the last
   action the staff member queued, or the original status: sends, replies, retries, duplicates and
   removals never show.
   */
  lemma ScreenIsStable(task: string, db: Database, events: seq<Event>)
    requires task in db
    requires AdmissibleRun(Initial(task, db), events) && PressedRun(Initial(task, db), events)
    requires Lossless(Run(Initial(task, db), events).audit)
    ensures var s := Run(Initial(task, db), events);
            task in s.db && OnScreen(s, task) == Shown(db[task].status, MineActions(s.audit.enqueued, task))
  {
    hide Once, LegalHistory, Run, AdmissibleRun, PressedRun, Lossless, Shown, MineActions, OnScreen, Initial;
    InitialIsLegal(task, db);
    ScreenOfRun(Initial(task, db), events);
  }

  /** Syncing is invisible: a step that queues nothing leaves the shown status as it is. */
  lemma SyncingIsInvisible(task: string, db: Database, events: seq<Event>, e: Event)
    requires task in db && !e.Add?
    requires AdmissibleRun(Initial(task, db), events + [e]) && PressedRun(Initial(task, db), events + [e])
    requires Lossless(Run(Initial(task, db), events + [e]).audit)
    ensures var s := Run(Initial(task, db), events);
            task in s.db && task in Step(s, e).db && OnScreen(Step(s, e), task) == OnScreen(s, task)
  {
    var s0 := Initial(task, db);
    assert (events + [e])[..|events|] == events;
    RunPrefix(s0, events + [e], |events|);
    ScreenIsStable(task, db, events);
    ScreenIsStable(task, db, events + [e]);
    RunKeeps(s0, events);
    StepGrows(Run(s0, events), e);
  }

  /** After a full drain the plain server row has the status that the screen has been showing. */
  lemma DrainedScreenIsServer(task: string, db: Database, events: seq<Event>)
    requires task in db
    requires AdmissibleRun(Initial(task, db), events) && PressedRun(Initial(task, db), events)
    requires Lossless(Run(Initial(task, db), events).audit) && Run(Initial(task, db), events).pending == []
    ensures var s := Run(Initial(task, db), events);
            task in s.db && s.db[task].status == Shown(db[task].status, MineActions(s.audit.enqueued, task))
  {
    ScreenIsStable(task, db, events);
    var s := Run(Initial(task, db), events);
    ObservationFixed(Initial(task, db), events);
    OnScreenIsShown(s, task);
    assert Mine([], task) == [] && Actions([]) == [];
  }
}
