/** Why late duplicates need their guard: a run of offered buttons in which one finishes a task. */
module Overtaking {
  import opened Domain
  import opened TaskServer
  import opened Outbox
  import opened OutboxInvariants
  import opened ExactlyOnce
  import opened Overlay
  import opened Screen
  import opened ScreenRuns

  function DraftOf(uuid: string, action: Action): Draft
  {
    Draft(uuid, "t", action, "", "", 0)
  }

  const TASK := Task(Some("u"), SCHEDULED, None, None, None, [])
  const DB: Database := map["t" := TASK]

  const FIRST_START := PendingScan(1, DraftOf("a", Start), 0)
  const COMPLETION := PendingScan(2, DraftOf("b", Complete), 0)
  const SECOND_START := PendingScan(3, DraftOf("c", Start), 0)

  const REFUSED_RUN := Effect(2, CallOf(DraftOf("b", Complete), "u", 1, false))
  const ACCEPTED_RUN := Effect(3, CallOf(DraftOf("c", Start), "u", 2, false))

  function Queued(): System
  {
    System([FIRST_START, COMPLETION], 3, false, [], DB,
           Audit("t", Some(TASK), [FIRST_START, COMPLETION], [], [], {}, map[], map[], []))
  }

  function Loaded(): System
  {
    System([FIRST_START, COMPLETION], 3, true, [Draining("u", [FIRST_START, COMPLETION], 0, None, false, 0)], DB,
           Audit("t", Some(TASK), [FIRST_START, COMPLETION], [], [], {}, map[], map[], []))
  }

  function Dropping(): System
  {
    System([COMPLETION], 3, true, [Draining("u", [FIRST_START, COMPLETION], 1, None, true, 1)], DB,
           Audit("t", Some(TASK), [FIRST_START, COMPLETION], [Removal(1, Dropped)], [], {1}, map[], map[], []))
  }

  function Refusal(): System
  {
    System([], 3, false, [], DB,
           Audit("t", Some(TASK), [FIRST_START, COMPLETION], [Removal(1, Dropped), Removal(2, Refused)], [REFUSED_RUN],
                 {1, 2}, map[], map[], [FlushReport(2, true)]))
  }

  function Reloaded(): System
  {
    System([SECOND_START], 4, true, [Draining("u", [SECOND_START], 0, None, false, 0)], DB,
           Refusal().audit.(enqueued := [FIRST_START, COMPLETION, SECOND_START]))
  }

  function Restarted(): System
  {
    System([], 4, false, [], map["t" := TASK.(status := IN_PROGRESS, startedAt := Some(2))],
           Audit("t", Some(TASK), [FIRST_START, COMPLETION, SECOND_START],
                 [Removal(1, Dropped), Removal(2, Refused), Removal(3, Accepted)], [REFUSED_RUN, ACCEPTED_RUN],
                 {1, 2, 3}, map[], map[], [FlushReport(2, true), FlushReport(1, true)]))
  }

  lemma FirstButton()
    ensures var s := Step(Initial("t", DB), Add(DraftOf("a", Start), None, true));
            s.pending == [FIRST_START] && s.db == DB && s.audit.task == "t"
    ensures Step(Step(Initial("t", DB), Add(DraftOf("a", Start), None, true)),
                 Add(DraftOf("b", Complete), None, true)) == Queued()
  {
    hide Serve, CallOf, Counted;
  }

  lemma QueueIsLoaded()
    ensures Step(Step(Queued(), Trigger(true, Some("u"))), Load(0, true)) == Loaded()
  {
    assert Step(Queued(), Trigger(true, Some("u"))).frames == [Loading("u")];
  }

  lemma StartIsDropped()
    ensures Step(Step(Loaded(), Send(0, Undelivered, FromGateway(403))), Settle(0, true)) == Dropping()
  {
    hide Serve, CallOf, Authorised, Counted;
    var s := Step(Loaded(), Send(0, Undelivered, FromGateway(403)));
    assert s.frames == [Draining("u", [FIRST_START, COMPLETION], 0, Some(Response(403, false)), false, 0)];
    assert s.audit.sent == {1};
    WithoutHead([FIRST_START, COMPLETION]);
  }

  lemma CompletionIsRefused()
    ensures Step(Step(Dropping(), Send(0, Delivered(1, false), FromHandler)), Settle(0, true)) == Refusal()
  {
    var s := Step(Dropping(), Send(0, Delivered(1, false), FromHandler));
    assert s.db == DB;
    assert s.frames == [Draining("u", [FIRST_START, COMPLETION], 1, Some(Response(400, true)), true, 1)];
    assert s.audit.effects == [REFUSED_RUN] && s.audit.sent == {1, 2};
    assert Without([COMPLETION], 2) == [];
  }

  lemma SecondStartIsLoaded()
    ensures Step(Step(Step(Refusal(), Add(DraftOf("c", Start), None, true)), Trigger(true, Some("u"))), Load(0, true))
            == Reloaded()
  {
    hide Serve, CallOf, Counted;
    var s1 := Step(Refusal(), Add(DraftOf("c", Start), None, true));
    assert s1.pending == [SECOND_START] && s1.audit.enqueued == [FIRST_START, COMPLETION, SECOND_START];
    assert Step(s1, Trigger(true, Some("u"))).frames == [Loading("u")];
  }

  lemma SecondStartIsAccepted()
    ensures Step(Step(Reloaded(), Send(0, Delivered(2, false), FromHandler)), Settle(0, true)) == Restarted()
  {
    var s := Step(Reloaded(), Send(0, Delivered(2, false), FromHandler));
    assert s.db == Restarted().db;
    assert !Counted([REFUSED_RUN], 3);
    assert s.audit.effects == [REFUSED_RUN, ACCEPTED_RUN] && s.audit.sent == {1, 2, 3};
    assert s.frames == [Draining("u", [SECOND_START], 0, Some(Response(200, true)), false, 0)];
    assert Without([SECOND_START], 3) == [];
  }

  lemma DuplicateFinishes()
    ensures var s := Step(Restarted(), Late(1, "u", 3, false));
            && s.pending == [] && "t" in s.db && s.db["t"].status == DONE
            && s.audit.effects == [REFUSED_RUN, ACCEPTED_RUN]
  {
    assert Restarted().audit.enqueued[1] == COMPLETION;
    assert Restarted().audit.effects[0].id == 2;
  }

  lemma ScreenOf(s: System, shown: Status)
    requires "t" in s.db
    requires if s.pending == [] then s.db["t"].status == shown
             else |s.pending| == 1 && s.pending[0].draft.taskId == "t" && Target(s.pending[0].draft.action) == shown
    ensures OnScreen(s, "t") == shown
  {
    if s.pending != [] {
      assert s.pending[..0] == [];
    }
  }

  /** A run of offered buttons that assumes nothing else than the delivery theorem does. */
  ghost predicate Ordinary(events: seq<Event>)
  {
    PressedRun(Initial("t", DB), events) && AdmissibleRun(Initial("t", DB), events)
  }

  lemma Extend(events: seq<Event>, e: Event)
    requires PressedRun(Initial("t", DB), events) && Pressed(Run(Initial("t", DB), events), e)
    ensures Run(Initial("t", DB), events + [e]) == Step(Run(Initial("t", DB), events), e)
    ensures PressedRun(Initial("t", DB), events + [e])
    ensures Ordinary(events) && Admissible(Run(Initial("t", DB), events), e) ==> Ordinary(events + [e])
  {
    hide Step, Pressed, Admissible, Initial;
    var s0, more := Initial("t", DB), events + [e];
    assert more[..|events|] == events;
    forall i | 0 <= i < |more|
      ensures Pressed(Run(s0, more[..i]), more[i])
      ensures Ordinary(events) && Admissible(Run(s0, events), e) ==> Admissible(Run(s0, more[..i]), more[i])
    {
      if i < |events| {
        assert more[..i] == events[..i];
      }
    }
  }

  /** Neither the flush nor its triggers press buttons or break an assumption. */
  lemma ExtendByFlush(events: seq<Event>, e: Event)
    requires Ordinary(events) && (e.Trigger? || e.Load? || e.Send? || e.Settle?)
    ensures Ordinary(events + [e])
    ensures Run(Initial("t", DB), events + [e]) == Step(Run(Initial("t", DB), events), e)
  {
    hide Step, Run, Initial;
    Extend(events, e);
  }

  lemma ExtendByButton(events: seq<Event>, draft: Draft, shown: Status)
    requires Ordinary(events) && draft.action != Flag && Enabled(shown, draft.action)
    requires var s := Run(Initial("t", DB), events); s.audit.task == "t" && "t" in s.db && OnScreen(s, "t") == shown
    ensures Ordinary(events + [Add(draft, None, true)])
    ensures Run(Initial("t", DB), events + [Add(draft, None, true)])
            == Step(Run(Initial("t", DB), events), Add(draft, None, true))
  {
    hide Step, Run, Initial, OnScreen;
    Extend(events, Add(draft, None, true));
  }

  lemma NothingPressed()
    ensures Ordinary([]) && Run(Initial("t", DB), []) == Initial("t", DB)
  {
  }

  /** A start and a completion are queued, and the flush drops the first and sees the second refused. */
  lemma FirstFlush() returns (events: seq<Event>)
    ensures Ordinary(events) && Run(Initial("t", DB), events) == Refusal()
  {
    FirstButton();
    ScreenOf(Initial("t", DB), SCHEDULED);
    hide *;
    NothingPressed();
    ExtendByButton([], DraftOf("a", Start), SCHEDULED);
    events := [] + [Add(DraftOf("a", Start), None, true)];
    ScreenOf(Run(Initial("t", DB), events), IN_PROGRESS);
    ExtendByButton(events, DraftOf("b", Complete), IN_PROGRESS);
    events := events + [Add(DraftOf("b", Complete), None, true)];
    QueueIsLoaded();
    StartIsDropped();
    CompletionIsRefused();
    events := ByFlush(events, Queued(), Trigger(true, Some("u")), Load(0, true), Loaded());
    events := ByFlush(events, Loaded(), Send(0, Undelivered, FromGateway(403)), Settle(0, true), Dropping());
    events := ByFlush(events, Dropping(), Send(0, Delivered(1, false), FromHandler), Settle(0, true), Refusal());
  }

  lemma ByFlush(events: seq<Event>, s: System, e: Event, f: Event, s': System) returns (more: seq<Event>)
    requires Ordinary(events) && Run(Initial("t", DB), events) == s && Step(Step(s, e), f) == s'
    requires e.Trigger? || e.Send?
    requires f.Load? || f.Settle?
    ensures Ordinary(more) && Run(Initial("t", DB), more) == s'
  {
    hide *;
    ExtendByFlush(events, e);
    ExtendByFlush(events + [e], f);
    more := events + [e] + [f];
  }

  /** The list offers the start again, and the next flush has it accepted. */
  lemma SecondFlush() returns (events: seq<Event>)
    ensures Ordinary(events) && Run(Initial("t", DB), events) == Restarted()
  {
    ScreenOf(Refusal(), SCHEDULED);
    SecondStartIsLoaded();
    SecondStartIsAccepted();
    assert Refusal().audit.task == "t" && "t" in Refusal().db;
    hide *;
    events := FirstFlush();
    ExtendByButton(events, DraftOf("c", Start), SCHEDULED);
    events := events + [Add(DraftOf("c", Start), None, true)];
    events := ByFlush(events, Step(Refusal(), Add(DraftOf("c", Start), None, true)),
                      Trigger(true, Some("u")), Load(0, true), Reloaded());
    events := ByFlush(events, Reloaded(), Send(0, Delivered(2, false), FromHandler), Settle(0, true), Restarted());
  }

  lemma TwoCalls(a: Effect, b: Effect)
    ensures Calls([a, b]) == [a.call, b.call]
  {
    hide Calls;
  }

  lemma TwoReplayed(task: Task, c: Call, d: Call)
    ensures Replay(task, [c, d]) == Handle(Handle(task, c).task, d).task
  {
    hide Handle;
    assert [c, d][..1] == [c] && [c][..0] == [];
    assert Replay(task, [c]) == Handle(task, c).task;
  }

  lemma InOrderOnlyStarts()
    ensures Replay(TASK, Calls([REFUSED_RUN, ACCEPTED_RUN])).status == IN_PROGRESS
  {
    var c, d := REFUSED_RUN.call, ACCEPTED_RUN.call;
    assert Calls([REFUSED_RUN, ACCEPTED_RUN]) == [c, d] by { TwoCalls(REFUSED_RUN, ACCEPTED_RUN); }
    assert Handle(TASK, c).task == TASK;
    assert Handle(TASK, d).task.status == IN_PROGRESS;
    hide *;
    TwoReplayed(TASK, c, d);
  }

  /**
   A start is dropped on a gateway's 403, the completion behind it is refused, a second start is accepted,
   and then a duplicate of the completion arrives late and finishes the task. Every button was offered and
   only the last event breaks an assumption, but the row is not the fold of the first runs.
   */
  lemma LateCompletionOvertakes() returns (events: seq<Event>, late: Event)
    ensures late.Late? && Ordinary(events) && PressedRun(Initial("t", DB), events + [late])
    ensures var s := Run(Initial("t", DB), events + [late]);
            && s.pending == [] && "t" in s.db && s.db["t"].status == DONE
            && Replay(DB["t"], Calls(s.audit.effects)).status == IN_PROGRESS
  {
    late := Late(1, "u", 3, false);
    DuplicateFinishes();
    InOrderOnlyStarts();
    assert Pressed(Restarted(), late);
    assert DB["t"] == TASK;
    hide *;
    events := SecondFlush();
    OrdinaryIsPressed(events);
    Extend(events, late);
  }

  lemma OrdinaryIsPressed(events: seq<Event>)
    requires Ordinary(events)
    ensures PressedRun(Initial("t", DB), events)
  {
  }
}
