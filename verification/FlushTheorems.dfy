/** What a whole call of `flushQueue` achieves, and what it can miss. */
module FlushTheorems {
  import opened Domain
  import opened TaskServer
  import opened Outbox
  import opened OutboxInvariants
  import opened OutboxTheorems
  import opened SyncServices

  // ---- A full pass and the wake-up it can lose -------------------------------------------------

  /** The request comes back with an answer that takes the record out of the queue. */
  predicate Removing(turn: Turn)
  {
    && turn.storageOk
    && match turn.answer
       case Lost => false
       case FromHandler => turn.reach.Delivered? && !turn.reach.scanWriteFails
       case FromGateway(code) => 400 <= code < 500 && code != 401
  }

  lemma HandlersAnswer(db: Database, id: string, call: Call)
    requires !call.scanWriteFails
    ensures var code := Serve(db, id, call).1; code == OK || code == BAD_REQUEST || code == NOT_FOUND
  {
  }

  lemma OutsideStepsKeep(s: System, e: OutsideEvent)
    requires s.isFlushing
    ensures var s' := Step(s, e);
            && s'.isFlushing && s'.frames == s.frames && s'.audit.removed == s.audit.removed
            && s.audit.enqueued <= s'.audit.enqueued
            && (!e.Add? ==> s'.audit.enqueued == s.audit.enqueued)
  {
    hide Serve, CallOf, Counted, Authorised;
  }

  /** Nothing outside touches the activation or removes a record; at most it queues new ones. */
  lemma {:induction false} OutsideKeepsFlush(s: System, events: seq<OutsideEvent>)
    requires s.isFlushing
    ensures var s' := Run(s, events);
            && s'.isFlushing && s'.frames == s.frames && s'.audit.removed == s.audit.removed
            && s.audit.enqueued <= s'.audit.enqueued
  {
    if events != [] {
      hide Step;
      var n := |events| - 1;
      OutsideKeepsFlush(s, events[..n]);
      OutsideStepsKeep(Run(s, events[..n]), events[n]);
    }
  }

  /** The activation works on `queue`, has removed its first `k` records, and ends with the last one. */
  ghost predicate InPass(s0: System, s: System, queue: seq<PendingScan>, k: nat)
  {
    && Inv(s) && k <= |queue|
    && s0.audit.enqueued <= s.audit.enqueued
    && |s.audit.removed| == |s0.audit.removed| + k
    && (if k < |queue|
        then |s.frames| == 1 && s.frames[0].Draining? && s.frames[0].snapshot == queue
             && s.frames[0].pos == k && s.frames[0].reply.None?
        else s.frames == [])
  }

  lemma SendIsAnswered(s: System, turn: Turn)
    requires Inv(s) && Busy(s, 0) && s.frames[0].reply.None? && Removing(turn)
    ensures var s' := StepSend(s, 0, turn.reach, turn.answer);
            var f := s.frames[0];
            && s'.isFlushing && |s'.frames| == 1 && s'.frames[0].Draining?
            && s'.frames[0].snapshot == f.snapshot && s'.frames[0].pos == f.pos
            && s'.audit.enqueued == s.audit.enqueued && s'.audit.removed == s.audit.removed
            && s'.frames[0].reply.Some? && s'.frames[0].reply.value.Response?
            && var status := s'.frames[0].reply.value.status;
               status != 401 && 200 <= status < 500 && !(300 <= status < 400)
  {
    var f := s.frames[0];
    var item := f.snapshot[f.pos];
    if turn.answer.FromHandler? {
      HandlersAnswer(s.db, item.draft.taskId, CallOf(item.draft, f.user, turn.reach.at, turn.reach.scanWriteFails));
    }
  }

  lemma TurnPasses(s0: System, s: System, queue: seq<PendingScan>, k: nat, turn: Turn)
    requires InPass(s0, s, queue, k) && k < |queue| && Removing(turn)
    ensures InPass(s0, Run(s, TurnEvents(turn)), queue, k + 1)
  {
    hide Fifo, StepSend, StepSettle, TurnEvents, Without, Patched, At;
    TurnRun(s, turn);
    SendIsAnswered(s, turn);
    var s1 := StepSend(s, 0, turn.reach, turn.answer);
    SendKeeps(s, 0, turn.reach, turn.answer);
    OutsideKeepsFlush(s1, turn.meanwhile);
    RunKeeps(s1, turn.meanwhile);
    var s2 := Run(s1, turn.meanwhile);
    SettleKeeps(s2, 0, turn.storageOk);
    SettleFollowsVerdict(s2, true);
  }

  lemma {:induction false} TurnsPass(s0: System, s: System, queue: seq<PendingScan>, turns: seq<Turn>)
    requires InPass(s0, s, queue, 0) && |turns| <= |queue|
    requires forall i | 0 <= i < |turns| :: Removing(turns[i])
    ensures InPass(s0, Run(s, TurnsEvents(turns)), queue, |turns|)
  {
    if turns != [] {
      var n := |turns| - 1;
      TurnsPass(s0, s, queue, turns[..n]);
      TurnsSnoc(s, turns, n);
      assert turns[..n + 1] == turns;
      TurnPasses(s0, Run(s, TurnsEvents(turns[..n])), queue, n, turns[n]);
    }
  }

  /** The state in which a flush reads the queue, after what went on while it was waiting to. */
  function Reading(s: System, user: string, early: seq<OutsideEvent>): System
  {
    Run(StepTrigger(s, true, Some(user)), early)
  }

  /** The state in which a flush sends its first record. */
  function Opened(s: System, user: string, early: seq<OutsideEvent>): System
  {
    StepLoad(Reading(s, user, early), 0, true)
  }

  lemma OpenedIsOpen(s: System, user: string, early: seq<OutsideEvent>)
    requires Inv(s) && s.frames == []
    ensures var r, o := Reading(s, user, early), Opened(s, user, early);
            && Inv(r) && Inv(o) && o.pending == r.pending && r.frames == [Loading(user)]
            && o.audit.removed == r.audit.removed == s.audit.removed
            && s.audit.enqueued <= r.audit.enqueued == o.audit.enqueued
            && (r.pending != [] ==> o.frames == [Draining(user, r.pending, 0, None, false, 0)])
            && (r.pending == [] ==> o.frames == [])
  {
    var s1 := StepTrigger(s, true, Some(user));
    StepKeeps(s, Trigger(true, Some(user)));
    RunKeeps(s1, early);
    OutsideKeepsFlush(s1, early);
    LoadKeeps(Reading(s, user, early), 0, true);
  }

  lemma FlushIsTurns(s: System, user: string, early: seq<OutsideEvent>, turns: seq<Turn>)
    ensures Run(s, FlushEvents(true, Some(user), early, true, turns)) == Run(Opened(s, user, early), TurnsEvents(turns))
  {
    FlushContinues(s, true, Some(user), early, true, turns, |turns|);
    assert turns[..|turns|] == turns;
  }

  /**
   When every reply removes its record, a flush removes exactly the records that were queued before it
   read the queue. Records queued after that stay behind although each of them fired its trigger, and the
   flush ends idle: it leaves an empty queue if and only if nothing was queued meanwhile.
   */
  lemma FullPassMissesArrivals(s: System, user: string, early: seq<OutsideEvent>, turns: seq<Turn>)
    requires Inv(s) && s.frames == [] && |turns| == |Reading(s, user, early).pending|
    requires forall i | 0 <= i < |turns| :: Removing(turns[i])
    ensures var read := Reading(s, user, early).audit.enqueued;
            var s' := Run(s, FlushEvents(true, Some(user), early, true, turns));
            && Inv(s') && !s'.isFlushing && s'.frames == []
            && s.audit.enqueued <= read <= s'.audit.enqueued
            && |s'.audit.removed| == |read|
            && (s'.pending == [] <==> s'.audit.enqueued == read)
  {
    hide Reading, Opened, TurnsEvents, FlushEvents;
    FlushIsTurns(s, user, early, turns);
    OpenedIsOpen(s, user, early);
    var r, o := Reading(s, user, early), Opened(s, user, early);
    assert InPass(r, o, r.pending, 0);
    TurnsPass(r, o, r.pending, turns);
  }

  const OLD := PendingScan(1, Draft("a", "t", Start, "", "", 0), 0)
  const NEW := PendingScan(2, Draft("b", "t", Complete, "", "", 0), 0)
  const SCHEDULED_TASK := Task(Some("u"), SCHEDULED, None, None, None, [])
  const STARTED_TASK := Task(Some("u"), IN_PROGRESS, Some(1), None, None, [])
  const START_RUN := Effect(1, CallOf(OLD.draft, "u", 1, false))

  /** The start is delivered; while its answer is on the way the completion is queued and fires its trigger. */
  const BUSY_TURN :=
    Turn(Delivered(1, false), FromHandler, [Add(NEW.draft, None, true), Trigger(true, Some("u"))], true)

  function OneQueued(): System
  {
    System([OLD], 2, false, [], map["t" := SCHEDULED_TASK],
           Audit("t", Some(SCHEDULED_TASK), [OLD], [], [], {}, map[], map[], []))
  }

  function OneSent(): System
  {
    System([OLD], 2, true, [Draining("u", [OLD], 0, Some(Response(200, true)), false, 0)], map["t" := STARTED_TASK],
           Audit("t", Some(SCHEDULED_TASK), [OLD], [], [START_RUN], {1}, map[], map[], []))
  }

  function OneMore(): System
  {
    OneSent().(pending := [OLD, NEW], nextKey := 3, audit := OneSent().audit.(enqueued := [OLD, NEW]))
  }

  lemma OneIsSent()
    ensures StepSend(Opened(OneQueued(), "u", []), 0, Delivered(1, false), FromHandler) == OneSent()
  {
    var o := Opened(OneQueued(), "u", []);
    assert o.frames == [Draining("u", [OLD], 0, None, false, 0)];
    var s := StepSend(o, 0, Delivered(1, false), FromHandler);
    assert s.db == map["t" := STARTED_TASK];
    assert s.audit.effects == [START_RUN];
    assert s.frames == OneSent().frames;
  }

  lemma OneArrives()
    ensures Run(OneSent(), BUSY_TURN.meanwhile) == OneMore()
  {
    hide Serve, CallOf, Counted;
    var events := BUSY_TURN.meanwhile;
    assert events[..2] == events && events[..1][..0] == [] && events[..2][..1] == events[..1];
    var s := StepAdd(OneSent(), NEW.draft, None, true);
    assert s.pending == [OLD, NEW] && s.audit.enqueued == [OLD, NEW];
    assert Run(OneSent(), events[..1]) == s;
  }

  lemma OneLeaves()
    ensures var s := StepSettle(OneMore(), 0, true);
            && s.pending == [NEW] && s.frames == [] && !s.isFlushing
            && s.audit.removed == [Removal(1, Accepted)]
            && s.db["t"].status == IN_PROGRESS
  {
    assert Without([NEW], 1) == [NEW];
    assert [OLD, NEW][1..] == [NEW];
  }

  /** A completion queued behind a start that is being sent stays behind, with the flush over and idle. */
  lemma ArrivalStaysBehind()
    ensures var s := Run(OneQueued(), FlushEvents(true, Some("u"), [], true, [BUSY_TURN]));
            && s.pending == [NEW] && s.frames == [] && !s.isFlushing
            && s.audit.removed == [Removal(1, Accepted)] && s.audit.enqueued == [OLD, NEW]
  {
    OneIsSent();
    OneArrives();
    OneLeaves();
    SettleKeepsHistory(OneMore());
    assert BUSY_TURN.reach == Delivered(1, false) && BUSY_TURN.answer == FromHandler && BUSY_TURN.storageOk;
    assert OneMore().audit.enqueued == [OLD, NEW];
    OneTurn();
    hide *;
    FlushIsTurns(OneQueued(), "u", [], [BUSY_TURN]);
    TurnRun(Opened(OneQueued(), "u", []), BUSY_TURN);
  }

  lemma OneTurn()
    ensures TurnsEvents([BUSY_TURN]) == TurnEvents(BUSY_TURN)
  {
    hide TurnEvents;
    assert [BUSY_TURN][..0] == [];
  }

  lemma SettleKeepsHistory(s: System)
    ensures StepSettle(s, 0, true).audit.enqueued == s.audit.enqueued
  {
  }

  // ---- Draining by whole flushes --------------------------------------------------------------

  ghost predicate Written(turns: seq<Turn>)
  {
    forall i | 0 <= i < |turns| :: turns[i].storageOk
  }

  ghost predicate NothingQueued(events: seq<OutsideEvent>)
  {
    forall i | 0 <= i < |events| :: !events[i].Add?
  }

  ghost predicate Quiet(early: seq<OutsideEvent>, turns: seq<Turn>)
  {
    NothingQueued(early) && forall i | 0 <= i < |turns| :: NothingQueued(turns[i].meanwhile)
  }

  lemma {:induction false} WrittenTurns(turns: seq<Turn>)
    requires Written(turns)
    ensures StorageWorks(TurnsEvents(turns))
    ensures Quiet([], turns) ==> NoNewRecordsAndStorageWorks(TurnsEvents(turns))
  {
    if turns != [] {
      WrittenTurns(turns[..|turns| - 1]);
    }
  }

  lemma WrittenFlush(user: string, early: seq<OutsideEvent>, turns: seq<Turn>)
    requires Written(turns)
    ensures StorageWorks(FlushEvents(true, Some(user), early, true, turns))
    ensures Quiet(early, turns) ==> NoNewRecordsAndStorageWorks(FlushEvents(true, Some(user), early, true, turns))
  {
    WrittenTurns(turns);
  }

  /** The first answer of the flush is a 2xx, a 4xx other than 401, or a 5xx. */
  ghost predicate ProductiveFlush(s: System, user: string, early: seq<OutsideEvent>, turns: seq<Turn>)
  {
    && s.frames == [] && Written(turns) && turns != []
    && Productive(StepSend(Opened(s, user, early), 0, turns[0].reach, turns[0].answer), Settle(0, true))
  }

  lemma TurnsLast(turns: seq<Turn>)
    requires turns != []
    ensures TurnsEvents(turns) == TurnsEvents(turns[..|turns| - 1]) + TurnEvents(turns[|turns| - 1])
  {
    hide TurnEvents;
  }

  lemma NoTurnEvents()
    ensures TurnsEvents([]) == []
  {
  }

  lemma {:induction false} TurnsCons(turns: seq<Turn>)
    requires turns != []
    ensures TurnsEvents(turns) == TurnEvents(turns[0]) + TurnsEvents(turns[1..])
    decreases |turns|
  {
    hide *;
    var n := |turns| - 1;
    TurnsLast(turns);
    if n == 0 {
      NoTurnEvents();
      assert turns[..0] == [] && turns[1..] == [];
    } else {
      var rest := turns[1..];
      TurnsCons(turns[..n]);
      TurnsLast(rest);
      assert turns[..n][1..] == rest[..n - 1] && rest[n - 1] == turns[n];
    }
  }

  /** The reply waits unchanged while the world goes on. */
  lemma ReplyWaits(s: System, meanwhile: seq<OutsideEvent>)
    requires Inv(s) && Productive(s, Settle(0, true))
    ensures Productive(Run(s, meanwhile), Settle(0, true))
  {
    OutsideKeepsFlush(s, meanwhile);
  }

  lemma TurnIsProductive(s: System, turn: Turn)
    requires Inv(s) && turn.storageOk && Productive(StepSend(s, 0, turn.reach, turn.answer), Settle(0, true))
    ensures ProductiveSteps(s, TurnEvents(turn)) >= 1
  {
    hide Inv, Productive, StepSend;
    var sent := [Send(0, turn.reach, turn.answer)];
    RunOne(s, [], sent[0]);
    assert [] + sent == sent;
    SendKeeps(s, 0, turn.reach, turn.answer);
    ReplyWaits(StepSend(s, 0, turn.reach, turn.answer), turn.meanwhile);
    RunAppend(s, sent, turn.meanwhile);
    assert TurnEvents(turn)[..|TurnEvents(turn)| - 1] == sent + turn.meanwhile;
  }

  lemma FlushIsProductive(s: System, user: string, early: seq<OutsideEvent>, turns: seq<Turn>)
    requires Inv(s) && ProductiveFlush(s, user, early, turns)
    ensures ProductiveSteps(s, FlushEvents(true, Some(user), early, true, turns)) >= 1
  {
    hide Inv, Productive, StepSend, Opened, ProductiveSteps, TurnEvents, TurnsEvents, Run;
    OpenedIsOpen(s, user, early);
    FlushIsTurns(s, user, early, []);
    var start := FlushEvents(true, Some(user), early, true, []);
    var o := Run(s, start);
    NoTurns(Opened(s, user, early));
    TurnIsProductive(o, turns[0]);
    TurnsCons(turns);
    assert FlushEvents(true, Some(user), early, true, turns) == start + TurnsEvents(turns);
    ProductiveStepsAppend(s, start, TurnsEvents(turns));
    ProductiveStepsAppend(o, TurnEvents(turns[0]), TurnsEvents(turns[1..]));
  }

  lemma NoTurns(s: System)
    ensures TurnsEvents([]) == [] && Run(s, []) == s
  {
  }

  /** A flush of a non-empty queue with a conclusive first answer uses up at least one attempt. */
  lemma CycleUsesAttempt(s: System, user: string, early: seq<OutsideEvent>, turns: seq<Turn>)
    requires Inv(s) && ProductiveFlush(s, user, early, turns) && Quiet(early, turns)
    ensures Potential(Run(s, FlushEvents(true, Some(user), early, true, turns)).pending) < Potential(s.pending)
  {
    hide Inv, Potential, ProductiveSteps, FlushEvents, Run;
    FlushIsProductive(s, user, early, turns);
    WrittenFlush(user, early, turns);
    DrainBound(s, FlushEvents(true, Some(user), early, true, turns));
  }

  /** One call of `flushQueue` with what goes on outside. */
  datatype Cycle = Cycle(user: string, early: seq<OutsideEvent>, turns: seq<Turn>)

  function CycleEvents(c: Cycle): seq<Event>
  {
    FlushEvents(true, Some(c.user), c.early, true, c.turns)
  }

  function Cycles(s: System, cycles: seq<Cycle>): System
  {
    if cycles == [] then s else Run(Cycles(s, cycles[..|cycles| - 1]), CycleEvents(cycles[|cycles| - 1]))
  }

  /** Starts idle, and gets a conclusive first answer if there is a record to send. */
  ghost predicate GoodCycle(s: System, c: Cycle)
  {
    && s.frames == [] && Written(c.turns) && Quiet(c.early, c.turns)
    && (s.pending != [] ==> ProductiveFlush(s, c.user, c.early, c.turns))
  }

  ghost predicate GoodCycles(s: System, cycles: seq<Cycle>)
  {
    forall i | 0 <= i < |cycles| :: GoodCycle(Cycles(s, cycles[..i]), cycles[i])
  }

  lemma CycleDrains(s: System, c: Cycle)
    requires Inv(s) && GoodCycle(s, c)
    ensures var s' := Run(s, CycleEvents(c));
            Inv(s') && if s.pending == [] then s'.pending == [] else Potential(s'.pending) < Potential(s.pending)
  {
    RunKeeps(s, CycleEvents(c));
    if s.pending == [] {
      WrittenFlush(c.user, c.early, c.turns);
      DrainBound(s, CycleEvents(c));
      PotentialBounds(Run(s, CycleEvents(c)).pending);
    } else {
      CycleUsesAttempt(s, c.user, c.early, c.turns);
    }
  }

  lemma {:induction false} CyclesDrain(s: System, cycles: seq<Cycle>)
    requires Inv(s) && GoodCycles(s, cycles)
    ensures var s' := Cycles(s, cycles);
            Inv(s') && (s'.pending == [] || Potential(s'.pending) + |cycles| <= Potential(s.pending))
  {
    if cycles != [] {
      var n := |cycles| - 1;
      forall i | 0 <= i < n ensures GoodCycle(Cycles(s, cycles[..n][..i]), cycles[..n][i]) {
        assert cycles[..n][..i] == cycles[..i];
      }
      CyclesDrain(s, cycles[..n]);
      CycleDrains(Cycles(s, cycles[..n]), cycles[n]);
    }
  }

  /** n pending records are gone after at most 8n such flushes. */
  lemma DrainsInEightCyclesEach(s: System, cycles: seq<Cycle>)
    requires Inv(s) && GoodCycles(s, cycles) && |cycles| >= 8 * |s.pending|
    ensures Cycles(s, cycles).pending == []
  {
    CyclesDrain(s, cycles);
    PotentialBounds(s.pending);
    PotentialBounds(Cycles(s, cycles).pending);
  }

  // ---- The head of the queue ------------------------------------------------------------------

  /** Anything that happens, records being queued included, and then a flush. */
  datatype Round = Round(before: seq<Event>, flush: Cycle)

  function RoundEvents(r: Round): seq<Event>
  {
    r.before + CycleEvents(r.flush)
  }

  function RoundsEvents(rounds: seq<Round>): seq<Event>
  {
    if rounds == [] then [] else RoundsEvents(rounds[..|rounds| - 1]) + RoundEvents(rounds[|rounds| - 1])
  }

  /** The flush gets a conclusive first answer; records may be queued before and during it. */
  ghost predicate ProductiveRound(s: System, r: Round)
  {
    StorageWorks(r.before) && ProductiveFlush(Run(s, r.before), r.flush.user, r.flush.early, r.flush.turns)
  }

  ghost predicate ProductiveRounds(s: System, rounds: seq<Round>)
  {
    forall i | 0 <= i < |rounds| :: ProductiveRound(Run(s, RoundsEvents(rounds[..i])), rounds[i])
  }

  lemma RoundIsProductive(s: System, r: Round)
    requires Inv(s) && ProductiveRound(s, r)
    ensures ProductiveSteps(s, RoundEvents(r)) >= 1 && StorageWorks(RoundEvents(r))
  {
    hide Inv, ProductiveFlush, ProductiveSteps, FlushEvents, Run;
    RunKeeps(s, r.before);
    FlushIsProductive(Run(s, r.before), r.flush.user, r.flush.early, r.flush.turns);
    assert Written(r.flush.turns) by { FlushIsWritten(Run(s, r.before), r.flush); }
    WrittenFlush(r.flush.user, r.flush.early, r.flush.turns);
    ProductiveStepsAppend(s, r.before, CycleEvents(r.flush));
  }

  lemma FlushIsWritten(s: System, c: Cycle)
    requires ProductiveFlush(s, c.user, c.early, c.turns)
    ensures Written(c.turns)
  {
  }

  lemma RoundsLast(rounds: seq<Round>)
    requires rounds != []
    ensures RoundsEvents(rounds) == RoundsEvents(rounds[..|rounds| - 1]) + RoundEvents(rounds[|rounds| - 1])
  {
    hide RoundEvents;
  }

  lemma ProductiveRoundsLast(s: System, rounds: seq<Round>)
    requires ProductiveRounds(s, rounds) && rounds != []
    ensures var n := |rounds| - 1;
            ProductiveRounds(s, rounds[..n]) && ProductiveRound(Run(s, RoundsEvents(rounds[..n])), rounds[n])
  {
    hide ProductiveRound, RoundsEvents, Run;
    var n := |rounds| - 1;
    forall i | 0 <= i < n ensures ProductiveRound(Run(s, RoundsEvents(rounds[..n][..i])), rounds[..n][i]) {
      assert rounds[..n][..i] == rounds[..i];
    }
  }

  lemma WorksTogether(a: seq<Event>, b: seq<Event>)
    requires StorageWorks(a) && StorageWorks(b)
    ensures StorageWorks(a + b)
  {
  }

  lemma NoRounds(s: System)
    ensures RoundsEvents([]) == [] && StorageWorks([]) && ProductiveSteps(s, []) == 0
  {
  }

  lemma {:induction false} RoundsAreProductive(s: System, rounds: seq<Round>)
    requires Inv(s) && ProductiveRounds(s, rounds)
    ensures ProductiveSteps(s, RoundsEvents(rounds)) >= |rounds| && StorageWorks(RoundsEvents(rounds))
  {
    hide *;
    if rounds == [] {
      NoRounds(s);
    } else {
      var n := |rounds| - 1;
      RoundsLast(rounds);
      ProductiveRoundsLast(s, rounds);
      RoundsAreProductive(s, rounds[..n]);
      RunKeeps(s, RoundsEvents(rounds[..n]));
      RoundIsProductive(Run(s, RoundsEvents(rounds[..n])), rounds[n]);
      ProductiveStepsAppend(s, RoundsEvents(rounds[..n]), RoundEvents(rounds[n]));
      WorksTogether(RoundsEvents(rounds[..n]), RoundEvents(rounds[n]));
    }
  }

  /**
   A failing head blocks its successors for at most 8 such flushes, less the attempts it has used up,
   however many records are queued before and during them.
   */
  lemma HeadIsGoneAfterEightFlushes(s: System, rounds: seq<Round>)
    requires Inv(s) && s.pending != [] && ProductiveRounds(s, rounds)
    requires |rounds| + s.pending[0].attempts >= 8
    ensures !IsPending(Run(s, RoundsEvents(rounds)), s.pending[0].id)
  {
    RoundsAreProductive(s, rounds);
    HeadBlocksAtMostEight(s, RoundsEvents(rounds));
  }
}
