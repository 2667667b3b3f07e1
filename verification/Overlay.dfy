/** The optimistic overlay of the staff task list: queued actions painted over the fetched tasks. */
module Overlay {
  import opened Domain
  import opened Outbox

  datatype DailyTask = DailyTask(
    id: string,
    zoneCode: string,
    zoneName: string,
    status: Status,
    scheduledFor: Time,
    startedAt: Option<Time>,
    completedAt: Option<Time>,
    checklist: seq<string>,
    pendingSync: bool)

  function Target(action: Action): Status
  {
    match action
    case Start => IN_PROGRESS
    case Complete => DONE
    case Flag => FLAGGED
  }

  function OrElse(a: Option<Time>, b: Time): Option<Time>
  {
    if a.Some? then a else Some(b)
  }

  /** One queued record painted over one task. */
  function Paint(task: DailyTask, r: PendingScan): DailyTask
  {
    if r.draft.taskId != task.id then task
    else match r.draft.action
      case Start =>
        task.(pendingSync := true, status := IN_PROGRESS, startedAt := OrElse(task.startedAt, r.draft.clientScannedAt))
      case Complete =>
        task.(pendingSync := true, status := DONE, completedAt := OrElse(task.completedAt, r.draft.clientScannedAt))
      case Flag => task.(pendingSync := true, status := FLAGGED)
  }

  /** The whole queue painted over one task, one record at a time. */
  function PaintAll(task: DailyTask, queue: seq<PendingScan>): (r: DailyTask)
    ensures r.id == task.id
  {
    if queue == [] then task
    else Paint(PaintAll(task, queue[..|queue| - 1]), queue[|queue| - 1])
  }

  /** The overlay by definition: every record of the queue, oldest first, over every task of the list. */
  function OverlayOf(list: seq<DailyTask>, queue: seq<PendingScan>): (r: seq<DailyTask>)
    ensures |r| == |list| && forall i | 0 <= i < |r| :: r[i] == PaintAll(list[i], queue)
  {
    if list == [] then [] else [PaintAll(list[0], queue)] + OverlayOf(list[1..], queue)
  }

  /** The records of one task, in queue order. */
  function Mine(queue: seq<PendingScan>, id: string): seq<PendingScan>
  {
    if queue == [] then []
    else
      var last := queue[|queue| - 1];
      Mine(queue[..|queue| - 1], id) + (if last.draft.taskId == id then [last] else [])
  }

  lemma {:induction false} MineProperties(queue: seq<PendingScan>, id: string)
    ensures forall r :: r in Mine(queue, id) <==> r in queue && r.draft.taskId == id
  {
    if queue != [] {
      var n := |queue| - 1;
      MineProperties(queue[..n], id);
      assert queue == queue[..n] + [queue[n]];
    }
  }

  /** Grouping is harmless: a task only sees its own records, in the same order. */
  lemma {:induction false} PaintOnlyMine(task: DailyTask, queue: seq<PendingScan>)
    ensures PaintAll(task, queue) == PaintAll(task, Mine(queue, task.id))
  {
    if queue != [] {
      var n := |queue| - 1;
      PaintOnlyMine(task, queue[..n]);
      var before := Mine(queue[..n], task.id);
      if queue[n].draft.taskId == task.id {
        assert (before + [queue[n]])[..|before|] == before;
      } else {
        assert before + [] == before;
      }
    }
  }

  /** Entering the grouping map: the tasks that have records, each with its own. */
  ghost predicate Groups(byTask: map<string, seq<PendingScan>>, queue: seq<PendingScan>)
  {
    forall id :: if id in byTask then byTask[id] == Mine(queue, id) && byTask[id] != [] else Mine(queue, id) == []
  }

  lemma MineSnoc(queue: seq<PendingScan>, r: PendingScan, id: string)
    ensures Mine(queue + [r], id) == if r.draft.taskId == id then Mine(queue, id) + [r] else Mine(queue, id)
  {
    assert (queue + [r])[..|queue|] == queue;
    assert Mine(queue, id) + [] == Mine(queue, id);
  }

  lemma GroupsStep(byTask: map<string, seq<PendingScan>>, queue: seq<PendingScan>, item: PendingScan)
    requires Groups(byTask, queue)
    ensures var items := if item.draft.taskId in byTask then byTask[item.draft.taskId] else [];
            Groups(byTask[item.draft.taskId := items + [item]], queue + [item])
  {
    var id := item.draft.taskId;
    var items := if id in byTask then byTask[id] else [];
    var more := byTask[id := items + [item]];
    hide Mine;
    forall x
      ensures if x in more then more[x] == Mine(queue + [item], x) && more[x] != [] else Mine(queue + [item], x) == []
    {
      MineSnoc(queue, item, x);
    }
  }

  lemma NoGroups()
    ensures Groups(map[], [])
  {
  }

  method GroupByTask(queue: seq<PendingScan>) returns (byTask: map<string, seq<PendingScan>>)
    ensures Groups(byTask, queue)
  {
    byTask := map[];
    NoGroups();
    hide Groups;
    for i := 0 to |queue|
      invariant Groups(byTask, queue[..i])
    {
      var item := queue[i];
      var items := if item.draft.taskId in byTask then byTask[item.draft.taskId] else [];
      GroupsStep(byTask, queue[..i], item);
      assert queue[..i + 1] == queue[..i] + [item];
      byTask := byTask[item.draft.taskId := items + [item]];
    }
    assert queue[..|queue|] == queue;
  }

  /** The inner loop of the overlay over one task's own records. */
  method PaintItems(task: DailyTask, items: seq<PendingScan>) returns (next: DailyTask)
    requires items != [] && forall r | r in items :: r.draft.taskId == task.id
    ensures next == PaintAll(task, items)
  {
    next := task.(pendingSync := true);
    for i := 0 to |items|
      invariant next == PaintAll(task, items[..i]).(pendingSync := true)
      invariant i > 0 ==> PaintAll(task, items[..i]).pendingSync
    {
      var item := items[i];
      assert item in items;
      assert items[..i + 1][..i] == items[..i];
      match item.draft.action {
        case Start =>
          next := next.(status := IN_PROGRESS, startedAt := OrElse(next.startedAt, item.draft.clientScannedAt));
        case Complete =>
          next := next.(status := DONE, completedAt := OrElse(next.completedAt, item.draft.clientScannedAt));
        case Flag =>
          next := next.(status := FLAGGED);
      }
    }
    assert items[..|items|] == items;
  }

  lemma GroupOf(byTask: map<string, seq<PendingScan>>, queue: seq<PendingScan>, task: DailyTask)
    requires Groups(byTask, queue)
    ensures task.id in byTask ==> byTask[task.id] == Mine(queue, task.id) != []
    ensures task.id !in byTask ==> PaintAll(task, Mine(queue, task.id)) == task
  {
  }

  /** `applyPendingOverlay`, with its grouping map, computes the overlay. */
  method ApplyPendingOverlay(list: seq<DailyTask>, queue: seq<PendingScan>) returns (r: seq<DailyTask>)
    ensures r == OverlayOf(list, queue)
  {
    if |queue| == 0 { return list; }
    var byTask := GroupByTask(queue);
    r := [];
    hide Mine, PaintAll, Groups;
    for i := 0 to |list|
      invariant |r| == i && forall k | 0 <= k < i :: r[k] == PaintAll(list[k], queue)
    {
      var task := list[i];
      PaintOnlyMine(task, queue);
      MineProperties(queue, task.id);
      GroupOf(byTask, queue, task);
      if task.id in byTask {
        var next := PaintItems(task, byTask[task.id]);
        r := r + [next];
      } else {
        r := r + [task];
      }
    }
  }

  // ---- What the overlay shows -----------------------------------------------------------------

  lemma {:induction false} PaintAppend(task: DailyTask, q1: seq<PendingScan>, q2: seq<PendingScan>)
    ensures PaintAll(PaintAll(task, q1), q2) == PaintAll(task, q1 + q2)
    decreases |q2|
  {
    if q2 == [] {
      assert q1 + q2 == q1;
    } else {
      var n := |q2| - 1;
      assert (q1 + q2)[..|q1 + q2| - 1] == q1 + q2[..n];
      PaintAppend(task, q1, q2[..n]);
    }
  }

  /** Overlaying two queues in turn is overlaying their concatenation. */
  lemma OverlayAppend(list: seq<DailyTask>, q1: seq<PendingScan>, q2: seq<PendingScan>)
    ensures OverlayOf(OverlayOf(list, q1), q2) == OverlayOf(list, q1 + q2)
  {
    forall i | 0 <= i < |list| ensures OverlayOf(OverlayOf(list, q1), q2)[i] == OverlayOf(list, q1 + q2)[i] {
      PaintAppend(list[i], q1, q2);
    }
  }

  /** The time of the earliest record of an action, if there is one. */
  function FirstScan(mine: seq<PendingScan>, action: Action): Option<Time>
  {
    if mine == [] then None
    else if mine[0].draft.action == action then Some(mine[0].draft.clientScannedAt)
    else FirstScan(mine[1..], action)
  }

  /** It is the time of a record of the action before which there is none, and absent exactly without one. */
  lemma {:induction false} FirstScanIff(mine: seq<PendingScan>, action: Action)
    ensures FirstScan(mine, action).None? <==> forall i | 0 <= i < |mine| :: mine[i].draft.action != action
    ensures forall k | 0 <= k < |mine| && mine[k].draft.action == action
                       && (forall i | 0 <= i < k :: mine[i].draft.action != action) ::
              FirstScan(mine, action) == Some(mine[k].draft.clientScannedAt)
  {
    if mine != [] {
      var rest := mine[1..];
      FirstScanIff(rest, action);
      assert forall i | 0 < i < |mine| :: mine[i] == rest[i - 1];
      forall k | 0 <= k < |mine| && mine[k].draft.action == action
                 && (forall i | 0 <= i < k :: mine[i].draft.action != action)
        ensures FirstScan(mine, action) == Some(mine[k].draft.clientScannedAt)
      {
        if k > 0 {
          assert rest[k - 1] == mine[k];
          assert forall i | 0 <= i < k - 1 :: rest[i] == mine[i + 1];
        }
      }
    }
  }

  lemma {:induction false} FirstScanSnoc(mine: seq<PendingScan>, r: PendingScan, action: Action)
    ensures FirstScan(mine + [r], action)
            == if FirstScan(mine, action).Some? then FirstScan(mine, action)
               else if r.draft.action == action then Some(r.draft.clientScannedAt) else None
  {
    if mine == [] {
      assert mine + [r] == [r] && [r][1..] == [];
    } else {
      assert (mine + [r])[1..] == mine[1..] + [r];
      FirstScanSnoc(mine[1..], r, action);
    }
  }

  ghost predicate Fields(task: DailyTask, r: DailyTask, queue: seq<PendingScan>)
  {
    var mine := Mine(queue, task.id);
    && r.status == (if mine == [] then task.status else Target(mine[|mine| - 1].draft.action))
    && (r.pendingSync <==> task.pendingSync || exists x | x in queue :: x.draft.taskId == task.id)
    && r.startedAt == (if task.startedAt.Some? then task.startedAt else FirstScan(mine, Start))
    && r.completedAt == (if task.completedAt.Some? then task.completedAt else FirstScan(mine, Complete))
    && r.(status := task.status, pendingSync := task.pendingSync,
          startedAt := task.startedAt, completedAt := task.completedAt) == task
  }

  lemma QueuedSnoc(queue: seq<PendingScan>, r: PendingScan, id: string)
    ensures (exists x | x in queue + [r] :: x.draft.taskId == id)
            <==> r.draft.taskId == id || exists x | x in queue :: x.draft.taskId == id
  {
    assert r in queue + [r];
    if x :| x in queue && x.draft.taskId == id {
      assert x in queue + [r];
    }
  }

  lemma FieldsStep(task: DailyTask, painted: DailyTask, queue: seq<PendingScan>, r: PendingScan)
    requires Fields(task, painted, queue) && painted.id == task.id
    ensures Fields(task, Paint(painted, r), queue + [r])
  {
    var mine := Mine(queue, task.id);
    MineSnoc(queue, r, task.id);
    QueuedSnoc(queue, r, task.id);
    FirstScanSnoc(mine, r, Start);
    FirstScanSnoc(mine, r, Complete);
    hide Mine, FirstScan;
  }

  /**
   Field by field: the overlay shows the target of the last own record, flags exactly the tasks that
   have one, keeps known times and otherwise takes the earliest queued one, and leaves the rest alone.
   */
  lemma {:induction false} OverlayFields(task: DailyTask, queue: seq<PendingScan>)
    ensures var r, mine := PaintAll(task, queue), Mine(queue, task.id);
            && r.status == (if mine == [] then task.status else Target(mine[|mine| - 1].draft.action))
            && (r.pendingSync <==> task.pendingSync || exists x | x in queue :: x.draft.taskId == task.id)
            && r.startedAt == (if task.startedAt.Some? then task.startedAt else FirstScan(mine, Start))
            && r.completedAt == (if task.completedAt.Some? then task.completedAt else FirstScan(mine, Complete))
            && r.(status := task.status, pendingSync := task.pendingSync,
                  startedAt := task.startedAt, completedAt := task.completedAt) == task
  {
    if queue != [] {
      var n := |queue| - 1;
      OverlayFields(task, queue[..n]);
      FieldsStep(task, PaintAll(task, queue[..n]), queue[..n], queue[n]);
      assert queue == queue[..n] + [queue[n]];
      hide Paint, Mine, FirstScan, Target;
    }
  }
}
