/**
 What the staff member sees, put together from the server row and the queue, and why replaying the
 queue does not change it.
 */
module Screen {
  import opened Domain
  import opened TaskServer
  import opened Outbox
  import opened Overlay

  /** The buttons that the task card offers in a status. */
  predicate Enabled(status: Status, action: Action)
  {
    match action
    case Start => status == SCHEDULED || status == PENDING
    case Complete => status == IN_PROGRESS
    case Flag => status != DONE && status != MISSED && status != FLAGGED
  }

  /** The list offers exactly the actions that the server would carry out, except flagging a finished task. */
  lemma ButtonsMatchHandlers(task: Task, draft: Draft, owner: string, at: Time, fails: bool)
    requires task.owner == Some(owner) && (draft.action == Flag ==> draft.reason != "")
    ensures Enabled(task.status, draft.action)
            <==> && Handle(task, CallOf(draft, owner, at, fails)).task.status != task.status
                 && !(draft.action == Flag && (task.status == DONE || task.status == MISSED))
  {
  }

  // ---- On statuses alone ----------------------------------------------------------------------

  /** What the handlers make of an action of the owner, as far as the status goes. */
  function ServerStep(status: Status, action: Action): Status
  {
    match action
    case Start => if status == SCHEDULED || status == PENDING then IN_PROGRESS else status
    case Complete => if status == IN_PROGRESS then DONE else status
    case Flag => FLAGGED
  }

  function ServerFold(status: Status, q: seq<Action>): Status
  {
    if q == [] then status else ServerStep(ServerFold(status, q[..|q| - 1]), q[|q| - 1])
  }

  function Shown(status: Status, q: seq<Action>): Status
  {
    if q == [] then status else Target(q[|q| - 1])
  }

  lemma ServerStepIsTheHandler(task: Task, draft: Draft, owner: string, at: Time, fails: bool)
    requires task.owner == Some(owner) && (draft.action == Flag ==> draft.reason != "")
    ensures Handle(task, CallOf(draft, owner, at, fails)).task.status == ServerStep(task.status, draft.action)
  {
  }

  /** Each action was enabled at the status shown when it was queued. */
  ghost predicate Legal(status: Status, q: seq<Action>)
  {
    forall i | 0 <= i < |q| :: Enabled(Shown(status, q[..i]), q[i])
  }

  /** The server ends up where the overlay predicts, given where it was before the last action. */
  predicate Lands(status: Status, action: Action)
  {
    match action
    case Start => status == SCHEDULED || status == PENDING || status == IN_PROGRESS
    case Complete => status == IN_PROGRESS || status == DONE
    case Flag => true
  }

  /** After the first `k` actions have been replayed, the overlay of the others shows what it always showed. */
  ghost predicate InvisibleAt(status: Status, q: seq<Action>, k: nat)
    requires k <= |q|
  {
    Shown(ServerFold(status, q[..k]), q[k..]) == Shown(status, q)
  }

  /** For every queue, legal or not: replaying is invisible exactly when the last action lands. */
  lemma InvisibleIff(status: Status, q: seq<Action>)
    ensures (forall k: nat | k <= |q| :: InvisibleAt(status, q, k))
            <==> q == [] || Lands(ServerFold(status, q[..|q| - 1]), q[|q| - 1])
  {
    forall k: nat | k < |q| ensures InvisibleAt(status, q, k) {
      assert q[k..][|q[k..]| - 1] == q[|q| - 1];
    }
    assert q[..|q|] == q && q[|q|..] == [];
    assert InvisibleAt(status, q, |q|) <==> ServerFold(status, q) == Shown(status, q);
  }

  /** A legal queue moves the server exactly as the overlay predicts, at every prefix. */
  lemma {:induction false} LegalFold(status: Status, q: seq<Action>)
    requires Legal(status, q)
    ensures ServerFold(status, q) == Shown(status, q)
  {
    if q != [] {
      var n := |q| - 1;
      forall i | 0 <= i < n ensures Enabled(Shown(status, q[..n][..i]), q[..n][i]) {
        assert q[..n][..i] == q[..i];
      }
      LegalFold(status, q[..n]);
      assert Enabled(Shown(status, q[..n]), q[n]);
    }
  }

  lemma LegalIsInvisible(status: Status, q: seq<Action>, k: nat)
    requires Legal(status, q) && k <= |q|
    ensures InvisibleAt(status, q, k)
  {
    LegalFold(status, q);
    if q != [] {
      var n := |q| - 1;
      forall i | 0 <= i < n ensures Enabled(Shown(status, q[..n][..i]), q[..n][i]) {
        assert q[..n][..i] == q[..i];
      }
      LegalFold(status, q[..n]);
      assert Enabled(Shown(status, q[..n]), q[n]);
    }
    InvisibleIff(status, q);
  }

  lemma LegalNeighbours(status: Status, q: seq<Action>)
    requires Legal(status, q)
    ensures q != [] ==> Enabled(status, q[0])
    ensures |q| >= 2 ==> Enabled(Target(q[0]), q[1])
    ensures |q| >= 3 ==> Enabled(Target(q[1]), q[2])
  {
    forall i | 0 < i < |q| ensures Enabled(Target(q[i - 1]), q[i]) {
      assert q[..i][i - 1] == q[i - 1];
    }
    if q != [] { assert q[..0] == []; }
  }

  /** The buttons allow at most a start and one more action per task. */
  lemma LegalIsShort(status: Status, q: seq<Action>)
    requires Legal(status, q)
    ensures |q| <= 2
    ensures |q| == 2 ==> q[0] == Start && q[1] != Start
  {
    LegalNeighbours(status, q);
  }

  /** The actions that are not lost. */
  function Kept(q: seq<Action>, kept: seq<bool>): seq<Action>
    requires |q| == |kept|
  {
    if q == [] then []
    else Kept(q[..|q| - 1], kept[..|q| - 1]) + (if kept[|q| - 1] then [q[|q| - 1]] else [])
  }

  lemma KeptSmall(a: Action, b: Action, x: bool, y: bool)
    ensures Kept([a], [x]) == if x then [a] else []
    ensures Kept([a, b], [x, y]) == (if x then [a] else []) + (if y then [b] else [])
  {
    assert [a][..0] == [] && [x][..0] == [];
    assert [a, b][..1] == [a] && [x, y][..1] == [x];
  }

  lemma FoldSmall(status: Status, a: Action, b: Action)
    ensures ServerFold(status, [a]) == ServerStep(status, a)
    ensures ServerFold(status, [a, b]) == ServerStep(ServerStep(status, a), b)
  {
    assert [a][..0] == [];
    assert [a, b][..1] == [a];
  }

  lemma LossOfTwo(status: Status, a: Action, b: Action, x: bool, y: bool)
    requires Enabled(status, a) && Enabled(Target(a), b)
    ensures ServerFold(status, Kept([a, b], [x, y])) == Target(b) <==> y && (b == Flag || x)
  {
    KeptSmall(a, b, x, y);
    FoldSmall(status, a, b);
    FoldSmall(status, b, b);
    var k := Kept([a, b], [x, y]);
    if x && y {
      assert k == [a, b];
    } else if x {
      assert k == [a];
    } else if y {
      assert k == [b];
    } else {
      assert k == [];
    }
  }

  lemma LossOfOne(status: Status, a: Action, x: bool)
    requires Enabled(status, a)
    ensures ServerFold(status, Kept([a], [x])) == Target(a) <==> x
  {
    KeptSmall(a, a, x, x);
    FoldSmall(status, a, a);
  }

  lemma ShownLast(status: Status, q: seq<Action>)
    requires q != []
    ensures Shown(status, q) == Target(q[|q| - 1])
  {
  }

  /** When records are lost, the final server status still is the shown one exactly in these cases. */
  lemma LossShowsIff(status: Status, q: seq<Action>, kept: seq<bool>)
    requires Legal(status, q) && q != [] && |kept| == |q|
    ensures ServerFold(status, Kept(q, kept)) == Shown(status, q)
            <==> kept[|q| - 1] && (q[|q| - 1] == Flag || forall i | 0 <= i < |kept| :: kept[i])
  {
    hide *;
    LegalIsShort(status, q);
    LegalNeighbours(status, q);
    ShownLast(status, q);
    if |q| == 1 {
      LossOfOne(status, q[0], kept[0]);
      assert q == [q[0]] && kept == [kept[0]];
    } else {
      LossOfTwo(status, q[0], q[1], kept[0], kept[1]);
      assert q == [q[0], q[1]] && kept == [kept[0], kept[1]];
    }
  }
}
