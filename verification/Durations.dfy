/** How long a visit lasted: each check-out is paired with the user's latest earlier check-in. */
module Durations {
  import opened Domain

  datatype ScanAction = AUTO | CHECK_IN | CHECK_OUT

  datatype ScanEvent = ScanEvent(userId: string, resolvedAction: ScanAction, clientScannedAt: Time)

  predicate CheckInBefore(row: ScanEvent, userId: string, before: Time)
  {
    row.userId == userId && row.resolvedAction == CHECK_IN && row.clientScannedAt < before
  }

  /** Time of the first row of the descending query over the table, whose rows come in any order. */
  function LastCheckIn(rows: seq<ScanEvent>, userId: string, before: Time): Option<Time>
  {
    if rows == [] then None
    else
      var rest := LastCheckIn(rows[1..], userId, before);
      if CheckInBefore(rows[0], userId, before) && (rest.None? || rest.value < rows[0].clientScannedAt)
      then Some(rows[0].clientScannedAt) else rest
  }

  /** `Math.round`: halves go up. */
  function MathRound(x: real): int
  {
    (x + 0.5).Floor
  }

  /** `durationMinutes` of a listed scan; the query looks at the whole table, not at the listed page. */
  function DurationMinutes(rows: seq<ScanEvent>, scan: ScanEvent): Option<int>
  {
    if scan.resolvedAction != CHECK_OUT then None
    else match LastCheckIn(rows, scan.userId, scan.clientScannedAt)
      case None => None
      case Some(at) => Some(MathRound((scan.clientScannedAt - at) as real / 60000.0))
  }

  // ---- Which check-in is found ----------------------------------------------------------------

  ghost predicate CheckedInAt(rows: seq<ScanEvent>, userId: string, at: Time)
  {
    ScanEvent(userId, CHECK_IN, at) in rows
  }

  /** No check-in before the given time, or the found one with none in between. */
  ghost predicate IsLast(rows: seq<ScanEvent>, userId: string, before: Time, found: Option<Time>)
  {
    match found
    case None => forall t: Time | t < before :: !CheckedInAt(rows, userId, t)
    case Some(at) =>
      at < before && CheckedInAt(rows, userId, at) && forall t: Time | at < t < before :: !CheckedInAt(rows, userId, t)
  }

  lemma CheckedInCons(row: ScanEvent, rows: seq<ScanEvent>, userId: string, t: Time)
    ensures CheckedInAt([row] + rows, userId, t)
            <==> row == ScanEvent(userId, CHECK_IN, t) || CheckedInAt(rows, userId, t)
  {
  }

  lemma {:induction false} LastCheckInIsLast(rows: seq<ScanEvent>, userId: string, before: Time)
    ensures IsLast(rows, userId, before, LastCheckIn(rows, userId, before))
  {
    if rows != [] {
      LastCheckInIsLast(rows[1..], userId, before);
      assert rows == [rows[0]] + rows[1..];
      forall t: Time
        ensures CheckedInAt(rows, userId, t)
                <==> rows[0] == ScanEvent(userId, CHECK_IN, t) || CheckedInAt(rows[1..], userId, t)
      {
        CheckedInCons(rows[0], rows[1..], userId, t);
      }
      hide CheckedInAt;
    }
  }

  /** The query finds a check-in at `at` exactly when it is one and none lies between it and the check-out. */
  lemma {:induction false} LastCheckInIff(rows: seq<ScanEvent>, userId: string, before: Time)
    ensures forall at: Time :: LastCheckIn(rows, userId, before) == Some(at)
              <==> at < before && CheckedInAt(rows, userId, at)
                   && forall t: Time | at < t < before :: !CheckedInAt(rows, userId, t)
    ensures LastCheckIn(rows, userId, before) == None <==> forall t: Time | t < before :: !CheckedInAt(rows, userId, t)
  {
    LastCheckInIsLast(rows, userId, before);
    hide LastCheckIn, CheckedInAt;
  }

  /**
   Two check-outs are paired with one check-in, and its time is counted twice, exactly when there is one
   before the first of them and none in between.
   */
  lemma SharedCheckInIff(rows: seq<ScanEvent>, userId: string, first: Time, second: Time)
    requires first <= second
    ensures var paired := LastCheckIn(rows, userId, first);
            paired.Some? && LastCheckIn(rows, userId, second) == paired
            <==> && (exists t: Time | t < first :: CheckedInAt(rows, userId, t))
                 && (forall t: Time | first <= t < second :: !CheckedInAt(rows, userId, t))
  {
    LastCheckInIff(rows, userId, first);
    LastCheckInIff(rows, userId, second);
  }

  /** A check-in before the given time with none in between. */
  ghost predicate LastBefore(rows: seq<ScanEvent>, userId: string, at: Time, before: Time)
  {
    && at < before && CheckedInAt(rows, userId, at)
    && forall t: Time | at < t < before :: !CheckedInAt(rows, userId, t)
  }

  /** Rounding moves a duration by at most half a minute, and half a minute only up. */
  lemma RoundsToNearestMinute(ms: nat)
    ensures -30000 < 60000 * MathRound(ms as real / 60000.0) - ms <= 30000
  {
    var x := ms as real / 60000.0;
    var m := MathRound(x);
    assert m as real <= x + 0.5 < m as real + 1.0;
    assert x * 60000.0 == ms as real;
    assert (60000 * m) as real <= ms as real + 30000.0 < (60000 * m) as real + 60000.0;
  }

  /**
   A duration is reported exactly for check-outs with an earlier check-in, and is the nearest minute to
   the latest of them.
   */
  lemma DurationIff(rows: seq<ScanEvent>, scan: ScanEvent)
    ensures var d := DurationMinutes(rows, scan);
            && (d.Some? <==> scan.resolvedAction == CHECK_OUT
                             && exists at: Time | at < scan.clientScannedAt :: CheckedInAt(rows, scan.userId, at))
            && forall at: Time | d.Some? && LastBefore(rows, scan.userId, at, scan.clientScannedAt) ::
                 -30000 < 60000 * d.value - (scan.clientScannedAt - at) <= 30000
  {
    LastCheckInIff(rows, scan.userId, scan.clientScannedAt);
    var last := LastCheckIn(rows, scan.userId, scan.clientScannedAt);
    if last.Some? {
      RoundsToNearestMinute(scan.clientScannedAt - last.value);
    }
  }

  // ---- Whole histories ------------------------------------------------------------------------

  /** The user's check-ins and check-outs in the table alternate at strictly increasing times. */
  ghost predicate Alternating(rows: seq<ScanEvent>, userId: string, ins: seq<Time>, outs: seq<Time>)
  {
    && |outs| <= |ins| <= |outs| + 1
    && (forall k | 0 <= k < |outs| :: ins[k] < outs[k])
    && (forall k, m | 0 <= k < m < |ins| :: outs[k] < ins[m])
    && (forall t: Time :: CheckedInAt(rows, userId, t) <==> t in ins)
  }

  lemma NoneBetween(rows: seq<ScanEvent>, userId: string, ins: seq<Time>, outs: seq<Time>, k: nat, t: Time)
    requires Alternating(rows, userId, ins, outs) && k < |outs| && ins[k] < t < outs[k]
    ensures t !in ins
  {
    hide CheckedInAt;
    forall m | 0 <= m < |ins| ensures ins[m] != t {
      if m < k {
        assert ins[m] < outs[m] < ins[k];
      } else if m > k {
        assert outs[k] < ins[m];
      }
    }
  }

  /** Then every check-out is paired with the check-in just before it. */
  lemma PairsAreAdjacent(rows: seq<ScanEvent>, userId: string, ins: seq<Time>, outs: seq<Time>, k: nat)
    requires Alternating(rows, userId, ins, outs) && k < |outs|
    ensures LastCheckIn(rows, userId, outs[k]) == Some(ins[k])
  {
    hide LastCheckIn, CheckedInAt;
    forall t: Time | ins[k] < t < outs[k] ensures t !in ins {
      NoneBetween(rows, userId, ins, outs, k, t);
    }
    assert ins[k] in ins;
    LastCheckInIff(rows, userId, outs[k]);
  }

  function Reported(rows: seq<ScanEvent>, userId: string, outs: seq<Time>): int
  {
    if outs == [] then 0
    else
      var d := DurationMinutes(rows, ScanEvent(userId, CHECK_OUT, outs[|outs| - 1]));
      Reported(rows, userId, outs[..|outs| - 1]) + (if d.Some? then d.value else 0)
  }

  function Inside(ins: seq<Time>, outs: seq<Time>): int
    requires |outs| <= |ins|
  {
    if outs == [] then 0
    else Inside(ins, outs[..|outs| - 1]) + outs[|outs| - 1] - ins[|outs| - 1]
  }

  /** Summed over any first n visits, the reported minutes differ from the exact time by at most n/2 minutes. */
  lemma {:induction false} ReportedIsClose(rows: seq<ScanEvent>, userId: string, ins: seq<Time>, outs: seq<Time>,
                                           n: nat)
    requires Alternating(rows, userId, ins, outs) && n <= |outs|
    ensures -30000 * n <= 60000 * Reported(rows, userId, outs[..n]) - Inside(ins, outs[..n]) <= 30000 * n
    decreases n
  {
    if n > 0 {
      ReportedIsClose(rows, userId, ins, outs, n - 1);
      assert outs[..n][..n - 1] == outs[..n - 1];
      PairsAreAdjacent(rows, userId, ins, outs, n - 1);
      RoundsToNearestMinute(outs[n - 1] - ins[n - 1]);
    }
  }
}
