/** Atomic claims with an expiry, and the batch endpoint that claims scans before it stores them. */
module Scans {
  import opened Domain

  const TTL_SECONDS: nat := 86400
  const TTL: nat := 1000 * TTL_SECONDS

  datatype Entry = Entry(value: string, expiresAt: Option<Time>)

  type Keys = map<string, Entry>

  /** A key exists until the instant it expires. */
  predicate Live(keys: Keys, key: string, now: Time)
  {
    key in keys && (keys[key].expiresAt.None? || now < keys[key].expiresAt.value)
  }

  class RedisService {
    var keys: Keys

    method Get(key: string, now: Time) returns (r: Option<string>)
      ensures r == if Live(keys, key, now) then Some(keys[key].value) else None
    {
      if key in keys && (keys[key].expiresAt.None? || now < keys[key].expiresAt.value) {
        return Some(keys[key].value);
      }
      r := None;
    }

    /** SET key value EX ttl NX, one atomic command. */
    method SetNx(key: string, value: string, ttlSeconds: nat, now: Time) returns (isSet: bool)
      modifies this
      ensures isSet <==> !Live(old(keys), key, now)
      ensures keys == if isSet then old(keys)[key := Entry(value, Some(now + 1000 * ttlSeconds))] else old(keys)
    {
      var found := Get(key, now);
      isSet := found.None?;
      if isSet {
        keys := keys[key := Entry(value, Some(now + 1000 * ttlSeconds))];
      }
    }
  }

  /** The two identifiers of a submitted scan that decide what happens to it. */
  datatype Scan = Scan(idempotencyKey: string, clientEventId: string)

  function CacheKey(clientEventId: string): string
  {
    "scan_event:" + clientEventId
  }

  lemma CacheKeyInjective(a: string, b: string)
    ensures CacheKey(a) == CacheKey(b) <==> a == b
  {
    assert CacheKey(a)[11..] == a && CacheKey(b)[11..] == b;
  }

  function Claimed(keys: Keys, id: string, now: Time): Keys
  {
    keys[CacheKey(id) := Entry("PROCESSED", Some(now + TTL))]
  }

  /** A claim is alive for exactly one window from when it was made, and touches no other id. */
  lemma ClaimLastsOneWindow(keys: Keys, id: string, at: Time, other: string, now: Time)
    ensures Live(Claimed(keys, id, at), CacheKey(id), now) <==> now < at + 86400 * 1000
    ensures other != id ==> (Live(Claimed(keys, id, at), CacheKey(other), now) <==> Live(keys, CacheKey(other), now))
  {
    CacheKeyInjective(id, other);
  }

  /** A claim is kept under the id's prefixed key, with its mark and its expiry after a day. */
  lemma ClaimIsKept(keys: Keys, id: string, at: Time)
    ensures Claimed(keys, id, at) == keys["scan_event:" + id := Entry("PROCESSED", Some(at + 86400000))]
  {
  }

  // ---- One request ----------------------------------------------------------------------------

  datatype Split = Split(keys: Keys, processed: seq<Scan>, skipped: seq<string>)

  /** The claim loop; `clock[i]` is the time at which Redis runs the i-th command. */
  function ClaimAll(keys: Keys, scans: seq<Scan>, clock: seq<Time>): Split
    requires |clock| == |scans|
  {
    if scans == [] then Split(keys, [], [])
    else
      var n := |scans| - 1;
      var before := ClaimAll(keys, scans[..n], clock[..n]);
      var id := scans[n].clientEventId;
      if Live(before.keys, CacheKey(id), clock[n]) then before.(skipped := before.skipped + [id])
      else Split(Claimed(before.keys, id, clock[n]), before.processed + [scans[n]], before.skipped)
  }

  /** The table's unique index: a transaction of creates succeeds only with new, distinct idempotency keys. */
  predicate Insertable(rows: seq<Scan>, batch: seq<Scan>)
  {
    && (forall i, j | 0 <= i < j < |batch| :: batch[i].idempotencyKey != batch[j].idempotencyKey)
    && (forall i, j | 0 <= i < |batch| && 0 <= j < |rows| :: batch[i].idempotencyKey != rows[j].idempotencyKey)
  }

  ghost predicate UniqueKeys(rows: seq<Scan>)
  {
    forall i, j | 0 <= i < j < |rows| :: rows[i].idempotencyKey != rows[j].idempotencyKey
  }

  /** A batch goes in exactly if the table then still has one row per idempotency key. */
  lemma InsertableIff(rows: seq<Scan>, batch: seq<Scan>)
    requires UniqueKeys(rows)
    ensures Insertable(rows, batch) <==> UniqueKeys(rows + batch)
  {
    var all := rows + batch;
    if UniqueKeys(all) {
      forall i, j | 0 <= i < j < |batch| ensures batch[i].idempotencyKey != batch[j].idempotencyKey {
        assert all[|rows| + i] == batch[i] && all[|rows| + j] == batch[j];
      }
      forall i, j | 0 <= i < |batch| && 0 <= j < |rows| ensures batch[i].idempotencyKey != rows[j].idempotencyKey {
        assert all[|rows| + i] == batch[i] && all[j] == rows[j];
      }
    }
  }

  datatype BatchResult =
    | Completed(totalReceived: nat, processedCount: nat, skippedCount: nat, skippedClientEventIds: seq<string>)
    | TransactionFailed

  class ScansService {
    const redis: RedisService
    var scanEvents: seq<Scan>

    constructor (redis: RedisService)
      ensures this.redis == redis && scanEvents == []
    {
      this.redis, scanEvents := redis, [];
    }

    method ProcessBatchScans(scans: seq<Scan>, clock: seq<Time>, dbOk: bool) returns (r: BatchResult)
      requires |clock| == |scans|
      modifies this, redis
      ensures var split := ClaimAll(old(redis.keys), scans, clock);
              && redis.keys == split.keys
              && if split.processed == [] || (dbOk && Insertable(old(scanEvents), split.processed))
                 then r == Completed(|scans|, |split.processed|, |split.skipped|, split.skipped)
                      && scanEvents == old(scanEvents) + split.processed
                 else r == TransactionFailed && scanEvents == old(scanEvents)
    {
      var processed: seq<Scan> := [];
      var skipped: seq<string> := [];
      for i := 0 to |scans|
        invariant scanEvents == old(scanEvents)
        invariant Split(redis.keys, processed, skipped) == ClaimAll(old(redis.keys), scans[..i], clock[..i])
      {
        assert scans[..i + 1][..i] == scans[..i] && clock[..i + 1][..i] == clock[..i];
        var isSet := redis.SetNx(CacheKey(scans[i].clientEventId), "PROCESSED", TTL_SECONDS, clock[i]);
        if !isSet {
          skipped := skipped + [scans[i].clientEventId];
          continue;
        }
        processed := processed + [scans[i]];
      }
      assert scans[..|scans|] == scans && clock[..|clock|] == clock;
      if |processed| > 0 {
        if !(dbOk && Insertable(scanEvents, processed)) { return TransactionFailed; }
        scanEvents := scanEvents + processed;
      }
      r := Completed(|scans|, |processed|, |skipped|, skipped);
    }
  }

  ghost predicate Advancing(clock: seq<Time>)
  {
    forall i, j | 0 <= i <= j < |clock| :: clock[i] <= clock[j]
  }

  /** The i-th scan is the first of its id that arrives while no earlier claim of that id is alive. */
  ghost predicate Wins(keys: Keys, scans: seq<Scan>, clock: seq<Time>, i: nat)
    requires |clock| == |scans| && i < |scans|
  {
    && !Live(keys, CacheKey(scans[i].clientEventId), clock[i])
    && forall j | 0 <= j < i && scans[j].clientEventId == scans[i].clientEventId ::
      Live(keys, CacheKey(scans[j].clientEventId), clock[j])
  }

  /** `wins` picks the processed scans and leaves the skipped ids, both in batch order. */
  function Picked(scans: seq<Scan>, wins: seq<bool>): seq<Scan>
    requires |scans| == |wins|
  {
    if scans == [] then []
    else Picked(scans[..|scans| - 1], wins[..|scans| - 1]) + (if wins[|scans| - 1] then [scans[|scans| - 1]] else [])
  }

  function Left(scans: seq<Scan>, wins: seq<bool>): seq<string>
    requires |scans| == |wins|
  {
    if scans == [] then []
    else Left(scans[..|scans| - 1], wins[..|scans| - 1])
         + (if wins[|scans| - 1] then [] else [scans[|scans| - 1].clientEventId])
  }

  /** The whole loop runs inside one TTL window. */
  ghost predicate InWindow(clock: seq<Time>, now: Time)
  {
    forall i | 0 <= i < |clock| :: clock[i] <= now < clock[i] + TTL
  }

  /** If an id is ever unclaimed when one of its scans arrives, some scan up to that one wins it. */
  lemma {:induction false} SomeoneWins(keys: Keys, scans: seq<Scan>, clock: seq<Time>, j: nat) returns (i: nat)
    requires |clock| == |scans| && j < |scans| && !Live(keys, CacheKey(scans[j].clientEventId), clock[j])
    ensures i <= j && scans[i].clientEventId == scans[j].clientEventId && Wins(keys, scans, clock, i)
    decreases j
  {
    if k :| && 0 <= k < j && scans[k].clientEventId == scans[j].clientEventId
            && !Live(keys, CacheKey(scans[k].clientEventId), clock[k])
    {
      i := SomeoneWins(keys, scans, clock, k);
    } else {
      i := j;
    }
  }

  ghost predicate Won(keys: Keys, scans: seq<Scan>, clock: seq<Time>, id: string)
    requires |clock| == |scans|
  {
    exists i | 0 <= i < |scans| :: scans[i].clientEventId == id && Wins(keys, scans, clock, i)
  }

  lemma WinsInPrefix(keys: Keys, scans: seq<Scan>, clock: seq<Time>, n: nat, i: nat)
    requires |clock| == |scans| && i < n <= |scans|
    ensures Wins(keys, scans[..n], clock[..n], i) <==> Wins(keys, scans, clock, i)
  {
  }

  lemma WonPrefix(keys: Keys, scans: seq<Scan>, clock: seq<Time>, id: string)
    requires |clock| == |scans| && scans != []
    ensures var n := |scans| - 1;
            Won(keys, scans, clock, id)
            <==> Won(keys, scans[..n], clock[..n], id) || (scans[n].clientEventId == id && Wins(keys, scans, clock, n))
  {
    var n := |scans| - 1;
    if i :| 0 <= i < n && scans[i].clientEventId == id && Wins(keys, scans, clock, i) {
      WinsInPrefix(keys, scans, clock, n, i);
      assert scans[..n][i].clientEventId == id;
    }
    if i :| 0 <= i < n && scans[..n][i].clientEventId == id && Wins(keys, scans[..n], clock[..n], i) {
      WinsInPrefix(keys, scans, clock, n, i);
      assert scans[i].clientEventId == id;
    }
  }

  /** Inside the window an id is alive after the loop exactly when it was before or a scan won it. */
  lemma {:induction false} LiveAfterIff(keys: Keys, scans: seq<Scan>, clock: seq<Time>, id: string, now: Time)
    requires |clock| == |scans| && Advancing(clock) && InWindow(clock, now)
    ensures Live(ClaimAll(keys, scans, clock).keys, CacheKey(id), now)
            <==> Live(keys, CacheKey(id), now) || Won(keys, scans, clock, id)
    decreases |scans|
  {
    if scans != [] {
      var n := |scans| - 1;
      var last := scans[n].clientEventId;
      LiveAfterIff(keys, scans[..n], clock[..n], id, now);
      LiveAfterIff(keys, scans[..n], clock[..n], last, clock[n]);
      LastWinsIff(keys, scans, clock);
      WonPrefix(keys, scans, clock, id);
      CacheKeyInjective(id, last);
    }
  }

  /** The last scan wins exactly when its id is neither alive from before nor won earlier in the batch. */
  lemma LastWinsIff(keys: Keys, scans: seq<Scan>, clock: seq<Time>)
    requires |clock| == |scans| && scans != []
    ensures var n := |scans| - 1;
            var id := scans[n].clientEventId;
            Wins(keys, scans, clock, n)
            <==> !Live(keys, CacheKey(id), clock[n]) && !Won(keys, scans[..n], clock[..n], id)
  {
    var n := |scans| - 1;
    var id := scans[n].clientEventId;
    if Won(keys, scans[..n], clock[..n], id) {
      var i :| 0 <= i < n && scans[..n][i].clientEventId == id && Wins(keys, scans[..n], clock[..n], i);
      assert scans[i].clientEventId == id && !Live(keys, CacheKey(scans[i].clientEventId), clock[i]);
    } else if j :| && 0 <= j < n && scans[j].clientEventId == id
                   && !Live(keys, CacheKey(scans[j].clientEventId), clock[j])
    {
      var i := SomeoneWins(keys, scans[..n], clock[..n], j);
    }
  }

  /** How many of the first `n` scans win. */
  function WinsBefore(wins: seq<bool>, n: nat): nat
    requires n <= |wins|
  {
    if n == 0 then 0 else WinsBefore(wins, n - 1) + (if wins[n - 1] then 1 else 0)
  }

  lemma {:induction false} WinsBeforePrefix(wins: seq<bool>, m: nat, n: nat)
    requires n <= m <= |wins|
    ensures WinsBefore(wins[..m], n) == WinsBefore(wins, n) <= n
    ensures WinsBefore(wins, n) <= WinsBefore(wins, m) && m - n >= WinsBefore(wins, m) - WinsBefore(wins, n)
  {
    if n > 0 { WinsBeforePrefix(wins, m, n - 1); }
    WinsGrow(wins, n, m);
  }

  lemma {:induction false} WinsGrow(wins: seq<bool>, n: nat, m: nat)
    requires n <= m <= |wins|
    ensures 0 <= WinsBefore(wins, m) - WinsBefore(wins, n) <= m - n
    decreases m
  {
    if n < m { WinsGrow(wins, n, m - 1); }
  }

  lemma PickedLast(scans: seq<Scan>, wins: seq<bool>)
    requires |scans| == |wins| && scans != []
    ensures var n := |scans| - 1;
            && Picked(scans, wins) == Picked(scans[..n], wins[..n]) + (if wins[n] then [scans[n]] else [])
            && Left(scans, wins) == Left(scans[..n], wins[..n]) + (if wins[n] then [] else [scans[n].clientEventId])
            && WinsBefore(wins, n + 1) == WinsBefore(wins, n) + (if wins[n] then 1 else 0)
  {
  }

  lemma {:induction false} PickedCounts(scans: seq<Scan>, wins: seq<bool>)
    requires |scans| == |wins|
    ensures |Picked(scans, wins)| == WinsBefore(wins, |wins|)
    ensures |Left(scans, wins)| == |wins| - WinsBefore(wins, |wins|)
  {
    if scans != [] {
      var n := |scans| - 1;
      PickedLast(scans, wins);
      hide Picked, Left, WinsBefore;
      PickedCounts(scans[..n], wins[..n]);
      WinsBeforePrefix(wins, n, n);
    }
  }

  /** Batch order: a winning scan stands behind the winners before it, and so does a losing id among the losers. */
  lemma {:induction false} PickedInOrder(scans: seq<Scan>, wins: seq<bool>, i: nat)
    requires |scans| == |wins| && i < |scans|
    ensures |Picked(scans, wins)| == WinsBefore(wins, |wins|)
    ensures |Left(scans, wins)| == |wins| - WinsBefore(wins, |wins|)
    ensures var w := WinsBefore(wins, i);
            if wins[i] then w < |Picked(scans, wins)| && Picked(scans, wins)[w] == scans[i]
            else i - w < |Left(scans, wins)| && 0 <= i - w && Left(scans, wins)[i - w] == scans[i].clientEventId
    decreases |scans|
  {
    var n := |scans| - 1;
    hide Picked, Left, WinsBefore;
    PickedCounts(scans, wins);
    PickedLast(scans, wins);
    WinsBeforePrefix(wins, n, i);
    if i < n {
      PickedInOrder(scans[..n], wins[..n], i);
    } else {
      PickedCounts(scans[..n], wins[..n]);
      WinsBeforePrefix(wins, n, n);
    }
  }

  /**
   The loop splits a batch in order: the winning scans are processed and the ids of all others skipped.
   */
  lemma {:induction false} SplitIsByWinning(keys: Keys, scans: seq<Scan>, clock: seq<Time>, wins: seq<bool>)
    requires |clock| == |scans| == |wins| && Advancing(clock)
    requires scans != [] ==> InWindow(clock, clock[|clock| - 1])
    requires forall i | 0 <= i < |scans| :: wins[i] <==> Wins(keys, scans, clock, i)
    ensures ClaimAll(keys, scans, clock).processed == Picked(scans, wins)
    ensures ClaimAll(keys, scans, clock).skipped == Left(scans, wins)
    ensures |Picked(scans, wins)| + |Left(scans, wins)| == |scans|
  {
    if scans != [] {
      var n := |scans| - 1;
      forall i | 0 <= i < n ensures wins[..n][i] <==> Wins(keys, scans[..n], clock[..n], i) {
        WinsInPrefix(keys, scans, clock, n, i);
      }
      forall i | 0 <= i < n && n > 0 ensures clock[..n][i] <= clock[n - 1] < clock[..n][i] + TTL {
        assert clock[i] <= clock[n - 1] <= clock[n];
      }
      SplitIsByWinning(keys, scans[..n], clock[..n], wins[..n]);
      LiveAfterIff(keys, scans[..n], clock[..n], scans[n].clientEventId, clock[n]);
      LastWinsIff(keys, scans, clock);
    }
  }

  /** When no claim expires while the loop runs, the winners are the first occurrences of unclaimed ids. */
  lemma WinnersAreFirstOccurrences(keys: Keys, scans: seq<Scan>, clock: seq<Time>, i: nat)
    requires |clock| == |scans| && i < |scans|
    requires forall j, k | 0 <= j < |scans| && 0 <= k < |scans| ::
               Live(keys, CacheKey(scans[j].clientEventId), clock[k])
               <==> Live(keys, CacheKey(scans[j].clientEventId), clock[0])
    ensures Wins(keys, scans, clock, i)
            <==> !Live(keys, CacheKey(scans[i].clientEventId), clock[0])
                 && forall j | 0 <= j < i :: scans[j].clientEventId != scans[i].clientEventId
  {
    assert Live(keys, CacheKey(scans[i].clientEventId), clock[i])
      <==> Live(keys, CacheKey(scans[i].clientEventId), clock[0]);
    if !Live(keys, CacheKey(scans[i].clientEventId), clock[0]) {
      forall j | 0 <= j < i && scans[j].clientEventId == scans[i].clientEventId
        ensures !Live(keys, CacheKey(scans[j].clientEventId), clock[j])
      {
        assert Live(keys, CacheKey(scans[j].clientEventId), clock[j])
          <==> Live(keys, CacheKey(scans[j].clientEventId), clock[0]);
      }
    }
  }

  lemma {:induction false} NothingPickedIff(scans: seq<Scan>, wins: seq<bool>)
    requires |scans| == |wins|
    ensures Picked(scans, wins) == [] <==> forall i | 0 <= i < |wins| :: !wins[i]
  {
    if scans != [] {
      var n := |scans| - 1;
      NothingPickedIff(scans[..n], wins[..n]);
      assert forall i | 0 <= i < n :: wins[..n][i] == wins[i];
    }
  }

  /** A batch is skipped as a whole exactly when each of its ids is alive as its scan arrives. */
  lemma NothingProcessedIff(keys: Keys, scans: seq<Scan>, clock: seq<Time>)
    requires |clock| == |scans| && Advancing(clock)
    requires scans != [] ==> InWindow(clock, clock[|clock| - 1])
    ensures ClaimAll(keys, scans, clock).processed == []
            <==> forall i | 0 <= i < |scans| :: Live(keys, CacheKey(scans[i].clientEventId), clock[i])
  {
    var won := seq(|scans|, i requires 0 <= i < |scans| => Wins(keys, scans, clock, i));
    SplitIsByWinning(keys, scans, clock, won);
    NothingPickedIff(scans, won);
    forall i | 0 <= i < |scans| && !Live(keys, CacheKey(scans[i].clientEventId), clock[i])
      ensures exists w | 0 <= w < |scans| :: won[w]
    {
      var w := SomeoneWins(keys, scans, clock, i);
      assert won[w];
    }
  }

  /**
   Whatever was claimed before, a resubmission inside the window processes nothing exactly when every id
   was won by the first submission or holds an older claim that is still alive.
   */
  lemma ResubmissionIff(keys: Keys, scans: seq<Scan>, clock: seq<Time>, again: seq<Time>)
    requires |clock| == |scans| == |again| && Advancing(clock) && Advancing(again)
    requires forall j | 0 <= j < |again| :: InWindow(clock, again[j])
    requires scans != [] ==> InWindow(again, again[|again| - 1])
    ensures ClaimAll(ClaimAll(keys, scans, clock).keys, scans, again).processed == []
            <==> forall i | 0 <= i < |scans| ::
                   || Live(keys, CacheKey(scans[i].clientEventId), again[i])
                   || Won(keys, scans, clock, scans[i].clientEventId)
  {
    var after := ClaimAll(keys, scans, clock).keys;
    NothingProcessedIff(after, scans, again);
    forall i | 0 <= i < |scans|
      ensures Live(after, CacheKey(scans[i].clientEventId), again[i])
              <==> || Live(keys, CacheKey(scans[i].clientEventId), again[i])
                   || Won(keys, scans, clock, scans[i].clientEventId)
    {
      LiveAfterIff(keys, scans, clock, scans[i].clientEventId, again[i]);
    }
  }

  /**
   The older claim matters. A scan claimed at time 0 is skipped in the last instant of that claim, and
   processed when it is sent again one instant later.
   */
  lemma ResubmissionCanProcess(scan: Scan)
    ensures var claimed := ClaimAll(map[], [scan], [0]);
            var skipped := ClaimAll(claimed.keys, [scan], [86400000 - 1]);
            var again := ClaimAll(skipped.keys, [scan], [86400000]);
            claimed.processed == [scan] && skipped.processed == [] && again.processed == [scan]
  {
    OneScan(map[], scan, 0);
    var claimed := ClaimAll(map[], [scan], [0]).keys;
    ClaimLastsOneWindow(map[], scan.clientEventId, 0, scan.clientEventId, TTL - 1);
    ClaimLastsOneWindow(map[], scan.clientEventId, 0, scan.clientEventId, TTL);
    OneScan(claimed, scan, TTL - 1);
    OneScan(claimed, scan, TTL);
  }

  lemma OneScan(keys: Keys, scan: Scan, now: Time)
    ensures ClaimAll(keys, [scan], [now])
            == if Live(keys, CacheKey(scan.clientEventId), now) then Split(keys, [], [scan.clientEventId])
               else Split(Claimed(keys, scan.clientEventId, now), [scan], [])
  {
    assert [scan][..0] == [] && [now][..0] == [];
  }

  /** A scan that wins at `at` is processed again exactly when it comes back at least 86400 seconds later. */
  lemma ProcessedAgainIff(keys: Keys, scan: Scan, at: Time, later: Time)
    requires !Live(keys, CacheKey(scan.clientEventId), at)
    ensures ClaimAll(keys, [scan], [at]).processed == [scan]
    ensures var again := ClaimAll(ClaimAll(keys, [scan], [at]).keys, [scan], [later]);
            if later >= at + 86400 * 1000 then again.processed == [scan] && again.skipped == []
            else again.processed == [] && again.skipped == [scan.clientEventId]
  {
    OneScan(keys, scan, at);
    ClaimLastsOneWindow(keys, scan.clientEventId, at, scan.clientEventId, later);
    OneScan(Claimed(keys, scan.clientEventId, at), scan, later);
  }

  /**
   Resubmitting any batch inside the window processes nothing, whether or not its transaction succeeded,
   unless a claim that was alive at the first submission lapses before the second.
   */
  lemma ResubmissionProcessesNothing(keys: Keys, scans: seq<Scan>, clock: seq<Time>, again: seq<Time>)
    requires |clock| == |scans| == |again| && Advancing(clock) && Advancing(again)
    requires forall j | 0 <= j < |again| :: InWindow(clock, again[j])
    requires scans != [] ==> InWindow(again, again[|again| - 1])
    requires forall i | 0 <= i < |scans| && Live(keys, CacheKey(scans[i].clientEventId), clock[i]) ::
               Live(keys, CacheKey(scans[i].clientEventId), again[i])
    ensures ClaimAll(ClaimAll(keys, scans, clock).keys, scans, again).processed == []
  {
    forall i | 0 <= i < |scans| && !Live(keys, CacheKey(scans[i].clientEventId), again[i])
      ensures Won(keys, scans, clock, scans[i].clientEventId)
    {
      var w := SomeoneWins(keys, scans, clock, i);
    }
    ResubmissionIff(keys, scans, clock, again);
  }
}
