/**
 The per-room replay ledger: a rolling 24-hour table of admitted tickets, each
 recorded under two keyed aliases so that a replay is still recognised after
 the HMAC key ring rotates.
 */
module ReplayLedger {
  import opened Options

  const WINDOW_MS: nat := 24 * 60 * 60 * 1000
  const PRUNE_BATCH: nat := 256
  const MAX_ADMISSIONS: nat := 100000
  const MAX_SAFE_INTEGER: nat := 9007199254740991
  const MAX_ACCEPTED_AT: nat := MAX_SAFE_INTEGER - WINDOW_MS

  type KeyId = nat
  type Ticket = string

  /** HMAC under a key is injective in the key and the signed ticket. */
  datatype Tag = Tag(key: KeyId, ticket: Ticket)
  datatype TagPair = TagPair(current: Tag, previous: Tag)
  datatype Row = Row(acceptedAt: nat, tags: Option<TagPair>)

  type Table = map<nat, Row>

  datatype KeyRing = KeyRing(current: KeyId, previous: KeyId)

  datatype Outcome =
    | Accepted(admissionId: nat)
    | MaintenanceBacklog
    | StorageCapacity
    | Replay
    | InvalidArgument
    | CorruptSchema

  function ReplayTags(ring: KeyRing, ticket: Ticket): TagPair {
    TagPair(Tag(ring.current, ticket), Tag(ring.previous, ticket))
  }

  predicate IsTagPair(pair: TagPair) {
    pair.current.key != pair.previous.key
  }

  /** The collision query compares both aliases against both columns. */
  predicate Carries(row: Row, pair: TagPair) {
    && row.tags.Some?
    && (row.tags.value.current in {pair.current, pair.previous} ||
        row.tags.value.previous in {pair.current, pair.previous})
  }

  predicate Collides(rows: Table, pair: TagPair) {
    exists id :: id in rows && Carries(rows[id], pair)
  }

  /** No tag occurs twice over both columns of the whole table. */
  ghost predicate TagsDistinct(rows: Table) {
    && (forall id :: id in rows && rows[id].tags.Some? ==> IsTagPair(rows[id].tags.value))
    && (forall id, other :: id in rows && other in rows && id != other && rows[other].tags.Some?
          ==> !Carries(rows[id], rows[other].tags.value))
  }

  ghost predicate ValidTable(rows: Table) {
    && (forall id :: id in rows ==> 1 <= id <= MAX_SAFE_INTEGER && rows[id].acceptedAt <= MAX_ACCEPTED_AT)
    && |rows| <= MAX_ADMISSIONS
    && TagsDistinct(rows)
  }

  ghost predicate AllClaimed(rows: Table) {
    forall id :: id in rows ==> rows[id].tags.Some?
  }

  // ---- bounded pruning ----------------------------------------------------

  function Expired(rows: Table, cutoff: int): set<nat> {
    set id | id in rows && rows[id].acceptedAt <= cutoff
  }

  /** The (accepted_at_ms, id) order of the prune query. */
  predicate Before(rows: Table, a: nat, b: nat)
    requires a in rows && b in rows
  {
    rows[a].acceptedAt < rows[b].acceptedAt || (rows[a].acceptedAt == rows[b].acceptedAt && a < b)
  }

  predicate IsOldest(rows: Table, cutoff: int, limit: nat, batch: set<nat>) {
    && batch <= Expired(rows, cutoff)
    && |batch| <= limit
    && (|batch| < limit ==> batch == Expired(rows, cutoff))
    && (forall a, b :: a in batch && b in Expired(rows, cutoff) - batch ==> Before(rows, a, b))
  }

  lemma LeastOf(rows: Table, ids: set<nat>) returns (least: nat)
    requires ids != {} && ids <= rows.Keys
    ensures least in ids && forall id :: id in ids && id != least ==> Before(rows, least, id)
    decreases |ids|
  {
    var pick :| pick in ids;
    var rest := ids - {pick};
    least := pick;
    if rest != {} {
      var other := LeastOf(rows, rest);
      least := if Before(rows, other, pick) then other else pick;
      forall id | id in ids && id != least
        ensures Before(rows, least, id)
      {
        assert id == pick || id in rest;
      }
    }
  }

  lemma OldestExists(rows: Table, cutoff: int, limit: nat)
    ensures exists batch :: IsOldest(rows, cutoff, limit, batch)
  {
    if limit == 0 {
      assert IsOldest(rows, cutoff, 0, {});
    } else {
      OldestExists(rows, cutoff, limit - 1);
      var smaller :| IsOldest(rows, cutoff, limit - 1, smaller);
      var rest := Expired(rows, cutoff) - smaller;
      if rest == {} {
        assert smaller == Expired(rows, cutoff);
        assert IsOldest(rows, cutoff, limit, smaller);
      } else {
        var least := LeastOf(rows, rest);
        assert IsOldest(rows, cutoff, limit, smaller + {least});
      }
    }
  }

  /** What one bounded prune leaves behind: rows lost are expired, oldest first. */
  ghost predicate Pruned(before: Table, after: Table, cutoff: int) {
    && after.Keys <= before.Keys
    && (forall id :: id in after ==> after[id] == before[id])
    && IsOldest(before, cutoff, PRUNE_BATCH, before.Keys - after.Keys)
  }

  predicate Backlog(rows: Table, cutoff: int) {
    exists id :: id in rows && rows[id].acceptedAt <= cutoff
  }

  lemma PrunedRetains(before: Table, after: Table, cutoff: int, id: nat)
    requires Pruned(before, after, cutoff) && id in before && before[id].acceptedAt > cutoff
    ensures id in after && after[id] == before[id]
  {
    assert id !in Expired(before, cutoff);
    assert id !in before.Keys - after.Keys;
  }

  lemma PrunedTable(before: Table, after: Table, cutoff: int)
    requires ValidTable(before) && Pruned(before, after, cutoff)
    ensures ValidTable(after) && after.Keys <= before.Keys && |after| <= |before|
    ensures forall id :: id in after ==> after[id] == before[id]
    ensures Retains(before, after, cutoff + WINDOW_MS)
    ensures AllClaimed(before) ==> AllClaimed(after)
  {
    forall id | id in before && before[id].acceptedAt > cutoff
      ensures id in after && after[id] == before[id]
    {
      PrunedRetains(before, after, cutoff, id);
    }
    assert |after| == |after.Keys| && |before| == |before.Keys|;
    CardinalityMonotone(after.Keys, before.Keys);
  }

  lemma CardinalityMonotone(small: set<nat>, large: set<nat>)
    requires small <= large
    ensures |small| <= |large|
  {
    assert large == small + (large - small);
  }

  // ---- one admission, as a relation between tables --------------------------

  /** What the reservation does to an already pruned table. */
  ghost predicate Reserved(pruned: Table, after: Table, now: int, outcome: Outcome, ceiling: nat) {
    && 0 <= now <= MAX_ACCEPTED_AT
    && (outcome == MaintenanceBacklog <==> Backlog(pruned, now - WINDOW_MS))
    && (outcome == StorageCapacity <==> !Backlog(pruned, now - WINDOW_MS) && |pruned| >= ceiling)
    && (outcome.Accepted? <==> !Backlog(pruned, now - WINDOW_MS) && |pruned| < ceiling)
    && if outcome.Accepted? then
         && IsNextId(pruned.Keys, outcome.admissionId) && outcome.admissionId <= MAX_SAFE_INTEGER
         && after == pruned[outcome.admissionId := Row(now, None)]
       else after == pruned
  }

  /** The insert would leave the safe-integer range; the transaction throws and rolls back. */
  ghost predicate IdsExhausted(rows: Table) {
    MAX_SAFE_INTEGER in rows
  }

  /** What the whole attempt does to an already pruned table. */
  ghost predicate Decided(pruned: Table, after: Table, now: int, pair: TagPair, outcome: Outcome, ceiling: nat) {
    var open := !Backlog(pruned, now - WINDOW_MS) && |pruned| < ceiling;
    && 0 <= now <= MAX_ACCEPTED_AT && IsTagPair(pair)
    && (outcome == MaintenanceBacklog <==> Backlog(pruned, now - WINDOW_MS))
    && (outcome == StorageCapacity <==> !Backlog(pruned, now - WINDOW_MS) && |pruned| >= ceiling)
    && (outcome == Replay <==> open && Collides(pruned, pair))
    && (outcome.Accepted? <==> open && !Collides(pruned, pair))
    && if outcome.Accepted? then
         && IsNextId(pruned.Keys, outcome.admissionId) && outcome.admissionId <= MAX_SAFE_INTEGER
         && after == pruned[outcome.admissionId := Row(now, Some(pair))]
       else after == pruned
  }

  /**
   A ticket attempt prunes first; it is refused while an expired backlog
   remains, while the ceiling is reached, or when either alias is retained.
   Only an acceptance adds a row, and that row is already claimed. With room
   left but no row id left the insert throws and even the pruning is undone.
   */
  ghost predicate Attempted(before: Table, after: Table, now: int, pair: TagPair, outcome: Outcome, ceiling: nat) {
    if !(0 <= now <= MAX_ACCEPTED_AT) || !IsTagPair(pair) then
      outcome == InvalidArgument && after == before
    else
      exists pruned ::
        && Pruned(before, pruned, now - WINDOW_MS)
        && if outcome == CorruptSchema then
             IdsExhausted(pruned) && !Backlog(pruned, now - WINDOW_MS) && |pruned| < ceiling && after == before
           else
             Decided(pruned, after, now, pair, outcome, ceiling) && (outcome == Replay ==> !IdsExhausted(pruned))
  }

  lemma DecidedTable(pruned: Table, after: Table, now: int, pair: TagPair, outcome: Outcome, ceiling: nat)
    requires ValidTable(pruned) && Decided(pruned, after, now, pair, outcome, ceiling)
    requires ceiling <= MAX_ADMISSIONS
    ensures ValidTable(after)
    ensures AllClaimed(pruned) ==> AllClaimed(after)
    ensures forall id :: id in pruned ==> id in after && after[id] == pruned[id]
  {
    if outcome.Accepted? {
      InsertKeepsDistinct(pruned, outcome.admissionId, Row(now, Some(pair)));
      assert after.Keys == pruned.Keys + {outcome.admissionId};
      assert |after.Keys| == |pruned.Keys| + 1;
    }
  }

  /** Every row still inside the rolling window survives unchanged. */
  ghost predicate Retains(before: Table, after: Table, now: int) {
    forall id :: id in before && before[id].acceptedAt > now - WINDOW_MS ==> id in after && after[id] == before[id]
  }

  lemma AttemptedTable(before: Table, after: Table, now: int, pair: TagPair, outcome: Outcome, ceiling: nat)
    requires ValidTable(before) && Attempted(before, after, now, pair, outcome, ceiling)
    requires ceiling <= MAX_ADMISSIONS
    ensures ValidTable(after)
    ensures AllClaimed(before) ==> AllClaimed(after)
    ensures Retains(before, after, now)
  {
    hide Pruned, ValidTable, Backlog, Collides, IsNextId, AllClaimed;
    forall id | id in before && before[id].acceptedAt > now - WINDOW_MS
      ensures id in after && after[id] == before[id]
    {
      AttemptRetains(before, after, now, pair, outcome, ceiling, id);
    }
    if outcome != InvalidArgument && outcome != CorruptSchema {
      var pruned :| Pruned(before, pruned, now - WINDOW_MS) && Decided(pruned, after, now, pair, outcome, ceiling);
      PrunedTable(before, pruned, now - WINDOW_MS);
      DecidedTable(pruned, after, now, pair, outcome, ceiling);
    }
  }

  lemma AttemptRetains(before: Table, after: Table, now: int, pair: TagPair, outcome: Outcome, ceiling: nat, id: nat)
    requires Attempted(before, after, now, pair, outcome, ceiling)
    requires id in before && before[id].acceptedAt > now - WINDOW_MS
    ensures id in after && after[id] == before[id]
  {
    hide Pruned, Decided, IdsExhausted, IsTagPair;
    if 0 <= now <= MAX_ACCEPTED_AT && IsTagPair(pair) && outcome != CorruptSchema {
      var pruned :| Pruned(before, pruned, now - WINDOW_MS) && Decided(pruned, after, now, pair, outcome, ceiling);
      PrunedRetains(before, pruned, now - WINDOW_MS, id);
      DecidedRetains(pruned, after, now, pair, outcome, ceiling, id);
    }
  }

  lemma DecidedRetains(
    pruned: Table, after: Table, now: int, pair: TagPair, outcome: Outcome, ceiling: nat, id: nat)
    requires Decided(pruned, after, now, pair, outcome, ceiling) && id in pruned
    ensures id in after && after[id] == pruned[id]
  {
    hide Collides, Backlog, IsTagPair;
  }

  /** A retained row that carries either alias keeps the ticket out. */
  lemma RetainedAliasRefuses(
    before: Table, after: Table, now: int, pair: TagPair, outcome: Outcome, ceiling: nat, id: nat)
    requires Attempted(before, after, now, pair, outcome, ceiling)
    requires id in before && before[id].acceptedAt > now - WINDOW_MS && Carries(before[id], pair)
    ensures !outcome.Accepted?
  {
    if outcome.Accepted? {
      var pruned :| Pruned(before, pruned, now - WINDOW_MS) && Decided(pruned, after, now, pair, outcome, ceiling);
      PrunedRetains(before, pruned, now - WINDOW_MS, id);
      assert Collides(pruned, pair);
    }
  }

  lemma InsertKeepsDistinct(rows: Table, id: nat, row: Row)
    requires TagsDistinct(rows) && id !in rows
    requires row.tags.Some? && IsTagPair(row.tags.value) && !Collides(rows, row.tags.value)
    ensures TagsDistinct(rows[id := row])
  {
    var after := rows[id := row];
    assert forall other :: other in rows ==> !Carries(rows[other], row.tags.value);
  }

  // ---- the store --------------------------------------------------------------

  datatype ClaimResult = Claimed | Missing | AlreadyClaimed | ReplayedTag | InvalidClaim

  class AdmissionStore {
    const maximumRetained: nat
    var rows: Table

    ghost predicate Valid()
      reads this
    {
      1 <= maximumRetained <= MAX_ADMISSIONS && ValidTable(rows)
    }

    constructor (maximumRetained: nat)
      requires 1 <= maximumRetained <= MAX_ADMISSIONS
      ensures Valid() && rows == map[] && this.maximumRetained == maximumRetained
    {
      this.maximumRetained := maximumRetained;
      rows := map[];
    }

    /** Deletes at most one batch of the oldest rows at or before the cutoff. */
    method PruneBefore(cutoff: int) returns (backlog: bool, deleted: nat)
      requires Valid()
      modifies this`rows
      ensures Valid()
      ensures Pruned(old(rows), rows, cutoff) && backlog == Backlog(rows, cutoff)
      ensures deleted == |old(rows)| - |rows| && deleted <= PRUNE_BATCH
    {
      hide ValidTable, Backlog;
      OldestExists(rows, cutoff, PRUNE_BATCH);
      ghost var before := rows;
      var batch: set<nat> :| batch <= Expired(rows, cutoff) && IsOldest(rows, cutoff, PRUNE_BATCH, batch);
      rows := rows - batch;
      deleted := |batch|;
      backlog := Backlog(rows, cutoff);
      assert batch == before.Keys - rows.Keys;
      assert before.Keys == rows.Keys + batch;
      assert |before.Keys| == |rows.Keys| + |batch|;
      PrunedTable(before, rows, cutoff);
    }

    method Prune(now: int) returns (valid: bool, deleted: nat)
      requires Valid()
      modifies this`rows
      ensures Valid()
      ensures valid == (0 <= now <= MAX_ACCEPTED_AT)
      ensures valid ==> Pruned(old(rows), rows, now - WINDOW_MS) && deleted == |old(rows)| - |rows|
      ensures !valid ==> rows == old(rows) && deleted == 0
    {
      hide Pruned, ValidTable;
      valid := 0 <= now <= MAX_ACCEPTED_AT;
      deleted := 0;
      if valid {
        var _, count := PruneBefore(now - WINDOW_MS);
        deleted := count;
      }
    }

    /** Reserves an unclaimed row, the first half of an admission. */
    method Consume(now: int) returns (outcome: Outcome, ghost pruned: Table)
      requires Valid()
      modifies this`rows
      ensures Valid()
      ensures !(0 <= now <= MAX_ACCEPTED_AT) ==> outcome == InvalidArgument && rows == old(rows)
      ensures 0 <= now <= MAX_ACCEPTED_AT ==>
                && Pruned(old(rows), pruned, now - WINDOW_MS)
                && if outcome == CorruptSchema then
                     && IdsExhausted(pruned) && !Backlog(pruned, now - WINDOW_MS)
                     && |pruned| < maximumRetained && rows == old(rows)
                   else
                     && Reserved(pruned, rows, now, outcome, maximumRetained)
                     && (outcome.Accepted? ==> !IdsExhausted(pruned))
    {
      hide Pruned, ValidTable, Backlog;
      var before := rows;
      if !(0 <= now <= MAX_ACCEPTED_AT) {
        return InvalidArgument, rows;
      }
      var backlog, _ := PruneBefore(now - WINDOW_MS);
      pruned := rows;
      if backlog {
        return MaintenanceBacklog, rows;
      }
      if |rows| >= maximumRetained {
        return StorageCapacity, rows;
      }
      IdsArePositive(rows);
      NextIdExists(rows.Keys);
      var id: nat :| IsNextId(rows.Keys, id);
      assert IsNextId(rows.Keys, id);
      if id > MAX_SAFE_INTEGER {
        rows := before;
        return CorruptSchema, pruned;
      }
      ReservationKeepsTable(rows, id, now);
      rows := rows[id := Row(now, None)];
      outcome := Accepted(id);
    }

    /** Attaches both aliases to a reservation unless either is already retained. */
    method ClaimReplayTags(admissionId: nat, pair: TagPair) returns (result: ClaimResult)
      requires Valid()
      modifies this`rows
      ensures Valid()
      ensures result == InvalidClaim <==> !(1 <= admissionId <= MAX_SAFE_INTEGER) || !IsTagPair(pair)
      ensures result != InvalidClaim ==>
                && (result == Missing <==> admissionId !in old(rows))
                && (result == AlreadyClaimed <==> admissionId in old(rows) && old(rows)[admissionId].tags.Some?)
                && (result == ReplayedTag <==> admissionId in old(rows) && old(rows)[admissionId].tags.None?
                                                && Collides(old(rows), pair))
      ensures rows == if result == Claimed
                      then old(rows)[admissionId := old(rows)[admissionId].(tags := Some(pair))]
                      else old(rows)
    {
      hide ValidTable, Collides;
      if !(1 <= admissionId <= MAX_SAFE_INTEGER) || !IsTagPair(pair) {
        return InvalidClaim;
      }
      if admissionId !in rows {
        return Missing;
      }
      if rows[admissionId].tags.Some? {
        return AlreadyClaimed;
      }
      if Collides(rows, pair) {
        return ReplayedTag;
      }
      ClaimKeepsTable(rows, admissionId, pair);
      rows := rows[admissionId := rows[admissionId].(tags := Some(pair))];
      result := Claimed;
    }

    /** Deletes only a reservation that never acquired aliases. */
    method Release(admissionId: nat) returns (released: bool)
      requires Valid()
      modifies this`rows
      ensures Valid()
      ensures released == (admissionId in old(rows) && old(rows)[admissionId].tags.None?)
      ensures rows == if released then old(rows) - {admissionId} else old(rows)
    {
      released := admissionId in rows && rows[admissionId].tags.None?;
      if released {
        ghost var before := rows;
        rows := rows - {admissionId};
        CardinalityMonotone(rows.Keys, before.Keys);
      }
    }

    /** The second half of an admission: a replay gives its reservation back. */
    method ClaimOrRelease(id: nat, pair: TagPair, now: nat, ghost pruned: Table) returns (outcome: Outcome)
      requires Valid() && IsTagPair(pair) && 1 <= id <= MAX_SAFE_INTEGER
      requires id !in pruned && rows == pruned[id := Row(now, None)]
      modifies this`rows
      ensures Valid()
      ensures outcome == if Collides(pruned, pair) then Replay else Accepted(id)
      ensures rows == if Collides(pruned, pair) then pruned else pruned[id := Row(now, Some(pair))]
    {
      hide ValidTable, Collides;
      ReservationNeverCollides(pruned, id, now, pair);
      var claim := ClaimReplayTags(id, pair);
      outcome := Accepted(id);
      if claim != Claimed {
        assert claim == ReplayedTag;
        var _ := Release(id);
        outcome := Replay;
      }
    }

    /**
     Reserve, claim, and on a replay give the reservation back, in one
     transaction. A claim whose own reservation is missing or already claimed, and
     a release that removes nothing, cannot happen; the one exit for a corrupt
     schema left is a table whose row ids are exhausted.
     */
    method ConsumeAndClaim(now: int, pair: TagPair) returns (outcome: Outcome)
      requires Valid()
      modifies this`rows
      ensures Valid()
      ensures Attempted(old(rows), rows, now, pair, outcome, maximumRetained)
      ensures AllClaimed(old(rows)) ==> AllClaimed(rows)
      ensures Retains(old(rows), rows, now)
    {
      if !IsTagPair(pair) {
        return InvalidArgument;
      }
      ghost var before := rows;
      ghost var pruned;
      outcome, pruned := Consume(now);
      if outcome == InvalidArgument || outcome == CorruptSchema {
        return;
      }
      PrunedTable(before, pruned, now - WINDOW_MS);
      if outcome.Accepted? {
        outcome := ClaimOrRelease(outcome.admissionId, pair, now, pruned);
      }
      assert Decided(pruned, rows, now, pair, outcome, maximumRetained);
      DecidedTable(pruned, rows, now, pair, outcome, maximumRetained);
    }

    /** The moment the next retained row leaves the rolling window. */
    method EarliestRetainedExpiry() returns (expiry: Option<nat>)
      requires Valid()
      ensures expiry.None? <==> rows == map[]
      ensures expiry.Some? ==>
                && (exists id :: id in rows && rows[id].acceptedAt + WINDOW_MS == expiry.value)
                && (forall id :: id in rows ==> expiry.value <= rows[id].acceptedAt + WINDOW_MS)
    {
      if rows == map[] {
        return None;
      }
      assert rows.Keys != {};
      ghost var least := LeastOf(rows, rows.Keys);
      assert IsEarliest(rows, least) by {
        forall id | id in rows
          ensures rows[least].acceptedAt <= rows[id].acceptedAt
        {
          assert id == least || Before(rows, least, id);
        }
      }
      var first: nat :| IsEarliest(rows, first);
      assert IsEarliest(rows, first);
      expiry := Some(rows[first].acceptedAt + WINDOW_MS);
    }
  }

  lemma ReservationNeverCollides(pruned: Table, id: nat, now: nat, pair: TagPair)
    requires id !in pruned
    ensures Collides(pruned[id := Row(now, None)], pair) <==> Collides(pruned, pair)
  {
    var reserved := pruned[id := Row(now, None)];
    if Collides(pruned, pair) {
      var k :| k in pruned && Carries(pruned[k], pair);
      assert k in reserved && reserved[k] == pruned[k];
    }
  }

  predicate IsEarliest(rows: Table, first: nat) {
    first in rows && forall id :: id in rows ==> rows[first].acceptedAt <= rows[id].acceptedAt
  }

  /** Attaching aliases that nothing carries keeps the table valid. */
  lemma ClaimKeepsTable(rows: Table, id: nat, pair: TagPair)
    requires ValidTable(rows) && id in rows && IsTagPair(pair) && !Collides(rows, pair)
    ensures ValidTable(rows[id := rows[id].(tags := Some(pair))])
  {
    var row := rows[id].(tags := Some(pair));
    ClaimKeepsDistinct(rows, id, pair);
    hide TagsDistinct, Collides;
    assert rows[id := row].Keys == rows.Keys;
    assert |rows[id := row]| == |rows[id := row].Keys| && |rows| == |rows.Keys|;
  }

  lemma ClaimKeepsDistinct(rows: Table, id: nat, pair: TagPair)
    requires TagsDistinct(rows) && id in rows && IsTagPair(pair) && !Collides(rows, pair)
    ensures TagsDistinct(rows[id := rows[id].(tags := Some(pair))])
  {
    var after := rows[id := rows[id].(tags := Some(pair))];
    assert forall k :: k in rows ==> !Carries(rows[k], pair);
    forall k, other | k in after && other in after && k != other && after[other].tags.Some?
      ensures !Carries(after[k], after[other].tags.value)
    {
      if k == id {
        assert !Carries(rows[other], pair);
      }
    }
  }

  lemma IdsArePositive(rows: Table)
    requires ValidTable(rows)
    ensures forall id :: id in rows.Keys ==> 1 <= id <= MAX_SAFE_INTEGER
  {
  }

  /** An unclaimed row inserted below the ceiling keeps the table valid. */
  lemma ReservationKeepsTable(rows: Table, id: nat, now: nat)
    requires ValidTable(rows) && IsNextId(rows.Keys, id) && id <= MAX_SAFE_INTEGER && now <= MAX_ACCEPTED_AT
    requires |rows| < MAX_ADMISSIONS
    ensures ValidTable(rows[id := Row(now, None)])
  {
    var after := rows[id := Row(now, None)];
    ReservationKeepsDistinct(rows, id, now);
    hide TagsDistinct;
    assert after.Keys == rows.Keys + {id};
    assert |after.Keys| == |rows.Keys| + 1;
  }

  lemma ReservationKeepsDistinct(rows: Table, id: nat, now: nat)
    requires TagsDistinct(rows) && id !in rows
    ensures TagsDistinct(rows[id := Row(now, None)])
  {
    var after := rows[id := Row(now, None)];
    forall k, other | k in after && other in after && k != other && after[other].tags.Some?
      ensures !Carries(after[k], after[other].tags.value)
    {
      assert other in rows;
    }
  }

  /** SQLite's row-id choice: one past the largest id in the table. */
  predicate IsNextId(ids: set<nat>, id: nat) {
    1 <= id && (forall k :: k in ids ==> k < id) && (id == 1 || id - 1 in ids)
  }

  lemma NextIdExists(ids: set<nat>)
    requires forall k :: k in ids ==> 1 <= k
    ensures exists id: nat :: IsNextId(ids, id)
  {
    if ids == {} {
      assert IsNextId(ids, 1);
    } else {
      var k :| k in ids;
      NextIdExists(ids - {k});
      var id: nat :| IsNextId(ids - {k}, id);
      assert forall j :: j in ids ==> j == k || j in ids - {k};
      assert IsNextId(ids, if k < id then id else k + 1);
    }
  }
}
