/**
 Every run of one room's replay ledger: ticket attempts, maintenance prunes and
 key rotations in clock order. A ticket is never accepted twice inside the
 rolling window, and this needs exactly that rotations are spaced by it.
 */
module ReplayRuns {
  import opened Options
  import opened ReplayLedger

  /** Table, key ring, last event time and last rotation time. */
  datatype Ledger = Ledger(rows: Table, ring: KeyRing, clock: int, rotatedAt: int)

  datatype Event =
    | Attempt(at: int, ticket: Ticket, outcome: Outcome)
    | Maintain(at: int)
    | Rotate(at: int, key: KeyId)

  ghost predicate ValidLedger(s: Ledger) {
    ValidTable(s.rows) && AllClaimed(s.rows) && s.ring.current != s.ring.previous
  }

  /** A rotation makes the current key the previous one; `gap` is the least spacing allowed. */
  ghost predicate Step(s: Ledger, e: Event, t: Ledger, ceiling: nat, gap: nat) {
    && s.clock <= e.at == t.clock
    && match e
       case Attempt(at, ticket, outcome) =>
         && t.ring == s.ring && t.rotatedAt == s.rotatedAt
         && Attempted(s.rows, t.rows, at, ReplayTags(s.ring, ticket), outcome, ceiling)
       case Maintain(at) =>
         && t.ring == s.ring && t.rotatedAt == s.rotatedAt
         && if 0 <= at <= MAX_ACCEPTED_AT then Pruned(s.rows, t.rows, at - WINDOW_MS) else t.rows == s.rows
       case Rotate(at, key) =>
         && at - s.rotatedAt >= gap && key != s.ring.current
         && t.ring == KeyRing(key, s.ring.current) && t.rotatedAt == at && t.rows == s.rows
  }

  ghost predicate Run(states: seq<Ledger>, events: seq<Event>, ceiling: nat, gap: nat) {
    && |states| == |events| + 1
    && ValidLedger(states[0])
    && forall k :: 0 <= k < |events| ==> Step(states[k], events[k], states[k + 1], ceiling, gap)
  }

  /** Two acceptances of one ticket are at least a whole window apart. */
  ghost predicate NoReplay(events: seq<Event>) {
    forall i, j ::
      && 0 <= i < j < |events| && events[i].Attempt? && events[j].Attempt?
      && events[i].ticket == events[j].ticket && events[i].outcome.Accepted?
      && events[j].at < events[i].at + WINDOW_MS
      ==> !events[j].outcome.Accepted?
  }

  lemma StepKeepsValid(s: Ledger, e: Event, t: Ledger, ceiling: nat, gap: nat)
    requires ValidLedger(s) && Step(s, e, t, ceiling, gap) && ceiling <= MAX_ADMISSIONS
    ensures ValidLedger(t)
    ensures Retains(s.rows, t.rows, e.at)
  {
    hide Attempted, Pruned, IsOldest, ValidTable, TagsDistinct, AllClaimed, ReplayTags;
    match e
    case Attempt(at, ticket, outcome) =>
      AttemptedTable(s.rows, t.rows, at, ReplayTags(s.ring, ticket), outcome, ceiling);
    case Maintain(at) =>
      if 0 <= at <= MAX_ACCEPTED_AT {
        PrunedTable(s.rows, t.rows, at - WINDOW_MS);
      }
    case Rotate(_, _) =>
  }

  /** No state of a run holds an unclaimed row or one tag twice. */
  lemma {:induction false} RunKeepsLedgerValid(states: seq<Ledger>, events: seq<Event>, ceiling: nat, gap: nat, k: nat)
    requires Run(states, events, ceiling, gap) && ceiling <= MAX_ADMISSIONS && k < |states|
    ensures ValidLedger(states[k])
  {
    if k > 0 {
      RunKeepsLedgerValid(states, events, ceiling, gap, k - 1);
      StepKeepsValid(states[k - 1], events[k - 1], states[k], ceiling, gap);
    }
  }

  /** Row `id` records the ticket, under a key the ring still derives aliases with. */
  ghost predicate Guards(s: Ledger, id: nat, ticket: Ticket, since: int) {
    && id in s.rows && s.rows[id].acceptedAt == since && s.rows[id].tags.Some?
    && s.rows[id].tags.value.current.ticket == ticket
    && var key := s.rows[id].tags.value.current.key;
       s.ring.current == key || (s.ring.previous == key && s.rotatedAt >= since)
  }

  lemma GuardRefuses(s: Ledger, e: Event, t: Ledger, ceiling: nat, gap: nat, id: nat, since: int)
    requires Step(s, e, t, ceiling, gap) && e.Attempt?
    requires Guards(s, id, e.ticket, since) && e.at < since + WINDOW_MS
    ensures !e.outcome.Accepted?
  {
    var pair := ReplayTags(s.ring, e.ticket);
    assert Carries(s.rows[id], pair);
    RetainedAliasRefuses(s.rows, t.rows, e.at, pair, e.outcome, ceiling, id);
  }

  lemma GuardPersists(s: Ledger, e: Event, t: Ledger, ceiling: nat, gap: nat, id: nat, ticket: Ticket, since: int)
    requires Step(s, e, t, ceiling, gap) && gap >= WINDOW_MS
    requires Guards(s, id, ticket, since) && since <= s.clock && e.at < since + WINDOW_MS
    ensures Guards(t, id, ticket, since)
  {
    match e
    case Attempt(at, other, outcome) =>
      AttemptRetains(s.rows, t.rows, at, ReplayTags(s.ring, other), outcome, ceiling, id);
    case Maintain(at) =>
      if 0 <= at <= MAX_ACCEPTED_AT {
        PrunedRetains(s.rows, t.rows, at - WINDOW_MS, id);
      }
    case Rotate(_, _) =>
  }

  lemma AcceptanceGuards(s: Ledger, e: Event, t: Ledger, ceiling: nat, gap: nat)
    requires Step(s, e, t, ceiling, gap) && e.Attempt? && e.outcome.Accepted?
    ensures Guards(t, e.outcome.admissionId, e.ticket, e.at)
  {
  }

  lemma {:induction false} GuardReaches(
    states: seq<Ledger>, events: seq<Event>, ceiling: nat, gap: nat, i: nat, j: nat)
    requires Run(states, events, ceiling, gap) && gap >= WINDOW_MS
    requires i < j <= |events| && events[i].Attempt? && events[i].outcome.Accepted?
    requires forall k :: i < k < j ==> events[k].at < events[i].at + WINDOW_MS
    ensures Guards(states[j], events[i].outcome.admissionId, events[i].ticket, events[i].at)
    ensures events[i].at <= states[j].clock
    decreases j
  {
    if j == i + 1 {
      assert Step(states[i], events[i], states[j], ceiling, gap);
      AcceptanceGuards(states[i], events[i], states[j], ceiling, gap);
    } else {
      GuardReaches(states, events, ceiling, gap, i, j - 1);
      assert Step(states[j - 1], events[j - 1], states[j], ceiling, gap);
      GuardPersists(states[j - 1], events[j - 1], states[j], ceiling, gap,
                    events[i].outcome.admissionId, events[i].ticket, events[i].at);
    }
  }

  lemma {:induction false} ClockOrder(
    states: seq<Ledger>, events: seq<Event>, ceiling: nat, gap: nat, i: nat, j: nat)
    requires Run(states, events, ceiling, gap) && i <= j < |events|
    ensures events[i].at <= events[j].at
    decreases j
  {
    if i < j {
      ClockOrder(states, events, ceiling, gap, i, j - 1);
      assert Step(states[j - 1], events[j - 1], states[j], ceiling, gap);
      assert Step(states[j], events[j], states[j + 1], ceiling, gap);
    }
  }

  /** With rotations a window apart, a ticket accepted once is refused for the whole window. */
  lemma ReplayRefusedAcrossRotation(states: seq<Ledger>, events: seq<Event>, ceiling: nat, gap: nat)
    requires Run(states, events, ceiling, gap) && gap >= WINDOW_MS
    ensures NoReplay(events)
  {
    forall i, j |
      && 0 <= i < j < |events| && events[i].Attempt? && events[j].Attempt?
      && events[i].ticket == events[j].ticket && events[i].outcome.Accepted?
      && events[j].at < events[i].at + WINDOW_MS
      ensures !events[j].outcome.Accepted?
    {
      forall k | i < k < j
        ensures events[k].at < events[i].at + WINDOW_MS
      {
        ClockOrder(states, events, ceiling, gap, k, j);
      }
      GuardReaches(states, events, ceiling, gap, i, j);
      assert Step(states[j], events[j], states[j + 1], ceiling, gap);
      GuardRefuses(states[j], events[j], states[j + 1], ceiling, gap, events[i].outcome.admissionId, events[i].at);
    }
  }

  lemma FirstAccepted(pair: TagPair, ceiling: nat)
    requires IsTagPair(pair) && 1 <= ceiling
    ensures Attempted(map[], map[1 := Row(0, Some(pair))], 0, pair, Accepted(1), ceiling)
  {
    assert Pruned(map[], map[], 0 - WINDOW_MS);
    assert Decided(map[], map[1 := Row(0, Some(pair))], 0, pair, Accepted(1), ceiling);
  }

  lemma SecondAccepted(pair: TagPair, again: TagPair, now: nat, ceiling: nat)
    requires IsTagPair(pair) && IsTagPair(again) && now < WINDOW_MS && 2 <= ceiling
    requires !Carries(Row(0, Some(pair)), again)
    ensures Attempted(map[1 := Row(0, Some(pair))], map[1 := Row(0, Some(pair)), 2 := Row(now, Some(again))],
                      now, again, Accepted(2), ceiling)
  {
    var one: Table := map[1 := Row(0, Some(pair))];
    assert one.Keys == {1} && |one| == |one.Keys|;
    assert Pruned(one, one, now - WINDOW_MS);
    assert map[1 := Row(0, Some(pair)), 2 := Row(now, Some(again))] == one[2 := Row(now, Some(again))];
    assert Decided(one, one[2 := Row(now, Some(again))], now, again, Accepted(2), ceiling);
  }

  /** A spacing any shorter admits a replay: two rotations retire both recorded keys. */
  lemma ShorterGapAdmitsReplay(ceiling: nat, gap: nat) returns (states: seq<Ledger>, events: seq<Event>)
    requires 2 <= ceiling <= MAX_ADMISSIONS && gap < WINDOW_MS
    ensures Run(states, events, ceiling, gap) && !NoReplay(events)
  {
    var ticket := "t";
    var longAgo: int := 0 - gap;
    var pair := ReplayTags(KeyRing(1, 0), ticket);
    var again := ReplayTags(KeyRing(3, 2), ticket);
    var one: Table := map[1 := Row(0, Some(pair))];
    var two: Table := map[1 := Row(0, Some(pair)), 2 := Row(gap, Some(again))];
    events := [Attempt(0, ticket, Accepted(1)), Rotate(0, 2), Rotate(gap, 3), Attempt(gap, ticket, Accepted(2))];
    states := [Ledger(map[], KeyRing(1, 0), 0, longAgo), Ledger(one, KeyRing(1, 0), 0, longAgo),
               Ledger(one, KeyRing(2, 1), 0, 0), Ledger(one, KeyRing(3, 2), gap, gap),
               Ledger(two, KeyRing(3, 2), gap, gap)];
    FirstAccepted(pair, ceiling);
    SecondAccepted(pair, again, gap, ceiling);
    assert events[0].ticket == events[3].ticket;
  }

  /** Replay safety of every run holds exactly when rotations are spaced by the window. */
  lemma ReplaySafetyIffSpaced(ceiling: nat, gap: nat)
    requires 2 <= ceiling <= MAX_ADMISSIONS
    ensures (forall states, events :: Run(states, events, ceiling, gap) ==> NoReplay(events)) <==> gap >= WINDOW_MS
  {
    if gap >= WINDOW_MS {
      forall states, events | Run(states, events, ceiling, gap)
        ensures NoReplay(events)
      {
        ReplayRefusedAcrossRotation(states, events, ceiling, gap);
      }
    } else {
      var states, events := ShorterGapAdmitsReplay(ceiling, gap);
    }
  }

  // ---- what an attempt is answered, told by the run and not by the collision query ----

  /** Row `id` is what event `i`, an acceptance, inserted under the ring of its moment. */
  ghost predicate WroteRow(states: seq<Ledger>, events: seq<Event>, i: nat, id: nat, row: Row)
    requires |states| == |events| + 1 && i < |events|
  {
    && events[i].Attempt? && events[i].outcome == Accepted(id)
    && row == Written(events[i], states[i].ring)
  }

  /** An accepted event's row: its time and the ticket under the two keys of the ring. */
  ghost function Written(e: Event, ring: KeyRing): Row
    requires e.Attempt?
  {
    Row(if e.at >= 0 then e.at else 0, Some(TagPair(Tag(ring.current, e.ticket), Tag(ring.previous, e.ticket))))
  }

  /** Every row of a run from an empty ledger was written by an earlier acceptance. */
  lemma {:induction false} RowsComeFromAcceptances(
    states: seq<Ledger>, events: seq<Event>, ceiling: nat, gap: nat, j: nat, id: nat)
    requires Run(states, events, ceiling, gap) && states[0].rows == map[] && j < |states|
    requires id in states[j].rows
    ensures exists i :: 0 <= i < j && WroteRow(states, events, i, id, states[j].rows[id])
    decreases j
  {
    hide Pruned, Decided, ValidLedger;
    assert j > 0;
    var s, e, t := states[j - 1], events[j - 1], states[j];
    assert Step(s, e, t, ceiling, gap);
    if id in s.rows && s.rows[id] == t.rows[id] {
      RowsComeFromAcceptances(states, events, ceiling, gap, j - 1, id);
      var i :| 0 <= i < j - 1 && WroteRow(states, events, i, id, s.rows[id]);
      assert WroteRow(states, events, i, id, t.rows[id]);
    } else {
      StepAddsOnlyAcceptance(s, e, t, ceiling, gap, id);
      assert WroteRow(states, events, j - 1, id, t.rows[id]);
    }
  }

  lemma StepAddsOnlyAcceptance(s: Ledger, e: Event, t: Ledger, ceiling: nat, gap: nat, id: nat)
    requires Step(s, e, t, ceiling, gap) && id in t.rows && !(id in s.rows && s.rows[id] == t.rows[id])
    ensures e.Attempt? && e.outcome == Accepted(id) && t.rows[id] == Written(e, s.ring)
  {
    hide Collides, Backlog, IsOldest;
  }

  /** An acceptance's row stays, as written, until it leaves the window. */
  lemma {:induction false} AcceptanceStays(
    states: seq<Ledger>, events: seq<Event>, ceiling: nat, gap: nat, i: nat, j: nat)
    requires Run(states, events, ceiling, gap) && i < j <= |events|
    requires events[i].Attempt? && events[i].outcome.Accepted?
    requires forall k :: i < k < j ==> events[k].at < events[i].at + WINDOW_MS
    ensures events[i].outcome.admissionId in states[j].rows
    ensures states[j].rows[events[i].outcome.admissionId] == Written(events[i], states[i].ring) && events[i].at >= 0
    decreases j
  {
    hide Pruned, ValidLedger, Collides, Backlog;
    if j == i + 1 {
      assert Step(states[i], events[i], states[j], ceiling, gap);
    } else {
      AcceptanceStays(states, events, ceiling, gap, i, j - 1);
      assert Step(states[j - 1], events[j - 1], states[j], ceiling, gap);
      StepRetains(states[j - 1], events[j - 1], states[j], ceiling, gap, events[i].outcome.admissionId);
    }
  }

  lemma StepRetains(s: Ledger, e: Event, t: Ledger, ceiling: nat, gap: nat, id: nat)
    requires Step(s, e, t, ceiling, gap) && id in s.rows && s.rows[id].acceptedAt > e.at - WINDOW_MS
    ensures id in t.rows && t.rows[id] == s.rows[id]
  {
    match e
    case Attempt(at, ticket, outcome) =>
      AttemptRetains(s.rows, t.rows, at, ReplayTags(s.ring, ticket), outcome, ceiling, id);
    case Maintain(at) =>
      if 0 <= at <= MAX_ACCEPTED_AT {
        PrunedRetains(s.rows, t.rows, at - WINDOW_MS, id);
      }
    case Rotate(_, _) =>
  }

  /**
   The attempt's ticket was accepted by an earlier event of the run, less than
   a window ago, under a ring that shares a key with the present one.
   */
  ghost predicate AcceptedBefore(states: seq<Ledger>, events: seq<Event>, j: nat)
    requires |states| == |events| + 1 && j < |events| && events[j].Attempt?
  {
    exists i :: 0 <= i < j && AcceptedAt(states, events, i, j)
  }

  ghost predicate AcceptedAt(states: seq<Ledger>, events: seq<Event>, i: nat, j: nat)
    requires |states| == |events| + 1 && i < j < |events| && events[j].Attempt?
  {
    && events[i].Attempt? && events[i].outcome.Accepted? && events[i].ticket == events[j].ticket
    && events[j].at < events[i].at + WINDOW_MS
    && (states[i].ring.current in {states[j].ring.current, states[j].ring.previous} ||
        states[i].ring.previous in {states[j].ring.current, states[j].ring.previous})
  }

  /** Rows that have left the window at a moment, and rows still inside it. */
  ghost function Overdue(s: Ledger, at: int): set<nat> {
    set id | id in s.rows && s.rows[id].acceptedAt + WINDOW_MS <= at
  }

  ghost function Current(s: Ledger, at: int): set<nat> {
    set id | id in s.rows && at < s.rows[id].acceptedAt + WINDOW_MS
  }

  /** What a prune removes, without the order it removes it in. */
  lemma PruneRemoves(rows: Table, pruned: Table, cutoff: int)
    requires Pruned(rows, pruned, cutoff)
    ensures pruned.Keys <= rows.Keys && forall id :: id in pruned ==> pruned[id] == rows[id]
    ensures rows.Keys - pruned.Keys <= Expired(rows, cutoff) && |rows.Keys - pruned.Keys| <= PRUNE_BATCH
    ensures |rows.Keys - pruned.Keys| < PRUNE_BATCH ==> rows.Keys - pruned.Keys == Expired(rows, cutoff)
  {
    hide Expired;
  }

  lemma NothingOverdue(pruned: Table, cutoff: int)
    requires !Backlog(pruned, cutoff)
    ensures forall id :: id in pruned ==> pruned[id].acceptedAt > cutoff
  {
  }

  lemma WindowSplits(s: Ledger, at: int)
    ensures Overdue(s, at) == Expired(s.rows, at - WINDOW_MS)
    ensures Current(s, at) == s.rows.Keys - Expired(s.rows, at - WINDOW_MS)
  {
  }

  lemma CardinalityStrict(small: set<nat>, large: set<nat>)
    requires small < large
    ensures |small| < |large|
  {
    assert large == small + (large - small);
  }

  /** One prune clears every overdue row exactly when one batch holds them all. */
  lemma PruneClears(s: Ledger, pruned: Table, at: int)
    requires Pruned(s.rows, pruned, at - WINDOW_MS)
    ensures Backlog(pruned, at - WINDOW_MS) <==> |Overdue(s, at)| > PRUNE_BATCH
    ensures !Backlog(pruned, at - WINDOW_MS) ==> pruned.Keys == Current(s, at)
  {
    hide Pruned, Overdue, Current;
    PruneRemoves(s.rows, pruned, at - WINDOW_MS);
    WindowSplits(s, at);
    var due, batch := Expired(s.rows, at - WINDOW_MS), s.rows.Keys - pruned.Keys;
    if Backlog(pruned, at - WINDOW_MS) {
      var id :| id in pruned && pruned[id].acceptedAt <= at - WINDOW_MS;
      assert id in due && id !in batch;
      CardinalityStrict(batch, due);
    } else {
      NothingOverdue(pruned, at - WINDOW_MS);
      assert due == batch;
    }
  }

  /** The collision query answers what the run remembers of the ticket. */
  lemma CollisionIsMemory(
    states: seq<Ledger>, events: seq<Event>, ceiling: nat, gap: nat, j: nat, pruned: Table)
    requires Run(states, events, ceiling, gap) && states[0].rows == map[]
    requires j < |events| && events[j].Attempt?
    requires Pruned(states[j].rows, pruned, events[j].at - WINDOW_MS)
    requires !Backlog(pruned, events[j].at - WINDOW_MS)
    ensures Collides(pruned, ReplayTags(states[j].ring, events[j].ticket)) <==> AcceptedBefore(states, events, j)
  {
    hide Pruned, Backlog, Step, ValidLedger;
    var at, pair := events[j].at, ReplayTags(states[j].ring, events[j].ticket);
    PruneRemoves(states[j].rows, pruned, at - WINDOW_MS);
    NothingOverdue(pruned, at - WINDOW_MS);
    if Collides(pruned, pair) {
      var id :| id in pruned && Carries(pruned[id], pair);
      RowsComeFromAcceptances(states, events, ceiling, gap, j, id);
      var i :| 0 <= i < j && WroteRow(states, events, i, id, states[j].rows[id]);
      WriterHasTime(states, events, ceiling, gap, i);
      assert AcceptedAt(states, events, i, j);
    }
    if AcceptedBefore(states, events, j) {
      var i :| 0 <= i < j && AcceptedAt(states, events, i, j);
      forall k | i < k < j
        ensures events[k].at < events[i].at + WINDOW_MS
      {
        ClockOrder(states, events, ceiling, gap, k, j);
      }
      AcceptanceStays(states, events, ceiling, gap, i, j);
      var id := events[i].outcome.admissionId;
      PrunedRetains(states[j].rows, pruned, at - WINDOW_MS, id);
      assert Carries(pruned[id], pair);
    }
  }

  lemma WriterHasTime(states: seq<Ledger>, events: seq<Event>, ceiling: nat, gap: nat, i: nat)
    requires Run(states, events, ceiling, gap) && i < |events|
    requires events[i].Attempt? && events[i].outcome.Accepted?
    ensures events[i].at >= 0
  {
    assert Step(states[i], events[i], states[i + 1], ceiling, gap);
  }

  /**
   In every run from an empty ledger, what an attempt is answered. With a valid
   clock, no more overdue rows than one prune removes, room below the ceiling
   and a row id left, it is refused as a replay exactly when the run has
   accepted the same ticket inside the window under a key the ring still
   holds, and it is accepted otherwise; nothing else is ever answered.
   */
  lemma AnsweredByMemory(states: seq<Ledger>, events: seq<Event>, ceiling: nat, gap: nat, j: nat)
    requires Run(states, events, ceiling, gap) && states[0].rows == map[] && ceiling <= MAX_ADMISSIONS
    requires j < |events| && events[j].Attempt?
    ensures var s, at, outcome := states[j], events[j].at, events[j].outcome;
            if !(0 <= at <= MAX_ACCEPTED_AT) then outcome == InvalidArgument
            else if |Overdue(s, at)| > PRUNE_BATCH then outcome == MaintenanceBacklog
            else if |Current(s, at)| >= ceiling then outcome == StorageCapacity
            else if MAX_SAFE_INTEGER in Current(s, at) then outcome == CorruptSchema
            else if AcceptedBefore(states, events, j) then outcome == Replay
            else outcome.Accepted?
  {
    hide Pruned, Collides, Backlog, AcceptedBefore, Overdue, Current;
    var s, at, outcome := states[j], events[j].at, events[j].outcome;
    var pair := ReplayTags(s.ring, events[j].ticket);
    assert Step(s, events[j], states[j + 1], ceiling, gap);
    RunKeepsLedgerValid(states, events, ceiling, gap, j);
    if 0 <= at <= MAX_ACCEPTED_AT {
      var pruned :|
        && Pruned(s.rows, pruned, at - WINDOW_MS)
        && if outcome == CorruptSchema then
             IdsExhausted(pruned) && !Backlog(pruned, at - WINDOW_MS) && |pruned| < ceiling &&
             states[j + 1].rows == s.rows
           else
             Decided(pruned, states[j + 1].rows, at, pair, outcome, ceiling) &&
             (outcome == Replay ==> !IdsExhausted(pruned));
      PruneClears(s, pruned, at);
      assert |pruned| == |pruned.Keys|;
      if !Backlog(pruned, at - WINDOW_MS) {
        CollisionIsMemory(states, events, ceiling, gap, j, pruned);
      }
    }
  }

  /** A replay is only ever answered for a ticket the same run has accepted before. */
  lemma ReplayOnlyOfAccepted(states: seq<Ledger>, events: seq<Event>, ceiling: nat, gap: nat, j: nat)
    requires Run(states, events, ceiling, gap) && states[0].rows == map[] && ceiling <= MAX_ADMISSIONS
    requires j < |events| && events[j].Attempt? && events[j].outcome == Replay
    ensures exists i :: 0 <= i < j && events[i].Attempt? && events[i].ticket == events[j].ticket
                        && events[i].outcome.Accepted?
  {
    AnsweredByMemory(states, events, ceiling, gap, j);
    var i :| 0 <= i < j && AcceptedAt(states, events, i, j);
    assert events[i].Attempt?;
  }
}
