/**
 The alarm chain: which moment is scheduled next, and why a room that receives
 nothing new schedules only finitely many alarms.
 */
module RoomAlarm {
  import opened Options
  import opened Attachments
  import opened RoomAccounts
  import opened RoomState
  import opened RendezvousRooms
  import Replay = ReplayLedger

  /** When an ended session's transport is closed again, counted from its deadline. */
  const OFFSETS: seq<int> := [0, 1000, 3000, 7000]

  // ---- what an alarm can be scheduled for ----------------------------------------------

  /** The next moment an open session asks for. */
  function SessionDeadline(c: ClientSocket): Option<int> {
    if c.open && c.stored.Some? then Deadline(c.stored.value) else None
  }

  predicate AsksFor(servers: Servers, clients: Clients, admissions: Option<int>, at: int) {
    || (exists id :: id in clients && SessionDeadline(clients[id]) == Some(at))
    || (exists id, t ::
        id in servers && Holds(servers[id]) && t in servers[id].stored.value.tickets && t.expiresAt == at)
    || admissions == Some(at)
  }

  /** What an open session asks for, in its own fields: its deadline, then three spaced closes and a last one. */
  lemma DeadlineMeans(c: ClientSocket, at: int)
    requires c.stored.Some? ==> c.stored.value.terminalCloseAttempts >= 0
    ensures SessionDeadline(c) == Some(at) <==>
              && c.open && c.stored.Some?
              && var a := c.stored.value;
                 if a.stage != Terminal then at == a.expiresAt
                 else a.terminalCloseAttempts < 4 && at == a.expiresAt + OFFSETS[a.terminalCloseAttempts]
  {
  }

  function Later(now: int, at: int): int {
    if at > now then at else now + 1
  }

  /** The alarm is the earliest request, never sooner than the next millisecond. */
  ghost predicate IsNextAlarm(
    servers: Servers, clients: Clients, admissions: Option<int>, now: int, next: Option<int>)
  {
    && (next.None? <==> forall at :: !AsksFor(servers, clients, admissions, at))
    && (next.Some? ==>
          && (exists at :: AsksFor(servers, clients, admissions, at) && next.value == Later(now, at))
          && forall at :: AsksFor(servers, clients, admissions, at) ==> next.value <= Later(now, at))
  }

  function Earlier(current: Option<int>, candidate: int): int {
    if current.None? || candidate < current.value then candidate else current.value
  }

  /** Walks sessions, then the tickets of the controls that hold the room, then the ledger. */
  method ScheduleNextAlarm(room: RendezvousRoom, now: int, admissions: Option<int>) returns (next: Option<int>)
    ensures IsNextAlarm(room.servers, room.clients, admissions, now, next)
  {
    next := EarliestSession(room, now);
    var todo := room.servers.Keys;
    while todo != {}
      invariant todo <= room.servers.Keys
      invariant forall at :: SessionAsks(room.clients, at) ==> next.Some? && next.value <= Later(now, at)
      invariant forall id :: id in room.servers && id !in todo ==> NoneSooner(room.servers[id], now, next)
      invariant next.Some? ==> FromRoom(room.servers, room.clients, now, next.value)
      decreases |todo|
    {
      var id: SocketId :| id in todo;
      todo := todo - {id};
      if Holds(room.servers[id]) {
        next := EarliestTicket(room, id, now, next);
      }
    }
    if admissions.Some? {
      next := Some(Earlier(next, Later(now, admissions.value)));
    }
    AsksSplit(room.servers, room.clients, admissions);
    forall at | TicketAsks(room.servers, at)
      ensures next.Some? && next.value <= Later(now, at)
    {
      var id, t :| id in room.servers && Holds(room.servers[id]) && t in room.servers[id].stored.value.tickets &&
                   t.expiresAt == at;
      assert NoneSooner(room.servers[id], now, next);
    }
  }

  /** The scheduled moment is no later than any ticket of the control asks for. */
  predicate NoneSooner(s: ServerSocket, now: int, next: Option<int>) {
    Holds(s) ==> forall t :: t in s.stored.value.tickets ==> next.Some? && next.value <= Later(now, t.expiresAt)
  }

  ghost predicate FromRoom(servers: Servers, clients: Clients, now: int, next: int) {
    exists at :: (SessionAsks(clients, at) || TicketAsks(servers, at)) && next == Later(now, at)
  }

  method EarliestTicket(room: RendezvousRoom, id: SocketId, now: int, current: Option<int>) returns (next: Option<int>)
    requires id in room.servers && Holds(room.servers[id])
    requires current.Some? ==> FromRoom(room.servers, room.clients, now, current.value)
    ensures NoneSooner(room.servers[id], now, next)
    ensures current.Some? ==> next.Some? && next.value <= current.value
    ensures next.Some? ==> FromRoom(room.servers, room.clients, now, next.value)
  {
    next := current;
    var tickets := room.servers[id].stored.value.tickets;
    var k := 0;
    while k < |tickets|
      invariant 0 <= k <= |tickets|
      invariant current.Some? ==> next.Some? && next.value <= current.value
      invariant forall j :: 0 <= j < k ==> next.Some? && next.value <= Later(now, tickets[j].expiresAt)
      invariant next.Some? ==> FromRoom(room.servers, room.clients, now, next.value)
    {
      assert tickets[k] in room.servers[id].stored.value.tickets;
      assert TicketAsks(room.servers, tickets[k].expiresAt);
      next := Some(Earlier(next, Later(now, tickets[k].expiresAt)));
      k := k + 1;
    }
  }

  predicate SessionAsks(clients: Clients, at: int) {
    exists id :: id in clients && SessionDeadline(clients[id]) == Some(at)
  }

  predicate TicketAsks(servers: Servers, at: int) {
    exists id, t :: id in servers && Holds(servers[id]) && t in servers[id].stored.value.tickets && t.expiresAt == at
  }

  lemma AsksSplit(servers: Servers, clients: Clients, admissions: Option<int>)
    ensures forall at :: AsksFor(servers, clients, admissions, at) <==>
              SessionAsks(clients, at) || TicketAsks(servers, at) || admissions == Some(at)
  {
  }

  method EarliestSession(room: RendezvousRoom, now: int) returns (next: Option<int>)
    ensures forall at :: SessionAsks(room.clients, at) ==> next.Some? && next.value <= Later(now, at)
    ensures next.Some? ==> exists at :: SessionAsks(room.clients, at) && next.value == Later(now, at)
  {
    next := None;
    var todo := room.clients.Keys;
    while todo != {}
      invariant todo <= room.clients.Keys
      invariant forall id, at :: id in room.clients && id !in todo && SessionDeadline(room.clients[id]) == Some(at) ==>
                  next.Some? && next.value <= Later(now, at)
      invariant next.Some? ==> exists at :: SessionAsks(room.clients, at) && next.value == Later(now, at)
      decreases |todo|
    {
      var id: SocketId :| id in todo;
      todo := todo - {id};
      var deadline := SessionDeadline(room.clients[id]);
      if deadline.Some? {
        assert SessionAsks(room.clients, deadline.value);
        next := Some(Earlier(next, Later(now, deadline.value)));
      }
    }
  }

  // ---- the measure -----------------------------------------------------------------------

  ghost function Sum(m: map<SocketId, nat>): nat {
    if m == map[] then 0
    else
      var id :| id in m;
      m[id] + Sum(m - {id})
  }

  lemma {:induction false} SumRemove(m: map<SocketId, nat>, k: SocketId)
    requires k in m
    ensures Sum(m) == m[k] + Sum(m - {k})
    decreases |m|
  {
    var id :| id in m && Sum(m) == m[id] + Sum(m - {id});
    if id != k {
      SumRemove(m - {id}, k);
      SumRemove(m - {k}, id);
      assert m - {id} - {k} == m - {k} - {id};
    }
  }

  lemma {:induction false} SumOrder(a: map<SocketId, nat>, b: map<SocketId, nat>)
    requires a.Keys == b.Keys && forall id :: id in a ==> a[id] <= b[id]
    ensures Sum(a) <= Sum(b)
    ensures (exists id :: id in a && a[id] < b[id]) ==> Sum(a) < Sum(b)
    decreases |a|
  {
    if a != map[] {
      var k: SocketId;
      if exists id :: id in a && a[id] < b[id] {
        k :| k in a && a[k] < b[k];
      } else {
        k :| k in a;
      }
      SumRemove(a, k);
      SumRemove(b, k);
      SumOrder(a - {k}, b - {k});
    } else {
      assert b == map[];
    }
  }

  /** Alarms a session can still cause: one deadline and at most four close attempts. */
  function SessionWork(c: ClientSocket): nat {
    if !c.open || c.stored.None? then 0
    else if c.stored.value.stage != Terminal then 5
    else if 0 <= c.stored.value.terminalCloseAttempts < MAX_CLOSE_ATTEMPTS then 4 - c.stored.value.terminalCloseAttempts
    else 0
  }

  function TicketWork(s: ServerSocket): nat {
    if Holds(s) then |s.stored.value.tickets| else 0
  }

  ghost function SessionsWork(clients: Clients): nat {
    Sum(map id | id in clients :: SessionWork(clients[id]))
  }

  ghost function TicketsWork(servers: Servers): nat {
    Sum(map id | id in servers :: TicketWork(servers[id]))
  }

  ghost function RoomWork(servers: Servers, clients: Clients, rows: Replay.Table): nat {
    SessionsWork(clients) + TicketsWork(servers) + |rows|
  }

  // ---- every alarm makes progress -------------------------------------------------------------

  predicate TicketDue(servers: Servers, now: int) {
    exists id, t ::
      id in servers && Holds(servers[id]) && t in servers[id].stored.value.tickets && t.expiresAt <= now
  }

  /** Something is due: the alarm was scheduled for a request that has been reached. */
  predicate SomethingDue(servers: Servers, clients: Clients, rows: Replay.Table, now: int) {
    || (exists id :: id in clients && DueBy(SessionDeadline(clients[id]), now))
    || TicketDue(servers, now)
    || (exists id :: id in rows && rows[id].acceptedAt + Replay.WINDOW_MS <= now)
  }

  /** An alarm delivered at or after the moment it was scheduled for finds something due. */
  lemma DeliveryIsDue(
    servers: Servers, clients: Clients, rows: Replay.Table, admissions: Option<int>, scheduled: int, next: int,
    now: int)
    requires IsNextAlarm(servers, clients, admissions, scheduled, Some(next)) && next <= now
    requires admissions.Some? ==> exists id :: id in rows && rows[id].acceptedAt + Replay.WINDOW_MS == admissions.value
    ensures SomethingDue(servers, clients, rows, now)
  {
    var at :| AsksFor(servers, clients, admissions, at) && next == Later(scheduled, at);
    if at <= scheduled {
      assert at <= now;
    }
  }

  lemma DueIsAskedFor(servers: Servers, clients: Clients, rows: Replay.Table, admissions: Option<int>, later: int)
    requires SomethingDue(servers, clients, rows, later) && (admissions.None? ==> rows == map[])
    ensures exists at :: AsksFor(servers, clients, admissions, at)
  {
    if id :| id in clients && DueBy(SessionDeadline(clients[id]), later) {
      assert AsksFor(servers, clients, admissions, SessionDeadline(clients[id]).value);
    } else if TicketDue(servers, later) {
      var id, t :| id in servers && Holds(servers[id]) && t in servers[id].stored.value.tickets && t.expiresAt <= later;
      assert AsksFor(servers, clients, admissions, t.expiresAt);
    } else {
      assert AsksFor(servers, clients, admissions, admissions.value);
    }
  }

  /** The room has nothing left to wait for: no open session still runs or has a close left, no holder has a ticket. */
  predicate AtRest(servers: Servers, clients: Clients, rows: Replay.Table) {
    && (forall id :: id in clients && clients[id].open && clients[id].stored.Some? ==>
          clients[id].stored.value.stage == Terminal && clients[id].stored.value.terminalCloseAttempts >= 4)
    && (forall id :: id in servers && servers[id].open && servers[id].stored.Some? ==>
          servers[id].stored.value.current ==> servers[id].stored.value.tickets == [])
    && rows == map[]
  }

  lemma NeverDueIsAtRest(servers: Servers, clients: Clients, rows: Replay.Table)
    requires forall later :: !SomethingDue(servers, clients, rows, later)
    ensures AtRest(servers, clients, rows)
  {
    hide SomethingDue;
    forall id | id in clients && clients[id].open && clients[id].stored.Some?
      ensures clients[id].stored.value.stage == Terminal && clients[id].stored.value.terminalCloseAttempts >= 4
    {
      SessionNeverDue(servers, clients, rows, id);
    }
    forall id | id in servers && Holds(servers[id])
      ensures servers[id].stored.value.tickets == []
    {
      TicketsNeverDue(servers, clients, rows, id);
    }
    RowsNeverDue(servers, clients, rows);
  }

  lemma SessionNeverDue(servers: Servers, clients: Clients, rows: Replay.Table, id: SocketId)
    requires id in clients
    requires forall later :: !SomethingDue(servers, clients, rows, later)
    ensures SessionDeadline(clients[id]).None?
  {
    var deadline := SessionDeadline(clients[id]);
    if deadline.Some? {
      assert SomethingDue(servers, clients, rows, deadline.value);
    }
  }

  lemma TicketsNeverDue(servers: Servers, clients: Clients, rows: Replay.Table, id: SocketId)
    requires id in servers && Holds(servers[id])
    requires forall later :: !SomethingDue(servers, clients, rows, later)
    ensures servers[id].stored.value.tickets == []
  {
    var tickets := servers[id].stored.value.tickets;
    if tickets != [] {
      assert tickets[0] in tickets;
      assert TicketDue(servers, tickets[0].expiresAt);
      assert SomethingDue(servers, clients, rows, tickets[0].expiresAt);
    }
  }

  lemma RowsNeverDue(servers: Servers, clients: Clients, rows: Replay.Table)
    requires forall later :: !SomethingDue(servers, clients, rows, later)
    ensures rows == map[]
  {
    if rows != map[] {
      var id :| id in rows;
      assert SomethingDue(servers, clients, rows, rows[id].acceptedAt + Replay.WINDOW_MS);
    }
  }

  /** When no alarm is scheduled nothing will ever be due. */
  lemma NothingAskedNothingDue(
    servers: Servers, clients: Clients, rows: Replay.Table, admissions: Option<int>, now: int)
    requires IsNextAlarm(servers, clients, admissions, now, None) && (admissions.None? ==> rows == map[])
    ensures forall later :: !SomethingDue(servers, clients, rows, later)
  {
    hide AsksFor, SomethingDue;
    if later :| SomethingDue(servers, clients, rows, later) {
      DueIsAskedFor(servers, clients, rows, admissions, later);
    }
  }

  /** What one alarm leaves while attachment writes succeed and every attachment can be read. */
  ghost predicate Passed(
    servers: Servers, after: Servers, clients: Clients, settled: Clients, rows: Replay.Table, kept: Replay.Table,
    now: int)
  {
    && after.Keys == servers.Keys && settled.Keys == clients.Keys
    && (forall id :: id in servers ==> servers[id].stored.Some?)
    && (forall id :: id in clients ==> clients[id].stored.Some? && ValidClient(clients[id].stored.value))
    && (forall id :: id in after ==> PrunedAt(servers[id], after[id], now))
    && (forall id :: id in settled ==> Expired(clients[id], settled[id], now))
    && Replay.Pruned(rows, kept, now - Replay.WINDOW_MS)
  }

  lemma SessionProgress(before: ClientSocket, after: ClientSocket, now: int)
    requires before.stored.Some? && ValidClient(before.stored.value) && Expired(before, after, now)
    ensures SessionWork(after) <= SessionWork(before)
    ensures DueBy(SessionDeadline(before), now) ==> SessionWork(after) < SessionWork(before)
  {
  }

  lemma TicketProgress(before: ServerSocket, after: ServerSocket, now: int)
    requires before.stored.Some? && PrunedAt(before, after, now)
    ensures TicketWork(after) <= TicketWork(before)
    ensures Holds(before) && (exists t :: t in before.stored.value.tickets && t.expiresAt <= now) ==>
              TicketWork(after) < TicketWork(before)
  {
  }

  lemma RowProgress(rows: Replay.Table, kept: Replay.Table, now: int)
    requires Replay.Pruned(rows, kept, now - Replay.WINDOW_MS)
    ensures |kept| <= |rows|
    ensures (exists id :: id in rows && rows[id].acceptedAt + Replay.WINDOW_MS <= now) ==> |kept| < |rows|
  {
    var batch := rows.Keys - kept.Keys;
    assert rows.Keys == kept.Keys + batch;
    assert |rows| == |rows.Keys| && |kept| == |kept.Keys| && |rows.Keys| == |kept.Keys| + |batch|;
    if id :| id in rows && rows[id].acceptedAt + Replay.WINDOW_MS <= now {
      assert id in Replay.Expired(rows, now - Replay.WINDOW_MS);
      if batch == {} {
        assert |batch| < Replay.PRUNE_BATCH;
      }
    }
  }

  lemma SessionsProgress(clients: Clients, settled: Clients, now: int)
    requires settled.Keys == clients.Keys
    requires forall id :: id in clients ==> clients[id].stored.Some? && ValidClient(clients[id].stored.value)
    requires forall id :: id in settled ==> Expired(clients[id], settled[id], now)
    ensures SessionsWork(settled) <= SessionsWork(clients)
    ensures (exists id :: id in clients && DueBy(SessionDeadline(clients[id]), now)) ==>
              SessionsWork(settled) < SessionsWork(clients)
  {
    hide ValidClient, Expired;
    var a := map id | id in settled :: SessionWork(settled[id]);
    var b := map id | id in clients :: SessionWork(clients[id]);
    forall id | id in settled
      ensures a[id] <= b[id]
      ensures DueBy(SessionDeadline(clients[id]), now) ==> a[id] < b[id]
    {
      SessionProgress(clients[id], settled[id], now);
    }
    SumOrder(a, b);
  }

  lemma TicketsProgress(servers: Servers, after: Servers, now: int)
    requires after.Keys == servers.Keys && forall id :: id in servers ==> servers[id].stored.Some?
    requires forall id :: id in after ==> PrunedAt(servers[id], after[id], now)
    ensures TicketsWork(after) <= TicketsWork(servers)
    ensures (exists id, t :: id in servers && Holds(servers[id]) && t in servers[id].stored.value.tickets &&
               t.expiresAt <= now) ==> TicketsWork(after) < TicketsWork(servers)
  {
    hide PrunedAt;
    var a := map id | id in after :: TicketWork(after[id]);
    var b := map id | id in servers :: TicketWork(servers[id]);
    forall id | id in after
      ensures a[id] <= b[id]
      ensures Holds(servers[id]) && (exists t :: t in servers[id].stored.value.tickets && t.expiresAt <= now) ==>
                a[id] < b[id]
    {
      TicketProgress(servers[id], after[id], now);
    }
    SumOrder(a, b);
  }

  /** An alarm that finds something due strictly reduces the work left, whatever closes fail. */
  lemma AlarmProgress(
    servers: Servers, after: Servers, clients: Clients, settled: Clients, rows: Replay.Table, kept: Replay.Table,
    now: int)
    requires Passed(servers, after, clients, settled, rows, kept, now) && SomethingDue(servers, clients, rows, now)
    ensures RoomWork(after, settled, kept) < RoomWork(servers, clients, rows)
  {
    hide PrunedAt, Expired, ValidClient, SessionsWork, TicketsWork, Replay.Pruned;
    SessionsProgress(clients, settled, now);
    TicketsProgress(servers, after, now);
    RowProgress(rows, kept, now);
  }

  datatype Moment = Moment(servers: Servers, clients: Clients, rows: Replay.Table)

  /** Consecutive alarms with nothing new in between, each delivered when something is due. */
  ghost predicate AlarmChain(moments: seq<Moment>, times: seq<int>) {
    && |moments| == |times| + 1
    && forall k :: 0 <= k < |times| ==>
         && Passed(moments[k].servers, moments[k + 1].servers, moments[k].clients, moments[k + 1].clients,
                   moments[k].rows, moments[k + 1].rows, times[k])
         && SomethingDue(moments[k].servers, moments[k].clients, moments[k].rows, times[k])
  }

  /** The chain of alarms ends: it is never longer than the work the room started with. */
  lemma {:induction false} AlarmChainEnds(moments: seq<Moment>, times: seq<int>)
    requires AlarmChain(moments, times)
    ensures |times| <= RoomWork(moments[0].servers, moments[0].clients, moments[0].rows)
    decreases |times|
  {
    hide Passed, SomethingDue, RoomWork;
    if |times| > 0 {
      var first, second := moments[0], moments[1];
      AlarmProgress(first.servers, second.servers, first.clients, second.clients, first.rows, second.rows, times[0]);
      RestOfChain(moments, times);
      AlarmChainEnds(moments[1..], times[1..]);
    }
  }

  lemma RestOfChain(moments: seq<Moment>, times: seq<int>)
    requires AlarmChain(moments, times) && |times| > 0
    ensures AlarmChain(moments[1..], times[1..])
  {
    hide Passed, SomethingDue;
    forall k | 0 <= k < |times| - 1
      ensures times[1..][k] == times[k + 1] && moments[1..][k] == moments[k + 1]
    {
    }
  }

  /**
   One alarm of a room and its ledger, and the alarm it schedules next. A failed one
   is left to the platform, before the ledger is pruned when only a recovery was
   due. An instance that never initialised keeps to its sockets and its ledger.
   */
  method DeliverAlarm(room: RendezvousRoom, store: Replay.AdmissionStore, now: int) returns (next: Option<int>)
    requires room.Core() && store.Valid()
    requires room.recoveryRequired || room.initializationFailed ==> room.pendingServerOutcomes == map[]
    requires 0 <= now <= Replay.MAX_ACCEPTED_AT
    modifies room, store
    ensures room.Core() && store.Valid() && room.initializationFailed == old(room.initializationFailed)
    ensures room.faulty == old(room.faulty)
    ensures old(Undisturbed(room)) ==>
              Passed(old(room.servers), room.servers, old(room.clients), room.clients, old(store.rows), store.rows, now)
    ensures old(CanSettle(room)) ==>
              && Undisturbed(room)
              && (next.None? ==> forall later :: !SomethingDue(room.servers, room.clients, store.rows, later))
    ensures next.Some? ==> forall later :: later >= next.value ==>
        SomethingDue(room.servers, room.clients, store.rows, later)
  {
    hide RendezvousRoom.Core, RendezvousRoom.LedgerHolds, RendezvousRoom.NoneOwed, Settled, Expired, PrunedAt,
      ValidClient, Replay.Pruned, SomethingDue, AsksFor, NoHolder, Gone, IsNextAlarm;
    ghost var servers, clients := room.servers, room.clients;
    CoreReadsValid(room);
    var ok := room.Alarm(now);
    if room.recoveryRequired {
      return None;
    }
    if room.initializationFailed {
      if !ok || !room.ledgerOpened {
        return None;
      }
      var _, _ := store.Prune(now);
      next := NextOfLedger(room, store);
      return;
    }
    var _, _ := store.Prune(now);
    if !ok {
      return None;
    }
    var expiry := store.EarliestRetainedExpiry();
    var admissions := if expiry.Some? then Some(expiry.value as int) else None;
    next := ScheduleNextAlarm(room, now, admissions);
    if next.None? {
      NothingAskedNothingDue(room.servers, room.clients, store.rows, admissions, now);
    } else {
      forall later | later >= next.value
        ensures SomethingDue(room.servers, room.clients, store.rows, later)
      {
        DeliveryIsDue(room.servers, room.clients, store.rows, admissions, now, next.value, later);
      }
    }
  }

  /** The ledger's own next alarm. */
  method NextOfLedger(room: RendezvousRoom, store: Replay.AdmissionStore) returns (next: Option<int>)
    requires store.Valid()
    ensures next.Some? ==> forall later :: later >= next.value ==>
        SomethingDue(room.servers, room.clients, store.rows, later)
  {
    hide Replay.Pruned, TicketDue;
    var expiry := store.EarliestRetainedExpiry();
    next := if expiry.Some? then Some(expiry.value as int) else None;
  }

  /**
   The alarm chain itself, from any room whose instance initialised, whatever it
   still owes or has to recover: each alarm is delivered no earlier than it was
   scheduled for, and while writes succeed, attachments can be read and nothing new
   arrives, the chain runs until no alarm is scheduled. From a room that owes
   nothing it never rings more often than the work it found.
   */
  method RingUntilQuiet(room: RendezvousRoom, store: Replay.AdmissionStore, first: int, delays: seq<nat>)
    returns (rings: nat, now: int, next: Option<int>)
    requires room.Core() && store.Valid() && CanSettle(room)
    requires room.recoveryRequired ==> room.pendingServerOutcomes == map[]
    requires 0 <= first <= Replay.MAX_ACCEPTED_AT
    modifies room, store
    ensures room.Core() && store.Valid() && Undisturbed(room)
    ensures old(Undisturbed(room) && SomethingDue(room.servers, room.clients, store.rows, first)) ==>
              rings <= old(RoomWork(room.servers, room.clients, store.rows))
    ensures next.Some? ==> now > Replay.MAX_ACCEPTED_AT
    ensures next.None? ==> forall later :: !SomethingDue(room.servers, room.clients, store.rows, later)
    ensures next.None? ==> AtRest(room.servers, room.clients, store.rows)
  {
    hide RendezvousRoom.Core, RendezvousRoom.NoneOwed, Passed, SomethingDue, RoomWork, AtRest;
    ghost var servers, clients, rows := room.servers, room.clients, store.rows;
    now := first;
    next := DeliverAlarm(room, store, now);
    if old(Undisturbed(room)) && SomethingDue(servers, clients, rows, now) {
      AlarmProgress(servers, room.servers, clients, room.clients, rows, store.rows, now);
    }
    rings := 1;
    now := NextDelivery(now, next, delays, 0);
    ghost var work := RoomWork(room.servers, room.clients, store.rows);
    while next.Some? && now <= Replay.MAX_ACCEPTED_AT
      invariant room.Core() && store.Valid() && 0 <= now && Undisturbed(room) && rings >= 1
      invariant next.Some? ==> SomethingDue(room.servers, room.clients, store.rows, now)
      invariant rings - 1 + RoomWork(room.servers, room.clients, store.rows) <= work
      invariant next.None? ==> forall later :: !SomethingDue(room.servers, room.clients, store.rows, later)
      decreases RoomWork(room.servers, room.clients, store.rows)
    {
      servers, clients, rows := room.servers, room.clients, store.rows;
      next := DeliverAlarm(room, store, now);
      AlarmProgress(servers, room.servers, clients, room.clients, rows, store.rows, now);
      now := NextDelivery(now, next, delays, rings);
      rings := rings + 1;
    }
    if next.None? {
      NeverDueIsAtRest(room.servers, room.clients, store.rows);
    }
  }

  /** The platform delivers an alarm no earlier than it was scheduled for. */
  function NextDelivery(now: int, next: Option<int>, delays: seq<nat>, n: nat): (delivered: int)
    ensures next.Some? ==> delivered >= next.value
    ensures now >= 0 ==> delivered >= 0
  {
    if next.None? then now
    else
      var at := next.value + (if n < |delays| then delays[n] else 0);
      if at < now then now else at
  }

  lemma CoreReadsValid(room: RendezvousRoom)
    requires room.Core()
    ensures forall id :: id in room.clients && room.clients[id].stored.Some? ==>
              ValidClient(room.clients[id].stored.value)
  {
  }

  /** Writes succeed and every attachment can be read, on an instance that initialised. */
  ghost predicate CanSettle(room: RendezvousRoom)
    reads room
  {
    !room.faulty && !room.initializationFailed && EveryControlReadable(room.servers) && AllReadable(room.clients)
  }

  /** And nothing is owed or to be recovered. */
  ghost predicate Undisturbed(room: RendezvousRoom)
    reads room
  {
    CanSettle(room) && !room.recoveryRequired && room.pendingServerOutcomes == map[] && room.NoneOwed()
  }
}
