/**
 What an authenticated route request is answered and what it does to the route
 rows, told by the rows alone: each operation's table of answers, and over
 whole runs the handle that links a reservation to its activation.
 */
module AccessDecisions {
  import opened Options
  import opened Decimals
  import opened AccessState
  import opened AccessRuns

  // ---- the rows, counted -------------------------------------------------------------

  function OwnedBySame(routes: map<string, Route>, owner: Owner): set<string> {
    set i | i in routes && routes[i].owner == owner
  }

  function Standing(routes: map<string, Route>): set<string> {
    set i | i in routes && (routes[i].state == Reserved || routes[i].state == Active)
  }

  function StandingOf(routes: map<string, Route>, owner: Owner): set<string> {
    set i | i in routes && routes[i].owner == owner && (routes[i].state == Reserved || routes[i].state == Active)
  }

  function ReceiptsOf(receipts: map<ReceiptKey, Receipt>, owner: Owner): set<ReceiptKey> {
    set k | k in receipts && k.owner == owner
  }

  /** Receipts, the revocation receipts owed to standing routes, and so many more, stay within both ceilings. */
  predicate RoomFor(t: Tables, owner: Owner, growth: nat) {
    && |t.receipts| + |Standing(t.routes)| + growth <= 65536
    && |ReceiptsOf(t.receipts, owner)| + |StandingOf(t.routes, owner)| + growth <= 4096
  }

  predicate NoRouteRow(t: Tables, owner: Owner) {
    |t.routes| >= 65536 || |OwnedBySame(t.routes, owner)| >= 4096
  }

  /** Another route of this owner holds the token, or another owner or token holds the index. */
  predicate Taken(t: Tables, p: Payload) {
    || (exists i :: i in t.routes && i != p.index && t.routes[i].owner == p.owner && t.routes[i].token == p.token)
    || (p.index in t.routes && (t.routes[p.index].owner != p.owner || t.routes[p.index].token != p.token))
  }

  lemma RoomIsFits(t: Tables, owner: Owner, growth: nat)
    ensures RoomFor(t, owner, growth) <==> Fits(t, owner, growth)
  {
    assert ReceiptsIn(t.receipts, Everywhere) == t.receipts.Keys && |t.receipts.Keys| == |t.receipts|;
    assert LiveRoutes(t.routes, Everywhere) == Standing(t.routes);
    assert ReceiptsIn(t.receipts, OwnedBy(owner)) == ReceiptsOf(t.receipts, owner);
    assert LiveRoutes(t.routes, OwnedBy(owner)) == StandingOf(t.routes, owner);
  }

  lemma FullIsFull(t: Tables, owner: Owner)
    ensures NoRouteRow(t, owner) <==> RouteTableFull(t, owner)
    ensures |StandingOf(t.routes, owner)| >= 1024 <==>
              |LiveRoutes(t.routes, OwnedBy(owner))| >= MAX_LIVE_PER_OWNER
  {
    assert RoutesIn(t.routes, OwnedBy(owner)) == OwnedBySame(t.routes, owner);
    assert LiveRoutes(t.routes, OwnedBy(owner)) == StandingOf(t.routes, owner);
  }

  // ---- one answer --------------------------------------------------------------------

  /** The request won its fence and no stored receipt answers it. */
  predicate FirstAnswer(t: Tables, m: Mutation, reply: Reply) {
    reply.Answer? && KeyOf(m.payload) !in t.receipts && m.payload.operation != Lookup
  }

  /**
   The outcome is answered, its receipt stored and its row written, if there is
   room for so many more receipts; otherwise the answer is "unavailable" and
   nothing is written.
   */
  ghost predicate Answers(
    a: Tables, b: Tables, m: Mutation, reply: Reply, growth: nat, outcome: Outcome, row: Option<Route>)
  {
    var p := m.payload;
    if RoomFor(a, p.owner, growth) then
      && reply.Answer? && reply.outcome == outcome
      && KeyOf(p) in b.receipts && b.receipts.Keys == a.receipts.Keys + {KeyOf(p)}
      && b.routes == (if row.Some? then a.routes[p.index := row.value] else a.routes)
    else
      && reply == Answer(Unavailable, None, None, p.revision)
      && b.routes == a.routes && b.receipts == a.receipts && b.grants == a.grants
  }

  /** The decision depends on neither the nonces nor the replay rows. */
  lemma DecisionFrame(a: Tables, t: Tables, m: Mutation)
    requires t == a.(nonces := t.nonces, replay := t.replay)
    ensures Decide(t, m) == Decide(a, m) && ReceiptGrowth(t, m) == ReceiptGrowth(a, m)
    ensures ReceiptFor(t, m) == ReceiptFor(a, m) && Written(t, m) == Written(a, m)
    ensures RouteEffect(t, m) == RouteEffect(a, m) && GrantEffect(t, m) == GrantEffect(a, m)
  {
  }

  /** A first answer is the decision over the rows, or the lack of room. */
  lemma AnswerIsDecision(a: Tables, b: Tables, m: Mutation, reply: Reply)
    requires Mutated(a, b, m, reply) && FirstAnswer(a, m, reply)
    ensures Answers(a, b, m, reply, ReceiptGrowth(a, m), Decide(a, m), Written(a, m))
    ensures RoomFor(a, m.payload.owner, ReceiptGrowth(a, m)) ==>
              && b.grants == GrantEffect(a, m) && b.receipts[KeyOf(m.payload)] == ReceiptFor(a, m)
              && reply == ReplyFrom(ReceiptFor(a, m), m.payload)
  {
    hide Decide, ReceiptGrowth, ReceiptFor, Written, NonceCleanup, Admits, RoomFor, Fits, GrantEffect, ReplyFrom;
    var nonces :| NonceCleanup(a.nonces, nonces, m.now) && Committed(a.(nonces := nonces), b, m, reply);
    var signed := Signed(a.(nonces := nonces), m);
    DecisionFrame(a, signed, m);
    RoomFrame(a, signed, m.payload.owner, ReceiptGrowth(a, m));
    RoomIsFits(signed, m.payload.owner, ReceiptGrowth(a, m));
    OutcomeOfReceipt(a, m);
  }

  lemma RoomFrame(a: Tables, t: Tables, owner: Owner, growth: nat)
    requires t == a.(nonces := t.nonces, replay := t.replay)
    ensures RoomFor(t, owner, growth) <==> RoomFor(a, owner, growth)
  {
  }

  lemma OutcomeOfReceipt(t: Tables, m: Mutation)
    ensures ReceiptFor(t, m).request == m.payload && ReceiptFor(t, m).outcome == Decide(t, m)
    ensures m.payload.operation != Lookup ==>
              var r := ReceiptFor(t, m);
              ReplyFrom(r, m.payload) == Answer(Decide(t, m), r.reservationId, r.reservationExpiresAt, r.revision)
  {
    hide Decide;
  }

  /**
   A reservation. A taken token or index conflicts, an ended route answers how it
   ended, a known one conflicts, a request that has lapsed expires, and without a
   server seen within the freshness, or with a full table, it is unavailable;
   otherwise the route is reserved for a minute under the drawn handle.
   */
  lemma ReserveAnswered(a: Tables, b: Tables, m: Mutation, reply: Reply)
    requires Mutated(a, b, m, reply) && FirstAnswer(a, m, reply) && m.payload.operation == Reserve
    ensures var p := m.payload;
            var known := p.index in a.routes;
            var current := p.owner in a.presence && m.now - m.freshness < a.presence[p.owner].lastSeen;
            if Taken(a, p) then Answers(a, b, m, reply, 1, Conflict, None)
            else if known && a.routes[p.index].state == Revoked then Answers(a, b, m, reply, 1, Revocation, None)
            else if known && a.routes[p.index].state == Expired then Answers(a, b, m, reply, 1, Expiry, None)
            else if known then Answers(a, b, m, reply, 1, Conflict, None)
            else if p.expiresAt.Some? && p.expiresAt.value <= m.now then Answers(a, b, m, reply, 1, Expiry, None)
            else if !current || NoRouteRow(a, p.owner) || |StandingOf(a.routes, p.owner)| >= 1024 then
              Answers(a, b, m, reply, 1, Unavailable, None)
            else
              && Answers(a, b, m, reply, 2, Reservation,
                         Some(Route(p.owner, p.token, p.revision, Reserved, p.expiresAt, Some(m.handle), m.now + 60,
                                    m.now, None)))
              && (RoomFor(a, p.owner, 2) ==>
                   reply == Answer(Reservation, Some(m.handle), Some(m.now + 60), p.revision))
  {
    hide Answers, RoomFor, NonceCleanup, NoRouteRow, RouteTableFull, StandingOf, LiveRoutes, Mutated;
    AnswerIsDecision(a, b, m, reply);
    FullIsFull(a, m.payload.owner);
  }

  /**
   An activation. It takes effect only with the stored handle, revision and
   expiry, before the reservation's minute and the route's expiry have passed,
   and only on a route that is still reserved; a lapsed one ends the route.
   */
  lemma ActivateAnswered(a: Tables, b: Tables, m: Mutation, reply: Reply)
    requires Mutated(a, b, m, reply) && FirstAnswer(a, m, reply) && m.payload.operation == Activate
    requires RoutesWellFormed(a.routes)
    ensures var p := m.payload;
            if Taken(a, p) then Answers(a, b, m, reply, 1, Conflict, None)
            else if p.index !in a.routes then Answers(a, b, m, reply, 1, NotFound, None)
            else
              var r := a.routes[p.index];
              if r.state == Revoked then Answers(a, b, m, reply, 1, Revocation, None)
              else if r.state == Expired then Answers(a, b, m, reply, 1, Expiry, None)
              else if p.reservationId != r.reservationId || p.revision != r.revision || p.expiresAt != r.expiresAt then
                Answers(a, b, m, reply, 1, Conflict, None)
              else if m.now >= r.reservedUntil || (r.expiresAt.Some? && m.now >= r.expiresAt.value) then
                Answers(a, b, m, reply, 1, Expiry, Some(r.(state := Expired, revokedAt := Some(m.now))))
              else if r.state == Active then Answers(a, b, m, reply, 1, Conflict, None)
              else Answers(a, b, m, reply, 1, Activation, Some(r.(state := Active)))
  {
    hide Answers, RoomFor, NonceCleanup, Mutated;
    AnswerIsDecision(a, b, m, reply);
  }

  /**
   A revocation. An unknown route leaves a revoked row behind, so that it can
   never be reserved, if the table has room for one; a known one is revoked in
   place under the later revision, needs no receipt room while it stands, and
   loses its grants.
   */
  lemma RevokeAnswered(a: Tables, b: Tables, m: Mutation, reply: Reply)
    requires Mutated(a, b, m, reply) && FirstAnswer(a, m, reply) && m.payload.operation == Revoke
    ensures var p := m.payload;
            if Taken(a, p) then Answers(a, b, m, reply, 1, Conflict, None)
            else if p.index !in a.routes && NoRouteRow(a, p.owner) then
              Answers(a, b, m, reply, 1, Unavailable, None)
            else if p.index !in a.routes then
              && Answers(a, b, m, reply, 1, Revocation,
                         Some(Route(p.owner, p.token, p.revision, Revoked, p.expiresAt, p.reservationId, m.now + 60,
                                    m.now, Some(m.now))))
            else
              var r := a.routes[p.index];
              var growth := if r.state == Reserved || r.state == Active then 0 else 1;
              var revision := if Value(p.revision) > Value(r.revision) then p.revision else r.revision;
              && Answers(a, b, m, reply, growth, Revocation,
                         Some(r.(state := Revoked, revision := revision,
                                 revokedAt := if r.revokedAt.Some? then r.revokedAt else Some(m.now))))
              && (RoomFor(a, p.owner, growth) ==>
                   && reply.revision == revision
                   && forall g :: g in b.grants <==> g in a.grants && a.grants[g].index != p.index)
  {
    hide Answers, RoomFor, NonceCleanup, NoRouteRow, RouteTableFull, Mutated, Value, After;
    AnswerIsDecision(a, b, m, reply);
    FullIsFull(a, m.payload.owner);
    if m.payload.index in a.routes {
      LaterIsLarger(m.payload.revision, a.routes[m.payload.index].revision);
    }
  }

  lemma LaterIsLarger(a: Sequence, b: Sequence)
    ensures Later(a, b) == (if Value(a) > Value(b) then a else b)
    ensures Later(b, a) == (if Value(a) > Value(b) then a else b)
  {
    hide Value, After;
    AfterIsNumericOrder(a, b);
    AfterIsNumericOrder(b, a);
  }

  /**
   A request id with a stored receipt is answered from it, for the same request,
   or for a lookup the same up to its operation; anything else conflicts. A
   lookup without one finds nothing. None of these touches a row.
   */
  lemma StoredAnswered(a: Tables, b: Tables, m: Mutation, reply: Reply)
    requires Mutated(a, b, m, reply) && reply.Answer? && !FirstAnswer(a, m, reply)
    ensures b.routes == a.routes && b.receipts == a.receipts && b.grants == a.grants
    ensures var p := m.payload;
            if KeyOf(p) !in a.receipts then reply == Answer(NotFound, None, None, p.revision)
            else
              var r := a.receipts[KeyOf(p)];
              if r.request == p || (p.operation == Lookup && r.request == p.(operation := r.request.operation)) then
                reply == Answer(r.outcome, r.reservationId, r.reservationExpiresAt, r.revision)
              else reply == Answer(Conflict, None, None, p.revision)
  {
    hide Decide, ReceiptGrowth, ReceiptFor, NonceCleanup, Admits, Fits, RouteEffect, GrantEffect;
  }

  /** The nonces a request may still add to: a live route's own first revocation needs none. */
  function Budget(t: Tables, p: Payload): nat {
    if p.operation == Reserve then 2
    else if p.operation == Revoke && p.index in Standing(t.routes) && !Taken(t, p) && KeyOf(p) !in t.receipts
            && RoomFor(t, p.owner, 0)
    then 0 else 1
  }

  lemma BudgetIsGrowth(t: Tables, p: Payload)
    requires UniqueTokens(t.routes)
    ensures Budget(t, p) == NonceGrowth(t, p)
  {
    hide RoomFor, Fits;
    RoomIsFits(t, p.owner, 0);
  }

  /**
   The fence: once a batch of expired nonces is gone, a request is answered
   exactly when its owner is known, its sequence is a larger number, its nonce is
   unseen and the shared nonce ceiling holds its budget; otherwise nothing else
   is written at all.
   */
  lemma FenceExactly(a: Tables, b: Tables, m: Mutation, reply: Reply)
    requires Mutated(a, b, m, reply) && UniqueTokens(a.routes)
    ensures exists kept ::
      && NonceCleanup(a.nonces, kept, m.now)
      && var p := m.payload;
      && (reply.Answer? <==>
            && p.owner in a.replay && Value(m.sequence) > Value(a.replay[p.owner].lastSequence)
            && NonceKey(p.owner, m.nonce) !in kept
            && (Budget(a, p) == 0 || |kept| + |Standing(a.routes)| + Budget(a, p) <= 131072))
      && (reply.Rejected? ==> b == a.(nonces := kept))
      && (reply.Answer? ==>
            && b.replay == a.replay[p.owner := Replay(m.sequence, m.nonce, m.commit)]
            && b.nonces == kept[NonceKey(p.owner, m.nonce) := m.nonceExpiresAt])
  {
    hide Value, After, NonceCleanup, NonceGrowth, Budget, Applied, Standing, LiveRoutes, UniqueTokens;
    var kept :| NonceCleanup(a.nonces, kept, m.now) && Committed(a.(nonces := kept), b, m, reply);
    var clean := a.(nonces := kept);
    BudgetFrame(a, clean, m.payload);
    assert LiveRoutes(a.routes, Everywhere) == Standing(a.routes) by {
      StandingIsLive(a.routes);
    }
    if m.payload.owner in a.replay {
      AfterIsNumericOrder(m.sequence, a.replay[m.payload.owner].lastSequence);
    }
    AppliedKeepsFence(Signed(clean, m), m);
  }

  lemma StandingIsLive(routes: map<string, Route>)
    ensures LiveRoutes(routes, Everywhere) == Standing(routes)
  {
  }

  lemma BudgetFrame(a: Tables, clean: Tables, p: Payload)
    requires UniqueTokens(a.routes) && clean == a.(nonces := clean.nonces)
    ensures Budget(a, p) == NonceGrowth(clean, p)
  {
    hide RoomFor, Fits, UniqueTokens;
    BudgetIsGrowth(a, p);
    HeldIgnoresNonces(a, clean);
    RoomIsFits(a, p.owner, 0);
    RoomIsFits(clean, p.owner, 0);
    RoomFrame(a, clean, p.owner, 0);
  }

  lemma AppliedKeepsFence(t: Tables, m: Mutation)
    ensures Applied(t, m).0.replay == t.replay && Applied(t, m).0.nonces == t.nonces && Applied(t, m).1.Answer?
  {
    hide Decide, ReceiptGrowth, ReceiptFor, Fits, RouteEffect, GrantEffect;
  }

  // ---- from a reservation to its activation ---------------------------------------------

  /** The event reserves the route: it answers from no earlier receipt. */
  ghost predicate Reserves(w: World, e: Event, index: string) {
    && e.Mutate? && e.m.payload.operation == Reserve && e.m.payload.index == index
    && KeyOf(e.m.payload) !in w.tables.receipts && e.reply.Answer? && e.reply.outcome == Reservation
  }

  /** The row a reservation leaves, under the handle it was answered. */
  ghost predicate ReservedAs(r: Route, m: Mutation, reply: Reply) {
    && reply.Answer? && reply.reservationId.Some? && reply.reservationExpiresAt == Some(m.now + 60)
    && r == Route(m.payload.owner, m.payload.token, m.payload.revision, Reserved, m.payload.expiresAt,
                  reply.reservationId, m.now + 60, m.now, None)
  }

  lemma ReservationRow(a: World, e: Event, b: World, index: string)
    requires Step(a, e, b) && Reserves(a, e, index)
    ensures index in b.tables.routes && ReservedAs(b.tables.routes[index], e.m, e.reply)
  {
    hide Mutated, RoomFor, NoRouteRow, StandingOf;
    ReserveAnswered(a.tables, b.tables, e.m, e.reply);
  }

  /** What can end a reservation early: its own activation or revocation, a late cleanup, or its server's retirement. */
  predicate Disturbs(e: Event, index: string, server: string, deadline: int) {
    match e
    case Mutate(m, _) => m.payload.index == index && (m.payload.operation == Revoke || m.payload.operation == Activate)
    case Cleanup(now) => now >= deadline
    case Retire(gone, _) => gone == server
    case _ => false
  }

  lemma UndisturbedMutation(a: Tables, b: Tables, m: Mutation, reply: Reply, index: string)
    requires Mutated(a, b, m, reply) && index in a.routes && a.routes[index].state == Reserved
    requires m.payload.index != index || m.payload.operation == Reserve || m.payload.operation == Lookup
    ensures index in b.routes && b.routes[index] == a.routes[index]
  {
    hide Mutated, RoomFor, NoRouteRow, StandingOf;
    if FirstAnswer(a, m, reply) {
      AnswerIsDecision(a, b, m, reply);
      if m.payload.index == index {
        ReserveAnswered(a, b, m, reply);
      }
    } else if reply.Answer? {
      StoredAnswered(a, b, m, reply);
    } else {
      RejectedWritesNothing(a, b, m, reply);
    }
  }

  lemma RejectedWritesNothing(a: Tables, b: Tables, m: Mutation, reply: Reply)
    requires Mutated(a, b, m, reply) && reply.Rejected?
    ensures b.routes == a.routes && b.receipts == a.receipts && b.grants == a.grants
  {
    hide NonceCleanup, Applied, Admits;
    var kept :| NonceCleanup(a.nonces, kept, m.now) && Committed(a.(nonces := kept), b, m, reply);
    AppliedKeepsFence(Signed(a.(nonces := kept), m), m);
  }

  lemma UndisturbedCleanup(
    a: Tables, b: Tables, now: int, grants: set<string>, due: set<string>, receipts: set<ReceiptKey>,
    retired: set<string>, index: string)
    requires Cleaned(a, b, now, grants, due, receipts, retired)
    requires index in a.routes && a.routes[index].state == Reserved && now < a.routes[index].reservedUntil
    ensures index in b.routes && b.routes[index] == a.routes[index]
  {
  }

  lemma Undisturbed(a: World, e: Event, b: World, index: string)
    requires Step(a, e, b) && index in a.tables.routes && a.tables.routes[index].state == Reserved
    requires !Disturbs(e, index, a.tables.routes[index].owner.server, a.tables.routes[index].reservedUntil)
    ensures index in b.tables.routes && b.tables.routes[index] == a.tables.routes[index]
  {
    hide Mutated, Cleaned, NonceCleanup, NonceCapacity, RedeemMatches, Issuable;
    match e
    case Mutate(m, reply) =>
      UndisturbedMutation(a.tables, b.tables, m, reply, index);
    case Cleanup(now) =>
      var grants, due, receipts, retired :| Cleaned(a.tables, b.tables, now, grants, due, receipts, retired);
      UndisturbedCleanup(a.tables, b.tables, now, grants, due, receipts, retired, index);
    case _ =>
  }

  /** An undisturbed reservation stands, as it was answered, in every later state. */
  lemma {:induction false} ReservationStands(worlds: seq<World>, events: seq<Event>, i: nat, j: nat, index: string)
    requires Run(worlds, events) && i < j < |worlds| && Reserves(worlds[i], events[i], index)
    requires forall k :: i < k < j ==>
        !Disturbs(events[k], index, events[i].m.payload.owner.server, events[i].m.now + 60)
    ensures index in worlds[j].tables.routes && ReservedAs(worlds[j].tables.routes[index], events[i].m, events[i].reply)
    decreases j
  {
    hide Step, ValidWorld, Reserves, Disturbs;
    if j == i + 1 {
      ReservationRow(worlds[i], events[i], worlds[j], index);
    } else {
      ReservationStands(worlds, events, i, j - 1, index);
      Undisturbed(worlds[j - 1], events[j - 1], worlds[j], index);
    }
  }

  /** The event asks to activate what the earlier one reserved, in time. */
  predicate InTime(reserve: Mutation, activate: Mutation) {
    && activate.payload.operation == Activate && activate.payload.owner == reserve.payload.owner
    && activate.payload.token == reserve.payload.token && activate.payload.index == reserve.payload.index
    && activate.now < reserve.now + 60
    && (reserve.payload.expiresAt.Some? ==> activate.now < reserve.payload.expiresAt.value)
  }

  /**
   The handle links the two halves of a route. In every run, an activation that
   follows an undisturbed reservation in time, wins its fence under a request id
   not yet answered and finds receipt room is answered as active and activates
   the row when it brings the answered handle, the reserved revision and the
   reserved expiry; with any of them different it conflicts and changes no route.
   */
  lemma ReservationActivates(worlds: seq<World>, events: seq<Event>, i: nat, j: nat, index: string)
    requires Run(worlds, events) && i < j < |events| && Reserves(worlds[i], events[i], index)
    requires forall k :: i < k < j ==>
        !Disturbs(events[k], index, events[i].m.payload.owner.server, events[i].m.now + 60)
    requires events[j].Mutate? && InTime(events[i].m, events[j].m) && events[j].reply.Answer?
    requires KeyOf(events[j].m.payload) !in worlds[j].tables.receipts
    requires RoomFor(worlds[j].tables, events[j].m.payload.owner, 1)
    ensures var reserve, activate := events[i].m.payload, events[j].m.payload;
            var before, after := worlds[j].tables.routes, worlds[j + 1].tables.routes;
            if activate.reservationId == events[i].reply.reservationId && activate.revision == reserve.revision
               && activate.expiresAt == reserve.expiresAt
            then
              && events[j].reply.outcome == Activation && index in before
              && after == before[index := before[index].(state := Active)]
            else events[j].reply.outcome == Conflict && after == before
  {
    hide ValidWorld, Mutated, RoomFor, NoRouteRow, StandingOf, Disturbs, Reserves, Cleaned, Issued, Redeemed, Published;
    ReservationStands(worlds, events, i, j, index);
    RunKeepsValid(worlds, events, j);
    assert Step(worlds[j], events[j], worlds[j + 1]);
    assert events[i].m.payload.index == index by {
      ReservesIndex(worlds[i], events[i], index);
    }
    NotTaken(worlds[j], events[j].m.payload);
    ActivateAnswered(worlds[j].tables, worlds[j + 1].tables, events[j].m, events[j].reply);
  }

  lemma ReservesIndex(w: World, e: Event, index: string)
    requires Reserves(w, e, index)
    ensures e.Mutate? && e.m.payload.index == index
  {
  }

  predicate OwnRow(routes: map<string, Route>, p: Payload) {
    p.index in routes && routes[p.index].owner == p.owner && routes[p.index].token == p.token
  }

  lemma NotTaken(w: World, p: Payload)
    requires ValidWorld(w)
    ensures RoutesWellFormed(w.tables.routes)
    ensures OwnRow(w.tables.routes, p) ==> !Taken(w.tables, p)
  {
    hide WithinCapacity, WithinRouteCeilings, GrantsOwned;
  }

  // ---- and back: every active route was activated under the handle of its reservation ------

  /** The event activates the reserved row it finds, under its own handle, revision and expiry, in time. */
  ghost predicate Activates(w: World, e: Event, index: string, r: Route) {
    && e.Mutate? && e.m.payload.operation == Activate && e.m.payload.index == index
    && e.reply.Answer? && e.reply.outcome == Activation
    && r.state == Reserved && r.owner == e.m.payload.owner && r.token == e.m.payload.token
    && r.reservationId == e.m.payload.reservationId && r.revision == e.m.payload.revision
    && r.expiresAt == e.m.payload.expiresAt
    && e.m.now < r.reservedUntil && (r.expiresAt.Some? ==> e.m.now < r.expiresAt.value)
  }

  lemma NewReservation(a: Tables, b: Tables, m: Mutation, reply: Reply, index: string)
    requires Mutated(a, b, m, reply) && RoutesWellFormed(a.routes)
    requires index in b.routes && b.routes[index].state == Reserved
    ensures (index in a.routes && a.routes[index] == b.routes[index]) ||
            (&& m.payload.operation == Reserve && m.payload.index == index && FirstAnswer(a, m, reply)
             && reply.outcome == Reservation && ReservedAs(b.routes[index], m, reply))
  {
    hide Mutated, RoomFor, NoRouteRow, StandingOf, Value, RoutesWellFormed;
    OnlyAnswersWrite(a, b, m, reply);
    if FirstAnswer(a, m, reply) {
      match m.payload.operation
      case Reserve => ReserveAnswered(a, b, m, reply);
      case Activate => ActivateAnswered(a, b, m, reply);
      case Revoke => RevokeAnswered(a, b, m, reply);
      case Lookup =>
    }
  }

  lemma OnlyAnswersWrite(a: Tables, b: Tables, m: Mutation, reply: Reply)
    requires Mutated(a, b, m, reply)
    ensures !FirstAnswer(a, m, reply) ==> b.routes == a.routes
  {
    hide Mutated;
    if reply.Rejected? {
      RejectedWritesNothing(a, b, m, reply);
    } else if !FirstAnswer(a, m, reply) {
      StoredAnswered(a, b, m, reply);
    }
  }

  lemma NewActivation(a: World, e: Event, b: World, index: string)
    requires e.Mutate? && Mutated(a.tables, b.tables, e.m, e.reply) && RoutesWellFormed(a.tables.routes)
    requires index in b.tables.routes && b.tables.routes[index].state == Active
    ensures index in a.tables.routes
    ensures a.tables.routes[index] == b.tables.routes[index] ||
            (&& b.tables.routes[index] == a.tables.routes[index].(state := Active)
             && Activates(a, e, index, a.tables.routes[index]))
  {
    hide Mutated, RoomFor, NoRouteRow, StandingOf, Value, RoutesWellFormed;
    OnlyAnswersWrite(a.tables, b.tables, e.m, e.reply);
    if FirstAnswer(a.tables, e.m, e.reply) {
      match e.m.payload.operation
      case Reserve => ReserveAnswered(a.tables, b.tables, e.m, e.reply);
      case Activate => ActivateAnswered(a.tables, b.tables, e.m, e.reply);
      case Revoke => RevokeAnswered(a.tables, b.tables, e.m, e.reply);
      case Lookup =>
    }
  }

  /** No other event makes a row reserved or active, or alters one that stays so. */
  lemma OthersKeepStanding(a: World, e: Event, b: World, index: string)
    requires Step(a, e, b) && !e.Mutate?
    requires index in b.tables.routes && Live(b.tables.routes[index])
    ensures index in a.tables.routes && a.tables.routes[index] == b.tables.routes[index]
  {
    hide NonceCleanup, NonceCapacity, RedeemMatches, Issuable, Batch;
  }

  /** Every reserved row of a run from no routes is as a reservation of the run was answered. */
  lemma {:induction false} ReservedByAnswer(worlds: seq<World>, events: seq<Event>, j: nat, index: string)
    returns (i: nat)
    requires Run(worlds, events) && worlds[0].tables.routes == map[] && j < |worlds|
    requires index in worlds[j].tables.routes && worlds[j].tables.routes[index].state == Reserved
    ensures i < j && Reserves(worlds[i], events[i], index)
    ensures ReservedAs(worlds[j].tables.routes[index], events[i].m, events[i].reply)
    decreases j
  {
    hide Step, ValidWorld, Mutated, ReservedAs, RoutesWellFormed;
    RunKeepsValid(worlds, events, j - 1);
    var a, e, b := worlds[j - 1], events[j - 1], worlds[j];
    WellFormedRoutes(a);
    if e.Mutate? {
      MutateStep(a, e, b);
      NewReservation(a.tables, b.tables, e.m, e.reply, index);
    } else {
      OthersKeepStanding(a, e, b, index);
    }
    if index in a.tables.routes && a.tables.routes[index] == b.tables.routes[index] {
      i := ReservedByAnswer(worlds, events, j - 1, index);
    } else {
      i := j - 1;
    }
  }

  lemma WellFormedRoutes(w: World)
    requires ValidWorld(w)
    ensures RoutesWellFormed(w.tables.routes)
  {
    hide WithinCapacity, WithinRouteCeilings, GrantsOwned;
  }

  lemma MutateStep(a: World, e: Event, b: World)
    requires Step(a, e, b) && e.Mutate?
    ensures Mutated(a.tables, b.tables, e.m, e.reply)
  {
    hide Mutated;
  }

  /**
   Only the answered handle activates. In every run from no routes, an active
   row was first reserved by an answered reservation and then activated, before
   its minute and its expiry had passed, by a request that brought the very
   handle, revision and expiry of that answer.
   */
  lemma {:induction false} ActiveByAnsweredHandle(worlds: seq<World>, events: seq<Event>, j: nat, index: string)
    returns (i: nat, k: nat)
    requires Run(worlds, events) && worlds[0].tables.routes == map[] && j < |worlds|
    requires index in worlds[j].tables.routes && worlds[j].tables.routes[index].state == Active
    ensures i < k < j && Reserves(worlds[i], events[i], index)
    ensures var r := worlds[j].tables.routes[index];
            && Activates(worlds[k], events[k], index, r.(state := Reserved))
            && ReservedAs(r.(state := Reserved), events[i].m, events[i].reply)
    decreases j
  {
    hide Step, ValidWorld, Mutated, ReservedAs, RoutesWellFormed, Reserves;
    RunKeepsValid(worlds, events, j - 1);
    var a, e, b := worlds[j - 1], events[j - 1], worlds[j];
    WellFormedRoutes(a);
    if e.Mutate? {
      MutateStep(a, e, b);
      NewActivation(a, e, b, index);
    } else {
      OthersKeepStanding(a, e, b, index);
    }
    var r := b.tables.routes[index];
    if a.tables.routes[index] == r {
      i, k := ActiveByAnsweredHandle(worlds, events, j - 1, index);
    } else {
      i := ReservedByAnswer(worlds, events, j - 1, index);
      k := j - 1;
      assert a.tables.routes[index] == r.(state := Reserved);
    }
  }

  /**
   A revoked route is never reserved or activated again: while its row is
   retained, every later reservation or activation of it answers "revoked" or
   lacks receipt room, and changes no route. An unknown route that was revoked
   leaves such a row behind.
   */
  lemma RevokedStaysRevoked(worlds: seq<World>, events: seq<Event>, i: nat, j: nat, index: string)
    requires Run(worlds, events) && i <= j < |events|
    requires forall k :: i <= k <= j ==> index in worlds[k].tables.routes
    requires worlds[i].tables.routes[index].state == Revoked
    requires events[j].Mutate? && FirstAnswer(worlds[j].tables, events[j].m, events[j].reply)
    requires events[j].m.payload.operation == Reserve || events[j].m.payload.operation == Activate
    requires events[j].m.payload.index == index && OwnRow(worlds[j].tables.routes, events[j].m.payload)
    ensures worlds[j + 1].tables.routes == worlds[j].tables.routes
    ensures events[j].reply.outcome ==
              if RoomFor(worlds[j].tables, events[j].m.payload.owner, 1) then Revocation else Unavailable
  {
    hide Step, ValidWorld, Mutated, RoomFor, NoRouteRow, StandingOf;
    RunAdvances(worlds, events, i, j, index);
    RunKeepsValid(worlds, events, j);
    NotTaken(worlds[j], events[j].m.payload);
    MutateStep(worlds[j], events[j], worlds[j + 1]);
    if events[j].m.payload.operation == Reserve {
      ReserveAnswered(worlds[j].tables, worlds[j + 1].tables, events[j].m, events[j].reply);
    } else {
      ActivateAnswered(worlds[j].tables, worlds[j + 1].tables, events[j].m, events[j].reply);
    }
  }

  // ---- grants ---------------------------------------------------------------------------

  predicate Lapsed(deadline: Option<int>, now: int) {
    deadline.Some? && now >= deadline.value
  }

  /** The route is active and unexpired, and its protected server was seen within the freshness and is not denied. */
  predicate InForce(t: Tables, r: Route, now: int, freshness: int) {
    && r.state == Active && !Lapsed(r.expiresAt, now)
    && r.owner in t.presence && t.presence[r.owner].accessRequired
    && now - freshness < t.presence[r.owner].lastSeen && r.owner.server !in t.denials
  }

  predicate Aliased(g: string, grant: Grant, tags: Tags) {
    g == tags.current || g == tags.previous || grant.tagPrevious == tags.current || grant.tagPrevious == tags.previous
  }

  /** A lapsed active route is ended in passing; no other row changes. */
  function Ended(routes: map<string, Route>, i: string, now: int): map<string, Route> {
    if i in routes && routes[i].state == Active && Lapsed(routes[i].expiresAt, now) then
      routes[i := routes[i].(state := Expired, revokedAt := Some(now))]
    else routes
  }

  /**
   Issuing: once a batch of expired grants is gone, a grant is stored for fifteen
   seconds exactly when the route is in force at the expected generation of a
   complete server, both ceilings have room and neither alias is taken.
   */
  lemma IssuedMeans(a: Tables, b: Tables, q: IssueRequest, dropped: set<string>, issued: bool)
    requires Issued(a, b, q, dropped, issued)
    ensures forall g :: g in dropped ==> g in a.grants && a.grants[g].expiresAt <= q.now
    ensures b.routes == Ended(a.routes, q.index, q.now)
    ensures var kept := a.grants - dropped;
            && (issued <==>
                  && q.index in a.routes
                  && var r := a.routes[q.index];
                  && InForce(a, r, q.now, q.freshness)
                  && a.presence[r.owner].generation == q.generation && a.presence[r.owner].complete
                  && |kept| < 32768 && |set g | g in kept && kept[g].owner == r.owner| < 32
                  && forall g :: g in kept ==> !Aliased(g, kept[g], q.tags))
            && b.grants ==
                 if issued then
                   kept[q.tags.current := Grant(q.tags.previous, q.index, a.routes[q.index].owner,
                     a.routes[q.index].revision, q.generation, q.clientNonce, q.now + 15, None)]
                 else kept
  {
    hide Issuable, Aliased, InForce, ExpireActive, Ended, ExpiredGrants;
    var t1 := DropGrants(a, dropped);
    var t := ExpireActive(t1, {q.index}, q.now);
    EndedIs(t1, q.index, q.now);
    IssuableMeans(a, t, q);
    DroppedExpired(a, q.now, dropped);
  }

  lemma DroppedExpired(a: Tables, now: int, dropped: set<string>)
    requires Batch(dropped, ExpiredGrants(a, now))
    ensures forall g :: g in dropped ==> g in a.grants && a.grants[g].expiresAt <= now
  {
  }

  lemma EndedIs(t: Tables, i: string, now: int)
    ensures ExpireActive(t, {i}, now) == t.(routes := Ended(t.routes, i, now))
  {
    assert DueActive(t, {i}, now) ==
           if i in t.routes && t.routes[i].state == Active && Lapsed(t.routes[i].expiresAt, now) then {i} else {};
  }

  /** The issuing condition after the lapsed route was ended is the one before, over the same grants. */
  lemma IssuableMeans(a: Tables, t: Tables, q: IssueRequest)
    requires t == a.(routes := Ended(a.routes, q.index, q.now), grants := t.grants)
    ensures Issuable(t, q) <==>
              && q.index in a.routes
              && var r := a.routes[q.index];
              && InForce(a, r, q.now, q.freshness)
              && a.presence[r.owner].generation == q.generation && a.presence[r.owner].complete
              && |t.grants| < 32768 && |set g | g in t.grants && t.grants[g].owner == r.owner| < 32
              && forall g :: g in t.grants ==> !Aliased(g, t.grants[g], q.tags)
    ensures Issuable(t, q) ==> t.routes == a.routes
  {
    if q.index in a.routes {
      assert GrantsOf(t, a.routes[q.index].owner) ==
             set g | g in t.grants && t.grants[g].owner == a.routes[q.index].owner;
    }
    assert (forall g :: g in t.grants ==> !Matches(t, g, q.tags)) <==>
           (forall g :: g in t.grants ==> !Aliased(g, t.grants[g], q.tags));
  }

  /** The grant answers this redemption: same server, generation and nonce, in time, unused, its route in force. */
  predicate Answered(t: Tables, g: string, q: RedeemRequest) {
    && g in t.grants
    && var grant := t.grants[g];
    && grant.owner == q.owner && grant.generation == q.generation && grant.clientNonce == q.clientNonce
    && q.now < grant.expiresAt && grant.redemption == None && Aliased(g, grant, q.tags)
    && grant.index in t.routes
    && var r := t.routes[grant.index];
    && InForce(t, r, q.now, q.freshness) && r.revision == grant.revision
    && t.presence[r.owner].generation == grant.generation
  }

  lemma AnsweredIsRedeemable(t: Tables, q: RedeemRequest, g: string)
    ensures g in RedeemMatches(RedeemPrelude(t, q), q) <==> Answered(t, g, q)
  {
    var t1 := ExpireActive(t, MatchedRoutes(t, q), q.now);
    if g in t.grants && t.grants[g].index in t.routes {
      var i := t.grants[g].index;
      assert i in t1.routes && (t1.routes[i] == t.routes[i] || Lapsed(t.routes[i].expiresAt, q.now));
    }
  }

  /** Redeeming: a grant is redeemed exactly when it is the only one that answers, and then only it is marked. */
  lemma RedeemedMeans(a: Tables, b: Tables, q: RedeemRequest, redeemed: Option<string>, g: string)
    requires Redeemed(a, b, q, redeemed)
    ensures redeemed == Some(g) <==> Answered(a, g, q) && forall h :: Answered(a, h, q) ==> h == g
    ensures redeemed == Some(g) ==>
              && g in b.grants && b.grants[g] == a.grants[g].(redemption := Some(q.redemption))
              && forall h :: h in b.grants && h != g ==> h in a.grants && b.grants[h] == a.grants[h]
    ensures redeemed == None ==> forall h :: h in b.grants ==> h in a.grants && b.grants[h] == a.grants[h]
  {
    hide Redeemable, Answered, Matches, MatchedRoutes;
    var t := RedeemPrelude(a, q);
    var matches := RedeemMatches(t, q);
    forall h
      ensures h in matches <==> Answered(a, h, q)
    {
      AnsweredIsRedeemable(a, q, h);
    }
    assert Answered(a, g, q) ==> g in matches;
    if Answered(a, g, q) && (forall h :: Answered(a, h, q) ==> h == g) {
      assert matches == {g};
    }
  }

  /** The dispatch recheck, in the rows' own fields. */
  lemma LiveMeans(t: Tables, redemption: string, generation: string, now: int, freshness: int)
    ensures RedemptionLive(t, redemption, generation, now, freshness) <==>
              exists g ::
                && g in t.grants
                && var grant := t.grants[g];
                && grant.redemption == Some(redemption) && grant.generation == generation && now < grant.expiresAt
                && grant.index in t.routes && InForce(t, t.routes[grant.index], now, freshness)
                && t.routes[grant.index].revision == grant.revision
                && t.presence[t.routes[grant.index].owner].generation == generation
  {
  }

  // ---- retention ------------------------------------------------------------------------

  predicate PastDue(r: Route, now: int) {
    (r.state == Reserved && now >= r.reservedUntil) || (r.state == Active && Lapsed(r.expiresAt, now))
  }

  /**
   Cleaning: grants and receipts leave only once expired, a route is ended only
   past its deadline, and an ended one leaves only ninety days later without a
   receipt of its token.
   */
  lemma CleanedMeans(
    a: Tables, b: Tables, now: int, grants: set<string>, due: set<string>, receipts: set<ReceiptKey>,
    retired: set<string>)
    requires Cleaned(a, b, now, grants, due, receipts, retired)
    ensures forall i :: i in a.routes && i !in b.routes ==>
              && (a.routes[i].state == Revoked || a.routes[i].state == Expired)
              && a.routes[i].revokedAt.Some? && now >= a.routes[i].revokedAt.value + 90 * 86400
              && forall k :: k in b.receipts && k.owner == a.routes[i].owner ==>
                   b.receipts[k].request.token != a.routes[i].token
    ensures forall i :: i in b.routes ==>
              && i in a.routes
              && (b.routes[i] == a.routes[i] ||
                  (PastDue(a.routes[i], now) && b.routes[i] == a.routes[i].(state := Expired, revokedAt := Some(now))))
    ensures forall k :: k in a.receipts && k !in b.receipts ==> a.receipts[k].expiresAt <= now
    ensures forall k :: k in b.receipts ==> k in a.receipts && b.receipts[k] == a.receipts[k]
    ensures forall g :: g in a.grants && g !in b.grants ==>
              a.grants[g].expiresAt <= now || (a.grants[g].index in retired && a.grants[g].index !in b.routes)
    ensures forall g :: g in b.grants ==> g in a.grants && b.grants[g] == a.grants[g]
  {
    hide Batch;
    CleanedParts(a, b, now, grants, due, receipts, retired);
  }

  lemma CleanedParts(
    a: Tables, b: Tables, now: int, grants: set<string>, due: set<string>, receipts: set<ReceiptKey>,
    retired: set<string>)
    requires Cleaned(a, b, now, grants, due, receipts, retired)
    ensures grants <= ExpiredGrants(a, now) && due <= DueRoutes(DropGrants(a, grants), now)
    ensures receipts <= ExpiredReceipts(ExpireRoutes(DropGrants(a, grants), due, now), now)
    ensures retired <= RetiredRoutes(DropReceipts(ExpireRoutes(DropGrants(a, grants), due, now), receipts), now)
  {
    hide ExpiredGrants, DueRoutes, ExpiredReceipts, RetiredRoutes, DropGrants, ExpireRoutes, DropReceipts, DropRoutes;
  }

  /** A kind with no more than one batch of due rows has none left. */
  lemma CleanedShort(
    a: Tables, b: Tables, now: int, grants: set<string>, due: set<string>, receipts: set<ReceiptKey>,
    retired: set<string>)
    requires Cleaned(a, b, now, grants, due, receipts, retired)
    ensures |set g | g in a.grants && a.grants[g].expiresAt <= now| <= 256 ==>
              forall g :: g in b.grants ==> b.grants[g].expiresAt > now
    ensures |set i | i in a.routes && PastDue(a.routes[i], now)| <= 256 ==>
              forall i :: i in b.routes ==> !PastDue(b.routes[i], now)
    ensures |set k | k in a.receipts && a.receipts[k].expiresAt <= now| <= 256 ==>
              forall k :: k in b.receipts ==> b.receipts[k].expiresAt > now
  {
    hide RetiredRoutes;
    var t1 := DropGrants(a, grants);
    var t2 := ExpireRoutes(t1, due, now);
    var lapsed := set i | i in a.routes && PastDue(a.routes[i], now);
    assert DueRoutes(t1, now) == lapsed;
    assert ExpiredGrants(a, now) == set g | g in a.grants && a.grants[g].expiresAt <= now;
    assert ExpiredReceipts(t2, now) == set k | k in a.receipts && a.receipts[k].expiresAt <= now;
    WholeBatch(grants, ExpiredGrants(a, now));
    WholeBatch(due, lapsed);
    WholeBatch(receipts, ExpiredReceipts(t2, now));
  }

  lemma WholeBatch<T>(taken: set<T>, matching: set<T>)
    requires Batch(taken, matching)
    ensures |matching| <= 256 ==> taken == matching
  {
    assert matching == taken + (matching - taken);
  }
}
