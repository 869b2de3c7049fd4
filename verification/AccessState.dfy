/**
 The tables behind access routing and the effect of one authenticated route
 mutation on them, with the capacity accounting that reserves a receipt and a
 nonce for the eventual revocation of every live route.
 */
module AccessState {
  import opened Options
  import opened Decimals

  const MAX_RETAINED: nat := 65536
  const MAX_PER_OWNER: nat := 4096
  const MAX_LIVE_PER_OWNER: nat := 1024
  const NONCE_CAPACITY: nat := 131072
  const NONCE_CLEANUP_BATCH: nat := 32
  const RETENTION_SECONDS: nat := 90 * 86400

  datatype Profile = Classic | Game
  datatype Owner = Owner(profile: Profile, server: string)

  datatype RouteState = Reserved | Active | Expired | Revoked
  datatype Route = Route(
    owner: Owner, token: string, revision: Sequence, state: RouteState, expiresAt: Option<int>,
    reservationId: Option<string>, reservedUntil: int, createdAt: int, revokedAt: Option<int>)

  datatype Operation = Reserve | Activate | Revoke | Lookup
  datatype Outcome = Reservation | Activation | Revocation | Conflict | Expiry | NotFound | Unavailable

  datatype Payload = Payload(
    owner: Owner, certificate: string, operation: Operation, requestId: string, token: string,
    revision: Sequence, index: string, reservationId: Option<string>, expiresAt: Option<int>)

  /** Digests of the payload are injective, so a receipt keeps the payload itself. */
  datatype Receipt = Receipt(
    request: Payload, outcome: Outcome, reservationId: Option<string>,
    reservationExpiresAt: Option<int>, revision: Sequence, commit: string, expiresAt: int)
  datatype ReceiptKey = ReceiptKey(owner: Owner, requestId: string)

  datatype NonceKey = NonceKey(owner: Owner, nonce: string)
  datatype Replay = Replay(lastSequence: Sequence, lastNonce: string, commit: string)

  datatype Presence = Presence(lastSeen: int, accessRequired: bool, generation: string, complete: bool)
  datatype Grant = Grant(
    tagPrevious: string, index: string, owner: Owner, revision: Sequence, generation: string,
    clientNonce: string, expiresAt: int, redemption: Option<string>)

  datatype Tables = Tables(
    routes: map<string, Route>, receipts: map<ReceiptKey, Receipt>, nonces: map<NonceKey, int>,
    replay: map<Owner, Replay>, grants: map<string, Grant>, presence: map<Owner, Presence>,
    denials: set<string>)

  /** An authenticated request together with the random values its transaction draws. */
  datatype Mutation = Mutation(
    payload: Payload, sequence: Sequence, nonce: string, nonceExpiresAt: int,
    commit: string, handle: string, now: int, freshness: int)

  datatype Reply =
    | Rejected
    | Answer(outcome: Outcome, reservationId: Option<string>, reservationExpiresAt: Option<int>, revision: Sequence)

  // ---- counting ---------------------------------------------------------------

  datatype Scope = Everywhere | OwnedBy(owner: Owner)

  predicate InScope(scope: Scope, owner: Owner) {
    scope.Everywhere? || scope.owner == owner
  }

  predicate Live(route: Route) {
    route.state == Reserved || route.state == Active
  }

  function LiveRoutes(routes: map<string, Route>, scope: Scope): set<string> {
    set i | i in routes && Live(routes[i]) && InScope(scope, routes[i].owner)
  }

  function RoutesIn(routes: map<string, Route>, scope: Scope): set<string> {
    set i | i in routes && InScope(scope, routes[i].owner)
  }

  function ReceiptsIn(receipts: map<ReceiptKey, Receipt>, scope: Scope): set<ReceiptKey> {
    set k | k in receipts && InScope(scope, k.owner)
  }

  /** Receipts plus the revocation receipts still owed to live routes. */
  function Held(t: Tables, scope: Scope): nat {
    |ReceiptsIn(t.receipts, scope)| + |LiveRoutes(t.routes, scope)|
  }

  function HeldLimit(scope: Scope): nat {
    if scope.Everywhere? then MAX_RETAINED else MAX_PER_OWNER
  }

  /** Nonces plus the revocation nonces still owed to live routes. */
  function NonceUse(t: Tables): nat {
    |t.nonces| + |LiveRoutes(t.routes, Everywhere)|
  }

  predicate Fits(t: Tables, owner: Owner, growth: nat) {
    Held(t, Everywhere) + growth <= MAX_RETAINED && Held(t, OwnedBy(owner)) + growth <= MAX_PER_OWNER
  }

  // ---- one mutation -------------------------------------------------------------

  function KeyOf(p: Payload): ReceiptKey {
    ReceiptKey(p.owner, p.requestId)
  }

  predicate Owns(t: Tables, p: Payload) {
    p.index in t.routes && t.routes[p.index].owner == p.owner && t.routes[p.index].token == p.token
  }

  /** Growth of the combined nonce ceiling that the replay fence admits with. */
  function NonceGrowth(t: Tables, p: Payload): nat {
    if p.operation == Reserve then 2
    else if p.operation == Revoke && Owns(t, p) && Live(t.routes[p.index]) && KeyOf(p) !in t.receipts &&
        Fits(t, p.owner, 0)
    then 0
    else 1
  }

  predicate NonceCapacity(t: Tables, growth: nat) {
    growth == 0 || NonceUse(t) + growth <= NONCE_CAPACITY
  }

  /** The replay row is the fence: a later sequence, an unseen nonce and a free slot. */
  predicate Admits(t: Tables, m: Mutation) {
    && m.payload.owner in t.replay
    && After(m.sequence, t.replay[m.payload.owner].lastSequence)
    && NonceKey(m.payload.owner, m.nonce) !in t.nonces
    && NonceCapacity(t, NonceGrowth(t, m.payload))
  }

  predicate TokenConflict(t: Tables, p: Payload) {
    exists i :: i in t.routes && i != p.index && t.routes[i].owner == p.owner && t.routes[i].token == p.token
  }

  predicate Reached(deadline: Option<int>, now: int) {
    deadline.Some? && deadline.value <= now
  }

  predicate RouteTableFull(t: Tables, owner: Owner) {
    |t.routes| >= MAX_RETAINED || |RoutesIn(t.routes, OwnedBy(owner))| >= MAX_PER_OWNER
  }

  /** The decision table, first matching row first. */
  function Decide(t: Tables, m: Mutation): Outcome {
    var p := m.payload;
    var known := p.index in t.routes;
    if TokenConflict(t, p) || (known && !Owns(t, p)) then Conflict
    else if p.operation != Revoke && known && t.routes[p.index].state == Revoked then Revocation
    else if p.operation != Revoke && known && t.routes[p.index].state == Expired then Expiry
    else match p.operation
      case Reserve =>
        if known then Conflict
        else if Reached(p.expiresAt, m.now) then Expiry
        else if !(p.owner in t.presence && t.presence[p.owner].lastSeen > m.now - m.freshness) then Unavailable
        else if RouteTableFull(t, p.owner) || |LiveRoutes(t.routes, OwnedBy(p.owner))| >= MAX_LIVE_PER_OWNER
        then Unavailable
        else Reservation
      case Activate =>
        if !known then NotFound
        else
          var r := t.routes[p.index];
          if r.revision != p.revision || (r.reservationId.Some? && r.reservationId != p.reservationId) ||
             r.expiresAt != p.expiresAt
          then Conflict
          else if r.reservedUntil <= m.now || Reached(r.expiresAt, m.now) then Expiry
          else if r.state != Reserved then Conflict
          else Activation
      case Revoke =>
        if !known && RouteTableFull(t, p.owner) then Unavailable else Revocation
      case Lookup => Unavailable
  }

  function ReceiptGrowth(t: Tables, m: Mutation): nat {
    var p := m.payload;
    if Decide(t, m) == Reservation then 2
    else if Decide(t, m) == Revocation && p.index in t.routes && Live(t.routes[p.index]) then 0
    else 1
  }

  function Later(a: Sequence, b: Sequence): Sequence {
    if After(a, b) then a else b
  }

  function ReceiptFor(t: Tables, m: Mutation): Receipt {
    var p := m.payload;
    var outcome := Decide(t, m);
    var row := if p.index in t.routes then Some(t.routes[p.index]) else None;
    Receipt(
      p, outcome,
      if outcome == Reservation then Some(m.handle) else if row.Some? then row.value.reservationId else None,
      if outcome == Reservation then Some(m.now + 60) else if row.Some? then Some(row.value.reservedUntil) else None,
      if p.operation != Revoke && row.Some? && !Live(row.value) then row.value.revision
      else if outcome == Revocation && row.Some? then Later(row.value.revision, p.revision)
      else p.revision,
      m.commit, m.now + RETENTION_SECONDS)
  }

  /** The row an outcome writes at the request's index, if it writes one. */
  function Written(t: Tables, m: Mutation): Option<Route> {
    var p := m.payload;
    var known := p.index in t.routes;
    match Decide(t, m)
    case Reservation =>
      Some(Route(p.owner, p.token, p.revision, Reserved, p.expiresAt, Some(m.handle), m.now + 60, m.now, None))
    case Activation => if known then Some(t.routes[p.index].(state := Active)) else None
    case Revocation =>
      if p.operation != Revoke then None
      else if known then
        var r := t.routes[p.index];
        Some(r.(state := Revoked, revision := Later(p.revision, r.revision),
                revokedAt := if r.revokedAt.Some? then r.revokedAt else Some(m.now)))
      else
        Some(Route(p.owner, p.token, p.revision, Revoked, p.expiresAt, p.reservationId, m.now + 60, m.now,
                   Some(m.now)))
    case Expiry =>
      if known && Live(t.routes[p.index]) then Some(t.routes[p.index].(state := Expired, revokedAt := Some(m.now)))
      else None
    case _ => None
  }

  function RouteEffect(t: Tables, m: Mutation): map<string, Route> {
    match Written(t, m)
    case None => t.routes
    case Some(r) => t.routes[m.payload.index := r]
  }

  function WithoutRoute(grants: map<string, Grant>, index: string): map<string, Grant> {
    map g | g in grants && grants[g].index != index :: grants[g]
  }

  function GrantEffect(t: Tables, m: Mutation): map<string, Grant> {
    if m.payload.operation == Revoke && Decide(t, m) == Revocation then WithoutRoute(t.grants, m.payload.index)
    else t.grants
  }

  function ReplyFrom(r: Receipt, p: Payload): Reply {
    if (if p.operation == Lookup then r.request.(operation := Lookup) != p else r.request != p) then
      Answer(Conflict, None, None, p.revision)
    else Answer(r.outcome, r.reservationId, r.reservationExpiresAt, r.revision)
  }

  /** The business half, once the fence is won: a stored receipt answers, otherwise one is decided. */
  function Applied(t: Tables, m: Mutation): (Tables, Reply) {
    var p := m.payload;
    if KeyOf(p) in t.receipts then (t, ReplyFrom(t.receipts[KeyOf(p)], p))
    else if p.operation == Lookup then (t, Answer(NotFound, None, None, p.revision))
    else if !Fits(t, p.owner, ReceiptGrowth(t, m)) then (t, Answer(Unavailable, None, None, p.revision))
    else
      var receipt := ReceiptFor(t, m);
      (t.(receipts := t.receipts[KeyOf(p) := receipt], routes := RouteEffect(t, m), grants := GrantEffect(t, m)),
       ReplyFrom(receipt, p))
  }

  /** Expired nonces leave in one bounded batch, oldest expiry first. */
  ghost predicate NonceCleanup(before: map<NonceKey, int>, after: map<NonceKey, int>, now: int) {
    && after.Keys <= before.Keys
    && (forall k :: k in after ==> after[k] == before[k])
    && |before.Keys - after.Keys| <= NONCE_CLEANUP_BATCH
    && (forall k :: k in before.Keys - after.Keys ==> before[k] <= now)
    && (|before.Keys - after.Keys| < NONCE_CLEANUP_BATCH ==> forall k :: k in after ==> after[k] > now)
    && (forall k, j :: k in before.Keys - after.Keys && j in after ==> before[k] <= after[j])
  }

  function Signed(t: Tables, m: Mutation): Tables {
    t.(replay := t.replay[m.payload.owner := Replay(m.sequence, m.nonce, m.commit)],
       nonces := t.nonces[NonceKey(m.payload.owner, m.nonce) := m.nonceExpiresAt])
  }

  /** The whole transaction: cleanup, then either no write at all or the signed effect. */
  ghost predicate Mutated(before: Tables, after: Tables, m: Mutation, reply: Reply) {
    exists nonces :: NonceCleanup(before.nonces, nonces, m.now) && Committed(before.(nonces := nonces), after, m, reply)
  }

  predicate Committed(clean: Tables, after: Tables, m: Mutation, reply: Reply) {
    if Admits(clean, m) then (after, reply) == Applied(Signed(clean, m), m)
    else after == clean && reply == Rejected
  }

  // ---- what every transaction keeps ---------------------------------------------

  ghost predicate UniqueTokens(routes: map<string, Route>) {
    forall i, j :: i in routes && j in routes && i != j ==>
      routes[i].owner != routes[j].owner || routes[i].token != routes[j].token
  }

  ghost predicate GrantsOwned(t: Tables) {
    forall g :: g in t.grants ==>
      t.grants[g].index in t.routes && t.routes[t.grants[g].index].owner == t.grants[g].owner
  }

  ghost predicate WithinCapacity(t: Tables) {
    && (forall scope :: Held(t, scope) <= HeldLimit(scope))
    && NonceUse(t) <= NONCE_CAPACITY
  }

  ghost predicate WithinRouteCeilings(routes: map<string, Route>) {
    && (forall scope :: |RoutesIn(routes, scope)| <= HeldLimit(scope))
    && (forall owner :: |LiveRoutes(routes, OwnedBy(owner))| <= MAX_LIVE_PER_OWNER)
  }

  ghost predicate RoutesWellFormed(routes: map<string, Route>) {
    && UniqueTokens(routes)
    && forall i :: i in routes ==>
         && (Live(routes[i]) <==> routes[i].revokedAt.None?)
         && (Live(routes[i]) ==> routes[i].reservationId.Some?)
  }

  ghost predicate Valid(t: Tables) {
    && WithinCapacity(t) && WithinRouteCeilings(t.routes) && RoutesWellFormed(t.routes) && GrantsOwned(t)
  }

  lemma Subsets<T>(small: set<T>, large: set<T>)
    requires small <= large
    ensures |small| <= |large|
  {
    assert large == small + (large - small);
  }

  /** How one route write moves the live set of a scope. */
  lemma PutRouteLive(routes: map<string, Route>, i: string, r: Route, scope: Scope)
    ensures LiveRoutes(routes[i := r], scope) ==
            (LiveRoutes(routes, scope) - {i}) + (if Live(r) && InScope(scope, r.owner) then {i} else {})
  {
  }

  lemma PutRouteOwned(routes: map<string, Route>, i: string, r: Route, scope: Scope)
    ensures RoutesIn(routes[i := r], scope) ==
            (RoutesIn(routes, scope) - {i}) + (if InScope(scope, r.owner) then {i} else {})
  {
  }

  lemma PutReceipt(receipts: map<ReceiptKey, Receipt>, k: ReceiptKey, r: Receipt, scope: Scope)
    requires k !in receipts
    ensures |ReceiptsIn(receipts[k := r], scope)| ==
            |ReceiptsIn(receipts, scope)| + (if InScope(scope, k.owner) then 1 else 0)
  {
    if InScope(scope, k.owner) {
      assert ReceiptsIn(receipts[k := r], scope) == ReceiptsIn(receipts, scope) + {k};
    } else {
      assert ReceiptsIn(receipts[k := r], scope) == ReceiptsIn(receipts, scope);
    }
  }


  // ---- the accounting of one mutation ---------------------------------------------

  /** The signed change of the live count that an outcome causes in its owner's scopes. */
  function LiveDelta(t: Tables, m: Mutation): int {
    var p := m.payload;
    var live := p.index in t.routes && Live(t.routes[p.index]);
    if Decide(t, m) == Reservation then 1
    else if live && (Decide(t, m) == Revocation || Decide(t, m) == Expiry) then -1
    else 0
  }

  function One(b: bool): int {
    if b then 1 else 0
  }

  lemma WrittenFacts(t: Tables, m: Mutation)
    ensures Written(t, m).None? ==> LiveDelta(t, m) == 0
    ensures Written(t, m).Some? ==>
              var p := m.payload;
              var r := Written(t, m).value;
              && r.owner == p.owner && r.token == p.token && !TokenConflict(t, p)
              && (p.index in t.routes ==> Owns(t, p))
              && (p.index !in t.routes ==> !RouteTableFull(t, p.owner))
              && LiveDelta(t, m) == One(Live(r)) - One(p.index in t.routes && Live(t.routes[p.index]))
              && (LiveDelta(t, m) > 0 ==> |LiveRoutes(t.routes, OwnedBy(p.owner))| < MAX_LIVE_PER_OWNER)
  {
  }

  lemma PutRouteCount(routes: map<string, Route>, i: string, r: Route, scope: Scope)
    requires i in routes ==> routes[i].owner == r.owner
    ensures |LiveRoutes(routes[i := r], scope)| == |LiveRoutes(routes, scope)| +
            (if InScope(scope, r.owner) then One(Live(r)) - One(i in routes && Live(routes[i])) else 0)
    ensures |RoutesIn(routes[i := r], scope)| ==
            |RoutesIn(routes, scope)| + One(i !in routes && InScope(scope, r.owner))
  {
    PutRouteLive(routes, i, r, scope);
    PutRouteOwned(routes, i, r, scope);
    SwapCount(LiveRoutes(routes, scope), i, Live(r) && InScope(scope, r.owner));
    SwapCount(RoutesIn(routes, scope), i, InScope(scope, r.owner));
  }

  lemma SwapCount(s: set<string>, i: string, keep: bool)
    ensures |(s - {i}) + (if keep then {i} else {})| == |s| - One(i in s) + One(keep)
  {
    if i in s {
      assert s == (s - {i}) + {i};
    } else {
      assert s - {i} == s;
    }
  }

  lemma RouteEffectLive(t: Tables, m: Mutation, scope: Scope)
    ensures |LiveRoutes(RouteEffect(t, m), scope)| ==
            |LiveRoutes(t.routes, scope)| + (if InScope(scope, m.payload.owner) then LiveDelta(t, m) else 0)
  {
    WrittenFacts(t, m);
    var written := Written(t, m);
    if written.Some? {
      PutRouteCount(t.routes, m.payload.index, written.value, scope);
    }
  }

  lemma RouteEffectSize(t: Tables, m: Mutation, scope: Scope)
    requires |RoutesIn(t.routes, scope)| <= HeldLimit(scope)
    ensures |RoutesIn(RouteEffect(t, m), scope)| <= HeldLimit(scope)
  {
    WrittenFacts(t, m);
    var written := Written(t, m);
    if written.Some? {
      PutRouteCount(t.routes, m.payload.index, written.value, scope);
      if scope.Everywhere? {
        assert RoutesIn(t.routes, scope) == t.routes.Keys && |t.routes| == |t.routes.Keys|;
      }
    }
  }

  lemma RouteEffectShape(t: Tables, m: Mutation)
    requires RoutesWellFormed(t.routes)
    ensures RoutesWellFormed(RouteEffect(t, m))
    ensures t.routes.Keys <= RouteEffect(t, m).Keys
    ensures forall i :: i in t.routes ==> RouteEffect(t, m)[i].owner == t.routes[i].owner
  {
    hide Decide, RouteTableFull, Written, LiveDelta;
    WrittenFacts(t, m);
    WrittenShape(t, m);
  }

  /** A written row is live exactly while it has no revocation time, and a live one has its handle. */
  lemma WrittenShape(t: Tables, m: Mutation)
    requires m.payload.index in t.routes ==> ShapedRoute(t.routes[m.payload.index])
    ensures Written(t, m).Some? ==> ShapedRoute(Written(t, m).value)
  {
    hide TokenConflict, RouteTableFull;
  }

  predicate ShapedRoute(r: Route) {
    (Live(r) <==> r.revokedAt.None?) && (Live(r) ==> r.reservationId.Some?)
  }

  lemma AppliedHeld(t: Tables, m: Mutation, scope: Scope)
    requires Held(t, scope) <= HeldLimit(scope)
    ensures Held(Applied(t, m).0, scope) <= HeldLimit(scope)
  {
    var p := m.payload;
    var after := Applied(t, m).0;
    if after != t {
      RouteEffectLive(t, m, scope);
      PutReceipt(t.receipts, KeyOf(p), ReceiptFor(t, m), scope);
      assert after.receipts == t.receipts[KeyOf(p) := ReceiptFor(t, m)] && after.routes == RouteEffect(t, m);
      if InScope(scope, p.owner) {
        assert Held(t, scope) + ReceiptGrowth(t, m) <= HeldLimit(scope);
        assert 1 + LiveDelta(t, m) <= ReceiptGrowth(t, m);
      }
    }
  }

  /** An owned live route whose revocation has not been receipted is always revoked. */
  lemma EffectiveRevocation(t: Tables, m: Mutation)
    requires UniqueTokens(t.routes)
    requires m.payload.operation == Revoke && Owns(t, m.payload) && Live(t.routes[m.payload.index])
    ensures Decide(t, m) == Revocation && ReceiptGrowth(t, m) == 0 && LiveDelta(t, m) == -1
  {
  }

  lemma SignedDecision(t: Tables, m: Mutation)
    ensures Decide(Signed(t, m), m) == Decide(t, m) && LiveDelta(Signed(t, m), m) == LiveDelta(t, m)
    ensures NonceGrowth(Signed(t, m), m.payload) == NonceGrowth(t, m.payload)
    ensures forall growth :: Fits(Signed(t, m), m.payload.owner, growth) == Fits(t, m.payload.owner, growth)
  {
    HeldIgnoresNonces(t, Signed(t, m));
  }

  /** The admitted growth covers the new nonce and the change in owed revocations. */
  lemma AdmittedGrowthSuffices(t: Tables, m: Mutation)
    requires UniqueTokens(t.routes)
    ensures var after := Applied(t, m).0;
            1 + |LiveRoutes(after.routes, Everywhere)| <= |LiveRoutes(t.routes, Everywhere)| + NonceGrowth(t, m.payload)
  {
    RouteEffectLive(t, m, Everywhere);
    if NonceGrowth(t, m.payload) == 0 {
      EffectiveRevocation(t, m);
    }
  }

  lemma AppliedNonces(t: Tables, m: Mutation)
    requires Admits(t, m) && UniqueTokens(t.routes)
    requires NonceUse(t) <= NONCE_CAPACITY
    ensures NonceUse(Applied(Signed(t, m), m).0) <= NONCE_CAPACITY
  {
    var signed := Signed(t, m);
    var key := NonceKey(m.payload.owner, m.nonce);
    assert signed.nonces.Keys == t.nonces.Keys + {key};
    assert |signed.nonces| == |signed.nonces.Keys| && |t.nonces| == |t.nonces.Keys|;
    SignedDecision(t, m);
    AdmittedGrowthSuffices(signed, m);
  }

  lemma AppliedGrants(t: Tables, m: Mutation)
    requires RoutesWellFormed(t.routes) && GrantsOwned(t)
    ensures GrantsOwned(Applied(t, m).0)
  {
    RouteEffectShape(t, m);
  }

  lemma AppliedKeepsRoutes(t: Tables, m: Mutation)
    requires WithinRouteCeilings(t.routes) && RoutesWellFormed(t.routes)
    ensures WithinRouteCeilings(Applied(t, m).0.routes) && RoutesWellFormed(Applied(t, m).0.routes)
  {
    var after := Applied(t, m).0;
    if after != t {
      RouteEffectShape(t, m);
      forall scope
        ensures |RoutesIn(after.routes, scope)| <= HeldLimit(scope)
      {
        RouteEffectSize(t, m, scope);
      }
      forall owner
        ensures |LiveRoutes(after.routes, OwnedBy(owner))| <= MAX_LIVE_PER_OWNER
      {
        RouteEffectLive(t, m, OwnedBy(owner));
      }
    }
  }

  lemma CleanNonces(before: Tables, nonces: map<NonceKey, int>, now: int)
    requires NonceCleanup(before.nonces, nonces, now)
    ensures NonceUse(before.(nonces := nonces)) <= NonceUse(before)
  {
    Subsets(nonces.Keys, before.nonces.Keys);
    assert |nonces| == |nonces.Keys| && |before.nonces| == |before.nonces.Keys|;
  }

  /** Every transaction keeps both capacity ceilings, the route ceilings and the ownership links. */
  lemma MutationKeepsValid(before: Tables, after: Tables, m: Mutation, reply: Reply)
    requires Valid(before) && Mutated(before, after, m, reply)
    ensures Valid(after)
  {
    var nonces :| NonceCleanup(before.nonces, nonces, m.now) && Committed(before.(nonces := nonces), after, m, reply);
    var clean := before.(nonces := nonces);
    CleanNonces(before, nonces, m.now);
    HeldIgnoresNonces(before, clean);
    if Admits(clean, m) {
      var signed := Signed(clean, m);
      AppliedNonces(clean, m);
      HeldIgnoresNonces(before, signed);
      forall scope
        ensures Held(after, scope) <= HeldLimit(scope)
      {
        AppliedHeld(signed, m, scope);
      }
      AppliedKeepsRoutes(signed, m);
      AppliedGrants(signed, m);
    }
  }

  lemma HeldIgnoresNonces(a: Tables, b: Tables)
    requires a.routes == b.routes && a.receipts == b.receipts
    ensures forall scope :: Held(a, scope) == Held(b, scope)
  {
  }

  /** A live route's own revocation needs no room in either shared table. */
  lemma RevocationAdmitted(clean: Tables, m: Mutation)
    requires WithinCapacity(clean)
    requires m.payload.operation == Revoke && Owns(clean, m.payload) && Live(clean.routes[m.payload.index])
    requires m.payload.owner in clean.replay && After(m.sequence, clean.replay[m.payload.owner].lastSequence)
    requires NonceKey(m.payload.owner, m.nonce) !in clean.nonces && KeyOf(m.payload) !in clean.receipts
    ensures Admits(clean, m) && Fits(clean, m.payload.owner, 0)
  {
    hide Held, After, NonceUse;
    var owner := m.payload.owner;
    assert Held(clean, Everywhere) <= HeldLimit(Everywhere);
    assert Held(clean, OwnedBy(owner)) <= HeldLimit(OwnedBy(owner));
    assert Fits(clean, owner, 0);
    assert NonceGrowth(clean, m.payload) == 0;
  }

  lemma RevocationApplied(t: Tables, m: Mutation)
    requires UniqueTokens(t.routes) && Fits(t, m.payload.owner, 0) && KeyOf(m.payload) !in t.receipts
    requires m.payload.operation == Revoke && Owns(t, m.payload) && Live(t.routes[m.payload.index])
    ensures var (after, reply) := Applied(t, m);
            && reply.Answer? && reply.outcome == Revocation
            && m.payload.index in after.routes && after.routes[m.payload.index].state == Revoked
            && (forall g :: g in after.grants ==> after.grants[g].index != m.payload.index)
            && KeyOf(m.payload) in after.receipts && after.receipts[KeyOf(m.payload)].outcome == Revocation
  {
    hide Decide, Fits, UniqueTokens;
    EffectiveRevocation(t, m);
  }

  lemma CleanedTables(before: Tables, nonces: map<NonceKey, int>, now: int)
    requires WithinCapacity(before) && NonceCleanup(before.nonces, nonces, now)
    ensures WithinCapacity(before.(nonces := nonces))
  {
    hide Held, NonceCleanup, LiveRoutes;
    CleanNonces(before, nonces, now);
    HeldIgnoresNonces(before, before.(nonces := nonces));
  }

  /**
   Revocation headroom: an owned live route is revoked by any request with a
   later sequence, an unseen nonce and an unused request id, however full the
   receipt and nonce tables are.
   */
  lemma RevocationAlwaysCommits(before: Tables, after: Tables, m: Mutation, reply: Reply)
    requires Valid(before) && Mutated(before, after, m, reply)
    requires m.payload.operation == Revoke && Owns(before, m.payload) && Live(before.routes[m.payload.index])
    requires m.payload.owner in before.replay && After(m.sequence, before.replay[m.payload.owner].lastSequence)
    requires NonceKey(m.payload.owner, m.nonce) !in before.nonces && KeyOf(m.payload) !in before.receipts
    ensures reply.Answer? && reply.outcome == Revocation
    ensures m.payload.index in after.routes && after.routes[m.payload.index].state == Revoked
    ensures forall g :: g in after.grants ==> after.grants[g].index != m.payload.index
    ensures KeyOf(m.payload) in after.receipts && after.receipts[KeyOf(m.payload)].outcome == Revocation
  {
    hide WithinCapacity, UniqueTokens, GrantsOwned, WithinRouteCeilings, Applied, Admits, After, Held;
    var nonces :| NonceCleanup(before.nonces, nonces, m.now) && Committed(before.(nonces := nonces), after, m, reply);
    var clean := before.(nonces := nonces);
    CleanedTables(before, nonces, m.now);
    RevocationAdmitted(clean, m);
    HeldIgnoresNonces(clean, Signed(clean, m));
    RevocationApplied(Signed(clean, m), m);
  }
}
