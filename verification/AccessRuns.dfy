/**
 Runs of the access tables: route mutations, grants, redemptions, retention
 cleanup and the publications that share the nonce ceiling, in any order.
 */
module AccessRuns {
  import opened Options
  import opened Decimals
  import opened AccessState

  const CLEANUP_BATCH: nat := 256
  const MAX_GRANTS: nat := 32768
  const MAX_GRANTS_PER_OWNER: nat := 32

  datatype Tags = Tags(current: string, previous: string)

  // ---- retention cleanup --------------------------------------------------------

  /** A LIMIT without ORDER BY takes any part of the matching rows, all of them when they fit. */
  predicate Batch<T(==)>(taken: set<T>, matching: set<T>) {
    taken <= matching && |taken| <= CLEANUP_BATCH && (|taken| < CLEANUP_BATCH ==> taken == matching)
  }

  function ExpiredGrants(t: Tables, now: int): set<string> {
    set g | g in t.grants && t.grants[g].expiresAt <= now
  }

  function DropGrants(t: Tables, taken: set<string>): Tables {
    t.(grants := t.grants - taken)
  }

  function DueRoutes(t: Tables, now: int): set<string> {
    set i | i in t.routes && ((t.routes[i].state == Reserved && t.routes[i].reservedUntil <= now) ||
                              (t.routes[i].state == Active && Reached(t.routes[i].expiresAt, now)))
  }

  function ExpireRoutes(t: Tables, taken: set<string>, now: int): Tables {
    t.(routes := map i | i in t.routes ::
         if i in taken then t.routes[i].(state := Expired, revokedAt := Some(now)) else t.routes[i])
  }

  function ExpiredReceipts(t: Tables, now: int): set<ReceiptKey> {
    set k | k in t.receipts && t.receipts[k].expiresAt <= now
  }

  function DropReceipts(t: Tables, taken: set<ReceiptKey>): Tables {
    t.(receipts := t.receipts - taken)
  }

  /** Terminal rows past retention that no receipt of their token still needs. */
  function RetiredRoutes(t: Tables, now: int): set<string> {
    set i |
      && i in t.routes && !Live(t.routes[i])
      && Reached(t.routes[i].revokedAt, now - RETENTION_SECONDS)
      && !(exists k ::
          k in t.receipts && k.owner == t.routes[i].owner && t.receipts[k].request.token == t.routes[i].token)
  }

  /** Deleting a route cascades to its grants. */
  function DropRoutes(t: Tables, taken: set<string>): Tables {
    t.(routes := t.routes - taken, grants := map g | g in t.grants && t.grants[g].index !in taken :: t.grants[g])
  }

  ghost predicate Cleaned(
    before: Tables, after: Tables, now: int, grants: set<string>, due: set<string>, receipts: set<ReceiptKey>,
    retired: set<string>)
  {
    && Batch(grants, ExpiredGrants(before, now))
    && var t1 := DropGrants(before, grants);
    && Batch(due, DueRoutes(t1, now))
    && var t2 := ExpireRoutes(t1, due, now);
    && Batch(receipts, ExpiredReceipts(t2, now))
    && var t3 := DropReceipts(t2, receipts);
    && Batch(retired, RetiredRoutes(t3, now))
    && after == DropRoutes(t3, retired)
  }

  // ---- grants ---------------------------------------------------------------------

  datatype IssueRequest = IssueRequest(
    index: string, clientNonce: string, tags: Tags, generation: string, now: int, freshness: int)

  function DueActive(t: Tables, indexes: set<string>, now: int): set<string> {
    set i | i in indexes && i in t.routes && t.routes[i].state == Active && Reached(t.routes[i].expiresAt, now)
  }

  function ExpireActive(t: Tables, indexes: set<string>, now: int): Tables {
    ExpireRoutes(t, DueActive(t, indexes, now), now)
  }

  /** An active route in force whose protected server is present, current and not denied. */
  predicate Reachable(t: Tables, index: string, now: int, freshness: int) {
    && index in t.routes && t.routes[index].state == Active && !Reached(t.routes[index].expiresAt, now)
    && var owner := t.routes[index].owner;
    && owner in t.presence && t.presence[owner].accessRequired && t.presence[owner].lastSeen > now - freshness
    && owner.server !in t.denials
  }

  predicate Matches(t: Tables, g: string, tags: Tags)
    requires g in t.grants
  {
    g in {tags.current, tags.previous} || t.grants[g].tagPrevious in {tags.current, tags.previous}
  }

  function GrantsOf(t: Tables, owner: Owner): set<string> {
    set g | g in t.grants && t.grants[g].owner == owner
  }

  predicate Issuable(t: Tables, q: IssueRequest) {
    && Reachable(t, q.index, q.now, q.freshness)
    && var owner := t.routes[q.index].owner;
    && t.presence[owner].generation == q.generation && t.presence[owner].complete
    && |t.grants| < MAX_GRANTS && |GrantsOf(t, owner)| < MAX_GRANTS_PER_OWNER
    && forall g :: g in t.grants ==> !Matches(t, g, q.tags)
  }

  ghost predicate Issued(before: Tables, after: Tables, q: IssueRequest, dropped: set<string>, issued: bool) {
    && Batch(dropped, ExpiredGrants(before, q.now))
    && var t := ExpireActive(DropGrants(before, dropped), {q.index}, q.now);
    && issued == Issuable(t, q)
    && after == if !issued then t else
         var r := t.routes[q.index];
         t.(grants := t.grants[q.tags.current :=
              Grant(q.tags.previous, q.index, r.owner, r.revision, q.generation, q.clientNonce, q.now + 15, None)])
  }

  datatype RedeemRequest = RedeemRequest(
    owner: Owner, generation: string, clientNonce: string, tags: Tags, redemption: string, now: int, freshness: int)

  predicate Redeemable(t: Tables, g: string, q: RedeemRequest)
    requires g in t.grants
  {
    var grant := t.grants[g];
    && grant.owner == q.owner && grant.generation == q.generation && grant.clientNonce == q.clientNonce
    && grant.expiresAt > q.now && grant.redemption.None? && Matches(t, g, q.tags)
    && Reachable(t, grant.index, q.now, q.freshness)
    && t.routes[grant.index].revision == grant.revision
    && t.presence[t.routes[grant.index].owner].generation == grant.generation
  }

  function MatchedRoutes(t: Tables, q: RedeemRequest): set<string> {
    set g | g in t.grants && t.grants[g].owner == q.owner && Matches(t, g, q.tags) :: t.grants[g].index
  }

  /** Expire the matched route, drop matched expired grants, then the conditional update. */
  function RedeemPrelude(t: Tables, q: RedeemRequest): Tables {
    var t1 := ExpireActive(t, MatchedRoutes(t, q), q.now);
    t1.(grants := map g | g in t1.grants && !(t1.grants[g].expiresAt <= q.now && Matches(t1, g, q.tags)) ::
        t1.grants[g])
  }

  function RedeemMatches(t: Tables, q: RedeemRequest): set<string> {
    set g | g in t.grants && Redeemable(t, g, q)
  }

  /** The redemption id is unique, so a double match aborts the whole batch. */
  ghost predicate Redeemed(before: Tables, after: Tables, q: RedeemRequest, redeemed: Option<string>) {
    var t := RedeemPrelude(before, q);
    var matches := RedeemMatches(t, q);
    if |matches| > 1 then after == before && redeemed == None
    else if |matches| == 0 then after == t && redeemed == None
    else
      && redeemed.Some? && matches == {redeemed.value}
      && after == t.(grants := t.grants[redeemed.value := t.grants[redeemed.value].(redemption := Some(q.redemption))])
  }

  /** The recheck before every dispatch of a protected session. */
  predicate RedemptionLive(t: Tables, redemption: string, generation: string, now: int, freshness: int) {
    exists g ::
      && g in t.grants && t.grants[g].redemption == Some(redemption) && t.grants[g].generation == generation
      && t.grants[g].expiresAt > now && Reachable(t, t.grants[g].index, now, freshness)
      && t.routes[t.grants[g].index].revision == t.grants[g].revision
      && t.presence[t.routes[t.grants[g].index].owner].generation == t.grants[g].generation
  }

  // ---- publications -----------------------------------------------------------------

  /** A publication shares the replay row and the nonce ceiling, and rewrites presence. */
  ghost predicate Published(before: Tables, after: Tables, owner: Owner, sequence: Sequence, nonce: string, now: int) {
    exists nonces ::
      && NonceCleanup(before.nonces, nonces, now)
      && var clean := before.(nonces := nonces);
         var key := NonceKey(owner, nonce);
         if key !in nonces && NonceCapacity(clean, 1) &&
            (owner in clean.replay ==> After(sequence, clean.replay[owner].lastSequence))
         then
           && after.nonces.Keys == nonces.Keys + {key} && after.replay.Keys == before.replay.Keys + {owner}
           && (forall o :: o in before.replay && o != owner ==> after.replay[o] == before.replay[o])
           && after.replay[owner].lastSequence == sequence
           && after.routes == before.routes && after.receipts == before.receipts && after.grants == before.grants
           && after.denials == before.denials
         else after == clean
  }

  // ---- maintenance and operators ------------------------------------------------------------

  /** A sweep drops expired nonces only, however many its batches reach. */
  predicate NoncesSwept(before: map<NonceKey, int>, after: map<NonceKey, int>, now: int) {
    && after.Keys <= before.Keys && (forall k :: k in after ==> after[k] == before[k])
    && forall k :: k in before.Keys - after.Keys ==> before[k] <= now
  }

  function LiveOfServer(t: Tables, server: string): set<string> {
    set i | i in t.routes && t.routes[i].owner.server == server && Live(t.routes[i])
  }

  /** An operator resets one identity: its routes stay as revoked tombstones, its other rows go. */
  function Retired(t: Tables, server: string, now: int): Tables {
    var live := LiveOfServer(t, server);
    t.(routes := map i | i in t.routes ::
         if i in live then t.routes[i].(state := Revoked, revokedAt := Some(now)) else t.routes[i],
       receipts := map k | k in t.receipts && k.owner.server != server :: t.receipts[k],
       grants := map g | g in t.grants && t.grants[g].owner.server != server :: t.grants[g],
       replay := map o | o in t.replay && o.server != server :: t.replay[o],
       presence := map o | o in t.presence && o.server != server :: t.presence[o])
  }

  // ---- steps and runs -------------------------------------------------------------------

  datatype Event =
    | Mutate(m: Mutation, reply: Reply)
    | Cleanup(now: int)
    | Issue(issue: IssueRequest, issued: bool)
    | Redeem(redeem: RedeemRequest, redeemed: Option<string>)
    | Publish(owner: Owner, sequence: Sequence, nonce: string, at: int)
    | Resolve(index: string, at: int)
    | SweepNonces(at: int)
    | Retire(server: string, at: int)
    | Administer

  /** The tables and every redemption id drawn so far; ids are random, so never drawn twice. */
  datatype World = World(tables: Tables, drawn: set<string>)

  ghost predicate Step(a: World, e: Event, b: World) {
    && b.drawn == a.drawn + (if e.Redeem? then {e.redeem.redemption} else {})
    && match e
       case Mutate(m, reply) => Mutated(a.tables, b.tables, m, reply)
       case Cleanup(now) => exists grants, due, receipts, retired ::
         Cleaned(a.tables, b.tables, now, grants, due, receipts, retired)
       case Issue(issue, issued) => exists dropped :: Issued(a.tables, b.tables, issue, dropped, issued)
       case Redeem(redeem, redeemed) =>
         redeem.redemption !in a.drawn && Redeemed(a.tables, b.tables, redeem, redeemed)
       case Publish(owner, sequence, nonce, at) => Published(a.tables, b.tables, owner, sequence, nonce, at)
       case Resolve(index, at) => b.tables == ExpireActive(a.tables, {index}, at)
       case SweepNonces(at) =>
         b.tables == a.tables.(nonces := b.tables.nonces) && NoncesSwept(a.tables.nonces, b.tables.nonces, at)
       case Retire(server, at) => b.tables == Retired(a.tables, server, at)
       case Administer => b.tables == a.tables.(presence := b.tables.presence, denials := b.tables.denials)
  }

  ghost predicate ValidWorld(w: World) {
    && Valid(w.tables)
    && (forall g :: g in w.tables.grants && w.tables.grants[g].redemption.Some? ==>
          w.tables.grants[g].redemption.value in w.drawn)
    && (forall g, h ::
          (&& g in w.tables.grants && h in w.tables.grants && w.tables.grants[g].redemption.Some?
           && w.tables.grants[g].redemption == w.tables.grants[h].redemption) ==> g == h)
  }

  ghost predicate Run(worlds: seq<World>, events: seq<Event>) {
    && |worlds| == |events| + 1
    && ValidWorld(worlds[0])
    && forall k :: 0 <= k < |events| ==> Step(worlds[k], events[k], worlds[k + 1])
  }

  // ---- every step keeps the capacity accounting -------------------------------------------

  /** Fewer live routes, fewer rows and no new owner keep every ceiling. */
  ghost predicate Shrinks(a: Tables, b: Tables) {
    && b.routes.Keys <= a.routes.Keys && b.receipts.Keys <= a.receipts.Keys && b.nonces.Keys <= a.nonces.Keys
    && (forall i :: i in b.routes ==>
          && b.routes[i].owner == a.routes[i].owner && b.routes[i].token == a.routes[i].token
          && b.routes[i].reservationId == a.routes[i].reservationId
          && (Live(b.routes[i]) ==> Live(a.routes[i])) && (Live(b.routes[i]) <==> b.routes[i].revokedAt.None?))
  }

  lemma ShrinkKeepsCeilings(a: Tables, b: Tables)
    requires Valid(a) && Shrinks(a, b)
    ensures WithinCapacity(b) && WithinRouteCeilings(b.routes) && RoutesWellFormed(b.routes)
  {
    forall scope
      ensures Held(b, scope) <= HeldLimit(scope) && |RoutesIn(b.routes, scope)| <= HeldLimit(scope)
      ensures |LiveRoutes(b.routes, scope)| <= |LiveRoutes(a.routes, scope)|
    {
      Subsets(LiveRoutes(b.routes, scope), LiveRoutes(a.routes, scope));
      Subsets(RoutesIn(b.routes, scope), RoutesIn(a.routes, scope));
      Subsets(ReceiptsIn(b.receipts, scope), ReceiptsIn(a.receipts, scope));
      assert Held(a, scope) <= HeldLimit(scope);
    }
    forall owner
      ensures |LiveRoutes(b.routes, OwnedBy(owner))| <= MAX_LIVE_PER_OWNER
    {
      assert |LiveRoutes(a.routes, OwnedBy(owner))| <= MAX_LIVE_PER_OWNER;
    }
    Subsets(b.nonces.Keys, a.nonces.Keys);
    assert |b.nonces| == |b.nonces.Keys| && |a.nonces| == |a.nonces.Keys|;
  }

  /** Every redemption id after a step was there before it, or was just given to the one redeemed grant. */
  ghost predicate GrantTrace(a: map<string, Grant>, b: map<string, Grant>, redeemed: Option<string>, id: string) {
    forall g :: g in b && b[g].redemption.Some? ==>
      (g in a && b[g].redemption == a[g].redemption) || (redeemed == Some(g) && b[g].redemption == Some(id))
  }

  lemma GrantsOnlyKeepsValid(a: Tables, b: Tables)
    requires Valid(a) && b == a.(grants := b.grants) && GrantsOwned(b)
    ensures Valid(b)
  {
    HeldIgnoresNonces(a, b);
  }

  lemma ExpireKeepsValid(a: Tables, due: set<string>, now: int)
    requires Valid(a) && forall i :: i in due ==> i in a.routes && Live(a.routes[i])
    ensures Valid(ExpireRoutes(a, due, now))
  {
    var b := ExpireRoutes(a, due, now);
    assert Shrinks(a, b);
    ShrinkKeepsCeilings(a, b);
  }

  lemma CleanupKeepsValid(
    a: Tables, b: Tables, now: int, grants: set<string>, due: set<string>, receipts: set<ReceiptKey>,
    retired: set<string>)
    requires Valid(a) && Cleaned(a, b, now, grants, due, receipts, retired)
    ensures Valid(b) && GrantTrace(a.grants, b.grants, None, "")
  {
    assert Shrinks(a, b);
    ShrinkKeepsCeilings(a, b);
  }

  lemma IssueKeepsValid(a: Tables, b: Tables, q: IssueRequest, dropped: set<string>, issued: bool)
    requires Valid(a) && Issued(a, b, q, dropped, issued)
    ensures Valid(b) && GrantTrace(a.grants, b.grants, None, "")
  {
    hide WithinCapacity, WithinRouteCeilings, RoutesWellFormed;
    var t1 := DropGrants(a, dropped);
    GrantsOnlyKeepsValid(a, t1);
    var t := ExpireActive(t1, {q.index}, q.now);
    ExpireKeepsValid(t1, DueActive(t1, {q.index}, q.now), q.now);
    GrantsOnlyKeepsValid(t, b);
  }

  lemma PreludeKeepsValid(a: Tables, q: RedeemRequest)
    requires Valid(a)
    ensures Valid(RedeemPrelude(a, q)) && GrantTrace(a.grants, RedeemPrelude(a, q).grants, None, "")
  {
    ExpireKeepsValid(a, DueActive(a, MatchedRoutes(a, q), q.now), q.now);
    GrantsOnlyKeepsValid(ExpireActive(a, MatchedRoutes(a, q), q.now), RedeemPrelude(a, q));
  }

  lemma RedeemKeepsValid(a: Tables, b: Tables, q: RedeemRequest, redeemed: Option<string>)
    requires Valid(a) && Redeemed(a, b, q, redeemed)
    ensures Valid(b) && GrantTrace(a.grants, b.grants, redeemed, q.redemption)
  {
    PreludeKeepsValid(a, q);
    var t := RedeemPrelude(a, q);
    if redeemed.Some? {
      assert redeemed.value in RedeemMatches(t, q);
      GrantsOnlyKeepsValid(t, b);
    }
  }

  /** The nonce table a publication leaves, and that nothing else of the capacity counts moved. */
  ghost predicate PublishedNonces(a: Tables, b: Tables, nonces: map<NonceKey, int>, key: NonceKey, now: int) {
    && b.routes == a.routes && b.receipts == a.receipts && b.grants == a.grants
    && NonceCleanup(a.nonces, nonces, now)
    && (b.nonces == nonces || (b.nonces.Keys == nonces.Keys + {key} &&
         NonceUse(a.(nonces := nonces)) + 1 <= NONCE_CAPACITY))
  }

  lemma PublicationSplits(a: Tables, b: Tables, owner: Owner, sequence: Sequence, nonce: string, now: int)
    returns (nonces: map<NonceKey, int>)
    requires Published(a, b, owner, sequence, nonce, now)
    ensures PublishedNonces(a, b, nonces, NonceKey(owner, nonce), now)
  {
    hide After, NonceUse;
    nonces :| NonceCleanup(a.nonces, nonces, now) && (b.nonces == nonces ||
      (b.nonces.Keys == nonces.Keys + {NonceKey(owner, nonce)} &&
          NonceUse(a.(nonces := nonces)) + 1 <= NONCE_CAPACITY))
      && b.routes == a.routes && b.receipts == a.receipts && b.grants == a.grants;
  }

  lemma PublicationFits(a: Tables, b: Tables, nonces: map<NonceKey, int>, key: NonceKey, now: int)
    requires WithinCapacity(a) && PublishedNonces(a, b, nonces, key, now)
    ensures WithinCapacity(b)
  {
    hide Held, NonceCleanup, LiveRoutes;
    CleanNonces(a, nonces, now);
    HeldIgnoresNonces(a, b);
    OneMoreNonce(b.nonces, nonces, key);
  }

  lemma PublishKeepsValid(a: Tables, b: Tables, owner: Owner, sequence: Sequence, nonce: string, now: int)
    requires Valid(a) && Published(a, b, owner, sequence, nonce, now)
    ensures Valid(b) && b.grants == a.grants
  {
    hide WithinCapacity, WithinRouteCeilings, RoutesWellFormed, GrantsOwned, Published, NonceCleanup;
    var nonces := PublicationSplits(a, b, owner, sequence, nonce, now);
    PublicationFits(a, b, nonces, NonceKey(owner, nonce), now);
    OwnedFrame(a, b);
  }

  lemma OwnedFrame(a: Tables, b: Tables)
    requires a.routes == b.routes && a.grants == b.grants
    ensures GrantsOwned(a) ==> GrantsOwned(b)
  {
  }

  lemma OneMoreNonce(after: map<NonceKey, int>, before: map<NonceKey, int>, key: NonceKey)
    ensures after.Keys == before.Keys + {key} ==> |after| <= |before| + 1
  {
    assert |after| == |after.Keys| && |before| == |before.Keys|;
    if after.Keys == before.Keys + {key} {
      Subsets(after.Keys, before.Keys + {key});
    }
  }

  lemma SweepKeepsValid(a: Tables, b: Tables, now: int)
    requires Valid(a) && b == a.(nonces := b.nonces) && NoncesSwept(a.nonces, b.nonces, now)
    ensures Valid(b)
  {
    hide WithinRouteCeilings, RoutesWellFormed, Held, LiveRoutes;
    HeldIgnoresNonces(a, b);
    OwnedFrame(a, b);
    Subsets(b.nonces.Keys, a.nonces.Keys);
    assert |b.nonces| == |b.nonces.Keys| && |a.nonces| == |a.nonces.Keys|;
  }

  lemma RetireKeepsValid(a: Tables, server: string, now: int)
    requires Valid(a)
    ensures Valid(Retired(a, server, now)) && GrantTrace(a.grants, Retired(a, server, now).grants, None, "")
  {
    hide WithinCapacity, WithinRouteCeilings;
    var b := Retired(a, server, now);
    assert Shrinks(a, b);
    ShrinkKeepsCeilings(a, b);
  }

  lemma MutateTrace(a: Tables, b: Tables, m: Mutation, reply: Reply)
    requires Mutated(a, b, m, reply)
    ensures GrantTrace(a.grants, b.grants, None, "")
  {
    hide Decide, Admits, Fits, ReceiptFor, RouteEffect, ReplyFrom, NonceCleanup;
  }

  lemma StepTables(a: Tables, e: Event, b: Tables, drawn: set<string>, after: set<string>)
    requires Valid(a) && Step(World(a, drawn), e, World(b, after))
    ensures Valid(b)
    ensures if e.Redeem? then GrantTrace(a.grants, b.grants, e.redeemed, e.redeem.redemption)
            else GrantTrace(a.grants, b.grants, None, "")
  {
    match e
    case Mutate(m, reply) =>
      MutationKeepsValid(a, b, m, reply);
      MutateTrace(a, b, m, reply);
    case Cleanup(now) =>
      var grants, due, receipts, retired :| Cleaned(a, b, now, grants, due, receipts, retired);
      CleanupKeepsValid(a, b, now, grants, due, receipts, retired);
    case Issue(issue, issued) =>
      var dropped :| Issued(a, b, issue, dropped, issued);
      IssueKeepsValid(a, b, issue, dropped, issued);
    case Redeem(redeem, redeemed) =>
      RedeemKeepsValid(a, b, redeem, redeemed);
    case Publish(owner, sequence, nonce, at) =>
      PublishKeepsValid(a, b, owner, sequence, nonce, at);
    case Resolve(index, at) =>
      ExpireKeepsValid(a, DueActive(a, {index}, at), at);
    case SweepNonces(at) =>
      SweepKeepsValid(a, b, at);
    case Retire(server, at) =>
      RetireKeepsValid(a, server, at);
    case Administer =>
      HeldIgnoresNonces(a, b);
  }

  lemma StepKeepsValid(a: World, e: Event, b: World)
    ensures ValidWorld(a) && Step(a, e, b) ==> ValidWorld(b)
  {
    hide Valid, Mutated, Cleaned, Issued, Redeemed, Published, Retired, ExpireActive, NoncesSwept;
    if ValidWorld(a) && Step(a, e, b) {
      StepTables(a.tables, e, b.tables, a.drawn, b.drawn);
    }
  }

  /** Both shared ceilings hold in every state of every run. */
  lemma {:induction false} RunKeepsValid(worlds: seq<World>, events: seq<Event>, k: nat)
    requires Run(worlds, events) && k < |worlds|
    ensures ValidWorld(worlds[k])
  {
    hide Step, ValidWorld;
    if k > 0 {
      RunKeepsValid(worlds, events, k - 1);
      StepKeepsValid(worlds[k - 1], events[k - 1], worlds[k]);
    }
  }

  // ---- lifecycle ------------------------------------------------------------------------

  function Rank(state: RouteState): nat {
    match state
    case Reserved => 1
    case Active => 2
    case Expired => 3
    case Revoked => 4
  }

  /** A retained route keeps its identity and never falls back; only a terminal row may be deleted. */
  ghost predicate Advances(a: map<string, Route>, b: map<string, Route>, deletes: bool) {
    forall i :: i in a ==>
      if i in b then b[i].owner == a[i].owner && b[i].token == a[i].token && Rank(b[i].state) >= Rank(a[i].state)
      else deletes && !Live(a[i])
  }

  lemma WrittenRank(t: Tables, m: Mutation)
    requires Written(t, m).Some? && m.payload.index in t.routes
    ensures Rank(Written(t, m).value.state) >= Rank(t.routes[m.payload.index].state)
  {
  }

  lemma RouteEffectAdvances(t: Tables, m: Mutation)
    ensures Advances(t.routes, RouteEffect(t, m), false)
  {
    hide Decide, Written, RouteTableFull, LiveRoutes, RoutesIn;
    WrittenFacts(t, m);
    if Written(t, m).Some? && m.payload.index in t.routes {
      WrittenRank(t, m);
    }
  }

  lemma AppliedRoutes(t: Tables, m: Mutation)
    ensures Applied(t, m).0.routes == t.routes || Applied(t, m).0.routes == RouteEffect(t, m)
  {
    hide Fits, ReceiptFor, ReplyFrom, GrantEffect, RouteEffect, ReceiptGrowth;
  }

  lemma MutationAdvances(t: Tables, m: Mutation)
    ensures Advances(t.routes, Applied(t, m).0.routes, false)
  {
    hide Applied, RouteEffect;
    RouteEffectAdvances(t, m);
    AppliedRoutes(t, m);
  }

  lemma MutatedAdvances(a: Tables, b: Tables, m: Mutation, reply: Reply)
    requires Mutated(a, b, m, reply)
    ensures Advances(a.routes, b.routes, false)
  {
    hide Applied, Admits, NonceCleanup;
    var nonces :| NonceCleanup(a.nonces, nonces, m.now) && Committed(a.(nonces := nonces), b, m, reply);
    MutationAdvances(Signed(a.(nonces := nonces), m), m);
  }

  lemma ExpireAdvances(t: Tables, due: set<string>, now: int)
    requires forall i :: i in due ==> i in t.routes && Live(t.routes[i])
    ensures Advances(t.routes, ExpireRoutes(t, due, now).routes, false)
  {
  }

  lemma IssuedAdvances(a: Tables, b: Tables, q: IssueRequest, dropped: set<string>, issued: bool)
    requires Issued(a, b, q, dropped, issued)
    ensures Advances(a.routes, b.routes, false)
  {
    hide Issuable, ExpireRoutes, Batch;
    var t1 := DropGrants(a, dropped);
    ExpireAdvances(t1, DueActive(t1, {q.index}, q.now), q.now);
  }

  lemma RedeemedAdvances(a: Tables, b: Tables, q: RedeemRequest, redeemed: Option<string>)
    requires Redeemed(a, b, q, redeemed)
    ensures Advances(a.routes, b.routes, false)
  {
    hide RedeemMatches, ExpireRoutes, MatchedRoutes;
    ExpireAdvances(a, DueActive(a, MatchedRoutes(a, q), q.now), q.now);
  }

  lemma CleanedAdvances(
    a: Tables, b: Tables, now: int, grants: set<string>, due: set<string>, receipts: set<ReceiptKey>,
    retired: set<string>)
    requires Cleaned(a, b, now, grants, due, receipts, retired)
    ensures Advances(a.routes, b.routes, true)
  {
  }

  lemma RetireAdvances(t: Tables, server: string, now: int)
    ensures Advances(t.routes, Retired(t, server, now).routes, false)
  {
  }

  lemma StepAdvances(a: World, e: Event, b: World)
    requires Step(a, e, b)
    ensures Advances(a.tables.routes, b.tables.routes, e.Cleanup?)
  {
    hide Mutated, Cleaned, Issued, Redeemed, NonceCleanup, NonceCapacity;
    match e
    case Mutate(m, reply) =>
      MutatedAdvances(a.tables, b.tables, m, reply);
    case Cleanup(now) =>
      var grants, due, receipts, retired :| Cleaned(a.tables, b.tables, now, grants, due, receipts, retired);
      CleanedAdvances(a.tables, b.tables, now, grants, due, receipts, retired);
    case Issue(issue, issued) =>
      var dropped :| Issued(a.tables, b.tables, issue, dropped, issued);
      IssuedAdvances(a.tables, b.tables, issue, dropped, issued);
    case Redeem(redeem, redeemed) =>
      RedeemedAdvances(a.tables, b.tables, redeem, redeemed);
    case Resolve(index, at) =>
      ExpireAdvances(a.tables, DueActive(a.tables, {index}, at), at);
    case Retire(server, at) =>
      RetireAdvances(a.tables, server, at);
    case _ =>
  }

  /** Reserved, active, expired, revoked: no run moves a retained route backwards. */
  lemma {:induction false} RunAdvances(worlds: seq<World>, events: seq<Event>, i: nat, j: nat, index: string)
    requires Run(worlds, events) && i <= j < |worlds|
    requires forall k :: i <= k <= j ==> index in worlds[k].tables.routes
    ensures worlds[j].tables.routes[index].owner == worlds[i].tables.routes[index].owner
    ensures worlds[j].tables.routes[index].token == worlds[i].tables.routes[index].token
    ensures Rank(worlds[j].tables.routes[index].state) >= Rank(worlds[i].tables.routes[index].state)
    decreases j
  {
    hide Step, ValidWorld;
    if i < j {
      RunAdvances(worlds, events, i, j - 1, index);
      StepAdvances(worlds[j - 1], events[j - 1], worlds[j]);
    }
  }

  /** A request id answers from its stored receipt and changes no route, receipt or grant again. */
  lemma RetryAnswersFromReceipt(
    a: Tables, b: Tables, c: Tables, d: Tables, m: Mutation, again: Mutation, first: Reply, second: Reply)
    requires Mutated(a, b, m, first) && KeyOf(m.payload) !in a.receipts && KeyOf(m.payload) in b.receipts
    requires Mutated(c, d, again, second) && again.payload == m.payload
    requires KeyOf(m.payload) in c.receipts && c.receipts[KeyOf(m.payload)] == b.receipts[KeyOf(m.payload)]
    ensures d.routes == c.routes && d.receipts == c.receipts && d.grants == c.grants
    ensures second == Rejected || second == first
  {
    hide Decide, Admits, Fits, RouteEffect, NonceCleanup;
  }

  lemma StepReceipts(a: World, e: Event, b: World, k: ReceiptKey)
    requires Step(a, e, b) && k in a.tables.receipts && k in b.tables.receipts
    ensures b.tables.receipts[k] == a.tables.receipts[k]
  {
    hide Decide, Admits, Fits, RouteEffect, GrantEffect, NonceCleanup, RedeemMatches, Redeemable, Issuable;
  }

  lemma {:induction false} RunReceipts(worlds: seq<World>, events: seq<Event>, i: nat, j: nat, k: ReceiptKey)
    requires Run(worlds, events) && i <= j < |worlds|
    requires forall n :: i <= n <= j ==> k in worlds[n].tables.receipts
    ensures worlds[j].tables.receipts[k] == worlds[i].tables.receipts[k]
    decreases j
  {
    hide Step, ValidWorld;
    if i < j {
      RunReceipts(worlds, events, i, j - 1, k);
      StepReceipts(worlds[j - 1], events[j - 1], worlds[j], k);
    }
  }

  /**
   In every run, while the receipt of a request is retained, every later retry of
   it under a fresh signature is refused or gets the first answer, and neither
   changes a route, a receipt or a grant.
   */
  lemma RetryInRun(worlds: seq<World>, events: seq<Event>, i: nat, j: nat)
    requires Run(worlds, events) && i < j < |events| && events[i].Mutate? && events[j].Mutate?
    requires events[j].m.payload == events[i].m.payload && KeyOf(events[i].m.payload) !in worlds[i].tables.receipts
    requires forall n :: i < n <= j ==> KeyOf(events[i].m.payload) in worlds[n].tables.receipts
    ensures worlds[j + 1].tables.routes == worlds[j].tables.routes
    ensures worlds[j + 1].tables.receipts == worlds[j].tables.receipts
    ensures worlds[j + 1].tables.grants == worlds[j].tables.grants
    ensures events[j].reply == Rejected || events[j].reply == events[i].reply
  {
    hide ValidWorld, Mutated, Cleaned, Issued, Redeemed, Published;
    RunReceipts(worlds, events, i + 1, j, KeyOf(events[i].m.payload));
    RetryAnswersFromReceipt(worlds[i].tables, worlds[i + 1].tables, worlds[j].tables, worlds[j + 1].tables,
                            events[i].m, events[j].m, events[i].reply, events[j].reply);
  }

  lemma MutatedSequences(a: Tables, b: Tables, m: Mutation, reply: Reply)
    requires Mutated(a, b, m, reply)
    ensures reply.Rejected? ==> b.replay == a.replay
    ensures reply.Answer? ==>
              && m.payload.owner in a.replay && After(m.sequence, a.replay[m.payload.owner].lastSequence)
              && b.replay == a.replay[m.payload.owner := Replay(m.sequence, m.nonce, m.commit)]
  {
    hide Decide, Fits, RouteEffect, GrantEffect, NonceCleanup, NonceCapacity, ReceiptFor, After;
    var nonces :| NonceCleanup(a.nonces, nonces, m.now) && Committed(a.(nonces := nonces), b, m, reply);
  }

  predicate Retires(e: Event, owner: Owner) {
    e.Retire? && e.server == owner.server
  }

  /** Accepted sequences of one owner strictly increase; refused requests leave them alone. */
  lemma StepSequences(a: World, e: Event, b: World, owner: Owner)
    requires Step(a, e, b) && owner in a.tables.replay
    ensures owner in b.tables.replay <==> !Retires(e, owner)
    ensures !Retires(e, owner) ==>
              b.tables.replay[owner] == a.tables.replay[owner] ||
              Value(b.tables.replay[owner].lastSequence) > Value(a.tables.replay[owner].lastSequence)
    ensures AcceptedFrom(e, owner) ==>
              owner in b.tables.replay && b.tables.replay[owner].lastSequence == e.m.sequence &&
              Value(e.m.sequence) > Value(a.tables.replay[owner].lastSequence)
  {
    hide Mutated, NonceCleanup, NonceCapacity, After, Value, RedeemMatches, Issuable;
    match e
    case Mutate(m, reply) =>
      MutatedSequences(a.tables, b.tables, m, reply);
      if reply.Answer? {
        AfterIsNumericOrder(m.sequence, a.tables.replay[m.payload.owner].lastSequence);
      }
    case Publish(_, sequence, _, _) =>
      AfterIsNumericOrder(sequence, a.tables.replay[owner].lastSequence);
    case _ =>
  }

  predicate NoRetirement(events: seq<Event>, i: nat, j: nat, owner: Owner)
    requires i <= j <= |events|
  {
    forall n :: i <= n < j ==> !Retires(events[n], owner)
  }

  /**
   Over every run the accepted sequence of an owner never falls, and rises with
   each accepted request of its own, until an operator retires the server.
   */
  lemma {:induction false} RunSequences(worlds: seq<World>, events: seq<Event>, i: nat, j: nat, owner: Owner)
    requires Run(worlds, events) && i <= j < |worlds| && owner in worlds[i].tables.replay
    ensures NoRetirement(events, i, j, owner) ==>
              && owner in worlds[j].tables.replay
              && Value(worlds[j].tables.replay[owner].lastSequence) >=
                 Value(worlds[i].tables.replay[owner].lastSequence)
              && forall n :: i <= n < j && AcceptedFrom(events[n], owner) ==>
                   Value(events[n].m.sequence) > Value(worlds[i].tables.replay[owner].lastSequence)
    decreases j
  {
    hide Step, ValidWorld, Value;
    if i < j && NoRetirement(events, i, j, owner) {
      RunSequences(worlds, events, i, j - 1, owner);
      StepSequences(worlds[j - 1], events[j - 1], worlds[j], owner);
    }
  }

  predicate AcceptedFrom(e: Event, owner: Owner) {
    e.Mutate? && e.m.payload.owner == owner && e.reply.Answer?
  }

  function OneReplayRow(sequence: Sequence, nonces: map<NonceKey, int>): World {
    World(Tables(map[], map[], nonces, map[Owner(Classic, "s") := Replay(sequence, "n", "c")], map[], map[], {}), {})
  }

  function NoRows(): Tables {
    Tables(map[], map[], map[], map[], map[], map[], {})
  }

  lemma RetiredAway(sequence: Sequence)
    ensures Retired(OneReplayRow(sequence, map[]).tables, "s", 0) == NoRows()
  {
    hide Live;
  }

  lemma FirstPublication(sequence: Sequence)
    ensures Published(NoRows(), OneReplayRow(sequence, map[NonceKey(Owner(Classic, "s"), "m") := 0]).tables,
                      Owner(Classic, "s"), sequence, "m", 0)
  {
    assert LiveRoutes(NoRows().routes, Everywhere) == {};
    assert NonceCleanup(NoRows().nonces, map[], 0);
  }

  lemma OneAndTwo()
    ensures IsCanonical("1") && IsCanonical("2") && Value("1") < Value("2")
  {
    SameLengthOrder("1", "2");
  }

  /** A retired server starts again at any sequence: here it falls from two to one. */
  lemma RetirementRestarts() returns (worlds: seq<World>, events: seq<Event>)
    ensures Run(worlds, events) && |worlds| == 3 && events[0].Retire? && events[1].Publish?
    ensures var owner := Owner(Classic, "s");
            && owner in worlds[0].tables.replay && owner in worlds[2].tables.replay
            && Value(worlds[2].tables.replay[owner].lastSequence) < Value(worlds[0].tables.replay[owner].lastSequence)
  {
    hide Value, ValidWorld, Retired, Published, NoRows, IsCanonical;
    OneAndTwo();
    var first := OneReplayRow("2", map[]);
    var last := OneReplayRow("1", map[NonceKey(Owner(Classic, "s"), "m") := 0]);
    var between := World(NoRows(), {});
    worlds, events := [first, between, last], [Retire("s", 0), Publish(Owner(Classic, "s"), "1", "m", 0)];
    EmptyTables();
    RetiredAway("2");
    FirstPublication("1");
    assert Step(first, events[0], between) && Step(between, events[1], last);
  }

  lemma EmptyTables()
    ensures ValidWorld(OneReplayRow("2", map[]))
  {
    var t := OneReplayRow("2", map[]).tables;
    forall scope
      ensures Held(t, scope) == 0 && |RoutesIn(t.routes, scope)| == 0 && |LiveRoutes(t.routes, scope)| == 0
    {
      assert RoutesIn(t.routes, scope) == {} && LiveRoutes(t.routes, scope) == {};
    }
  }

  // ---- redemptions ------------------------------------------------------------------------

  /** The id was drawn and no grant carries it any more. */
  ghost predicate Extinct(w: World, redemption: string) {
    redemption in w.drawn && forall g :: g in w.tables.grants ==> w.tables.grants[g].redemption != Some(redemption)
  }

  lemma ExtinctStays(a: World, e: Event, b: World, redemption: string)
    ensures ValidWorld(a) && Step(a, e, b) && Extinct(a, redemption) ==> Extinct(b, redemption)
  {
    if ValidWorld(a) && Step(a, e, b) && Extinct(a, redemption) {
      hide Valid, Mutated, Cleaned, Issued, Redeemed, Published, Retired, ExpireActive, NoncesSwept;
      StepTables(a.tables, e, b.tables, a.drawn, b.drawn);
    }
  }

  lemma {:induction false} ExtinctForever(worlds: seq<World>, events: seq<Event>, i: nat, j: nat, redemption: string)
    requires Run(worlds, events) && i <= j < |worlds| && Extinct(worlds[i], redemption)
    ensures Extinct(worlds[j], redemption)
    decreases j
  {
    hide Step, ValidWorld, Extinct;
    if i < j {
      ExtinctForever(worlds, events, i, j - 1, redemption);
      RunKeepsValid(worlds, events, j - 1);
      ExtinctStays(worlds[j - 1], events[j - 1], worlds[j], redemption);
    }
  }

  /** The event commits the revocation of a route: it answers from no earlier receipt. */
  ghost predicate CommitsRevocation(w: World, e: Event, index: string) {
    && e.Mutate? && e.m.payload.operation == Revoke && e.m.payload.index == index
    && KeyOf(e.m.payload) !in w.tables.receipts && e.reply.Answer? && e.reply.outcome == Revocation
  }

  lemma RevocationExtinguishes(a: World, e: Event, b: World, g: string)
    requires ValidWorld(a) && Step(a, e, b) && g in a.tables.grants && a.tables.grants[g].redemption.Some?
    requires CommitsRevocation(a, e, a.tables.grants[g].index)
    ensures Extinct(b, a.tables.grants[g].redemption.value)
  {
    hide Valid, Admits, Fits, RouteEffect, NonceCleanup, Written;
  }

  /**
   After a revocation commits, no session redeemed on that route passes the
   dispatch recheck again, in any later state of any run.
   */
  lemma RevokedSessionNeverLiveAgain(
    worlds: seq<World>, events: seq<Event>, i: nat, j: nat, g: string, generation: string, now: int, freshness: int)
    requires Run(worlds, events) && i < |events| && i < j < |worlds|
    requires g in worlds[i].tables.grants && worlds[i].tables.grants[g].redemption.Some?
    requires CommitsRevocation(worlds[i], events[i], worlds[i].tables.grants[g].index)
    ensures !RedemptionLive(worlds[j].tables, worlds[i].tables.grants[g].redemption.value, generation, now, freshness)
  {
    hide Step, ValidWorld, CommitsRevocation;
    RunKeepsValid(worlds, events, i);
    RevocationExtinguishes(worlds[i], events[i], worlds[i + 1], g);
    ExtinctForever(worlds, events, i + 1, j, worlds[i].tables.grants[g].redemption.value);
  }

  /** What a step leaves of a grant's mark: a row redeemed before is redeemed alike after. */
  predicate MarkKept(a: map<string, Grant>, b: map<string, Grant>, g: string) {
    g in a && a[g].redemption.Some? && g in b ==> b[g].redemption == a[g].redemption
  }

  lemma MutateMark(a: Tables, b: Tables, m: Mutation, reply: Reply, g: string)
    requires Mutated(a, b, m, reply)
    ensures MarkKept(a.grants, b.grants, g)
  {
    hide Decide, Admits, Fits, ReceiptFor, RouteEffect, ReplyFrom, NonceCleanup;
  }

  lemma CleanupMark(a: Tables, b: Tables, now: int, g: string)
    requires exists grants, due, receipts, retired :: Cleaned(a, b, now, grants, due, receipts, retired)
    ensures MarkKept(a.grants, b.grants, g)
  {
  }

  lemma IssueMark(a: Tables, b: Tables, q: IssueRequest, dropped: set<string>, issued: bool, g: string)
    requires Issued(a, b, q, dropped, issued) && !(issued && q.tags.current == g)
    ensures MarkKept(a.grants, b.grants, g)
  {
    hide Issuable, Batch;
  }

  lemma RedeemMark(a: Tables, b: Tables, q: RedeemRequest, redeemed: Option<string>, g: string)
    requires Redeemed(a, b, q, redeemed)
    ensures MarkKept(a.grants, b.grants, g)
  {
    var t := RedeemPrelude(a, q);
    assert g in RedeemMatches(t, q) ==> t.grants[g].redemption.None?;
  }

  lemma StepRedemption(a: World, e: Event, b: World, g: string)
    requires ValidWorld(a) && Step(a, e, b)
    requires g in a.tables.grants && a.tables.grants[g].redemption.Some? && g in b.tables.grants
    requires !(e.Issue? && e.issued && e.issue.tags.current == g)
    ensures b.tables.grants[g].redemption == a.tables.grants[g].redemption
  {
    hide Valid, Mutated, Cleaned, Issued, Redeemed, Published;
    match e
    case Mutate(m, reply) =>
      MutateMark(a.tables, b.tables, m, reply, g);
    case Cleanup(now) =>
      CleanupMark(a.tables, b.tables, now, g);
    case Issue(issue, issued) =>
      var dropped :| Issued(a.tables, b.tables, issue, dropped, issued);
      IssueMark(a.tables, b.tables, issue, dropped, issued, g);
    case Redeem(redeem, redeemed) =>
      RedeemMark(a.tables, b.tables, redeem, redeemed, g);
    case Publish(owner, sequence, nonce, at) =>
      PublishKeepsValid(a.tables, b.tables, owner, sequence, nonce, at);
    case _ =>
  }

  /** While its row is retained, a grant is redeemed at most once. */
  lemma {:induction false} GrantRedeemedOnce(worlds: seq<World>, events: seq<Event>, i: nat, j: nat, g: string)
    requires Run(worlds, events) && i < j < |events|
    requires events[i].Redeem? && events[i].redeemed == Some(g)
    requires forall k :: i < k <= j ==>
        g in worlds[k].tables.grants && !(events[k].Issue? && events[k].issued && events[k].issue.tags.current == g)
    ensures !(events[j].Redeem? && events[j].redeemed == Some(g))
    ensures worlds[j].tables.grants[g].redemption == Some(events[i].redeem.redemption)
    decreases j
  {
    hide Step, ValidWorld;
    if j == i + 1 {
      RedeemMarks(worlds[i], events[i], worlds[j], g);
    } else {
      GrantRedeemedOnce(worlds, events, i, j - 1, g);
      RunKeepsValid(worlds, events, j - 1);
      StepRedemption(worlds[j - 1], events[j - 1], worlds[j], g);
    }
    RunKeepsValid(worlds, events, j);
    if events[j].Redeem? && events[j].redeemed == Some(g) {
      RedeemNeedsUnused(worlds[j], events[j], worlds[j + 1], g);
    }
  }

  lemma RedeemMarks(a: World, e: Event, b: World, g: string)
    requires Step(a, e, b) && e.Redeem? && e.redeemed == Some(g)
    ensures g in b.tables.grants && b.tables.grants[g].redemption == Some(e.redeem.redemption)
  {
    hide RedeemMatches;
  }

  lemma RedeemNeedsUnused(a: World, e: Event, b: World, g: string)
    requires Step(a, e, b) && e.Redeem? && e.redeemed == Some(g)
    ensures g in a.tables.grants && a.tables.grants[g].redemption.None?
  {
    assert g in RedeemMatches(RedeemPrelude(a.tables, e.redeem), e.redeem);
  }
}
