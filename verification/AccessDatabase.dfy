/**
 The access tables as the database runs them: each batch is a sequence of
 conditional statements over the current rows, and no constraint or capacity
 trigger of the schema can abort one.
 */
module AccessDatabase {
  import opened Options
  import opened Decimals
  import opened AccessState
  import opened AccessRuns

  class Database {
    var routes: map<string, Route>
    var receipts: map<ReceiptKey, Receipt>
    var nonces: map<NonceKey, int>
    var replay: map<Owner, Replay>
    var grants: map<string, Grant>
    var presence: map<Owner, Presence>
    var denials: set<string>

    function Contents(): Tables
      reads this
    {
      Tables(routes, receipts, nonces, replay, grants, presence, denials)
    }

    constructor (t: Tables)
      ensures Contents() == t
    {
      routes, receipts, nonces, replay, grants, presence, denials :=
        t.routes, t.receipts, t.nonces, t.replay, t.grants, t.presence, t.denials;
    }

    /** No stored row carries the commit token the transaction draws. */
    ghost predicate CommitIsFresh(commit: string)
      reads this`replay, this`receipts
    {
      && (forall o :: o in replay ==> replay[o].commit != commit)
      && (forall k :: k in receipts ==> receipts[k].commit != commit)
    }

    /** The transaction won its replay row. */
    predicate Fenced(m: Mutation)
      reads this`replay
    {
      m.payload.owner in replay && replay[m.payload.owner] == Replay(m.sequence, m.nonce, m.commit)
    }

    /** The transaction's own receipt recorded the outcome. */
    predicate Received(m: Mutation, outcome: Outcome)
      reads this`receipts
    {
      && KeyOf(m.payload) in receipts && receipts[KeyOf(m.payload)].commit == m.commit
      && receipts[KeyOf(m.payload)].outcome == outcome
    }

    // ---- statements ---------------------------------------------------------------

    method CleanupNonces(now: int)
      modifies this`nonces
      ensures NonceCleanup(old(nonces), nonces, now)
      ensures Contents() == old(Contents()).(nonces := nonces)
    {
      nonces := SweepOldNonces(nonces, now);
    }

    /** Advances the replay row when the sequence, the nonce and the shared ceiling admit it. */
    method AdvanceReplay(m: Mutation) returns (changed: bool)
      modifies this`replay
      ensures changed == old(Admits(Contents(), m))
      ensures replay == if changed then old(replay)[m.payload.owner := Replay(m.sequence, m.nonce, m.commit)]
                        else old(replay)
    {
      changed := Admits(Contents(), m);
      if changed {
        replay := replay[m.payload.owner := Replay(m.sequence, m.nonce, m.commit)];
      }
    }

    /** Inserts the nonce behind the fence; its table must have room. */
    method RecordNonce(m: Mutation)
      requires Fenced(m) ==> NonceKey(m.payload.owner, m.nonce) !in nonces && |nonces| < NONCE_CAPACITY
      modifies this`nonces
      ensures nonces == if Fenced(m) then old(nonces)[NonceKey(m.payload.owner, m.nonce) := m.nonceExpiresAt]
                        else old(nonces)
    {
      if Fenced(m) {
        nonces := nonces[NonceKey(m.payload.owner, m.nonce) := m.nonceExpiresAt];
      }
    }

    /** Whether the receipt insert's own conditions hold. */
    predicate TakesReceipt(m: Mutation)
      reads this
    {
      && Fenced(m) && KeyOf(m.payload) !in receipts
      && Fits(Contents(), m.payload.owner, ReceiptGrowth(Contents(), m))
    }

    /** Decides the request and stores its receipt; the receipt table must have room. */
    method InsertReceipt(m: Mutation)
      requires TakesReceipt(m) ==>
                 |receipts| < MAX_RETAINED && |ReceiptsIn(receipts, OwnedBy(m.payload.owner))| < MAX_PER_OWNER
      modifies this`receipts
      ensures receipts == if old(TakesReceipt(m)) then old(receipts)[KeyOf(m.payload) := old(ReceiptFor(Contents(), m))]
                          else old(receipts)
    {
      if TakesReceipt(m) {
        receipts := receipts[KeyOf(m.payload) := ReceiptFor(Contents(), m)];
      }
    }

    method InsertReservation(m: Mutation)
      requires Received(m, Reservation) ==> Insertable(routes, m.payload, true)
      modifies this`routes
      ensures routes ==
        var p := m.payload;
        if Received(m, Reservation) then
          old(routes)[p.index := Route(p.owner, p.token, p.revision, Reserved, p.expiresAt, Some(m.handle),
                                       m.now + 60, m.now, None)]
        else old(routes)
    {
      var p := m.payload;
      if Received(m, Reservation) {
        routes := routes[p.index := Route(p.owner, p.token, p.revision, Reserved, p.expiresAt, Some(m.handle),
                                          m.now + 60, m.now, None)];
      }
    }

    /** An ended row may not become live again. */
    method ActivateRoute(m: Mutation)
      requires Received(m, Activation) && m.payload.index in routes ==> Live(routes[m.payload.index])
      modifies this`routes
      ensures routes ==
        if Received(m, Activation) && m.payload.index in old(routes) then
          old(routes)[m.payload.index := old(routes)[m.payload.index].(state := Active)]
        else old(routes)
    {
      var i := m.payload.index;
      if Received(m, Activation) && i in routes {
        routes := routes[i := routes[i].(state := Active)];
      }
    }

    /** A tombstone: a new revoked row, or the existing one revoked in place with its identity kept. */
    method UpsertRevocation(m: Mutation)
      requires Received(m, Revocation) && m.payload.index !in routes ==> Insertable(routes, m.payload, false)
      requires Received(m, Revocation) && m.payload.index in routes ==> OwnedRow(routes, m.payload)
      modifies this`routes
      ensures routes ==
        var p := m.payload;
        if !Received(m, Revocation) then old(routes)
        else if p.index in old(routes) then
          var r := old(routes)[p.index];
          old(routes)[p.index := r.(state := Revoked, revision := Later(p.revision, r.revision),
                                    revokedAt := if r.revokedAt.Some? then r.revokedAt else Some(m.now))]
        else
          old(routes)[p.index := Route(p.owner, p.token, p.revision, Revoked, p.expiresAt, p.reservationId,
                                       m.now + 60, m.now, Some(m.now))]
    {
      var p := m.payload;
      if Received(m, Revocation) {
        if p.index in routes {
          var r := routes[p.index];
          routes := routes[p.index := r.(state := Revoked, revision := Later(p.revision, r.revision),
                                         revokedAt := if r.revokedAt.Some? then r.revokedAt else Some(m.now))];
        } else {
          routes := routes[p.index := Route(p.owner, p.token, p.revision, Revoked, p.expiresAt, p.reservationId,
                                            m.now + 60, m.now, Some(m.now))];
        }
      }
    }

    method DropRevokedGrants(m: Mutation)
      modifies this`grants
      ensures grants == if Received(m, Revocation) then WithoutRoute(old(grants), m.payload.index) else old(grants)
    {
      if Received(m, Revocation) {
        grants := WithoutRoute(grants, m.payload.index);
      }
    }

    method ExpireRoute(m: Mutation)
      modifies this`routes
      ensures routes ==
        var i := m.payload.index;
        if Received(m, Expiry) && i in old(routes) && Live(old(routes)[i]) then
          old(routes)[i := old(routes)[i].(state := Expired, revokedAt := Some(m.now))]
        else old(routes)
    {
      var i := m.payload.index;
      if Received(m, Expiry) && i in routes && Live(routes[i]) {
        routes := routes[i := routes[i].(state := Expired, revokedAt := Some(m.now))];
      }
    }

    // ---- the mutation batch ------------------------------------------------------------

    /** The business half behind the fence: receipt first, then the writes its outcome allows. */
    method ApplyMutation(m: Mutation)
      requires Fenced(m) && m.payload.operation != Lookup
      requires forall k :: k in receipts ==> receipts[k].commit != m.commit
      modifies this`routes, this`receipts, this`grants
      ensures Contents() == Applied(old(Contents()), m).0
    {
      hide Decide, ReceiptFor, ReceiptGrowth, Fits, RouteEffect, GrantEffect;
      ghost var t := Contents();
      ghost var takes := TakesReceipt(m);
      if takes {
        ReceiptHasRoom(t, m);
        ReceiptFacts(t, m);
      }
      InsertReceipt(m);
      WriteOutcome(m, t, takes);
    }

    /** The statements behind the receipt: at most one of them finds its outcome there. */
    method WriteOutcome(m: Mutation, ghost t: Tables, ghost takes: bool)
      requires routes == t.routes && grants == t.grants
      requires takes ==> forall outcome :: Received(m, outcome) <==> outcome == Decide(t, m)
      requires !takes ==> forall outcome :: !Received(m, outcome)
      modifies this`routes, this`grants
      ensures routes == if takes then RouteEffect(t, m) else t.routes
      ensures grants == if takes then GrantEffect(t, m) else t.grants
    {
      hide Decide, Insertable, Received, Owns, OwnedRow;
      DecidedRow(t, m);
      InsertReservation(m);
      ActivateRoute(m);
      if m.payload.operation == Revoke {
        UpsertRevocation(m);
        DropRevokedGrants(m);
      }
      ExpireRoute(m);
    }

    /** What the transaction reads back, or the refusal when it lost its fence. */
    method ReadReply(m: Mutation) returns (reply: Reply)
      ensures reply ==
        if !Fenced(m) then Rejected
        else if KeyOf(m.payload) in receipts then ReplyFrom(receipts[KeyOf(m.payload)], m.payload)
        else Answer(if m.payload.operation == Lookup then NotFound else Unavailable, None, None, m.payload.revision)
    {
      if !Fenced(m) {
        return Rejected;
      }
      if KeyOf(m.payload) in receipts {
        return ReplyFrom(receipts[KeyOf(m.payload)], m.payload);
      }
      reply := Answer(if m.payload.operation == Lookup then NotFound else Unavailable, None, None, m.payload.revision);
    }

    /** The fence, the nonce and the business half, over tables whose expired nonces are gone. */
    method Transact(m: Mutation) returns (reply: Reply)
      requires Valid(Contents()) && CommitIsFresh(m.commit)
      modifies this
      ensures Committed(old(Contents()), Contents(), m, reply)
    {
      hide Valid, NonceCleanup, Admits, Applied, ReplyFrom, Mutated;
      ghost var clean := Contents();
      if Admits(clean, m) {
        NonceHasRoom(clean, m);
        AdmittedNonce(clean, m);
      }
      var won := AdvanceReplay(m);
      RecordNonce(m);
      ghost var fenced := Contents();
      if won {
        assert fenced == Signed(clean, m);
        if m.payload.operation != Lookup {
          ApplyMutation(m);
        }
      }
      reply := ReadReply(m);
      if won {
        AppliedReply(fenced, m);
      }
    }

    /**
     The authenticated mutation as one batch. It is the specified transaction:
     without the fence nothing but the nonce cleanup happens, and no capacity
     trigger or key of the schema is ever violated on the way.
     */
    method Mutate(m: Mutation) returns (reply: Reply)
      requires Valid(Contents()) && CommitIsFresh(m.commit)
      modifies this
      ensures Valid(Contents()) && Mutated(old(Contents()), Contents(), m, reply)
    {
      hide Valid, NonceCleanup, Committed, Mutated, CommitIsFresh;
      ghost var before := Contents();
      CleanupNonces(m.now);
      ghost var kept := nonces;
      CleanKeepsValid(before, kept, m.now);
      reply := Transact(m);
      TransactedIsMutated(before, kept, Contents(), m, reply);
    }

    // ---- retention -----------------------------------------------------------------------

    /** Four bounded deletions and expiries in one batch; no write reopens an ended row. */
    method CleanupAccessState(now: int)
      requires Valid(Contents())
      modifies this
      ensures Valid(Contents())
      ensures exists dropped, due, expired, retired ::
                Cleaned(old(Contents()), Contents(), now, dropped, due, expired, retired)
    {
      hide Valid, Batch, ExpiredGrants, DueRoutes, ExpiredReceipts, RetiredRoutes, DropGrants, ExpireRoutes,
        DropReceipts,
        DropRoutes, Contents;
      ghost var before := Contents();
      var dropped := DropExpiredGrants(now);
      var due := ExpireDueRoutes(now);
      var expired := DropExpiredReceipts(now);
      var retired := DropRetiredRoutes(now);
      assert Cleaned(before, Contents(), now, dropped, due, expired, retired);
      CleanupKeepsValid(before, Contents(), now, dropped, due, expired, retired);
    }

    method DropExpiredGrants(now: int) returns (dropped: set<string>)
      modifies this`grants
      ensures Batch(dropped, ExpiredGrants(old(Contents()), now))
      ensures Contents() == DropGrants(old(Contents()), dropped)
    {
      hide Batch;
      dropped := TakeBatch(ExpiredGrants(Contents(), now));
      grants := grants - dropped;
    }

    method ExpireDueRoutes(now: int) returns (due: set<string>)
      modifies this`routes
      ensures Batch(due, DueRoutes(old(Contents()), now))
      ensures Contents() == ExpireRoutes(old(Contents()), due, now)
    {
      hide Batch, ExpireRoutes;
      due := TakeBatch(DueRoutes(Contents(), now));
      DueAreLive(Contents(), due, now);
      ExpireEach(due, now);
    }

    method DropExpiredReceipts(now: int) returns (expired: set<ReceiptKey>)
      modifies this`receipts
      ensures Batch(expired, ExpiredReceipts(old(Contents()), now))
      ensures Contents() == DropReceipts(old(Contents()), expired)
    {
      hide Batch;
      expired := TakeBatch(ExpiredReceipts(Contents(), now));
      receipts := receipts - expired;
    }

    /** Deleting a route row cascades to its grants. */
    method DropRetiredRoutes(now: int) returns (retired: set<string>)
      modifies this`routes, this`grants
      ensures Batch(retired, RetiredRoutes(old(Contents()), now))
      ensures Contents() == DropRoutes(old(Contents()), retired)
    {
      hide Batch, RetiredRoutes;
      retired := TakeBatch(RetiredRoutes(Contents(), now));
      grants := map g | g in grants && grants[g].index !in retired :: grants[g];
      routes := routes - retired;
    }

    /** One update per chosen row; the terminal trigger would abort on a row that is not live. */
    method ExpireEach(due: set<string>, now: int)
      requires forall i :: i in due ==> i in routes && Live(routes[i])
      modifies this`routes
      ensures Contents() == ExpireRoutes(old(Contents()), due, now)
    {
      hide ExpireRoutes;
      ghost var before := Contents();
      ExpireNone(before, now);
      var todo, done: set<string> := due, {};
      while todo != {}
        invariant todo + done == due
        invariant Contents() == ExpireRoutes(before, done, now)
        decreases |todo|
      {
        var i :| i in todo;
        ExpireOneMore(before, done, i, now);
        todo, done := todo - {i}, done + {i};
        routes := routes[i := routes[i].(state := Expired, revokedAt := Some(now))];
      }
    }

    // ---- grants --------------------------------------------------------------------------

    /** Issues one grant; its capacity trigger and both unique aliases are already guarded. */
    method IssueAccessGrant(q: IssueRequest) returns (issued: bool)
      requires Valid(Contents()) && q.tags.current != q.tags.previous
      modifies this
      ensures Valid(Contents())
      ensures exists dropped :: Issued(old(Contents()), Contents(), q, dropped, issued)
    {
      hide Valid, Batch, Issuable, ExpireActive, DropGrants, ExpiredGrants, GrantsOf;
      ghost var before := Contents();
      var dropped := DropExpiredGrants(q.now);
      ExpireIssued(q);
      issued := Issuable(Contents(), q);
      if issued {
        IssuableRow(Contents(), q);
        InsertGrant(q);
      }
      assert Issued(before, Contents(), q, dropped, issued);
      IssueKeepsValid(before, Contents(), q, dropped, issued);
    }

    method ExpireIssued(q: IssueRequest)
      modifies this`routes
      ensures Contents() == ExpireActive(old(Contents()), {q.index}, q.now)
    {
      hide ExpireRoutes;
      ExpireEach(DueActive(Contents(), {q.index}, q.now), q.now);
    }

    method InsertGrant(q: IssueRequest)
      requires q.index in routes && q.tags.current !in grants
      requires forall g :: g in grants ==> grants[g].tagPrevious != q.tags.previous
      requires |grants| < MAX_GRANTS && |GrantsOf(Contents(), routes[q.index].owner)| < MAX_GRANTS_PER_OWNER
      modifies this`grants
      ensures var r := routes[q.index];
              grants == old(grants)[q.tags.current :=
                Grant(q.tags.previous, q.index, r.owner, r.revision, q.generation, q.clientNonce, q.now + 15, None)]
    {
      var r := routes[q.index];
      grants := grants[q.tags.current :=
        Grant(q.tags.previous, q.index, r.owner, r.revision, q.generation, q.clientNonce, q.now + 15, None)];
    }

    /** One conditional update is the linearization point shared with revocation. */
    method RedeemAccessGrant(q: RedeemRequest) returns (redeemed: Option<string>)
      requires Valid(Contents()) && forall g :: g in grants ==> grants[g].redemption != Some(q.redemption)
      modifies this
      ensures Valid(Contents()) && Redeemed(old(Contents()), Contents(), q, redeemed)
    {
      hide Valid, Redeemable, Matches, RedeemPrelude, RedeemMatches;
      var untouched := Contents();
      ExpireMatched(q);
      var found := RedeemMatches(Contents(), q);
      redeemed := None;
      if |found| > 1 {
        routes, grants := untouched.routes, untouched.grants;
      } else if |found| == 1 {
        SingleElement(found);
        var g :| g in found;
        MatchesAreGrants(Contents(), q, g);
        grants := grants[g := grants[g].(redemption := Some(q.redemption))];
        redeemed := Some(g);
      }
      RedeemKeepsValid(untouched, Contents(), q, redeemed);
    }

    method ExpireMatched(q: RedeemRequest)
      modifies this`routes, this`grants
      ensures Contents() == RedeemPrelude(old(Contents()), q)
    {
      hide Matches;
      ExpireEach(DueActive(Contents(), MatchedRoutes(Contents(), q), q.now), q.now);
      var t := Contents();
      grants := map g | g in grants && !(grants[g].expiresAt <= q.now && Matches(t, g, q.tags)) :: grants[g];
    }

    method IsAccessRedemptionLive(redemption: string, generation: string, now: int, freshness: int) returns (live: bool)
      ensures live == RedemptionLive(Contents(), redemption, generation, now, freshness)
      ensures forall g :: live && GrantsUnique(grants) && g in grants && grants[g].redemption == Some(redemption) ==>
                grants[g].index in routes && routes[grants[g].index].state == Active
    {
      live := exists g :: g in grants && LiveGrant(Contents(), g, redemption, generation, now, freshness);
    }
  }

  /** A LIMIT takes rows one at a time until it is met or none is left. */
  method TakeBatch<T(==)>(matching: set<T>) returns (taken: set<T>)
    ensures Batch(taken, matching)
  {
    taken := {};
    while |taken| < CLEANUP_BATCH && taken != matching
      invariant taken <= matching && |taken| <= CLEANUP_BATCH
      decreases |matching - taken|
    {
      var x :| x in matching - taken;
      assert matching - taken == (matching - (taken + {x})) + {x};
      taken := taken + {x};
    }
  }

  ghost predicate GrantsUnique(grants: map<string, Grant>) {
    forall g, h ::
      (&& g in grants && h in grants && grants[g].redemption.Some? && grants[g].redemption == grants[h].redemption)
      ==> g == h
  }

  predicate LiveGrant(t: Tables, g: string, redemption: string, generation: string, now: int, freshness: int)
    requires g in t.grants
  {
    && t.grants[g].redemption == Some(redemption) && t.grants[g].generation == generation
    && t.grants[g].expiresAt > now && Reachable(t, t.grants[g].index, now, freshness)
    && t.routes[t.grants[g].index].revision == t.grants[g].revision
    && t.presence[t.routes[t.grants[g].index].owner].generation == t.grants[g].generation
  }

  lemma SingleElement<T>(s: set<T>)
    requires |s| == 1
    ensures forall x :: x in s ==> s == {x}
  {
    forall x | x in s
      ensures s == {x}
    {
      assert |s - {x}| == 0;
    }
  }

  lemma MatchesAreGrants(t: Tables, q: RedeemRequest, g: string)
    requires g in RedeemMatches(t, q)
    ensures g in t.grants
  {
  }

  /** The insert's guards already exclude the capacity trigger and both unique aliases. */
  lemma IssuableRow(t: Tables, q: IssueRequest)
    requires Issuable(t, q)
    ensures q.index in t.routes && q.tags.current !in t.grants
    ensures forall g :: g in t.grants ==> t.grants[g].tagPrevious != q.tags.previous
    ensures |t.grants| < MAX_GRANTS && |GrantsOf(t, t.routes[q.index].owner)| < MAX_GRANTS_PER_OWNER
  {
  }

  lemma ExpireNone(t: Tables, now: int)
    ensures ExpireRoutes(t, {}, now) == t
  {
  }

  lemma ExpireOneMore(t: Tables, done: set<string>, i: string, now: int)
    requires i in t.routes
    ensures var before := ExpireRoutes(t, done, now);
            && i in before.routes
            && ExpireRoutes(t, done + {i}, now) ==
               t.(routes := before.routes[i := before.routes[i].(state := Expired, revokedAt := Some(now))])
  {
  }

  lemma DueAreLive(t: Tables, due: set<string>, now: int)
    requires Batch(due, DueRoutes(t, now))
    ensures forall i :: i in due ==> i in t.routes && Live(t.routes[i])
  {
  }

  // ---- the cleanup loop ------------------------------------------------------------------

  /** Deletes one bounded batch of expired nonces, oldest expiry first. */
  method ReclaimNonces(before: map<NonceKey, int>, now: int) returns (rows: map<NonceKey, int>)
    ensures NonceCleanup(before, rows, now)
    ensures forall k :: k in rows ==> k in before && rows[k] == before[k]
    ensures forall k, j :: k in before && k !in rows && j in rows ==> before[k] <= now && before[k] <= rows[j]
    ensures |before| - |rows| <= 32 && (|before| - |rows| < 32 ==> forall k :: k in rows ==> now < rows[k])
  {
    hide CleanedSoFar;
    rows := before;
    ghost var removed: set<NonceKey> := {};
    var count := 0;
    CleanupStarts(before, now);
    while count < NONCE_CLEANUP_BATCH && exists k :: k in rows && rows[k] <= now
      invariant CleanedSoFar(before, rows, removed, now) && count == |removed| && count <= NONCE_CLEANUP_BATCH
      decreases NONCE_CLEANUP_BATCH - count
    {
      OldestNonce(rows, now);
      var oldest: NonceKey :| IsOldestNonce(rows, oldest, now);
      CleanOneMore(before, rows, removed, oldest, now);
      rows := rows - {oldest};
      removed := removed + {oldest};
      count := count + 1;
    }
    CleanupEnds(before, rows, removed, now);
    assert before.Keys == rows.Keys + (before.Keys - rows.Keys);
    assert |before| == |before.Keys| && |rows| == |rows.Keys|;
  }

  /** The same cleanup as one relation, for the batches that begin with it. */
  method SweepOldNonces(before: map<NonceKey, int>, now: int) returns (rows: map<NonceKey, int>)
    ensures NonceCleanup(before, rows, now)
  {
    hide NonceCleanup;
    rows := ReclaimNonces(before, now);
  }

  predicate IsOldestNonce(rows: map<NonceKey, int>, oldest: NonceKey, now: int) {
    oldest in rows && rows[oldest] <= now && forall j :: j in rows ==> rows[oldest] <= rows[j]
  }

  lemma OldestNonce(rows: map<NonceKey, int>, now: int)
    requires exists k :: k in rows && rows[k] <= now
    ensures exists oldest :: IsOldestNonce(rows, oldest, now)
    decreases |rows|
  {
    var k :| k in rows && rows[k] <= now;
    if exists j :: j in rows && rows[j] < rows[k] {
      var j :| j in rows && rows[j] < rows[k];
      var rest := rows - {k};
      assert j in rest && rest[j] <= now;
      OldestNonce(rest, now);
      var oldest :| IsOldestNonce(rest, oldest, now);
      assert rest[oldest] <= rest[j];
      assert forall i :: i in rows ==> i == k || i in rest;
      assert IsOldestNonce(rows, oldest, now);
    } else {
      assert IsOldestNonce(rows, k, now);
    }
  }

  ghost predicate CleanedSoFar(
    before: map<NonceKey, int>, after: map<NonceKey, int>, removed: set<NonceKey>, now: int)
  {
    && removed <= before.Keys && after == before - removed
    && (forall k :: k in removed ==> before[k] <= now)
    && (forall k, j :: k in removed && j in after ==> before[k] <= before[j])
  }

  lemma CleanupStarts(before: map<NonceKey, int>, now: int)
    ensures CleanedSoFar(before, before, {}, now)
  {
  }

  lemma CleanOneMore(
    before: map<NonceKey, int>, rows: map<NonceKey, int>, removed: set<NonceKey>, oldest: NonceKey, now: int)
    requires CleanedSoFar(before, rows, removed, now) && IsOldestNonce(rows, oldest, now)
    ensures CleanedSoFar(before, rows - {oldest}, removed + {oldest}, now) && oldest !in removed
  {
    assert before - (removed + {oldest}) == rows - {oldest};
  }

  lemma CleanupEnds(before: map<NonceKey, int>, after: map<NonceKey, int>, removed: set<NonceKey>, now: int)
    requires CleanedSoFar(before, after, removed, now) && |removed| <= NONCE_CLEANUP_BATCH
    requires |removed| < NONCE_CLEANUP_BATCH ==> !exists k :: k in after && after[k] <= now
    ensures NonceCleanup(before, after, now)
  {
    assert before.Keys - after.Keys == removed;
  }

  // ---- the schema never aborts a batch ----------------------------------------------------

  /** What the route table's own constraints and triggers demand of a new row. */
  ghost predicate Insertable(routes: map<string, Route>, p: Payload, live: bool) {
    && p.index !in routes
    && (forall i :: i in routes ==> routes[i].owner != p.owner || routes[i].token != p.token)
    && |routes| < MAX_RETAINED && |RoutesIn(routes, OwnedBy(p.owner))| < MAX_PER_OWNER
    && (live ==> |LiveRoutes(routes, OwnedBy(p.owner))| < MAX_LIVE_PER_OWNER)
  }

  /** The update of a conflicting row keeps its identity columns. */
  predicate OwnedRow(routes: map<string, Route>, p: Payload) {
    p.index in routes && routes[p.index].owner == p.owner && routes[p.index].token == p.token
  }

  /** Every decision that writes a row leaves the schema's constraints satisfied. */
  lemma DecidedRow(t: Tables, m: Mutation)
    ensures Decide(t, m) == Reservation ==> Insertable(t.routes, m.payload, true)
    ensures Decide(t, m) == Activation ==> m.payload.index in t.routes && t.routes[m.payload.index].state == Reserved
    ensures Decide(t, m) == Revocation && m.payload.operation == Revoke ==>
              if m.payload.index in t.routes then OwnedRow(t.routes, m.payload)
              else Insertable(t.routes, m.payload, false)
  {
  }

  /** An admitted receipt finds room in both receipt ceilings: its growth was counted, or a live route gave it. */
  lemma ReceiptHasRoom(t: Tables, m: Mutation)
    requires Fits(t, m.payload.owner, ReceiptGrowth(t, m))
    ensures |t.receipts| < MAX_RETAINED && |ReceiptsIn(t.receipts, OwnedBy(m.payload.owner))| < MAX_PER_OWNER
  {
    var p := m.payload;
    assert ReceiptsIn(t.receipts, Everywhere) == t.receipts.Keys && |t.receipts.Keys| == |t.receipts|;
    if ReceiptGrowth(t, m) == 0 {
      DecidedOwner(t, m);
      assert p.index in LiveRoutes(t.routes, Everywhere) && p.index in LiveRoutes(t.routes, OwnedBy(p.owner));
    }
  }

  /** A decision other than conflict is about a route of the request's own owner. */
  lemma DecidedOwner(t: Tables, m: Mutation)
    ensures m.payload.index in t.routes && Decide(t, m) != Conflict ==> Owns(t, m.payload)
  {
  }

  /** The combined nonce ceiling always leaves a slot for the nonce of an admitted mutation. */
  lemma NonceHasRoom(t: Tables, m: Mutation)
    requires Valid(t) && Admits(t, m)
    ensures |t.nonces| < NONCE_CAPACITY
  {
    if NonceGrowth(t, m.payload) == 0 {
      assert m.payload.index in LiveRoutes(t.routes, Everywhere);
    }
  }

  lemma ReceiptFacts(t: Tables, m: Mutation)
    ensures ReceiptFor(t, m).outcome == Decide(t, m) && ReceiptFor(t, m).commit == m.commit
  {
    hide Decide;
  }

  lemma AdmittedNonce(t: Tables, m: Mutation)
    requires Admits(t, m)
    ensures m.payload.owner in t.replay && NonceKey(m.payload.owner, m.nonce) !in t.nonces
  {
  }

  lemma TransactedIsMutated(before: Tables, nonces: map<NonceKey, int>, after: Tables, m: Mutation, reply: Reply)
    requires Valid(before) && NonceCleanup(before.nonces, nonces, m.now)
    requires Committed(before.(nonces := nonces), after, m, reply)
    ensures Valid(after) && Mutated(before, after, m, reply)
  {
    hide Valid, NonceCleanup, Committed;
    MutationKeepsValid(before, after, m, reply);
  }

  lemma CleanKeepsValid(t: Tables, nonces: map<NonceKey, int>, now: int)
    requires Valid(t) && NonceCleanup(t.nonces, nonces, now)
    ensures Valid(t.(nonces := nonces))
  {
    CleanNonces(t, nonces, now);
    HeldIgnoresNonces(t, t.(nonces := nonces));
  }

  /** The row read back is what the specified transaction answers. */
  lemma AppliedReply(t: Tables, m: Mutation)
    ensures m.payload.operation == Lookup ==> Applied(t, m).0 == t
    ensures var p := m.payload;
            var after := Applied(t, m).0;
            Applied(t, m).1 ==
              if KeyOf(p) in after.receipts then ReplyFrom(after.receipts[KeyOf(p)], p)
              else Answer(if p.operation == Lookup then NotFound else Unavailable, None, None, p.revision)
  {
    hide ReplyFrom, Fits, ReceiptGrowth, RouteEffect, GrantEffect;
  }
}
