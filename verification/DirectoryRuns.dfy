/**
 Runs of the directory tables: publications, expiries and checkpoint commits in
 any order, each complete or rolled back, beside the route mutations that share
 the replay and nonce tables.
 */
module DirectoryRuns {
  import opened Options
  import opened Decimals
  import A = AccessState
  import opened DirectoryState

  /** Unconfirmed is a committed batch whose reported change counts failed the caller's check. */
  datatype Reply = Refused | Accepted(visibleChanged: bool) | Unconfirmed | Aborted

  /** A signed publication commits its whole effect, nothing but the nonce cleanup, or nothing. */
  ghost predicate Persisted(before: Directory, after: Directory, p: Publication, reply: Reply) {
    if reply.Aborted? then after == before
    else exists nonces ::
      && A.NonceCleanup(before.nonces, nonces, p.now)
      && PersistedClean(before.(nonces := nonces), after, p, reply)
  }

  ghost predicate PersistedClean(clean: Directory, after: Directory, p: Publication, reply: Reply) {
    if reply.Refused? then after == clean
    else
      && Admits(clean, p) && after == Published(clean, p)
      && (p.owner.server in clean.presence || |clean.presence| < MAX_ENTRIES)
      && (reply.Accepted? ==> reply.visibleChanged == VisibleChange(clean, p))
  }

  function WithoutServer(d: Directory, server: string): Directory {
    d.(replay := map o | o in d.replay && o.server != server :: d.replay[o], presence := d.presence - {server},
       entries := d.entries - {server})
  }

  /** An operator deletes one identity: a shown listing leaves behind a new revision owed to the builder. */
  function Reset(d: Directory, server: string, now: nat): Directory {
    var gone := WithoutServer(d, server);
    if server in d.entries then
      gone.(revision := d.revision + 1, updatedAt := now, outbox := map[d.revision + 1 := now as int])
    else gone
  }

  datatype Event =
    | Publish(p: Publication, reply: Reply)
    | Expire(cutoff: int, now: int, token: string, expired: bool)
    | Commit(c: Checkpoint, token: string, committed: bool)
    | Retire(server: string, at: nat)
    | Elsewhere

  ghost predicate Step(a: Directory, e: Event, b: Directory) {
    match e
    case Publish(p, reply) => Persisted(a, b, p, reply)
    case Expire(cutoff, now, token, expired) => b == if expired then Expired(a, cutoff, now, token) else a
    case Commit(c, token, committed) =>
      && (committed ==> ValidCommit(c) && Committable(a, c))
      && b == if committed then Committed(a, c, token) else a
    case Retire(server, at) => b == Reset(a, server, at).(liveRoutes := b.liveRoutes)
    case Elsewhere => b == a.(replay := b.replay, nonces := b.nonces, liveRoutes := b.liveRoutes)
  }

  ghost predicate Run(states: seq<Directory>, events: seq<Event>) {
    && |states| == |events| + 1 && Consistent(states[0])
    && forall k :: 0 <= k < |events| ==> Step(states[k], events[k], states[k + 1])
  }

  // ---- one step ---------------------------------------------------------------------

  /** The revision moves whenever what the directory lists moves, and never back. */
  ghost predicate Advances(a: Directory, b: Directory) {
    && a.revision <= b.revision <= a.revision + 1
    && (a.revision == b.revision ==> b.entries == a.entries && b.updatedAt == a.updatedAt)
    && a.checkpoint.revision <= b.checkpoint.revision && a.checkpoint.generation <= b.checkpoint.generation
    && (a.checkpoint.generation == b.checkpoint.generation ==> b.checkpoint == a.checkpoint)
  }

  lemma PublishedAdvances(d: Directory, p: Publication)
    requires Listed(d.presence, d.entries)
    ensures Advances(d, Published(d, p))
  {
    hide VisibleChange, PresenceFor;
    if !VisibleChange(d, p) {
      QuietEntries(d, p);
    }
  }

  lemma QuietEntries(d: Directory, p: Publication)
    requires !VisibleChange(d, p)
    ensures (if p.isPublic then d.entries[p.owner.server := p.listing] else d.entries - {p.owner.server}) == d.entries
  {
  }

  lemma ExpiredAdvances(d: Directory, cutoff: int, now: int, token: string)
    requires Listed(d.presence, d.entries)
    ensures Advances(d, Expired(d, cutoff, now, token))
  {
    if StaleEntries(d, cutoff) == {} {
      forall s | s in d.entries
        ensures s !in Stale(d, cutoff)
      {
        assert s !in StaleEntries(d, cutoff);
      }
      assert d.entries - Stale(d, cutoff) == d.entries;
    }
  }

  lemma PersistedFacts(a: Directory, b: Directory, p: Publication, reply: Reply)
    requires Consistent(a) && Persisted(a, b, p, reply)
    ensures Consistent(b) && Advances(a, b)
  {
    hide Published, Listed, Acknowledged, NothingLost, Admits, VisibleChange, A.NonceCleanup;
    if !reply.Aborted? {
      var nonces :| A.NonceCleanup(a.nonces, nonces, p.now) && PersistedClean(a.(nonces := nonces), b, p, reply);
      var clean := a.(nonces := nonces);
      assert Consistent(clean);
      if !reply.Refused? {
        PublicationKeepsConsistent(clean, p);
        PublishedAdvances(clean, p);
      }
    }
  }

  /**
   What a publication changes of the shown directory, read off the tables: the
   server's own entry, or its row was too old to be shown and is fresh again.
   */
  predicate ShownChanges(a: Directory, b: Directory, p: Publication) {
    var s := p.owner.server;
    b.entries != a.entries || (p.isPublic && s in a.presence && a.presence[s].lastSeen <= p.cutoff)
  }

  /**
   A committed publication in the tables' own fields: the entry becomes the
   listing or goes, every other row stays, and the revision moves by one, with
   its outbox row, exactly when what the directory shows has changed.
   */
  lemma CommittedPublication(a: Directory, b: Directory, p: Publication, reply: Reply)
    requires Listed(a.presence, a.entries) && Persisted(a, b, p, reply) && (reply.Accepted? || reply.Unconfirmed?)
    ensures b.entries == if p.isPublic then a.entries[p.owner.server := p.listing] else a.entries - {p.owner.server}
    ensures b.replay == a.replay[p.owner := A.Replay(p.sequence, p.nonce, p.commit)]
    ensures A.NonceKey(p.owner, p.nonce) in b.nonces && b.nonces[A.NonceKey(p.owner, p.nonce)] == p.nonceExpiresAt
    ensures b.checkpoint == a.checkpoint && b.history == a.history && b.expiry == a.expiry
    ensures var changed := ShownChanges(a, b, p);
            && (reply.Accepted? ==> reply.visibleChanged == changed)
            && b.revision == (if changed then a.revision + 1 else a.revision)
            && b.outbox == (if changed then map[a.revision + 1 := p.now] else a.outbox)
            && b.updatedAt == (if changed && p.now > a.updatedAt then p.now else a.updatedAt)
            && b.presence == a.presence[p.owner.server := Presence(p.now, p.generation, p.tokenHash, p.private,
                 p.commit, a.revision, if changed then Some(a.revision + 1) else None)]
  {
    hide A.NonceCleanup, Admits, VisibleChange, Shown;
    var nonces :| A.NonceCleanup(a.nonces, nonces, p.now) && PersistedClean(a.(nonces := nonces), b, p, reply);
    var clean := a.(nonces := nonces);
    ShownAs(clean, p);
  }

  lemma ShownAs(d: Directory, p: Publication)
    requires Listed(d.presence, d.entries)
    ensures var after := Published(d, p);
            var changed := ShownChanges(d, after, p);
            && after.entries == (if p.isPublic then d.entries[p.owner.server := p.listing]
                                 else d.entries - {p.owner.server})
            && VisibleChange(d, p) == changed
            && after.revision == (if changed then d.revision + 1 else d.revision)
            && after.outbox == (if changed then map[d.revision + 1 := p.now] else d.outbox)
            && after.updatedAt == (if changed && p.now > d.updatedAt then p.now else d.updatedAt)
            && after.checkpoint == d.checkpoint && after.history == d.history && after.expiry == d.expiry
  {
    hide PresenceFor, Shown;
    ShownTo(d, VisibleChange(d, p), p.now);
    EntryMoves(d, p);
  }

  lemma ShownTo(d: Directory, visible: bool, now: int)
    ensures var after := Shown(d, visible, now);
            && after.revision == (if visible then d.revision + 1 else d.revision)
            && after.outbox == (if visible then map[d.revision + 1 := now] else d.outbox)
            && after.updatedAt == (if visible && now > d.updatedAt then now else d.updatedAt)
            && after.checkpoint == d.checkpoint && after.history == d.history && after.expiry == d.expiry
  {
  }

  lemma EntryMoves(d: Directory, p: Publication)
    requires Listed(d.presence, d.entries)
    ensures var s := p.owner.server;
            var entries := if p.isPublic then d.entries[s := p.listing] else d.entries - {s};
            VisibleChange(d, p) <==>
              entries != d.entries || (p.isPublic && s in d.presence && d.presence[s].lastSeen <= p.cutoff)
  {
    var s := p.owner.server;
    if p.isPublic {
      assert s in d.entries && d.entries[s] == p.listing <==> d.entries[s := p.listing] == d.entries;
    } else {
      assert s in d.entries <==> d.entries - {s} != d.entries;
    }
  }

  /**
   An expiry in the tables' own fields: exactly the rows not seen since the
   cutoff go, with their entries, and the revision moves by one, with its
   outbox row, exactly when an entry went.
   */
  lemma ExpiredAs(a: Directory, cutoff: int, now: int, token: string)
    requires Listed(a.presence, a.entries)
    ensures var b := Expired(a, cutoff, now, token);
            && (forall s :: s in b.presence <==> s in a.presence && a.presence[s].lastSeen > cutoff)
            && (forall s :: s in b.presence ==> b.presence[s] == a.presence[s])
            && (forall s :: s in b.entries <==> s in a.entries && a.presence[s].lastSeen > cutoff)
            && (forall s :: s in b.entries ==> b.entries[s] == a.entries[s])
            && b.revision == (if b.entries != a.entries then a.revision + 1 else a.revision)
            && b.outbox == (if b.entries != a.entries then map[a.revision + 1 := now] else a.outbox)
            && b.updatedAt == (if b.entries != a.entries && now > a.updatedAt then now else a.updatedAt)
            && b.checkpoint == a.checkpoint && b.history == a.history
            && b.replay == a.replay && b.nonces == a.nonces && b.liveRoutes == a.liveRoutes
  {
    hide Shown, MarkerFor;
    var b := Expired(a, cutoff, now, token);
    ShownTo(a, StaleEntries(a, cutoff) != {}, now);
    ShownKeepsRows(a, StaleEntries(a, cutoff) != {}, now);
    if StaleEntries(a, cutoff) != {} {
      var s :| s in StaleEntries(a, cutoff);
      assert s in a.entries && s !in b.entries;
    } else {
      forall s | s in a.entries
        ensures s !in Stale(a, cutoff)
      {
        assert s !in StaleEntries(a, cutoff);
      }
      assert b.entries == a.entries;
    }
  }

  lemma ShownKeepsRows(d: Directory, visible: bool, now: int)
    ensures var after := Shown(d, visible, now);
            && after.presence == d.presence && after.entries == d.entries && after.replay == d.replay
            && after.nonces == d.nonces && after.liveRoutes == d.liveRoutes
  {
  }

  lemma StepFacts(a: Directory, e: Event, b: Directory)
    requires Consistent(a) && Step(a, e, b)
    ensures Consistent(b) && Advances(a, b)
  {
    hide Persisted, Expired, Committed, Reset, Listed, Acknowledged, NothingLost, Committable, ValidCommit;
    match e
    case Publish(p, reply) =>
      PersistedFacts(a, b, p, reply);
    case Expire(cutoff, now, token, expired) =>
      if expired {
        ExpiryKeepsConsistent(a, cutoff, now, token);
        ExpiredAdvances(a, cutoff, now, token);
      }
    case Commit(c, token, committed) =>
      if committed {
        CommitKeepsConsistent(a, c, token);
        CommittedAdvances(a, c, token);
      }
    case Retire(server, at) =>
      ResetFacts(a, server, at);
    case Elsewhere =>
  }

  lemma FewerRows(presence: map<string, Presence>, entries: map<string, Listing>, server: string)
    requires Listed(presence, entries)
    ensures Listed(presence - {server}, entries - {server})
    ensures server !in entries ==> entries - {server} == entries
  {
    var fewer := presence - {server};
    A.Subsets(fewer.Keys, presence.Keys);
    assert |fewer| == |fewer.Keys| && |presence| == |presence.Keys|;
  }

  lemma FewerFacts(d: Directory, server: string)
    requires Consistent(d)
    ensures Consistent(WithoutServer(d, server)) && WithoutServer(d, server).checkpoint == d.checkpoint
    ensures WithoutServer(d, server).revision == d.revision && WithoutServer(d, server).updatedAt == d.updatedAt
    ensures server !in d.entries ==> WithoutServer(d, server).entries == d.entries
  {
    hide Acknowledged, NothingLost, Listed;
    FewerRows(d.presence, d.entries, server);
  }

  lemma ResetFacts(d: Directory, server: string, now: nat)
    requires Consistent(d)
    ensures Consistent(Reset(d, server, now)) && Advances(d, Reset(d, server, now))
  {
    hide Acknowledged, Listed, WithoutServer;
    FewerFacts(d, server);
  }

  lemma CommittedAdvances(d: Directory, c: Checkpoint, token: string)
    requires Consistent(d) && Committable(d, c)
    ensures Advances(d, Committed(d, c, token))
  {
    hide Retain;
  }

  // ---- whole runs ---------------------------------------------------------------------

  /**
   No visible update is lost: in every state of every run the checkpoint is not
   ahead, and the outbox holds exactly the newest revision while it is behind.
   */
  lemma {:induction false} RunKeepsConsistent(states: seq<Directory>, events: seq<Event>, k: nat)
    requires Run(states, events) && k < |states|
    ensures Consistent(states[k])
  {
    hide Step, Consistent;
    if k > 0 {
      RunKeepsConsistent(states, events, k - 1);
      StepFacts(states[k - 1], events[k - 1], states[k]);
    }
  }

  /** Between two states of equal revision the listing never changed. */
  lemma {:induction false} RevisionFixesListing(states: seq<Directory>, events: seq<Event>, i: nat, j: nat)
    requires Run(states, events) && i <= j < |states|
    ensures states[i].revision <= states[j].revision
    ensures states[i].revision == states[j].revision ==>
              states[i].entries == states[j].entries && states[i].updatedAt == states[j].updatedAt
    ensures states[i].checkpoint.generation <= states[j].checkpoint.generation
    ensures states[i].checkpoint.generation == states[j].checkpoint.generation ==>
              states[i].checkpoint == states[j].checkpoint
    decreases j
  {
    hide Step, Consistent;
    if i < j {
      RevisionFixesListing(states, events, i, j - 1);
      RunKeepsConsistent(states, events, j - 1);
      StepFacts(states[j - 1], events[j - 1], states[j]);
    }
  }

  /**
   A builder that read the listing in state i and committed it in step k has
   published what state j shows, for every later j whose outbox is empty and
   whose checkpoint is still that commit.
   */
  lemma PublishedListingIsCurrent(states: seq<Directory>, events: seq<Event>, i: nat, k: nat, j: nat)
    requires Run(states, events) && i <= k < j < |states|
    requires events[k].Commit? && events[k].committed && events[k].c.revision == states[i].revision
    requires states[j].checkpoint.generation == events[k].c.generation
    requires states[j].outbox == map[]
    ensures states[j].entries == states[i].entries && states[j].checkpoint == events[k].c
  {
    hide Consistent;
    RunKeepsConsistent(states, events, j);
    RevisionFixesListing(states, events, k + 1, j);
    CommitStep(states[k], events[k], states[k + 1]);
    OutboxSaysBehind(states[j]);
    RevisionFixesListing(states, events, i, j);
  }

  lemma CommitStep(a: Directory, e: Event, b: Directory)
    requires Step(a, e, b) && e.Commit? && e.committed
    ensures b.checkpoint == e.c && b.revision == a.revision == e.c.revision && b.entries == a.entries
  {
    hide Retain;
  }

  lemma OutboxSaysBehind(d: Directory)
    requires Consistent(d)
    ensures d.outbox == map[] <==> d.checkpoint.revision == d.revision
    ensures d.checkpoint.revision < d.revision ==> d.outbox.Keys == {d.revision}
  {
    if d.outbox != map[] {
      assert exists r :: r in d.outbox;
    }
  }
}
