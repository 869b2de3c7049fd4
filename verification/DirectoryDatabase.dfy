/**
 The directory transactions as the database runs them, statement by statement.
 Any of their writes may be silently ignored; the final assertion row makes the
 whole batch roll back unless its complete effect is in place.
 */
module DirectoryDatabase {
  import opened Options
  import opened Decimals
  import A = AccessState
  import Cleanup = AccessDatabase
  import opened DirectoryState
  import opened DirectoryRuns

  /** The writes of the three batches that a trigger could ignore. */
  datatype Write =
    | ReplayRow | NonceRow | PresenceRow | RevisionRow | OutboxRow | Coalescing | EntryRow
    | MarkerRow | EntryDeletion | PresenceDeletion
    | CheckpointRow | HistoryTrim | HistoryRow | OutboxDeletion

  // ---- the publication batch ---------------------------------------------------------------

  predicate Won(d: Directory, p: Publication) {
    p.owner in d.replay && d.replay[p.owner].commit == p.commit
  }

  /** The presence row carries this transaction's commit token. */
  predicate Marked(d: Directory, p: Publication) {
    p.owner.server in d.presence && d.presence[p.owner.server].commit == p.commit
  }

  function AfterReplay(d: Directory, p: Publication): Directory {
    if Admits(d, p) then d.(replay := d.replay[p.owner := A.Replay(p.sequence, p.nonce, p.commit)]) else d
  }

  function AfterNonce(d: Directory, p: Publication): Directory {
    if Won(d, p) then d.(nonces := d.nonces[A.NonceKey(p.owner, p.nonce) := p.nonceExpiresAt]) else d
  }

  function AfterPresence(d: Directory, p: Publication): Directory {
    if Won(d, p) then d.(presence := d.presence[p.owner.server := PresenceFor(d, p)]) else d
  }

  predicate RaisesRevision(d: Directory, p: Publication) {
    Marked(d, p) && d.presence[p.owner.server].visible == Some(d.revision + 1)
  }

  function AfterRevision(d: Directory, p: Publication): Directory {
    if RaisesRevision(d, p) then d.(revision := d.revision + 1, updatedAt := Max(d.updatedAt, p.now)) else d
  }

  predicate QueuesOutbox(d: Directory, p: Publication) {
    && Marked(d, p)
    && var row := d.presence[p.owner.server];
       row.visible == Some(d.revision) && row.visible == Some(row.base + 1)
  }

  /** Inserting an outbox row fires the trigger that coalesces the older ones away. */
  function Queued(outbox: map<nat, int>, revision: nat, now: int, coalesces: bool): map<nat, int> {
    var queued := outbox[revision := now];
    if coalesces then map r | r in queued && r >= revision :: queued[r] else queued
  }

  function AfterOutbox(d: Directory, p: Publication, coalesces: bool): Directory {
    if QueuesOutbox(d, p) then d.(outbox := Queued(d.outbox, d.revision, p.now, coalesces)) else d
  }

  function AfterEntry(d: Directory, p: Publication): Directory {
    if Marked(d, p) then
      d.(entries := if p.isPublic then d.entries[p.owner.server := p.listing] else d.entries - {p.owner.server})
    else d
  }

  /** What both assertions demand of the revision and outbox: exactly the recorded transition. */
  predicate RevisionShown(visible: Option<nat>, base: nat, revision: nat, outbox: map<nat, int>, now: int) {
    if visible.None? then revision == base
    else
      && visible.value == base + 1 && revision == visible.value
      && revision in outbox && outbox[revision] == now && forall r :: r in outbox ==> r == revision
  }

  predicate PresenceAsserted(d: Directory, p: Publication) {
    && Marked(d, p)
    && var row := d.presence[p.owner.server];
    && row.lastSeen == p.now && row.generation == p.generation && row.tokenHash == p.tokenHash
    && row.private == p.private
    && RevisionShown(row.visible, row.base, d.revision, d.outbox, p.now)
  }

  /** The assertion row is inserted, and aborts the batch, exactly when this is false. */
  predicate PublicationAsserted(d: Directory, p: Publication) {
    Won(d, p) ==>
      && A.NonceKey(p.owner, p.nonce) in d.nonces
      && d.nonces[A.NonceKey(p.owner, p.nonce)] == p.nonceExpiresAt
      && PresenceAsserted(d, p)
      && (if p.isPublic then p.owner.server in d.entries && d.entries[p.owner.server] == p.listing
          else p.owner.server !in d.entries)
  }

  function Unless(ignored: bool, d: Directory, after: Directory): Directory {
    if ignored then d else after
  }

  /** The rows after the whole batch, before its assertion is evaluated. */
  function PublicationBatch(d: Directory, p: Publication, ignored: set<Write>): Directory {
    var d1 := Unless(ReplayRow in ignored, d, AfterReplay(d, p));
    var d2 := Unless(NonceRow in ignored, d1, AfterNonce(d1, p));
    var d3 := Unless(PresenceRow in ignored, d2, AfterPresence(d2, p));
    var d4 := Unless(RevisionRow in ignored, d3, AfterRevision(d3, p));
    var d5 := Unless(OutboxRow in ignored, d4, AfterOutbox(d4, p, Coalescing !in ignored));
    Unless(EntryRow in ignored, d5, AfterEntry(d5, p))
  }

  ghost predicate Fresh(d: Directory, commit: string) {
    && (forall o :: o in d.replay ==> d.replay[o].commit != commit)
    && (forall s :: s in d.presence ==> d.presence[s].commit != commit)
  }

  lemma RefusedBatch(d: Directory, p: Publication, ignored: set<Write>)
    requires Fresh(d, p.commit) && (ReplayRow in ignored || !Admits(d, p))
    ensures PublicationBatch(d, p, ignored) == d && PublicationAsserted(d, p) && !Won(d, p)
  {
    hide Admits, PresenceAsserted, VisibleChange, Queued;
  }

  /** The presence write carries the revision it saw and the one it will make visible. */
  lemma PresenceBatch(d: Directory, p: Publication, ignored: set<Write>)
    requires Fresh(d, p.commit) && Admits(d, p) && ReplayRow !in ignored
    ensures var d1 := AfterReplay(d, p);
            var d2 := Unless(NonceRow in ignored, d1, AfterNonce(d1, p));
            var d3 := Unless(PresenceRow in ignored, d2, AfterPresence(d2, p));
            && Won(d3, p) && d3.revision == d.revision && d3.updatedAt == d.updatedAt && d3.outbox == d.outbox
            && d3.entries == d.entries && d3.replay == Published(d, p).replay
            && (NonceRow in ignored ==> A.NonceKey(p.owner, p.nonce) !in d3.nonces)
            && (NonceRow !in ignored ==> d3.nonces == Published(d, p).nonces)
            && (PresenceRow in ignored ==> !Marked(d3, p))
            && (PresenceRow !in ignored ==> Marked(d3, p) && d3.presence == Published(d, p).presence)
            && d3 == d.(replay := d3.replay, nonces := d3.nonces, presence := d3.presence)
  {
    VisibleIgnoresReplay(d, p);
  }

  lemma VisibleIgnoresReplay(d: Directory, p: Publication)
    ensures forall replay, nonces :: PresenceFor(d.(replay := replay, nonces := nonces), p) == PresenceFor(d, p)
  {
  }

  lemma QueuedExact(outbox: map<nat, int>, revision: nat, now: int, coalesces: bool)
    requires forall r :: r in outbox ==> r < revision
    ensures var queued := Queued(outbox, revision, now, coalesces);
            && revision in queued && queued[revision] == now
            && (coalesces ==> queued == map[revision := now])
            && ((forall r :: r in queued ==> r == revision) ==> queued == map[revision := now])
  {
  }

  /** The two guarded writes behind a recorded transition, and what its assertion then pins down. */
  lemma ShownExactly(
    revision: nat, outbox: map<nat, int>, published: nat, visible: bool, raises: bool, queues: bool, coalesces: bool,
    now: int)
    requires NothingLost(revision, outbox, published)
    ensures var recorded := if visible then Some(revision + 1) else None;
            var after := if raises && visible then revision + 1 else revision;
            var queued :=
              if queues && recorded == Some(after) then Queued(outbox, after, now, coalesces) else outbox;
            && (RevisionShown(recorded, revision, after, queued, now) ==>
                  after == (if visible then revision + 1 else revision) &&
                  queued == (if visible then map[revision + 1 := now] else outbox))
            && (raises && queues && coalesces ==> RevisionShown(recorded, revision, after, queued, now))
  {
    hide Queued;
    QueuedExact(outbox, revision + 1, now, coalesces);
  }

  /** What the revision and outbox writes leave behind, once the presence row is asserted. */
  lemma RevisionStage(d: Directory, d3: Directory, p: Publication, ignored: set<Write>)
    requires NothingLost(d.revision, d.outbox, d.checkpoint.revision)
    requires Marked(d3, p) && d3.presence[p.owner.server] == PresenceFor(d, p)
    requires d3.revision == d.revision && d3.updatedAt == d.updatedAt && d3.outbox == d.outbox
    ensures var d4 := Unless(RevisionRow in ignored, d3, AfterRevision(d3, p));
            var d5 := Unless(OutboxRow in ignored, d4, AfterOutbox(d4, p, Coalescing !in ignored));
            var shown := Shown(d, VisibleChange(d, p), p.now);
            && d5 == d3.(revision := d5.revision, updatedAt := d5.updatedAt, outbox := d5.outbox)
            && (PresenceAsserted(d5, p) ==>
                 d5.revision == shown.revision && d5.updatedAt == shown.updatedAt && d5.outbox == shown.outbox)
            && (ignored == {} ==> PresenceAsserted(d5, p))
  {
    hide VisibleChange, Queued, NothingLost, RevisionShown;
    ShownExactly(d.revision, d.outbox, d.checkpoint.revision, VisibleChange(d, p), RevisionRow !in ignored,
                 OutboxRow !in ignored, Coalescing !in ignored, p.now);
  }

  /** The assertion is about this server's entry, and the entry write touches nothing else. */
  lemma EntryStage(d5: Directory, p: Publication, ignored: set<Write>)
    requires Marked(d5, p)
    ensures var after := Unless(EntryRow in ignored, d5, AfterEntry(d5, p));
            && after == d5.(entries := after.entries)
            && (PresenceAsserted(after, p) <==> PresenceAsserted(d5, p))
            && (PublicationAsserted(after, p) && Won(after, p) ==>
                 after.entries == if p.isPublic then d5.entries[p.owner.server := p.listing]
                                  else d5.entries - {p.owner.server})
            && (EntryRow !in ignored && Won(d5, p) ==>
                 (PublicationAsserted(after, p) <==>
                   && PresenceAsserted(d5, p) && A.NonceKey(p.owner, p.nonce) in d5.nonces
                   && d5.nonces[A.NonceKey(p.owner, p.nonce)] == p.nonceExpiresAt))
  {
  }

  /**
   All or nothing: whichever writes were ignored, a publication batch whose
   assertion holds has exactly the complete effect of the publication.
   */
  lemma AssertedPublicationIsComplete(d: Directory, p: Publication, ignored: set<Write>)
    requires Fresh(d, p.commit) && Admits(d, p) && ReplayRow !in ignored
    requires NothingLost(d.revision, d.outbox, d.checkpoint.revision)
    ensures PublicationAsserted(PublicationBatch(d, p, ignored), p) ==>
        PublicationBatch(d, p, ignored) == Published(d, p)
    ensures ignored == {} ==> PublicationAsserted(PublicationBatch(d, p, ignored), p)
    ensures PresenceRow in ignored ==> !PublicationAsserted(PublicationBatch(d, p, ignored), p)
    ensures Won(PublicationBatch(d, p, ignored), p)
  {
    hide Admits, VisibleChange, Shown, PresenceFor, Queued, NothingLost, AfterReplay, AfterNonce, AfterPresence,
      AfterRevision, AfterOutbox, PresenceAsserted, AfterEntry, Fresh;
    PresenceBatch(d, p, ignored);
    var d1 := Unless(ReplayRow in ignored, d, AfterReplay(d, p));
    var d2 := Unless(NonceRow in ignored, d1, AfterNonce(d1, p));
    var d3 := Unless(PresenceRow in ignored, d2, AfterPresence(d2, p));
    var d4 := Unless(RevisionRow in ignored, d3, AfterRevision(d3, p));
    var d5 := Unless(OutboxRow in ignored, d4, AfterOutbox(d4, p, Coalescing !in ignored));
    if PresenceRow in ignored {
      UnmarkedStages(d3, p, ignored);
    } else {
      RevisionStage(d, d3, p, ignored);
      EntryStage(d5, p, ignored);
      ShownKeeps(d, VisibleChange(d, p), p.now);
    }
  }

  lemma ShownKeeps(d: Directory, visible: bool, now: int)
    ensures var shown := Shown(d, visible, now);
            shown == d.(revision := shown.revision, updatedAt := shown.updatedAt, outbox := shown.outbox)
  {
  }

  lemma UnmarkedStages(d3: Directory, p: Publication, ignored: set<Write>)
    requires !Marked(d3, p) && Won(d3, p)
    ensures var d4 := Unless(RevisionRow in ignored, d3, AfterRevision(d3, p));
            var d5 := Unless(OutboxRow in ignored, d4, AfterOutbox(d4, p, Coalescing !in ignored));
            Unless(EntryRow in ignored, d5, AfterEntry(d5, p)) == d3 && !PublicationAsserted(d3, p)
  {
  }

  // ---- the expiry batch ------------------------------------------------------------------------

  predicate HasMarker(d: Directory, token: string) {
    d.expiry.Some? && d.expiry.value.token == token
  }

  function AfterMarker(d: Directory, cutoff: int, now: int, token: string): Directory {
    d.(expiry := Some(MarkerFor(d, cutoff, now, token)))
  }

  predicate MarksVisible(d: Directory, token: string) {
    HasMarker(d, token) && d.expiry.value.visible == Some(d.revision + 1)
  }

  function AfterExpiryRevision(d: Directory, now: int, token: string): Directory {
    if MarksVisible(d, token) then d.(revision := d.revision + 1, updatedAt := Max(d.updatedAt, now)) else d
  }

  predicate QueuesExpiry(d: Directory, token: string) {
    && HasMarker(d, token) && d.expiry.value.visible == Some(d.revision)
    && d.expiry.value.visible == Some(d.expiry.value.base + 1)
  }

  function AfterExpiryOutbox(d: Directory, now: int, token: string, coalesces: bool): Directory {
    if QueuesExpiry(d, token) then d.(outbox := Queued(d.outbox, d.revision, now, coalesces)) else d
  }

  function AfterEntryDeletion(d: Directory, cutoff: int): Directory {
    d.(entries := d.entries - Stale(d, cutoff))
  }

  /** Deleting a presence row cascades to its entry. */
  function AfterPresenceDeletion(d: Directory, cutoff: int): Directory {
    d.(presence := d.presence - Stale(d, cutoff), entries := d.entries - Stale(d, cutoff))
  }

  predicate RevisionAsserted(d: Directory, token: string) {
    && HasMarker(d, token)
    && var m := d.expiry.value;
       (m.visible.None? <==> m.entries == 0) && RevisionShown(m.visible, m.base, d.revision, d.outbox, m.committedAt)
  }

  predicate ExpiryAsserted(d: Directory, cutoff: int, now: int, token: string) {
    && RevisionAsserted(d, token)
    && d.expiry.value.cutoff == cutoff && d.expiry.value.committedAt == now
    && Stale(d, cutoff) == {} && StaleEntries(d, cutoff) == {}
  }

  function ExpiryBatch(d: Directory, cutoff: int, now: int, token: string, ignored: set<Write>): Directory {
    var d1 := Unless(MarkerRow in ignored, d, AfterMarker(d, cutoff, now, token));
    var d2 := Unless(RevisionRow in ignored, d1, AfterExpiryRevision(d1, now, token));
    var d3 := Unless(OutboxRow in ignored, d2, AfterExpiryOutbox(d2, now, token, Coalescing !in ignored));
    var d4 := Unless(EntryDeletion in ignored, d3, AfterEntryDeletion(d3, cutoff));
    Unless(PresenceDeletion in ignored, d4, AfterPresenceDeletion(d4, cutoff))
  }

  lemma MarkedExpiryStage(d: Directory, d1: Directory, visible: bool, now: int, token: string, ignored: set<Write>)
    requires NothingLost(d.revision, d.outbox, d.checkpoint.revision) && HasMarker(d1, token)
    requires d1 == d.(expiry := d1.expiry)
    requires var m := d1.expiry.value;
             && m.base == d.revision && m.visible == (if visible then Some(d.revision + 1) else None)
             && (m.entries > 0 <==> visible) && m.committedAt == now
    ensures var d2 := Unless(RevisionRow in ignored, d1, AfterExpiryRevision(d1, now, token));
            var d3 := Unless(OutboxRow in ignored, d2, AfterExpiryOutbox(d2, now, token, Coalescing !in ignored));
            && d3 == d1.(revision := d3.revision, updatedAt := d3.updatedAt, outbox := d3.outbox)
            && (RevisionAsserted(d3, token) ==>
                  var shown := Shown(d, visible, now);
                  d3.revision == shown.revision && d3.updatedAt == shown.updatedAt && d3.outbox == shown.outbox)
            && (ignored == {} ==> RevisionAsserted(d3, token))
  {
    hide Queued, NothingLost, RevisionShown;
    ShownExactly(d.revision, d.outbox, d.checkpoint.revision, visible, RevisionRow !in ignored,
                 OutboxRow !in ignored, Coalescing !in ignored, now);
  }

  lemma UnmarkedExpiryStage(d: Directory, now: int, token: string, ignored: set<Write>)
    requires !HasMarker(d, token)
    ensures var d2 := Unless(RevisionRow in ignored, d, AfterExpiryRevision(d, now, token));
            Unless(OutboxRow in ignored, d2, AfterExpiryOutbox(d2, now, token, Coalescing !in ignored)) == d
    ensures !RevisionAsserted(d, token)
  {
  }

  lemma MarkerFacts(d: Directory, cutoff: int, now: int, token: string)
    ensures var d1 := AfterMarker(d, cutoff, now, token);
            && HasMarker(d1, token) && d1 == d.(expiry := Some(MarkerFor(d, cutoff, now, token)))
    ensures var m := MarkerFor(d, cutoff, now, token);
            var visible := StaleEntries(d, cutoff) != {};
            && m.base == d.revision && m.visible == (if visible then Some(d.revision + 1) else None)
            && (m.entries > 0 <==> visible) && m.committedAt == now
  {
    hide StaleEntries, Stale;
  }

  lemma ExpiryRevisionStage(d: Directory, cutoff: int, now: int, token: string, ignored: set<Write>)
    requires NothingLost(d.revision, d.outbox, d.checkpoint.revision) && !HasMarker(d, token)
    ensures var d1 := Unless(MarkerRow in ignored, d, AfterMarker(d, cutoff, now, token));
            var d2 := Unless(RevisionRow in ignored, d1, AfterExpiryRevision(d1, now, token));
            var d3 := Unless(OutboxRow in ignored, d2, AfterExpiryOutbox(d2, now, token, Coalescing !in ignored));
            && d3 == d.(revision := d3.revision, updatedAt := d3.updatedAt, outbox := d3.outbox, expiry := d3.expiry)
            && (RevisionAsserted(d3, token) ==>
                 && d3.expiry == Some(MarkerFor(d, cutoff, now, token))
                 && d3 == Shown(d, StaleEntries(d, cutoff) != {}, now).(expiry := d3.expiry))
            && (ignored == {} ==> RevisionAsserted(d3, token))
  {
    hide StaleEntries, MarkerFor, AfterMarker, AfterExpiryRevision, AfterExpiryOutbox, RevisionAsserted, Shown,
      HasMarker, NothingLost;
    if MarkerRow in ignored {
      UnmarkedExpiryStage(d, now, token, ignored);
    } else {
      MarkerFacts(d, cutoff, now, token);
      MarkedExpiryStage(d, AfterMarker(d, cutoff, now, token), StaleEntries(d, cutoff) != {}, now, token, ignored);
      ShownKeeps(d, StaleEntries(d, cutoff) != {}, now);
    }
  }

  lemma DeletionStage(d3: Directory, cutoff: int, ignored: set<Write>)
    requires d3.entries.Keys <= d3.presence.Keys
    ensures var d4 := Unless(EntryDeletion in ignored, d3, AfterEntryDeletion(d3, cutoff));
            var after := Unless(PresenceDeletion in ignored, d4, AfterPresenceDeletion(d4, cutoff));
            && after == d3.(presence := after.presence, entries := after.entries)
            && (Stale(after, cutoff) == {} ==>
                 after.presence == d3.presence - Stale(d3, cutoff) && after.entries == d3.entries - Stale(d3, cutoff))
            && (ignored == {} ==> Stale(after, cutoff) == {} && StaleEntries(after, cutoff) == {})
  {
    var d4 := Unless(EntryDeletion in ignored, d3, AfterEntryDeletion(d3, cutoff));
    var after := Unless(PresenceDeletion in ignored, d4, AfterPresenceDeletion(d4, cutoff));
    assert Stale(d4, cutoff) == Stale(d3, cutoff);
    if PresenceDeletion in ignored {
      assert Stale(after, cutoff) == Stale(d3, cutoff);
    }
  }

  lemma RevisionAssertedFrame(a: Directory, b: Directory, token: string)
    requires b == a.(presence := b.presence, entries := b.entries)
    ensures RevisionAsserted(a, token) <==> RevisionAsserted(b, token)
  {
  }

  /** All or nothing for an expiry. */
  lemma AssertedExpiryIsComplete(d: Directory, cutoff: int, now: int, token: string, ignored: set<Write>)
    requires Consistent(d) && !HasMarker(d, token)
    ensures ExpiryAsserted(ExpiryBatch(d, cutoff, now, token, ignored), cutoff, now, token) ==>
              ExpiryBatch(d, cutoff, now, token, ignored) == Expired(d, cutoff, now, token)
    ensures ignored == {} ==> ExpiryAsserted(ExpiryBatch(d, cutoff, now, token, ignored), cutoff, now, token)
  {
    hide NothingLost, Acknowledged, AfterMarker, AfterExpiryRevision, AfterExpiryOutbox, AfterEntryDeletion,
      AfterPresenceDeletion, RevisionAsserted, Shown, Stale, StaleEntries, HasMarker;
    ExpiryRevisionStage(d, cutoff, now, token, ignored);
    var d1 := Unless(MarkerRow in ignored, d, AfterMarker(d, cutoff, now, token));
    var d2 := Unless(RevisionRow in ignored, d1, AfterExpiryRevision(d1, now, token));
    var d3 := Unless(OutboxRow in ignored, d2, AfterExpiryOutbox(d2, now, token, Coalescing !in ignored));
    DeletionStage(d3, cutoff, ignored);
    RevisionAssertedFrame(d3, ExpiryBatch(d, cutoff, now, token, ignored), token);
    ShownKeeps(d, StaleEntries(d, cutoff) != {}, now);
    StaleFrame(d, d3, cutoff);
  }

  lemma StaleFrame(a: Directory, b: Directory, cutoff: int)
    requires a.presence == b.presence
    ensures Stale(a, cutoff) == Stale(b, cutoff)
  {
  }

  // ---- the checkpoint batch ------------------------------------------------------------------------

  function AfterCheckpoint(d: Directory, c: Checkpoint): Directory {
    if Committable(d, c) then d.(checkpoint := c) else d
  }

  predicate Current(d: Directory, c: Checkpoint) {
    d.checkpoint.generation == c.generation && d.checkpoint.revision == c.revision
  }

  function AfterTrim(d: Directory, c: Checkpoint): Directory {
    if Current(d, c) && c.generation !in d.history then
      d.(history := d.history - (d.history.Keys - Newest(d.history.Keys, MAX_HISTORY - 1)))
    else d
  }

  function AfterHistory(d: Directory, c: Checkpoint): Directory {
    if Current(d, c) then d.(history := d.history[c.generation := c.publishedAt]) else d
  }

  /** The ledger's capacity trigger aborts a ninth generation. */
  predicate HistoryAborts(d: Directory, c: Checkpoint) {
    Current(d, c) && c.generation !in d.history && |d.history| >= MAX_HISTORY
  }

  function AfterOutboxDeletion(d: Directory, c: Checkpoint): Directory {
    if Current(d, c) then d.(outbox := map r | r in d.outbox && r > c.revision :: d.outbox[r]) else d
  }

  predicate CommitAsserted(d: Directory, c: Checkpoint, token: string) {
    && d.committed == Some(CommitMarker(token, c.revision, c.generation))
    && d.checkpoint == c && d.revision == c.revision
    && c.generation in d.history && d.history[c.generation] == c.publishedAt
    && |d.history| <= MAX_HISTORY
    && forall r :: r in d.outbox ==> r > c.revision
  }

  function CommitPrefix(d: Directory, c: Checkpoint, token: string, ignored: set<Write>): Directory {
    var d1 := Unless(MarkerRow in ignored, d, d.(committed := Some(CommitMarker(token, c.revision, c.generation))));
    var d2 := Unless(CheckpointRow in ignored, d1, AfterCheckpoint(d1, c));
    Unless(HistoryTrim in ignored, d2, AfterTrim(d2, c))
  }

  function CommitSuffix(d: Directory, c: Checkpoint, ignored: set<Write>): Directory {
    var d4 := Unless(HistoryRow in ignored, d, AfterHistory(d, c));
    Unless(OutboxDeletion in ignored, d4, AfterOutboxDeletion(d4, c))
  }

  lemma NewestAll(h: set<nat>, n: nat)
    requires |h| <= n
    ensures Newest(h, n) == h
  {
    forall g | g in h
      ensures |Newer(h, g)| < n
    {
      A.Subsets(Newer(h, g), h - {g});
    }
  }

  /** A generation the ledger lacks finds at most seven others once it is trimmed. */
  lemma TrimmedHistory(h: map<nat, int>, c: Checkpoint)
    requires |h| <= MAX_HISTORY && c.generation !in h
    ensures var kept := h - (h.Keys - Newest(h.Keys, MAX_HISTORY - 1));
            && |kept| < MAX_HISTORY && c.generation !in kept
            && kept[c.generation := c.publishedAt] == Retain(h, c)
            && (|h| < MAX_HISTORY ==> kept == h)
  {
    hide Newer, Newest;
    var newest := Newest(h.Keys, MAX_HISTORY - 1);
    NewestBound(h.Keys, MAX_HISTORY - 1);
    NewestWithin(h.Keys);
    KeptKeys(h, newest);
    var kept := h - (h.Keys - newest);
    assert |kept| == |kept.Keys| && |h| == |h.Keys|;
    if |h| < MAX_HISTORY {
      NewestAll(h.Keys, MAX_HISTORY - 1);
      assert kept == h;
    }
  }

  lemma CommitPrefixFrame(d: Directory, c: Checkpoint, token: string, ignored: set<Write>)
    ensures var d3 := CommitPrefix(d, c, token, ignored);
            && d3 == d.(committed := d3.committed, checkpoint := d3.checkpoint, history := d3.history)
            && (MarkerRow in ignored ==> d3.committed == d.committed)
            && (MarkerRow !in ignored ==> d3.committed == Some(CommitMarker(token, c.revision, c.generation)))
            && (d3.checkpoint == d.checkpoint || (d3.checkpoint == c && Committable(d, c)))
            && (CheckpointRow !in ignored && Committable(d, c) ==> d3.checkpoint == c)
            && d3.history == Unless(HistoryTrim in ignored, d, AfterTrim(d.(checkpoint := d3.checkpoint), c)).history
  {
    hide AfterTrim, AfterCheckpoint, Committable, Unless;
    var marker := Some(CommitMarker(token, c.revision, c.generation));
    var d1 := Unless(MarkerRow in ignored, d, d.(committed := marker));
    var d2 := Unless(CheckpointRow in ignored, d1, AfterCheckpoint(d1, c));
    MarkerStage(d, marker, MarkerRow in ignored);
    CheckpointStage(d, d1, c, CheckpointRow in ignored);
    TrimStage(d.(checkpoint := d2.checkpoint), d, d2, c, HistoryTrim in ignored);
  }

  lemma MarkerStage(d: Directory, marker: Option<CommitMarker>, ignored: bool)
    ensures var d1 := Unless(ignored, d, d.(committed := marker));
            d1 == d.(committed := d1.committed) && d1.committed == if ignored then d.committed else marker
  {
  }

  lemma CheckpointStage(d: Directory, d1: Directory, c: Checkpoint, ignored: bool)
    requires d1 == d.(committed := d1.committed)
    ensures var d2 := Unless(ignored, d1, AfterCheckpoint(d1, c));
            && d2 == d1.(checkpoint := d2.checkpoint)
            && d2.checkpoint == if !ignored && Committable(d, c) then c else d.checkpoint
  {
  }

  lemma TrimStage(a: Directory, d: Directory, d2: Directory, c: Checkpoint, ignored: bool)
    requires a.checkpoint == d2.checkpoint && a.history == d2.history == d.history
    ensures var d3 := Unless(ignored, d2, AfterTrim(d2, c));
            d3 == d2.(history := d3.history) && d3.history == Unless(ignored, d, AfterTrim(a, c)).history
  {
    hide Newest;
  }

  /** The first half leaves the history trimmed for the new generation, or about to abort. */
  lemma CommitPrefixStage(d: Directory, c: Checkpoint, token: string, ignored: set<Write>)
    requires Consistent(d) && ValidCommit(c)
    ensures var d3 := CommitPrefix(d, c, token, ignored);
            && (d3.checkpoint == c && d.revision == c.revision && !HistoryAborts(d3, c) ==>
                  Committable(d, c) && d3.history[c.generation := c.publishedAt] == Retain(d.history, c))
            && (d3.checkpoint == c && c.generation in d3.history ==> d.checkpoint == c && d3.history == d.history)
            && (ignored == {} && Committable(d, c) ==> d3.checkpoint == c && !HistoryAborts(d3, c))
  {
    hide NothingLost, Listed, Newer, Newest, CommitPrefix;
    CommitPrefixFrame(d, c, token, ignored);
    if c.generation !in d.history {
      TrimmedHistory(d.history, c);
    }
  }

  lemma CommitSuffixStage(d3: Directory, c: Checkpoint, token: string, ignored: set<Write>)
    requires d3.checkpoint.generation == c.generation ==> !HistoryAborts(d3, c)
    ensures var after := CommitSuffix(d3, c, ignored);
            && after == d3.(history := after.history, outbox := after.outbox)
            && (CommitAsserted(after, c, token) ==>
                  && after.history == d3.history[c.generation := c.publishedAt]
                  && (forall r :: r in after.outbox ==> r in d3.outbox && r > c.revision)
                  && (HistoryRow in ignored ==> c.generation in d3.history))
            && (ignored == {} && Current(d3, c) ==>
                  && after.history == d3.history[c.generation := c.publishedAt]
                  && (forall r :: r in after.outbox ==> r > c.revision))
  {
  }

  /** All or nothing for a checkpoint: it commits exactly when the checkpoint may move, or not at all. */
  lemma AssertedCommitIsComplete(d: Directory, c: Checkpoint, token: string, ignored: set<Write>)
    requires Consistent(d) && ValidCommit(c)
    requires d.committed.Some? ==> d.committed.value.token != token
    ensures var d3 := CommitPrefix(d, c, token, ignored);
            var after := CommitSuffix(d3, c, ignored);
            && (!HistoryAborts(d3, c) && CommitAsserted(after, c, token) ==>
                  Committable(d, c) && after == Committed(d, c, token))
            && (ignored == {} && Committable(d, c) ==> !HistoryAborts(d3, c) && CommitAsserted(after, c, token))
  {
    hide Newer, Newest, CommitPrefix, CommitSuffix, Retain, Listed, Committable, Acknowledged, HistoryAborts, AfterTrim;
    var d3 := CommitPrefix(d, c, token, ignored);
    CommitPrefixFrame(d, c, token, ignored);
    CommitPrefixStage(d, c, token, ignored);
    if !HistoryAborts(d3, c) {
      CommitSuffixStage(d3, c, token, ignored);
      OutboxEmptied(d, c);
      CommittableFacts(d, c);
      AcknowledgedBound(d.history, d.checkpoint);
      RetainBound(d.history, c);
    }
  }

  lemma OutboxEmptied(d: Directory, c: Checkpoint)
    requires NothingLost(d.revision, d.outbox, d.checkpoint.revision)
    ensures d.revision == c.revision ==> forall r :: r in d.outbox ==> r <= c.revision
  {
  }

  lemma CommittableFacts(d: Directory, c: Checkpoint)
    ensures Committable(d, c) ==> d.revision == c.revision
  {
  }

  lemma AcknowledgedBound(history: map<nat, int>, c: Checkpoint)
    requires Acknowledged(history, c)
    ensures |history| <= MAX_HISTORY
  {
  }

  /** The row a queued outbox insert would collide with never exists. */
  lemma QueuedRowIsNew(d: Directory, d3: Directory, p: Publication, ignored: set<Write>)
    requires NothingLost(d.revision, d.outbox, d.checkpoint.revision)
    requires Marked(d3, p) ==> d3.presence[p.owner.server] == PresenceFor(d, p)
    requires d3.revision == d.revision && d3.outbox == d.outbox
    ensures var d4 := Unless(RevisionRow in ignored, d3, AfterRevision(d3, p));
            QueuesOutbox(d4, p) ==> d4.revision !in d4.outbox
  {
    hide VisibleChange;
  }

  lemma QueuedExpiryIsNew(d: Directory, cutoff: int, now: int, token: string, ignored: set<Write>)
    requires NothingLost(d.revision, d.outbox, d.checkpoint.revision) && !HasMarker(d, token)
    ensures var d1 := Unless(MarkerRow in ignored, d, AfterMarker(d, cutoff, now, token));
            var d2 := Unless(RevisionRow in ignored, d1, AfterExpiryRevision(d1, now, token));
            QueuesExpiry(d2, token) ==> d2.revision !in d2.outbox
  {
    hide StaleEntries, Stale;
  }

  lemma BeforeOutbox(d: Directory, p: Publication, ignored: set<Write>)
    requires Fresh(d, p.commit)
    ensures var d1 := Unless(ReplayRow in ignored, d, AfterReplay(d, p));
            var d2 := Unless(NonceRow in ignored, d1, AfterNonce(d1, p));
            var d3 := Unless(PresenceRow in ignored, d2, AfterPresence(d2, p));
            && d2.presence == d.presence && d3.revision == d.revision && d3.outbox == d.outbox
            && (Marked(d3, p) ==> d3.presence[p.owner.server] == PresenceFor(d, p))
  {
    hide Admits, VisibleChange, PresenceFor;
    if Admits(d, p) && ReplayRow !in ignored {
      PresenceBatch(d, p, ignored);
    } else {
      assert !Won(d, p) && !Marked(d, p);
    }
  }

  // ---- the tables, written in place -------------------------------------------------------------

  class Database {
    var replay: map<A.Owner, A.Replay>
    var nonces: map<A.NonceKey, int>
    var liveRoutes: nat
    var presence: map<string, Presence>
    var entries: map<string, Listing>
    var revision: nat
    var updatedAt: nat
    var outbox: map<nat, int>
    var checkpoint: Checkpoint
    var history: map<nat, int>
    var expiry: Option<ExpiryMarker>
    var committed: Option<CommitMarker>

    function Contents(): Directory
      reads this
    {
      Directory(replay, nonces, liveRoutes, presence, entries, revision, updatedAt, outbox, checkpoint, history, expiry,
                committed)
    }

    constructor (d: Directory)
      ensures Contents() == d
    {
      replay, nonces, liveRoutes, presence, entries := d.replay, d.nonces, d.liveRoutes, d.presence, d.entries;
      revision, updatedAt, outbox := d.revision, d.updatedAt, d.outbox;
      checkpoint, history, expiry, committed := d.checkpoint, d.history, d.expiry, d.committed;
    }

    method Rollback(d: Directory)
      modifies this
      ensures Contents() == d
    {
      replay, nonces, liveRoutes, presence, entries := d.replay, d.nonces, d.liveRoutes, d.presence, d.entries;
      revision, updatedAt, outbox := d.revision, d.updatedAt, d.outbox;
      checkpoint, history, expiry, committed := d.checkpoint, d.history, d.expiry, d.committed;
    }

    // ---- publication statements ------------------------------------------------------------

    method StoreReplay(p: Publication, ignored: bool)
      modifies this`replay
      ensures Contents() == Unless(ignored, old(Contents()), AfterReplay(old(Contents()), p))
    {
      if !ignored && Admits(Contents(), p) {
        replay := replay[p.owner := A.Replay(p.sequence, p.nonce, p.commit)];
      }
    }

    method StoreNonce(p: Publication, ignored: bool)
      modifies this`nonces
      ensures Contents() == Unless(ignored, old(Contents()), AfterNonce(old(Contents()), p))
    {
      if !ignored && Won(Contents(), p) {
        nonces := nonces[A.NonceKey(p.owner, p.nonce) := p.nonceExpiresAt];
      }
    }

    /** The capacity trigger aborts the batch when a new server finds the profile full. */
    method StorePresence(p: Publication, ignored: bool) returns (aborts: bool)
      modifies this`presence
      ensures aborts <==> !ignored && old(Won(Contents(), p)) && p.owner.server !in old(presence) &&
                          |old(presence)| >= MAX_ENTRIES
      ensures !aborts ==> Contents() == Unless(ignored, old(Contents()), AfterPresence(old(Contents()), p))
    {
      hide VisibleChange;
      aborts := !ignored && Won(Contents(), p) && p.owner.server !in presence && |presence| >= MAX_ENTRIES;
      if !aborts && !ignored && Won(Contents(), p) {
        presence := presence[p.owner.server := PresenceFor(Contents(), p)];
      }
    }

    method RaiseRevision(p: Publication, ignored: bool)
      modifies this`revision, this`updatedAt
      ensures Contents() == Unless(ignored, old(Contents()), AfterRevision(old(Contents()), p))
    {
      if !ignored && RaisesRevision(Contents(), p) {
        revision, updatedAt := revision + 1, Max(updatedAt, p.now);
      }
    }

    /** A row already queued under this revision violates the primary key. */
    method QueueOutbox(p: Publication, ignored: bool, coalesces: bool) returns (aborts: bool)
      modifies this`outbox
      ensures aborts <==> !ignored && old(QueuesOutbox(Contents(), p)) && revision in old(outbox)
      ensures !aborts ==> Contents() == Unless(ignored, old(Contents()), AfterOutbox(old(Contents()), p, coalesces))
    {
      aborts := !ignored && QueuesOutbox(Contents(), p) && revision in outbox;
      if !aborts && !ignored && QueuesOutbox(Contents(), p) {
        outbox := Queued(outbox, revision, p.now, coalesces);
      }
    }

    method StoreEntry(p: Publication, ignored: bool)
      modifies this`entries
      ensures Contents() == Unless(ignored, old(Contents()), AfterEntry(old(Contents()), p))
    {
      if !ignored && Marked(Contents(), p) {
        if p.isPublic {
          entries := entries[p.owner.server := p.listing];
        } else {
          entries := entries - {p.owner.server};
        }
      }
    }

    /** The writes of a publication in order; an abort leaves the rest to the rollback. */
    method WritePublication(p: Publication, ignored: set<Write>) returns (aborts: bool)
      requires Fresh(Contents(), p.commit) && NothingLost(revision, outbox, checkpoint.revision)
      modifies this
      ensures aborts <==> PresenceRow !in ignored && ReplayRow !in ignored && old(Admits(Contents(), p)) &&
                          p.owner.server !in old(presence) && |old(presence)| >= MAX_ENTRIES
      ensures !aborts ==> Contents() == PublicationBatch(old(Contents()), p, ignored)
    {
      hide Admits, VisibleChange, Queued, AfterReplay, AfterNonce, AfterPresence, AfterRevision, AfterOutbox,
        AfterEntry,
        NothingLost, Fresh, PresenceFor, Won, Marked, QueuesOutbox, Unless;
      ghost var d := Contents();
      BeforeOutbox(d, p, ignored);
      StoreReplay(p, ReplayRow in ignored);
      StoreNonce(p, NonceRow in ignored);
      ghost var d2 := Contents();
      WonKnows(d, p, ignored);
      aborts := StorePresence(p, PresenceRow in ignored);
      if aborts {
        return;
      }
      ghost var d3 := Contents();
      RaiseRevision(p, RevisionRow in ignored);
      QueuedRowIsNew(d, d3, p, ignored);
      var collides := QueueOutbox(p, OutboxRow in ignored, Coalescing !in ignored);
      StoreEntry(p, EntryRow in ignored);
    }

    /**
     The signed publication. Whatever writes are ignored on the way, it ends as
     the complete publication, as the nonce cleanup alone, or as nothing.
     */
    method PersistSignedPublication(p: Publication, ignored: set<Write>) returns (reply: Reply)
      requires Consistent(Contents()) && Fresh(Contents(), p.commit)
      modifies this
      ensures Consistent(Contents()) && Persisted(old(Contents()), Contents(), p, reply)
      ensures reply.Accepted? || reply.Unconfirmed? ==>
                && entries == (if p.isPublic then old(entries)[p.owner.server := p.listing]
                               else old(entries) - {p.owner.server})
                && (reply.Accepted? ==> reply.visibleChanged == (revision != old(revision)))
                && (revision != old(revision) <==> ShownChanges(old(Contents()), Contents(), p))
                && (revision == old(revision) ==> outbox == old(outbox))
                && (revision != old(revision) ==> revision == old(revision) + 1 && outbox == map[revision := p.now])
      ensures reply.Accepted? && p.isPublic && p.owner.server in old(entries) && p.owner.server in old(presence)
              && old(entries)[p.owner.server] == p.listing && old(presence)[p.owner.server].lastSeen > p.cutoff ==>
                !reply.visibleChanged && revision == old(revision) && outbox == old(outbox)
      ensures reply.Accepted? && !p.isPublic && p.owner.server !in old(entries) ==>
                !reply.visibleChanged && revision == old(revision) && outbox == old(outbox)
      ensures ignored == {} ==> AnsweredByTheRows(old(Contents()), p, reply)
    {
      hide Consistent, A.NonceCleanup, Admits, VisibleChange, PublicationBatch, PublicationAsserted, Fresh, Won,
        Published, ShownChanges, Persisted, AnsweredByTheRows;
      var saved := Contents();
      nonces := Cleanup.SweepOldNonces(nonces, p.now);
      var clean := Contents();
      CleanKeeps(saved, clean.nonces, p.commit);
      var aborts := WritePublication(p, ignored);
      if !Admits(clean, p) || ReplayRow in ignored {
        RefusedBatch(clean, p, ignored);
      } else {
        AssertedPublicationIsComplete(clean, p, ignored);
      }
      if aborts || !PublicationAsserted(Contents(), p) {
        Rollback(saved);
        reply := Aborted;
      } else if !Won(Contents(), p) {
        reply := Refused;
      } else if EntryRow in ignored && p.isPublic {
        reply := Unconfirmed;
      } else {
        reply := Accepted(VisibleChange(clean, p));
      }
      if ignored == {} {
        AnsweredIs(saved, clean, p, reply);
      }
      PersistedIs(saved, clean, Contents(), p, reply);
      ShownBy(saved, Contents(), p, reply);
    }

    // ---- expiry ------------------------------------------------------------------------------

    method MarkExpiry(cutoff: int, now: int, token: string, ignored: bool)
      modifies this`expiry
      ensures Contents() == Unless(ignored, old(Contents()), AfterMarker(old(Contents()), cutoff, now, token))
    {
      hide Stale, StaleEntries;
      if !ignored {
        expiry := Some(MarkerFor(Contents(), cutoff, now, token));
      }
    }

    method RaiseExpiryRevision(now: int, token: string, ignored: bool)
      modifies this`revision, this`updatedAt
      ensures Contents() == Unless(ignored, old(Contents()), AfterExpiryRevision(old(Contents()), now, token))
    {
      if !ignored && MarksVisible(Contents(), token) {
        revision, updatedAt := revision + 1, Max(updatedAt, now);
      }
    }

    method QueueExpiry(now: int, token: string, ignored: bool, coalesces: bool) returns (aborts: bool)
      modifies this`outbox
      ensures aborts <==> !ignored && old(QueuesExpiry(Contents(), token)) && revision in old(outbox)
      ensures !aborts ==>
                Contents() ==
                  Unless(ignored, old(Contents()), AfterExpiryOutbox(old(Contents()), now, token, coalesces))
    {
      aborts := !ignored && QueuesExpiry(Contents(), token) && revision in outbox;
      if !aborts && !ignored && QueuesExpiry(Contents(), token) {
        outbox := Queued(outbox, revision, now, coalesces);
      }
    }

    method DeleteStaleEntries(cutoff: int, ignored: bool)
      modifies this`entries
      ensures Contents() == Unless(ignored, old(Contents()), AfterEntryDeletion(old(Contents()), cutoff))
    {
      if !ignored {
        entries := entries - Stale(Contents(), cutoff);
      }
    }

    method DeleteStalePresence(cutoff: int, ignored: bool)
      modifies this`presence, this`entries
      ensures Contents() == Unless(ignored, old(Contents()), AfterPresenceDeletion(old(Contents()), cutoff))
    {
      if !ignored {
        var gone := Stale(Contents(), cutoff);
        presence, entries := presence - gone, entries - gone;
      }
    }

    /** The writes of an expiry, in order. None of them aborts. */
    method WriteExpiry(cutoff: int, now: int, token: string, ignored: set<Write>)
      requires NothingLost(revision, outbox, checkpoint.revision) && !HasMarker(Contents(), token)
      modifies this
      ensures Contents() == ExpiryBatch(old(Contents()), cutoff, now, token, ignored)
    {
      hide NothingLost, AfterMarker, AfterExpiryRevision, AfterExpiryOutbox, AfterEntryDeletion, AfterPresenceDeletion,
        HasMarker, QueuesExpiry, Unless;
      QueuedExpiryIsNew(Contents(), cutoff, now, token, ignored);
      MarkExpiry(cutoff, now, token, MarkerRow in ignored);
      RaiseExpiryRevision(now, token, RevisionRow in ignored);
      var collides := QueueExpiry(now, token, OutboxRow in ignored, Coalescing !in ignored);
      DeleteStaleEntries(cutoff, EntryDeletion in ignored);
      DeleteStalePresence(cutoff, PresenceDeletion in ignored);
      assert !collides;
    }

    /** Expires every stale row of the profile at once, or nothing. A cutoff beyond the present is refused. */
    method ExpireDirectoryEntries(cutoff: int, now: int, token: string, ignored: set<Write>) returns (expired: bool)
      requires Consistent(Contents()) && !HasMarker(Contents(), token)
      modifies this
      ensures Consistent(Contents())
      ensures Contents() == if expired then Expired(old(Contents()), cutoff, now, token) else old(Contents())
      ensures expired ==> 0 <= cutoff <= now
      ensures ignored == {} && 0 <= cutoff <= now ==> expired
      ensures expired ==>
                && (forall s :: s in presence <==> s in old(presence) && old(presence)[s].lastSeen > cutoff)
                && (forall s :: s in entries <==> s in old(entries) && old(presence)[s].lastSeen > cutoff)
                && (forall s :: s in presence ==> presence[s] == old(presence)[s])
                && (forall s :: s in entries ==> entries[s] == old(entries)[s])
                && (entries == old(entries) ==> revision == old(revision) && outbox == old(outbox))
                && (entries != old(entries) ==> revision == old(revision) + 1 && outbox == map[revision := now])
    {
      hide Consistent, ExpiryAsserted, ExpiryBatch, HasMarker, Expired;
      var saved := Contents();
      if cutoff < 0 || now < 0 || cutoff > now {
        return false;
      }
      CleanKeeps(saved, saved.nonces, "");
      AssertedExpiryIsComplete(saved, cutoff, now, token, ignored);
      WriteExpiry(cutoff, now, token, ignored);
      expired := ExpiryAsserted(Contents(), cutoff, now, token);
      if expired {
        ExpiryKeepsConsistent(saved, cutoff, now, token);
        ListedIn(saved);
        ExpiredAs(saved, cutoff, now, token);
      } else {
        Rollback(saved);
      }
    }

    // ---- the checkpoint -----------------------------------------------------------------------

    method StoreCheckpoint(c: Checkpoint, ignored: bool)
      modifies this`checkpoint
      ensures Contents() == Unless(ignored, old(Contents()), AfterCheckpoint(old(Contents()), c))
    {
      if !ignored && Committable(Contents(), c) {
        checkpoint := c;
      }
    }

    method TrimHistory(c: Checkpoint, ignored: bool)
      modifies this`history
      ensures Contents() == Unless(ignored, old(Contents()), AfterTrim(old(Contents()), c))
    {
      hide Newest;
      if !ignored && Current(Contents(), c) && c.generation !in history {
        history := history - (history.Keys - Newest(history.Keys, MAX_HISTORY - 1));
      }
    }

    method StoreHistory(c: Checkpoint, ignored: bool) returns (aborts: bool)
      modifies this`history
      ensures aborts <==> !ignored && old(HistoryAborts(Contents(), c))
      ensures !aborts ==> Contents() == Unless(ignored, old(Contents()), AfterHistory(old(Contents()), c))
    {
      aborts := !ignored && HistoryAborts(Contents(), c);
      if !aborts && !ignored && Current(Contents(), c) {
        history := history[c.generation := c.publishedAt];
      }
    }

    method DeleteOutbox(c: Checkpoint, ignored: bool)
      modifies this`outbox
      ensures Contents() == Unless(ignored, old(Contents()), AfterOutboxDeletion(old(Contents()), c))
    {
      if !ignored && Current(Contents(), c) {
        outbox := map r | r in outbox && r > c.revision :: outbox[r];
      }
    }

    method MarkCommit(c: Checkpoint, token: string, ignored: bool)
      modifies this`committed
      ensures Contents() == Unless(ignored, old(Contents()),
                old(Contents()).(committed := Some(CommitMarker(token, c.revision, c.generation))))
    {
      if !ignored {
        committed := Some(CommitMarker(token, c.revision, c.generation));
      }
    }

    method WriteCheckpoint(c: Checkpoint, token: string, ignored: set<Write>) returns (aborts: bool)
      modifies this
      ensures aborts <==> HistoryRow !in ignored && HistoryAborts(CommitPrefix(old(Contents()), c, token, ignored), c)
      ensures !aborts ==> Contents() == CommitSuffix(CommitPrefix(old(Contents()), c, token, ignored), c, ignored)
    {
      hide AfterCheckpoint, AfterTrim, AfterHistory, AfterOutboxDeletion, HistoryAborts, Unless, Contents;
      MarkCommit(c, token, MarkerRow in ignored);
      StoreCheckpoint(c, CheckpointRow in ignored);
      TrimHistory(c, HistoryTrim in ignored);
      aborts := StoreHistory(c, HistoryRow in ignored);
      DeleteOutbox(c, OutboxDeletion in ignored);
    }

    /**
     Checkpoints a verified generation and acknowledges the revision it shows.
     It commits only a later generation of the newest revision, or the same
     checkpoint again; with no write ignored it commits every such one.
     */
    method CommitArtifactPublication(c: Checkpoint, token: string, ignored: set<Write>) returns (done: bool)
      requires Consistent(Contents())
      requires committed.Some? ==> committed.value.token != token
      modifies this
      ensures Consistent(Contents())
      ensures done ==> ValidCommit(c) && Committable(old(Contents()), c)
      ensures Contents() == if done then Committed(old(Contents()), c, token) else old(Contents())
      ensures ignored == {} && ValidCommit(c) && Committable(old(Contents()), c) ==> done
      ensures done ==> c.generation >= 1 && 0 <= c.generatedAt <= c.publishedAt < c.expiresAt
      ensures ignored == {} && c.generation >= 1 && 0 <= c.generatedAt <= c.publishedAt < c.expiresAt ==>
                (done <==> old(revision) == c.revision && (old(checkpoint).generation < c.generation ||
                                                           old(checkpoint) == c))
      ensures done ==> checkpoint == c && outbox == map[] && revision == old(revision) == c.revision
      ensures done ==> presence == old(presence) && entries == old(entries)
      ensures done ==> c.generation in history && history[c.generation] == c.publishedAt && |history| <= MAX_HISTORY
    {
      hide Consistent, Committable, CommitAsserted, CommitPrefix, CommitSuffix, HistoryAborts, Committed;
      var saved := Contents();
      if !ValidCommit(c) {
        return false;
      }
      CommitConditions(saved, c, token);
      AssertedCommitIsComplete(saved, c, token, ignored);
      IgnoredHistory(CommitPrefix(saved, c, token, ignored), c, token, ignored);
      var aborts := WriteCheckpoint(c, token, ignored);
      done := !aborts && CommitAsserted(Contents(), c, token);
      if done {
        CommitKeepsConsistent(saved, c, token);
      } else {
        Rollback(saved);
      }
    }
  }

  /** With its history row ignored, a generation the ledger lacks cannot pass the assertion. */
  lemma IgnoredHistory(d3: Directory, c: Checkpoint, token: string, ignored: set<Write>)
    ensures HistoryRow in ignored && HistoryAborts(d3, c) ==> !CommitAsserted(CommitSuffix(d3, c, ignored), c, token)
  {
  }

  lemma WonKnows(d: Directory, p: Publication, ignored: set<Write>)
    requires Fresh(d, p.commit)
    ensures var d1 := Unless(ReplayRow in ignored, d, AfterReplay(d, p));
            var d2 := Unless(NonceRow in ignored, d1, AfterNonce(d1, p));
            Won(d2, p) <==> Admits(d, p) && ReplayRow !in ignored
  {
    hide Admits;
  }

  lemma CleanKeeps(d: Directory, nonces: map<A.NonceKey, int>, commit: string)
    requires Consistent(d)
    ensures Consistent(d.(nonces := nonces)) && NothingLost(d.revision, d.outbox, d.checkpoint.revision)
    ensures Fresh(d, commit) ==> Fresh(d.(nonces := nonces), commit)
  {
  }

  /** The admission of a signed publication, with the sequences compared as numbers. */
  lemma AdmitsIs(d: Directory, p: Publication)
    ensures Admits(d, p) <==>
              && A.NonceKey(p.owner, p.nonce) !in d.nonces && |d.nonces| + d.liveRoutes < A.NONCE_CAPACITY
              && (p.owner in d.replay ==> Value(p.sequence) > Value(d.replay[p.owner].lastSequence))
  {
    hide Value, After;
    if p.owner in d.replay {
      AfterIsNumericOrder(p.sequence, d.replay[p.owner].lastSequence);
    }
  }

  /** The answer when every write takes effect, read off the rows: refused, aborted at the ceiling, or accepted. */
  ghost predicate AnsweredByTheRows(d: Directory, p: Publication, reply: Reply) {
    exists kept ::
      && A.NonceCleanup(d.nonces, kept, p.now)
      && if A.NonceKey(p.owner, p.nonce) in kept || |kept| + d.liveRoutes >= A.NONCE_CAPACITY ||
            (p.owner in d.replay && Value(p.sequence) <= Value(d.replay[p.owner].lastSequence))
         then reply.Refused?
         else if p.owner.server !in d.presence && |d.presence| >= MAX_ENTRIES then reply.Aborted?
         else reply.Accepted?
  }

  lemma AnsweredIs(d: Directory, clean: Directory, p: Publication, reply: Reply)
    requires A.NonceCleanup(d.nonces, clean.nonces, p.now) && clean == d.(nonces := clean.nonces)
    requires if !Admits(clean, p) then reply.Refused?
             else if p.owner.server !in d.presence && |d.presence| >= MAX_ENTRIES then reply.Aborted?
             else reply.Accepted?
    ensures AnsweredByTheRows(d, p, reply)
  {
    hide A.NonceCleanup, Value, Admits;
    AdmitsIs(clean, p);
  }

  lemma ShownBy(a: Directory, b: Directory, p: Publication, reply: Reply)
    requires Consistent(a) && Persisted(a, b, p, reply)
    ensures reply.Accepted? || reply.Unconfirmed? ==>
              && b.entries == (if p.isPublic then a.entries[p.owner.server := p.listing]
                               else a.entries - {p.owner.server})
              && (reply.Accepted? ==> reply.visibleChanged == ShownChanges(a, b, p))
              && b.revision == (if ShownChanges(a, b, p) then a.revision + 1 else a.revision)
              && b.outbox == (if ShownChanges(a, b, p) then map[a.revision + 1 := p.now] else a.outbox)
    ensures reply.Accepted? && p.isPublic && p.owner.server in a.entries && p.owner.server in a.presence
            && a.entries[p.owner.server] == p.listing && a.presence[p.owner.server].lastSeen > p.cutoff ==>
              !ShownChanges(a, b, p)
    ensures reply.Accepted? && !p.isPublic && p.owner.server !in a.entries ==> !ShownChanges(a, b, p)
  {
    hide Persisted, NothingLost, Acknowledged;
    if reply.Accepted? || reply.Unconfirmed? {
      CommittedPublication(a, b, p, reply);
    }
  }

  lemma ListedIn(d: Directory)
    requires Consistent(d)
    ensures Listed(d.presence, d.entries)
  {
  }

  /** A checkpoint may move exactly to a later generation of the newest revision, or stay; what that leaves. */
  lemma CommitConditions(d: Directory, c: Checkpoint, token: string)
    requires Consistent(d)
    ensures Committable(d, c) <==>
              d.revision == c.revision && (d.checkpoint.generation < c.generation || d.checkpoint == c)
    ensures var after := Committed(d, c, token);
            && after.checkpoint == c && after.outbox == map[] && after.revision == d.revision
            && after.presence == d.presence && after.entries == d.entries
            && c.generation in after.history && after.history[c.generation] == c.publishedAt
            && |after.history| <= MAX_HISTORY
  {
    hide Listed;
    RetainBound(d.history, c);
  }

  lemma PersistedIs(saved: Directory, clean: Directory, after: Directory, p: Publication, reply: Reply)
    requires Consistent(saved) && A.NonceCleanup(saved.nonces, clean.nonces, p.now) &&
        clean == saved.(nonces := clean.nonces)
    requires if reply.Aborted? then after == saved else PersistedClean(clean, after, p, reply)
    ensures Consistent(after) && Persisted(saved, after, p, reply)
  {
    hide Consistent, A.NonceCleanup, PersistedClean;
    PersistedFacts(saved, after, p, reply);
  }
}