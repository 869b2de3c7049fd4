/**
 A signed publication through its room: the room moves to the new generation
 first, the database commits it or does not, and every exit settles which of the
 two generations the room keeps.
 */
module PublishedGeneration {
  import opened Options
  import opened Decimals
  import opened RoomState
  import opened RendezvousRooms
  import A = AccessState
  import D = DirectoryState
  import Runs = DirectoryRuns
  import Tables = DirectoryDatabase
  import Findings = RoomFindings
  import Attachments

  /** The largest unsigned 64-bit value in decimal. */
  const MAX_SEQUENCE: string := Render(MAX_UINT64)

  datatype Conflict = Exhausted | Next(minimum: string)

  /** What each fallible step of one publication does; reads and storage writes fail when false. */
  datatype Faults = Faults(
    firstRead: bool, publishedRead: bool, firstStore: bool, firstAlarm: bool, rotateStore: bool, rotateAlarm: bool,
    executed: bool, heard: bool, ignored: set<Tables.Write>,
    refusedRead: bool, refusedStore: bool, refusedAlarm: bool, conflictRead: bool,
    elsewhere: D.Directory, matcherRead: bool, settleRead: bool, settleStore: bool, settleAlarm: bool)

  /** The ways out, in the order of the code; everything from Unread on is an error. */
  datatype Exit =
    | Replayed(conflict: Conflict) | Mismatch | Committed(visibleChanged: bool) | Rejected(conflict: Conflict)
    | Unread | Unreconciled | Unrotated | Torn | Settled | Unsettled

  // ---- what the database says -------------------------------------------------------------

  function Stored(d: D.Directory, server: string): Option<string> {
    if server in d.presence then Some(d.presence[server].generation) else None
  }

  /** The reply to a request whose sequence or nonce the replay row already excludes. */
  function SignedConflict(d: D.Directory, p: D.Publication): Option<Conflict> {
    if p.owner !in d.replay then None
    else
      var last := d.replay[p.owner].lastSequence;
      if last == MAX_SEQUENCE then Some(Exhausted)
      else if A.NonceKey(p.owner, p.nonce) !in d.nonces && ComparePublishSequences(p.sequence, last) > 0 then None
      else Some(Next(MinimumNextPublishSequence(last)))
  }

  predicate EntryAsserted(d: D.Directory, p: D.Publication) {
    if p.isPublic then p.owner.server in d.entries && d.entries[p.owner.server] == p.listing
    else p.owner.server !in d.entries
  }

  /** The exact state an ambiguous batch would have left, row by row. */
  predicate Matches(d: D.Directory, p: D.Publication) {
    && p.owner in d.replay && d.replay[p.owner] == A.Replay(p.sequence, p.nonce, p.commit)
    && A.NonceKey(p.owner, p.nonce) in d.nonces
    && Tables.PresenceAsserted(d, p) && EntryAsserted(d, p)
  }

  predicate Agree(room: RendezvousRoom, db: Tables.Database, server: string)
    reads room, db
  {
    room.currentGeneration == Stored(db.Contents(), server)
  }

  /** Other publications and builds may run meanwhile; this server's own rows wait for its room. */
  predicate SameServer(a: D.Directory, b: D.Directory, owner: A.Owner) {
    && (owner.server in a.presence <==> owner.server in b.presence)
    && (owner.server in a.presence ==> a.presence[owner.server] == b.presence[owner.server])
    && (owner in a.replay <==> owner in b.replay) && (owner in a.replay ==> a.replay[owner] == b.replay[owner])
  }

  lemma MaximumSequence()
    ensures IsCanonical(MAX_SEQUENCE) && Value(MAX_SEQUENCE) == MAX_UINT64
  {
    RenderDenotes(MAX_UINT64);
    RenderLength(MAX_UINT64);
  }

  /**
   A refused publication has no conflict to report exactly when the server has no
   replay row yet, or its sequence and nonce are new: either way only the shared
   nonce table was full, which the room reports as an internal error.
   */
  lemma ConflictExplainsRefusal(d: D.Directory, p: D.Publication)
    requires Value(p.sequence) <= MAX_UINT64 && !D.Admits(d, p)
    ensures SignedConflict(d, p).None? <==>
              p.owner !in d.replay ||
              (|d.nonces| + d.liveRoutes + 1 > A.NONCE_CAPACITY && A.NonceKey(p.owner, p.nonce) !in d.nonces &&
               After(p.sequence, d.replay[p.owner].lastSequence))
  {
    hide Value, After, ComparePublishSequences, MinimumNextPublishSequence, IsCanonical;
    if p.owner in d.replay {
      var last := d.replay[p.owner].lastSequence;
      MaximumSequence();
      AfterIsNumericOrder(p.sequence, last);
      ComparisonIsNumeric(p.sequence, last);
      AfterIsNumericOrder(MAX_SEQUENCE, last);
    }
  }

  /** What a conflict says, as numbers: the sequences are used up, or the least one that would be admitted. */
  predicate Explains(d: D.Directory, p: D.Publication, conflict: Conflict) {
    && p.owner in d.replay
    && var last := Value(d.replay[p.owner].lastSequence);
       if last >= MAX_UINT64 then conflict.Exhausted?
       else conflict.Next? && IsCanonical(conflict.minimum) && Value(conflict.minimum) == last + 1
  }

  /** Sequences the room parses fit into 64 bits. */
  predicate InRange(d: D.Directory, p: D.Publication) {
    Value(p.sequence) <= MAX_UINT64 && (p.owner in d.replay ==> Value(d.replay[p.owner].lastSequence) <= MAX_UINT64)
  }

  /** A request conflicts exactly when its owner's sequences or its nonce are used up, or its sequence is not larger. */
  lemma ConflictMeans(d: D.Directory, p: D.Publication)
    requires InRange(d, p)
    ensures SignedConflict(d, p).Some? <==>
              && p.owner in d.replay
              && (|| Value(d.replay[p.owner].lastSequence) == MAX_UINT64
                  || A.NonceKey(p.owner, p.nonce) in d.nonces
                  || Value(p.sequence) <= Value(d.replay[p.owner].lastSequence))
    ensures SignedConflict(d, p).Some? ==> Explains(d, p, SignedConflict(d, p).value)
  {
    hide Value, ComparePublishSequences, IsCanonical, Render;
    if p.owner in d.replay {
      var last := d.replay[p.owner].lastSequence;
      MaximumSequence();
      ComparisonIsNumeric(p.sequence, last);
      ComparisonIsNumeric(MAX_SEQUENCE, last);
      NextIsOneMore(last);
    }
  }

  lemma NextIsOneMore(last: Sequence)
    requires Value(last) <= MAX_UINT64
    ensures var hint := MinimumNextPublishSequence(last);
            Value(last) < MAX_UINT64 ==> IsCanonical(hint) && Value(hint) == Value(last) + 1
  {
    if Value(last) < MAX_UINT64 {
      RenderDenotes(Value(last) + 1);
      RenderLength(Value(last) + 1);
    }
  }

  /** A committed batch leaves exactly the rows the matcher looks for. */
  lemma LandedMatches(before: D.Directory, after: D.Directory, p: D.Publication, reply: Runs.Reply)
    requires D.Consistent(before) && Tables.Fresh(before, p.commit) && Runs.Persisted(before, after, p, reply)
    requires reply.Accepted? || reply.Unconfirmed?
    ensures Matches(after, p)
  {
    hide D.Consistent, A.NonceCleanup, D.Admits, D.VisibleChange, Tables.PublicationBatch, Tables.Fresh,
      Tables.PresenceAsserted, D.Published;
    var nonces :| A.NonceCleanup(before.nonces, nonces, p.now) &&
                  Runs.PersistedClean(before.(nonces := nonces), after, p, reply);
    var clean := before.(nonces := nonces);
    Tables.CleanKeeps(before, nonces, p.commit);
    Tables.AssertedPublicationIsComplete(clean, p, {});
    PublishedReplay(clean, p);
  }

  lemma PublishedReplay(d: D.Directory, p: D.Publication)
    ensures p.owner in D.Published(d, p).replay
    ensures D.Published(d, p).replay[p.owner] == A.Replay(p.sequence, p.nonce, p.commit)
  {
    hide D.VisibleChange, D.Shown, D.PresenceFor;
  }

  /** Only a committed publication matches, and then the stored generation is its own. */
  lemma MatchIsStored(d: D.Directory, p: D.Publication)
    requires Matches(d, p)
    ensures Stored(d, p.owner.server) == Some(p.generation)
  {
  }

  lemma PersistedStores(before: D.Directory, after: D.Directory, p: D.Publication, reply: Runs.Reply)
    requires Runs.Persisted(before, after, p, reply)
    ensures if reply.Accepted? || reply.Unconfirmed? then Stored(after, p.owner.server) == Some(p.generation)
            else Stored(after, p.owner.server) == Stored(before, p.owner.server)
    ensures reply.Aborted? || reply.Refused? ==> after.presence == before.presence && after.replay == before.replay
  {
    hide D.Admits, D.VisibleChange, A.NonceCleanup, D.Shown;
    if !reply.Aborted? {
      var nonces :| A.NonceCleanup(before.nonces, nonces, p.now) &&
                    Runs.PersistedClean(before.(nonces := nonces), after, p, reply);
    }
  }

  // ---- the room follows the database ---------------------------------------------------------

  /**
   Re-reads the stored generation and moves the room to it. Once the read and the
   storage write succeed the room agrees, even when ending a transport failed.
   */
  method ReconcilePublishedGeneration(
    room: RendezvousRoom, db: Tables.Database, server: string, answered: bool, persists: bool, alarms: bool)
    returns (ok: bool, generation: Option<string>)
    requires room.Core()
    modifies room
    ensures room.Core()
    ensures answered ==> generation == Stored(db.Contents(), server)
    ensures (answered && persists) || old(Agree(room, db, server)) ==> Agree(room, db, server)
    ensures ok ==> answered && Agree(room, db, server)
    ensures !(answered && persists) ==> room.currentGeneration == old(room.currentGeneration)
    ensures old(room.LedgerHolds()) ==> room.LedgerHolds()
    ensures old(Agree(room, db, server)) ==> room.servers == old(room.servers) && room.clients == old(room.clients)
    ensures old(Agree(room, db, server)) && answered ==> ok
    ensures room.faulty == old(room.faulty) && room.stuck == old(room.stuck)
    ensures room.servers.Keys == old(room.servers.Keys) && room.clients.Keys == old(room.clients.Keys)
    ensures answered && persists && alarms && old(Sound(room)) ==> ok
  {
    hide RendezvousRoom.Core, RendezvousRoom.LedgerHolds, RendezvousRoom.ControlsMatch, RendezvousRoom.ClientsMatch;
    ok, generation := false, None;
    if !answered {
      return;
    }
    generation := Stored(db.Contents(), server);
    var settled := room.currentGeneration == generation;
    ok := room.RotateTokenGeneration(generation, persists);
    ok := ok && (settled || alarms);
  }

  /** Others' rows move on while the room waits. */
  method Interlude(db: Tables.Database, next: D.Directory, owner: A.Owner)
    requires D.Consistent(db.Contents())
    modifies db
    ensures D.Consistent(db.Contents()) && SameServer(old(db.Contents()), db.Contents(), owner)
  {
    hide D.Consistent;
    if D.Consistent(next) && SameServer(db.Contents(), next, owner) {
      db.Rollback(next);
    }
  }

  // ---- one publication ---------------------------------------------------------------------------

  /** The batch committed, whether or not the room was told so. */
  predicate Landed(reply: Option<Runs.Reply>) {
    reply.Some? && (reply.value.Accepted? || reply.value.Unconfirmed?)
  }

  /** The refusal was heard, and the stored generation was read and kept again. */
  predicate Restored(reply: Option<Runs.Reply>, f: Faults) {
    reply == Some(Runs.Refused) && f.heard && f.refusedRead && f.refusedStore
  }

  /** The error path reads what is needed to settle. */
  predicate Settles(f: Faults) {
    f.matcherRead && f.settleRead && f.settleStore
  }

  /** With none of its writes ignored, the batch answers exactly by the sequence, the nonces and the profile's room. */
  ghost predicate DecidedBy(d: D.Directory, p: D.Publication, reply: Runs.Reply) {
    exists kept ::
      && A.NonceCleanup(d.nonces, kept, p.now)
      && if A.NonceKey(p.owner, p.nonce) in kept || |kept| + d.liveRoutes >= A.NONCE_CAPACITY ||
            (p.owner in d.replay && Value(p.sequence) <= Value(d.replay[p.owner].lastSequence))
         then reply.Refused?
         else if p.owner.server !in d.presence && |d.presence| >= D.MAX_ENTRIES then reply.Aborted?
         else reply.Accepted?
  }

  /** The room's sockets can be written and read, so no rotation can tear. */
  ghost predicate Sound(room: RendezvousRoom)
    reads room
  {
    !room.faulty && AllReadable(room.clients) && EveryControlReadable(room.servers)
  }

  /** Every read, storage write and alarm ahead of the batch works. */
  predicate Smooth(f: Faults) {
    f.firstRead && f.publishedRead && f.firstStore && f.firstAlarm && f.rotateStore && f.rotateAlarm
  }

  /** What one batch left of the tables, before others' rows moved on. */
  ghost predicate BatchRan(before: D.Directory, after: D.Directory, p: D.Publication, reply: Option<Runs.Reply>) {
    if reply.None? then SameServer(before, after, p.owner)
    else exists batch :: Runs.Persisted(before, batch, p, reply.value) && SameServer(batch, after, p.owner)
  }

  /** The transaction and its direct answers; without one an error is being handled. */
  method PersistOrRefuse(room: RendezvousRoom, db: Tables.Database, p: D.Publication, f: Faults)
    returns (exit: Option<Exit>, reply: Option<Runs.Reply>)
    requires room.Core() && D.Consistent(db.Contents()) && Tables.Fresh(db.Contents(), p.commit)
    requires room.currentGeneration == Some(p.generation)
    modifies room, db
    ensures room.Core() && D.Consistent(db.Contents())
    ensures old(room.LedgerHolds()) ==> room.LedgerHolds()
    ensures room.servers.Keys == old(room.servers.Keys) && room.clients.Keys == old(room.clients.Keys)
    ensures reply.Some? <==> f.executed
    ensures if reply.Some? then Runs.Persisted(old(db.Contents()), db.Contents(), p, reply.value)
            else db.Contents() == old(db.Contents())
    ensures Landed(reply) ==> Stored(db.Contents(), p.owner.server) == Some(p.generation)
    ensures !Landed(reply) ==>
              NeverStored(db.Contents(), p) &&
              Stored(db.Contents(), p.owner.server) == old(Stored(db.Contents(), p.owner.server))
    ensures Restored(reply, f) ==> Agree(room, db, p.owner.server)
    ensures !Restored(reply, f) ==> room.currentGeneration == Some(p.generation)
    ensures exit.Some? ==>
              if exit.value.Committed? then f.heard && Landed(reply)
              else exit.value.Rejected? && reply == Some(Runs.Refused) && Agree(room, db, p.owner.server)
    ensures f.heard && reply.Some? && reply.value.Accepted? ==> exit == Some(Committed(reply.value.visibleChanged))
    ensures reply.Some? && f.ignored == {} ==> DecidedBy(old(db.Contents()), p, reply.value)
    ensures exit.Some? && exit.value.Rejected? && InRange(db.Contents(), p) ==>
              Explains(db.Contents(), p, exit.value.conflict)
    ensures f.heard && reply == Some(Runs.Refused) && f.refusedRead && f.refusedStore && f.refusedAlarm
            && f.conflictRead && old(Sound(room)) ==>
              (exit.Some? <==> SignedConflict(db.Contents(), p).Some?)
  {
    hide RendezvousRoom.Core, RendezvousRoom.LedgerHolds, D.Consistent, Runs.Persisted, D.Admits, D.VisibleChange,
      Tables.Fresh, NeverStored, SignedConflict, Stored, Explains, InRange, Value;
    exit, reply := None, None;
    ghost var before := db.Contents();
    FreshIsNeverStored(before, p);
    if !f.executed {
      return;
    }
    var answer := db.PersistSignedPublication(p, f.ignored);
    reply := Some(answer);
    PersistedStores(before, db.Contents(), p, answer);
    UncommittedIsNeverStored(before, db.Contents(), p, Landed(reply));
    if f.heard && answer.Accepted? {
      exit := Some(Committed(answer.visibleChanged));
    } else if f.heard && answer.Refused? {
      var ok, _ := ReconcilePublishedGeneration(
        room, db, p.owner.server, f.refusedRead, f.refusedStore, f.refusedAlarm);
      if ok && f.conflictRead {
        var conflict := SignedConflict(db.Contents(), p);
        if InRange(db.Contents(), p) {
          ConflictMeans(db.Contents(), p);
        }
        if conflict.Some? {
          exit := Some(Rejected(conflict.value));
        }
      }
    }
  }

  /** The token of a transaction that did not commit is on none of this server's rows. */
  predicate NeverStored(d: D.Directory, p: D.Publication) {
    p.owner in d.replay ==> d.replay[p.owner].commit != p.commit
  }

  lemma FreshIsNeverStored(d: D.Directory, p: D.Publication)
    requires Tables.Fresh(d, p.commit)
    ensures NeverStored(d, p)
  {
  }

  lemma UncommittedIsNeverStored(before: D.Directory, after: D.Directory, p: D.Publication, committed: bool)
    requires NeverStored(before, p) && (!committed ==> after.replay == before.replay)
    ensures !committed ==> NeverStored(after, p)
  {
  }

  lemma NeverStoredNeverMatches(d: D.Directory, p: D.Publication)
    requires NeverStored(d, p)
    ensures !Matches(d, p)
  {
  }

  lemma InterludeKeeps(a: D.Directory, b: D.Directory, p: D.Publication)
    requires SameServer(a, b, p.owner)
    ensures Stored(b, p.owner.server) == Stored(a, p.owner.server)
    ensures NeverStored(a, p) ==> NeverStored(b, p)
  {
  }

  /** The error path: the exact matcher first, then the stored generation. */
  method SettleAmbiguous(
    room: RendezvousRoom, db: Tables.Database, p: D.Publication, f: Faults, ghost landed: bool, ghost restored: bool)
    returns (exit: Exit)
    requires room.Core() && D.Consistent(db.Contents())
    requires landed ==> Stored(db.Contents(), p.owner.server) == Some(p.generation) && !restored
    requires !landed ==> NeverStored(db.Contents(), p)
    requires restored ==> Agree(room, db, p.owner.server)
    requires !restored ==> room.currentGeneration == Some(p.generation)
    modifies room, db
    ensures room.Core() && D.Consistent(db.Contents())
    ensures old(room.LedgerHolds()) ==> room.LedgerHolds()
    ensures room.servers.Keys == old(room.servers.Keys) && room.clients.Keys == old(room.clients.Keys)
    ensures SameServer(old(db.Contents()), db.Contents(), p.owner)
    ensures exit in {Committed(true), Settled, Unsettled}
    ensures exit.Committed? ==> landed && room.currentGeneration == Some(p.generation)
    ensures !f.matcherRead ==> exit.Unsettled?
    ensures Settles(f) ==> !exit.Unsettled?
    ensures !landed && !Settles(f) ==> exit.Unsettled?
    ensures Agree(room, db, p.owner.server) <==>
              Stored(db.Contents(), p.owner.server) == Some(p.generation) || Settles(f) || restored
    ensures !Agree(room, db, p.owner.server) ==> room.currentGeneration == Some(p.generation)
    ensures f.matcherRead ==> (exit.Committed? <==> Matches(db.Contents(), p))
  {
    hide RendezvousRoom.Core, RendezvousRoom.LedgerHolds, D.Consistent, Matches, NeverStored, Stored, SameServer;
    ghost var before := db.Contents();
    Interlude(db, f.elsewhere, p.owner);
    InterludeKeeps(before, db.Contents(), p);
    if !f.matcherRead {
      return Unsettled;
    }
    if Matches(db.Contents(), p) {
      MatchIsStored(db.Contents(), p);
      if !landed {
        NeverStoredNeverMatches(db.Contents(), p);
      }
      return Committed(true);
    }
    var _, _ := ReconcilePublishedGeneration(room, db, p.owner.server, f.settleRead, f.settleStore, f.settleAlarm);
    exit := if f.settleRead && f.settleStore then Settled else Unsettled;
  }

  /** The exits behind the rotation. */
  predicate PastRotation(exit: Exit) {
    exit.Committed? || exit.Rejected? || exit.Settled? || exit.Unsettled?
  }

  /** Everything up to the rotation, which is refused, fails, or leaves the room on the new generation. */
  method RotateForPublication(
    room: RendezvousRoom, db: Tables.Database, p: D.Publication, expected: Option<string>, f: Faults)
    returns (early: Option<Exit>)
    requires room.Core()
    modifies room
    ensures room.Core() && (old(room.LedgerHolds()) ==> room.LedgerHolds())
    ensures room.servers.Keys == old(room.servers.Keys) && room.clients.Keys == old(room.clients.Keys)
    ensures early.Some? ==> early.value in {Unread, Unreconciled, Mismatch, Unrotated, Torn} || early.value.Replayed?
    ensures early.Some? && early.value.Replayed? <==> f.firstRead && SignedConflict(db.Contents(), p).Some?
    ensures early == Some(Unread) <==> !f.firstRead || (SignedConflict(db.Contents(), p).None? && !f.publishedRead)
    ensures early.Some? && (early.value.Replayed? || early.value.Unread?) ==>
              room.currentGeneration == old(room.currentGeneration)
    ensures early == Some(Unreconciled) ==>
              !old(Agree(room, db, p.owner.server)) && (Agree(room, db, p.owner.server) <==> f.firstStore)
    ensures early == Some(Mismatch) ==>
              Agree(room, db, p.owner.server) && expected != Stored(db.Contents(), p.owner.server)
    ensures early == Some(Unrotated) ==> Agree(room, db, p.owner.server) && !f.rotateStore
    ensures early == Some(Torn) || early.None? ==>
              expected == Stored(db.Contents(), p.owner.server) && room.currentGeneration == Some(p.generation)
    ensures early == Some(Torn) ==> expected != Some(p.generation)
    ensures early == Some(Torn) && old(Agree(room, db, p.owner.server)) ==>
              !f.rotateAlarm || old(room.faulty) || !AllReadable(old(room.clients)) ||
              !EveryControlReadable(old(room.servers))
    ensures old(room.Stuck() && Agree(room, db, p.owner.server)) && SignedConflict(db.Contents(), p).None? &&
            f.firstRead && f.publishedRead && f.rotateStore && expected == old(room.currentGeneration) &&
            (exists id :: ClaimsForeign(old(room.servers), id, Some(p.generation))) ==>
              expected == Some(p.generation) || early == Some(Torn)
    ensures early.Some? && early.value.Replayed? && InRange(db.Contents(), p) ==>
              Explains(db.Contents(), p, early.value.conflict)
    ensures Smooth(f) && old(Sound(room) && Agree(room, db, p.owner.server))
            && SignedConflict(db.Contents(), p).None? ==>
              if expected == Stored(db.Contents(), p.owner.server) then early.None? else early == Some(Mismatch)
  {
    hide RendezvousRoom.Core, RendezvousRoom.LedgerHolds, SignedConflict, Stored, AllReadable, EveryControlReadable,
      ClaimsForeign, Explains, InRange, Sound;
    if !f.firstRead {
      return Some(Unread);
    }
    var conflict := SignedConflict(db.Contents(), p);
    if conflict.Some? {
      if InRange(db.Contents(), p) {
        ConflictMeans(db.Contents(), p);
      }
      return Some(Replayed(conflict.value));
    }
    if !f.publishedRead {
      return Some(Unread);
    }
    early := MoveRoom(room, db, p, expected, f);
  }

  /** The room follows the stored generation, compares it with the expected one, and rotates. */
  method MoveRoom(
    room: RendezvousRoom, db: Tables.Database, p: D.Publication, expected: Option<string>, f: Faults)
    returns (early: Option<Exit>)
    requires room.Core()
    modifies room
    ensures room.Core() && (old(room.LedgerHolds()) ==> room.LedgerHolds())
    ensures room.servers.Keys == old(room.servers.Keys) && room.clients.Keys == old(room.clients.Keys)
    ensures early.Some? ==> early.value in {Unreconciled, Mismatch, Unrotated, Torn}
    ensures early == Some(Unreconciled) ==>
              !old(Agree(room, db, p.owner.server)) && (Agree(room, db, p.owner.server) <==> f.firstStore)
    ensures early == Some(Mismatch) ==>
              Agree(room, db, p.owner.server) && expected != Stored(db.Contents(), p.owner.server)
    ensures early == Some(Unrotated) ==> Agree(room, db, p.owner.server) && !f.rotateStore
    ensures early == Some(Torn) || early.None? ==>
              expected == Stored(db.Contents(), p.owner.server) && room.currentGeneration == Some(p.generation)
    ensures early == Some(Torn) ==> expected != Some(p.generation)
    ensures early == Some(Torn) && old(Agree(room, db, p.owner.server)) ==>
              !f.rotateAlarm || old(room.faulty) || !AllReadable(old(room.clients)) ||
              !EveryControlReadable(old(room.servers))
    ensures old(room.Stuck() && Agree(room, db, p.owner.server)) &&
            f.rotateStore && expected == old(room.currentGeneration) &&
            (exists id :: ClaimsForeign(old(room.servers), id, Some(p.generation))) ==>
              expected == Some(p.generation) || early == Some(Torn)
    ensures f.rotateStore && f.rotateAlarm && old(Sound(room) && Agree(room, db, p.owner.server)) ==>
              if expected == Stored(db.Contents(), p.owner.server) then early.None? else early == Some(Mismatch)
  {
    hide RendezvousRoom.Core, RendezvousRoom.LedgerHolds, Stored, AllReadable, EveryControlReadable,
      ClaimsForeign, RendezvousRoom.ControlsMatch, RendezvousRoom.ClientsMatch;
    var ok, published := ReconcilePublishedGeneration(
      room, db, p.owner.server, true, f.firstStore, f.firstAlarm);
    if !ok {
      return Some(Unreconciled);
    }
    if published != expected {
      return Some(Mismatch);
    }
    var settled := room.currentGeneration == Some(p.generation);
    ok := room.RotateTokenGeneration(Some(p.generation), f.rotateStore);
    if !settled && !f.rotateStore {
      return Some(Unrotated);
    }
    early := if !settled && (!ok || !f.rotateAlarm) then Some(Torn) else None;
  }

  /** The batch and whatever follows it, from a room that is on the new generation. */
  method PersistAndSettle(room: RendezvousRoom, db: Tables.Database, p: D.Publication, f: Faults)
    returns (exit: Exit, reply: Option<Runs.Reply>)
    requires room.Core() && D.Consistent(db.Contents()) && Tables.Fresh(db.Contents(), p.commit)
    requires room.currentGeneration == Some(p.generation)
    modifies room, db
    ensures room.Core() && D.Consistent(db.Contents())
    ensures old(room.LedgerHolds()) ==> room.LedgerHolds()
    ensures room.servers.Keys == old(room.servers.Keys) && room.clients.Keys == old(room.clients.Keys)
    ensures PastRotation(exit) && (reply.Some? <==> f.executed)
    ensures BatchRan(old(db.Contents()), db.Contents(), p, reply)
    ensures Agree(room, db, p.owner.server) <==>
              || old(Stored(db.Contents(), p.owner.server)) == Some(p.generation)
              || Landed(reply) || Restored(reply, f) || Settles(f)
    ensures !Agree(room, db, p.owner.server) ==> room.currentGeneration == Some(p.generation)
    ensures exit.Unsettled? ==> !Settles(f)
    ensures !Landed(reply) && !Settles(f) ==> exit.Unsettled? || exit.Rejected?
    ensures exit.Committed? ==> Landed(reply) && room.currentGeneration == Some(p.generation)
    ensures exit.Rejected? ==> reply == Some(Runs.Refused) && Agree(room, db, p.owner.server)
    ensures reply.Some? && f.ignored == {} ==> DecidedBy(old(db.Contents()), p, reply.value)
    ensures exit.Rejected? && InRange(db.Contents(), p) ==> Explains(db.Contents(), p, exit.conflict)
    ensures f.heard && reply.Some? && reply.value.Accepted? ==> exit == Committed(reply.value.visibleChanged)
    ensures Landed(reply) && f.matcherRead && Runs.Persisted(old(db.Contents()), db.Contents(), p, reply.value) ==>
              exit.Committed?
  {
    hide RendezvousRoom.Core, RendezvousRoom.LedgerHolds, D.Consistent, Stored, NeverStored, Tables.Fresh,
      Runs.Persisted, SameServer, Settles, DecidedBy, Explains, InRange, SignedConflict, Sound, Matches;
    ghost var before := db.Contents();
    var answer;
    answer, reply := PersistOrRefuse(room, db, p, f);
    ghost var batch := db.Contents();
    if answer.Some? {
      exit := answer.value;
    } else {
      exit := SettleAmbiguous(room, db, p, f, Landed(reply), Restored(reply, f));
    }
    if Landed(reply) && Runs.Persisted(before, db.Contents(), p, reply.value) {
      LandedMatches(before, db.Contents(), p, reply.value);
    }
    SameServerItself(batch, p.owner);
    BatchStored(batch, db.Contents(), p);
  }

  /**
   One signed publication. Before the rotation, and on an unrotated exit, the room
   agrees with the database as soon as it could read and keep the stored
   generation. A rotation whose teardown failed parts them. Behind it they agree
   if and only if the publication brings no new generation, its batch committed, a
   heard refusal was reconciled, or the error path could read and keep what it
   settles by; the reply is what the batch did to the tables.
   */
  method CommitPublication(
    room: RendezvousRoom, db: Tables.Database, p: D.Publication, expected: Option<string>, f: Faults)
    returns (exit: Exit, reply: Option<Runs.Reply>)
    requires room.Core() && D.Consistent(db.Contents()) && Tables.Fresh(db.Contents(), p.commit)
    modifies room, db
    ensures room.Core() && D.Consistent(db.Contents())
    ensures old(room.LedgerHolds()) ==> room.LedgerHolds()
    ensures room.servers.Keys == old(room.servers.Keys) && room.clients.Keys == old(room.clients.Keys)
    ensures exit.Replayed? <==> f.firstRead && old(SignedConflict(db.Contents(), p).Some?)
    ensures exit.Unread? <==> !f.firstRead || (old(SignedConflict(db.Contents(), p).None?) && !f.publishedRead)
    ensures exit.Replayed? || exit.Unread? ==> room.currentGeneration == old(room.currentGeneration)
    ensures exit.Unreconciled? ==>
              && !old(Agree(room, db, p.owner.server))
              && (Agree(room, db, p.owner.server) <==> f.firstStore)
    ensures exit.Mismatch? ==>
              Agree(room, db, p.owner.server) && expected != old(Stored(db.Contents(), p.owner.server))
    ensures exit.Unrotated? ==> Agree(room, db, p.owner.server) && !f.rotateStore
    ensures exit.Torn? ==>
              && expected != Some(p.generation) && room.currentGeneration == Some(p.generation)
              && !Agree(room, db, p.owner.server)
    ensures exit.Torn? && old(Agree(room, db, p.owner.server)) ==>
              !f.rotateAlarm || old(room.faulty) || !AllReadable(old(room.clients)) ||
              !EveryControlReadable(old(room.servers))
    ensures old(room.Stuck() && Agree(room, db, p.owner.server) && SignedConflict(db.Contents(), p).None?) &&
            f.firstRead && f.publishedRead && f.rotateStore && expected == old(room.currentGeneration) &&
            (exists id :: ClaimsForeign(old(room.servers), id, Some(p.generation))) ==>
              expected == Some(p.generation) || exit.Torn?
    ensures !PastRotation(exit) ==> reply.None? && db.Contents() == old(db.Contents())
    ensures PastRotation(exit) ==>
              && (reply.Some? <==> f.executed) && expected == old(Stored(db.Contents(), p.owner.server))
              && BatchRan(old(db.Contents()), db.Contents(), p, reply)
              && (Agree(room, db, p.owner.server) <==>
                    expected == Some(p.generation) || Landed(reply) || Restored(reply, f) || Settles(f))
              && (!Agree(room, db, p.owner.server) ==> room.currentGeneration == Some(p.generation))
    ensures exit.Unsettled? ==> !Settles(f)
    ensures PastRotation(exit) && !Landed(reply) && !Settles(f) ==> exit.Unsettled? || exit.Rejected?
    ensures exit.Committed? ==> Landed(reply) && room.currentGeneration == Some(p.generation)
    ensures exit.Rejected? ==> reply == Some(Runs.Refused) && Agree(room, db, p.owner.server)
    ensures exit.Replayed? && old(InRange(db.Contents(), p)) ==> Explains(db.Contents(), p, exit.conflict)
    ensures exit.Rejected? && InRange(db.Contents(), p) ==> Explains(db.Contents(), p, exit.conflict)
    ensures Smooth(f) && old(Sound(room) && Agree(room, db, p.owner.server))
            && old(SignedConflict(db.Contents(), p).None?) ==>
              if expected == old(Stored(db.Contents(), p.owner.server)) then PastRotation(exit) else exit.Mismatch?
    ensures reply.Some? && f.ignored == {} ==> DecidedBy(old(db.Contents()), p, reply.value)
    ensures f.heard && reply.Some? && reply.value.Accepted? ==> exit == Committed(reply.value.visibleChanged)
    ensures Landed(reply) && f.matcherRead && Runs.Persisted(old(db.Contents()), db.Contents(), p, reply.value) ==>
              exit.Committed?
  {
    hide RendezvousRoom.Core, RendezvousRoom.LedgerHolds, D.Consistent, SignedConflict, Stored, AllReadable,
      EveryControlReadable, ClaimsForeign, Tables.Fresh, BatchRan, Restored, Settles, DecidedBy, Explains, InRange,
      Runs.Persisted;
    var early := RotateForPublication(room, db, p, expected, f);
    if early.Some? {
      return early.value, None;
    }
    exit, reply := PersistAndSettle(room, db, p, f);
  }

  lemma SameServerItself(d: D.Directory, owner: A.Owner)
    ensures SameServer(d, d, owner)
  {
  }

  lemma BatchStored(batch: D.Directory, after: D.Directory, p: D.Publication)
    requires SameServer(batch, after, p.owner)
    ensures Stored(after, p.owner.server) == Stored(batch, p.owner.server)
  {
  }

  // ---- the exit that breaks the agreement ------------------------------------------------------

  function Ones(): (s: string)
    ensures Attachments.Hex64(s) && s != Findings.Zeros()
  {
    var s := seq(64, _ => '1');
    assert s[0] != Findings.Zeros()[0];
    s
  }

  function PublishedPresence(): D.Presence {
    D.Presence(0, Findings.Zeros(), "", "", "c", 0, None)
  }

  /** A directory that knows one private server, at the generation its room has. */
  function OneServer(): D.Directory {
    var owner := A.Owner(A.Classic, "s");
    D.Directory(
      map[owner := A.Replay("1", "n", "c")], map[], 0, map["s" := PublishedPresence()], map[], 0, 0, map[],
      D.Checkpoint(0, 0, 0, 0, [], 0), map[], None, None)
  }

  function NextGeneration(): D.Publication {
    D.Publication(
      A.Owner(A.Classic, "s"), "2", "m", 60, "d", 1, 0, false, "", Ones(), "", "")
  }

  function AllSucceed(): Faults {
    Faults(
      true, true, true, true, true, true, true, true, {}, true, true, true, true, OneServer(), true, true, true, true)
  }

  lemma OneServerIsSound()
    ensures D.Consistent(OneServer()) && Tables.Fresh(OneServer(), "d")
    ensures Stored(OneServer(), "s") == Some(Findings.Zeros())
    ensures SignedConflict(OneServer(), NextGeneration()).None?
  {
  }

  /**
   The input on which room and database part: every read, storage write and batch
   would succeed, but the control of the old generation can be neither demoted
   nor closed. The publication throws with the room already on the new generation
   and the database still on the old one.
   */
  method PartedByTeardown() returns (room: RendezvousRoom, db: Tables.Database, exit: Exit)
    ensures fresh(room) && fresh(db) && room.Core() && D.Consistent(db.Contents())
    ensures room.currentGeneration == Some(Ones()) && Stored(db.Contents(), "s") == Some(Findings.Zeros())
    ensures exit.Torn? && !Agree(room, db, "s")
  {
    hide RendezvousRoom.Core, RendezvousRoom.LedgerHolds, D.Consistent, SignedConflict, Stored, AllReadable,
      EveryControlReadable, Tables.Fresh, OneServer, NextGeneration, Findings.OwingServers, Findings.WaitingClients,
      Findings.Zeros, Ones, ClaimsForeign;
    OneServerIsSound();
    room := Findings.CurrentControl();
    room.faulty, room.stuck := true, true;
    db := new Tables.Database(OneServer());
    var p := NextGeneration();
    ControlIsForeign(room.servers);
    var torn, _ := CommitPublication(room, db, p, Some(Findings.Zeros()), AllSucceed());
    exit := torn;
  }

  method NoSockets() returns (room: RendezvousRoom)
    ensures fresh(room) && room.Core() && room.servers == map[] && room.clients == map[] && !room.faulty
    ensures room.currentGeneration == Some(Findings.Zeros())
  {
    hide Findings.Zeros;
    room := new RendezvousRoom();
    room.currentGeneration, room.storedGeneration := Some(Findings.Zeros()), Some(Findings.Zeros());
    room.faulty := false;
  }

  /**
   The other one: no socket, no fault in the room, but the batch never runs and
   the matcher cannot be read, so nothing moves the room back.
   */
  method PartedByLostBatch() returns (room: RendezvousRoom, db: Tables.Database, exit: Exit)
    ensures fresh(room) && fresh(db) && room.Core() && D.Consistent(db.Contents())
    ensures room.servers == map[] && room.clients == map[]
    ensures room.currentGeneration == Some(Ones()) && Stored(db.Contents(), "s") == Some(Findings.Zeros())
    ensures exit.Unsettled? && !Agree(room, db, "s")
  {
    hide RendezvousRoom.Core, RendezvousRoom.LedgerHolds, D.Consistent, SignedConflict, Stored, Tables.Fresh, OneServer,
      NextGeneration, LostBatch, Findings.Zeros, Ones, ClaimsForeign, BatchRan, Restored, AllReadable,
      EveryControlReadable;
    OneServerIsSound();
    LostBatchFails();
    room := NoSockets();
    db := new Tables.Database(OneServer());
    ControlIsForeign(room.servers);
    EmptyRoomReadable(room.servers, room.clients);
    ghost var before := db.Contents();
    var lost, reply := CommitPublication(room, db, NextGeneration(), Some(Findings.Zeros()), LostBatch());
    exit := lost;
    LostBatchStores(before, db.Contents(), NextGeneration(), reply);
    NeverRestored(reply, LostBatch());
  }

  /** The batch is never executed and the matcher throws; all else succeeds. */
  function LostBatch(): Faults {
    AllSucceed().(executed := false, matcherRead := false)
  }

  lemma LostBatchFails()
    ensures var f := LostBatch();
            && f.firstRead && f.publishedRead && f.firstStore && f.rotateStore && f.rotateAlarm && !f.executed
            && !f.matcherRead
  {
    hide OneServer;
  }

  lemma LostBatchStores(before: D.Directory, after: D.Directory, p: D.Publication, reply: Option<Runs.Reply>)
    ensures BatchRan(before, after, p, reply) && reply.None? ==>
              Stored(after, p.owner.server) == Stored(before, p.owner.server)
  {
  }

  lemma NeverRestored(reply: Option<Runs.Reply>, f: Faults)
    ensures reply.None? ==> !Restored(reply, f)
  {
  }

  lemma EmptyRoomReadable(servers: Servers, clients: Clients)
    ensures servers == map[] ==> EveryControlReadable(servers)
    ensures clients == map[] ==> AllReadable(clients)
  {
  }

  /** The first publication of a server that has no replay row, against a full nonce table. */
  function NewServer(): D.Directory {
    OneServer().(replay := map[], liveRoutes := A.NONCE_CAPACITY)
  }

  /** A known server's next publication, against a full nonce table. */
  function KnownServer(): D.Directory {
    OneServer().(liveRoutes := A.NONCE_CAPACITY)
  }

  /** Both are refused with nothing to report. */
  lemma RefusedWithoutConflict()
    ensures D.Consistent(NewServer()) && D.Consistent(KnownServer())
    ensures !D.Admits(NewServer(), NextGeneration()) && SignedConflict(NewServer(), NextGeneration()).None?
    ensures !D.Admits(KnownServer(), NextGeneration()) && SignedConflict(KnownServer(), NextGeneration()).None?
  {
    hide Ones, Findings.Zeros;
    OneServerIsSound();
  }

  lemma ControlIsForeign(servers: Servers)
    ensures servers == Findings.OwingServers() ==> ClaimsForeign(servers, 1, Some(NextGeneration().generation))
    ensures NextGeneration().owner.server == "s" && NextGeneration().generation == Ones()
    ensures NextGeneration().commit == "d"
  {
    hide Ones, Findings.Zeros;
  }
}
