/**
 One profile's directory tables and the effect of the three transactions that
 write them: a signed publication, an expiry and a checkpoint commit. Every
 visible change raises the revision and owes the builder one outbox row.
 */
module DirectoryState {
  import opened Options
  import opened Decimals
  import A = AccessState

  const MAX_ENTRIES: nat := 512
  const MAX_HISTORY: nat := 8

  /** The public fields of a listing; its fingerprint is injective, so they stand for it. */
  type Listing = string

  /** The ranked listing of a snapshot; its digest is injective, so it stands for it. */
  type Model = seq<(string, Listing)>

  datatype Presence = Presence(
    lastSeen: int, generation: string, tokenHash: string, private: string, commit: string, base: nat,
    visible: Option<nat>)

  datatype Checkpoint = Checkpoint(
    revision: nat, generation: nat, generatedAt: int, expiresAt: int, model: Model, publishedAt: int)

  datatype ExpiryMarker = ExpiryMarker(
    token: string, cutoff: int, committedAt: int, base: nat, visible: Option<nat>, entries: nat, stale: nat)
  datatype CommitMarker = CommitMarker(token: string, revision: nat, generation: nat)

  datatype Directory = Directory(
    replay: map<A.Owner, A.Replay>, nonces: map<A.NonceKey, int>, liveRoutes: nat,
    presence: map<string, Presence>, entries: map<string, Listing>, revision: nat, updatedAt: nat,
    outbox: map<nat, int>, checkpoint: Checkpoint, history: map<nat, int>,
    expiry: Option<ExpiryMarker>, committed: Option<CommitMarker>)

  datatype Publication = Publication(
    owner: A.Owner, sequence: Sequence, nonce: string, nonceExpiresAt: int, commit: string, now: int, cutoff: int,
    isPublic: bool, listing: Listing, generation: string, tokenHash: string, private: string)

  // ---- what every transaction keeps -----------------------------------------------

  /** The newest revision is owed to the builder exactly while the checkpoint is behind it. */
  function Owed(revision: nat, published: nat): set<nat> {
    if published < revision then {revision} else {}
  }

  predicate NothingLost(revision: nat, outbox: map<nat, int>, published: nat) {
    published <= revision && outbox.Keys == Owed(revision, published)
  }

  predicate Listed(presence: map<string, Presence>, entries: map<string, Listing>) {
    entries.Keys <= presence.Keys && |presence| <= MAX_ENTRIES
  }

  predicate Acknowledged(history: map<nat, int>, c: Checkpoint) {
    && |history| <= MAX_HISTORY
    && (forall g :: g in history ==> 1 <= g <= c.generation)
    && (c.generation > 0 ==> c.generation in history && history[c.generation] == c.publishedAt)
  }

  predicate Consistent(d: Directory) {
    && NothingLost(d.revision, d.outbox, d.checkpoint.revision)
    && Listed(d.presence, d.entries) && Acknowledged(d.history, d.checkpoint)
  }

  // ---- a signed publication ---------------------------------------------------------

  predicate Admits(d: Directory, p: Publication) {
    && A.NonceKey(p.owner, p.nonce) !in d.nonces
    && |d.nonces| + d.liveRoutes + 1 <= A.NONCE_CAPACITY
    && (p.owner in d.replay ==> After(p.sequence, d.replay[p.owner].lastSequence))
  }

  /** The publication changes what the directory shows of this server. */
  predicate VisibleChange(d: Directory, p: Publication) {
    var s := p.owner.server;
    if p.isPublic then
      !(s in d.entries && s in d.presence && d.presence[s].lastSeen > p.cutoff && d.entries[s] == p.listing)
    else s in d.entries
  }

  function PresenceFor(d: Directory, p: Publication): Presence {
    Presence(p.now, p.generation, p.tokenHash, p.private, p.commit, d.revision,
             if VisibleChange(d, p) then Some(d.revision + 1) else None)
  }

  function Max(a: int, b: int): int {
    if a >= b then a else b
  }

  /** A visible change moves the revision by one and leaves exactly that revision in the outbox. */
  function Shown(d: Directory, visible: bool, now: int): Directory {
    if visible then
      d.(revision := d.revision + 1, updatedAt := Max(d.updatedAt, now), outbox := map[d.revision + 1 := now])
    else d
  }

  function Published(d: Directory, p: Publication): Directory {
    var s := p.owner.server;
    Shown(d, VisibleChange(d, p), p.now).(
      replay := d.replay[p.owner := A.Replay(p.sequence, p.nonce, p.commit)],
      nonces := d.nonces[A.NonceKey(p.owner, p.nonce) := p.nonceExpiresAt],
      presence := d.presence[s := PresenceFor(d, p)],
      entries := if p.isPublic then d.entries[s := p.listing] else d.entries - {s})
  }

  // ---- an expiry ----------------------------------------------------------------------

  function Stale(d: Directory, cutoff: int): set<string> {
    set s | s in d.presence && d.presence[s].lastSeen <= cutoff
  }

  function StaleEntries(d: Directory, cutoff: int): set<string> {
    set s | s in d.entries && s in d.presence && d.presence[s].lastSeen <= cutoff
  }

  function MarkerFor(d: Directory, cutoff: int, now: int, token: string): ExpiryMarker {
    var gone := |StaleEntries(d, cutoff)|;
    ExpiryMarker(token, cutoff, now, d.revision, if gone > 0 then Some(d.revision + 1) else None, gone,
                 |Stale(d, cutoff)|)
  }

  function Expired(d: Directory, cutoff: int, now: int, token: string): Directory {
    Shown(d, StaleEntries(d, cutoff) != {}, now).(
      presence := d.presence - Stale(d, cutoff), entries := d.entries - Stale(d, cutoff),
      expiry := Some(MarkerFor(d, cutoff, now, token)))
  }

  // ---- a checkpoint commit --------------------------------------------------------------

  predicate ValidCommit(c: Checkpoint) {
    c.generation >= 1 && 0 <= c.generatedAt <= c.publishedAt < c.expiresAt
  }

  /** The checkpoint moves to a later generation of the current revision, or is confirmed unchanged. */
  predicate Committable(d: Directory, c: Checkpoint) {
    && d.revision == c.revision
    && ((d.checkpoint.generation < c.generation && d.checkpoint.revision <= c.revision) || d.checkpoint == c)
  }

  function Newer(h: set<nat>, g: nat): set<nat> {
    set k | k in h && k > g
  }

  function Newest(h: set<nat>, n: nat): set<nat> {
    set g | g in h && |Newer(h, g)| < n
  }

  function Retain(h: map<nat, int>, c: Checkpoint): map<nat, int> {
    var kept := if c.generation in h then h else h - (h.Keys - Newest(h.Keys, MAX_HISTORY - 1));
    kept[c.generation := c.publishedAt]
  }

  function Committed(d: Directory, c: Checkpoint, token: string): Directory {
    d.(checkpoint := c, history := Retain(d.history, c), outbox := map[],
       committed := Some(CommitMarker(token, c.revision, c.generation)))
  }

  // ---- counting -----------------------------------------------------------------------------

  lemma LeastOf(s: set<nat>) returns (least: nat)
    requires s != {}
    ensures least in s && forall k :: k in s ==> least <= k
    decreases |s|
  {
    var x :| x in s;
    if forall k :: k in s ==> x <= k {
      least := x;
    } else {
      var rest := s - {x};
      var y :| y in s && y < x;
      assert y in rest;
      least := LeastOf(rest);
      assert least <= y;
      assert forall k :: k in s ==> k == x || k in rest;
    }
  }

  /** Keeping what has fewer than n newer members keeps at most n. */
  lemma NewestBound(h: set<nat>, n: nat)
    ensures |Newest(h, n)| <= n
  {
    var kept := Newest(h, n);
    if |kept| > n {
      var least := LeastOf(kept);
      var others := kept - {least};
      assert kept == others + {least};
      A.Subsets(others, Newer(h, least));
    }
  }

  /** A set larger than n keeps exactly its n newest members. */
  lemma NewestFull(h: set<nat>, n: nat)
    requires |h| >= n
    ensures |Newest(h, n)| == n
  {
    NewestBound(h, n);
    var dropped := h - Newest(h, n);
    if dropped == {} {
      forall g | g in h
        ensures g in Newest(h, n)
      {
        assert g !in dropped;
      }
      A.Subsets(h, Newest(h, n));
    } else if |Newest(h, n)| < n {
      var top := GreatestOf(dropped);
      forall g | g in Newer(h, top)
        ensures g in Newest(h, n)
      {
        assert g !in dropped;
      }
      A.Subsets(Newer(h, top), Newest(h, n));
    }
  }

  lemma GreatestOf(s: set<nat>) returns (greatest: nat)
    requires s != {}
    ensures greatest in s && forall k :: k in s ==> k <= greatest
    decreases |s|
  {
    var x :| x in s;
    if forall k :: k in s ==> k <= x {
      greatest := x;
    } else {
      var rest := s - {x};
      var y :| y in s && y > x;
      assert y in rest;
      greatest := GreatestOf(rest);
      assert greatest >= y;
      assert forall k :: k in s ==> k == x || k in rest;
    }
  }

  // ---- the three transactions keep the tables consistent -----------------------------------------

  lemma ShownNothingLost(d: Directory, visible: bool, now: int)
    requires NothingLost(d.revision, d.outbox, d.checkpoint.revision)
    ensures var after := Shown(d, visible, now);
            && NothingLost(after.revision, after.outbox, after.checkpoint.revision)
            && after.checkpoint == d.checkpoint && after.history == d.history
            && after.presence == d.presence && after.entries == d.entries
  {
  }

  lemma PublicationKeepsConsistent(d: Directory, p: Publication)
    requires Consistent(d) && (p.owner.server in d.presence || |d.presence| < MAX_ENTRIES)
    ensures Consistent(Published(d, p))
  {
    hide Acknowledged, NothingLost, Shown, VisibleChange, PresenceFor;
    ShownNothingLost(d, VisibleChange(d, p), p.now);
    OneMorePresence(d.presence, p.owner.server, PresenceFor(d, p));
  }

  lemma OneMorePresence(presence: map<string, Presence>, s: string, row: Presence)
    ensures |presence[s := row]| <= if s in presence then |presence| else |presence| + 1
  {
    assert presence[s := row].Keys == presence.Keys + {s};
    assert |presence[s := row]| == |presence[s := row].Keys| && |presence| == |presence.Keys|;
    if s in presence {
      assert presence[s := row].Keys == presence.Keys;
    }
  }

  lemma ExpiryKeepsConsistent(d: Directory, cutoff: int, now: int, token: string)
    requires Consistent(d)
    ensures Consistent(Expired(d, cutoff, now, token))
  {
    hide Acknowledged, MarkerFor, NothingLost, Shown, Stale, StaleEntries;
    ShownNothingLost(d, StaleEntries(d, cutoff) != {}, now);
    ShrunkPresence(d.presence, Stale(d, cutoff));
  }

  lemma ShrunkPresence(presence: map<string, Presence>, gone: set<string>)
    ensures |presence - gone| <= |presence|
  {
    A.Subsets((presence - gone).Keys, presence.Keys);
    assert |presence - gone| == |(presence - gone).Keys| && |presence| == |presence.Keys|;
  }

  lemma KeptKeys(h: map<nat, int>, kept: set<nat>)
    requires kept <= h.Keys
    ensures (h - (h.Keys - kept)).Keys == kept
  {
  }

  lemma RetainBound(h: map<nat, int>, c: Checkpoint)
    requires |h| <= MAX_HISTORY
    ensures |Retain(h, c)| <= MAX_HISTORY
    ensures c.generation in h ==> Retain(h, c).Keys == h.Keys
    ensures c.generation !in h ==> Retain(h, c).Keys == Newest(h.Keys, MAX_HISTORY - 1) + {c.generation}
  {
    hide Newer, Newest;
    NewestWithin(h.Keys);
    NewestBound(h.Keys, MAX_HISTORY - 1);
    var kept := if c.generation in h then h else h - (h.Keys - Newest(h.Keys, MAX_HISTORY - 1));
    KeptKeys(h, Newest(h.Keys, MAX_HISTORY - 1));
    PutCount(kept, c.generation, c.publishedAt);
  }

  lemma NewestWithin(h: set<nat>)
    ensures Newest(h, MAX_HISTORY - 1) <= h
  {
  }

  lemma PutCount(h: map<nat, int>, g: nat, at: int)
    ensures h[g := at].Keys == h.Keys + {g}
    ensures |h| == |h.Keys| && |h[g := at]| == if g in h then |h| else |h| + 1
  {
    assert |h[g := at]| == |h[g := at].Keys| && |h| == |h.Keys|;
    if g in h {
      assert h[g := at].Keys == h.Keys;
    }
  }

  lemma CommitKeepsConsistent(d: Directory, c: Checkpoint, token: string)
    requires Consistent(d) && ValidCommit(c) && Committable(d, c)
    ensures Consistent(Committed(d, c, token))
    ensures Committed(d, c, token).outbox == map[] && c.generation in Committed(d, c, token).history
  {
    RetainBound(d.history, c);
  }

  /** A full ledger keeps exactly the new generation and the seven newest of its predecessors. */
  lemma FullLedgerKeepsSeven(d: Directory, c: Checkpoint, token: string)
    requires Consistent(d) && ValidCommit(c) && Committable(d, c)
    requires |d.history| == MAX_HISTORY && c.generation !in d.history
    ensures var kept := Committed(d, c, token).history;
            && |kept| == MAX_HISTORY && c.generation in kept && |kept.Keys - {c.generation}| == MAX_HISTORY - 1
            && forall g, h :: g in kept && g != c.generation && h in d.history && h !in kept ==> h < g
  {
    hide Newer;
    RetainBound(d.history, c);
    NewestWithin(d.history.Keys);
    assert |d.history| == |d.history.Keys|;
    NewestFull(d.history.Keys, MAX_HISTORY - 1);
    var kept := Committed(d, c, token).history;
    var newest := Newest(d.history.Keys, MAX_HISTORY - 1);
    assert kept.Keys == newest + {c.generation} && kept.Keys - {c.generation} == newest;
    assert |kept| == |kept.Keys|;
    forall g, h | g in newest && h in d.history && h !in newest
      ensures h < g
    {
      NewestAreNewer(d.history.Keys, MAX_HISTORY - 1, g, h);
    }
  }

  lemma NewestAreNewer(s: set<nat>, n: nat, g: nat, h: nat)
    requires g in Newest(s, n) && h in s && h !in Newest(s, n)
    ensures h < g
  {
    if g <= h {
      A.Subsets(Newer(s, h), Newer(s, g));
    }
  }

  /** The ledger keeps the seven newest predecessors of a new generation, and drops nothing while there is room. */
  lemma CommitRetainsPredecessors(d: Directory, c: Checkpoint, token: string, g: nat)
    requires Consistent(d) && ValidCommit(c) && Committable(d, c) && g in d.history
    ensures g in Committed(d, c, token).history <==>
              c.generation in d.history || |Newer(d.history.Keys, g)| < MAX_HISTORY - 1
  {
    RetainBound(d.history, c);
  }
}
