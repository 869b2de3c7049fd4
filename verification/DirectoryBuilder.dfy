/**
 The directory builder: one reconciliation reads a model, reserves a generation,
 writes its immutable objects, replaces the four aliases by compare-and-swap and
 commits the checkpoint. A script decides, at every await, what other builders
 and publishers write meanwhile and whether this builder crashes there.
 */
module DirectoryBuilder {
  import opened Options
  import opened DirectoryState
  import opened BuilderState
  import opened ExpiryQuantum
  import DirectoryRuns

  /** One await: the writes of others during it, and what the builder finds afterwards. */
  datatype Turn = Turn(others: seq<Write>, crash: bool, clock: int, succeeds: bool, heard: bool)

  datatype DirectoryModel = DirectoryModel(
    revision: nat, generatedAt: int, expiresAt: int, model: Model, hasPendingOutbox: bool)

  datatype Outcome =
    | Crashed | Failed | Superseded | Deferred
    | Current(generation: nat, purged: bool)
    | Published(generation: nat, purged: bool)

  datatype Round = Round(now: nat, rankings: seq<seq<string>>, modelFirst: bool, token: string, listed: seq<Key>)

  datatype Put = Stored | Conflict | Lost

  const MAX_ATTEMPTS: nat := 4
  const MAX_DELETES: nat := 64

  /** The immutable objects are written in rendering order, the manifest last. */
  const RENDERED: seq<Format> := [Html, Xml, Json, Manifest]

  function AliasOrder(classic: bool): seq<Format> {
    if classic then [Html, Json, Xml, Manifest] else [Html, Xml, Json, Manifest]
  }

  predicate InPublicationTime(clock: int, p: Pending) {
    p.generatedAt <= clock < p.expiresAt
  }

  // ---- reading the model -----------------------------------------------------------------

  predicate Ranks(d: Directory, ranked: seq<string>) {
    && (forall k :: 0 <= k < |ranked| ==>
          ranked[k] in d.entries && ranked[k] in d.presence && d.presence[ranked[k]].lastSeen >= 0)
    && (forall j, k :: 0 <= j < k < |ranked| ==> ranked[j] != ranked[k])
  }

  function LastSeen(d: Directory, ranked: seq<string>): (rows: seq<nat>)
    requires Ranks(d, ranked)
    ensures |rows| == |ranked| && forall k :: 0 <= k < |rows| ==> rows[k] == d.presence[ranked[k]].lastSeen
  {
    if ranked == [] then []
    else
      assert Ranks(d, ranked[..|ranked| - 1]);
      LastSeen(d, ranked[..|ranked| - 1]) + [d.presence[ranked[|ranked| - 1]].lastSeen]
  }

  function RankedListing(d: Directory, ranked: seq<string>): (model: Model)
    requires Ranks(d, ranked)
    ensures |model| == |ranked|
    ensures forall k :: 0 <= k < |model| ==> model[k] == (ranked[k], d.entries[ranked[k]])
  {
    if ranked == [] then []
    else
      assert Ranks(d, ranked[..|ranked| - 1]);
      RankedListing(d, ranked[..|ranked| - 1]) + [(ranked[|ranked| - 1], d.entries[ranked[|ranked| - 1]])]
  }

  lemma ListingLists(d: Directory, ranked: seq<string>)
    requires Ranks(d, ranked)
    ensures Lists(RankedListing(d, ranked), ranked, d.entries)
  {
  }

  // ---- facts that outlive an await --------------------------------------------------------------

  /** The generation is bound to this reservation. */
  predicate Holds(bound: map<nat, Pending>, p: Pending) {
    p.generation in bound && bound[p.generation] == p
  }

  /** Before its commit, a lone builder leaves the acknowledged part of the world alone. */
  predicate Quiet(a: World, b: World) {
    && (forall k :: k in a.generations ==> k in b.generations)
    && b.d1.history == a.d1.history && b.d1.checkpoint == a.d1.checkpoint
  }

  lemma HoldsStays(a: World, b: World, p: Pending)
    requires Evolves(a, b) && Holds(a.bound, p)
    ensures Holds(b.bound, p)
  {
  }

  lemma CarriedStays(a: World, b: World, f: Format, g: nat)
    requires Evolves(a, b) && Carried(a.aliases, f, g)
    ensures Carried(b.aliases, f, g)
  {
  }

  /** The token in storage identifies the reservation. */
  lemma TokenIdentifies(w: World, p: Pending)
    requires Inv(w) && Holds(w.bound, p) && w.storage.pending.Some? && w.storage.pending.value.token == p.token
    ensures w.storage.pending.value == p
  {
    hide Consistent, ObjectsBound, AliasesBound, AliasesReach, CheckpointBound;
  }

  lemma HeldFacts(w: World, p: Pending)
    requires Inv(w) && Holds(w.bound, p)
    ensures p.generation >= 1 && 0 <= p.generatedAt < p.expiresAt && p.generation <= w.storage.highWater
    ensures forall f :: f in w.aliases && w.aliases[f].generation == p.generation ==> w.aliases[f] == Rendered(f, p)
    ensures forall f: Format :: Key(p.generation, f) in w.generations ==>
              w.generations[Key(p.generation, f)] == Rendered(f, p)
  {
    hide Consistent, AliasesReach, CheckpointBound;
  }

  lemma TablesWriteIsPublishers(w: World, e: Write)
    requires e.Tables? && Allowed(w, e)
    ensures PublishersOnly(w, Apply(w, e))
  {
  }

  /** A quarter hour ahead of the model's time that neither the lifetime nor any ranked row falls short of. */
  ghost predicate Affords(d: Directory, ttl: int, ranked: seq<string>, now: nat, q: int) {
    && q % QUANTUM == 0 && now < q && d.updatedAt < q && q <= Max(now, d.updatedAt) + Lifetime(ttl)
    && forall k :: 0 <= k < |ranked| ==> ranked[k] in d.presence && q <= d.presence[ranked[k]].lastSeen + ttl
  }

  /**
   The listing can be published at this clock: some quarter hour every ranked
   row affords, and the interval of a reservation already held for this
   revision, leave an alias lifetime to spare.
   */
  ghost predicate Affordable(
    d: Directory, pending: Option<Pending>, ttl: int, clock: int, ranked: seq<string>, now: nat)
  {
    && Ranks(d, ranked) && now <= clock && d.updatedAt <= clock
    && (exists q: int :: Affords(d, ttl, ranked, now, q) && clock + ALIAS_LIFETIME < q)
    && (pending.Some? && pending.value.revision == d.revision ==>
          pending.value.generatedAt <= clock && clock + ALIAS_LIFETIME < pending.value.expiresAt)
  }

  class Builder {
    const solo: bool
    const classic: bool
    const ttl: int
    const lead: int
    const script: seq<Turn>
    const rest: Turn
    var d1: Directory
    var storage: Storage
    var generations: map<Key, Object>
    var aliases: map<Format, Object>
    var bound: map<nat, Pending>
    var draws: nat
    var position: nat

    function Now(): World
      reads this
    {
      World(d1, storage, generations, aliases, bound, draws)
    }

    constructor (w: World, solo: bool, classic: bool, ttl: int, lead: int, script: seq<Turn>, rest: Turn)
      ensures Now() == w && this.solo == solo && this.ttl == ttl && this.script == script && this.rest == rest
    {
      d1, storage, generations, aliases, bound, draws :=
        w.d1, w.storage, w.generations, w.aliases, w.bound, w.draws;
      this.solo, this.classic, this.ttl, this.lead := solo, classic, ttl, lead;
      this.script, this.rest, position := script, rest, 0;
    }

    /** From here on nobody else writes, nothing crashes and every answer arrives. */
    ghost predicate Calm()
      reads this`position
    {
      position >= |script| && rest.others == [] && !rest.crash && rest.succeeds && rest.heard
    }

    /** The reservation is ours, and at the calm clock its interval is running with an alias lifetime to spare. */
    ghost predicate Timely(p: Pending)
      reads this`storage
    {
      storage.pending == Some(p) && p.generatedAt <= rest.clock && rest.clock + ALIAS_LIFETIME < p.expiresAt
    }

    /** The reservation shows the newest revision under a generation the checkpoint has not reached. */
    ghost predicate Pushes(p: Pending)
      reads this`d1
    {
      d1.revision == p.revision && d1.checkpoint.generation < p.generation
    }

    /** What a reservation of this read would carry, new or resumed, leaves an alias lifetime to spare. */
    ghost predicate Roomy(model: DirectoryModel)
      reads this`storage
    {
      && model.generatedAt <= rest.clock && rest.clock + ALIAS_LIFETIME < model.expiresAt
      && (storage.pending.Some? && storage.pending.value.revision == model.revision ==>
            storage.pending.value.generatedAt <= rest.clock &&
            rest.clock + ALIAS_LIFETIME < storage.pending.value.expiresAt)
    }

    /** The tables' newest revision is published: its checkpoint, its aliases and nothing owed. */
    ghost predicate Settled(ranked: seq<string>)
      reads this`d1, this`aliases
    {
      && d1.checkpoint.revision == d1.revision && d1.outbox == map[] && Exact(aliases, d1.checkpoint)
      && |d1.checkpoint.model| == |ranked|
      && forall k :: 0 <= k < |ranked| ==>
           ranked[k] in d1.entries && d1.checkpoint.model[k] == (ranked[k], d1.entries[ranked[k]])
    }

    /** The atomic writes, each on its own store. */
    method Perform(e: Write)
      requires Inv(Now()) && Allowed(Now(), e)
      modifies this`d1, this`storage, this`generations, this`aliases, this`bound, this`draws
      ensures Now() == Apply(old(Now()), e) && Inv(Now()) && Evolves(old(Now()), Now())
    {
      hide Inv, Evolves, Committed, Rendered, ValidCommit, Committable, AliasesReach, Consistent, TablesAdvance;
      WriteKeeps(Now(), e);
      match e
      case Reservation(p) =>
        storage, bound, draws := Storage(p.generation, Some(p)), bound[p.generation := p], p.token + 1;
      case Release =>
        storage := storage.(pending := None);
      case Raise(highWater) =>
        storage := storage.(highWater := highWater);
      case CreateObject(key) =>
        generations := generations[key := Rendered(key.format, bound[key.generation])];
      case ReplaceAlias(f, g) =>
        aliases := aliases[f := Rendered(f, bound[g])];
      case Commit(c, token) =>
        d1 := Committed(d1, c, token);
      case Deletion(gone) =>
        generations := generations - gone;
      case Tables(tables) =>
        d1 := tables;
    }

    /** Others run while the builder waits; alone, only publications and expiries do. */
    method Await() returns (alive: bool, turn: Turn)
      requires Inv(Now())
      modifies this
      ensures Inv(Now()) && Evolves(old(Now()), Now())
      ensures solo ==> PublishersOnly(old(Now()), Now())
      ensures old(Calm()) ==> Calm() && alive && turn == rest && Now() == old(Now())
    {
      hide Inv, Evolves, Allowed, Apply, PublishersOnly;
      ghost var before := Now();
      StandsStill(before);
      turn := rest;
      if position < |script| {
        turn := script[position];
        position := position + 1;
      }
      var i := 0;
      while i < |turn.others|
        invariant Inv(Now()) && Evolves(before, Now()) && (solo ==> PublishersOnly(before, Now()))
        invariant old(Calm()) ==> Calm() && Now() == before
      {
        var e := turn.others[i];
        ghost var between := Now();
        if (!solo || e.Tables?) && Allowed(Now(), e) {
          Perform(e);
          EvolvesTransitive(before, between, Now());
          if solo {
            TablesWriteIsPublishers(between, e);
            PublishersTransitive(before, between, Now());
          }
        }
        i := i + 1;
      }
      alive := !turn.crash;
    }

    // ---- the reservation ------------------------------------------------------------------

    method ReadModel(now: nat, ranked: seq<string>) returns (model: Option<DirectoryModel>)
      requires ValidTtl(ttl)
      ensures model.Some? ==>
                && model.value.revision == d1.revision && Lists(model.value.model, ranked, d1.entries)
                && 0 <= model.value.generatedAt < model.value.expiresAt
                && (model.value.hasPendingOutbox <==> d1.outbox != map[])
      ensures model.Some? ==>
                && model.value.generatedAt == (if now >= d1.updatedAt then now else d1.updatedAt)
                && |model.value.model| == |ranked|
                && forall k :: 0 <= k < |ranked| ==>
                     ranked[k] in d1.entries && model.value.model[k] == (ranked[k], d1.entries[ranked[k]])
      ensures model.Some? ==> forall q: int :: Affords(d1, ttl, ranked, now, q) ==> q <= model.value.expiresAt
      ensures model.None? && Ranks(d1, ranked) ==>
                exists s :: s in ranked && Deadline(d1.presence[s].lastSeen, ttl) <= Max(now, d1.updatedAt)
      ensures model.None? && Ranks(d1, ranked) ==> forall q: int :: !Affords(d1, ttl, ranked, now, q)
    {
      hide Deadline;
      if !Ranks(d1, ranked) {
        return None;
      }
      var generatedAt: nat := Max(now, d1.updatedAt);
      var rows := LastSeen(d1, ranked);
      var expiry := SnapshotExpiry(generatedAt, ttl, rows);
      if expiry.None? {
        ghost var k :| 0 <= k < |rows| && Deadline(rows[k], ttl) <= generatedAt;
        assert ranked[k] in ranked;
        forall q: int
          ensures !Affords(d1, ttl, ranked, now, q)
        {
          PastDeadline(rows[k], ttl, generatedAt, q);
        }
        return None;
      }
      forall q: int | Affords(d1, ttl, ranked, now, q)
        ensures q <= expiry.value
      {
        assert Fits(q, generatedAt, ttl, rows);
      }
      ListingLists(d1, ranked);
      var listing := RankedListing(d1, ranked);
      model := Some(DirectoryModel(d1.revision, generatedAt, expiry.value, listing, d1.outbox != map[]));
    }

    /**
     A reservation of the same revision and model is resumed and re-renders
     identically; any other build takes a generation above every known one.
     */
    method ReserveBuild(model: DirectoryModel, known: Checkpoint, observed: nat, now: int) returns (p: Pending)
      requires Inv(Now()) && 0 <= model.generatedAt < model.expiresAt
      modifies this`d1, this`storage, this`generations, this`aliases, this`bound, this`draws
      ensures Inv(Now()) && Evolves(old(Now()), Now())
      ensures Holds(bound, p) && storage.pending == Some(p)
      ensures p.revision == model.revision && p.model == model.model
      ensures Now() == old(Now()) || Now() == Apply(old(Now()), Reservation(p))
      ensures Now() != old(Now()) ==>
                p.generation !in old(bound) && p.generation > known.generation && p.generation > observed
      ensures Now() != old(Now()) ==> p.generatedAt == model.generatedAt && p.expiresAt == model.expiresAt
      ensures p.generation > known.generation && p.generation >= observed
      ensures Now() == old(Now()) <==>
                && old(storage).pending.Some?
                && var q := old(storage).pending.value;
                && q.revision == model.revision && q.model == model.model && now < q.expiresAt <= model.expiresAt
                && q.generation > known.generation && q.generation >= observed
    {
      hide Evolves;
      StandsStill(Now());
      OwnedPending(Now());
      if storage.pending.Some? && storage.pending.value.revision == model.revision
         && storage.pending.value.model == model.model && model.expiresAt >= storage.pending.value.expiresAt
         && storage.pending.value.expiresAt > now && storage.pending.value.generation > known.generation
         && storage.pending.value.generation >= observed {
        return storage.pending.value;
      }
      hide Inv, Holds;
      var highest := if known.generation >= observed then known.generation else observed;
      var generation := 1 + if storage.highWater >= highest then storage.highWater else highest;
      p := Pending(draws, model.revision, generation, model.generatedAt, model.expiresAt, model.model);
      NewGeneration(Now(), p);
      Perform(Reservation(p));
      assert draws != old(draws);
    }

    method AssertPending(p: Pending) returns (alive: bool, held: bool, clock: int)
      requires Inv(Now()) && Holds(bound, p)
      modifies this
      ensures Inv(Now()) && Evolves(old(Now()), Now()) && Holds(bound, p)
      ensures solo ==> PublishersOnly(old(Now()), Now())
      ensures held <==> storage.pending == Some(p)
      ensures old(Calm()) ==> Calm() && alive && clock == rest.clock && Now() == old(Now())
    {
      hide Inv, Evolves, Holds, PublishersOnly;
      ghost var before := Now();
      var turn: Turn;
      alive, turn := Await();
      clock := turn.clock;
      HoldsStays(before, Now(), p);
      held := storage.pending.Some? && storage.pending.value.token == p.token;
      if held {
        TokenIdentifies(Now(), p);
      }
    }

    method AbandonPending(p: Pending)
      requires Inv(Now())
      modifies this`d1, this`storage, this`generations, this`aliases, this`bound, this`draws
      ensures Inv(Now()) && Evolves(old(Now()), Now())
      ensures Now() == old(Now()) || Now() == Apply(old(Now()), Release)
      ensures storage.pending != Some(p)
    {
      hide Inv, Evolves;
      StandsStill(Now());
      if storage.pending.Some? && storage.pending.value.token == p.token {
        Perform(Release);
      }
    }

    // ---- immutable objects ------------------------------------------------------------------

    /** Reads an object back under the validator of the head just seen. */
    method VerifyGeneration(key: Key, head: Object, image: Object) returns (alive: bool, same: bool)
      requires Inv(Now())
      modifies this
      ensures Inv(Now()) && Evolves(old(Now()), Now())
      ensures solo ==> PublishersOnly(old(Now()), Now())
      ensures same <==> key in generations && generations[key] == head && head == image
      ensures old(Calm()) ==> Calm() && alive && Now() == old(Now())
    {
      hide Inv, Evolves, PublishersOnly;
      var turn: Turn;
      alive, turn := Await();
      same := key in generations && generations[key] == head && head == image;
    }

    /** Writes an immutable object unless it exists. Only a concurrent deletion can make it conflict. */
    method PutImmutableGeneration(p: Pending, image: Object) returns (result: Put)
      requires Inv(Now()) && Holds(bound, p) && image == Rendered(image.format, p)
      modifies this
      ensures Inv(Now()) && Evolves(old(Now()), Now()) && Holds(bound, p)
      ensures result.Stored? ==> Key(p.generation, image.format) in generations
      ensures solo ==>
          result != Conflict && Quiet(old(Now()), Now()) && aliases == old(aliases) && storage == old(storage)
      ensures old(Calm()) ==> Calm() && result.Stored? && Now() == old(Now()).(generations := generations)
    {
      hide Inv, Evolves, Holds, PublishersOnly, Rendered, Quiet;
      ghost var before := Now();
      var key := Key(p.generation, image.format);
      var alive, turn := Await();
      StillHeld(before, Now(), p, solo);
      if !alive {
        return Lost;
      }
      HeldFacts(Now(), p);
      if key !in generations {
        ghost var seen := Now();
        alive, turn := Await();
        StillHeld(seen, Now(), p, solo);
        Chain(before, seen, Now(), solo);
        if !alive {
          return Lost;
        }
        if key !in generations {
          CreateKnown(before, Now(), p, image);
          ghost var absent := Now();
          Perform(CreateObject(key));
          Created(before, absent, Now(), p, image, solo);
        } else {
          ghost var lost := Now();
          alive, turn := Await();
          StillHeld(lost, Now(), p, solo);
          Chain(before, lost, Now(), solo);
          KeyKept(lost, Now(), key, solo);
          if !alive || key !in generations {
            return Lost;
          }
        }
      }
      ghost var stored := Now();
      HeldFacts(Now(), p);
      var head := generations[key];
      var same;
      alive, same := VerifyGeneration(key, head, image);
      StillHeld(stored, Now(), p, solo);
      Chain(before, stored, Now(), solo);
      KeyKept(stored, Now(), key, solo);
      result := if !alive then Lost else if same then Stored else Conflict;
    }

    /** All four objects, each confirmed under the reservation before the next. */
    method PutGeneration(p: Pending) returns (stop: Option<Outcome>)
      requires Inv(Now()) && Holds(bound, p)
      modifies this
      ensures Inv(Now()) && Evolves(old(Now()), Now()) && Holds(bound, p)
      ensures solo ==> Quiet(old(Now()), Now()) && aliases == old(aliases)
      ensures solo && stop.None? ==> forall f: Format :: Key(p.generation, f) in generations
      ensures stop.Some? ==> stop.value in {Crashed, Superseded}
      ensures old(Calm()) && old(storage).pending == Some(p) ==>
                Calm() && stop.None? && Now() == old(Now()).(generations := generations)
    {
      hide Inv, Evolves, Holds, PublishersOnly, Quiet;
      ghost var before := Now();
      StandsQuiet(before);
      var i := 0;
      while i < |RENDERED|
        invariant 0 <= i <= |RENDERED|
        invariant Inv(Now()) && Evolves(before, Now()) && Holds(bound, p)
        invariant old(Calm()) ==> Calm() && Now() == before.(generations := generations)
        invariant solo ==> Quiet(before, Now()) && aliases == before.aliases
        invariant solo ==> forall j :: 0 <= j < i ==> Key(p.generation, RENDERED[j]) in generations
      {
        ghost var start := Now();
        var result := PutImmutableGeneration(p, Rendered(RENDERED[i], p));
        Chain(before, start, Now(), solo);
        QuietKeeps(start, Now(), p, solo);
        if result.Lost? {
          return Some(Crashed);
        }
        ghost var written := Now();
        if result.Conflict? {
          AbandonPending(p);
          AbandonQuiet(before, written, Now(), p);
          return Some(Superseded);
        }
        var alive, held, _ := AssertPending(p);
        StillHeld(written, Now(), p, solo);
        Chain(before, written, Now(), solo);
        if !alive || !held {
          return Some(if !alive then Crashed else Superseded);
        }
        i := i + 1;
      }
      stop := None;
      AllRendered(generations, p.generation);
    }

    // ---- public aliases ---------------------------------------------------------------------------

    method VerifyAlias(f: Format, head: Object, image: Object) returns (alive: bool, same: bool)
      requires Inv(Now())
      modifies this
      ensures Inv(Now()) && Evolves(old(Now()), Now())
      ensures solo ==> PublishersOnly(old(Now()), Now())
      ensures same <==> f in aliases && aliases[f] == head && head == image
      ensures old(Calm()) ==> Calm() && alive && Now() == old(Now())
    {
      hide Inv, Evolves, PublishersOnly;
      var turn: Turn;
      alive, turn := Await();
      same := f in aliases && aliases[f] == head && head == image;
    }

    /**
     Replaces an alias by compare-and-swap on the object just seen. A newer
     generation is never overwritten, and success means the alias carries these
     bytes; alone, the builder meets no conflict with an older alias.
     */
    method PutPublicAlias(p: Pending, image: Object) returns (result: Put)
      requires Inv(Now()) && Holds(bound, p) && image == Rendered(image.format, p)
      modifies this
      ensures Inv(Now()) && Evolves(old(Now()), Now()) && Holds(bound, p)
      ensures result.Stored? ==> image.format in aliases && aliases[image.format] == image
      ensures solo ==> Quiet(old(Now()), Now()) && storage == old(storage)
      ensures solo ==> aliases == old(aliases) || aliases == old(aliases)[image.format := image]
      ensures solo && (image.format in old(aliases) ==> old(aliases)[image.format].generation <= p.generation) ==>
                result != Conflict
      ensures old(Calm()) && (image.format in old(aliases) ==> old(aliases)[image.format].generation <= p.generation)
              ==> Calm() && result.Stored? && Now() == old(Now()).(aliases := old(aliases)[image.format := image])
    {
      hide Inv, Evolves, Holds, PublishersOnly, Quiet;
      ghost var before := Now();
      var f := image.format;
      var alive, turn := Await();
      StillHeld(before, Now(), p, solo);
      if !alive {
        return Lost;
      }
      HeldFacts(Now(), p);
      if f in aliases && aliases[f].generation > p.generation {
        return Conflict;
      }
      ghost var seen := Now();
      var same;
      if f in aliases && aliases[f].generation == p.generation {
        alive, same := VerifyAlias(f, aliases[f], image);
        StillHeld(seen, Now(), p, solo);
        Chain(before, seen, Now(), solo);
        return if !alive then Lost else if same then Stored else Conflict;
      }
      result := SwapAlias(p, image, if f in aliases then Some(aliases[f]) else None);
      Chain(before, seen, Now(), solo);
    }

    /** The compare-and-swap itself, over the object its head returned. */
    method SwapAlias(p: Pending, image: Object, existing: Option<Object>) returns (result: Put)
      requires Inv(Now()) && Holds(bound, p) && image == Rendered(image.format, p)
      requires existing.Some? ==> existing.value.generation < p.generation
      requires if existing.Some? then image.format in aliases && aliases[image.format] == existing.value
               else image.format !in aliases
      modifies this
      ensures Inv(Now()) && Evolves(old(Now()), Now()) && Holds(bound, p)
      ensures result.Stored? ==> image.format in aliases && aliases[image.format] == image
      ensures solo ==> Quiet(old(Now()), Now()) && storage == old(storage) && result != Conflict
      ensures solo ==> aliases == old(aliases) || aliases == old(aliases)[image.format := image]
      ensures old(Calm()) ==>
                Calm() && result.Stored? && Now() == old(Now()).(aliases := old(aliases)[image.format := image])
    {
      hide Inv, Evolves, Holds, PublishersOnly, Quiet;
      ghost var before := Now();
      var f := image.format;
      var alive, turn := Await();
      StillHeld(before, Now(), p, solo);
      if !alive {
        return Lost;
      }
      ghost var seen := Now();
      var current := if existing.Some? then f in aliases && aliases[f] == existing.value else f !in aliases;
      if current {
        SwapKnown(Now(), p, image);
        Perform(ReplaceAlias(f, p.generation));
        Swapped(before, seen, Now(), p, image, solo);
      } else {
        alive, turn := Await();
        StillHeld(seen, Now(), p, solo);
        Chain(before, seen, Now(), solo);
        if !alive || f !in aliases {
          return Lost;
        }
      }
      if aliases[f].generation > p.generation {
        return Conflict;
      }
      ghost var stored := Now();
      var same;
      alive, same := VerifyAlias(f, aliases[f], image);
      StillHeld(stored, Now(), p, solo);
      Chain(before, stored, Now(), solo);
      result := if !alive then Lost else if same then Stored else Conflict;
    }

    /** The reservation must still be ours, within its interval and far enough from its expiry. */
    method AssertFresh(p: Pending) returns (stop: Option<Outcome>)
      requires Inv(Now()) && Holds(bound, p)
      modifies this
      ensures Inv(Now()) && Evolves(old(Now()), Now()) && Holds(bound, p)
      ensures solo ==> Quiet(old(Now()), Now()) && aliases == old(aliases) && generations == old(generations)
      ensures stop.Some? ==> stop.value in {Crashed, Superseded, Failed}
      ensures old(Calm()) && old(Timely(p)) ==> Calm() && stop.None? && Now() == old(Now())
    {
      hide Inv, Evolves, Holds, PublishersOnly, Quiet;
      ghost var before := Now();
      var alive, held, clock := AssertPending(p);
      StillHeld(before, Now(), p, solo);
      if !alive || !held {
        return Some(if !alive then Crashed else Superseded);
      }
      if !InPublicationTime(clock, p) || clock + ALIAS_LIFETIME >= p.expiresAt {
        ghost var seen := Now();
        AbandonPending(p);
        AbandonQuiet(before, seen, Now(), p);
        return Some(Failed);
      }
      stop := None;
    }

    /** Replaces the aliases in publication order, the manifest last, then reads all of them back. */
    method PublishAliases(p: Pending) returns (stop: Option<Outcome>)
      requires Inv(Now()) && Holds(bound, p)
      modifies this
      ensures Inv(Now()) && Evolves(old(Now()), Now()) && Holds(bound, p)
      ensures stop.None? ==> AliasesReach(aliases, p.generation)
      ensures solo ==> Quiet(old(Now()), Now())
      ensures solo && stop.None? ==> forall f: Format :: f in aliases && aliases[f] == Rendered(f, p)
      ensures stop.Some? ==> stop.value in {Crashed, Superseded, Failed}
      ensures old(Calm()) && old(Timely(p)) && NoneNewer(old(aliases), p.generation) ==>
                && Calm() && stop.None? && Now() == old(Now()).(aliases := aliases)
                && forall f: Format :: f in aliases && aliases[f] == Rendered(f, p)
    {
      hide Inv, Evolves, Holds, PublishersOnly, Quiet, Carried, Rendered, NoneNewer;
      ghost var before := Now();
      ghost var calm := Calm() && Timely(p) && NoneNewer(aliases, p.generation);
      StandsQuiet(before);
      var order := AliasOrder(classic);
      var i := 0;
      while i < |order|
        invariant 0 <= i <= |order|
        invariant Inv(Now()) && Evolves(before, Now()) && Holds(bound, p)
        invariant CarriesPrefix(aliases, order[..i], p.generation)
        invariant solo ==> Quiet(before, Now()) && ExactPrefix(aliases, order[..i], p)
        invariant calm ==>
                    && Calm() && Now() == before.(aliases := aliases)
                    && NoneNewer(aliases, p.generation) && ExactPrefix(aliases, order[..i], p)
      {
        ghost var start := Now();
        stop := PublishAlias(p, order[i]);
        Chain(before, start, Now(), solo);
        PrefixStays(start, Now(), order, i, p, solo || calm, stop.None?);
        NewerStays(start.aliases, order[i], p);
        if stop.Some? {
          return;
        }
        i := i + 1;
      }
      AllOrdered(aliases, classic, p);
      ghost var published := Now();
      stop := VerifyPublishedObjects(p);
      ReachStays(published, Now(), p.generation);
      Chain(before, published, Now(), solo);
    }

    /** One alias: fresh, replaced, and still under our reservation. */
    method PublishAlias(p: Pending, f: Format) returns (stop: Option<Outcome>)
      requires Inv(Now()) && Holds(bound, p)
      modifies this
      ensures Inv(Now()) && Evolves(old(Now()), Now()) && Holds(bound, p)
      ensures stop.None? ==> Carried(aliases, f, p.generation)
      ensures solo ==>
          Quiet(old(Now()), Now()) && (aliases == old(aliases) || aliases == old(aliases)[f := Rendered(f, p)])
      ensures solo && stop.None? ==> f in aliases && aliases[f] == Rendered(f, p)
      ensures stop.Some? ==> stop.value in {Crashed, Superseded, Failed}
      ensures old(Calm()) && old(Timely(p)) && NoneNewer(old(aliases), p.generation) ==>
                Calm() && stop.None? && Now() == old(Now()).(aliases := old(aliases)[f := Rendered(f, p)])
    {
      hide Inv, Evolves, Holds, PublishersOnly, Quiet;
      ghost var before := Now();
      stop := AssertFresh(p);
      if stop.Some? {
        return;
      }
      ghost var checked := Now();
      var result := PutPublicAlias(p, Rendered(f, p));
      Chain(before, checked, Now(), solo);
      ghost var put := Now();
      if result.Conflict? {
        AbandonPending(p);
        AbandonQuiet(before, put, Now(), p);
        return Some(Superseded);
      }
      if result.Lost? {
        return Some(Crashed);
      }
      var alive, held, _ := AssertPending(p);
      StillHeld(put, Now(), p, solo);
      Chain(before, put, Now(), solo);
      CarriedStays(put, Now(), f, p.generation);
      stop := if alive && held then None else Some(if !alive then Crashed else Superseded);
    }

    method VerifyPublishedObjects(p: Pending) returns (stop: Option<Outcome>)
      requires Inv(Now()) && Holds(bound, p)
      modifies this
      ensures Inv(Now()) && Evolves(old(Now()), Now()) && Holds(bound, p)
      ensures solo ==> Quiet(old(Now()), Now()) && aliases == old(aliases)
      ensures stop.Some? ==> stop.value in {Crashed, Superseded}
      ensures solo && stop.None? ==> storage.pending == Some(p)
      ensures old(Calm()) && old(storage).pending == Some(p) && AllExact(old(aliases), p) ==>
                Calm() && stop.None? && Now() == old(Now())
    {
      hide Inv, Evolves, Holds, PublishersOnly, Quiet;
      ghost var before := Now();
      StandsQuiet(before);
      var i := 0;
      while i < |RENDERED|
        invariant 0 <= i <= |RENDERED|
        invariant Inv(Now()) && Evolves(before, Now()) && Holds(bound, p)
        invariant old(Calm()) && AllExact(before.aliases, p) ==> Calm() && Now() == before
        invariant solo ==> Quiet(before, Now()) && aliases == before.aliases
      {
        var f := RENDERED[i];
        ghost var start := Now();
        var alive, turn := Await();
        StillHeld(start, Now(), p, solo);
        Chain(before, start, Now(), solo);
        if !alive {
          return Some(Crashed);
        }
        ghost var seen := Now();
        var same := false;
        if f in aliases {
          alive, same := VerifyAlias(f, aliases[f], Rendered(f, p));
          StillHeld(seen, Now(), p, solo);
          Chain(before, seen, Now(), solo);
        }
        if !alive {
          return Some(Crashed);
        }
        if !same {
          ghost var read := Now();
          AbandonPending(p);
          AbandonQuiet(before, read, Now(), p);
          return Some(Superseded);
        }
        i := i + 1;
      }
      ghost var last := Now();
      var alive, held, _ := AssertPending(p);
      StillHeld(last, Now(), p, solo);
      Chain(before, last, Now(), solo);
      stop := if alive && held then None else Some(if !alive then Crashed else Superseded);
    }

    // ---- the checkpoint ------------------------------------------------------------------------

    /** The checkpoint transaction: it may fail, or commit with its answer lost. */
    method TryCommit(c: Checkpoint, token: string) returns (alive: bool, told: bool)
      requires Inv(Now()) && ValidCommit(c) && CheckpointBound(c, bound) && AliasesReach(aliases, c.generation)
      modifies this
      ensures Inv(Now()) && Evolves(old(Now()), Now())
      ensures told ==> d1.checkpoint == c
      ensures solo ==> CommitsAtMost(old(Now()), Now(), c)
      ensures old(Calm()) && Committable(old(d1), c) ==>
                Calm() && alive && told && Now() == old(Now()).(d1 := Committed(old(d1), c, token))
    {
      hide Inv, Evolves, PublishersOnly, CheckpointBound, AliasesReach, Committable, Consistent, CommitsAtMost;
      ghost var before := Now();
      var turn;
      alive, turn := Await();
      told := false;
      MayCommit(before, Now(), c, token, solo);
      if alive && turn.succeeds && Committable(d1, c) {
        ghost var waited := Now();
        Perform(Commit(c, token));
        EvolvesTransitive(before, waited, Now());
        told := turn.heard;
      }
    }

    /**
     Commits a fully published generation, if the revision is still the one it
     shows and its interval still runs. An error is settled by reading the
     checkpoint back.
     */
    method CommitGeneration(p: Pending, token: string) returns (stop: Option<Outcome>)
      requires Inv(Now()) && Holds(bound, p) && AliasesReach(aliases, p.generation)
      modifies this
      ensures Inv(Now()) && Evolves(old(Now()), Now()) && Holds(bound, p)
      ensures stop.None? ==> d1.checkpoint.generation >= p.generation
      ensures solo && stop.None? ==> d1.checkpoint == CheckpointOf(p, d1.checkpoint.publishedAt)
      ensures solo ==> exists at :: CommitsAtMost(old(Now()), Now(), CheckpointOf(p, at))
      ensures stop.Some? ==> stop.value in {Crashed, Superseded, Failed}
      ensures old(Calm()) && old(Timely(p)) && old(Pushes(p)) ==>
                && Calm() && stop.None? && d1.checkpoint == CheckpointOf(p, rest.clock) && d1.revision == p.revision
                && storage == old(storage) && aliases == old(aliases)
    {
      hide Inv, Evolves, Holds, PublishersOnly, AliasesReach, CommitsAtMost, CheckpointBound;
      ghost var before := Now();
      var alive, turn := Await();
      StillHeld(before, Now(), p, solo);
      ReachStays(before, Now(), p.generation);
      var c := CheckpointOf(p, turn.clock);
      QuietCommits(before, Now(), c, solo);
      if !alive {
        return Some(Crashed);
      }
      ghost var read := Now();
      if d1.revision != p.revision || !InPublicationTime(turn.clock, p) {
        AbandonPending(p);
        AbandonQuiet(before, read, Now(), p);
        AbandonCommits(before, read, Now(), c, solo);
        return Some(if d1.revision != p.revision then Superseded else Failed);
      }
      CheckpointOfHeld(read, p, turn.clock);
      if d1.checkpoint.generation < p.generation {
        MayPush(read, p, turn.clock);
      }
      var told;
      alive, told := TryCommit(c, token);
      HoldsStays(read, Now(), p);
      EvolvesTransitive(before, read, Now());
      ChainCommits(before, read, Now(), c, solo);
      if !alive || told {
        return if alive then None else Some(Crashed);
      }
      stop := SettleCommit(before, p, c);
    }

    /** After a failed or unheard commit: read the checkpoint, then the revision. */
    method SettleCommit(ghost before: World, p: Pending, c: Checkpoint) returns (stop: Option<Outcome>)
      requires Inv(Now()) && Evolves(before, Now()) && Holds(bound, p) && c == CheckpointOf(p, c.publishedAt)
      requires solo ==> CommitsAtMost(before, Now(), c)
      modifies this
      ensures Inv(Now()) && Evolves(before, Now()) && Holds(bound, p)
      ensures stop.None? ==> d1.checkpoint == c
      ensures solo ==> CommitsAtMost(before, Now(), c)
      ensures stop.Some? ==> stop.value in {Crashed, Superseded, Failed}
    {
      hide Inv, Evolves, Holds, PublishersOnly, CommitsAtMost;
      ghost var asked := Now();
      var alive, turn := Await();
      HoldsStays(asked, Now(), p);
      EvolvesTransitive(before, asked, Now());
      CommitsLater(before, asked, Now(), c, solo);
      if !alive || d1.checkpoint == c {
        return if alive then None else Some(Crashed);
      }
      ghost var settled := Now();
      alive, turn := Await();
      HoldsStays(settled, Now(), p);
      EvolvesTransitive(before, settled, Now());
      CommitsLater(before, settled, Now(), c, solo);
      if !alive || d1.revision <= p.revision {
        return Some(if alive then Failed else Crashed);
      }
      ghost var last := Now();
      AbandonPending(p);
      AbandonQuiet(before, last, Now(), p);
      AbandonCommits(before, last, Now(), c, solo);
      stop := Some(Superseded);
    }

    // ---- one build -------------------------------------------------------------------------------

    /** Two independent reads, in either order; a revision behind the checkpoint fails. */
    method ReadState(now: nat, ranked: seq<string>, modelFirst: bool)
      returns (alive: bool, model: Option<DirectoryModel>, known: Checkpoint)
      requires Inv(Now()) && ValidTtl(ttl)
      modifies this
      ensures Inv(Now()) && Evolves(old(Now()), Now())
      ensures solo ==> PublishersOnly(old(Now()), Now())
      ensures known.generation <= d1.checkpoint.generation && CheckpointBound(known, bound)
      ensures solo ==> known == d1.checkpoint
      ensures model.Some? ==> Shows(d1, model.value.revision, model.value.model, ranked)
      ensures model.Some? ==> model.value.revision >= known.revision
      ensures model.Some? ==> 0 <= model.value.generatedAt < model.value.expiresAt
      ensures old(Calm()) ==>
                && Calm() && alive && Now() == old(Now()) && known == d1.checkpoint
                && (model.Some? ==>
                      && model.value.revision == d1.revision
                      && model.value.generatedAt == (if now >= d1.updatedAt then now else d1.updatedAt)
                      && (model.value.hasPendingOutbox <==> d1.outbox != map[])
                      && forall q: int :: Affords(d1, ttl, ranked, now, q) ==> q <= model.value.expiresAt)
                && (model.None? ==> !Ranks(d1, ranked) || forall q: int :: !Affords(d1, ttl, ranked, now, q))
    {
      hide Inv, Evolves, PublishersOnly, CheckpointBound, Shows, Lists, Ranks, Affords, Deadline;
      ghost var before := Now();
      var turn;
      CheckpointBehind(before);
      alive, turn := Await();
      ghost var first := Now();
      known := d1.checkpoint;
      KnownCheckpoint(Now());
      model := None;
      if !alive {
        return;
      }
      if modelFirst {
        model := ReadModel(now, ranked);
        ReadShows(d1, model, ranked);
      }
      alive, turn := Await();
      LaterKnown(before, first, Now(), known, solo);
      if model.Some? {
        ShowsStays(first, Now(), model.value.revision, model.value.model, ranked);
      }
      if modelFirst {
        known := d1.checkpoint;
        KnownCheckpoint(Now());
      } else {
        model := ReadModel(now, ranked);
        ReadShows(d1, model, ranked);
      }
      if model.Some? && model.value.revision < known.revision {
        model := None;
      }
    }

    /** The generations the four public heads report, at four separate moments. */
    method ReadPublicGeneration() returns (alive: bool, observed: nat)
      requires Inv(Now())
      modifies this
      ensures Inv(Now()) && Evolves(old(Now()), Now())
      ensures solo ==> PublishersOnly(old(Now()), Now())
      ensures solo && alive ==> forall f :: f in aliases ==> aliases[f].generation <= observed
      ensures old(Calm()) ==> Calm() && alive && Now() == old(Now()) && NoneNewer(aliases, observed)
    {
      hide Inv, Evolves, PublishersOnly;
      ghost var before := Now();
      StandsStill(before);
      observed, alive := 0, true;
      var i := 0;
      while i < |RENDERED|
        invariant 0 <= i <= |RENDERED|
        invariant Inv(Now()) && Evolves(before, Now()) && (solo ==> PublishersOnly(before, Now()))
        invariant old(Calm()) ==> Calm() && Now() == before
        invariant solo || old(Calm()) ==>
                    forall j :: 0 <= j < i && RENDERED[j] in aliases ==> aliases[RENDERED[j]].generation <= observed
      {
        ghost var start := Now();
        var turn;
        alive, turn := Await();
        EvolvesTransitive(before, start, Now());
        if solo {
          SameAliases(start, Now());
          PublishersTransitive(before, start, Now());
        }
        if !alive {
          return;
        }
        if RENDERED[i] in aliases && aliases[RENDERED[i]].generation > observed {
          observed := aliases[RENDERED[i]].generation;
        }
        i := i + 1;
      }
      AllObserved(aliases, observed);
    }

    /** Whether every alias still is the checkpoint's own object. */
    method PublishedAliasesMatch(c: Checkpoint) returns (alive: bool, matching: bool)
      requires Inv(Now())
      modifies this
      ensures Inv(Now()) && Evolves(old(Now()), Now())
      ensures solo ==> PublishersOnly(old(Now()), Now())
      ensures solo && alive && matching ==> Exact(aliases, c)
      ensures old(Calm()) ==> Calm() && alive && Now() == old(Now()) && (matching <==> Exact(aliases, c))
    {
      hide Inv, Evolves, PublishersOnly;
      ghost var before := Now();
      StandsStill(before);
      alive, matching := true, true;
      var i := 0;
      while i < |RENDERED| && matching
        invariant 0 <= i <= |RENDERED|
        invariant old(Calm()) ==> Calm() && Now() == before
        invariant solo || old(Calm()) ==> (matching ==> forall j :: 0 <= j < i ==> ExactAt(aliases, RENDERED[j], c))
        invariant old(Calm()) && !matching ==> !Exact(aliases, c)
        invariant Inv(Now()) && Evolves(before, Now()) && (solo ==> PublishersOnly(before, Now()))
      {
        ghost var start := Now();
        var turn;
        alive, turn := Await();
        EvolvesTransitive(before, start, Now());
        if solo {
          PublishersTransitive(before, start, Now());
        }
        if !alive {
          return;
        }
        var f := RENDERED[i];
        matching := f in aliases && aliases[f] == Render(f, c.generation, c.generatedAt, c.expiresAt, c.model);
        if solo {
          SameAliases(start, Now());
        }
        i := i + 1;
      }
      AllMatched(aliases, c);
    }

    /**
     Purging the edge cache may fail, or find another checkpoint; only a purge of
     this generation is complete. A builder that lost its storage meanwhile stops.
     */
    method PurgeCommittedGeneration(generation: nat) returns (alive: bool, purged: bool)
      requires Inv(Now())
      modifies this
      ensures Inv(Now()) && Evolves(old(Now()), Now())
      ensures solo ==> PublishersOnly(old(Now()), Now())
      ensures purged ==> d1.checkpoint.generation == generation
      ensures old(Calm()) ==>
                Calm() && alive && Now() == old(Now()) && (purged <==> d1.checkpoint.generation == generation)
    {
      hide Inv, Evolves, PublishersOnly;
      var turn;
      alive, turn := Await();
      purged := turn.succeeds && d1.checkpoint.generation == generation;
    }

    /** Nothing to build: acknowledge what is owed, and clear the purge journal of the checkpoint. */
    method ConfirmCurrent(model: DirectoryModel, known: Checkpoint, token: string) returns (outcome: Outcome)
      requires Inv(Now()) && known.generation > 0 && known.generation <= d1.checkpoint.generation
      requires CheckpointBound(known, bound)
      modifies this
      ensures Inv(Now()) && Evolves(old(Now()), Now())
      ensures outcome.Current? || outcome in {Crashed, Superseded, Failed}
      ensures outcome.Current? ==> outcome.generation == known.generation
      ensures solo && known == old(d1).checkpoint ==> SameHistory(old(Now()), Now(), known)
      ensures old(Calm()) && old(d1).revision == model.revision && !model.hasPendingOutbox
              && old(d1).checkpoint == known ==>
                Calm() && outcome == Current(known.generation, true) && Now() == old(Now()).(storage := storage)
    {
      hide Inv, Evolves, PublishersOnly, CheckpointBound, AliasesReach, SameHistory, Consistent;
      ghost var before := Now();
      SameStands(before, known);
      var alive, turn := Await();
      SameAwait(before, before, Now(), known, solo);
      if !alive || d1.revision != model.revision {
        return if alive then Superseded else Crashed;
      }
      ghost var read := Now();
      if model.hasPendingOutbox {
        CheckpointReaches(before, read, known);
        var told;
        if ValidCommit(known) {
          alive, told := TryCommit(known, token);
          EvolvesTransitive(before, read, Now());
          SameCommit(before, read, Now(), known, solo);
        } else {
          told := false;
        }
        if !alive || !told {
          return if alive then Failed else Crashed;
        }
      }
      outcome := ClearCommitted(before, known);
    }

    /** The pending build that the checkpoint already carries is dropped once its purge succeeded. */
    method ClearCommitted(ghost before: World, known: Checkpoint) returns (outcome: Outcome)
      requires Inv(Now()) && Evolves(before, Now())
      requires solo && known == before.d1.checkpoint ==> SameHistory(before, Now(), known)
      modifies this
      ensures Inv(Now()) && Evolves(before, Now())
      ensures outcome.Current? || outcome == Crashed
      ensures outcome.Current? ==> outcome.generation == known.generation
      ensures solo && known == before.d1.checkpoint ==> SameHistory(before, Now(), known)
      ensures old(Calm()) && old(d1).checkpoint == known ==>
                Calm() && outcome == Current(known.generation, true) && Now() == old(Now()).(storage := storage)
    {
      hide Inv, Evolves, PublishersOnly, SameHistory;
      var state := storage;
      if state.pending.Some? && state.pending.value.generation == known.generation
         && state.pending.value.revision == known.revision && state.pending.value.model == known.model {
        ghost var asked := Now();
        var alive, purged := PurgeCommittedGeneration(known.generation);
        EvolvesTransitive(before, asked, Now());
        SameAwait(before, asked, Now(), known, solo);
        if !alive || storage != state {
          return Crashed;
        }
        if purged {
          ghost var done := Now();
          Perform(Release);
          EvolvesTransitive(before, done, Now());
          SameRelease(before, done, Now(), known);
        }
        return Current(known.generation, purged);
      }
      outcome := Current(known.generation, true);
    }

    /** Purges the committed generation and, once that succeeded, clears its reservation. */
    method CompleteGeneration(p: Pending) returns (outcome: Outcome)
      requires Inv(Now()) && Holds(bound, p)
      modifies this
      ensures Inv(Now()) && Evolves(old(Now()), Now())
      ensures outcome in {Crashed, Failed, Published(p.generation, true), Published(p.generation, false)}
      ensures solo ==> Quiet(old(Now()), Now()) && aliases == old(aliases)
      ensures old(Calm()) && old(storage).pending == Some(p) && old(d1).checkpoint.generation == p.generation ==>
                && Calm() && outcome == Published(p.generation, true) && storage.pending.None?
                && Now() == old(Now()).(storage := storage)
    {
      hide Inv, Evolves, Holds, PublishersOnly, Quiet;
      ghost var before := Now();
      var alive, purged := PurgeCommittedGeneration(p.generation);
      StillHeld(before, Now(), p, solo);
      if !alive {
        return Crashed;
      }
      if purged {
        if storage.pending.None? || storage.pending.value.token != p.token {
          return Failed;
        }
        ghost var done := Now();
        Perform(Release);
        AbandonQuiet(before, done, Now(), p);
      }
      outcome := Published(p.generation, purged);
    }

    /** After the immutable objects: the revision must not have moved and enough of the interval must be left. */
    method BeforeAliases(p: Pending) returns (stop: Option<Outcome>)
      requires Inv(Now()) && Holds(bound, p)
      modifies this
      ensures Inv(Now()) && Evolves(old(Now()), Now()) && Holds(bound, p)
      ensures solo ==> Quiet(old(Now()), Now()) && aliases == old(aliases)
      ensures stop.Some? ==> stop.value in {Crashed, Superseded, Deferred}
      ensures old(Calm()) && old(Timely(p)) && old(Pushes(p)) ==> Calm() && stop.None? && Now() == old(Now())
    {
      hide Inv, Evolves, Holds, PublishersOnly, Quiet;
      ghost var before := Now();
      var alive, turn := Await();
      StillHeld(before, Now(), p, solo);
      if !alive {
        return Some(Crashed);
      }
      ghost var read := Now();
      var moved := d1.revision != p.revision;
      if moved || !InPublicationTime(turn.clock, p) || turn.clock + ALIAS_LIFETIME >= p.expiresAt {
        AbandonPending(p);
        AbandonQuiet(before, read, Now(), p);
        return Some(if moved then Superseded else Deferred);
      }
      stop := None;
    }

    /** From a reservation to its published and checkpointed generation. */
    method BuildGeneration(p: Pending, token: string) returns (outcome: Outcome)
      requires Inv(Now()) && Holds(bound, p)
      modifies this
      ensures Inv(Now()) && Evolves(old(Now()), Now())
      ensures outcome.Published? ==> outcome.generation == p.generation
      ensures outcome.Published? ==> d1.checkpoint.generation >= p.generation && AliasesReach(aliases, p.generation)
      ensures solo && old(Retained(Now())) ==> Retained(Now())
      ensures solo && outcome.Published? ==>
                d1.checkpoint == CheckpointOf(p, d1.checkpoint.publishedAt) && Exact(aliases, d1.checkpoint)
      ensures !outcome.Current?
      ensures old(Calm()) && old(Timely(p)) && old(Pushes(p)) && NoneNewer(old(aliases), p.generation) ==>
                && Calm() && outcome == Published(p.generation, true) && d1.revision == p.revision
                && d1.checkpoint == CheckpointOf(p, rest.clock) && AllExact(aliases, p) && storage.pending.None?
    {
      hide Inv, Evolves, Holds, PublishersOnly, Quiet, Retained, CommitsAtMost, AliasesReach, Exact;
      ghost var before := Now();
      var alive, held, _ := AssertPending(p);
      StillHeld(before, Now(), p, solo);
      RetainedQuiet(before, Now(), solo);
      if !alive || !held {
        return if alive then Superseded else Crashed;
      }
      ghost var asserted := Now();
      var stop := PutGeneration(p);
      Chain(before, asserted, Now(), solo);
      RetainedQuiet(before, Now(), solo);
      if stop.Some? {
        return stop.value;
      }
      ghost var written := Now();
      stop := BeforeAliases(p);
      Chain(before, written, Now(), solo);
      RetainedQuiet(before, Now(), solo);
      KeysStay(written, Now(), p, solo);
      if stop.Some? {
        return stop.value;
      }
      ghost var checked := Now();
      stop := PublishAliases(p);
      Chain(before, checked, Now(), solo);
      RetainedQuiet(before, Now(), solo);
      KeysStay(checked, Now(), p, solo);
      if stop.Some? {
        return stop.value;
      }
      ghost var aliased := Now();
      outcome := FinishGeneration(p, token);
      EvolvesTransitive(before, aliased, Now());
    }

    /** The commit and everything after it, once all objects and aliases are in place. */
    method FinishGeneration(p: Pending, token: string) returns (outcome: Outcome)
      requires Inv(Now()) && Holds(bound, p) && AliasesReach(aliases, p.generation)
      requires solo ==> forall f: Format :: Key(p.generation, f) in generations
      requires solo ==> forall f: Format :: f in aliases && aliases[f] == Rendered(f, p)
      modifies this
      ensures Inv(Now()) && Evolves(old(Now()), Now())
      ensures outcome.Published? ==> outcome.generation == p.generation
      ensures outcome.Published? ==> d1.checkpoint.generation >= p.generation && AliasesReach(aliases, p.generation)
      ensures solo && old(Retained(Now())) ==> Retained(Now())
      ensures solo && outcome.Published? ==>
                d1.checkpoint == CheckpointOf(p, d1.checkpoint.publishedAt) && Exact(aliases, d1.checkpoint)
      ensures !outcome.Current?
      ensures old(Calm()) && old(Timely(p)) && old(Pushes(p)) && AllExact(old(aliases), p) ==>
                && Calm() && outcome == Published(p.generation, true) && d1.revision == p.revision
                && d1.checkpoint == CheckpointOf(p, rest.clock) && AllExact(aliases, p) && storage.pending.None?
    {
      hide Inv, Evolves, Holds, PublishersOnly, Quiet, Retained, CommitsAtMost, AliasesReach, Exact, Rendered,
        CheckpointOf;
      ghost var before := Now();
      var stop := CommitGeneration(p, token);
      ghost var committed := Now();
      CommittedFacts(before, committed, p, solo);
      GenerationOf(p, rest.clock);
      if stop.Some? {
        return stop.value;
      }
      outcome := CompleteGeneration(p);
      EvolvesTransitive(before, committed, Now());
      RetainedQuiet(committed, Now(), solo);
      ReachStays(before, Now(), p.generation);
      CheckpointRises(committed, Now());
      QuietCheckpoint(committed, Now(), p, solo);
    }

    /**
     One build. Whoever else writes meanwhile, it only moves the world forward; a
     published outcome means the checkpoint and all four aliases carry at least
     its generation. Alone, it loses no acknowledged object, and what it publishes
     is exactly its checkpoint, whose model is what the directory lists until the
     revision moves.
     */
    method BuildCurrent(now: nat, ranked: seq<string>, modelFirst: bool, token: string) returns (outcome: Outcome)
      requires Inv(Now()) && ValidTtl(ttl)
      modifies this
      ensures Inv(Now()) && Evolves(old(Now()), Now())
      ensures outcome.Published? ==>
                d1.checkpoint.generation >= outcome.generation && AliasesReach(aliases, outcome.generation)
      ensures solo && old(Retained(Now())) ==> Retained(Now())
      ensures solo && outcome.Published? ==>
                && d1.checkpoint.generation == outcome.generation && Exact(aliases, d1.checkpoint)
                && Shows(d1, d1.checkpoint.revision, d1.checkpoint.model, ranked)
      ensures solo && outcome.Published? && d1.revision == d1.checkpoint.revision ==> Settled(ranked)
      ensures solo && outcome.Current? ==>
                && d1.checkpoint.generation == outcome.generation && Exact(aliases, d1.checkpoint)
                && (d1.revision == d1.checkpoint.revision ==> Settled(ranked))
      ensures solo && (outcome.Published? || outcome.Current?) && d1.revision == d1.checkpoint.revision ==>
                forall s :: s in d1.entries && s in ranked ==> (s, d1.entries[s]) in d1.checkpoint.model
      ensures old(Calm()) && Affordable(old(d1), old(storage).pending, ttl, rest.clock, ranked, now) ==>
                Calm() && (outcome.Published? || outcome.Current?) && outcome.purged && Settled(ranked)
    {
      hide Inv, Evolves, Holds, PublishersOnly, Retained, AliasesReach, Exact, Shows, CheckpointBound, SameHistory;
      ghost var before := Now();
      ghost var q: int := 0;
      ghost var calm := Calm() && Affordable(d1, storage.pending, ttl, rest.clock, ranked, now);
      if calm {
        q :| Affords(d1, ttl, ranked, now, q) && rest.clock + ALIAS_LIFETIME < q;
      }
      var alive, model, known := ReadState(now, ranked, modelFirst);
      ghost var read := Now();
      assert calm ==> Affords(d1, ttl, ranked, now, q);
      RetainedPublishers(before, read, solo);
      if !alive || model.None? {
        return if alive then Failed else Crashed;
      }
      Remember(known);
      ghost var remembered := Now();
      EvolvesTransitive(before, read, remembered);
      ShowsStays(read, remembered, model.value.revision, model.value.model, ranked);
      RetainedSame(read, remembered);
      BoundStays(read, remembered, known);
      CheckpointRises(read, remembered);
      CheckpointBehind(remembered);
      assert calm ==> Calm() && Roomy(model.value);
      var modelChanged := model.value.revision > known.revision || model.value.model != known.model;
      var refreshDue := known.generation == 0 || now >= known.expiresAt - lead;
      if !modelChanged && known.generation > 0 && (!refreshDue || model.value.expiresAt <= known.expiresAt) {
        outcome := ConfirmOrRebuild(model.value, ranked, known, now, token);
      } else {
        outcome := Rebuild(model.value, ranked, known, now, token);
      }
      EvolvesTransitive(before, remembered, Now());
      CheckpointBehind(Now());
      ShowsStays(remembered, Now(), model.value.revision, model.value.model, ranked);
      ShownModel(d1, d1.checkpoint, ranked);
    }

    method Remember(known: Checkpoint)
      requires Inv(Now())
      modifies this`d1, this`storage, this`generations, this`aliases, this`bound, this`draws
      ensures Inv(Now()) && Evolves(old(Now()), Now())
      ensures Now() == old(Now()).(storage := storage) && storage.pending == old(storage).pending
    {
      hide Inv, Evolves;
      StandsStill(Now());
      if known.generation > 0 && storage.highWater < known.generation {
        Perform(Raise(known.generation));
      }
    }

    /** An alias that is missing or foreign is repaired under a new generation. */
    method ConfirmOrRebuild(
      model: DirectoryModel, ranked: seq<string>, known: Checkpoint, now: nat, token: string)
      returns (outcome: Outcome)
      requires Inv(Now()) && 0 <= model.generatedAt < model.expiresAt && Shows(d1, model.revision, model.model, ranked)
      requires 0 < known.generation <= d1.checkpoint.generation && CheckpointBound(known, bound)
      requires solo ==> known == d1.checkpoint
      modifies this
      ensures Inv(Now()) && Evolves(old(Now()), Now())
      ensures outcome.Published? ==>
                d1.checkpoint.generation >= outcome.generation && AliasesReach(aliases, outcome.generation)
      ensures solo && old(Retained(Now())) ==> Retained(Now())
      ensures solo && outcome.Published? ==>
                && d1.checkpoint.generation == outcome.generation && Exact(aliases, d1.checkpoint)
                && Shows(d1, d1.checkpoint.revision, d1.checkpoint.model, ranked)
      ensures solo && outcome.Current? && model.revision == known.revision && model.model == known.model ==>
                && d1.checkpoint == known && outcome.generation == known.generation && Exact(aliases, d1.checkpoint)
                && Shows(d1, d1.checkpoint.revision, d1.checkpoint.model, ranked)
      ensures old(Calm()) && old(Roomy(model)) && old(d1).revision == model.revision && old(d1).checkpoint == known
              && !model.hasPendingOutbox && model.revision == known.revision && model.model == known.model ==>
                && Calm() && (outcome.Published? || outcome.Current?) && outcome.purged
                && d1.revision == model.revision
                && d1.checkpoint.revision == model.revision && d1.checkpoint.model == model.model
                && Exact(aliases, d1.checkpoint)
    {
      hide Inv, Evolves, Holds, PublishersOnly, Retained, AliasesReach, Exact, Shows, CheckpointBound, SameHistory;
      ghost var before := Now();
      var alive, matching := PublishedAliasesMatch(known);
      ghost var looked := Now();
      RetainedPublishers(before, looked, solo);
      ShowsStays(before, looked, model.revision, model.model, ranked);
      BoundStays(before, looked, known);
      CheckpointRises(before, looked);
      if !alive {
        return Crashed;
      }
      if matching {
        outcome := ConfirmCurrent(model, known, token);
        RetainedConfirmed(looked, Now(), known, solo);
        SameExact(looked, Now(), known);
        ShowsStays(looked, Now(), model.revision, model.model, ranked);
      } else {
        outcome := Rebuild(model, ranked, known, now, token);
      }
      EvolvesTransitive(before, looked, Now());
    }

    method Rebuild(model: DirectoryModel, ranked: seq<string>, known: Checkpoint, now: nat, token: string)
      returns (outcome: Outcome)
      requires Inv(Now()) && 0 <= model.generatedAt < model.expiresAt && Shows(d1, model.revision, model.model, ranked)
      modifies this
      ensures Inv(Now()) && Evolves(old(Now()), Now())
      ensures outcome.Published? ==>
                d1.checkpoint.generation >= outcome.generation && AliasesReach(aliases, outcome.generation)
      ensures solo && old(Retained(Now())) ==> Retained(Now())
      ensures solo && outcome.Published? ==>
                && d1.checkpoint.generation == outcome.generation && Exact(aliases, d1.checkpoint)
                && Shows(d1, d1.checkpoint.revision, d1.checkpoint.model, ranked)
      ensures old(Calm()) && old(Roomy(model)) && old(d1).revision == model.revision && old(d1).checkpoint == known ==>
                && Calm() && outcome.Published? && outcome.purged && d1.revision == model.revision
                && d1.checkpoint.revision == model.revision && d1.checkpoint.model == model.model
                && Exact(aliases, d1.checkpoint) && storage.pending.None?
      ensures !outcome.Current?
    {
      hide Inv, Evolves, Holds, PublishersOnly, Retained, AliasesReach, Exact, Shows;
      ghost var before := Now();
      var alive, observed := ReadPublicGeneration();
      ghost var seen := Now();
      RetainedPublishers(before, seen, solo);
      if !alive {
        return Crashed;
      }
      var p := ReserveBuild(model, known, observed, now);
      ghost var reserved := Now();
      RetainedReserve(seen, reserved, p);
      EvolvesTransitive(before, seen, reserved);
      NewerReserved(aliases, observed, p);
      outcome := BuildGeneration(p, token);
      EvolvesTransitive(before, reserved, Now());
      ExactCheckpoint(aliases, d1.checkpoint, p);
      ShowsStays(before, Now(), model.revision, model.model, ranked);
    }

    // ---- retention and reconciliation ----------------------------------------------------------------

    /** The generations a pass may not touch: acknowledged, checkpointed and pending, each read in turn. */
    method ReadRetained() returns (alive: bool, retained: set<nat>)
      requires Inv(Now())
      modifies this
      ensures Inv(Now()) && Evolves(old(Now()), Now())
      ensures solo ==> PublishersOnly(old(Now()), Now())
      ensures solo ==> Spared(Now(), retained)
      ensures old(Calm()) ==>
                && Calm() && alive && Now() == old(Now())
                && forall g :: g in retained <==> Needed(Now(), g)
    {
      hide Inv, Evolves, PublishersOnly;
      ghost var before := Now();
      retained := if storage.pending.Some? then {storage.pending.value.generation} else {};
      var turn;
      alive, turn := Await();
      ghost var first := Now();
      retained := retained + {d1.checkpoint.generation};
      if alive {
        alive, turn := Await();
      } else {
        StandsStill(first);
      }
      EvolvesTransitive(before, first, Now());
      retained := retained + d1.history.Keys;
      SparedByRead(before, first, Now(), retained, solo);
    }

    /**
     One retention pass over whatever page the bucket lists. Alone, it never
     deletes an object of an acknowledged, checkpointed or pending generation.
     */
    method PruneImmutableGenerations(listed: seq<Key>) returns (deleted: nat)
      requires Inv(Now())
      modifies this
      ensures Inv(Now()) && Evolves(old(Now()), Now()) && deleted <= MAX_DELETES
      ensures solo ==> Pruned(old(Now()), Now())
      ensures old(Calm()) ==>
                && Calm() && Now() == old(Now()).(generations := generations)
                && (forall k :: k in generations ==> k in old(generations) && generations[k] == old(generations)[k])
                && (forall k :: k in old(generations) && (k !in listed || Needed(old(Now()), k.generation)) ==>
                      k in generations)
                && (deleted < MAX_DELETES ==> forall k :: k in listed && k in generations ==>
                      Needed(old(Now()), k.generation))
    {
      hide Inv, Evolves, PublishersOnly, Pruned, Spared;
      ghost var before := Now();
      var alive, retained := ReadRetained();
      ghost var read := Now();
      PrunedNothing(before, read, solo);
      deleted := 0;
      if !alive {
        return;
      }
      var turn;
      alive, turn := Await();
      ghost var listing := Now();
      EvolvesTransitive(before, read, listing);
      SparedStays(before, read, listing, retained, solo);
      if !alive {
        return;
      }
      var selected := Obsolete(listed, generations.Keys, retained);
      alive, turn := Await();
      ghost var settled := Now();
      EvolvesTransitive(before, listing, settled);
      SparedStays(before, listing, settled, retained, solo);
      if !alive || !turn.succeeds {
        return;
      }
      Perform(Deletion(selected));
      EvolvesTransitive(before, settled, Now());
      PrunedSelected(before, settled, Now(), selected, retained, solo);
      deleted := |selected|;
    }

    /** Builds again while a build was superseded, up to four times. */
    method BuildAttempts(now: nat, rankings: seq<seq<string>>, modelFirst: bool, token: string)
      returns (outcome: Outcome)
      requires Inv(Now()) && ValidTtl(ttl)
      modifies this
      ensures Inv(Now()) && Evolves(old(Now()), Now()) && outcome != Superseded
      ensures solo && old(Retained(Now())) ==> Retained(Now())
      ensures old(Calm()) && rankings != []
              && Affordable(old(d1), old(storage).pending, ttl, rest.clock, rankings[0], now) ==>
                Calm() && (outcome.Published? || outcome.Current?) && outcome.purged && Settled(rankings[0])
    {
      hide Inv, Evolves, PublishersOnly, Retained, Exact, Shows, AliasesReach, Affordable;
      ghost var before := Now();
      StandsStill(before);
      outcome := Superseded;
      ghost var calm := Calm() && rankings != [] &&
        Affordable(d1, storage.pending, ttl, rest.clock, rankings[0], now);
      var attempt := 0;
      while attempt < MAX_ATTEMPTS && outcome == Superseded
        invariant Inv(Now()) && Evolves(before, Now()) && (solo && Retained(before) ==> Retained(Now()))
        invariant attempt == 0 ==> Now() == before && outcome == Superseded && (calm ==> Calm())
        invariant calm && attempt > 0 ==>
            Calm() && (outcome.Published? || outcome.Current?) && outcome.purged && Settled(rankings[0])
      {
        ghost var start := Now();
        outcome := BuildCurrent(now, if attempt < |rankings| then rankings[attempt] else [], modelFirst, token);
        EvolvesTransitive(before, start, Now());
        attempt := attempt + 1;
      }
      if outcome == Superseded {
        outcome := Failed;
      }
    }

    /** The expiry transaction ahead of the builds; it may fail, and a cutoff beyond the present is refused. */
    method ExpireListing(now: nat, token: string) returns (alive: bool, expired: bool)
      requires Inv(Now())
      modifies this
      ensures Inv(Now()) && Evolves(old(Now()), Now())
      ensures solo && old(Retained(Now())) ==> Retained(Now())
      ensures old(Calm()) && Cutoff(now, ttl) <= now ==>
                && Calm() && alive && expired && storage == old(storage)
                && d1 == Expired(old(d1), Cutoff(now, ttl), now, token)
    {
      hide Inv, Evolves, PublishersOnly, Retained, Cutoff, Expired;
      ghost var before := Now();
      var turn;
      alive, turn := Await();
      RetainedPublishers(before, Now(), solo);
      expired := alive && turn.succeeds && Cutoff(now, ttl) <= now;
      if expired {
        ghost var waited := Now();
        ExpiryAllowed(waited, Cutoff(now, ttl), now, token);
        ExpiredFrame(waited.d1, Cutoff(now, ttl), now, token);
        Perform(Tables(Expired(d1, Cutoff(now, ttl), now, token)));
        RetainedTables(waited, Now());
        EvolvesTransitive(before, waited, Now());
      }
    }

    /**
     One reconciliation: expire, build up to four times while builds are
     superseded, then prune. It may crash at any await; whatever happened, the
     world only moved forward and, alone, no acknowledged object is lost.
     */
    method Reconcile(now: nat, rankings: seq<seq<string>>, modelFirst: bool, token: string, listed: seq<Key>)
      returns (outcome: Outcome)
      requires Inv(Now()) && ValidTtl(ttl)
      modifies this
      ensures Inv(Now()) && Evolves(old(Now()), Now()) && outcome != Superseded
      ensures solo && old(Retained(Now())) ==> Retained(Now())
      ensures old(Calm()) && Cutoff(now, ttl) <= now && rankings != []
              && Affordable(Expired(old(d1), Cutoff(now, ttl), now, token), old(storage).pending, ttl, rest.clock,
                            rankings[0], now) ==>
                Calm() && (outcome.Published? || outcome.Current?) && outcome.purged && Settled(rankings[0])
    {
      hide Inv, Evolves, PublishersOnly, Retained, Exact, Shows, AliasesReach, Cutoff, Pruned, Affordable, Needed,
        Expired;
      ghost var before := Now();
      var alive, expired := ExpireListing(now, token);
      if !alive {
        return Crashed;
      }
      outcome := Failed;
      if expired {
        ghost var fewer := Now();
        outcome := BuildAttempts(now, rankings, modelFirst, token);
        EvolvesTransitive(before, fewer, Now());
      }
      if outcome != Crashed {
        ghost var built := Now();
        var deleted := PruneImmutableGenerations(listed);
        RetainedPruned(built, Now(), solo);
        EvolvesTransitive(before, built, Now());
      }
    }

    /**
     The whole life of the builder's durable state: reconciliations one after the
     other, any of them crashing anywhere, with the rest of the world in between.
     */
    method Serve(rounds: seq<Round>) returns (published: nat)
      requires Inv(Now()) && ValidTtl(ttl)
      modifies this
      ensures Inv(Now()) && Evolves(old(Now()), Now())
      ensures solo && old(Retained(Now())) ==> Retained(Now())
    {
      hide Inv, Evolves, PublishersOnly, Retained;
      ghost var before := Now();
      StandsStill(before);
      published := 0;
      var i := 0;
      while i < |rounds|
        invariant Inv(Now()) && Evolves(before, Now()) && (solo && Retained(before) ==> Retained(Now()))
      {
        ghost var start := Now();
        var round := rounds[i];
        var outcome := Reconcile(round.now, round.rankings, round.modelFirst, round.token, round.listed);
        EvolvesTransitive(before, start, Now());
        if outcome.Published? {
          published := published + 1;
        }
        i := i + 1;
      }
    }
  }

  /** The first obsolete names of a page, at most one batch of them. */
  method Obsolete(listed: seq<Key>, existing: set<Key>, retained: set<nat>) returns (selected: set<Key>)
    ensures selected <= existing && |selected| <= MAX_DELETES
    ensures forall k :: k in selected ==> k in listed && k.generation !in retained
    ensures |selected| < MAX_DELETES ==>
        forall k :: k in listed && k in existing && k.generation !in retained ==> k in selected
  {
    selected := {};
    var i := 0;
    while i < |listed| && |selected| < MAX_DELETES
      invariant 0 <= i <= |listed| && selected <= existing && |selected| <= MAX_DELETES
      invariant forall k :: k in selected ==> k in listed && k.generation !in retained
      invariant forall k :: k in listed[..i] && k in existing && k.generation !in retained ==> k in selected
    {
      if listed[i] in existing && listed[i].generation !in retained {
        selected := selected + {listed[i]};
      }
      i := i + 1;
    }
    assert i == |listed| ==> listed[..i] == listed;
  }

  lemma StandsStill(w: World)
    ensures Evolves(w, w) && PublishersOnly(w, w)
  {
  }

  lemma OwnedPending(w: World)
    requires Inv(w)
    ensures w.storage.pending.Some? ==> Holds(w.bound, w.storage.pending.value)
  {
    hide Consistent, ObjectsBound, AliasesBound, AliasesReach, CheckpointBound, Reserved;
  }

  lemma NewGeneration(w: World, p: Pending)
    requires Inv(w) && p.generation > w.storage.highWater && p.token == w.draws && 0 <= p.generatedAt < p.expiresAt
    ensures Allowed(w, Reservation(p)) && p.generation !in w.bound && Holds(Apply(w, Reservation(p)).bound, p)
    ensures Apply(w, Reservation(p)).storage.pending == Some(p)
  {
    hide Consistent, ObjectsBound, AliasesBound, AliasesReach, CheckpointBound;
  }

  /** What a wait leaves in place for a held reservation. */
  lemma StillHeld(a: World, b: World, p: Pending, solo: bool)
    requires Evolves(a, b) && Holds(a.bound, p) && (solo ==> PublishersOnly(a, b))
    ensures Holds(b.bound, p)
    ensures solo ==> Quiet(a, b) && b.aliases == a.aliases && b.storage == a.storage && b.generations == a.generations
  {
  }

  lemma Chain(a: World, b: World, c: World, solo: bool)
    requires Evolves(a, b) && Evolves(b, c)
    ensures Evolves(a, c)
    ensures solo && Quiet(a, b) && Quiet(b, c) ==> Quiet(a, c)
  {
  }

  lemma CreateKnown(before: World, w: World, p: Pending, image: Object)
    requires Holds(w.bound, p) && image == Rendered(image.format, p) &&
        Key(p.generation, image.format) !in w.generations
    ensures Allowed(w, CreateObject(Key(p.generation, image.format)))
  {
  }

  lemma Created(before: World, absent: World, w: World, p: Pending, image: Object, solo: bool)
    requires Evolves(before, absent) && Evolves(absent, w) && Holds(absent.bound, p)
    requires image == Rendered(image.format, p) && w == Apply(absent, CreateObject(Key(p.generation, image.format)))
    ensures Evolves(before, w) && Holds(w.bound, p)
    ensures Key(p.generation, image.format) in w.generations
    ensures w.generations[Key(p.generation, image.format)] == image
    ensures solo && Quiet(before, absent) ==> Quiet(before, w)
    ensures w.aliases == absent.aliases && w.storage == absent.storage
  {
    hide Evolves;
    EvolvesTransitive(before, absent, w);
  }

  lemma SwapKnown(w: World, p: Pending, image: Object)
    requires Holds(w.bound, p) && image == Rendered(image.format, p)
    requires image.format in w.aliases ==> w.aliases[image.format].generation < p.generation
    ensures Allowed(w, ReplaceAlias(image.format, p.generation))
    ensures Apply(w, ReplaceAlias(image.format, p.generation)) == w.(aliases := w.aliases[image.format := image])
  {
  }

  lemma Swapped(before: World, seen: World, w: World, p: Pending, image: Object, solo: bool)
    requires Evolves(before, seen) && Evolves(seen, w) && Holds(seen.bound, p)
    requires w == seen.(aliases := seen.aliases[image.format := image])
    ensures Evolves(before, w) && Holds(w.bound, p)
    ensures solo && Quiet(before, seen) ==> Quiet(before, w)
  {
    hide Evolves;
    EvolvesTransitive(before, seen, w);
  }

  lemma StandsQuiet(w: World)
    ensures Evolves(w, w) && Quiet(w, w)
  {
  }

  lemma AbandonQuiet(before: World, w: World, after: World, p: Pending)
    requires Evolves(before, w) && Evolves(w, after) && (after == w || after == Apply(w, Release)) && Holds(w.bound, p)
    ensures Evolves(before, after) && Holds(after.bound, p)
    ensures Quiet(before, w) ==> Quiet(before, after)
    ensures after.aliases == w.aliases && after.generations == w.generations
  {
    hide Evolves;
    EvolvesTransitive(before, w, after);
  }

  lemma QuietKeeps(a: World, b: World, p: Pending, solo: bool)
    requires solo ==> Quiet(a, b)
    ensures solo ==> forall k :: k in a.generations ==> k in b.generations
  {
  }

  lemma AllRendered(generations: map<Key, Object>, g: nat)
    ensures (forall j :: 0 <= j < |RENDERED| ==> Key(g, RENDERED[j]) in generations) ==>
              forall f: Format :: Key(g, f) in generations
  {
    if forall j :: 0 <= j < |RENDERED| ==> Key(g, RENDERED[j]) in generations {
      forall f: Format
        ensures Key(g, f) in generations
      {
        assert RENDERED[0] == Html && RENDERED[3] == Manifest &&
               (f == RENDERED[0] || f == RENDERED[1] || f == RENDERED[2] || f == RENDERED[3]);
      }
    }
  }

  predicate CarriesPrefix(aliases: map<Format, Object>, done: seq<Format>, g: nat) {
    forall j :: 0 <= j < |done| ==> Carried(aliases, done[j], g)
  }

  predicate ExactPrefix(aliases: map<Format, Object>, done: seq<Format>, p: Pending) {
    forall j :: 0 <= j < |done| ==> done[j] in aliases && aliases[done[j]] == Rendered(done[j], p)
  }

  /** No alias carries a generation above this one. */
  predicate NoneNewer(aliases: map<Format, Object>, g: nat) {
    forall f :: f in aliases ==> aliases[f].generation <= g
  }

  predicate AllExact(aliases: map<Format, Object>, p: Pending) {
    forall f: Format :: f in aliases && aliases[f] == Rendered(f, p)
  }

  lemma NewerStays(aliases: map<Format, Object>, f: Format, p: Pending)
    ensures NoneNewer(aliases, p.generation) ==> NoneNewer(aliases[f := Rendered(f, p)], p.generation)
  {
  }

  /** A later generation of the newest revision may be checkpointed. */
  lemma MayPush(w: World, p: Pending, clock: int)
    requires Inv(w) && w.d1.revision == p.revision && w.d1.checkpoint.generation < p.generation
    ensures Committable(w.d1, CheckpointOf(p, clock))
    ensures forall token :: var after := Committed(w.d1, CheckpointOf(p, clock), token);
              after.checkpoint == CheckpointOf(p, clock) && after.revision == p.revision
  {
    hide Listed, Acknowledged, Reserved, Owned, ObjectsBound, AliasesBound, CheckpointBound, AliasesReach, Retain;
  }

  lemma GenerationOf(p: Pending, publishedAt: int)
    ensures CheckpointOf(p, publishedAt).generation == p.generation
  {
  }

  predicate ExactAt(aliases: map<Format, Object>, f: Format, c: Checkpoint) {
    f in aliases && aliases[f] == Render(f, c.generation, c.generatedAt, c.expiresAt, c.model)
  }

  lemma AllMatched(aliases: map<Format, Object>, c: Checkpoint)
    ensures (forall j :: 0 <= j < |RENDERED| ==> ExactAt(aliases, RENDERED[j], c)) ==> Exact(aliases, c)
  {
    if forall j :: 0 <= j < |RENDERED| ==> ExactAt(aliases, RENDERED[j], c) {
      forall f: Format
        ensures f in aliases && aliases[f] == Render(f, c.generation, c.generatedAt, c.expiresAt, c.model)
      {
        assert RENDERED[0] == Html && RENDERED[3] == Manifest &&
               (f == RENDERED[0] || f == RENDERED[1] || f == RENDERED[2] || f == RENDERED[3]);
      }
    }
  }

  lemma CheckpointBehind(w: World)
    requires Inv(w)
    ensures w.d1.checkpoint.revision <= w.d1.revision
    ensures w.d1.checkpoint.revision == w.d1.revision ==> w.d1.outbox == map[]
  {
    hide Reserved, Owned, ObjectsBound, AliasesBound, CheckpointBound, AliasesReach, Listed, Acknowledged;
    DirectoryRuns.OutboxSaysBehind(w.d1);
  }

  /** A row whose quantised deadline has passed lets no quarter hour ahead be afforded. */
  lemma PastDeadline(lastSeen: int, ttl: int, generatedAt: int, q: int)
    requires Deadline(lastSeen, ttl) <= generatedAt
    ensures q % QUANTUM == 0 && q > generatedAt ==> q > lastSeen + ttl
  {
    QuantisedLeast(lastSeen + ttl, q / QUANTUM);
  }

  lemma NewerReserved(aliases: map<Format, Object>, observed: nat, p: Pending)
    ensures NoneNewer(aliases, observed) && p.generation >= observed ==> NoneNewer(aliases, p.generation)
  {
  }

  lemma ExactCheckpoint(aliases: map<Format, Object>, c: Checkpoint, p: Pending)
    ensures AllExact(aliases, p) && c == CheckpointOf(p, c.publishedAt) ==>
              Exact(aliases, c) && c.revision == p.revision && c.model == p.model
  {
  }

  lemma PrefixStays(a: World, b: World, order: seq<Format>, i: nat, p: Pending, solo: bool, done: bool)
    requires i < |order| && Evolves(a, b) && CarriesPrefix(a.aliases, order[..i], p.generation)
    requires done ==> Carried(b.aliases, order[i], p.generation)
    requires solo && done ==> order[i] in b.aliases && b.aliases[order[i]] == Rendered(order[i], p)
    requires solo ==> ExactPrefix(a.aliases, order[..i], p) &&
                      (b.aliases == a.aliases || b.aliases == a.aliases[order[i] := Rendered(order[i], p)])
    ensures done ==> CarriesPrefix(b.aliases, order[..i + 1], p.generation)
    ensures solo && done ==> ExactPrefix(b.aliases, order[..i + 1], p)
  {
    hide Rendered;
    if done {
      var next := order[..i + 1];
      assert next == order[..i] + [order[i]];
      forall j | 0 <= j < |next| - 1
        ensures Carried(b.aliases, next[j], p.generation)
      {
        assert order[..i][j] == next[j];
        CarriedStays(a, b, next[j], p.generation);
      }
    }
  }

  lemma AllOrdered(aliases: map<Format, Object>, classic: bool, p: Pending)
    requires CarriesPrefix(aliases, AliasOrder(classic), p.generation)
    ensures AliasesReach(aliases, p.generation)
    ensures ExactPrefix(aliases, AliasOrder(classic), p) ==>
              forall f: Format :: f in aliases && aliases[f] == Rendered(f, p)
  {
    hide Rendered, Carried;
    var order := AliasOrder(classic);
    forall f: Format
      ensures Carried(aliases, f, p.generation)
      ensures ExactPrefix(aliases, order, p) ==> f in aliases && aliases[f] == Rendered(f, p)
    {
      assert order[0] == Html && order[3] == Manifest &&
          (f == order[0] || f == order[1] || f == order[2] || f == order[3]);
    }
  }

  lemma ReachStays(a: World, b: World, g: nat)
    requires Evolves(a, b) && AliasesReach(a.aliases, g)
    ensures AliasesReach(b.aliases, g)
  {
    hide Evolves, Carried;
    forall f: Format | g > 0
      ensures Carried(b.aliases, f, g)
    {
      CarriedStays(a, b, f, g);
    }
  }

  /** Nothing acknowledged was lost; at most this one checkpoint was added. */
  predicate CommitsAtMost(a: World, b: World, c: Checkpoint) {
    && (forall k :: k in a.generations ==> k in b.generations) && b.aliases == a.aliases
    && ((b.d1.checkpoint == a.d1.checkpoint && b.d1.history == a.d1.history) ||
        (b.d1.checkpoint == c && forall g :: g in b.d1.history ==> g in a.d1.history || g == c.generation))
  }

  lemma RetainKeys(h: map<nat, int>, c: Checkpoint)
    ensures forall g :: g in Retain(h, c) ==> g in h || g == c.generation
  {
  }

  lemma MayCommit(before: World, w: World, c: Checkpoint, token: string, solo: bool)
    requires Evolves(before, w) && CheckpointBound(c, before.bound) && AliasesReach(before.aliases, c.generation)
    requires ValidCommit(c) && (solo ==> PublishersOnly(before, w))
    ensures Committable(w.d1, c) ==> Allowed(w, Commit(c, token))
    ensures Apply(w, Commit(c, token)).d1.checkpoint == c
    ensures solo ==> CommitsAtMost(before, w, c) && CommitsAtMost(before, Apply(w, Commit(c, token)), c)
  {
    hide Retain, Committable, AliasesReach, AliasesRise, TablesAdvance;
    ReachStays(before, w, c.generation);
    RetainKeys(w.d1.history, c);
  }

  lemma QuietCommits(a: World, b: World, c: Checkpoint, solo: bool)
    requires solo ==> Quiet(a, b) && b.aliases == a.aliases
    ensures solo ==> CommitsAtMost(a, b, c)
  {
  }

  lemma AbandonCommits(before: World, w: World, after: World, c: Checkpoint, solo: bool)
    requires after == w || after == Apply(w, Release)
    requires solo ==> CommitsAtMost(before, w, c)
    ensures solo ==> CommitsAtMost(before, after, c)
  {
  }

  lemma ChainCommits(a: World, b: World, d: World, c: Checkpoint, solo: bool)
    requires solo ==> Quiet(a, b) && b.aliases == a.aliases && CommitsAtMost(b, d, c)
    ensures solo ==> CommitsAtMost(a, d, c)
  {
  }

  lemma CommitsLater(a: World, b: World, d: World, c: Checkpoint, solo: bool)
    requires solo ==> CommitsAtMost(a, b, c) && PublishersOnly(b, d)
    ensures solo ==> CommitsAtMost(a, d, c)
  {
  }

  lemma CheckpointOfHeld(w: World, p: Pending, clock: int)
    requires Inv(w) && Holds(w.bound, p) && InPublicationTime(clock, p)
    ensures ValidCommit(CheckpointOf(p, clock)) && CheckpointBound(CheckpointOf(p, clock), w.bound)
  {
    HeldFacts(w, p);
  }

  /** A directory no older than the revision shows this model, until its revision moves on. */
  predicate Shows(d: Directory, revision: nat, model: Model, ranked: seq<string>) {
    d.revision >= revision && (d.revision == revision ==> Lists(model, ranked, d.entries))
  }

  lemma ShownModel(d: Directory, c: Checkpoint, ranked: seq<string>)
    ensures Shows(d, c.revision, c.model, ranked) && d.revision == c.revision ==>
              && |c.model| == |ranked|
              && (forall k :: 0 <= k < |ranked| ==>
                    ranked[k] in d.entries && c.model[k] == (ranked[k], d.entries[ranked[k]]))
              && forall s :: s in d.entries && s in ranked ==> (s, d.entries[s]) in c.model
  {
    if Shows(d, c.revision, c.model, ranked) && d.revision == c.revision {
      forall s | s in d.entries && s in ranked
        ensures (s, d.entries[s]) in c.model
      {
        var k :| 0 <= k < |ranked| && ranked[k] == s;
        assert c.model[k] == (s, d.entries[s]);
      }
    }
  }

  lemma ReadShows(d: Directory, model: Option<DirectoryModel>, ranked: seq<string>)
    requires model.Some? ==> model.value.revision == d.revision && Lists(model.value.model, ranked, d.entries)
    ensures model.Some? ==> Shows(d, model.value.revision, model.value.model, ranked)
  {
  }

  lemma ShowsStays(a: World, b: World, revision: nat, model: Model, ranked: seq<string>)
    requires Evolves(a, b) && Shows(a.d1, revision, model, ranked)
    ensures Shows(b.d1, revision, model, ranked)
  {
    hide Lists, BoundGrows, AliasesRise;
  }

  lemma KnownCheckpoint(w: World)
    requires Inv(w)
    ensures CheckpointBound(w.d1.checkpoint, w.bound)
  {
    hide Consistent, ObjectsBound, AliasesBound, AliasesReach, Reserved, Owned;
  }

  lemma LaterKnown(before: World, a: World, b: World, known: Checkpoint, solo: bool)
    requires Evolves(before, a) && Evolves(a, b) && CheckpointBound(known, a.bound) && known == a.d1.checkpoint
    requires solo ==> PublishersOnly(before, a) && PublishersOnly(a, b)
    ensures Evolves(before, b) && CheckpointBound(known, b.bound) && known.generation <= b.d1.checkpoint.generation
    ensures solo ==> PublishersOnly(before, b) && b.d1.checkpoint == known
  {
    hide AliasesRise;
    EvolvesTransitive(before, a, b);
  }

  lemma SameAliases(a: World, b: World)
    requires PublishersOnly(a, b)
    ensures b.aliases == a.aliases
  {
  }

  lemma AllObserved(aliases: map<Format, Object>, observed: nat)
    ensures (forall j :: 0 <= j < |RENDERED| && RENDERED[j] in aliases ==>
        aliases[RENDERED[j]].generation <= observed) ==>
              forall f :: f in aliases ==> aliases[f].generation <= observed
  {
    forall f | f in aliases
      ensures exists j :: 0 <= j < |RENDERED| && RENDERED[j] == f
    {
      assert RENDERED[0] == Html && RENDERED[3] == Manifest &&
             (f == RENDERED[0] || f == RENDERED[1] || f == RENDERED[2] || f == RENDERED[3]);
    }
  }

  /** Confirming the checkpoint in force again adds nothing to the history and loses no object. */
  predicate SameHistory(a: World, b: World, known: Checkpoint) {
    && (forall k :: k in a.generations ==> k in b.generations) && b.aliases == a.aliases
    && b.d1.checkpoint == known && forall g :: g in b.d1.history ==> g in a.d1.history || g == known.generation
  }

  lemma SameStands(w: World, known: Checkpoint)
    ensures Evolves(w, w) && (known == w.d1.checkpoint ==> SameHistory(w, w, known))
  {
  }

  lemma SameAwait(before: World, a: World, b: World, known: Checkpoint, solo: bool)
    requires Evolves(before, a) && Evolves(a, b)
    requires solo ==> PublishersOnly(a, b)
    ensures Evolves(before, b)
    ensures solo && SameHistory(before, a, known) ==> SameHistory(before, b, known)
  {
    hide Evolves;
    EvolvesTransitive(before, a, b);
  }

  lemma SameCommit(before: World, a: World, b: World, known: Checkpoint, solo: bool)
    requires solo ==> CommitsAtMost(a, b, known)
    ensures solo && SameHistory(before, a, known) ==> SameHistory(before, b, known)
  {
  }

  lemma SameExact(a: World, b: World, known: Checkpoint)
    ensures SameHistory(a, b, known) ==> b.aliases == a.aliases && b.d1.checkpoint == known
  {
  }

  lemma SameRelease(before: World, a: World, b: World, known: Checkpoint)
    requires b == Apply(a, Release)
    ensures SameHistory(before, a, known) ==> SameHistory(before, b, known)
  {
  }

  lemma CheckpointReaches(before: World, w: World, known: Checkpoint)
    requires Inv(w) && Evolves(before, w) && CheckpointBound(known, before.bound)
    requires known.generation <= before.d1.checkpoint.generation
    ensures CheckpointBound(known, w.bound) && AliasesReach(w.aliases, known.generation)
  {
    hide Consistent, ObjectsBound, AliasesBound, Reserved, Owned, AliasesRise;
    forall f: Format | known.generation > 0
      ensures Carried(w.aliases, f, known.generation)
    {
      assert Carried(w.aliases, f, w.d1.checkpoint.generation);
    }
  }

  /** The aliases are exactly the checkpoint's four objects. */
  predicate Exact(aliases: map<Format, Object>, c: Checkpoint) {
    forall f: Format :: f in aliases && aliases[f] == Render(f, c.generation, c.generatedAt, c.expiresAt, c.model)
  }

  lemma RetainedQuiet(a: World, b: World, solo: bool)
    requires solo ==> Quiet(a, b)
    ensures solo && Retained(a) ==> Retained(b)
  {
  }

  lemma RetainedPublishers(a: World, b: World, solo: bool)
    requires solo ==> PublishersOnly(a, b)
    ensures solo && Retained(a) ==> Retained(b)
    ensures solo ==> b.d1.checkpoint == a.d1.checkpoint
  {
  }

  lemma RetainedSame(a: World, b: World)
    requires b == a.(storage := b.storage)
    ensures Retained(a) ==> Retained(b)
    ensures b.d1 == a.d1
  {
  }

  lemma RetainedReserve(a: World, b: World, p: Pending)
    requires b == a || b == Apply(a, Reservation(p))
    ensures Retained(a) ==> Retained(b)
  {
  }

  lemma RetainedConfirmed(a: World, b: World, known: Checkpoint, solo: bool)
    requires solo && known == a.d1.checkpoint ==> SameHistory(a, b, known)
    requires Inv(a) && known.generation > 0
    ensures solo && known == a.d1.checkpoint && Retained(a) ==> Retained(b)
  {
    hide ObjectsBound, AliasesBound, AliasesReach, Reserved, Owned, CheckpointBound;
  }

  lemma KeysStay(a: World, b: World, p: Pending, solo: bool)
    requires solo ==> Quiet(a, b) && forall f: Format :: Key(p.generation, f) in a.generations
    ensures solo ==> forall f: Format :: Key(p.generation, f) in b.generations
  {
  }

  lemma CommittedFacts(a: World, b: World, p: Pending, solo: bool)
    requires solo ==> exists at :: CommitsAtMost(a, b, CheckpointOf(p, at))
    requires solo ==> forall f: Format :: Key(p.generation, f) in a.generations
    ensures solo && Retained(a) ==> Retained(b)
    ensures solo ==> b.aliases == a.aliases
  {
  }

  lemma CheckpointRises(a: World, b: World)
    requires Evolves(a, b)
    ensures a.d1.checkpoint.generation <= b.d1.checkpoint.generation
  {
  }

  lemma BoundStays(a: World, b: World, c: Checkpoint)
    requires Evolves(a, b) && CheckpointBound(c, a.bound)
    ensures CheckpointBound(c, b.bound)
  {
  }

  lemma QuietCheckpoint(a: World, b: World, p: Pending, solo: bool)
    requires solo ==> Quiet(a, b) && b.aliases == a.aliases
    requires solo ==> a.d1.checkpoint == CheckpointOf(p, a.d1.checkpoint.publishedAt)
    requires solo ==> forall f: Format :: f in a.aliases && a.aliases[f] == Rendered(f, p)
    ensures solo ==>
        b.d1.checkpoint == CheckpointOf(p, b.d1.checkpoint.publishedAt) && Exact(b.aliases, b.d1.checkpoint)
  {
  }

  /** Everything a lone retention pass must keep is in the set. */
  predicate Spared(w: World, retained: set<nat>) {
    && w.d1.history.Keys <= retained && w.d1.checkpoint.generation in retained
    && (w.storage.pending.Some? ==> w.storage.pending.value.generation in retained)
  }

  /** Only objects of dead generations are gone; nothing else but the listing moved. */
  predicate Pruned(a: World, b: World) {
    && PublishersOnly(a.(generations := b.generations), b)
    && (forall k :: k in b.generations ==> k in a.generations)
    && (forall k ::
          (&& k in a.generations
           && (|| k.generation in a.d1.history || k.generation == a.d1.checkpoint.generation
               || (a.storage.pending.Some? && k.generation == a.storage.pending.value.generation)))
          ==> k in b.generations)
  }

  /** The generation is acknowledged, checkpointed or pending. */
  predicate Needed(w: World, g: nat) {
    || g in w.d1.history || g == w.d1.checkpoint.generation
    || (w.storage.pending.Some? && g == w.storage.pending.value.generation)
  }

  lemma SparedByRead(a: World, b: World, c: World, retained: set<nat>, solo: bool)
    requires solo ==> PublishersOnly(a, b) && PublishersOnly(b, c)
    requires c.d1.history.Keys <= retained && b.d1.checkpoint.generation in retained
    requires a.storage.pending.Some? ==> a.storage.pending.value.generation in retained
    ensures solo ==> PublishersOnly(a, c) && Spared(c, retained)
  {
  }

  lemma PrunedNothing(a: World, b: World, solo: bool)
    requires solo ==> PublishersOnly(a, b)
    ensures solo ==> Pruned(a, b)
  {
  }

  lemma SparedStays(before: World, a: World, b: World, retained: set<nat>, solo: bool)
    requires solo ==> PublishersOnly(before, a) && PublishersOnly(a, b) && Spared(a, retained)
    ensures solo ==> PublishersOnly(before, b) && Spared(b, retained) && Pruned(before, b)
  {
  }

  lemma PrunedSelected(before: World, w: World, after: World, selected: set<Key>, retained: set<nat>, solo: bool)
    requires solo ==> PublishersOnly(before, w) && Spared(w, retained)
    requires after == Apply(w, Deletion(selected)) && forall k :: k in selected ==> k.generation !in retained
    ensures solo ==> Pruned(before, after)
  {
  }

  lemma RetainedPruned(a: World, b: World, solo: bool)
    requires solo ==> Pruned(a, b)
    ensures solo && Retained(a) ==> Retained(b)
  {
  }

  lemma ExpiryAllowed(w: World, cutoff: int, now: int, token: string)
    requires Inv(w)
    ensures Allowed(w, Tables(Expired(w.d1, cutoff, now, token)))
  {
    hide ObjectsBound, AliasesBound, AliasesReach, Reserved, Owned, CheckpointBound, Expired, Listed, NothingLost,
      Acknowledged;
    ExpiryKeepsConsistent(w.d1, cutoff, now, token);
    DirectoryRuns.ExpiredAdvances(w.d1, cutoff, now, token);
    ExpiredFrame(w.d1, cutoff, now, token);
  }

  lemma ExpiredFrame(d: Directory, cutoff: int, now: int, token: string)
    ensures Expired(d, cutoff, now, token).checkpoint == d.checkpoint
    ensures Expired(d, cutoff, now, token).history == d.history
  {
    hide Stale, StaleEntries, MarkerFor;
  }

  lemma RetainedTables(a: World, b: World)
    requires exists d1 :: b == Apply(a, Tables(d1)) && d1.history == a.d1.history
    ensures Retained(a) ==> Retained(b)
  {
  }

  lemma KeyKept(a: World, b: World, key: Key, solo: bool)
    requires key in a.generations && (solo ==> PublishersOnly(a, b))
    ensures solo ==> key in b.generations && b.generations[key] == a.generations[key]
  {
  }

  lemma PublishersTransitive(a: World, b: World, c: World)
    requires PublishersOnly(a, b) && PublishersOnly(b, c)
    ensures PublishersOnly(a, c)
  {
  }
}
