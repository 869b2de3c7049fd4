/**
 The durable world of the directory builders: the tables, the builder's own
 storage, the private bucket of immutable generations and the public aliases,
 with the relation every atomic step of any builder or publisher keeps.
 */
module BuilderState {
  import opened Options
  import opened DirectoryState

  datatype Format = Html | Xml | Json | Manifest

  /** A reservation; the token is a value drawn once. */
  datatype Pending = Pending(
    token: nat, revision: nat, generation: nat, generatedAt: int, expiresAt: int, model: Model)

  /** Rendering is a function of these fields, and both digests over it are injective. */
  datatype Object = Object(format: Format, generation: nat, generatedAt: int, expiresAt: int, model: Model)

  datatype Key = Key(generation: nat, format: Format)

  datatype Storage = Storage(highWater: nat, pending: Option<Pending>)

  /** Bound registers every reservation ever made; draws counts the tokens drawn. */
  datatype World = World(
    d1: Directory, storage: Storage, generations: map<Key, Object>, aliases: map<Format, Object>,
    bound: map<nat, Pending>, draws: nat)

  function Render(f: Format, generation: nat, generatedAt: int, expiresAt: int, model: Model): Object {
    Object(f, generation, generatedAt, expiresAt, model)
  }

  function Rendered(f: Format, p: Pending): Object {
    Render(f, p.generation, p.generatedAt, p.expiresAt, p.model)
  }

  function CheckpointOf(p: Pending, publishedAt: int): Checkpoint {
    Checkpoint(p.revision, p.generation, p.generatedAt, p.expiresAt, p.model, publishedAt)
  }

  /** The model lists exactly the ranked servers, in order and each once, with their present entries. */
  predicate Lists(model: Model, ranked: seq<string>, entries: map<string, Listing>) {
    && |model| == |ranked|
    && (forall k :: 0 <= k < |ranked| ==> ranked[k] in entries && model[k] == (ranked[k], entries[ranked[k]]))
    && (forall j, k :: 0 <= j < k < |ranked| ==> ranked[j] != ranked[k])
  }

  // ---- the invariant ------------------------------------------------------------------------

  predicate Reserved(bound: map<nat, Pending>, highWater: nat, draws: nat) {
    && (forall g :: g in bound ==>
          && 1 <= g <= highWater && bound[g].generation == g && bound[g].token < draws
          && 0 <= bound[g].generatedAt < bound[g].expiresAt)
    && (forall g, h :: g in bound && h in bound && bound[g].token == bound[h].token ==> g == h)
  }

  predicate Owned(storage: Storage, bound: map<nat, Pending>) {
    storage.pending.Some? ==>
      storage.pending.value.generation in bound && bound[storage.pending.value.generation] == storage.pending.value
  }

  /** Whatever carries a generation, privately or publicly, carries the bytes that generation was bound to. */
  predicate ObjectsBound(generations: map<Key, Object>, bound: map<nat, Pending>) {
    forall k :: k in generations ==> k.generation in bound && generations[k] == Rendered(k.format, bound[k.generation])
  }

  predicate AliasesBound(aliases: map<Format, Object>, bound: map<nat, Pending>) {
    forall f :: f in aliases ==>
        aliases[f].generation in bound && aliases[f] == Rendered(f, bound[aliases[f].generation])
  }

  predicate CheckpointBound(c: Checkpoint, bound: map<nat, Pending>) {
    c.generation > 0 ==> c.generation in bound && c == CheckpointOf(bound[c.generation], c.publishedAt)
  }

  predicate Carried(aliases: map<Format, Object>, f: Format, generation: nat) {
    f in aliases && aliases[f].generation >= generation
  }

  /** A checkpointed generation is public: every alias carries it or a later one. */
  predicate AliasesReach(aliases: map<Format, Object>, generation: nat) {
    generation > 0 ==> forall f: Format :: Carried(aliases, f, generation)
  }

  predicate Inv(w: World) {
    && Consistent(w.d1) && Reserved(w.bound, w.storage.highWater, w.draws) && Owned(w.storage, w.bound)
    && ObjectsBound(w.generations, w.bound) && AliasesBound(w.aliases, w.bound)
    && CheckpointBound(w.d1.checkpoint, w.bound) && AliasesReach(w.aliases, w.d1.checkpoint.generation)
  }

  /** Every acknowledged generation still has its four immutable objects. */
  predicate Retained(w: World) {
    forall g, f: Format :: g in w.d1.history ==> Key(g, f) in w.generations
  }

  // ---- what steps may do ---------------------------------------------------------------------

  predicate BoundGrows(a: map<nat, Pending>, b: map<nat, Pending>) {
    forall g :: g in a ==> g in b && b[g] == a[g]
  }

  predicate AliasesRise(a: map<Format, Object>, b: map<Format, Object>) {
    forall f :: f in a ==> f in b && a[f].generation <= b[f].generation
  }

  /** The revision fixes the listing and the generation fixes the checkpoint; neither goes back. */
  predicate TablesAdvance(a: Directory, b: Directory) {
    && a.revision <= b.revision && (a.revision == b.revision ==> b.entries == a.entries)
    && a.checkpoint.generation <= b.checkpoint.generation
    && (a.checkpoint.generation == b.checkpoint.generation ==> b.checkpoint == a.checkpoint)
  }

  /** Reflexive and transitive: one step, or everything that happened during one await. */
  predicate Evolves(a: World, b: World) {
    && BoundGrows(a.bound, b.bound) && AliasesRise(a.aliases, b.aliases) && TablesAdvance(a.d1, b.d1)
    && a.draws <= b.draws && a.storage.highWater <= b.storage.highWater
  }

  /** What publishers and expiries alone can change. */
  predicate PublishersOnly(a: World, b: World) {
    b == a.(d1 := b.d1) && b.d1.checkpoint == a.d1.checkpoint && b.d1.history == a.d1.history
  }

  lemma EvolvesTransitive(a: World, b: World, c: World)
    requires Evolves(a, b) && Evolves(b, c)
    ensures Evolves(a, c)
  {
  }

  /** The generation bound to an alias or an object never changes its bytes in any later world. */
  lemma OneGenerationOneContent(a: World, b: World, f: Format)
    requires Inv(a) && Inv(b) && Evolves(a, b)
    requires f in a.aliases && f in b.aliases && a.aliases[f].generation == b.aliases[f].generation
    ensures a.aliases[f] == b.aliases[f]
    ensures Key(a.aliases[f].generation, f) in b.generations ==>
              b.generations[Key(a.aliases[f].generation, f)] == a.aliases[f]
  {
  }

  // ---- atomic writes ----------------------------------------------------------------------------

  /** Every write of any builder or publisher to the shared world. */
  datatype Write =
    | Reservation(p: Pending)
    | Release
    | Raise(highWater: nat)
    | CreateObject(key: Key)
    | ReplaceAlias(f: Format, generation: nat)
    | Commit(c: Checkpoint, token: string)
    | Deletion(gone: set<Key>)
    | Tables(d1: Directory)

  predicate Allowed(w: World, e: Write) {
    match e
    case Reservation(p) =>
      p.generation > w.storage.highWater && p.token == w.draws && 0 <= p.generatedAt < p.expiresAt
    case Release => true
    case Raise(highWater) => highWater >= w.storage.highWater
    case CreateObject(key) => key.generation in w.bound && key !in w.generations
    case ReplaceAlias(f, g) => g in w.bound && (f in w.aliases ==> w.aliases[f].generation < g)
    case Commit(c, token) =>
      ValidCommit(c) && Committable(w.d1, c) && CheckpointBound(c, w.bound) && AliasesReach(w.aliases, c.generation)
    case Deletion(gone) => true
    case Tables(d1) =>
      && Consistent(d1) && TablesAdvance(w.d1, d1) && d1.checkpoint == w.d1.checkpoint
      && d1.history == w.d1.history
  }

  function Apply(w: World, e: Write): World {
    match e
    case Reservation(p) =>
      w.(storage := Storage(p.generation, Some(p)), bound := w.bound[p.generation := p], draws := p.token + 1)
    case Release => w.(storage := w.storage.(pending := None))
    case Raise(highWater) => w.(storage := w.storage.(highWater := highWater))
    case CreateObject(key) =>
      if key.generation in w.bound then
        w.(generations := w.generations[key := Rendered(key.format, w.bound[key.generation])])
      else w
    case ReplaceAlias(f, g) => if g in w.bound then w.(aliases := w.aliases[f := Rendered(f, w.bound[g])]) else w
    case Commit(c, token) => w.(d1 := Committed(w.d1, c, token))
    case Deletion(gone) => w.(generations := w.generations - gone)
    case Tables(d1) => w.(d1 := d1)
  }

  lemma ReservationKeeps(bound: map<nat, Pending>, highWater: nat, draws: nat, p: Pending)
    requires Reserved(bound, highWater, draws) && p.generation > highWater && p.token == draws
    requires 0 <= p.generatedAt < p.expiresAt
    ensures Reserved(bound[p.generation := p], p.generation, draws + 1)
    ensures p.generation !in bound && BoundGrows(bound, bound[p.generation := p])
  {
  }

  lemma AliasReaches(aliases: map<Format, Object>, f: Format, image: Object, generation: nat)
    requires AliasesReach(aliases, generation) && (f in aliases ==> aliases[f].generation <= image.generation)
    ensures AliasesReach(aliases[f := image], generation)
    ensures AliasesRise(aliases, aliases[f := image])
  {
    if generation > 0 {
      assert Carried(aliases, f, generation);
      var after := aliases[f := image];
      forall e: Format
        ensures Carried(after, e, generation)
      {
        assert Carried(aliases, e, generation);
      }
    }
  }

  lemma StorageWriteKeeps(w: World, e: Write)
    requires Inv(w) && Allowed(w, e) && (e.Reservation? || e.Release? || e.Raise?)
    ensures Inv(Apply(w, e)) && Evolves(w, Apply(w, e))
  {
    hide Consistent, AliasesReach, ObjectsBound, AliasesBound, CheckpointBound, Reserved, TablesAdvance;
    if e.Reservation? {
      ReservationKeeps(w.bound, w.storage.highWater, w.draws, e.p);
      BindingsStay(w, w.bound[e.p.generation := e.p]);
    } else {
      RaiseKeeps(w.bound, w.storage.highWater, Apply(w, e).storage.highWater, w.draws);
    }
    TablesStay(w.d1);
  }

  lemma TablesStay(d: Directory)
    ensures TablesAdvance(d, d)
  {
  }

  lemma RaiseKeeps(bound: map<nat, Pending>, highWater: nat, raised: nat, draws: nat)
    requires Reserved(bound, highWater, draws) && raised >= highWater
    ensures Reserved(bound, raised, draws)
  {
  }

  lemma BindingsStay(w: World, bound: map<nat, Pending>)
    requires BoundGrows(w.bound, bound)
    ensures ObjectsBound(w.generations, w.bound) ==> ObjectsBound(w.generations, bound)
    ensures AliasesBound(w.aliases, w.bound) ==> AliasesBound(w.aliases, bound)
    ensures CheckpointBound(w.d1.checkpoint, w.bound) ==> CheckpointBound(w.d1.checkpoint, bound)
  {
  }

  lemma BucketWriteKeeps(w: World, e: Write)
    requires Inv(w) && Allowed(w, e) && (e.CreateObject? || e.ReplaceAlias? || e.Deletion?)
    ensures Inv(Apply(w, e)) && Evolves(w, Apply(w, e))
  {
    hide Consistent, AliasesReach, CheckpointBound, Owned;
    if e.ReplaceAlias? {
      assert w.bound[e.generation].generation == e.generation;
      AliasReaches(w.aliases, e.f, Rendered(e.f, w.bound[e.generation]), w.d1.checkpoint.generation);
    }
  }

  lemma TableWriteKeeps(w: World, e: Write)
    requires Inv(w) && Allowed(w, e) && (e.Commit? || e.Tables?)
    ensures Inv(Apply(w, e)) && Evolves(w, Apply(w, e))
  {
    hide Consistent, ObjectsBound, AliasesBound, Reserved, Owned, Retain, AliasesReach, CheckpointBound;
    if e.Commit? {
      CommitKeepsConsistent(w.d1, e.c, e.token);
    }
  }

  /** Every allowed write keeps the invariant and only moves forward. */
  lemma WriteKeeps(w: World, e: Write)
    requires Inv(w) && Allowed(w, e)
    ensures Inv(Apply(w, e)) && Evolves(w, Apply(w, e))
  {
    hide Inv, Evolves, Apply, Allowed;
    match e
    case Reservation(_) => StorageWriteKeeps(w, e);
    case Release => StorageWriteKeeps(w, e);
    case Raise(_) => StorageWriteKeeps(w, e);
    case CreateObject(_) => BucketWriteKeeps(w, e);
    case ReplaceAlias(_, _) => BucketWriteKeeps(w, e);
    case Deletion(_) => BucketWriteKeeps(w, e);
    case Commit(_, _) => TableWriteKeeps(w, e);
    case Tables(_) => TableWriteKeeps(w, e);
  }

  lemma EvolvesReflexive(w: World)
    ensures Evolves(w, w)
  {
  }

  // ---- whole runs ------------------------------------------------------------------------------

  /** Any interleaving of the allowed writes of any number of builders and publishers. */
  ghost predicate Run(worlds: seq<World>, writes: seq<Write>) {
    && |worlds| == |writes| + 1 && Inv(worlds[0])
    && forall k :: 0 <= k < |writes| ==> Allowed(worlds[k], writes[k]) && worlds[k + 1] == Apply(worlds[k], writes[k])
  }

  /**
   In every run alias generations never fall, a bound generation keeps its
   content, and every checkpointed generation is carried by all four aliases.
   */
  lemma {:induction false} RunEvolves(worlds: seq<World>, writes: seq<Write>, i: nat, j: nat)
    requires Run(worlds, writes) && i <= j < |worlds|
    ensures Inv(worlds[i]) && Inv(worlds[j]) && Evolves(worlds[i], worlds[j])
    decreases j
  {
    hide Inv, Evolves, Allowed, Apply;
    if j == 0 {
      EvolvesReflexive(worlds[0]);
    } else if i == j {
      RunEvolves(worlds, writes, i - 1, j - 1);
      WriteKeeps(worlds[j - 1], writes[j - 1]);
      EvolvesReflexive(worlds[j]);
    } else {
      RunEvolves(worlds, writes, i, j - 1);
      WriteKeeps(worlds[j - 1], writes[j - 1]);
      EvolvesTransitive(worlds[i], worlds[j - 1], worlds[j]);
    }
  }
}
