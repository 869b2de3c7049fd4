/**
 The durable state of one rendezvous room: what hibernation keeps for every
 socket, the relations its transitions follow and the invariants they keep.
 */
module RoomState {
  import opened Options
  import opened Attachments

  const MAX_CLIENT_SOCKETS: nat := 64
  const MAX_EPHEMERAL_IDS: nat := (64 + 1) * 2

  type SocketId = nat

  datatype ServerSocket = ServerSocket(open: bool, stored: Option<ServerAttachment>)
  datatype ClientSocket = ClientSocket(open: bool, stored: Option<ClientAttachment>)
  type Servers = map<SocketId, ServerSocket>
  type Clients = map<SocketId, ClientSocket>

  datatype Metric = Metric(
    connectionId: string, outcome: Outcome, clientFramesAccepted: int, serverFramesMatched: int,
    framesForwarded: int, signalBytes: int)

  datatype FrameKind = ClientCandidate | ServerCandidate | Completion

  /** One frame handed to its destination socket, with both endpoints as the room knew them. */
  datatype Frame = Frame(
    kind: FrameKind, connectionId: string, bytes: int,
    clientControl: string, clientGeneration: string, clientDigest: string,
    serverControl: string, serverGeneration: string, serverDigest: string, roomGeneration: Option<string>)

  // ---- reads ---------------------------------------------------------------------

  /** What a server read returns once the attachment has been written. */
  function ReloadServer(a: ServerAttachment): Option<ServerAttachment> {
    var read := Reloaded(Server(a));
    if read.Some? && read.value.Server? then Some(read.value.server) else None
  }

  function ReloadClient(a: ClientAttachment): Option<ClientAttachment> {
    var read := Reloaded(Client(a));
    if read.Some? && read.value.Client? then Some(read.value.client) else None
  }

  lemma ReloadKeepsValid(a: Attachment)
    ensures a.Server? ==> ReloadServer(a.server) == if ValidServer(a.server) then Some(a.server) else None
    ensures a.Client? ==> ReloadClient(a.client) == if ValidClient(a.client) then Some(a.client) else None
  {
    hide Reloaded, ValidServer, ValidClient;
    ReloadedIsValid(a);
  }

  ghost predicate ReadableServers(servers: Servers) {
    forall id :: id in servers && servers[id].stored.Some? ==> ValidServer(servers[id].stored.value)
  }

  ghost predicate ReadableClients(clients: Clients) {
    forall id :: id in clients && clients[id].stored.Some? ==> ValidClient(clients[id].stored.value)
  }

  lemma ReadAt(servers: Servers, id: SocketId)
    requires ReadableServers(servers) && id in servers && servers[id].stored.Some?
    ensures ValidServer(servers[id].stored.value)
  {
  }

  lemma ReadableAfterWrite(clients: Clients, id: SocketId, c: ClientSocket)
    requires ReadableClients(clients)
    requires (id in clients && c.stored == clients[id].stored) || (c.stored.Some? ==> ValidClient(c.stored.value))
    ensures ReadableClients(clients[id := c])
  {
    hide ValidClient;
  }

  // ---- control ownership -----------------------------------------------------------

  /** An open socket whose stored attachment claims the room. */
  predicate Holds(s: ServerSocket) {
    s.open && s.stored.Some? && s.stored.value.current
  }

  /** It claims the room at the given generation. */
  predicate Eligible(s: ServerSocket, generation: Option<string>) {
    Holds(s) && Some(s.stored.value.generation) == generation
  }

  predicate Candidate(servers: Servers, id: SocketId, generation: Option<string>, ignored: Option<SocketId>) {
    id in servers && Some(id) != ignored && Eligible(servers[id], generation)
  }

  ghost predicate AtMostOneOwner(servers: Servers) {
    forall a, b :: a in servers && b in servers && Holds(servers[a]) && Holds(servers[b]) ==> a == b
  }

  predicate Claims(servers: Servers, id: SocketId) {
    id in servers && servers[id].stored.Some? && servers[id].stored.value.current
  }

  /**
   A teardown still owed to a control concerns a durably current one, and
   while any is owed no other open control holds the room.
   */
  ghost predicate PendingOwned(servers: Servers, pending: map<SocketId, Outcome>) {
    && (forall id :: id in pending ==> Claims(servers, id))
    && (pending != map[] ==> forall id :: id in servers && Holds(servers[id]) ==> id in pending)
  }

  /** The order of competing controls: later opening first, then the greater control id. */
  predicate Newer(a: ServerAttachment, b: ServerAttachment) {
    a.openedAt > b.openedAt || (a.openedAt == b.openedAt && TextGreater(a.controlId, b.controlId))
  }

  predicate TextGreater(a: string, b: string) {
    if |a| == 0 then false
    else if |b| == 0 then true
    else a[0] > b[0] || (a[0] == b[0] && TextGreater(a[1..], b[1..]))
  }

  lemma {:induction false} TextOrder(a: string, b: string, c: string)
    ensures TextGreater(a, b) && TextGreater(b, c) ==> TextGreater(a, c)
    ensures !(TextGreater(a, b) && TextGreater(b, a))
    ensures TextGreater(a, b) || TextGreater(b, a) || a == b
    decreases |a| + |b| + |c|
  {
    if |a| > 0 && |b| > 0 {
      if |c| > 0 {
        TextOrder(a[1..], b[1..], c[1..]);
      } else {
        TextOrder(a[1..], b[1..], c);
      }
      if a[0] == b[0] && a[1..] == b[1..] {
        assert a == [a[0]] + a[1..] && b == [b[0]] + b[1..];
      }
    }
  }

  /** Where two texts first differ, or the second has ended: the first is the greater there. */
  predicate ExceedsAt(a: string, b: string, k: nat) {
    && k < |a| && k <= |b| && a[..k] == b[..k]
    && (k == |b| || a[k] > b[k])
  }

  lemma {:induction false} TextGreaterMeans(a: string, b: string)
    ensures TextGreater(a, b) <==> exists k :: ExceedsAt(a, b, k)
    decreases |a|
  {
    if |a| == 0 {
    } else if |b| == 0 {
      assert ExceedsAt(a, b, 0);
    } else if a[0] != b[0] {
      if a[0] > b[0] {
        assert ExceedsAt(a, b, 0);
      }
      forall k: nat | ExceedsAt(a, b, k)
        ensures k == 0
      {
        DifferAtOnce(a, b, k);
      }
    } else {
      TextGreaterMeans(a[1..], b[1..]);
      forall k: nat
        ensures ExceedsAt(a[1..], b[1..], k) <==> ExceedsAt(a, b, k + 1)
      {
        ExceedsLater(a, b, k);
      }
      if k: nat :| ExceedsAt(a[1..], b[1..], k) {
        assert ExceedsAt(a, b, k + 1);
      }
      if k: nat :| ExceedsAt(a, b, k) {
        assert k > 0;
        assert ExceedsAt(a[1..], b[1..], k - 1);
      }
    }
  }

  lemma DifferAtOnce(a: string, b: string, k: nat)
    requires |a| > 0 && |b| > 0 && a[0] != b[0]
    ensures ExceedsAt(a, b, k) ==> k == 0
  {
    if 0 < k <= |a| && k <= |b| {
      assert a[..k][0] == a[0] && b[..k][0] == b[0];
    }
  }

  lemma ExceedsLater(a: string, b: string, k: nat)
    requires |a| > 0 && |b| > 0 && a[0] == b[0]
    ensures ExceedsAt(a[1..], b[1..], k) <==> ExceedsAt(a, b, k + 1)
  {
    if k < |a| - 1 && k <= |b| - 1 {
      assert a[..k + 1] == [a[0]] + a[1..][..k] && b[..k + 1] == [b[0]] + b[1..][..k];
      assert a[..k + 1][1..] == a[1..][..k] && b[..k + 1][1..] == b[1..][..k];
    }
  }

  /** An open control that claims the room at its generation and was owed no teardown. */
  predicate Stood(
    servers: Servers, owed: map<SocketId, Outcome>, id: SocketId, generation: Option<string>, ignored: Option<SocketId>)
  {
    && id in servers && id !in owed && ignored != Some(id)
    && servers[id].open && servers[id].stored.Some? && servers[id].stored.value.current
    && generation == Some(servers[id].stored.value.generation)
  }

  /** Each control stood under an id of its own. */
  ghost predicate StoodApart(
    servers: Servers, owed: map<SocketId, Outcome>, generation: Option<string>, ignored: Option<SocketId>)
  {
    forall a, b ::
      && Stood(servers, owed, a, generation, ignored) && Stood(servers, owed, b, generation, ignored) && a != b
      ==> servers[a].stored.value.controlId != servers[b].stored.value.controlId
  }

  /** None of them was opened later, or at the same moment under an id that follows in text order. */
  ghost predicate LatestStood(
    servers: Servers, owed: map<SocketId, Outcome>, w: ServerAttachment, generation: Option<string>,
    ignored: Option<SocketId>)
  {
    forall id :: Stood(servers, owed, id, generation, ignored) ==>
      var a := servers[id].stored.value;
      && a.openedAt <= w.openedAt
      && (a.openedAt == w.openedAt ==> forall k: nat :: !ExceedsAt(a.controlId, w.controlId, k))
  }

  lemma StoodIsCandidate(
    servers: Servers, owed: map<SocketId, Outcome>, generation: Option<string>, ignored: Option<SocketId>)
    ensures forall id :: Stood(servers, owed, id, generation, ignored) <==>
              Candidate(servers, id, generation, ignored) && id !in owed
  {
  }

  /** What stood before and was unowed still stands after the retry, and nothing else does. */
  lemma StoodAfterRetry(
    before: Servers, owed: map<SocketId, Outcome>, after: Servers, generation: Option<string>,
    ignored: Option<SocketId>)
    requires Shrunk(before, after) && after.Keys == before.Keys
    requires forall id :: id in after && id in owed ==> !Holds(after[id])
    requires forall id :: id in after && id !in owed ==> SocketMarked(before[id], after[id])
    ensures forall id :: Stood(before, owed, id, generation, ignored) <==> Candidate(after, id, generation, ignored)
    ensures forall id :: Stood(before, owed, id, generation, ignored) ==>
              && id in after && after[id].stored.Some?
              && after[id].stored.value.controlId == before[id].stored.value.controlId
  {
    hide TicketsDerived, TicketsMarked;
  }

  lemma ApartAfterRetry(
    before: Servers, owed: map<SocketId, Outcome>, after: Servers, active: set<SocketId>, generation: Option<string>,
    ignored: Option<SocketId>)
    requires forall id :: id in active <==> Candidate(after, id, generation, ignored)
    requires forall id :: Stood(before, owed, id, generation, ignored) <==> Candidate(after, id, generation, ignored)
    requires forall id :: Stood(before, owed, id, generation, ignored) ==>
               && id in after && after[id].stored.Some?
               && after[id].stored.value.controlId == before[id].stored.value.controlId
    ensures StoodApart(before, owed, generation, ignored) <==>
              forall a, b :: a in active && b in active && a != b ==>
                !(a in after && b in after && after[a].stored.Some? && after[b].stored.Some? &&
                  after[a].stored.value.controlId == after[b].stored.value.controlId)
    ensures active != {} <==> exists id :: Stood(before, owed, id, generation, ignored)
  {
    hide Eligible;
    assert forall id :: id in active <==> Stood(before, owed, id, generation, ignored);
  }

  lemma LatestByOrder(
    servers: Servers, owed: map<SocketId, Outcome>, w: ServerAttachment, generation: Option<string>,
    ignored: Option<SocketId>)
    requires forall id :: Candidate(servers, id, generation, ignored) && id !in owed ==>
               !Newer(servers[id].stored.value, w)
    ensures LatestStood(servers, owed, w, generation, ignored)
  {
    hide TextGreater, ExceedsAt;
    forall id | Stood(servers, owed, id, generation, ignored)
      ensures var a := servers[id].stored.value;
              a.openedAt <= w.openedAt &&
              (a.openedAt == w.openedAt ==> forall k: nat :: !ExceedsAt(a.controlId, w.controlId, k))
    {
      assert Candidate(servers, id, generation, ignored);
      TextGreaterMeans(servers[id].stored.value.controlId, w.controlId);
    }
  }

  /** A strict order that only ties controls opened together under one id. */
  lemma NewerOrder(a: ServerAttachment, b: ServerAttachment, c: ServerAttachment)
    ensures Newer(a, b) && Newer(b, c) ==> Newer(a, c)
    ensures !(Newer(a, b) && Newer(b, a))
    ensures Newer(a, b) || Newer(b, a) || (a.openedAt == b.openedAt && a.controlId == b.controlId)
  {
    TextOrder(a.controlId, b.controlId, c.controlId);
  }

  predicate IsNewest(servers: Servers, ids: set<SocketId>, id: SocketId) {
    && id in ids && id in servers && servers[id].stored.Some?
    && forall other :: other in ids && other in servers && servers[other].stored.Some? ==>
         !Newer(servers[other].stored.value, servers[id].stored.value)
  }

  lemma NewestExists(servers: Servers, ids: set<SocketId>) returns (newest: SocketId)
    requires ids != {} && forall id :: id in ids ==> id in servers && servers[id].stored.Some?
    ensures IsNewest(servers, ids, newest)
    decreases |ids|
  {
    hide Newer;
    var pick :| pick in ids;
    var rest := ids - {pick};
    var first := servers[pick].stored.value;
    NewerOrder(first, first, first);
    newest := pick;
    assert forall id :: id in ids ==> id == pick || id in rest;
    if rest != {} {
      var best := NewestExists(servers, rest);
      var other := servers[best].stored.value;
      forall id | id in rest
        ensures !Newer(servers[id].stored.value, other)
        ensures Newer(first, other) ==> !Newer(servers[id].stored.value, first)
      {
        NewerOrder(servers[id].stored.value, first, other);
      }
      if !Newer(first, other) {
        newest := best;
      }
    }
  }

  // ---- what a teardown may do to a server -----------------------------------------

  /** A ticket kept as it was, or only spent. */
  predicate Derived(t: TicketState, before: seq<TicketState>) {
    t in before || (t.stage == Spent && t.(stage := Active) in before)
  }

  ghost predicate TicketsDerived(after: seq<TicketState>, before: seq<TicketState>) {
    forall t :: t in after ==> Derived(t, before)
  }

  /** The same tickets in the same places, some of them spent. */
  ghost predicate TicketsMarked(after: seq<TicketState>, before: seq<TicketState>) {
    |after| == |before| &&
    forall i :: 0 <= i < |after| ==> after[i] == before[i] || after[i] == before[i].(stage := Spent)
  }

  lemma MarkedAreDerived(after: seq<TicketState>, before: seq<TicketState>)
    requires TicketsMarked(after, before)
    ensures TicketsDerived(after, before)
  {
    forall t | t in after
      ensures Derived(t, before)
    {
      var i :| 0 <= i < |after| && after[i] == t;
      assert before[i] in before;
      if t != before[i] && before[i].stage == Active {
        assert t.(stage := Active) == before[i];
      }
    }
  }

  lemma TicketsMarkedTransitive(a: seq<TicketState>, b: seq<TicketState>, c: seq<TicketState>)
    requires TicketsMarked(b, a) && TicketsMarked(c, b)
    ensures TicketsMarked(c, a)
  {
  }

  predicate SameControl(a: ServerAttachment, b: ServerAttachment) {
    a.controlId == b.controlId && a.generation == b.generation && a.openedAt == b.openedAt &&
    a.accessProtocol == b.accessProtocol
  }

  ghost predicate AttachmentShrunk(before: ServerAttachment, after: ServerAttachment) {
    SameControl(before, after) && (after.current ==> before.current) && TicketsDerived(after.tickets, before.tickets)
  }

  ghost predicate SocketShrunk(before: ServerSocket, after: ServerSocket) {
    && (after.open ==> before.open)
    && (after.stored == before.stored ||
        (before.stored.Some? && after.stored.Some? && AttachmentShrunk(before.stored.value, after.stored.value)))
  }

  /** No control gains anything: sockets only close, claims only end, tickets only end. */
  ghost predicate Shrunk(before: Servers, after: Servers) {
    after.Keys <= before.Keys && forall id :: id in after ==> SocketShrunk(before[id], after[id])
  }

  ghost predicate SocketMarked(before: ServerSocket, after: ServerSocket) {
    && after.open == before.open
    && (after.stored == before.stored ||
        (before.stored.Some? && after.stored.Some? &&
         after.stored.value == before.stored.value.(tickets := after.stored.value.tickets) &&
         TicketsMarked(after.stored.value.tickets, before.stored.value.tickets)))
  }

  /** Claims and transports are untouched; only tickets end. */
  ghost predicate OnlyMarked(before: Servers, after: Servers) {
    after.Keys == before.Keys && forall id :: id in after ==> SocketMarked(before[id], after[id])
  }

  lemma DerivedTransitive(a: seq<TicketState>, b: seq<TicketState>, c: seq<TicketState>)
    requires TicketsDerived(b, a) && TicketsDerived(c, b)
    ensures TicketsDerived(c, a)
  {
    forall t | t in c
      ensures Derived(t, a)
    {
      assert Derived(t, b);
      if t !in b {
        assert Derived(t.(stage := Active), a);
      }
    }
  }

  lemma DerivedSelf(a: seq<TicketState>)
    ensures TicketsDerived(a, a)
  {
  }

  lemma ShrunkSelf(a: Servers)
    ensures Shrunk(a, a) && OnlyMarked(a, a)
  {
  }

  lemma ShrunkTransitive(a: Servers, b: Servers, c: Servers)
    requires Shrunk(a, b) && Shrunk(b, c)
    ensures Shrunk(a, c)
  {
    hide TicketsDerived;
    forall id | id in c
      ensures SocketShrunk(a[id], c[id])
    {
      assert SocketShrunk(a[id], b[id]) && SocketShrunk(b[id], c[id]);
      if c[id].stored != b[id].stored && b[id].stored != a[id].stored {
        DerivedTransitive(a[id].stored.value.tickets, b[id].stored.value.tickets, c[id].stored.value.tickets);
      }
    }
  }

  lemma MarkedTransitive(a: Servers, b: Servers, c: Servers)
    requires OnlyMarked(a, b) && OnlyMarked(b, c)
    ensures OnlyMarked(a, c)
  {
    hide TicketsMarked;
    forall id | id in c
      ensures SocketMarked(a[id], c[id])
    {
      assert SocketMarked(a[id], b[id]) && SocketMarked(b[id], c[id]);
      if c[id].stored != b[id].stored && b[id].stored != a[id].stored {
        TicketsMarkedTransitive(a[id].stored.value.tickets, b[id].stored.value.tickets, c[id].stored.value.tickets);
      }
    }
  }

  lemma MarkedShrinks(a: Servers, b: Servers)
    requires OnlyMarked(a, b)
    ensures Shrunk(a, b) && a.Keys == b.Keys
    ensures forall id :: id in a ==> Holds(a[id]) == Holds(b[id]) && Claims(a, id) == Claims(b, id)
    ensures forall id, g :: id in a ==> Eligible(a[id], g) == Eligible(b[id], g)
  {
    hide TicketsDerived, TicketsMarked;
    forall id | id in b
      ensures SocketShrunk(a[id], b[id])
    {
      assert SocketMarked(a[id], b[id]);
      if b[id].stored != a[id].stored {
        MarkedAreDerived(b[id].stored.value.tickets, a[id].stored.value.tickets);
      }
    }
  }

  lemma ShrinkOne(servers: Servers, id: SocketId, s: ServerSocket)
    requires id in servers && SocketShrunk(servers[id], s)
    ensures Shrunk(servers, servers[id := s])
  {
    ShrunkSelf(servers);
  }

  lemma ReadableAfterServerWrite(servers: Servers, id: SocketId, s: ServerSocket)
    requires ReadableServers(servers) && (s.stored.Some? ==> ValidServer(s.stored.value))
    ensures ReadableServers(servers[id := s])
  {
  }

  /** Closing a transport or dropping the claim of one control shrinks the room. */
  lemma RetiringShrinks(servers: Servers, id: SocketId, s: ServerSocket, a: ServerAttachment)
    requires ReadableServers(servers) && id in servers && servers[id].stored.Some? && ValidServer(a)
    requires AttachmentShrunk(servers[id].stored.value, a)
    requires s.open ==> servers[id].open
    requires s.stored == servers[id].stored || s.stored == Some(a) || s.stored == Some(a.(current := false))
    ensures Shrunk(servers, servers[id := s]) && ReadableServers(servers[id := s])
  {
    hide TicketsDerived;
    assert ValidServer(a.(current := false));
    ShrinkOne(servers, id, s);
    hide ValidServer;
    ReadableAfterServerWrite(servers, id, s);
  }

  /** A teardown of one control settles what is still owed. */
  lemma FailKeepsPending(
    before: Servers, after: Servers, pending: map<SocketId, Outcome>, left: map<SocketId, Outcome>, id: SocketId)
    requires AtMostOneOwner(before) && PendingOwned(before, pending)
    requires id in before && Shrunk(before, after) && after.Keys == before.Keys
    requires forall other :: other in after && other != id ==> SocketMarked(before[other], after[other])
    requires left.Keys == pending.Keys - {id} || (id in left && left.Keys == pending.Keys + {id})
    requires if id in left then (Claims(before, id) || id in pending) && (Claims(before, id) ==> Holds(after[id]))
             else !Holds(after[id])
    ensures PendingOwned(after, left)
  {
    hide TicketsDerived, Shrunk;
    ShrunkKeepsOwnership(before, after);
    forall other | other in left
      ensures Claims(after, other)
    {
      assert Claims(before, other);
    }
    if left != map[] {
      var some :| some in left;
      forall other | other in after && Holds(after[other])
        ensures other in left
      {
        assert Holds(before[other]);
        if other != id && id !in left {
          assert some in pending;
        }
      }
    }
  }

  /** Dropping a claim, ending clients and closing a transport, in that order. */
  lemma RetiredAfter(before: Servers, demoted: Servers, marked: Servers, after: Servers, id: SocketId)
    requires id in before && ReadableServers(marked)
    requires Shrunk(before, demoted) && demoted.Keys == before.Keys
    requires forall other :: other in demoted && other != id ==> demoted[other] == before[other]
    requires OnlyMarked(demoted, marked)
    requires id in after && after == marked[id := marked[id].(open := after[id].open)]
    requires after[id].open ==> marked[id].open
    ensures after.Keys == before.Keys && Shrunk(before, after) && ReadableServers(after)
    ensures forall other :: other in after && other != id ==> SocketMarked(before[other], after[other])
    ensures Claims(demoted, id) == Claims(after, id) && (after[id].open ==> before[id].open)
  {
    hide TicketsDerived;
    MarkedShrinks(demoted, marked);
    ShrinkOne(marked, id, after[id]);
    ReadableAfterServerWrite(marked, id, after[id]);
    ShrunkTransitive(before, demoted, marked);
    ShrunkTransitive(before, marked, after);
    assert SocketShrunk(before[id], after[id]);
  }

  /** A control set aside for a replacement: demoted durably, or closed because it could not be. */
  datatype Retirement = Retirement(id: SocketId, attachment: ServerAttachment, durablyDemoted: bool)

  /** One control retired, every other one untouched. */
  ghost predicate OneRetired(before: Servers, after: Servers, id: SocketId) {
    && id in before && id in after && after == before[id := after[id]]
    && SocketShrunk(before[id], after[id]) && !Holds(after[id])
  }

  lemma OneRetiredShrinks(before: Servers, after: Servers, id: SocketId)
    requires OneRetired(before, after, id)
    ensures Shrunk(before, after) && after.Keys == before.Keys
  {
    hide SocketShrunk;
    ShrinkOne(before, id, after[id]);
  }

  lemma RetiredKeepsPending(
    before: Servers, after: Servers, pending: map<SocketId, Outcome>, left: map<SocketId, Outcome>, id: SocketId)
    requires AtMostOneOwner(before) && PendingOwned(before, pending)
    requires OneRetired(before, after, id) && left == pending - {id}
    ensures AtMostOneOwner(after) && PendingOwned(after, left)
  {
    hide SocketShrunk;
    OneRetiredShrinks(before, after, id);
    ShrunkKeepsOwnership(before, after);
    forall other | other in left
      ensures Claims(after, other)
    {
      assert Claims(before, other) && after[other] == before[other];
    }
    if left != map[] {
      var some :| some in left;
      assert some in pending;
      forall other | other in after && Holds(after[other])
        ensures other in left
      {
        assert Holds(before[other]);
      }
    }
  }

  lemma PendingIsReadable(servers: Servers, pending: map<SocketId, Outcome>, id: SocketId)
    requires id in pending && id in servers
    ensures PendingOwned(servers, pending) ==> servers[id].stored.Some?
  {
    if PendingOwned(servers, pending) {
      assert Claims(servers, id);
    }
  }

  /** The given sockets are the candidates of the room, each once. */
  ghost predicate ListsCandidates(
    servers: Servers, order: seq<SocketId>, generation: Option<string>, ignored: Option<SocketId>)
  {
    && (forall id :: id in order <==> Candidate(servers, id, generation, ignored))
    && (forall i, j :: 0 <= i < j < |order| ==> order[i] != order[j])
  }

  /** No candidate is newer than the given one. */
  ghost predicate NoneNewer(
    servers: Servers, winner: SocketId, generation: Option<string>, ignored: Option<SocketId>)
  {
    && Candidate(servers, winner, generation, ignored)
    && forall id :: Candidate(servers, id, generation, ignored) ==>
         !Newer(servers[id].stored.value, servers[winner].stored.value)
  }

  /** The given sockets once each, newest control first. */
  ghost predicate SortedNewest(servers: Servers, ids: set<SocketId>, order: seq<SocketId>) {
    && |order| == |ids|
    && (forall id :: id in order <==> id in ids)
    && (forall i, j :: 0 <= i < j < |order| ==> order[i] != order[j])
    && (|order| > 0 ==> IsNewest(servers, ids, order[0]))
  }

  lemma SortedCandidates(
    servers: Servers, active: set<SocketId>, order: seq<SocketId>, generation: Option<string>,
        ignored: Option<SocketId>)
    requires forall id :: id in active <==> Candidate(servers, id, generation, ignored)
    requires SortedNewest(servers, active, order) && |order| > 0
    ensures ListsCandidates(servers, order, generation, ignored)
    ensures NoneNewer(servers, order[0], generation, ignored)
  {
    hide Newer;
    assert forall id :: id in order <==> Candidate(servers, id, generation, ignored);
  }

  /** At most the winner can still speak for the room. */
  ghost predicate SoleCandidate(
    servers: Servers, winner: Option<SocketId>, generation: Option<string>, ignored: Option<SocketId>)
  {
    && (winner.Some? ==> Candidate(servers, winner.value, generation, ignored))
    && forall id: SocketId :: Candidate(servers, id, generation, ignored) ==> Some(id) == winner
  }

  lemma CandidateWins(servers: Servers, winner: Option<SocketId>, generation: Option<string>, id: SocketId)
    requires SoleCandidate(servers, winner, generation, None) && id in servers && servers[id].open
    requires servers[id].stored.Some? && servers[id].stored.value.current
    requires Some(servers[id].stored.value.generation) == generation
    ensures winner == Some(id)
  {
    assert Candidate(servers, id, generation, None);
  }

  lemma WinnerOwns(servers: Servers, winner: Option<SocketId>, generation: Option<string>)
    requires SoleCandidate(servers, winner, generation, None)
    ensures forall id: SocketId ::
              (&& id in servers && servers[id].open && servers[id].stored.Some? && servers[id].stored.value.current
               && Some(servers[id].stored.value.generation) == generation) <==> winner == Some(id)
  {
    forall id: SocketId
      ensures Candidate(servers, id, generation, None) <==> winner == Some(id)
    {
    }
  }

  lemma MarkedCandidates(
    before: Servers, after: Servers, winner: Option<SocketId>, generation: Option<string>, ignored: Option<SocketId>)
    requires OnlyMarked(before, after) && SoleCandidate(before, winner, generation, ignored)
    ensures SoleCandidate(after, winner, generation, ignored)
  {
    hide OnlyMarked, Eligible;
    MarkedShrinks(before, after);
  }

  lemma RetiredCandidates(
    before: Servers, after: Servers, retired: SocketId, generation: Option<string>, ignored: Option<SocketId>)
    requires OneRetired(before, after, retired)
    ensures forall id :: Candidate(after, id, generation, ignored) <==>
              Candidate(before, id, generation, ignored) && id != retired
    ensures forall id :: id in before && id != retired ==> after[id] == before[id]
  {
  }

  lemma CandidateIsReadable(servers: Servers, id: SocketId, generation: Option<string>, ignored: Option<SocketId>)
    requires Candidate(servers, id, generation, ignored)
    ensures id in servers && servers[id].stored.Some?
  {
  }

  lemma FirstOfOrder(servers: Servers, order: seq<SocketId>, generation: Option<string>, ignored: Option<SocketId>)
    requires ListsCandidates(servers, order, generation, ignored) && |order| > 0
    ensures Candidate(servers, order[0], generation, ignored) && order[0] !in order[1..]
    ensures forall id :: Candidate(servers, id, generation, ignored) ==> id == order[0] || id in order[1..]
    ensures forall id :: id == order[0] || id in order[1..] ==> id in servers
  {
    hide Eligible;
    forall id | id == order[0] || id in order[1..]
      ensures Candidate(servers, id, generation, ignored)
    {
      assert id in order;
    }
  }

  lemma NextOfOrder(
    servers: Servers, order: seq<SocketId>, next: nat, generation: Option<string>, ignored: Option<SocketId>)
    requires ListsCandidates(servers, order, generation, ignored) && next < |order|
    ensures Candidate(servers, order[next], generation, ignored)
    ensures order[next] in servers && servers[order[next]].stored.Some?
    ensures forall id :: id in order[next..] <==> id == order[next] || id in order[next + 1..]
    ensures order[next] !in order[next + 1..]
  {
    hide Eligible;
    assert order[next] in order;
    CandidateIsReadable(servers, order[next], generation, ignored);
    assert order[next..] == [order[next]] + order[next + 1..];
  }

  lemma SoleFromOne(servers: Servers, winner: SocketId, generation: Option<string>, ignored: Option<SocketId>)
    requires Candidate(servers, winner, generation, ignored)
    requires forall id :: Candidate(servers, id, generation, ignored) ==> id == winner
    ensures SoleCandidate(servers, Some(winner), generation, ignored)
  {
  }

  lemma TwoCandidates(
    servers: Servers, active: set<SocketId>, generation: Option<string>, ignored: Option<SocketId>)
    requires forall id :: id in active <==> Candidate(servers, id, generation, ignored)
    ensures AtMostOneOwner(servers) ==> |active| <= 1
  {
    if |active| > 1 {
      var a :| a in active;
      assert |active - {a}| > 0;
      var b :| b in active - {a};
      assert Holds(servers[a]) && Holds(servers[b]);
    }
  }

  lemma SmallSet(active: set<SocketId>, a: SocketId)
    requires |active| <= 1 && a in active
    ensures active == {a}
  {
    assert |active - {a}| == 0;
    assert active == (active - {a}) + {a};
  }

  lemma NothingOwed(servers: Servers, pending: map<SocketId, Outcome>)
    requires PendingOwned(servers, pending) && forall id :: id in servers ==> id !in pending
    ensures pending == map[]
  {
    assert forall id :: Claims(servers, id) ==> id in servers;
    assert pending.Keys == {};
  }

  lemma NoCandidate(
    servers: Servers, active: set<SocketId>, generation: Option<string>, ignored: Option<SocketId>)
    requires forall id :: id in active <==> Candidate(servers, id, generation, ignored)
    requires active == {}
    ensures SoleCandidate(servers, None, generation, ignored)
  {
  }

  lemma SocketMarkedTransitive(a: ServerSocket, b: ServerSocket, c: ServerSocket)
    requires SocketMarked(a, b) && SocketMarked(b, c)
    ensures SocketMarked(a, c)
  {
    hide TicketsMarked;
    if c.stored != b.stored && b.stored != a.stored {
      TicketsMarkedTransitive(a.stored.value.tickets, b.stored.value.tickets, c.stored.value.tickets);
    }
  }

  /** What retrying owed teardowns means for the candidates that remain. */
  lemma RetryLeaves(
    before: Servers, pending: map<SocketId, Outcome>, after: Servers, left: map<SocketId, Outcome>,
    generation: Option<string>, ignored: Option<SocketId>)
    requires Shrunk(before, after) && after.Keys == before.Keys
    requires forall id :: id in after ==> id !in left
    requires forall id :: id in after && id in pending ==> !Holds(after[id])
    requires forall id :: id in after && id !in pending ==> SocketMarked(before[id], after[id])
    ensures PendingOwned(after, left) ==> left == map[]
    ensures PendingOwned(before, pending) && pending != map[] ==>
              forall id :: !Candidate(after, id, generation, ignored)
    ensures forall id :: Candidate(before, id, generation, ignored) && id !in pending ==>
              Candidate(after, id, generation, ignored) &&
              after[id].stored.value.openedAt == before[id].stored.value.openedAt &&
              after[id].stored.value.controlId == before[id].stored.value.controlId
  {
    hide TicketsDerived;
    if PendingOwned(after, left) {
      NothingOwed(after, left);
    }
    if PendingOwned(before, pending) && pending != map[] {
      ShrunkKeepsOwnership(before, after);
    }
  }

  /** A newest candidate after the retry was not beaten by any earlier claim that was not owed. */
  lemma NewestSurvivesRetry(
    before: Servers, pending: map<SocketId, Outcome>, after: Servers, winner: SocketId,
    generation: Option<string>, ignored: Option<SocketId>)
    requires NoneNewer(after, winner, generation, ignored)
    requires forall id :: Candidate(before, id, generation, ignored) && id !in pending ==>
               Candidate(after, id, generation, ignored) &&
               after[id].stored.value.openedAt == before[id].stored.value.openedAt &&
               after[id].stored.value.controlId == before[id].stored.value.controlId
    ensures forall id :: Candidate(before, id, generation, ignored) && id !in pending ==>
              !Newer(before[id].stored.value, after[winner].stored.value)
  {
    forall id | Candidate(before, id, generation, ignored) && id !in pending
      ensures !Newer(before[id].stored.value, after[winner].stored.value)
    {
      assert Newer(before[id].stored.value, after[winner].stored.value) ==
             Newer(after[id].stored.value, after[winner].stored.value);
    }
  }

  lemma OnlyCandidate(
    servers: Servers, active: set<SocketId>, only: SocketId, generation: Option<string>, ignored: Option<SocketId>)
    requires forall id :: id in active <==> Candidate(servers, id, generation, ignored)
    requires |active| <= 1 && only in active
    ensures SoleCandidate(servers, Some(only), generation, ignored) && NoneNewer(servers, only, generation, ignored)
    ensures only in servers && servers[only].stored.Some? && servers[only].open
    ensures SocketMarked(ServerSocket(true, servers[only].stored), servers[only])
  {
    SmallSet(active, only);
    var a := servers[only].stored.value;
    NewerOrder(a, a, a);
  }

  lemma MarkedStillCandidates(
    before: Servers, after: Servers, generation: Option<string>, ignored: Option<SocketId>)
    requires OnlyMarked(before, after)
    ensures forall id :: Candidate(before, id, generation, ignored) <==> Candidate(after, id, generation, ignored)
  {
    hide OnlyMarked, Eligible;
    MarkedShrinks(before, after);
  }

  lemma WinnerIsMarked(
    before: Servers, after: Servers, id: SocketId, generation: Option<string>, ignored: Option<SocketId>)
    requires OnlyMarked(before, after) && SoleCandidate(before, Some(id), generation, ignored)
    ensures id in before && id in after && before[id].stored.Some? && after[id].stored.Some?
    ensures SocketMarked(ServerSocket(true, before[id].stored), after[id])
  {
    hide TicketsDerived;
    assert Candidate(before, id, generation, ignored);
    assert SocketMarked(before[id], after[id]);
  }

  /**
   What setting controls aside amounts to: each retirement names its own control,
   which no longer holds the room and could be reinstated from its attachment.
   */
  /** Every control's attachment decodes. */
  predicate AllControlsRead(servers: Servers) {
    forall id :: id in servers ==> servers[id].stored.Some?
  }

  ghost predicate SetAside(before: Servers, after: Servers, retirements: seq<Retirement>) {
    && (forall i, j :: 0 <= i < j < |retirements| ==> retirements[i].id != retirements[j].id)
    && forall i :: 0 <= i < |retirements| ==> Reinstatable(before, after, retirements[i])
  }

  ghost predicate Reinstatable(before: Servers, after: Servers, r: Retirement) {
    && r.id in before && r.id in after && Claims(before, r.id)
    && (after[r.id].open ==> before[r.id].open)
    && (if r.durablyDemoted then
          after[r.id].stored == Some(r.attachment) && !r.attachment.current &&
          before[r.id].stored == Some(r.attachment.(current := true))
        else !after[r.id].open)
  }

  /** Every control that claims the room was set aside. */
  ghost predicate AllSetAside(before: Servers, after: Servers) {
    Shrunk(before, after) && after.Keys == before.Keys && forall id :: id in after ==> !Holds(after[id])
  }

  /** The room after an upgrade attempt: earlier controls shrank, one new socket without tickets may exist. */
  ghost predicate Grown(before: Servers, after: Servers, socket: SocketId) {
    && after.Keys <= before.Keys + {socket}
    && (forall id :: id in after && id != socket ==> SocketShrunk(before[id], after[id]))
    && (socket in after && after[socket].stored.Some? ==> after[socket].stored.value.tickets == [])
  }

  lemma GrownCarries(before: Servers, after: Servers, socket: SocketId)
    requires Grown(before, after, socket)
    ensures TicketsCarried(before, after)
  {
    forall s, t | s in after && HasTicket(after[s], t)
      ensures s in before && before[s].stored.Some? && SameControl(before[s].stored.value, after[s].stored.value)
      ensures Derived(t, before[s].stored.value.tickets)
    {
      assert s != socket;
      assert SocketShrunk(before[s], after[s]);
    }
  }

  lemma GrownAfterShrink(a: Servers, b: Servers, c: Servers, socket: SocketId)
    requires Shrunk(a, b) && Grown(b, c, socket) && b.Keys == a.Keys
    ensures Grown(a, c, socket)
  {
    hide TicketsDerived;
    forall id | id in c && id != socket
      ensures SocketShrunk(a[id], c[id])
    {
      assert SocketShrunk(a[id], b[id]) && SocketShrunk(b[id], c[id]);
      if c[id].stored != b[id].stored && b[id].stored != a[id].stored {
        DerivedTransitive(a[id].stored.value.tickets, b[id].stored.value.tickets, c[id].stored.value.tickets);
      }
    }
  }

  lemma ShrinkAfterGrown(a: Servers, b: Servers, c: Servers, socket: SocketId)
    requires Grown(a, b, socket) && Shrunk(b, c)
    ensures Grown(a, c, socket)
  {
    hide TicketsDerived;
    forall id | id in c && id != socket
      ensures SocketShrunk(a[id], c[id])
    {
      assert SocketShrunk(a[id], b[id]) && SocketShrunk(b[id], c[id]);
      if c[id].stored != b[id].stored && b[id].stored != a[id].stored {
        DerivedTransitive(a[id].stored.value.tickets, b[id].stored.value.tickets, c[id].stored.value.tickets);
      }
    }
    if socket in c && c[socket].stored.Some? {
      assert SocketShrunk(b[socket], c[socket]);
      if c[socket].stored != b[socket].stored {
        NoTicketsDerived(c[socket].stored.value.tickets);
      }
    }
  }

  lemma NoTicketsDerived(after: seq<TicketState>)
    ensures TicketsDerived(after, []) ==> after == []
  {
    if |after| > 0 {
      assert after[0] in after && !Derived(after[0], []);
    }
  }

  lemma SetAsideOneMore(
    before: Servers, earlier: Servers, after: Servers, retirements: seq<Retirement>, r: Retirement, a: ServerAttachment)
    requires SetAside(before, earlier, retirements) && OneRetired(earlier, after, r.id)
    requires forall other :: other in retirements ==> other.id != r.id
    requires r.id in before && before[r.id] == earlier[r.id] && before[r.id].stored == Some(a) && a.current
    requires if r.durablyDemoted then
               r.attachment == a.(current := false) && after[r.id].stored == Some(a.(current := false))
             else !after[r.id].open
    ensures SetAside(before, after, retirements + [r])
  {
    var all := retirements + [r];
    forall i | 0 <= i < |all|
      ensures Reinstatable(before, after, all[i])
    {
      if i < |retirements| {
        assert Reinstatable(before, earlier, retirements[i]) && retirements[i] in retirements;
      } else {
        assert a.(current := false).(current := true) == a;
        assert SocketShrunk(earlier[r.id], after[r.id]);
      }
    }
    forall i, j | 0 <= i < j < |all|
      ensures all[i].id != all[j].id
    {
      assert all[i] in retirements;
    }
  }

  /** Only transports closed: every stored attachment is as it was. */
  ghost predicate OnlyClosed(before: Servers, after: Servers) {
    && after.Keys == before.Keys
    && forall id :: id in after ==> after[id].stored == before[id].stored && (after[id].open ==> before[id].open)
  }

  lemma OnlyClosedShrinks(before: Servers, after: Servers)
    requires OnlyClosed(before, after)
    ensures Shrunk(before, after)
    ensures ReadableServers(before) ==> ReadableServers(after)
    ensures forall id :: id in after && Holds(after[id]) ==> Holds(before[id])
  {
    hide ValidServer;
  }

  lemma OnlyClosedKeepsPending(before: Servers, after: Servers, pending: map<SocketId, Outcome>)
    requires OnlyClosed(before, after) && PendingOwned(before, pending)
    ensures PendingOwned(after, pending)
  {
    forall id | id in pending
      ensures Claims(after, id)
    {
      assert Claims(before, id);
    }
  }

  lemma OnlyClosedTransitive(a: Servers, b: Servers, c: Servers)
    requires OnlyClosed(a, b) && OnlyClosed(b, c)
    ensures OnlyClosed(a, c)
  {
  }

  ghost predicate NoHolder(servers: Servers) {
    forall id :: id in servers ==> !Holds(servers[id])
  }

  lemma ReinstateGrown(before: Servers, after: Servers, socket: SocketId, id: SocketId, s: ServerSocket)
    requires Grown(before, after, socket) && id in before && id != socket
    requires s.stored == before[id].stored && (s.open ==> before[id].open)
    ensures Grown(before, after[id := s], socket)
  {
  }

  /** The retirements from a position on can still be reinstated. */
  ghost predicate StillAside(before: Servers, after: Servers, retirements: seq<Retirement>, next: nat) {
    && (forall i, j :: 0 <= i < j < |retirements| ==> retirements[i].id != retirements[j].id)
    && (forall i :: 0 <= i < |retirements| ==> retirements[i].id in before && retirements[i].id in after)
    && forall i :: next <= i < |retirements| ==> Reinstatable(before, after, retirements[i])
  }

  lemma NextAside(
    before: Servers, earlier: Servers, after: Servers, retirements: seq<Retirement>, next: nat)
    requires StillAside(before, earlier, retirements, next) && next < |retirements|
    requires after.Keys == earlier.Keys
    requires forall id :: id in after && id != retirements[next].id ==> after[id] == earlier[id]
    ensures StillAside(before, after, retirements, next + 1)
  {
    forall i | next + 1 <= i < |retirements|
      ensures Reinstatable(before, after, retirements[i])
    {
      assert Reinstatable(before, earlier, retirements[i]);
    }
  }

  lemma AsideStarts(before: Servers, after: Servers, retirements: seq<Retirement>)
    requires SetAside(before, after, retirements)
    ensures StillAside(before, after, retirements, 0)
  {
  }

  lemma ClosedStaysAside(
    before: Servers, earlier: Servers, after: Servers, retirements: seq<Retirement>)
    requires SetAside(before, earlier, retirements) && OnlyClosed(earlier, after)
    requires forall id :: id in after && after[id].stored.Some? ==> after[id] == earlier[id]
    ensures SetAside(before, after, retirements)
  {
    forall i | 0 <= i < |retirements|
      ensures Reinstatable(before, after, retirements[i])
    {
      assert Reinstatable(before, earlier, retirements[i]);
    }
  }

  lemma AddedStaysAside(
    before: Servers, earlier: Servers, after: Servers, retirements: seq<Retirement>, socket: SocketId)
    requires SetAside(before, earlier, retirements) && socket !in before && earlier.Keys <= after.Keys
    requires forall id :: id in earlier && id != socket ==> after[id] == earlier[id]
    ensures SetAside(before, after, retirements)
  {
    forall i | 0 <= i < |retirements|
      ensures Reinstatable(before, after, retirements[i])
    {
      assert Reinstatable(before, earlier, retirements[i]);
    }
  }

  lemma ShrunkIsGrown(before: Servers, after: Servers, socket: SocketId)
    requires Shrunk(before, after) && socket !in before
    ensures Grown(before, after, socket)
  {
    hide SocketShrunk;
  }

  lemma NoneOwedWhenAside(before: Servers, pending: map<SocketId, Outcome>, left: map<SocketId, Outcome>)
    requires PendingOwned(before, pending) && left.Keys <= pending.Keys
    requires forall id :: Claims(before, id) ==> id !in left
    ensures left == map[]
  {
    assert forall id :: id in pending.Keys ==> Claims(before, id);
    assert left.Keys * pending.Keys == {};
    assert left.Keys == {};
  }

  lemma ClosedLeavesNoHolder(before: Servers, after: Servers)
    requires OnlyClosed(before, after) && NoHolder(before)
    ensures NoHolder(after)
  {
  }

  /** A control without tickets is untouched by the end of its clients. */
  lemma MarkedWithoutTickets(before: Servers, after: Servers, id: SocketId)
    requires OnlyMarked(before, after) && id in before && before[id].stored.Some?
    requires before[id].stored.value.tickets == []
    ensures id in after && after[id] == before[id]
  {
    assert SocketMarked(before[id], after[id]);
  }

  /** The room is held by exactly one open control. */
  ghost predicate HeldOnlyBy(servers: Servers, socket: SocketId) {
    socket in servers && forall id :: id in servers ==> (Holds(servers[id]) <==> id == socket)
  }

  lemma HeldIsPresent(servers: Servers, socket: SocketId)
    requires HeldOnlyBy(servers, socket)
    ensures socket in servers && servers[socket].stored.Some?
  {
    assert Holds(servers[socket]);
  }

  lemma HeldAfterMarking(before: Servers, after: Servers, socket: SocketId)
    requires HeldOnlyBy(before, socket) && OnlyMarked(before, after)
    ensures HeldOnlyBy(after, socket)
  {
    hide OnlyMarked;
    MarkedShrinks(before, after);
  }

  lemma HeldAfterClosing(before: Servers, after: Servers, socket: SocketId)
    requires HeldOnlyBy(before, socket) && OnlyClosed(before, after) && after[socket] == before[socket]
    ensures HeldOnlyBy(after, socket)
  {
  }

  lemma HeldIsOwned(servers: Servers, socket: SocketId)
    ensures HeldOnlyBy(servers, socket) ==> AtMostOneOwner(servers)
    ensures NoHolder(servers) ==> AtMostOneOwner(servers)
    ensures PendingOwned(servers, map[])
  {
  }

  lemma HeldAfterAdding(before: Servers, after: Servers, socket: SocketId)
    requires NoHolder(before) && socket !in before && socket in after && after.Keys <= before.Keys + {socket}
    requires forall id :: id in before && id in after ==> after[id] == before[id]
    ensures Holds(after[socket]) ==> HeldOnlyBy(after, socket)
    ensures !Holds(after[socket]) ==> NoHolder(after)
  {
  }

  lemma GrownAfterClosing(before: Servers, earlier: Servers, after: Servers, socket: SocketId)
    requires Grown(before, earlier, socket) && OnlyClosed(earlier, after)
    ensures Grown(before, after, socket)
  {
    hide Grown, Shrunk;
    OnlyClosedShrinks(earlier, after);
    ShrinkAfterGrown(before, earlier, after, socket);
  }

  lemma GrownAfterMarking(before: Servers, earlier: Servers, after: Servers, socket: SocketId)
    requires Grown(before, earlier, socket) && OnlyMarked(earlier, after)
    ensures Grown(before, after, socket)
  {
    hide Grown, Shrunk, OnlyMarked;
    MarkedShrinks(earlier, after);
    ShrinkAfterGrown(before, earlier, after, socket);
  }

  lemma ClosedKeys(before: Servers, after: Servers)
    requires OnlyClosed(before, after)
    ensures after.Keys == before.Keys
  {
  }

  lemma ShrinkThenGrow(before: Servers, aside: Servers, cleared: Servers, after: Servers, socket: SocketId)
    requires AllSetAside(before, aside) && OnlyClosed(aside, cleared) && Grown(cleared, after, socket)
    ensures Grown(before, after, socket)
  {
    hide Shrunk, OnlyClosed, Grown;
    OnlyClosedShrinks(aside, cleared);
    ClosedKeys(aside, cleared);
    ShrunkTransitive(before, aside, cleared);
    GrownAfterShrink(before, cleared, after, socket);
  }

  lemma NotAdded(before: Servers, after: Servers, socket: SocketId)
    requires NoHolder(before) && after.Keys <= before.Keys + {socket}
    requires forall id :: id in before && id in after ==> after[id] == before[id]
    requires socket in after ==> !Holds(after[socket])
    ensures NoHolder(after)
  {
  }

  lemma AsideNames(before: Servers, after: Servers, retirements: seq<Retirement>, socket: SocketId)
    requires SetAside(before, after, retirements) && socket !in before
    ensures forall r :: r in retirements ==> r.id in after && r.id != socket
  {
    forall r | r in retirements
      ensures r.id in after && r.id != socket
    {
      var i :| 0 <= i < |retirements| && retirements[i] == r;
      assert Reinstatable(before, after, retirements[i]);
    }
  }

  /** A control whose tickets were only marked keeps its transport and its claim. */
  lemma MarkedClaim(before: Servers, after: Servers, id: SocketId)
    requires OnlyMarked(before, after) && id in before
    ensures id in after && SocketMarked(before[id], after[id]) && after[id].open == before[id].open
    ensures before[id].stored.Some? ==>
              after[id].stored.Some? && after[id].stored.value.current == before[id].stored.value.current
  {
    hide TicketsMarked;
  }

  lemma MarkedKeepsOwned(before: Servers, after: Servers, pending: map<SocketId, Outcome>)
    requires OnlyMarked(before, after)
    ensures AtMostOneOwner(before) ==> AtMostOneOwner(after)
    ensures PendingOwned(before, pending) ==> PendingOwned(after, pending)
  {
    hide OnlyMarked;
    MarkedShrinks(before, after);
    if PendingOwned(before, pending) {
      forall id | id in pending
        ensures Claims(after, id)
      {
        assert Claims(before, id);
      }
    }
  }

  /** Replacing the attachment of a control without touching its claim keeps ownership. */
  lemma SameClaimKeepsOwned(before: Servers, id: SocketId, s: ServerSocket, pending: map<SocketId, Outcome>)
    requires id in before && before[id].stored.Some? && s.stored.Some? && s.open == before[id].open
    requires s.stored.value.current == before[id].stored.value.current
    ensures AtMostOneOwner(before) ==> AtMostOneOwner(before[id := s])
    ensures PendingOwned(before, pending) ==> PendingOwned(before[id := s], pending)
  {
    if PendingOwned(before, pending) {
      forall other | other in pending
        ensures Claims(before[id := s], other)
      {
        assert Claims(before, other);
      }
    }
  }

  lemma ClosedSelf(servers: Servers)
    ensures OnlyClosed(servers, servers)
  {
  }

  lemma CandidateHolds(servers: Servers, id: SocketId, generation: Option<string>, ignored: Option<SocketId>)
    ensures Candidate(servers, id, generation, ignored) ==>
              id in servers && servers[id].open && servers[id].stored.Some? && servers[id].stored.value.current &&
              Some(servers[id].stored.value.generation) == generation
    ensures SoleCandidate(servers, Some(id), generation, ignored) ==> Candidate(servers, id, generation, ignored)
  {
  }

  /** A transport that is gone owes nothing any more. */
  lemma GoneOwesNothing(servers: Servers, pending: map<SocketId, Outcome>, id: SocketId)
    requires id in servers && !servers[id].open
    ensures PendingOwned(servers, pending) ==> PendingOwned(servers, pending - {id})
  {
    if PendingOwned(servers, pending) && pending - {id} != map[] {
      var some :| some in pending - {id};
      assert some in pending;
    }
  }

  /** Owing a teardown to the room's only holder keeps the debts owned. */
  lemma OweHolder(servers: Servers, pending: map<SocketId, Outcome>, id: SocketId, outcome: Outcome)
    requires AtMostOneOwner(servers) && PendingOwned(servers, pending) && id in servers && Holds(servers[id])
    ensures PendingOwned(servers, pending[id := outcome])
  {
  }

  /** A control stripped of its claim and of every ticket. */
  function Stripped(a: ServerAttachment): ServerAttachment {
    a.(current := false, tickets := [])
  }

  lemma StrippingShrinks(servers: Servers, id: SocketId, s: ServerSocket)
    requires ReadableServers(servers) && id in servers && (s.open ==> servers[id].open)
    requires s.stored == servers[id].stored ||
             (servers[id].stored.Some? && s.stored == Some(Stripped(servers[id].stored.value)))
    ensures Shrunk(servers, servers[id := s]) && ReadableServers(servers[id := s])
    ensures servers[id].stored.Some? ==> ValidServer(Stripped(servers[id].stored.value))
    ensures AtMostOneOwner(servers) ==> AtMostOneOwner(servers[id := s])
  {
    if servers[id].stored.Some? {
      ReadAt(servers, id);
      DerivedSelf(servers[id].stored.value.tickets);
      assert ValidServer(Stripped(servers[id].stored.value));
    }
    ShrinkOne(servers, id, s);
    ShrunkKeepsOwnership(servers, servers[id := s]);
  }

  lemma HoldersKeepGeneration(before: Servers, after: Servers)
    requires Shrunk(before, after)
    ensures forall id :: id in after && Holds(after[id]) ==>
              id in before && Holds(before[id]) &&
              before[id].stored.value.generation == after[id].stored.value.generation
  {
    hide TicketsDerived;
    forall id | id in after && Holds(after[id])
      ensures id in before && Holds(before[id])
      ensures before[id].stored.value.generation == after[id].stored.value.generation
    {
      assert SocketShrunk(before[id], after[id]);
    }
  }

  lemma MarksNothing(servers: Servers)
    ensures forall id :: id in servers ==> SocketMarked(servers[id], servers[id])
  {
  }

  lemma EachShrinksToItself(servers: Servers)
    ensures forall id :: id in servers ==> SocketShrunk(servers[id], servers[id])
  {
  }

  lemma GrownKeys(before: Servers, after: Servers, socket: SocketId)
    requires Grown(before, after, socket)
    ensures after.Keys <= before.Keys + {socket}
  {
  }

  lemma DroppedIsClosed(before: Servers, after: Servers, socket: SocketId)
    requires after == before || (socket in before && after == before[socket := before[socket].(open := false)])
    ensures OnlyClosed(before, after)
  {
  }

  lemma ForgottenOwesNothing(before: Servers, after: Servers, pending: map<SocketId, Outcome>, id: SocketId)
    requires after == before - {id} && id !in pending
    ensures AtMostOneOwner(before) ==> AtMostOneOwner(after)
    ensures PendingOwned(before, pending) ==> PendingOwned(after, pending)
  {
    if PendingOwned(before, pending) {
      forall other | other in pending
        ensures Claims(after, other)
      {
        assert Claims(before, other);
      }
    }
  }

  lemma ShrunkStaysReadable(before: Servers, after: Servers)
    requires Shrunk(before, after) && after.Keys == before.Keys
    ensures forall id :: id in after ==> after[id].stored.Some? == before[id].stored.Some?
  {
    hide TicketsDerived;
    forall id | id in after
      ensures after[id].stored.Some? == before[id].stored.Some?
    {
      assert SocketShrunk(before[id], after[id]);
    }
  }

  /** Owed controls are listed and readable, and an owed teardown means one of them is listed. */
  lemma OwedAreListed(servers: Servers, pending: map<SocketId, Outcome>)
    requires PendingOwned(servers, pending)
    ensures forall id :: id in pending ==> id in servers && servers[id].stored.Some?
    ensures pending != map[] ==> exists id :: id in servers && id in pending
  {
    forall id | id in pending
      ensures id in servers && servers[id].stored.Some?
    {
      assert Claims(servers, id);
    }
    if pending != map[] {
      var id :| id in pending;
    }
  }

  /** Every control that owed nothing is untouched but for spent tickets. */
  ghost predicate OthersMarked(before: Servers, after: Servers, owed: set<SocketId>) {
    after.Keys == before.Keys && forall id :: id in after && id !in owed ==> SocketMarked(before[id], after[id])
  }

  lemma OthersKeys(before: Servers, after: Servers, owed: set<SocketId>)
    requires OthersMarked(before, after, owed)
    ensures after.Keys == before.Keys
  {
  }

  lemma OthersMarkedNext(before: Servers, earlier: Servers, after: Servers, owed: set<SocketId>, id: SocketId)
    requires OthersMarked(before, earlier, owed) && after.Keys == earlier.Keys
    requires forall other :: other in after && (other != id || id !in owed) ==>
        SocketMarked(earlier[other], after[other])
    ensures OthersMarked(before, after, owed)
  {
    hide SocketMarked;
    forall other | other in after && other !in owed
      ensures SocketMarked(before[other], after[other])
    {
      SocketMarkedTransitive(before[other], earlier[other], after[other]);
    }
  }

  // ---- tickets --------------------------------------------------------------------

  predicate IsTicket(t: TicketState, digest: string, connection: Option<string>) {
    t.ticketDigest == digest && (connection.Some? ==> t.clientConnectionId == connection.value)
  }

  /** Index of the first matching ticket, or the length of the list. */
  function TicketIndex(tickets: seq<TicketState>, digest: string, connection: Option<string>): (k: nat)
    ensures k <= |tickets|
    ensures k < |tickets| ==> IsTicket(tickets[k], digest, connection)
    ensures forall j :: 0 <= j < k ==> !IsTicket(tickets[j], digest, connection)
  {
    if |tickets| == 0 || IsTicket(tickets[0], digest, connection) then 0
    else 1 + TicketIndex(tickets[1..], digest, connection)
  }

  /** The control's attachment once the client's own ticket is spent. */
  function WithTicketSpent(s: ServerAttachment, client: ClientAttachment): ServerAttachment
    requires client.ticketDigest.Some?
  {
    var k := TicketIndex(s.tickets, client.ticketDigest.value, Some(client.connectionId));
    if k < |s.tickets| then s.(tickets := s.tickets[k := s.tickets[k].(stage := Spent)]) else s
  }

  function SpentAt(s: ServerSocket, client: ClientAttachment): ServerSocket {
    if client.ticketDigest.Some? && s.stored.Some? && s.stored.value.controlId == client.controlId &&
       s.stored.value.generation == client.generation
    then s.(stored := Some(WithTicketSpent(s.stored.value, client)))
    else s
  }

  /** The control carries no unspent ticket of this session. */
  predicate TicketSpent(s: ServerSocket, c: ClientAttachment) {
    s.stored.Some? && s.stored.value.controlId == c.controlId && s.stored.value.generation == c.generation ==>
      forall t :: t in s.stored.value.tickets ==>
        c.ticketDigest == Some(t.ticketDigest) && c.connectionId == t.clientConnectionId ==> t.stage == Spent
  }

  lemma SpentEverywhere(before: Servers, after: Servers, c: ClientAttachment)
    requires ReadableServers(before) && after.Keys == before.Keys
    requires forall id :: id in after ==> after[id] == SpentAt(before[id], c)
    ensures forall id :: id in after ==> TicketSpent(after[id], c)
  {
    hide SpentAt, TicketSpent, ValidServer;
    forall id | id in after
      ensures TicketSpent(after[id], c)
    {
      if before[id].stored.Some? {
        assert ValidServer(before[id].stored.value);
      }
      SpentAtMeans(before[id], c);
    }
  }

  lemma SpentAtMeans(s: ServerSocket, c: ClientAttachment)
    requires s.stored.Some? ==> ValidServer(s.stored.value)
    ensures TicketSpent(SpentAt(s, c), c)
  {
    hide ValidTicket;
    if c.ticketDigest.Some? && s.stored.Some? {
      var tickets := s.stored.value.tickets;
      var k := TicketIndex(tickets, c.ticketDigest.value, Some(c.connectionId));
      assert DistinctTickets(tickets);
      forall j | 0 <= j < |tickets| && IsTicket(tickets[j], c.ticketDigest.value, Some(c.connectionId))
        ensures j == k
      {
      }
    }
  }

  lemma SpendingIsMarking(s: ServerSocket, client: ClientAttachment)
    requires s.stored.Some? ==> ValidServer(s.stored.value)
    ensures SocketMarked(s, SpentAt(s, client))
    ensures SpentAt(s, client).stored.Some? ==> ValidServer(SpentAt(s, client).stored.value)
  {
    hide ValidServer, IsTicket;
    if client.ticketDigest.Some? && s.stored.Some? {
      SpentIsValid(s.stored.value, client);
    }
  }

  lemma SpentIsValid(a: ServerAttachment, client: ClientAttachment)
    requires ValidServer(a) && client.ticketDigest.Some?
    ensures ValidServer(WithTicketSpent(a, client))
  {
    hide Hex64, ConnectionId, IsTicket;
  }

  lemma SpendingKeepsControls(before: Servers, after: Servers, client: ClientAttachment)
    requires ReadableServers(before) && after.Keys == before.Keys
    requires forall id :: id in after ==> after[id] == before[id] || after[id] == SpentAt(before[id], client)
    ensures OnlyMarked(before, after) && ReadableServers(after)
  {
    forall id | id in after
      ensures SocketMarked(before[id], after[id])
      ensures after[id].stored.Some? ==> ValidServer(after[id].stored.value)
    {
      SpendingIsMarking(before[id], client);
    }
  }

  // ---- what a teardown may do to a client --------------------------------------------

  predicate SameSession(a: ClientAttachment, b: ClientAttachment) {
    a.connectionId == b.connectionId && a.controlId == b.controlId && a.generation == b.generation &&
    a.admissionId == b.admissionId && a.openedAt == b.openedAt
  }

  predicate ClientSettled(before: ClientSocket, after: ClientSocket) {
    && (after.open ==> before.open)
    && (after.stored == before.stored ||
        (before.stored.Some? && after.stored.Some? && SameSession(before.stored.value, after.stored.value) &&
         after.stored.value.stage == Terminal))
  }

  /** Clients only close, leave, or become durably terminal. */
  ghost predicate Settled(before: Clients, after: Clients) {
    after.Keys <= before.Keys && forall id :: id in after ==> ClientSettled(before[id], after[id])
  }

  lemma SettledSelf(a: Clients)
    ensures Settled(a, a)
  {
  }

  lemma SettledTransitive(a: Clients, b: Clients, c: Clients)
    requires Settled(a, b) && Settled(b, c)
    ensures Settled(a, c)
  {
    forall id | id in c
      ensures ClientSettled(a[id], c[id])
    {
      assert ClientSettled(a[id], b[id]) && ClientSettled(b[id], c[id]);
    }
  }

  predicate DurablyTerminal(c: ClientSocket) {
    c.stored.Some? && c.stored.value.stage == Terminal
  }

  /** Terminal is absorbing: whatever happens, a durably terminal client stays so while it is kept. */
  ghost predicate TerminalAbsorbed(before: Clients, after: Clients) {
    forall id :: id in before && id in after && DurablyTerminal(before[id]) ==>
      DurablyTerminal(after[id]) && after[id].stored.value.connectionId == before[id].stored.value.connectionId
  }

  /** The scrubbed attachment a teardown leaves. */
  function EndedSession(a: ClientAttachment, outcome: Outcome): ClientAttachment {
    if a.stage == Terminal then a
    else a.(stage := Terminal, authorization := Ended, ticket := None, ticketDigest := None,
            boundTicketHash := None, accessClientNonce := None, accessExpiresAt := None, accessGrant := None,
            accessRedemption := None, terminalOutcome := Some(outcome), terminalCloseAttempts := 0)
  }

  /** An in-memory attachment a teardown can end: its counters fit the budgets. */
  predicate Endable(a: ClientAttachment) {
    if a.stage == Terminal then ValidClient(a) else Identified(a) && WithinBudget(a)
  }

  lemma EndedIsValid(a: ClientAttachment, outcome: Outcome)
    ensures Endable(a) <==> ValidClient(EndedSession(a, outcome))
    ensures ValidClient(a) ==> Endable(a)
    ensures SameSession(a, EndedSession(a, outcome)) && EndedSession(a, outcome).stage == Terminal
    ensures EndedSession(a, outcome).summaryEmitted == a.summaryEmitted
    ensures Endable(a) ==> EndedSession(a, outcome).terminalOutcome.Some?
    ensures Endable(a) ==> ValidClient(EndedSession(a, outcome).(summaryEmitted := true))
  {
  }

  lemma StoredIsEndable(a: ClientAttachment)
    requires ValidClient(a)
    ensures Endable(a) && SameSession(a, a)
  {
  }

  lemma ReadClientAt(clients: Clients, id: SocketId)
    requires ReadableClients(clients) && id in clients
    ensures clients[id].stored.Some? ==> ValidClient(clients[id].stored.value)
  {
  }

  lemma SettledAt(before: Clients, after: Clients, id: SocketId)
    requires Settled(before, after) && id in after
    ensures id in before && ClientSettled(before[id], after[id])
  {
  }

  lemma AbsorbedSelf(clients: Clients)
    ensures TerminalAbsorbed(clients, clients)
  {
  }

  lemma AbsorbedAfterWrite(clients: Clients, id: SocketId, c: ClientSocket)
    requires id in clients && !DurablyTerminal(clients[id])
    ensures TerminalAbsorbed(clients, clients[id := c])
  {
  }

  lemma AbsorbedTransitive(a: Clients, b: Clients, c: Clients)
    requires TerminalAbsorbed(a, b) && TerminalAbsorbed(b, c) && c.Keys <= b.Keys
    ensures TerminalAbsorbed(a, c)
  {
  }

  /** A settled session keeps its authorization or is ended. */
  lemma TerminalIsEnded(before: Clients, after: Clients, id: SocketId)
    requires Settled(before, after) && ReadableClients(after) && id in after && id in before
    ensures (&& before[id].stored.Some? && after[id].stored.Some?
             && before[id].stored.value.authorization == AwaitingInit) ==>
              after[id].stored.value.authorization != NotRequired
  {
    hide ValidClient, Settled;
    SettledAt(before, after, id);
    if after[id].stored.Some? && after[id].stored.value.stage == Terminal {
      EndedAuthorization(after[id].stored.value);
    }
  }

  lemma EndedAuthorization(a: ClientAttachment)
    ensures ValidClient(a) && a.stage == Terminal ==> a.authorization == Ended
  {
  }

  lemma StaysTerminal(before: Clients, after: Clients, id: SocketId)
    requires Settled(before, after) && id in before && id in after
    ensures DurablyTerminal(before[id]) ==> DurablyTerminal(after[id])
  {
    SettledAt(before, after, id);
  }

  lemma StoredAtIsEndable(clients: Clients, id: SocketId, a: ClientAttachment)
    requires ReadableClients(clients) && id in clients && clients[id].stored == Some(a)
    ensures Endable(a) && SameSession(a, a) && ValidClient(a)
  {
    StoredIsEndable(a);
  }

  lemma AbsorbedAfterAdding(clients: Clients, id: SocketId, c: ClientSocket)
    requires id !in clients
    ensures TerminalAbsorbed(clients, clients[id := c])
  {
  }

  // ---- deadlines ----------------------------------------------------------------------

  function RetryOffset(attempts: int): int {
    if attempts <= 0 then 0 else if attempts == 1 then 1000 else if attempts == 2 then 3000 else RETRY_HORIZON_MS
  }

  /** When an ended session's transport is to be closed once more, while attempts remain. */
  function TerminalCloseAttemptAt(a: ClientAttachment): Option<int> {
    if a.terminalCloseAttempts >= MAX_CLOSE_ATTEMPTS then None
    else Some(a.expiresAt + RetryOffset(a.terminalCloseAttempts))
  }

  /** The next moment a session needs the room's attention. */
  function Deadline(a: ClientAttachment): Option<int> {
    if a.stage == Terminal then TerminalCloseAttemptAt(a) else Some(a.expiresAt)
  }

  predicate DueBy(deadline: Option<int>, now: int) {
    deadline.Some? && deadline.value <= now
  }

  /** What a deadline pass does to one session while attachment writes succeed. */
  predicate Expired(before: ClientSocket, after: ClientSocket, now: int) {
    (after.open ==> before.open) &&
    (before.stored.Some? ==>
       var a := before.stored.value;
       if !DueBy(Deadline(a), now) then after == before
       else if a.stage == Terminal then
         after.stored == Some(a.(terminalCloseAttempts := a.terminalCloseAttempts + 1))
       else
         DurablyTerminal(after) && after.stored.value.terminalCloseAttempts == 0 &&
         after.stored.value.expiresAt == a.expiresAt)
  }

  lemma AttemptIsValid(a: ClientAttachment)
    requires ValidClient(a) && a.stage == Terminal
    ensures 0 <= a.terminalCloseAttempts
    ensures a.terminalCloseAttempts < MAX_CLOSE_ATTEMPTS ==>
              ValidClient(a.(terminalCloseAttempts := a.terminalCloseAttempts + 1))
  {
  }

  /** An ended session's attempts are due no earlier than its own deadline. */
  lemma AttemptsFollowDeadline(a: ClientAttachment, now: int)
    ensures a.stage == Terminal && DueBy(Deadline(a), now) ==> a.expiresAt <= now
  {
  }

  // ---- terminal metrics ------------------------------------------------------------------

  ghost predicate Reported(metrics: seq<Metric>, connectionId: string) {
    exists k :: 0 <= k < |metrics| && metrics[k].connectionId == connectionId
  }

  ghost predicate AtMostOncePerConnection(metrics: seq<Metric>) {
    forall i, j :: 0 <= i < j < |metrics| ==> metrics[i].connectionId != metrics[j].connectionId
  }

  predicate SameConnection(a: ClientSocket, b: ClientSocket) {
    a.stored.Some? && b.stored.Some? && a.stored.value.connectionId == b.stored.value.connectionId
  }

  ghost predicate DistinctConnections(clients: Clients) {
    forall a, b :: a in clients && b in clients && a != b && clients[a].stored.Some? && clients[b].stored.Some? ==>
      clients[a].stored.value.connectionId != clients[b].stored.value.connectionId
  }

  /** A reported connection carries the durable marker. */
  ghost predicate MarkedIfReported(c: ClientSocket, metrics: seq<Metric>) {
    c.stored.Some? && Reported(metrics, c.stored.value.connectionId) ==> c.stored.value.summaryEmitted
  }

  /**
   No connection is reported twice, every reported connection still present
   carries the durable marker, and only delivered connections can be reported.
   */
  ghost predicate Ledger(clients: Clients, metrics: seq<Metric>, finalized: seq<string>, delivered: set<string>) {
    && AtMostOncePerConnection(metrics)
    && DistinctConnections(clients)
    && (forall id :: id in clients ==> MarkedIfReported(clients[id], metrics))
    && (forall id :: id in clients && clients[id].stored.Some? && !clients[id].stored.value.summaryEmitted ==>
          clients[id].stored.value.connectionId in delivered)
    && (forall k :: 0 <= k < |metrics| ==> metrics[k].connectionId in delivered)
    && (forall c :: c in finalized ==> Reported(metrics, c))
  }

  /** The telemetry written for one ended session. */
  function MetricOf(a: ClientAttachment, outcome: Outcome): Metric {
    Metric(a.connectionId, outcome, a.clientAuthorizationFrames + a.clientCandidates,
           a.serverAuthorizationFrames + a.serverCandidates + a.completionCount, a.framesForwarded, a.signalBytes)
  }

  /** The client left the session for good: its transport closed or its attachment is durably terminal. */
  predicate Gone(c: ClientSocket) {
    !c.open || DurablyTerminal(c)
  }

  /** A handler's copy of a client attachment that still knows whether its summary went out. */
  predicate KeepsMarker(stored: ClientSocket, a: ClientAttachment) {
    stored.stored.Some? && SameSession(stored.stored.value, a) &&
    (stored.stored.value.summaryEmitted ==> a.summaryEmitted)
  }

  lemma LedgerAfterWrite(
    clients: Clients, id: SocketId, c: ClientSocket, metrics: seq<Metric>, finalized: seq<string>,
        delivered: set<string>)
    requires Ledger(clients, metrics, finalized, delivered) && id in clients
    requires c.stored == clients[id].stored || (c.stored.Some? && KeepsMarker(clients[id], c.stored.value))
    ensures Ledger(clients[id := c], metrics, finalized, delivered)
  {
    hide AtMostOncePerConnection, Reported;
    var after := clients[id := c];
    forall other | other in after
      ensures MarkedIfReported(after[other], metrics)
    {
      assert MarkedIfReported(clients[other], metrics);
    }
    assert DistinctConnections(after);
  }

  lemma LedgerAfterClose(
    clients: Clients, id: SocketId, c: ClientSocket, metrics: seq<Metric>, finalized: seq<string>,
        delivered: set<string>)
    requires id in clients && c.stored == clients[id].stored
    ensures Ledger(clients, metrics, finalized, delivered) ==> Ledger(clients[id := c], metrics, finalized, delivered)
  {
    if Ledger(clients, metrics, finalized, delivered) {
      LedgerAfterWrite(clients, id, c, metrics, finalized, delivered);
    }
  }

  lemma LedgerAfterProgress(
    clients: Clients, id: SocketId, c: ClientSocket, before: ClientAttachment, metrics: seq<Metric>,
    finalized: seq<string>, delivered: set<string>)
    requires id in clients && clients[id].stored == Some(before) && c.stored.Some?
    requires SameSession(before, c.stored.value) && c.stored.value.summaryEmitted == before.summaryEmitted
    ensures Ledger(clients, metrics, finalized, delivered) ==> Ledger(clients[id := c], metrics, finalized, delivered)
  {
    if Ledger(clients, metrics, finalized, delivered) {
      LedgerAfterWrite(clients, id, c, metrics, finalized, delivered);
    }
  }

  lemma MarkerKept(clients: Clients, id: SocketId, a: ClientAttachment)
    requires id in clients && clients[id].stored.Some? && SameSession(clients[id].stored.value, a)
    requires a.summaryEmitted == clients[id].stored.value.summaryEmitted
    ensures KeepsMarker(clients[id], a)
  {
  }

  /** A write within a session that has not ended keeps the client-side invariants. */
  lemma ExchangeStays(
    clients: Clients, id: SocketId, c: ClientAttachment, c': ClientAttachment, metrics: seq<Metric>,
    finalized: seq<string>, delivered: set<string>)
    requires id in clients && clients[id].stored == Some(c) && c.stage != Terminal
    requires SameSession(c, c') && c'.summaryEmitted == c.summaryEmitted
    ensures var after := clients[id := clients[id].(stored := Some(c'))];
            && TerminalAbsorbed(clients, after)
            && (Ledger(clients, metrics, finalized, delivered) ==> Ledger(after, metrics, finalized, delivered))
            && (ReadableClients(clients) && ValidClient(c') ==> ReadableClients(after))
  {
    hide Ledger, ValidClient;
    LedgerAfterProgress(clients, id, clients[id].(stored := Some(c')), c, metrics, finalized, delivered);
    AbsorbedAfterWrite(clients, id, clients[id].(stored := Some(c')));
    if ReadableClients(clients) && ValidClient(c') {
      ReadableAfterWrite(clients, id, clients[id].(stored := Some(c')));
    }
  }

  lemma LedgerAfterMark(
    clients: Clients, id: SocketId, a: ClientAttachment, t: ClientAttachment, metrics: seq<Metric>,
    finalized: seq<string>, delivered: set<string>)
    requires id in clients && clients[id].stored == Some(a) && SameSession(a, t) && t.summaryEmitted
    ensures Ledger(clients, metrics, finalized, delivered) ==>
              Ledger(clients[id := clients[id].(stored := Some(t))], metrics, finalized, delivered)
  {
    if Ledger(clients, metrics, finalized, delivered) {
      LedgerAfterWrite(clients, id, clients[id].(stored := Some(t)), metrics, finalized, delivered);
    }
  }

  lemma TerminalHasOutcome(a: ClientAttachment)
    ensures ValidClient(a) && a.stage == Terminal ==> a.terminalOutcome.Some?
  {
  }

  lemma LedgerAfterScrub(
    clients: Clients, id: SocketId, a: ClientAttachment, t: ClientAttachment, metrics: seq<Metric>,
    finalized: seq<string>, delivered: set<string>)
    requires id in clients && clients[id].stored == Some(a) && SameSession(a, t)
    requires a.summaryEmitted ==> t.summaryEmitted
    ensures Ledger(clients, metrics, finalized, delivered) ==>
              Ledger(clients[id := clients[id].(stored := Some(t))], metrics, finalized, delivered)
  {
    if Ledger(clients, metrics, finalized, delivered) {
      LedgerAfterWrite(clients, id, clients[id].(stored := Some(t)), metrics, finalized, delivered);
    }
  }

  lemma ReportedGrows(metrics: seq<Metric>, m: Metric, c: string)
    ensures Reported(metrics + [m], c) <==> Reported(metrics, c) || c == m.connectionId
  {
    if Reported(metrics, c) {
      var k :| 0 <= k < |metrics| && metrics[k].connectionId == c;
      assert (metrics + [m])[k].connectionId == c;
    }
    if c == m.connectionId {
      assert (metrics + [m])[|metrics|].connectionId == c;
    }
  }

  /** Writing the marker first makes the one report safe. */
  lemma LedgerAfterReport(
    clients: Clients, id: SocketId, c: ClientSocket, metrics: seq<Metric>, m: Metric, finalized: seq<string>,
    kept: seq<string>, delivered: set<string>)
    requires Ledger(clients, metrics, finalized, delivered)
    requires id in clients && clients[id].stored.Some? && !clients[id].stored.value.summaryEmitted
    requires c.stored.Some? && SameSession(clients[id].stored.value, c.stored.value) && c.stored.value.summaryEmitted
    requires m.connectionId == c.stored.value.connectionId
    requires forall v :: v in kept ==> v in finalized || v == m.connectionId
    ensures Ledger(clients[id := c], metrics + [m], kept, delivered)
  {
    hide AtMostOncePerConnection;
    var after := clients[id := c];
    assert MarkedIfReported(clients[id], metrics);
    forall v
      ensures Reported(metrics + [m], v) <==> Reported(metrics, v) || v == m.connectionId
    {
      ReportedGrows(metrics, m, v);
    }
    OneMore(metrics, m);
    hide Reported;
    forall other | other in after
      ensures MarkedIfReported(after[other], metrics + [m])
    {
      assert MarkedIfReported(clients[other], metrics);
    }
    assert DistinctConnections(after);
  }

  /** The visible effect of ending one client with the in-memory attachment `t`. */
  predicate ClientFailed(
    before: Clients, after: Clients, id: SocketId, t: ClientAttachment, metrics: seq<Metric>, grown: seq<Metric>,
    finalized: seq<string>, kept: seq<string>)
  {
    && id in before && id in after && after == before[id := after[id]]
    && (after[id].open ==> before[id].open)
    && (after[id].stored == before[id].stored || after[id].stored == Some(t) ||
        after[id].stored == Some(t.(summaryEmitted := true)))
    && t.terminalOutcome.Some?
    && if grown == metrics then kept == finalized && after[id].stored in {before[id].stored, Some(t)}
       else
         && grown == metrics + [MetricOf(t, t.terminalOutcome.value)] && !t.summaryEmitted
         && t.connectionId !in finalized && after[id].stored == Some(t.(summaryEmitted := true))
         && forall v :: v in kept ==> v in finalized || v == t.connectionId
  }

  lemma FailedOnly(
    before: Clients, after: Clients, id: SocketId, a: ClientAttachment, outcome: Outcome, metrics: seq<Metric>,
    grown: seq<Metric>, finalized: seq<string>, kept: seq<string>)
    requires ClientFailed(before, after, id, EndedSession(a, outcome), metrics, grown, finalized, kept)
    ensures id in after && after == before[id := after[id]]
  {
  }

  lemma FailSettles(
    before: Clients, after: Clients, id: SocketId, a: ClientAttachment, outcome: Outcome, metrics: seq<Metric>,
    grown: seq<Metric>, finalized: seq<string>, kept: seq<string>)
    requires ClientFailed(before, after, id, EndedSession(a, outcome), metrics, grown, finalized, kept)
    requires before[id].stored.Some? && SameSession(before[id].stored.value, a) && Endable(a)
    ensures Settled(before, after) && after.Keys == before.Keys
    ensures forall other :: other in after && other != id ==> after[other] == before[other]
  {
    EndedIsValid(a, outcome);
    hide ValidClient, Endable, EndedSession;
    forall other | other in after
      ensures ClientSettled(before[other], after[other])
    {
    }
  }

  /** A session ended while writes succeed starts its close attempts afresh. */
  lemma FailResets(
    before: Clients, after: Clients, id: SocketId, a: ClientAttachment, outcome: Outcome, metrics: seq<Metric>,
    grown: seq<Metric>, finalized: seq<string>, kept: seq<string>)
    requires ClientFailed(before, after, id, EndedSession(a, outcome), metrics, grown, finalized, kept)
    requires before[id].stored == Some(a) && a.stage != Terminal && DurablyTerminal(after[id])
    ensures after[id].stored.value.terminalCloseAttempts == 0 && after[id].stored.value.expiresAt == a.expiresAt
  {
  }

  /** What ending one client does to the ledger, given only its visible effect. */
  lemma LedgerAfterFail(
    before: Clients, after: Clients, id: SocketId, a: ClientAttachment, outcome: Outcome, metrics: seq<Metric>,
    grown: seq<Metric>, finalized: seq<string>, kept: seq<string>, delivered: set<string>)
    requires Ledger(before, metrics, finalized, delivered) && id in before && KeepsMarker(before[id], a)
    requires Endable(a)
    requires ClientFailed(before, after, id, EndedSession(a, outcome), metrics, grown, finalized, kept)
    ensures Ledger(after, grown, kept, delivered)
  {
    hide Ledger;
    EndedIsValid(a, outcome);
    if grown == metrics {
      LedgerAfterWrite(before, id, after[id], metrics, finalized, delivered);
    } else {
      var t := EndedSession(a, outcome);
      LedgerAfterReport(before, id, after[id], metrics, MetricOf(t, t.terminalOutcome.value), finalized, kept,
          delivered);
    }
  }

  lemma OneMore(metrics: seq<Metric>, m: Metric)
    requires AtMostOncePerConnection(metrics) && !Reported(metrics, m.connectionId)
    ensures AtMostOncePerConnection(metrics + [m])
  {
  }

  /** Nothing is left to do for the client: it is gone, or its summary was settled beforehand. */
  predicate Quiet(c: ClientSocket) {
    Gone(c) || (c.stored.Some? && c.stored.value.summaryEmitted)
  }

  /** After a normal return from ending a client with its own stored attachment, it is quiet. */
  lemma FailQuiets(
    before: Clients, after: Clients, id: SocketId, a: ClientAttachment, outcome: Outcome, metrics: seq<Metric>,
    grown: seq<Metric>, finalized: seq<string>, kept: seq<string>, delivered: set<string>)
    requires ClientFailed(before, after, id, EndedSession(a, outcome), metrics, grown, finalized, kept)
    requires before[id].stored == Some(a) && ValidClient(a) && Ledger(before, metrics, finalized, delivered)
    requires a.stage != Terminal ==> Gone(after[id]) || a.summaryEmitted || a.connectionId in finalized
    ensures Quiet(after[id])
  {
    EndedIsValid(a, outcome);
    hide ValidClient, AtMostOncePerConnection, DistinctConnections;
    if a.connectionId in finalized {
      assert Reported(metrics, a.connectionId);
      assert MarkedIfReported(before[id], metrics);
    }
  }

  // ---- a teardown without faults reports everyone -------------------------------------------------

  /** The session has a summary to send that this instance has not sent. */
  predicate OwesReport(c: ClientSocket, finalized: seq<string>) {
    c.stored.Some? && !c.stored.value.summaryEmitted && c.stored.value.connectionId !in finalized
  }

  /** Every session that owed a report before has one now. */
  ghost predicate AllReported(before: Clients, finalized: seq<string>, metrics: seq<Metric>) {
    forall id :: id in before && OwesReport(before[id], finalized) ==>
      Reported(metrics, before[id].stored.value.connectionId)
  }

  predicate EveryControlReadable(servers: Servers) {
    forall id :: id in servers ==> servers[id].stored.Some?
  }

  /** An open control claims the room under another generation. */
  predicate ClaimsForeign(servers: Servers, id: SocketId, generation: Option<string>) {
    id in servers && Holds(servers[id]) && Some(servers[id].stored.value.generation) != generation
  }

  lemma ForeignStarts(servers: Servers, generation: Option<string>)
    ensures forall id :: id in servers ==> SocketMarked(servers[id], servers[id])
    ensures forall id :: ClaimsForeign(servers, id, generation) ==> id in servers
  {
  }

  lemma MarkedStaysOpen(before: Servers, after: Servers, id: SocketId)
    requires OnlyMarked(before, after) && id in before
    ensures after[id].open == before[id].open
  {
    hide TicketsMarked;
  }

  lemma MarkedStaysForeign(before: Servers, after: Servers, id: SocketId, generation: Option<string>)
    requires id in before && id in after && SocketMarked(before[id], after[id])
    ensures ClaimsForeign(before, id, generation) ==> ClaimsForeign(after, id, generation)
    ensures EveryControlReadable(before) ==> after[id].stored.Some?
  {
  }

  lemma OthersUnmarked(before: Servers, after: Servers, id: SocketId)
    requires after.Keys == before.Keys && forall other :: other in after && other != id ==>
        after[other] == before[other]
    ensures forall other :: other in after && other != id ==> SocketMarked(before[other], after[other])
  {
  }

  /** Marks made while one control ends compose with the marks made before. */
  lemma MarkedOnwards(before: Servers, earlier: Servers, after: Servers, todo: set<SocketId>, ended: SocketId)
    requires after.Keys == earlier.Keys == before.Keys && todo <= before.Keys
    requires forall id :: id in todo ==> SocketMarked(before[id], earlier[id])
    requires forall id :: id in after && id != ended ==> SocketMarked(earlier[id], after[id])
    ensures forall id :: id in todo && id != ended ==> SocketMarked(before[id], after[id])
  {
    hide TicketsMarked;
    forall id | id in todo && id != ended
      ensures SocketMarked(before[id], after[id])
    {
      SocketMarkedTransitive(before[id], earlier[id], after[id]);
    }
  }

  ghost predicate AllReadable(clients: Clients) {
    forall id :: id in clients ==> clients[id].stored.Some?
  }

  lemma SettledStaysReadable(before: Clients, after: Clients)
    requires Settled(before, after)
    ensures AllReadable(before) ==> AllReadable(after)
  {
    forall id | id in after && before[id].stored.Some?
      ensures after[id].stored.Some?
    {
      assert ClientSettled(before[id], after[id]);
    }
  }

  lemma ReportedStays(metrics: seq<Metric>, grown: seq<Metric>, c: string)
    requires metrics <= grown && Reported(metrics, c)
    ensures Reported(grown, c)
  {
    var k :| 0 <= k < |metrics| && metrics[k].connectionId == c;
    assert grown[k].connectionId == c;
  }

  lemma OneOfAll(before: Clients, id: SocketId, finalized: seq<string>, metrics: seq<Metric>)
    requires AllReported(before, finalized, metrics) && id in before && OwesReport(before[id], finalized)
    ensures Reported(metrics, before[id].stored.value.connectionId)
  {
  }

  lemma AllReportedStays(before: Clients, finalized: seq<string>, metrics: seq<Metric>, grown: seq<Metric>)
    requires metrics <= grown && AllReported(before, finalized, metrics)
    ensures AllReported(before, finalized, grown)
  {
    hide Reported;
    forall id | id in before && OwesReport(before[id], finalized)
      ensures Reported(grown, before[id].stored.value.connectionId)
    {
      ReportedStays(metrics, grown, before[id].stored.value.connectionId);
    }
  }

  /** The ledger's view of one ended client: metrics and finalized ids only grow by its own. */
  lemma FailReports(
    before: Clients, after: Clients, id: SocketId, a: ClientAttachment, outcome: Outcome, metrics: seq<Metric>,
    grown: seq<Metric>, finalized: seq<string>, kept: seq<string>)
    requires ClientFailed(before, after, id, EndedSession(a, outcome), metrics, grown, finalized, kept)
    ensures metrics <= grown
    ensures forall v :: v in kept ==> v in finalized || v == a.connectionId
    ensures grown != metrics ==> Reported(grown, a.connectionId)
  {
    if grown != metrics {
      assert grown[|metrics|].connectionId == a.connectionId;
    }
  }

  /** A sweep in progress: the sessions already visited are reported, the others still can be. */
  ghost predicate ReportedBut(
    before: Clients, marks: seq<string>, metrics: seq<Metric>, finalized: seq<string>, todo: set<SocketId>)
  {
    forall id :: id in before && OwesReport(before[id], marks) ==>
      if id in todo then before[id].stored.value.connectionId !in finalized
      else Reported(metrics, before[id].stored.value.connectionId)
  }

  lemma ReportedNone(before: Clients, marks: seq<string>, metrics: seq<Metric>)
    ensures ReportedBut(before, marks, metrics, marks, before.Keys)
  {
    hide Reported;
  }

  lemma ReportedEvery(before: Clients, marks: seq<string>, metrics: seq<Metric>, finalized: seq<string>)
    requires ReportedBut(before, marks, metrics, finalized, {})
    ensures AllReported(before, marks, metrics)
  {
    hide Reported;
  }

  lemma OneMoreReported(
    before: Clients, marks: seq<string>, sent: seq<Metric>, metrics: seq<Metric>, known: seq<string>,
    finalized: seq<string>, todo: set<SocketId>, id: SocketId)
    requires DistinctConnections(before) && id in before && id !in todo && todo <= before.Keys && sent <= metrics
    requires ReportedBut(before, marks, sent, known, todo + {id})
    requires forall v :: v in finalized ==>
               v in known || (before[id].stored.Some? && v == before[id].stored.value.connectionId)
    requires OwesReport(before[id], known) ==> Reported(metrics, before[id].stored.value.connectionId)
    ensures ReportedBut(before, marks, metrics, finalized, todo)
  {
    hide Reported;
    forall other | other in before && OwesReport(before[other], marks)
      ensures if other in todo then before[other].stored.value.connectionId !in finalized
              else Reported(metrics, before[other].stored.value.connectionId)
    {
      if other !in todo && other != id {
        ReportedStays(sent, metrics, before[other].stored.value.connectionId);
      }
    }
  }

  /**
   Ending a reported session with a copy that predates its report loses the
   marker or reports the session again.
   */
  lemma StaleCopyBreaksLedger(
    before: Clients, after: Clients, id: SocketId, a: ClientAttachment, outcome: Outcome, metrics: seq<Metric>,
    grown: seq<Metric>, finalized: seq<string>, kept: seq<string>, delivered: set<string>)
    requires ClientFailed(before, after, id, EndedSession(a, outcome), metrics, grown, finalized, kept)
    requires !a.summaryEmitted && a.stage != Terminal && Reported(metrics, a.connectionId)
    requires WroteEnd(after, id, EndedSession(a, outcome), grown != metrics)
    ensures !Ledger(after, grown, kept, delivered)
  {
    if grown == metrics {
      assert !MarkedIfReported(after[id], grown);
    } else {
      var k :| 0 <= k < |metrics| && metrics[k].connectionId == a.connectionId;
      assert grown[k].connectionId == grown[|metrics|].connectionId;
    }
  }

  /** A connection was reported twice, or will be by the next instance that sees it close. */
  ghost predicate RepeatsReport(clients: Clients, id: SocketId, metrics: seq<Metric>) {
    || !AtMostOncePerConnection(metrics)
    || (id in clients && DurablyTerminal(clients[id]) && !clients[id].stored.value.summaryEmitted &&
        Reported(metrics, clients[id].stored.value.connectionId))
  }

  lemma StaleCopyRepeats(
    before: Clients, after: Clients, id: SocketId, a: ClientAttachment, outcome: Outcome, metrics: seq<Metric>,
    grown: seq<Metric>, finalized: seq<string>, kept: seq<string>)
    requires ClientFailed(before, after, id, EndedSession(a, outcome), metrics, grown, finalized, kept)
    requires !a.summaryEmitted && a.stage != Terminal && Reported(metrics, a.connectionId)
    requires WroteEnd(after, id, EndedSession(a, outcome), grown != metrics)
    ensures RepeatsReport(after, id, grown)
  {
    if grown != metrics {
      var k :| 0 <= k < |metrics| && metrics[k].connectionId == a.connectionId;
      assert grown[k].connectionId == grown[|metrics|].connectionId;
    }
  }

  lemma RepeatStays(metrics: seq<Metric>, grown: seq<Metric>)
    requires metrics <= grown && !AtMostOncePerConnection(metrics)
    ensures !AtMostOncePerConnection(grown)
  {
    var i, j :| 0 <= i < j < |metrics| && metrics[i].connectionId == metrics[j].connectionId;
    assert grown[i].connectionId == grown[j].connectionId;
  }

  lemma ReportedAgain(metrics: seq<Metric>, m: Metric)
    requires Reported(metrics, m.connectionId)
    ensures !AtMostOncePerConnection(metrics + [m])
  {
    var k :| 0 <= k < |metrics| && metrics[k].connectionId == m.connectionId;
    assert (metrics + [m])[k].connectionId == (metrics + [m])[|metrics|].connectionId;
  }

  /** The ended attachment is the durable one, marked exactly when its metric went out with it. */
  predicate WroteEnd(clients: Clients, id: SocketId, t: ClientAttachment, reported: bool) {
    id in clients && clients[id].stored == Some(if reported then t.(summaryEmitted := true) else t)
  }

  /** How a session ends: as it already had, as it was already owed, or as now asked. */
  function Verdict(ended: Option<Outcome>, owed: map<SocketId, Outcome>, id: SocketId, asked: Outcome): Outcome {
    if ended.Some? then ended.value else if id in owed then owed[id] else asked
  }

  /** The stored form of an ended session: its secrets gone, its identity and counters kept, and how it ended. */
  predicate EndedAs(stored: Option<ClientAttachment>, a: ClientAttachment, outcome: Outcome) {
    && stored.Some?
    && var t := stored.value;
    && t.stage == Terminal && t.authorization == Ended && t.terminalOutcome == Some(outcome)
    && t.terminalCloseAttempts == 0
    && t.ticket == None && t.ticketDigest == None && t.boundTicketHash == None && t.accessGrant == None
    && t.accessClientNonce == None && t.accessExpiresAt == None && t.accessRedemption == None
    && t.connectionId == a.connectionId && t.controlId == a.controlId && t.generation == a.generation
    && t.admissionId == a.admissionId && t.openedAt == a.openedAt && t.expiresAt == a.expiresAt
    && t.framesForwarded == a.framesForwarded && t.signalBytes == a.signalBytes
    && t.clientCandidates == a.clientCandidates && t.serverCandidates == a.serverCandidates
    && t.completionCount == a.completionCount
    && (a.summaryEmitted ==> t.summaryEmitted)
  }

  /** A session that had not ended is stored as ended. */
  predicate EndedFor(before: ClientSocket, after: ClientSocket, how: Outcome) {
    before.stored.Some? && before.stored.value.stage != Terminal ==> EndedAs(after.stored, before.stored.value, how)
  }

  function HowEnded(c: ClientSocket, owed: map<SocketId, Outcome>, id: SocketId, asked: Outcome): Outcome {
    Verdict(if c.stored.Some? then c.stored.value.terminalOutcome else None, owed, id, asked)
  }

  /** Every session that had not ended is stored as ended, each as it was owed or as now asked. */
  predicate AllEnded(before: Clients, after: Clients, owed: map<SocketId, Outcome>, asked: Outcome) {
    forall id :: id in before && id in after ==> EndedFor(before[id], after[id], HowEnded(before[id], owed, id, asked))
  }

  lemma SameBut(a: map<SocketId, Outcome>, b: map<SocketId, Outcome>, id: SocketId)
    requires a - {id} == b - {id}
    ensures forall other :: other != id ==> (other in a <==> other in b) && (other in b ==> a[other] == b[other])
  {
    forall other | other != id
      ensures (other in a <==> other in b) && (other in b ==> a[other] == b[other])
    {
      assert other in a - {id} <==> other in b - {id};
      assert other in b ==> (a - {id})[other] == (b - {id})[other];
    }
  }

  /** What these sessions are owed has not changed. */
  predicate SameOwed(owed: map<SocketId, Outcome>, first: map<SocketId, Outcome>, todo: set<SocketId>) {
    forall id :: id in todo ==> (id in owed <==> id in first) && (id in first ==> owed[id] == first[id])
  }

  ghost predicate EndedBut(
    before: Clients, after: Clients, owed: map<SocketId, Outcome>, asked: Outcome, todo: set<SocketId>)
  {
    forall id :: id in before && id in after && id !in todo ==>
      EndedFor(before[id], after[id], HowEnded(before[id], owed, id, asked))
  }

  lemma EndedNone(clients: Clients, owed: map<SocketId, Outcome>, asked: Outcome)
    ensures EndedBut(clients, clients, owed, asked, clients.Keys) && SameOwed(owed, owed, clients.Keys)
  {
  }

  lemma EndedAll(before: Clients, after: Clients, owed: map<SocketId, Outcome>, asked: Outcome)
    requires EndedBut(before, after, owed, asked, {})
    ensures AllEnded(before, after, owed, asked)
  {
    hide EndedFor, HowEnded;
  }

  lemma SameOwedStep(
    earlier: map<SocketId, Outcome>, owed: map<SocketId, Outcome>, first: map<SocketId, Outcome>, todo: set<SocketId>,
    id: SocketId)
    requires SameOwed(earlier, first, todo + {id}) && owed - {id} == earlier - {id} && id !in todo
    ensures SameOwed(owed, first, todo)
  {
    SameBut(owed, earlier, id);
  }

  lemma EndedStep(
    before: Clients, earlier: Clients, after: Clients, unsettled: map<SocketId, Outcome>,
    owed: map<SocketId, Outcome>, asked: Outcome, todo: set<SocketId>, id: SocketId)
    requires EndedBut(before, earlier, owed, asked, todo + {id}) && SameOwed(unsettled, owed, todo + {id})
    requires id in before && id in earlier && id in after && earlier[id] == before[id] && id !in todo
    requires after.Keys == earlier.Keys
    requires forall other :: other in after && other != id ==> after[other] == earlier[other]
    requires EndedFor(earlier[id], after[id], HowEnded(earlier[id], unsettled, id, asked))
    ensures EndedBut(before, after, owed, asked, todo)
  {
    hide EndedFor;
    assert HowEnded(before[id], unsettled, id, asked) == HowEnded(before[id], owed, id, asked);
  }

  lemma EndedFields(clients: Clients, id: SocketId, a: ClientAttachment, outcome: Outcome, reported: bool)
    requires WroteEnd(clients, id, EndedSession(a, outcome), reported) && a.stage != Terminal
    ensures EndedAs(clients[id].stored, a, outcome) && (reported ==> clients[id].stored.value.summaryEmitted)
  {
  }

  /** The one metric a teardown writes, in the session's own counters. */
  lemma EndedMetric(
    before: Clients, after: Clients, id: SocketId, a: ClientAttachment, outcome: Outcome, metrics: seq<Metric>,
    grown: seq<Metric>, finalized: seq<string>, kept: seq<string>)
    requires ClientFailed(before, after, id, EndedSession(a, outcome), metrics, grown, finalized, kept)
    requires a.stage != Terminal
    ensures grown == metrics ||
            grown == metrics + [Metric(a.connectionId, outcome, a.clientAuthorizationFrames + a.clientCandidates,
              a.serverAuthorizationFrames + a.serverCandidates + a.completionCount, a.framesForwarded, a.signalBytes)]
    ensures after == before[id := after[id]] && (after[id].open ==> before[id].open)
  {
  }

  // ---- forwarded frames ----------------------------------------------------------------------

  function CountOf(frames: seq<Frame>, kind: FrameKind, connectionId: string): nat {
    if |frames| == 0 then 0
    else
      var last := frames[|frames| - 1];
      CountOf(frames[..|frames| - 1], kind, connectionId) +
      (if last.kind == kind && last.connectionId == connectionId then 1 else 0)
  }

  function BytesOf(frames: seq<Frame>, connectionId: string): int {
    if |frames| == 0 then 0
    else
      var last := frames[|frames| - 1];
      BytesOf(frames[..|frames| - 1], connectionId) + (if last.connectionId == connectionId then last.bytes else 0)
  }

  ghost predicate Untouched(frames: seq<Frame>, connectionId: string) {
    forall k :: 0 <= k < |frames| ==> frames[k].connectionId != connectionId
  }

  /** Both endpoints of a frame shared the control, the generation and the ticket, at the room's generation. */
  predicate Routed(f: Frame) {
    && f.clientControl == f.serverControl && f.clientGeneration == f.serverGeneration
    && f.clientDigest == f.serverDigest && f.roomGeneration == Some(f.clientGeneration)
  }

  /** The per-session limits over everything that was ever forwarded. */
  ghost predicate WithinSessionLimits(frames: seq<Frame>) {
    && (forall c :: CountOf(frames, ClientCandidate, c) <= 1)
    && (forall c :: CountOf(frames, ServerCandidate, c) <= MAX_SERVER_CANDIDATES)
    && (forall c :: CountOf(frames, Completion, c) <= 1)
    && (forall c :: BytesOf(frames, c) <= MAX_SESSION_SIGNAL_BYTES)
    && (forall i, j :: 0 <= i < j < |frames| && frames[i].connectionId == frames[j].connectionId ==>
          frames[i].kind != Completion)
    && (forall k :: 0 <= k < |frames| ==> Routed(frames[k]))
  }

  /** A stored ticket has accounted for every frame its session ever received from the control. */
  ghost predicate Covers(t: TicketState, frames: seq<Frame>) {
    && CountOf(frames, ServerCandidate, t.clientConnectionId) <= t.serverCandidates
    && BytesOf(frames, t.clientConnectionId) <= t.signalBytes
    && (t.stage == Active ==> CountOf(frames, Completion, t.clientConnectionId) == 0)
  }

  ghost predicate HasTicket(s: ServerSocket, t: TicketState) {
    s.stored.Some? && t in s.stored.value.tickets
  }

  /** The ticket of a session in exchange belongs to its control and counts at least as much as its own copy. */
  predicate Leads(s: ServerSocket, t: TicketState, c: ClientSocket) {
    (c.stored.Some? && c.stored.value.stage == CandidateExchange &&
     t.clientConnectionId == c.stored.value.connectionId) ==>
      && c.stored.value.serverCandidates <= t.serverCandidates
      && c.stored.value.ticketDigest == Some(t.ticketDigest)
      && s.stored.Some? && s.stored.value.controlId == c.stored.value.controlId
      && s.stored.value.generation == c.stored.value.generation
  }

  /** Durable budgets dominate the history, and each session's ticket has one home. */
  ghost predicate Accounted(servers: Servers, clients: Clients, frames: seq<Frame>) {
    && (forall s, t :: s in servers && HasTicket(servers[s], t) ==> Covers(t, frames))
    && (forall s, s', t, t' ::
          (s in servers && s' in servers && s != s' && HasTicket(servers[s], t) && HasTicket(servers[s'], t')) ==>
            t.clientConnectionId != t'.clientConnectionId)
    && (forall c :: c in clients && clients[c].stored.Some? && clients[c].stored.value.stage == AwaitingCandidate ==>
          Fresh(servers, frames, clients[c].stored.value.connectionId))
    && (forall c, s, t :: c in clients && s in servers && HasTicket(servers[s], t) ==> Leads(servers[s], t, clients[c]))
  }

  /** No frame and no ticket mentions the connection yet. */
  ghost predicate Fresh(servers: Servers, frames: seq<Frame>, connectionId: string) {
    && Untouched(frames, connectionId)
    && forall s, t :: s in servers && HasTicket(servers[s], t) ==> t.clientConnectionId != connectionId
  }

  /** Every connection id in use was issued before. */
  ghost predicate Issued(
    servers: Servers, clients: Clients, frames: seq<Frame>, issued: set<string>)
  {
    && (forall c :: c in clients && clients[c].stored.Some? ==> clients[c].stored.value.connectionId in issued)
    && (forall s, t :: s in servers && HasTicket(servers[s], t) ==> t.clientConnectionId in issued)
    && (forall k :: 0 <= k < |frames| ==> frames[k].connectionId in issued)
  }

  lemma {:induction false} UntouchedCounts(frames: seq<Frame>, connectionId: string)
    ensures Untouched(frames, connectionId) ==>
              BytesOf(frames, connectionId) == 0 &&
              forall kind :: CountOf(frames, kind, connectionId) == 0
    ensures (forall kind :: CountOf(frames, kind, connectionId) == 0) ==> Untouched(frames, connectionId)
  {
    if |frames| > 0 {
      var front := frames[..|frames| - 1];
      UntouchedCounts(front, connectionId);
      assert CountOf(frames, frames[|frames| - 1].kind, connectionId) >= CountOf(front, frames[|frames| - 1].kind,
          connectionId);
      assert Untouched(frames, connectionId) ==> Untouched(front, connectionId);
      if forall kind :: CountOf(frames, kind, connectionId) == 0 {
        forall kind: FrameKind
          ensures CountOf(front, kind, connectionId) == 0
        {
          assert CountOf(frames, kind, connectionId) == 0;
        }
        assert frames[|frames| - 1].connectionId != connectionId;
        forall k | 0 <= k < |frames|
          ensures frames[k].connectionId != connectionId
        {
          assert k < |front| ==> frames[k] == front[k];
        }
      }
    }
  }

  lemma AppendFrame(frames: seq<Frame>, f: Frame)
    ensures forall kind, c :: CountOf(frames + [f], kind, c) ==
              CountOf(frames, kind, c) + (if f.kind == kind && f.connectionId == c then 1 else 0)
    ensures forall c :: BytesOf(frames + [f], c) == BytesOf(frames, c) + (if f.connectionId == c then f.bytes else 0)
  {
    assert (frames + [f])[..|frames|] == frames;
  }

  // ---- teardowns keep the accounts --------------------------------------------------------------

  /** Every ticket present comes from one the same control already held. */
  ghost predicate TicketsCarried(before: Servers, after: Servers) {
    forall s, t :: s in after && HasTicket(after[s], t) ==>
      s in before && before[s].stored.Some? && SameControl(before[s].stored.value, after[s].stored.value) &&
      Derived(t, before[s].stored.value.tickets)
  }

  lemma ShrunkCarries(before: Servers, after: Servers)
    requires Shrunk(before, after)
    ensures TicketsCarried(before, after)
  {
    forall s, t | s in after && HasTicket(after[s], t)
      ensures s in before && before[s].stored.Some? && SameControl(before[s].stored.value, after[s].stored.value)
      ensures Derived(t, before[s].stored.value.tickets)
    {
      assert SocketShrunk(before[s], after[s]);
    }
  }

  lemma Origin(before: Servers, after: Servers, s: SocketId, t: TicketState) returns (u: TicketState)
    requires TicketsCarried(before, after) && s in after && HasTicket(after[s], t)
    ensures s in before && HasTicket(before[s], u)
    ensures u.clientConnectionId == t.clientConnectionId && u.serverCandidates == t.serverCandidates
    ensures u.ticketDigest == t.ticketDigest && after[s].stored.Some?
    ensures SameControl(before[s].stored.value, after[s].stored.value)
    ensures u.signalBytes == t.signalBytes && (t.stage == Active ==> u.stage == Active)
  {
    if HasTicket(before[s], t) {
      u := t;
    } else {
      u := t.(stage := Active);
    }
  }

  lemma TeardownKeepsFresh(before: Servers, after: Servers, frames: seq<Frame>, connectionId: string)
    requires TicketsCarried(before, after) && Fresh(before, frames, connectionId)
    ensures Fresh(after, frames, connectionId)
  {
    hide TicketsCarried, Untouched;
    forall s, t | s in after && HasTicket(after[s], t)
      ensures t.clientConnectionId != connectionId
    {
      var u := Origin(before, after, s, t);
    }
  }

  lemma TeardownKeepsAccounts(
    before: Servers, after: Servers, clients: Clients, settled: Clients, frames: seq<Frame>)
    requires Accounted(before, clients, frames) && TicketsCarried(before, after) && Settled(clients, settled)
    ensures Accounted(after, settled, frames)
  {
    hide TicketsCarried, CountOf, BytesOf, Fresh, HasTicket;
    forall s, t | s in after && HasTicket(after[s], t)
      ensures Covers(t, frames)
    {
      var u := Origin(before, after, s, t);
      assert Covers(u, frames);
    }
    forall s, s', t, t' | s in after && s' in after && s != s' && HasTicket(after[s], t) && HasTicket(after[s'], t')
      ensures t.clientConnectionId != t'.clientConnectionId
    {
      var u := Origin(before, after, s, t);
      var u' := Origin(before, after, s', t');
    }
    forall c | c in settled && settled[c].stored.Some? && settled[c].stored.value.stage == AwaitingCandidate
      ensures Fresh(after, frames, settled[c].stored.value.connectionId)
    {
      assert ClientSettled(clients[c], settled[c]);
      TeardownKeepsFresh(before, after, frames, settled[c].stored.value.connectionId);
    }
    forall c, s, t | c in settled && s in after && HasTicket(after[s], t)
      ensures Leads(after[s], t, settled[c])
    {
      assert ClientSettled(clients[c], settled[c]);
      var u := Origin(before, after, s, t);
      assert Leads(before[s], u, clients[c]);
    }
  }

  lemma TeardownKeepsIssued(
    before: Servers, after: Servers, clients: Clients, settled: Clients, frames: seq<Frame>, issued: set<string>)
    requires Issued(before, clients, frames, issued) && TicketsCarried(before, after) && Settled(clients, settled)
    ensures Issued(after, settled, frames, issued)
  {
    hide TicketsCarried;
    forall s, t | s in after && HasTicket(after[s], t)
      ensures t.clientConnectionId in issued
    {
      var u := Origin(before, after, s, t);
    }
    forall c | c in settled && settled[c].stored.Some?
      ensures settled[c].stored.value.connectionId in issued
    {
      assert ClientSettled(clients[c], settled[c]);
    }
  }

  lemma ShrunkKeepsOwnership(before: Servers, after: Servers)
    requires Shrunk(before, after)
    ensures forall id :: id in after && Holds(after[id]) ==> Holds(before[id])
    ensures AtMostOneOwner(before) ==> AtMostOneOwner(after)
  {
    hide TicketsDerived;
    forall id | id in after && Holds(after[id])
      ensures Holds(before[id])
    {
      assert SocketShrunk(before[id], after[id]);
    }
  }

  lemma SettledAbsorbs(before: Clients, after: Clients)
    requires Settled(before, after)
    ensures TerminalAbsorbed(before, after)
  {
    forall id | id in before && id in after && DurablyTerminal(before[id])
      ensures DurablyTerminal(after[id]) && after[id].stored.value.connectionId == before[id].stored.value.connectionId
    {
      assert ClientSettled(before[id], after[id]);
    }
  }
}
