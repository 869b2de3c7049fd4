/**
 How the durable budgets of tickets and sessions dominate the frames a room has
 ever forwarded, step by step.
 */
module RoomAccounts {
  import opened Options
  import opened Attachments
  import opened RoomState

  /** The accounts of a room: budgets, history, and the connection ids behind them. */
  ghost predicate Consistent(servers: Servers, clients: Clients, frames: seq<Frame>, issued: set<string>) {
    && Accounted(servers, clients, frames) && WithinSessionLimits(frames)
    && Issued(servers, clients, frames, issued) && DistinctConnections(clients)
  }

  lemma ConsistentIsDistinct(servers: Servers, clients: Clients, frames: seq<Frame>, issued: set<string>)
    requires Consistent(servers, clients, frames, issued)
    ensures DistinctConnections(clients)
  {
  }

  lemma SettledStaysDistinct(before: Clients, after: Clients)
    requires DistinctConnections(before) && Settled(before, after)
    ensures DistinctConnections(after)
  {
    forall a, b | a in after && b in after && a != b && after[a].stored.Some? && after[b].stored.Some?
      ensures after[a].stored.value.connectionId != after[b].stored.value.connectionId
    {
      assert ClientSettled(before[a], after[a]) && ClientSettled(before[b], after[b]);
    }
  }

  lemma ConsistentAfterTeardown(
    before: Servers, after: Servers, clients: Clients, settled: Clients, frames: seq<Frame>, issued: set<string>)
    requires Consistent(before, clients, frames, issued) && TicketsCarried(before, after) && Settled(clients, settled)
    ensures Consistent(after, settled, frames, issued)
  {
    hide Accounted, WithinSessionLimits, TicketsCarried, Issued, Settled;
    TeardownKeepsAccounts(before, after, clients, settled, frames);
    TeardownKeepsIssued(before, after, clients, settled, frames, issued);
    SettledStaysDistinct(clients, settled);
  }

  // ---- one client attachment written ----------------------------------------------------

  /** The write moves the session forward within its own identity. */
  predicate Progresses(before: ClientAttachment, after: ClientAttachment) {
    && SameSession(before, after)
    && (after.stage == AwaitingCandidate ==> before.stage == AwaitingCandidate)
  }

  lemma ConsistentAfterClientWrite(
    servers: Servers, clients: Clients, id: SocketId, c: ClientSocket, frames: seq<Frame>, issued: set<string>)
    requires Consistent(servers, clients, frames, issued) && id in clients
    requires clients[id].stored.Some? && c.stored.Some? && Progresses(clients[id].stored.value, c.stored.value)
    requires forall s, t :: s in servers && HasTicket(servers[s], t) ==> Leads(servers[s], t, c)
    ensures Consistent(servers, clients[id := c], frames, issued)
  {
    hide Covers, Fresh, HasTicket, WithinSessionLimits;
    var after := clients[id := c];
    forall k | k in after && after[k].stored.Some? && after[k].stored.value.stage == AwaitingCandidate
      ensures Fresh(servers, frames, after[k].stored.value.connectionId)
    {
      assert Fresh(servers, frames, clients[k].stored.value.connectionId);
    }
    assert DistinctConnections(after);
  }

  // ---- one control attachment written --------------------------------------------------

  /** The control's new attachment holds tickets it had, and possibly the given one. */
  ghost predicate Carries(before: ServerSocket, after: ServerSocket, u: TicketState) {
    && before.stored.Some? && after.stored.Some? && SameControl(before.stored.value, after.stored.value)
    && forall x :: x in after.stored.value.tickets ==> x == u || x in before.stored.value.tickets
  }

  /** The given ticket fits the accounts of every other control and every session. */
  ghost predicate Fits(
    servers: Servers, clients: Clients, sid: SocketId, s: ServerSocket, u: TicketState, frames: seq<Frame>)
  {
    && Covers(u, frames)
    && (forall x, v :: x in servers && x != sid && HasTicket(servers[x], v) ==>
          v.clientConnectionId != u.clientConnectionId)
    && (forall c :: c in clients ==> Leads(s, u, clients[c]) && !AwaitsAs(clients[c], u.clientConnectionId))
  }

  predicate AwaitsAs(c: ClientSocket, connectionId: string) {
    c.stored.Some? && c.stored.value.stage == AwaitingCandidate && c.stored.value.connectionId == connectionId
  }

  lemma TicketAfter(servers: Servers, sid: SocketId, s: ServerSocket, u: TicketState, x: SocketId, v: TicketState)
    requires sid in servers && Carries(servers[sid], s, u)
    requires x in servers[sid := s] && HasTicket(servers[sid := s][x], v)
    ensures x in servers && ((x == sid && v == u) || HasTicket(servers[x], v))
    ensures servers[x].stored.Some? && servers[sid := s][x].stored.Some?
    ensures SameControl(servers[x].stored.value, servers[sid := s][x].stored.value)
  {
  }

  lemma LeadsFrom(before: ServerSocket, after: ServerSocket, t: TicketState, c: ClientSocket)
    requires before.stored.Some? && after.stored.Some? && SameControl(before.stored.value, after.stored.value)
    ensures Leads(before, t, c) ==> Leads(after, t, c)
  {
  }

  lemma AccountedAfterWrite(
    servers: Servers, clients: Clients, sid: SocketId, s: ServerSocket, u: TicketState, frames: seq<Frame>)
    requires Accounted(servers, clients, frames) && sid in servers && Carries(servers[sid], s, u)
    requires Fits(servers, clients, sid, s, u, frames)
    ensures Accounted(servers[sid := s], clients, frames)
  {
    hide Carries, HasTicket, Covers, Untouched, Leads;
    var after := servers[sid := s];
    forall x, v | x in after && HasTicket(after[x], v)
      ensures Covers(v, frames)
    {
      TicketAfter(servers, sid, s, u, x, v);
    }
    forall x, y, v, w | x in after && y in after && x != y && HasTicket(after[x], v) && HasTicket(after[y], w)
      ensures v.clientConnectionId != w.clientConnectionId
    {
      TicketAfter(servers, sid, s, u, x, v);
      TicketAfter(servers, sid, s, u, y, w);
    }
    forall c | c in clients && clients[c].stored.Some? && clients[c].stored.value.stage == AwaitingCandidate
      ensures Fresh(after, frames, clients[c].stored.value.connectionId)
    {
      forall x, v | x in after && HasTicket(after[x], v)
        ensures v.clientConnectionId != clients[c].stored.value.connectionId
      {
        TicketAfter(servers, sid, s, u, x, v);
        assert !AwaitsAs(clients[c], u.clientConnectionId);
      }
    }
    forall c, x, v | c in clients && x in after && HasTicket(after[x], v)
      ensures Leads(after[x], v, clients[c])
    {
      TicketAfter(servers, sid, s, u, x, v);
      if HasTicket(servers[x], v) {
        LeadsFrom(servers[x], after[x], v, clients[c]);
      }
    }
  }

  lemma IssuedAfterWrite(
    servers: Servers, clients: Clients, sid: SocketId, s: ServerSocket, u: TicketState, frames: seq<Frame>,
    issued: set<string>)
    requires Issued(servers, clients, frames, issued) && sid in servers && Carries(servers[sid], s, u)
    requires u.clientConnectionId in issued
    ensures Issued(servers[sid := s], clients, frames, issued)
  {
    hide Carries, HasTicket;
    var after := servers[sid := s];
    forall x, v | x in after && HasTicket(after[x], v)
      ensures v.clientConnectionId in issued
    {
      TicketAfter(servers, sid, s, u, x, v);
    }
  }

  lemma ConsistentAfterServerWrite(
    servers: Servers, clients: Clients, sid: SocketId, s: ServerSocket, u: TicketState, frames: seq<Frame>,
    issued: set<string>)
    requires Consistent(servers, clients, frames, issued) && sid in servers && Carries(servers[sid], s, u)
    requires Fits(servers, clients, sid, s, u, frames) && u.clientConnectionId in issued
    ensures Consistent(servers[sid := s], clients, frames, issued)
  {
    hide Accounted, Issued, WithinSessionLimits, DistinctConnections, Carries, Fits;
    AccountedAfterWrite(servers, clients, sid, s, u, frames);
    IssuedAfterWrite(servers, clients, sid, s, u, frames, issued);
  }

  /** A first ticket for a session that was untouched until it left the waiting stage. */
  lemma NewTicketFits(
    servers: Servers, clients: Clients, sid: SocketId, s: ServerSocket, u: TicketState, frames: seq<Frame>)
    requires Fresh(servers, frames, u.clientConnectionId) && u.serverCandidates == 0 && u.signalBytes >= 0
    requires forall c :: c in clients ==> Leads(s, u, clients[c]) && !AwaitsAs(clients[c], u.clientConnectionId)
    ensures Fits(servers, clients, sid, s, u, frames)
  {
    hide CountOf, BytesOf, Leads, AwaitsAs;
    UntouchedCounts(frames, u.clientConnectionId);
  }

  /** The charged ticket only counts more and only ends. */
  predicate Charges(before: TicketState, after: TicketState) {
    && after.clientConnectionId == before.clientConnectionId && after.ticketDigest == before.ticketDigest
    && after.serverCandidates >= before.serverCandidates && after.signalBytes >= before.signalBytes
    && (after.stage == Active ==> before.stage == Active)
  }

  /** A session whose ticket is stored has left the waiting stage. */
  lemma TicketedNeverAwaits(
    servers: Servers, clients: Clients, frames: seq<Frame>, sid: SocketId, t: TicketState, c: SocketId)
    requires Accounted(servers, clients, frames) && sid in servers && HasTicket(servers[sid], t) && c in clients
    ensures !AwaitsAs(clients[c], t.clientConnectionId)
  {
    hide Covers, Untouched;
    assert AwaitsAs(clients[c], t.clientConnectionId) ==> Fresh(servers, frames, t.clientConnectionId);
  }

  lemma ChargedTicketFits(
    servers: Servers, clients: Clients, sid: SocketId, s: ServerSocket, t: TicketState, u: TicketState,
    frames: seq<Frame>, issued: set<string>)
    requires Consistent(servers, clients, frames, issued) && sid in servers && HasTicket(servers[sid], t)
    requires Charges(t, u) && s.stored.Some? && SameControl(servers[sid].stored.value, s.stored.value)
    ensures Fits(servers, clients, sid, s, u, frames) && u.clientConnectionId in issued
  {
    hide WithinSessionLimits, CountOf, BytesOf, Untouched, DistinctConnections;
    assert Covers(t, frames);
    forall c | c in clients
      ensures Leads(s, u, clients[c]) && !AwaitsAs(clients[c], u.clientConnectionId)
    {
      assert Leads(servers[sid], t, clients[c]);
      TicketedNeverAwaits(servers, clients, frames, sid, t, c);
    }
  }

  // ---- one frame forwarded ---------------------------------------------------------------------

  /** The ticket's durable budget leaves room for the frame, and the session is still open. */
  predicate Affords(t: TicketState, f: Frame, frames: seq<Frame>) {
    && f.connectionId == t.clientConnectionId && f.bytes >= 0
    && BytesOf(frames, f.connectionId) + f.bytes <= t.signalBytes <= MAX_SESSION_SIGNAL_BYTES
    && CountOf(frames, Completion, f.connectionId) == 0
    && match f.kind
       case ClientCandidate => CountOf(frames, ClientCandidate, f.connectionId) == 0
       case ServerCandidate =>
         CountOf(frames, ServerCandidate, f.connectionId) + 1 <= t.serverCandidates <= MAX_SERVER_CANDIDATES
       case Completion => t.stage == Spent
  }

  lemma {:induction false} NoneCounted(frames: seq<Frame>, kind: FrameKind, connectionId: string, k: nat)
    requires CountOf(frames, kind, connectionId) == 0 && k < |frames|
    ensures !(frames[k].kind == kind && frames[k].connectionId == connectionId)
  {
    if k < |frames| - 1 {
      NoneCounted(frames[..|frames| - 1], kind, connectionId, k);
    }
  }

  lemma LimitsAfterFrame(frames: seq<Frame>, f: Frame, t: TicketState)
    requires WithinSessionLimits(frames) && Affords(t, f, frames) && Routed(f)
    requires t.serverCandidates <= MAX_SERVER_CANDIDATES
    ensures WithinSessionLimits(frames + [f])
  {
    AppendFrame(frames, f);
    forall i | 0 <= i < |frames| && frames[i].connectionId == f.connectionId
      ensures frames[i].kind != Completion
    {
      NoneCounted(frames, Completion, f.connectionId, i);
    }
    forall i, j | 0 <= i < j < |frames + [f]| && (frames + [f])[i].connectionId == (frames + [f])[j].connectionId
      ensures (frames + [f])[i].kind != Completion
    {
      assert (frames + [f])[i] == frames[i];
    }
    hide CountOf, BytesOf;
  }

  lemma CoversAfterFrame(
    servers: Servers, clients: Clients, sid: SocketId, t: TicketState, f: Frame, frames: seq<Frame>, x: SocketId,
    u: TicketState)
    requires Accounted(servers, clients, frames) && sid in servers && HasTicket(servers[sid], t)
    requires Affords(t, f, frames) && DistinctTickets(servers[sid].stored.value.tickets)
    requires x in servers && HasTicket(servers[x], u)
    ensures Covers(u, frames + [f])
  {
    AppendFrame(frames, f);
    hide CountOf, BytesOf, Untouched, Leads;
    assert Covers(u, frames);
    if u.clientConnectionId == f.connectionId {
      assert x == sid;
      OneTicket(servers[sid].stored.value.tickets, t, u);
    }
  }

  lemma AccountedAfterFrame(
    servers: Servers, clients: Clients, sid: SocketId, t: TicketState, f: Frame, frames: seq<Frame>)
    requires Accounted(servers, clients, frames) && sid in servers && HasTicket(servers[sid], t)
    requires Affords(t, f, frames) && DistinctTickets(servers[sid].stored.value.tickets)
    ensures Accounted(servers, clients, frames + [f])
  {
    hide CountOf, BytesOf, Covers, Affords, DistinctTickets, HasTicket;
    forall x, u | x in servers && HasTicket(servers[x], u)
      ensures Covers(u, frames + [f])
    {
      CoversAfterFrame(servers, clients, sid, t, f, frames, x, u);
    }
    forall c | c in clients && clients[c].stored.Some? && clients[c].stored.value.stage == AwaitingCandidate
      ensures Fresh(servers, frames + [f], clients[c].stored.value.connectionId)
    {
      TicketedNeverAwaits(servers, clients, frames, sid, t, c);
      AffordsNames(t, f, frames);
    }
  }

  lemma AffordsNames(t: TicketState, f: Frame, frames: seq<Frame>)
    requires Affords(t, f, frames)
    ensures f.connectionId == t.clientConnectionId
  {
  }

  lemma ConsistentAfterFrame(
    servers: Servers, clients: Clients, sid: SocketId, t: TicketState, f: Frame, frames: seq<Frame>,
    issued: set<string>)
    requires Consistent(servers, clients, frames, issued)
    requires sid in servers && HasTicket(servers[sid], t) && Affords(t, f, frames) && Routed(f)
    requires t.serverCandidates <= MAX_SERVER_CANDIDATES
    requires DistinctTickets(servers[sid].stored.value.tickets)
    ensures Consistent(servers, clients, frames + [f], issued)
  {
    hide Accounted, Affords, WithinSessionLimits, DistinctTickets, DistinctConnections;
    LimitsAfterFrame(frames, f, t);
    AccountedAfterFrame(servers, clients, sid, t, f, frames);
    AffordsNames(t, f, frames);
    assert t.clientConnectionId in issued;
  }

  lemma OneTicket(tickets: seq<TicketState>, t: TicketState, u: TicketState)
    requires DistinctTickets(tickets) && t in tickets && u in tickets
    requires t.clientConnectionId == u.clientConnectionId
    ensures t == u
  {
    var i :| 0 <= i < |tickets| && tickets[i] == t;
    var j :| 0 <= j < |tickets| && tickets[j] == u;
  }

  // ---- in-memory changes of tickets and sessions ------------------------------------------------

  function PrunedTickets(tickets: seq<TicketState>, now: int): (kept: seq<TicketState>)
    ensures |kept| <= |tickets|
    ensures forall t :: t in kept <==> t in tickets && t.expiresAt > now
  {
    if |tickets| == 0 then []
    else if tickets[0].expiresAt > now then [tickets[0]] + PrunedTickets(tickets[1..], now)
    else PrunedTickets(tickets[1..], now)
  }

  function Pruned(a: ServerAttachment, now: int): ServerAttachment {
    a.(tickets := PrunedTickets(a.tickets, now))
  }

  lemma {:induction false} PrunedStayDistinct(tickets: seq<TicketState>, now: int)
    requires DistinctTickets(tickets)
    ensures DistinctTickets(PrunedTickets(tickets, now))
  {
    if |tickets| > 0 {
      var rest := tickets[1..];
      assert forall i :: 0 <= i < |rest| ==> rest[i] == tickets[i + 1];
      PrunedStayDistinct(rest, now);
      var kept := PrunedTickets(rest, now);
      forall j | 0 <= j < |kept|
        ensures kept[j].ticketDigest != tickets[0].ticketDigest
        ensures kept[j].clientConnectionId != tickets[0].clientConnectionId
      {
        assert kept[j] in rest;
        var i :| 0 <= i < |rest| && rest[i] == kept[j];
        assert rest[i] == tickets[i + 1];
      }
    }
  }

  /** An unexpired ticket is found in the pruned copy under its digest. */
  lemma PrunedIndex(a: ServerAttachment, now: int, j: nat)
    requires ValidServer(a) && j < |a.tickets| && a.tickets[j].expiresAt > now
    ensures var kept := PrunedTickets(a.tickets, now);
            var k := TicketIndex(kept, a.tickets[j].ticketDigest, None);
            k < |kept| && kept[k] == a.tickets[j]
  {
    hide ValidTicket;
    var kept := PrunedTickets(a.tickets, now);
    assert a.tickets[j] in kept;
    var n :| 0 <= n < |kept| && kept[n] == a.tickets[j];
    PrunedStayDistinct(a.tickets, now);
    IndexOfDistinct(kept, n);
  }

  lemma IndexOfDistinct(tickets: seq<TicketState>, n: nat)
    requires DistinctTickets(tickets) && n < |tickets|
    ensures TicketIndex(tickets, tickets[n].ticketDigest, None) == n
  {
    var k := TicketIndex(tickets, tickets[n].ticketDigest, None);
    assert IsTicket(tickets[n], tickets[n].ticketDigest, None);
  }

  /** A control's tickets are distinct, so a digest and its session find one slot. */
  lemma SlotIndex(servers: Servers, sid: SocketId, j: nat, connectionId: string)
    requires ReadableServers(servers) && sid in servers && servers[sid].stored.Some?
    requires j < |servers[sid].stored.value.tickets|
    requires servers[sid].stored.value.tickets[j].clientConnectionId == connectionId
    ensures var tickets := servers[sid].stored.value.tickets;
            && TicketIndex(tickets, tickets[j].ticketDigest, Some(connectionId)) == j
            && forall k: nat :: k < |tickets| && tickets[k].ticketDigest == tickets[j].ticketDigest ==> k == j
  {
    hide ValidTicket;
    var tickets := servers[sid].stored.value.tickets;
    assert DistinctTickets(tickets);
    assert IsTicket(tickets[j], tickets[j].ticketDigest, Some(connectionId));
  }

  lemma PrunedIsValid(a: ServerAttachment, now: int)
    requires ValidServer(a)
    ensures ValidServer(Pruned(a, now)) && AttachmentShrunk(a, Pruned(a, now))
  {
    PrunedStayDistinct(a.tickets, now);
    forall k | 0 <= k < |Pruned(a, now).tickets|
      ensures ValidTicket(Pruned(a, now).tickets[k])
    {
      assert Pruned(a, now).tickets[k] in a.tickets;
    }
  }

  /** The client frame a room may dispatch: its ticket, the hashes of it and its size. */
  datatype CandidateSignal = CandidateSignal(ticket: string, digest: string, boundHash: string, bytes: int)

  predicate ValidSignal(s: CandidateSignal) {
    Hex64(s.ticket) && Hex64(s.digest) && Hex64(s.boundHash) && 1 <= s.bytes <= MAX_SIGNAL_BYTES
  }

  function Dispatched(c: ClientAttachment, s: CandidateSignal): ClientAttachment {
    c.(ticket := Some(s.ticket), ticketDigest := Some(s.digest), authorization := NotRequired,
       clientAuthorizationFrames := 0, stage := CandidateExchange, clientCandidates := MAX_CLIENT_CANDIDATES,
       signalBytes := s.bytes)
  }

  function NewTicket(c: ClientAttachment, s: CandidateSignal): TicketState {
    TicketState(s.digest, c.connectionId, c.openedAt, c.expiresAt, Active, 0, 0, s.bytes, 0, 0)
  }

  function WithTicket(a: ServerAttachment, t: TicketState): ServerAttachment {
    a.(tickets := a.tickets + [t])
  }

  lemma DispatchedIsValid(c: ClientAttachment, s: CandidateSignal)
    requires ValidClient(c) && c.stage == AwaitingCandidate && ValidSignal(s)
    ensures ValidClient(Dispatched(c, s)) && ValidTicket(NewTicket(c, s)) && Progresses(c, Dispatched(c, s))
    ensures Dispatched(c, s).stage == CandidateExchange && Dispatched(c, s).summaryEmitted == c.summaryEmitted
    ensures ValidClient(Dispatched(c, s).(framesForwarded := Dispatched(c, s).framesForwarded + 1))
  {
  }

  lemma WithTicketIsValid(a: ServerAttachment, t: TicketState)
    requires ValidServer(a) && ValidTicket(t) && |a.tickets| < MAX_RETAINED_TICKETS
    requires forall u :: u in a.tickets ==>
               u.ticketDigest != t.ticketDigest && u.clientConnectionId != t.clientConnectionId
    ensures ValidServer(WithTicket(a, t))
  {
    forall i, j | 0 <= i < j < |a.tickets + [t]|
      ensures (a.tickets + [t])[i].ticketDigest != (a.tickets + [t])[j].ticketDigest
      ensures (a.tickets + [t])[i].clientConnectionId != (a.tickets + [t])[j].clientConnectionId
    {
      assert a.tickets[i] in a.tickets;
    }
  }

  /** The first frame of a session fits the ticket opened for it. */
  lemma FirstFrameAffordable(frames: seq<Frame>, c: ClientAttachment, s: CandidateSignal, f: Frame)
    requires Untouched(frames, c.connectionId) && ValidSignal(s)
    requires f.kind == ClientCandidate && f.connectionId == c.connectionId && f.bytes == s.bytes
    ensures Affords(NewTicket(c, s), f, frames)
  {
    UntouchedCounts(frames, c.connectionId);
  }

  // ---- dispatching a first frame ------------------------------------------------------------------

  lemma CarriedSelf(servers: Servers)
    ensures TicketsCarried(servers, servers)
  {
    ShrunkSelf(servers);
    ShrunkCarries(servers, servers);
  }

  lemma AwaitingIsFresh(
    servers: Servers, clients: Clients, frames: seq<Frame>, issued: set<string>, id: SocketId)
    requires Consistent(servers, clients, frames, issued) && id in clients && clients[id].stored.Some?
    requires clients[id].stored.value.stage == AwaitingCandidate
    ensures Fresh(servers, frames, clients[id].stored.value.connectionId) && DistinctConnections(clients)
  {
  }

  lemma TicketsAreOthers(
    servers: Servers, frames: seq<Frame>, sid: SocketId, a: ServerAttachment, now: int, connectionId: string)
    requires Fresh(servers, frames, connectionId) && sid in servers && servers[sid].stored == Some(a)
    ensures forall t :: t in Pruned(a, now).tickets ==> t.clientConnectionId != connectionId
    ensures Untouched(frames, connectionId)
  {
    forall t | t in Pruned(a, now).tickets
      ensures t.clientConnectionId != connectionId
    {
      assert HasTicket(servers[sid], t);
    }
  }

  lemma DispatchKeepsRoom(
    servers: Servers, sessions: Clients, clients: Clients, id: SocketId, c: ClientAttachment, signal: CandidateSignal,
    frames: seq<Frame>, issued: set<string>)
    requires Consistent(servers, sessions, frames, issued) && id in sessions && sessions[id].stored == Some(c)
    requires c.stage == AwaitingCandidate && Fresh(servers, frames, c.connectionId)
    requires clients == sessions[id := sessions[id].(stored := Some(Dispatched(c, signal)))]
    ensures Consistent(servers, clients, frames, issued)
  {
    hide Consistent, Untouched, HasTicket;
    forall s, t | s in servers && HasTicket(servers[s], t)
      ensures Leads(servers[s], t, clients[id])
    {
    }
    ConsistentAfterClientWrite(servers, sessions, id, clients[id], frames, issued);
  }

  lemma PushKeepsRoom(
    servers: Servers, sessions: Clients, clients: Clients, id: SocketId, sid: SocketId, s: ServerSocket,
    a: ServerAttachment, c: ClientAttachment, signal: CandidateSignal, now: int, frames: seq<Frame>,
    issued: set<string>)
    requires Consistent(servers, clients, frames, issued) && DistinctConnections(sessions)
    requires id in sessions && sessions[id].stored == Some(c) && ValidSignal(signal) && ValidClient(c)
    requires c.stage == AwaitingCandidate && Fresh(servers, frames, c.connectionId)
    requires clients == sessions[id := sessions[id].(stored := Some(Dispatched(c, signal)))]
    requires sid in servers && servers[sid].stored == Some(a)
    requires s.stored == Some(WithTicket(Pruned(a, now), NewTicket(c, signal)))
    requires a.controlId == c.controlId && a.generation == c.generation
    ensures Consistent(servers[sid := s], clients, frames, issued)
  {
    var t := NewTicket(c, signal);
    hide Untouched, HasTicket, Accounted, WithinSessionLimits, Fresh;
    assert c.connectionId in issued by {
      assert clients[id].stored.value.connectionId == c.connectionId;
    }
    forall k | k in clients
      ensures Leads(s, t, clients[k]) && !AwaitsAs(clients[k], c.connectionId)
    {
    }
    NewTicketFits(servers, clients, sid, s, t, frames);
    hide Consistent, Fits;
    ConsistentAfterServerWrite(servers, clients, sid, s, t, frames, issued);
  }

  /** The control after the session's ticket was added to it. */
  function TicketAdded(s: ServerSocket, c: ClientAttachment, signal: CandidateSignal, now: int): ServerSocket
    requires s.stored.Some?
  {
    s.(stored := Some(WithTicket(Pruned(s.stored.value, now), NewTicket(c, signal))))
  }

  /** Everything the room relied on before the ticket was added still holds after it. */
  lemma AddingKeepsRoom(
    servers: Servers, sessions: Clients, clients: Clients, id: SocketId, sid: SocketId, c: ClientAttachment,
    signal: CandidateSignal, now: int, frames: seq<Frame>, issued: set<string>, pending: map<SocketId, Outcome>)
    requires id in sessions && sessions[id].stored == Some(c) && ValidSignal(signal) && ValidClient(c)
    requires c.stage == AwaitingCandidate
    requires clients == sessions[id := sessions[id].(stored := Some(Dispatched(c, signal)))]
    requires sid in servers && servers[sid].stored.Some?
    requires |Pruned(servers[sid].stored.value, now).tickets| < MAX_RETAINED_TICKETS
    requires forall t :: t in Pruned(servers[sid].stored.value, now).tickets ==> t.ticketDigest != signal.digest
    requires servers[sid].stored.value.controlId == c.controlId && servers[sid].stored.value.generation == c.generation
    ensures Adds(servers, sessions, clients, sid, c, signal, now, frames, issued, pending)
  {
    if Consistent(servers, clients, frames, issued) && DistinctConnections(sessions) && ReadableServers(servers) &&
       Fresh(servers, frames, c.connectionId) {
      var a := servers[sid].stored.value;
      var s := TicketAdded(servers[sid], c, signal, now);
      ReadAt(servers, sid);
      DispatchedIsValid(c, signal);
      PrunedIsValid(a, now);
      TicketsAreOthers(servers, frames, sid, a, now, c.connectionId);
      WithTicketIsValid(Pruned(a, now), NewTicket(c, signal));
      hide Consistent, ReadableServers, AtMostOneOwner, PendingOwned, ValidServer, ValidTicket, ValidClient, Fresh,
        Pruned;
      PushKeepsRoom(servers, sessions, clients, id, sid, s, a, c, signal, now, frames, issued);
      ReadableAfterServerWrite(servers, sid, s);
      SameClaimKeepsOwned(servers, sid, s, pending);
    }
  }

  ghost predicate Adds(
    servers: Servers, sessions: Clients, clients: Clients, sid: SocketId, c: ClientAttachment,
    signal: CandidateSignal, now: int, frames: seq<Frame>, issued: set<string>, pending: map<SocketId, Outcome>)
    requires sid in servers && servers[sid].stored.Some?
  {
    var after := servers[sid := TicketAdded(servers[sid], c, signal, now)];
    (Consistent(servers, clients, frames, issued) && DistinctConnections(sessions) && ReadableServers(servers) &&
     Fresh(servers, frames, c.connectionId)) ==>
      && ValidServer(after[sid].stored.value) && Consistent(after, clients, frames, issued) && ReadableServers(after)
      && (AtMostOneOwner(servers) ==> AtMostOneOwner(after))
      && (PendingOwned(servers, pending) ==> PendingOwned(after, pending))
  }

  /** The frame a dispatched candidate becomes. */
  function CandidateFrame(
    c: ClientAttachment, a: ServerAttachment, signal: CandidateSignal, generation: Option<string>): Frame
  {
    Frame(ClientCandidate, c.connectionId, signal.bytes, c.controlId, c.generation, signal.digest,
          a.controlId, a.generation, NewTicket(c, signal).ticketDigest, generation)
  }

  /** Exactly one frame was added to the history. */
  predicate OneFrame(before: seq<Frame>, after: seq<Frame>, kind: FrameKind, connectionId: string) {
    |after| == |before| + 1 && after[..|before|] == before && after[|before|].kind == kind &&
    after[|before|].connectionId == connectionId
  }

  /** Exactly the session's candidate went out. */
  predicate CandidateSent(before: seq<Frame>, after: seq<Frame>, c: ClientAttachment, s: CandidateSignal) {
    && |after| == |before| + 1 && after[..|before|] == before
    && after[|before|].kind == ClientCandidate && after[|before|].connectionId == c.connectionId
    && after[|before|].bytes == s.bytes && after[|before|].serverControl == c.controlId
  }

  /** The session once its candidate went out: its ticket known, one candidate and its bytes counted, one frame sent. */
  predicate Opened(after: ClientAttachment, c: ClientAttachment, s: CandidateSignal) {
    && after.stage == CandidateExchange && after.authorization == NotRequired
    && after.ticket == Some(s.ticket) && after.ticketDigest == Some(s.digest)
    && after.clientCandidates == 1 && after.serverCandidates == c.serverCandidates && after.signalBytes == s.bytes
    && after.framesForwarded == c.framesForwarded + 1
    && SameSession(c, after) && after.expiresAt == c.expiresAt && after.boundTicketHash == c.boundTicketHash
    && after.terminalOutcome == c.terminalOutcome && after.summaryEmitted == c.summaryEmitted
  }

  /** The control once the ticket is its: the unexpired tickets it had and the session's own, active and uncharged. */
  ghost predicate TicketOpened(
    after: ServerAttachment, a: ServerAttachment, c: ClientAttachment, s: CandidateSignal, now: int)
  {
    && after == a.(tickets := after.tickets)
    && forall t :: t in after.tickets <==>
         (t in a.tickets && now < t.expiresAt) ||
         t == TicketState(s.digest, c.connectionId, c.openedAt, c.expiresAt, Active, 0, 0, s.bytes, 0, 0)
  }

  /** The control's unexpired tickets leave a slot, and none of them has the digest. */
  predicate SlotFree(a: ServerAttachment, digest: string, now: int) {
    && |PrunedTickets(a.tickets, now)| < MAX_RETAINED_TICKETS
    && forall t :: t in a.tickets && now < t.expiresAt ==> t.ticketDigest != digest
  }

  /** A candidate that went out: its session opened, its ticket the control's, and nothing else touched. */
  ghost predicate SessionOpened(
    id: SocketId, sid: SocketId, c: ClientAttachment, a: ServerAttachment, s: CandidateSignal, now: int, was: Servers,
    servers: Servers, sessions: Clients, clients: Clients, sent: seq<Frame>, frames: seq<Frame>)
  {
    && CandidateSent(sent, frames, c, s)
    && id in sessions && id in clients && clients[id].stored.Some? && Opened(clients[id].stored.value, c, s)
    && clients == sessions[id := sessions[id].(stored := clients[id].stored)]
    && sid in was && sid in servers && servers[sid].stored.Some?
    && TicketOpened(servers[sid].stored.value, a, c, s, now)
    && servers == was[sid := was[sid].(stored := servers[sid].stored)]
  }

  /** The candidate proves its session: hashed to what was admitted, still live, and under the grant it was held for. */
  predicate Proven(c: ClientAttachment, snapshot: ClientAttachment, s: CandidateSignal, live: bool) {
    && live && c.boundTicketHash == Some(s.boundHash)
    && (snapshot.accessRedemption == None ||
        (c.accessRedemption == snapshot.accessRedemption && c.accessGrant == Some(s.ticket)))
  }

  /** The control is the session's own, at the room's generation. */
  predicate Serves(control: Option<ServerAttachment>, c: ClientAttachment, generation: Option<string>) {
    && control.Some? && control.value.controlId == c.controlId && control.value.generation == c.generation
    && generation == Some(c.generation)
  }

  /**
   What a candidate does to its session when writes succeed. A proven one of an
   open, waiting, unexpired session goes to the session's own control, if a slot
   is free; any other ends the session, by the first of these it lacks.
   */
  ghost predicate CandidateHandled(
    id: SocketId, sid: SocketId, c: ClientAttachment, control: Option<ServerAttachment>, snapshot: ClientAttachment,
    s: CandidateSignal, live: bool, now: int, generation: Option<string>, was: Servers, servers: Servers,
    sessions: Clients, clients: Clients, sent: seq<Frame>, frames: seq<Frame>, owed: map<SocketId, Outcome>,
    lossy: bool)
  {
    && id in sessions && id in clients
    && var waiting := c.stage == AwaitingCandidate && c.authorization == NotRequired;
       var same := c.connectionId == snapshot.connectionId;
       if Proven(c, snapshot, s, live) && sessions[id].open && same && waiting && now < c.expiresAt
          && Serves(control, c, generation) && SlotFree(control.value, s.digest, now)
       then !lossy ==> SessionOpened(id, sid, c, control.value, s, now, was, servers, sessions, clients, sent, frames)
       else
         && frames == sent
         && EndedAs(clients[id].stored, c, Verdict(c.terminalOutcome, owed, id,
              if !Proven(c, snapshot, s, live) then AuthorizationFailed
              else if !sessions[id].open then ClientDisconnected
              else if !same then InternalError
              else if !waiting then ProtocolError
              else if now >= c.expiresAt then SessionExpired
              else if !Serves(control, c, generation) then ServerUnavailable
              else ProtocolError))
  }

  lemma DispatchMeans(c: ClientAttachment, s: CandidateSignal)
    ensures var after := Dispatched(c, s).(framesForwarded := Dispatched(c, s).framesForwarded + 1);
            Opened(after, c, s)
  {
  }

  lemma TicketMeans(a: ServerAttachment, c: ClientAttachment, s: CandidateSignal, now: int)
    ensures TicketOpened(WithTicket(Pruned(a, now), NewTicket(c, s)), a, c, s, now)
  {
  }

  lemma PrunedControl(a: ServerAttachment, now: int)
    ensures Pruned(a, now).controlId == a.controlId && Pruned(a, now).generation == a.generation
    ensures Pruned(a, now).tickets == PrunedTickets(a.tickets, now)
  {
  }

  lemma OpenedTogether(
    id: SocketId, sid: SocketId, c: ClientAttachment, a: ServerAttachment, s: CandidateSignal, now: int, was: Servers,
    servers: Servers, sessions: Clients, exchange: Clients, clients: Clients, sent: seq<Frame>, frames: seq<Frame>)
    requires id in sessions && sid in was && was[sid].stored == Some(a) && CandidateSent(sent, frames, c, s)
    requires servers == was[sid := TicketAdded(was[sid], c, s, now)]
    requires exchange == sessions[id := sessions[id].(stored := Some(Dispatched(c, s)))]
    requires clients == exchange[id := exchange[id].(stored :=
               Some(Dispatched(c, s).(framesForwarded := Dispatched(c, s).framesForwarded + 1)))]
    ensures SessionOpened(id, sid, c, a, s, now, was, servers, sessions, clients, sent, frames)
  {
    hide Dispatched, WithTicket, NewTicket, Opened, TicketOpened, CandidateSent;
    DispatchMeans(c, s);
    TicketMeans(a, c, s, now);
  }

  lemma CandidateIsSent(
    frames: seq<Frame>, c: ClientAttachment, a: ServerAttachment, s: CandidateSignal, generation: Option<string>)
    ensures a.controlId == c.controlId ==> CandidateSent(frames, frames + [CandidateFrame(c, a, s, generation)], c, s)
  {
  }

  /** Exactly one frame went out, to this connection, of the signal's kind and size. */
  predicate Relayed(before: seq<Frame>, after: seq<Frame>, connectionId: string, s: ServerSignal) {
    && |after| == |before| + 1 && after[..|before|] == before
    && after[|before|].connectionId == connectionId && after[|before|].bytes == s.bytes
    && after[|before|].kind == (if s.complete then Completion else ServerCandidate)
  }

  /**
   What a frame from a control does to the room. Beyond its ticket's budget the
   control loses its claim and every session ends; within it the control keeps
   the claim, and if nothing fails exactly this frame leaves, its ticket is
   charged once, and its session goes on by one frame or ends completed.
   */
  ghost predicate FrameHandled(
    sid: SocketId, tid: SocketId, t: TicketState, c: ClientAttachment, s: ServerSignal, was: Servers, servers: Servers,
    sessions: Clients, clients: Clients, sent: seq<Frame>, frames: seq<Frame>, owed: map<SocketId, Outcome>,
    unowed: bool, faulty: bool, lossy: bool)
  {
    && sid in was && sid in servers && tid in clients
    && (!HasRoomFor(t, s) ==> frames == sent)
    && (!HasRoomFor(t, s) && !faulty ==>
         && !Holds(servers[sid])
         && (was[sid].stored.Some? && was[sid].stored.value.current ==>
               && (forall id :: id in clients && clients[id].stored.Some? ==>
                     clients[id].stored.value.stage == Terminal)
               && (unowed ==> AllEnded(sessions, clients, owed, ProtocolError))))
    && (HasRoomFor(t, s) && !faulty ==>
         && servers[sid].open == was[sid].open && servers[sid].stored.Some? && was[sid].stored.Some?
         && servers[sid].stored.value.current == was[sid].stored.value.current)
    && (HasRoomFor(t, s) && !faulty && !lossy ==>
         && Relayed(sent, frames, c.connectionId, s)
         && AfterFrame(t, s) in servers[sid].stored.value.tickets
         && if s.complete then
              EndedAs(clients[tid].stored, CountedFrame(c, AfterFrame(t, s)),
                      Verdict(c.terminalOutcome, owed, tid, Completed))
            else
              && clients[tid].stored == Some(CountedFrame(c, AfterFrame(t, s)))
              && forall id :: id in sessions && id != tid ==> id in clients && clients[id] == sessions[id])
  }

  /** A ticket the completion spent stays as charged when the session's tickets are marked. */
  lemma SpentStays(s: ServerSocket, after: ServerSocket, a: ServerAttachment, k: nat, signal: ServerSignal)
    requires k < |a.tickets| && SocketMarked(s.(stored := Some(ControlAfterFrame(a, k, signal))), after)
    ensures after.stored.Some?
    ensures signal.complete ==> AfterFrame(a.tickets[k], signal) in after.stored.value.tickets
  {
    hide AfterFrame;
    AfterIsSpent(a.tickets[k], signal);
    assert ControlAfterFrame(a, k, signal).tickets[k] == AfterFrame(a.tickets[k], signal);
    assert signal.complete ==> after.stored.value.tickets[k] == AfterFrame(a.tickets[k], signal);
  }

  lemma AfterIsSpent(t: TicketState, s: ServerSignal)
    ensures s.complete ==> AfterFrame(t, s).stage == Spent
  {
  }

  lemma ChargedIsIn(a: ServerAttachment, k: nat, s: ServerSignal)
    requires k < |a.tickets|
    ensures AfterFrame(a.tickets[k], s) in ControlAfterFrame(a, k, s).tickets
  {
    hide AfterFrame;
    assert ControlAfterFrame(a, k, s).tickets[k] == AfterFrame(a.tickets[k], s);
  }

  lemma CandidateFrameKeepsRoom(
    servers: Servers, clients: Clients, sid: SocketId, a: ServerAttachment, c: ClientAttachment,
    signal: CandidateSignal, generation: Option<string>, frames: seq<Frame>, issued: set<string>)
    requires Consistent(servers, clients, frames, issued) && sid in servers && ValidSignal(signal)
    requires servers[sid].stored == Some(WithTicket(a, NewTicket(c, signal)))
    requires DistinctTickets(WithTicket(a, NewTicket(c, signal)).tickets) && Untouched(frames, c.connectionId)
    requires a.controlId == c.controlId && a.generation == c.generation && Some(c.generation) == generation
    ensures Consistent(servers, clients, frames + [CandidateFrame(c, a, signal, generation)], issued)
    ensures OneFrame(frames, frames + [CandidateFrame(c, a, signal, generation)], ClientCandidate, c.connectionId)
  {
    var t := NewTicket(c, signal);
    var f := CandidateFrame(c, a, signal, generation);
    assert t in WithTicket(a, t).tickets;
    assert HasTicket(servers[sid], t);
    FirstFrameAffordable(frames, c, signal, f);
    hide Consistent, Affords, Untouched, HasTicket;
    ConsistentAfterFrame(servers, clients, sid, t, f, frames, issued);
  }

  lemma CountedFrameKeepsRoom(
    servers: Servers, clients: Clients, id: SocketId, c: ClientAttachment, c': ClientAttachment, frames: seq<Frame>,
    issued: set<string>)
    requires Consistent(servers, clients, frames, issued) && id in clients && clients[id].stored == Some(c)
    requires c.stage == CandidateExchange && c' == c.(framesForwarded := c'.framesForwarded)
    ensures Consistent(servers, clients[id := clients[id].(stored := Some(c'))], frames, issued)
  {
    hide Covers, Fresh, HasTicket, WithinSessionLimits, Issued, DistinctConnections;
    forall s, t | s in servers && HasTicket(servers[s], t)
      ensures Leads(servers[s], t, clients[id].(stored := Some(c')))
    {
      assert Leads(servers[s], t, clients[id]);
    }
    hide Consistent, Accounted, Leads;
    ConsistentAfterClientWrite(servers, clients, id, clients[id].(stored := Some(c')), frames, issued);
  }

  // ---- frames from the control ------------------------------------------------------------------

  /** A frame from the control: a candidate or the completion, its ticket, the digest of it and its size. */
  datatype ServerSignal = ServerSignal(complete: bool, ticket: string, digest: string, bytes: int)

  predicate ValidServerSignal(s: ServerSignal) {
    Hex64(s.ticket) && Hex64(s.digest) && 1 <= s.bytes <= MAX_SIGNAL_BYTES
  }

  /** The ticket's budget after one more frame, if it is affordable. */
  function Charge(t: TicketState, s: ServerSignal): Option<TicketState> {
    if t.signalBytes + s.bytes > MAX_SESSION_SIGNAL_BYTES then None
    else if !s.complete then
      if t.serverCandidates >= MAX_SERVER_CANDIDATES then None
      else Some(t.(serverCandidates := t.serverCandidates + 1, signalBytes := t.signalBytes + s.bytes))
    else
      if t.completionCount >= MAX_COMPLETIONS then None
      else Some(t.(completionCount := t.completionCount + 1, signalBytes := t.signalBytes + s.bytes))
  }

  /** The ticket's own counters leave room for the frame: bytes, twelve candidates, one completion. */
  predicate HasRoomFor(t: TicketState, s: ServerSignal) {
    t.signalBytes + s.bytes <= 9216 && (if s.complete then t.completionCount < 1 else t.serverCandidates < 12)
  }

  /** The ticket after the frame: its kind is counted once, its bytes are added, and a completion spends it. */
  function AfterFrame(t: TicketState, s: ServerSignal): TicketState {
    t.(signalBytes := t.signalBytes + s.bytes,
       serverCandidates := if s.complete then t.serverCandidates else t.serverCandidates + 1,
       completionCount := if s.complete then t.completionCount + 1 else t.completionCount,
       stage := if s.complete then Spent else t.stage)
  }

  /** A frame is charged exactly within the budget, and then counted once. */
  lemma ChargeMeans(t: TicketState, s: ServerSignal)
    ensures Charge(t, s).Some? <==> HasRoomFor(t, s)
    ensures Charge(t, s).Some? ==> SpentIf(Charge(t, s).value, s.complete) == AfterFrame(t, s)
  {
  }

  /** The session's attachment after a candidate from its control: its ticket's counters and one frame more. */
  function CountedFrame(c: ClientAttachment, t: TicketState): ClientAttachment {
    c.(clientAuthorizationFrames := t.clientAuthorizationFrames,
       serverAuthorizationFrames := t.serverAuthorizationFrames, serverCandidates := t.serverCandidates,
       completionCount := t.completionCount, signalBytes := t.signalBytes, framesForwarded := c.framesForwarded + 1)
  }

  /** The control with one of its tickets charged for a frame. */
  function ControlAfterFrame(a: ServerAttachment, k: nat, s: ServerSignal): ServerAttachment
    requires k < |a.tickets|
  {
    a.(tickets := a.tickets[k := AfterFrame(a.tickets[k], s)])
  }

  lemma RechargeMeans(a: ServerAttachment, k: nat, s: ServerSignal)
    requires k < |a.tickets| && Charge(a.tickets[k], s).Some?
    ensures Recharged(a, k, SpentIf(Charge(a.tickets[k], s).value, s.complete)) == ControlAfterFrame(a, k, s)
    ensures ControlAfterFrame(a, k, s).current == a.current
  {
  }

  lemma CopyMeans(c: ClientAttachment, t: TicketState, s: ServerSignal)
    requires Charge(t, s).Some?
    ensures var copied := CopiedBudget(c, SpentIf(Charge(t, s).value, s.complete));
            copied.(framesForwarded := copied.framesForwarded + 1) == CountedFrame(c, AfterFrame(t, s))
  {
  }

  function SpentIf(t: TicketState, spent: bool): TicketState {
    if spent then t.(stage := Spent) else t
  }

  lemma ChargedIsValid(t: TicketState, s: ServerSignal, spent: bool)
    requires ValidTicket(t) && ValidServerSignal(s) && Charge(t, s).Some? && (s.complete ==> spent)
    ensures ValidTicket(SpentIf(Charge(t, s).value, spent)) && Charges(t, SpentIf(Charge(t, s).value, spent))
  {
  }

  function Recharged(a: ServerAttachment, k: nat, t: TicketState): ServerAttachment
    requires k < |a.tickets|
  {
    a.(tickets := a.tickets[k := t])
  }

  lemma RechargedIsValid(a: ServerAttachment, k: nat, t: TicketState)
    requires ValidServer(a) && k < |a.tickets| && ValidTicket(t)
    requires t.ticketDigest == a.tickets[k].ticketDigest
    requires t.clientConnectionId == a.tickets[k].clientConnectionId
    ensures ValidServer(Recharged(a, k, t))
  {
  }

  /** The handler's copy of a control: claims and identity as stored, tickets only dropped. */
  ghost predicate CopyOf(stored: ServerSocket, a: ServerAttachment) {
    && stored.stored.Some? && SameControl(stored.stored.value, a) && a.current == stored.stored.value.current
    && ValidServer(a) && forall t :: t in a.tickets ==> t in stored.stored.value.tickets
  }

  lemma PrunedIsCopy(s: ServerSocket, now: int)
    requires s.stored.Some? && ValidServer(s.stored.value)
    ensures CopyOf(s, Pruned(s.stored.value, now)) && CopyOf(s, s.stored.value)
  {
    PrunedIsValid(s.stored.value, now);
  }

  lemma CopyShrinks(s: ServerSocket, a: ServerAttachment)
    requires CopyOf(s, a)
    ensures AttachmentShrunk(s.stored.value, a) && ValidServer(a)
  {
  }

  /** Writing a recharged copy keeps every account of the room. */
  ghost predicate RechargeKeeps(
    servers: Servers, clients: Clients, sid: SocketId, a: ServerAttachment, k: nat, u: TicketState,
    frames: seq<Frame>, issued: set<string>, pending: map<SocketId, Outcome>)
    requires sid in servers && k < |a.tickets|
  {
    var after := servers[sid := servers[sid].(stored := Some(Recharged(a, k, u)))];
    (Consistent(servers, clients, frames, issued) && ReadableServers(servers) && CopyOf(servers[sid], a)) ==>
      && ValidServer(Recharged(a, k, u)) && Consistent(after, clients, frames, issued) && ReadableServers(after)
      && (AtMostOneOwner(servers) ==> AtMostOneOwner(after))
      && (PendingOwned(servers, pending) ==> PendingOwned(after, pending))
  }

  lemma RechargedCarries(s: ServerSocket, a: ServerAttachment, k: nat, signal: ServerSignal, spent: bool)
    requires CopyOf(s, a) && k < |a.tickets| && ValidServerSignal(signal) && Charge(a.tickets[k], signal).Some?
    requires signal.complete ==> spent
    ensures var u := SpentIf(Charge(a.tickets[k], signal).value, spent);
            var after := s.(stored := Some(Recharged(a, k, u)));
            && HasTicket(s, a.tickets[k]) && Charges(a.tickets[k], u) && Carries(s, after, u)
            && ValidServer(Recharged(a, k, u)) && a.current == s.stored.value.current
            && SameControl(s.stored.value, Recharged(a, k, u)) && Recharged(a, k, u).current == a.current
  {
    assert a.tickets[k] in a.tickets;
    ChargedIsValid(a.tickets[k], signal, spent);
    RechargedIsValid(a, k, SpentIf(Charge(a.tickets[k], signal).value, spent));
  }

  lemma RechargingKeepsRoom(
    servers: Servers, clients: Clients, sid: SocketId, a: ServerAttachment, k: nat, signal: ServerSignal, spent: bool,
    frames: seq<Frame>, issued: set<string>, pending: map<SocketId, Outcome>)
    requires sid in servers && k < |a.tickets| && ValidServerSignal(signal) && Charge(a.tickets[k], signal).Some?
    requires signal.complete ==> spent
    ensures RechargeKeeps(servers, clients, sid, a, k, SpentIf(Charge(a.tickets[k], signal).value, spent), frames,
                          issued, pending)
  {
    hide Consistent, ReadableServers, AtMostOneOwner, PendingOwned, ValidServer, ValidTicket, Carries, Fits, Recharged,
      Charge, CopyOf, HasTicket, Charges;
    if Consistent(servers, clients, frames, issued) && ReadableServers(servers) && CopyOf(servers[sid], a) {
      var t := a.tickets[k];
      var u := SpentIf(Charge(t, signal).value, spent);
      var s := servers[sid].(stored := Some(Recharged(a, k, u)));
      RechargedCarries(servers[sid], a, k, signal, spent);
      TicketIsStored(servers[sid], t);
      ChargedTicketFits(servers, clients, sid, s, t, u, frames, issued);
      ConsistentAfterServerWrite(servers, clients, sid, s, u, frames, issued);
      ReadableAfterServerWrite(servers, sid, s);
      SameClaimKeepsOwned(servers, sid, s, pending);
    }
  }

  lemma TicketIsStored(s: ServerSocket, t: TicketState)
    ensures HasTicket(s, t) ==> s.stored.Some?
  {
  }

  /** The session's copy of the ticket's budget. */
  function CopiedBudget(c: ClientAttachment, t: TicketState): ClientAttachment {
    c.(clientAuthorizationFrames := t.clientAuthorizationFrames,
       serverAuthorizationFrames := t.serverAuthorizationFrames, serverCandidates := t.serverCandidates,
       completionCount := t.completionCount, signalBytes := t.signalBytes)
  }

  /** A live session and the ticket the control answers it with. */
  ghost predicate Matched(c: ClientAttachment, a: ServerAttachment, t: TicketState) {
    && ValidClient(c) && c.stage == CandidateExchange && t.stage == Active && ValidTicket(t)
    && c.connectionId == t.clientConnectionId && c.ticketDigest == Some(t.ticketDigest)
    && c.controlId == a.controlId && c.generation == a.generation && c.serverCandidates <= t.serverCandidates
  }

  lemma CopiedIsValid(c: ClientAttachment, a: ServerAttachment, t: TicketState, s: ServerSignal)
    requires Matched(c, a, t) && ValidServerSignal(s) && Charge(t, s).Some?
    ensures var c' := CopiedBudget(c, SpentIf(Charge(t, s).value, s.complete));
            && (!s.complete ==> ValidClient(c') && ValidClient(c'.(framesForwarded := c'.framesForwarded + 1)))
            && Endable(c') && Endable(c'.(framesForwarded := c'.framesForwarded + 1))
            && SameSession(c, c') && c'.summaryEmitted == c.summaryEmitted && c.stage == c'.stage == CandidateExchange
  {
  }

  /** The frame handed to the client. */
  function AnswerFrame(
    c: ClientAttachment, a: ServerAttachment, t: TicketState, s: ServerSignal, generation: Option<string>): Frame
  {
    Frame(if s.complete then Completion else ServerCandidate, c.connectionId, s.bytes, c.controlId, c.generation,
          if c.ticketDigest.Some? then c.ticketDigest.value else "", a.controlId, a.generation, t.ticketDigest,
          generation)
  }

  lemma AnswerAffordable(
    c: ClientAttachment, a: ServerAttachment, t: TicketState, s: ServerSignal, generation: Option<string>,
    frames: seq<Frame>)
    requires Matched(c, a, t) && Covers(t, frames) && ValidServerSignal(s) && Charge(t, s).Some?
    requires Some(c.generation) == generation
    ensures Affords(SpentIf(Charge(t, s).value, s.complete), AnswerFrame(c, a, t, s, generation), frames)
    ensures Routed(AnswerFrame(c, a, t, s, generation))
  {
    hide CountOf, BytesOf;
  }

  /** Forwarding an answer keeps every account of the room. */
  lemma AnswerKeepsRoom(
    servers: Servers, clients: Clients, sid: SocketId, a: ServerAttachment, k: nat, c: ClientAttachment,
    s: ServerSignal, generation: Option<string>, frames: seq<Frame>, issued: set<string>)
    requires k < |a.tickets| && Matched(c, a, a.tickets[k]) && Covers(a.tickets[k], frames)
    requires ValidServerSignal(s) && Charge(a.tickets[k], s).Some? && Some(c.generation) == generation
    requires sid in servers && servers[sid].stored ==
             Some(Recharged(a, k, SpentIf(Charge(a.tickets[k], s).value, s.complete)))
    requires ValidServer(servers[sid].stored.value) && Consistent(servers, clients, frames, issued)
    ensures Consistent(servers, clients, frames + [AnswerFrame(c, a, a.tickets[k], s, generation)], issued)
  {
    var u := SpentIf(Charge(a.tickets[k], s).value, s.complete);
    assert servers[sid].stored.value.tickets[k] == u;
    assert HasTicket(servers[sid], u);
    AnswerAffordable(c, a, a.tickets[k], s, generation, frames);
    ChargedIsValid(a.tickets[k], s, s.complete);
    hide Consistent, Affords, Covers, HasTicket, Matched;
    ConsistentAfterFrame(servers, clients, sid, u, AnswerFrame(c, a, a.tickets[k], s, generation), frames, issued);
  }

  /** The session's copied budget never runs ahead of its ticket. */
  lemma CopyKeepsRoom(
    servers: Servers, clients: Clients, sid: SocketId, a: ServerAttachment, t: TicketState, tid: SocketId,
    c: ClientAttachment, c': ClientAttachment, frames: seq<Frame>, issued: set<string>)
    requires Consistent(servers, clients, frames, issued) && tid in clients && clients[tid].stored == Some(c)
    requires sid in servers && servers[sid].stored == Some(a) && t in a.tickets && DistinctTickets(a.tickets)
    requires c.stage == CandidateExchange && t.clientConnectionId == c.connectionId
    requires c' == CopiedBudget(c, t).(framesForwarded := c'.framesForwarded)
    ensures Consistent(servers, clients[tid := clients[tid].(stored := Some(c'))], frames, issued)
  {
    var after := clients[tid].(stored := Some(c'));
    forall s, u | s in servers && HasTicket(servers[s], u)
      ensures Leads(servers[s], u, after)
    {
      assert Leads(servers[s], u, clients[tid]);
      if u.clientConnectionId == c.connectionId {
        assert HasTicket(servers[sid], t);
        assert s == sid;
        OneTicket(a.tickets, t, u);
      }
    }
    hide Consistent, Leads, HasTicket, DistinctTickets;
    ConsistentAfterClientWrite(servers, clients, tid, after, frames, issued);
  }

  lemma CopyClaims(s: ServerSocket, a: ServerAttachment)
    requires CopyOf(s, a)
    ensures s.stored.Some? && a.current == s.stored.value.current
  {
  }

  lemma CoveredTicket(
    servers: Servers, clients: Clients, frames: seq<Frame>, issued: set<string>, sid: SocketId, a: ServerAttachment,
    k: nat)
    requires Consistent(servers, clients, frames, issued) && sid in servers && CopyOf(servers[sid], a) &&
        k < |a.tickets|
    ensures Covers(a.tickets[k], frames)
  {
    hide Covers;
    assert a.tickets[k] in a.tickets;
    assert HasTicket(servers[sid], a.tickets[k]);
  }

  lemma AnswerIsOne(
    c: ClientAttachment, a: ServerAttachment, t: TicketState, s: ServerSignal, generation: Option<string>,
    frames: seq<Frame>)
    ensures OneFrame(frames, frames + [AnswerFrame(c, a, t, s, generation)],
                     if s.complete then Completion else ServerCandidate, c.connectionId)
    ensures Relayed(frames, frames + [AnswerFrame(c, a, t, s, generation)], c.connectionId, s)
  {
  }

  lemma CopyEnds(c: ClientAttachment, t: TicketState, s: ServerSignal)
    requires Charge(t, s).Some?
    ensures CopiedBudget(c, SpentIf(Charge(t, s).value, s.complete)).terminalOutcome == c.terminalOutcome
  {
  }

  lemma SameSessionAs(clients: Clients, tid: SocketId, c: ClientAttachment, c': ClientAttachment)
    requires tid in clients && SameSession(c, c') && c'.summaryEmitted == c.summaryEmitted
    requires clients[tid].stored == Some(c) || clients[tid].stored == Some(c')
    ensures clients[tid].stored.Some? && SameSession(clients[tid].stored.value, c')
    ensures clients[tid].stored.value.summaryEmitted == c'.summaryEmitted
    ensures SameSession(clients[tid].stored.value, c'.(framesForwarded := c'.framesForwarded + 1))
  {
  }

  lemma CopyKeepsRecharged(
    servers: Servers, clients: Clients, sid: SocketId, a: ServerAttachment, k: nat, tid: SocketId,
    c: ClientAttachment, signal: ServerSignal, frames: seq<Frame>, issued: set<string>)
    requires Consistent(servers, clients, frames, issued) && tid in clients && clients[tid].stored == Some(c)
    requires k < |a.tickets| && Matched(c, a, a.tickets[k]) && ValidServerSignal(signal)
    requires Charge(a.tickets[k], signal).Some? && sid in servers
    requires servers[sid].stored ==
             Some(Recharged(a, k, SpentIf(Charge(a.tickets[k], signal).value, signal.complete)))
    requires ValidServer(servers[sid].stored.value)
    ensures Consistent(servers, clients[tid := clients[tid].(stored :=
              Some(CopiedBudget(c, SpentIf(Charge(a.tickets[k], signal).value, signal.complete))))], frames, issued)
  {
    var u := SpentIf(Charge(a.tickets[k], signal).value, signal.complete);
    assert servers[sid].stored.value.tickets[k] == u;
    ChargedIsValid(a.tickets[k], signal, signal.complete);
    hide Consistent;
    CopyKeepsRoom(servers, clients, sid, servers[sid].stored.value, u, tid, c, CopiedBudget(c, u), frames, issued);
  }

  /** Only an exchange can answer to a stored ticket, and it names the same control and digest. */
  lemma TicketedSession(
    servers: Servers, clients: Clients, frames: seq<Frame>, issued: set<string>, sid: SocketId, t: TicketState,
    tid: SocketId)
    requires Consistent(servers, clients, frames, issued) && sid in servers && HasTicket(servers[sid], t)
    requires tid in clients && clients[tid].stored.Some? && clients[tid].stored.value.stage != Terminal
    requires clients[tid].stored.value.connectionId == t.clientConnectionId
    ensures clients[tid].stored.value.stage == CandidateExchange
    ensures Leads(servers[sid], t, clients[tid])
  {
    hide Covers, Untouched, HasTicket;
    TicketedNeverAwaits(servers, clients, frames, sid, t, tid);
  }

  lemma MatchedSession(
    servers: Servers, clients: Clients, frames: seq<Frame>, issued: set<string>, sid: SocketId, a: ServerAttachment,
    k: nat, tid: SocketId)
    requires Consistent(servers, clients, frames, issued) && sid in servers && CopyOf(servers[sid], a)
    requires k < |a.tickets| && a.tickets[k].stage == Active && ReadableClients(clients)
    requires tid in clients && clients[tid].stored.Some? && clients[tid].stored.value.stage != Terminal
    requires clients[tid].stored.value.connectionId == a.tickets[k].clientConnectionId
    ensures Matched(clients[tid].stored.value, a, a.tickets[k])
  {
    var t := a.tickets[k];
    assert t in a.tickets;
    assert HasTicket(servers[sid], t) && ValidTicket(t);
    assert ValidClient(clients[tid].stored.value);
    hide Consistent, HasTicket, ValidTicket, ValidClient, ReadableClients;
    TicketedSession(servers, clients, frames, issued, sid, t, tid);
  }

  // ---- confirming a grant -----------------------------------------------------------------------

  /** The session once its grant is confirmed: bounded by the policy and by the grant itself. */
  function Confirmed(c: ClientAttachment, sessionMs: int): ClientAttachment
    requires c.accessExpiresAt.Some?
  {
    var policy := c.openedAt + sessionMs;
    c.(authorization := NotRequired,
       expiresAt := if policy < c.accessExpiresAt.value then policy else c.accessExpiresAt.value)
  }

  lemma ConfirmedIsValid(c: ClientAttachment, sessionMs: int)
    requires ValidClient(c) && c.stage == AwaitingCandidate && c.accessRedemption.Some?
    requires 0 < sessionMs <= MAX_SESSION_MS && c.openedAt + MAX_SESSION_MS <= MAX_SAFE_INTEGER - RETRY_HORIZON_MS
    ensures c.accessExpiresAt.Some? && ValidClient(Confirmed(c, sessionMs)) && SameSession(c, Confirmed(c, sessionMs))
    ensures Confirmed(c, sessionMs).stage == c.stage && Confirmed(c, sessionMs).summaryEmitted == c.summaryEmitted
  {
  }

  /** A waiting session may change anything but its identity without touching the accounts. */
  lemma WaitingKeepsRoom(
    servers: Servers, clients: Clients, id: SocketId, c: ClientAttachment, c': ClientAttachment, frames: seq<Frame>,
    issued: set<string>)
    requires Consistent(servers, clients, frames, issued) && id in clients && clients[id].stored == Some(c)
    requires c.stage == AwaitingCandidate && c'.stage == AwaitingCandidate && SameSession(c, c')
    ensures Consistent(servers, clients[id := clients[id].(stored := Some(c'))], frames, issued)
  {
    hide Consistent, HasTicket;
    ConsistentAfterClientWrite(servers, clients, id, clients[id].(stored := Some(c')), frames, issued);
  }

  // ---- admitting a client -------------------------------------------------------------------------

  /** A redeemed grant: when it ends and what it was redeemed as. */
  datatype Redemption = Redemption(expiresAt: int, id: string)

  datatype Admission = Admission(
    controlId: string, generation: string, connectionId: string, admissionId: int, ticket: string,
    boundHash: string, clientNonce: Option<string>, redemption: Option<Redemption>)

  /** Values the room draws, derives or validated before it admits a client. */
  predicate ValidAdmission(m: Admission) {
    && ConnectionId(m.controlId) && Hex64(m.generation) && ConnectionId(m.connectionId)
    && 1 <= m.admissionId <= MAX_SAFE_INTEGER && Hex64(m.ticket) && Hex64(m.boundHash)
    && (m.clientNonce.Some? <==> m.redemption.Some?) && (m.clientNonce.Some? ==> Hex64(m.clientNonce.value))
    && (m.redemption.Some? ==> Hex64(m.redemption.value.id))
  }

  function Admitted(m: Admission, now: int, sessionMs: int): ClientAttachment {
    var limit := now + (if m.redemption.Some? then 2000 else sessionMs);
    ClientAttachment(
      m.controlId, m.generation, m.connectionId, m.admissionId, now,
      if m.redemption.Some? && m.redemption.value.expiresAt < limit then m.redemption.value.expiresAt else limit,
      Some(m.boundHash), m.clientNonce,
      if m.redemption.Some? then Some(m.redemption.value.expiresAt) else None,
      if m.redemption.Some? then Some(m.ticket) else None,
      if m.redemption.Some? then Some(m.redemption.value.id) else None,
      None, None, AwaitingCandidate, if m.redemption.Some? then AwaitingInit else NotRequired,
      0, 0, 0, 0, 0, 0, 0, true, None, 0)
  }

  /** How long an admission lasts: a session's length, or two seconds to confirm a grant that may end sooner. */
  lemma AdmittedMeans(m: Admission, now: int, sessionMs: int)
    ensures var c := Admitted(m, now, sessionMs);
            && c.stage == AwaitingCandidate && c.openedAt == now && c.summaryEmitted
            && (m.redemption.None? ==> c.authorization == NotRequired && c.expiresAt == now + sessionMs)
            && (m.redemption.Some? ==>
                 && c.authorization == AwaitingInit && c.accessGrant == Some(m.ticket)
                 && c.expiresAt == if m.redemption.value.expiresAt < now + 2000 then m.redemption.value.expiresAt
                                   else now + 2000)
  {
  }

  /** The grant ends within one session length of the admission clock. */
  predicate GrantWindow(m: Admission, now: int) {
    m.redemption.Some? ==> m.redemption.value.expiresAt <= now + MAX_SESSION_MS
  }

  /** The attachment written for an admission is readable exactly when its grant ends in time. */
  lemma AdmittedReadable(m: Admission, now: int, sessionMs: int)
    requires ValidAdmission(m) && 0 < sessionMs <= MAX_SESSION_MS
    requires 0 <= now <= MAX_SAFE_INTEGER - RETRY_HORIZON_MS - MAX_SESSION_MS
    requires m.redemption.Some? ==> m.redemption.value.expiresAt > now
    ensures ValidClient(Admitted(m, now, sessionMs)) <==> GrantWindow(m, now)
  {
  }

  lemma AdmittedKeepsRoom(
    servers: Servers, clients: Clients, id: SocketId, c: ClientSocket, frames: seq<Frame>, issued: set<string>,
    connectionId: string)
    requires Consistent(servers, clients, frames, issued) && id !in clients && connectionId !in issued
    requires c.stored.Some? ==> c.stored.value.stage == AwaitingCandidate && c.stored.value.connectionId == connectionId
    ensures Consistent(servers, clients[id := c], frames, issued + {connectionId})
  {
    hide Covers, WithinSessionLimits;
    var after := clients[id := c];
    forall k | k in after && after[k].stored.Some? && after[k].stored.value.stage == AwaitingCandidate
      ensures Fresh(servers, frames, after[k].stored.value.connectionId)
    {
      assert k in clients ==> Fresh(servers, frames, clients[k].stored.value.connectionId);
    }
    assert DistinctConnections(after);
  }

  lemma AdmittedKeepsLedger(
    clients: Clients, id: SocketId, c: ClientSocket, metrics: seq<Metric>, finalized: seq<string>,
    delivered: set<string>, issued: set<string>, connectionId: string)
    requires id !in clients && connectionId !in issued && delivered <= issued
    requires c.stored.Some? ==> c.stored.value.summaryEmitted && c.stored.value.connectionId == connectionId
    requires forall k :: k in clients && clients[k].stored.Some? ==> clients[k].stored.value.connectionId in issued
    ensures Ledger(clients, metrics, finalized, delivered) ==> Ledger(clients[id := c], metrics, finalized, delivered)
  {
    hide AtMostOncePerConnection, Reported;
    if Ledger(clients, metrics, finalized, delivered) {
      var after := clients[id := c];
      forall k | k in after
        ensures MarkedIfReported(after[k], metrics)
      {
        assert k in clients ==> MarkedIfReported(clients[k], metrics);
      }
      assert DistinctConnections(after);
    }
  }

  /** Clearing the marker of a session about to be delivered for the first time. */
  lemma DeliveryKeepsLedger(
    clients: Clients, id: SocketId, a: ClientAttachment, metrics: seq<Metric>, finalized: seq<string>,
    delivered: set<string>)
    requires id in clients && clients[id].stored == Some(a) && a.connectionId !in delivered
    ensures Ledger(clients, metrics, finalized, delivered) ==>
              Ledger(clients[id := clients[id].(stored := Some(a.(summaryEmitted := false)))], metrics, finalized,
                     delivered + {a.connectionId})
  {
    hide AtMostOncePerConnection;
    if Ledger(clients, metrics, finalized, delivered) {
      var after := clients[id := clients[id].(stored := Some(a.(summaryEmitted := false)))];
      assert !Reported(metrics, a.connectionId);
      forall k | k in after
        ensures MarkedIfReported(after[k], metrics)
      {
        assert MarkedIfReported(clients[k], metrics);
      }
      assert DistinctConnections(after);
    }
  }

  lemma DeliveryKeepsRoom(
    servers: Servers, clients: Clients, id: SocketId, a: ClientAttachment, frames: seq<Frame>, issued: set<string>)
    requires Consistent(servers, clients, frames, issued) && id in clients && clients[id].stored == Some(a)
    ensures Consistent(servers, clients[id := clients[id].(stored := Some(a.(summaryEmitted := false)))], frames,
        issued)
    ensures a.connectionId in issued
  {
    var c := clients[id].(stored := Some(a.(summaryEmitted := false)));
    hide Covers, Fresh, WithinSessionLimits;
    forall s, t | s in servers && HasTicket(servers[s], t)
      ensures Leads(servers[s], t, c)
    {
      assert Leads(servers[s], t, clients[id]);
    }
    hide Consistent, Accounted, Leads;
    ConsistentAfterClientWrite(servers, clients, id, c, frames, issued);
  }

  /** The sessions an admission limit counts: open, unexpired, not ended, of one control. */
  function ActiveClients(clients: Clients, controlId: string, generation: string, now: int): set<SocketId> {
    set id | id in clients && clients[id].open && clients[id].stored.Some? &&
             clients[id].stored.value.controlId == controlId && clients[id].stored.value.generation == generation &&
             clients[id].stored.value.stage != Terminal && clients[id].stored.value.expiresAt > now
  }

  /** The open sessions of this control that have not ended and whose time is not up. */
  function InSession(clients: Clients, controlId: string, generation: string, now: int): set<SocketId> {
    set i |
      && i in clients && clients[i].open && clients[i].stored.Some?
      && var c := clients[i].stored.value;
         c.controlId == controlId && c.generation == generation && c.stage != Terminal && now < c.expiresAt
  }

  lemma ActiveMeans(clients: Clients, controlId: string, generation: string, now: int)
    ensures ActiveClients(clients, controlId, generation, now) == InSession(clients, controlId, generation, now)
  {
  }

  /** Counting or closing an ended session touches neither the accounts nor the ledger. */
  lemma EndedStays(
    servers: Servers, clients: Clients, id: SocketId, c: ClientSocket, a: ClientAttachment, frames: seq<Frame>,
    issued: set<string>, metrics: seq<Metric>, finalized: seq<string>, delivered: set<string>)
    requires id in clients && clients[id].stored == Some(a) && a.stage == Terminal && c.stored.Some?
    requires SameSession(a, c.stored.value) && c.stored.value.stage == Terminal && (c.open ==> clients[id].open)
    requires a.summaryEmitted ==> c.stored.value.summaryEmitted
    ensures Settled(clients, clients[id := c])
    ensures Consistent(servers, clients, frames, issued) ==> Consistent(servers, clients[id := c], frames, issued)
    ensures Ledger(clients, metrics, finalized, delivered) ==> Ledger(clients[id := c], metrics, finalized, delivered)
  {
    hide Consistent, Ledger;
    assert Settled(clients, clients[id := c]);
    if Consistent(servers, clients, frames, issued) {
      CarriedSelf(servers);
      ConsistentAfterTeardown(servers, servers, clients, clients[id := c], frames, issued);
    }
    if Ledger(clients, metrics, finalized, delivered) {
      LedgerAfterWrite(clients, id, c, metrics, finalized, delivered);
    }
  }

  /** Dropping expired tickets of one control keeps the whole room. */
  lemma PruningKeepsRoom(
    servers: Servers, clients: Clients, id: SocketId, now: int, frames: seq<Frame>, issued: set<string>,
    pending: map<SocketId, Outcome>)
    requires ReadableServers(servers) && id in servers && servers[id].stored.Some?
    ensures var after := servers[id := servers[id].(stored := Some(Pruned(servers[id].stored.value, now)))];
            && Shrunk(servers, after) && ReadableServers(after) && ValidServer(Pruned(servers[id].stored.value, now))
            && (AtMostOneOwner(servers) ==> AtMostOneOwner(after))
            && (PendingOwned(servers, pending) ==> PendingOwned(after, pending))
            && (Consistent(servers, clients, frames, issued) ==> Consistent(after, clients, frames, issued))
  {
    var a := servers[id].stored.value;
    ReadAt(servers, id);
    PrunedIsValid(a, now);
    var s := servers[id].(stored := Some(Pruned(a, now)));
    ShrinkOne(servers, id, s);
    hide Consistent, ReadableServers, ValidServer, Shrunk, PrunedTickets;
    ReadableAfterServerWrite(servers, id, s);
    SameClaimKeepsOwned(servers, id, s, pending);
    if Consistent(servers, clients, frames, issued) {
      ShrunkCarries(servers, servers[id := s]);
      SettledSelf(clients);
      ConsistentAfterTeardown(servers, servers[id := s], clients, clients, frames, issued);
    }
  }

  /** A control after a deadline pass while attachment writes succeed. */
  predicate PrunedAt(before: ServerSocket, after: ServerSocket, now: int) {
    before.stored.Some? ==>
      after.stored.Some? && after.open == before.open &&
      after.stored.value.current == before.stored.value.current &&
      |after.stored.value.tickets| <= |before.stored.value.tickets| &&
      (forall t :: t in after.stored.value.tickets ==> t.expiresAt > now) &&
      ((exists t :: t in before.stored.value.tickets && t.expiresAt <= now) ==>
         |after.stored.value.tickets| < |before.stored.value.tickets|)
  }

  lemma {:induction false} PrunedCount(tickets: seq<TicketState>, now: int)
    ensures (exists t :: t in tickets && t.expiresAt <= now) ==> |PrunedTickets(tickets, now)| < |tickets|
    ensures |PrunedTickets(tickets, now)| == |tickets| ==> PrunedTickets(tickets, now) == tickets
  {
    if |tickets| > 0 {
      PrunedCount(tickets[1..], now);
      assert tickets == [tickets[0]] + tickets[1..];
      if exists t :: t in tickets && t.expiresAt <= now {
        var t :| t in tickets && t.expiresAt <= now;
        if tickets[0].expiresAt > now {
          assert t in tickets[1..];
        }
      }
    }
  }

  lemma PrunedStayReadable(before: Servers, after: Servers, now: int)
    requires after.Keys == before.Keys && EveryControlReadable(before)
    requires forall id :: id in after ==> PrunedAt(before[id], after[id], now)
    ensures EveryControlReadable(after)
  {
    hide PrunedAt;
    forall id | id in after
      ensures after[id].stored.Some?
    {
      PrunedHasAttachment(before[id], after[id], now);
    }
  }

  lemma PrunedHasAttachment(before: ServerSocket, after: ServerSocket, now: int)
    requires before.stored.Some? && PrunedAt(before, after, now)
    ensures after.stored.Some?
  {
  }

  lemma MarkedStayReadable(before: Servers, marked: Servers)
    requires OnlyMarked(before, marked)
    ensures EveryControlReadable(before) ==> EveryControlReadable(marked)
  {
    forall id | id in marked && before[id].stored.Some?
      ensures marked[id].stored.Some?
    {
      assert SocketMarked(before[id], marked[id]);
    }
  }

  lemma MarkedThenPruned(before: Servers, marked: Servers, after: Servers, now: int)
    requires OnlyMarked(before, marked) && after.Keys == marked.Keys
    requires EveryControlReadable(before)
    requires EveryControlReadable(marked) ==> forall id :: id in after ==> PrunedAt(marked[id], after[id], now)
    ensures forall id :: id in after ==> PrunedAt(before[id], after[id], now)
  {
    forall id | id in after
      ensures marked[id].stored.Some?
    {
      assert SocketMarked(before[id], marked[id]);
    }
    forall id | id in after
      ensures PrunedAt(before[id], after[id], now)
    {
      assert PrunedAt(marked[id], after[id], now);
      assert SocketMarked(before[id], marked[id]);
      if exists t :: t in before[id].stored.value.tickets && t.expiresAt <= now {
        var t :| t in before[id].stored.value.tickets && t.expiresAt <= now;
        var i :| 0 <= i < |before[id].stored.value.tickets| && before[id].stored.value.tickets[i] == t;
        assert marked[id].stored.value.tickets[i].expiresAt <= now;
        assert marked[id].stored.value.tickets[i] in marked[id].stored.value.tickets;
      }
    }
  }
}
