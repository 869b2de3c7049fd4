/**
 Whole runs of a room: any sequence of upgrades, frames, awaits that resume,
 closes, alarms, rotations and reconstructions, under any choice of faults.
 */
module RoomRuns {
  import opened Options
  import opened Attachments
  import opened RoomAccounts
  import opened RoomState
  import opened RendezvousRooms

  datatype Event =
    | Upgrade(socket: SocketId, at: int, accessProtocol: bool, generation: string, controlId: string)
    | Rotate(target: Option<string>, persists: bool)
    | Admit(socket: SocketId, admission: Admission, server: SocketId, at: int, sessionMs: int, limit: nat,
        claimed: bool)
    | Finish(client: SocketId, server: SocketId, live: bool, at: int)
    | ClientFrame(client: SocketId, candidate: bool, ticket: string, at: int)
    | ClientViolation(client: SocketId)
    | ResumeCandidate(client: SocketId, snapshot: ClientAttachment, signal: CandidateSignal, live: bool, at: int)
    | ResumeConfirmation(
        client: SocketId, snapshot: ClientAttachment, grant: string, nonce: string, live: bool, at: int, sessionMs: int)
    | ServerViolation(server: SocketId)
    | ServerFrame(server: SocketId, control: ServerAttachment, frame: ServerSignal, at: int)
    | ResumeAnswer(
        server: SocketId, controlId: string, client: SocketId, connectionId: string, frame: ServerSignal, live: bool,
        at: int)
    | Drop(socket: SocketId)
    | ServerLeft(server: SocketId)
    | ClientLeft(client: SocketId, signature: Option<Outcome>)
    | Tick(at: int)
    | Restart(start: Start)
    | Weather(faulty: bool, stuck: bool, lossy: bool)

  /** What a room holds between two events, with what it has written so far. */
  datatype Snapshot = Snapshot(servers: Servers, clients: Clients, owed: map<SocketId, Outcome>, frames: seq<Frame>,
                               metrics: seq<Metric>, delivered: set<string>)

  function Moment(room: RendezvousRoom): Snapshot
    reads room
  {
    Snapshot(room.servers, room.clients, room.pendingServerOutcomes, room.frames, room.metrics, room.delivered)
  }

  /** The segment resumes with a client attachment that was read before the control was reconciled. */
  predicate Resumes(e: Event) {
    e.ResumeCandidate? || e.ResumeConfirmation? || e.ResumeAnswer?
  }

  ghost predicate Healthy(room: RendezvousRoom)
    reads room
  {
    room.Core() && (room.recoveryRequired || room.initializationFailed ==> room.pendingServerOutcomes == map[])
  }

  /** The instance handles events; otherwise every handler refuses and only its alarm still works. */
  ghost predicate Serving(room: RendezvousRoom)
    reads room
  {
    Healthy(room) && !room.recoveryRequired && !room.initializationFailed
  }

  /** Socket ids are never used twice. */
  ghost predicate Known(room: RendezvousRoom, used: set<SocketId>)
    reads room
  {
    room.servers.Keys <= used && room.clients.Keys <= used
  }

  /** One event; what the environment cannot do at this point is skipped. */
  method Apply(room: RendezvousRoom, e: Event, used: set<SocketId>) returns (known: set<SocketId>)
    requires Healthy(room) && Known(room, used)
    modifies room
    ensures Healthy(room) && Known(room, known) && used <= known
    ensures TerminalAbsorbed(old(room.clients), room.clients)
    ensures room.clients.Keys <= old(room.clients.Keys) + (known - used)
    ensures old(room.LedgerHolds()) && !(Resumes(e) && old(room.pendingServerOutcomes) != map[]) ==> room.LedgerHolds()
  {
    hide RendezvousRoom.LedgerHolds, RendezvousRoom.Core, TerminalAbsorbed, Settled, NoHolder, Gone, OneFrame,
      SoleCandidate, Expired, PrunedAt, Grown, ActiveClients, Admitted, GrantWindow;
    known := used;
    AbsorbedSelf(room.clients);
    ghost var before := room.clients;
    if (room.recoveryRequired || room.initializationFailed) && !e.Tick? && !e.Restart? && !e.Drop? && !e.Weather? {
      return;
    }
    match e {
      case Upgrade(socket, at, accessProtocol, generation, controlId) =>
        known := OnUpgrade(room, socket, at, accessProtocol, generation, controlId, used);
      case Rotate(target, persists) =>
        var _ := room.RotateTokenGeneration(target, persists);
        SettledAbsorbs(before, room.clients);
      case Admit(socket, admission, server, at, sessionMs, limit, claimed) =>
        known := OnAdmit(room, socket, admission, server, at, sessionMs, limit, claimed, used);
      case Finish(client, server, live, at) =>
        OnFinish(room, client, server, live, at);
      case ClientFrame(client, candidate, ticket, at) =>
        OnClientFrame(room, client, candidate, ticket, at);
      case ClientViolation(client) =>
        OnClientViolation(room, client);
      case ResumeCandidate(client, snapshot, signal, live, at) =>
        if client in room.clients && ValidSignal(signal) {
          room.BeginClientTicket(client, snapshot, signal, live, at);
        }
      case ResumeConfirmation(client, snapshot, grant, nonce, live, at, sessionMs) =>
        OnConfirmation(room, client, snapshot, grant, nonce, live, at, sessionMs);
      case ServerViolation(server) =>
        OnServerViolation(room, server);
      case ServerFrame(server, control, frame, at) =>
        if server in room.servers && ValidServerSignal(frame) {
          var _ := room.HandleServerFrame(server, control, frame, at);
        }
      case ResumeAnswer(server, controlId, client, connectionId, frame, live, at) =>
        if server in room.servers && client in room.clients && ValidServerSignal(frame) {
          room.ResumeServerFrame(server, controlId, client, connectionId, frame, live, at);
        }
      case Drop(socket) =>
        OnDrop(room, socket);
      case ServerLeft(server) =>
        OnServerLeft(room, server);
      case ClientLeft(client, signature) =>
        OnClientLeft(room, client, signature);
      case Tick(at) =>
        var _ := room.Alarm(at);
        SettledAbsorbs(before, room.clients);
      case Restart(start) =>
        var _ := room.Reconstruct(start);
        SettledAbsorbs(before, room.clients);
      case Weather(faulty, stuck, lossy) =>
        room.faulty, room.stuck, room.lossy := faulty, stuck, lossy;
    }
  }

  method OnUpgrade(
    room: RendezvousRoom, socket: SocketId, at: int, accessProtocol: bool, generation: string, controlId: string,
    used: set<SocketId>)
    returns (known: set<SocketId>)
    requires Serving(room) && Known(room, used)
    modifies room
    ensures Serving(room) && Known(room, known) && used <= known
    ensures TerminalAbsorbed(old(room.clients), room.clients) && room.clients.Keys == old(room.clients.Keys)
    ensures old(room.LedgerHolds()) ==> room.LedgerHolds()
  {
    hide RendezvousRoom.LedgerHolds, RendezvousRoom.Core, TerminalAbsorbed, Settled, HeldOnlyBy;
    known := used;
    ghost var before := room.clients;
    AbsorbedSelf(before);
    if socket !in used && Timestamp(at) && ConnectionId(controlId) && Hex64(generation) {
      known := used + {socket};
      var _ := room.UpgradeServer(at, accessProtocol, generation, controlId, socket);
      SettledAbsorbs(before, room.clients);
    }
  }

  method OnAdmit(
    room: RendezvousRoom, socket: SocketId, m: Admission, server: SocketId, at: int, sessionMs: int, limit: nat,
    claimed: bool, used: set<SocketId>)
    returns (known: set<SocketId>)
    requires Serving(room) && Known(room, used)
    modifies room
    ensures Serving(room) && Known(room, known) && used <= known
    ensures TerminalAbsorbed(old(room.clients), room.clients)
    ensures room.clients.Keys <= old(room.clients.Keys) + (known - used)
    ensures old(room.LedgerHolds()) ==> room.LedgerHolds()
  {
    hide RendezvousRoom.LedgerHolds, RendezvousRoom.Core, TerminalAbsorbed, SoleCandidate, ActiveClients, Admitted;
    known := used;
    AbsorbedSelf(room.clients);
    ghost var before := room.clients;
    if socket !in used && m.connectionId !in room.issued && ValidAdmission(m) && 0 < sessionMs <= MAX_SESSION_MS &&
       0 <= at <= MAX_SAFE_INTEGER - RETRY_HORIZON_MS - MAX_SESSION_MS {
      known := used + {socket};
      var _ := room.AdmitClient(socket, m, server, at, sessionMs, limit, claimed);
    }
  }

  /** The stored session is the one that was allocated, unless it has ended meanwhile. */
  method OnFinish(room: RendezvousRoom, client: SocketId, server: SocketId, live: bool, at: int)
    requires Serving(room)
    modifies room
    ensures Serving(room)
    ensures room.servers.Keys == old(room.servers.Keys) && room.clients.Keys == old(room.clients.Keys)
    ensures TerminalAbsorbed(old(room.clients), room.clients)
    ensures old(room.LedgerHolds()) ==> room.LedgerHolds()
  {
    hide RendezvousRoom.LedgerHolds, TerminalAbsorbed, Settled, SoleCandidate, ReadableServers, Consistent,
      AtMostOneOwner, PendingOwned, ReadableClients, OnlyMarked;
    AbsorbedSelf(room.clients);
    ghost var before := room.clients;
    if client in room.clients {
      var stored := room.clients[client].stored;
      if stored.Some? && stored.value.stage != Terminal && stored.value.connectionId !in room.delivered {
        StoredAtIsEndable(room.clients, client, stored.value);
        var _ := room.FinishAdmission(client, stored.value, server, live, at);
      } else if stored.None? || stored.value.connectionId !in room.delivered {
        room.FailStored(client, ServerUnavailable);
        SettledAbsorbs(before, room.clients);
      }
    }
  }

  method OnClientFrame(room: RendezvousRoom, client: SocketId, candidate: bool, ticket: string, at: int)
    requires Serving(room)
    modifies room
    ensures Serving(room)
    ensures room.servers.Keys == old(room.servers.Keys) && room.clients.Keys == old(room.clients.Keys)
    ensures TerminalAbsorbed(old(room.clients), room.clients)
    ensures old(room.LedgerHolds()) ==> room.LedgerHolds()
  {
    hide RendezvousRoom.LedgerHolds, RendezvousRoom.Core, TerminalAbsorbed, Settled;
    AbsorbedSelf(room.clients);
    ghost var before := room.clients;
    if client in room.clients && room.clients[client].open && room.clients[client].stored.Some? &&
       room.clients[client].stored.value.connectionId in room.delivered {
      var _ := room.HandleClientMessage(client, candidate, ticket, at);
      SettledAbsorbs(before, room.clients);
    }
  }

  /** A frame that does not parse, a full queue, or an unexpected failure while handling one. */
  method OnClientViolation(room: RendezvousRoom, client: SocketId)
    requires Serving(room)
    modifies room
    ensures Serving(room)
    ensures room.servers.Keys == old(room.servers.Keys) && room.clients.Keys == old(room.clients.Keys)
    ensures TerminalAbsorbed(old(room.clients), room.clients)
    ensures old(room.LedgerHolds()) ==> room.LedgerHolds()
  {
    hide RendezvousRoom.LedgerHolds, RendezvousRoom.Core, TerminalAbsorbed, Settled, OnlyMarked;
    AbsorbedSelf(room.clients);
    ghost var before := room.clients;
    if client in room.clients {
      room.FailStored(client, ProtocolError);
      SettledAbsorbs(before, room.clients);
    }
  }

  method OnConfirmation(
    room: RendezvousRoom, client: SocketId, snapshot: ClientAttachment, grant: string, nonce: string, live: bool,
    at: int, sessionMs: int)
    requires Serving(room)
    modifies room
    ensures Serving(room)
    ensures room.servers.Keys == old(room.servers.Keys) && room.clients.Keys == old(room.clients.Keys)
    ensures TerminalAbsorbed(old(room.clients), room.clients)
    ensures old(room.LedgerHolds()) && old(room.pendingServerOutcomes) == map[] ==> room.LedgerHolds()
  {
    hide RendezvousRoom.LedgerHolds, RendezvousRoom.Core, TerminalAbsorbed;
    AbsorbedSelf(room.clients);
    if client in room.clients && 0 < sessionMs <= MAX_SESSION_MS &&
       (room.clients[client].stored.Some? ==>
          room.clients[client].stored.value.openedAt + MAX_SESSION_MS <= MAX_SAFE_INTEGER - RETRY_HORIZON_MS) {
      room.AcceptAccessInit(client, snapshot, grant, nonce, live, at, sessionMs);
    }
  }

  method OnServerViolation(room: RendezvousRoom, server: SocketId)
    requires Serving(room)
    modifies room
    ensures Serving(room)
    ensures room.servers.Keys == old(room.servers.Keys) && room.clients.Keys == old(room.clients.Keys)
    ensures TerminalAbsorbed(old(room.clients), room.clients)
    ensures old(room.LedgerHolds()) ==> room.LedgerHolds()
  {
    hide RendezvousRoom.LedgerHolds, RendezvousRoom.Core, TerminalAbsorbed, Settled, Shrunk;
    AbsorbedSelf(room.clients);
    ghost var before := room.clients;
    if server in room.servers {
      room.FailStoredControl(server, ProtocolError);
      SettledAbsorbs(before, room.clients);
    }
  }

  method OnDrop(room: RendezvousRoom, socket: SocketId)
    requires Healthy(room)
    modifies room
    ensures Healthy(room) && room.servers.Keys == old(room.servers.Keys) && room.clients.Keys == old(room.clients.Keys)
    ensures TerminalAbsorbed(old(room.clients), room.clients)
    ensures old(room.LedgerHolds()) ==> room.LedgerHolds()
  {
    hide RendezvousRoom.LedgerHolds, RendezvousRoom.Core, TerminalAbsorbed, Settled;
    ghost var before := room.clients;
    room.DropTransport(socket);
    SettledAbsorbs(before, room.clients);
  }

  method OnServerLeft(room: RendezvousRoom, server: SocketId)
    requires Serving(room)
    modifies room
    ensures Serving(room)
    ensures room.servers.Keys <= old(room.servers.Keys) && room.clients.Keys == old(room.clients.Keys)
    ensures TerminalAbsorbed(old(room.clients), room.clients)
    ensures old(room.LedgerHolds()) ==> room.LedgerHolds()
  {
    hide RendezvousRoom.LedgerHolds, RendezvousRoom.Core, TerminalAbsorbed, Settled, RendezvousRoom.Departs, Quiet;
    AbsorbedSelf(room.clients);
    ghost var before := room.clients;
    if server in room.servers && !room.servers[server].open {
      var _ := room.ServerGone(server);
      SettledAbsorbs(before, room.clients);
      if server !in room.pendingServerOutcomes {
        room.ForgetServer(server);
      }
    }
  }

  method OnClientLeft(room: RendezvousRoom, client: SocketId, signature: Option<Outcome>)
    requires Serving(room)
    modifies room
    ensures Serving(room)
    ensures room.servers.Keys == old(room.servers.Keys) && room.clients.Keys <= old(room.clients.Keys)
    ensures TerminalAbsorbed(old(room.clients), room.clients)
    ensures old(room.LedgerHolds()) ==> room.LedgerHolds()
  {
    hide RendezvousRoom.LedgerHolds, RendezvousRoom.Core, TerminalAbsorbed, Settled;
    AbsorbedSelf(room.clients);
    ghost var before := room.clients;
    if client in room.clients && !room.clients[client].open {
      room.ClientGone(client, signature);
      ghost var live := room.clients;
      room.ForgetClient(client);
      SettledTransitive(before, live, room.clients);
      SettledAbsorbs(before, room.clients);
    }
  }

  // ---- runs ---------------------------------------------------------------------------------------

  /** Absorption carries over an event that only brings in sockets never seen before. */
  lemma AbsorbedAcross(a: Clients, b: Clients, c: Clients, used: set<SocketId>, known: set<SocketId>)
    requires TerminalAbsorbed(a, b) && TerminalAbsorbed(b, c)
    requires a.Keys <= used && c.Keys <= b.Keys + (known - used)
    ensures TerminalAbsorbed(a, c)
  {
  }

  ghost predicate AbsorbedThroughout(history: seq<Snapshot>) {
    forall i, j :: 0 <= i <= j < |history| ==> TerminalAbsorbed(history[i].clients, history[j].clients)
  }

  /** At most one open control claims the room, ended sessions keep no secret, and every frame was afforded. */
  ghost predicate IsSafe(s: Snapshot) {
    AtMostOneOwner(s.servers) && EndedAreScrubbed(s.clients) && WithinSessionLimits(s.frames)
  }

  ghost predicate SafeThroughout(history: seq<Snapshot>) {
    forall k :: 0 <= k < |history| ==> IsSafe(history[k])
  }

  ghost predicate ReportsOnce(s: Snapshot) {
    && AtMostOncePerConnection(s.metrics)
    && forall k :: 0 <= k < |s.metrics| ==> s.metrics[k].connectionId in s.delivered
  }

  /** Before moment n no client's segment resumed while a control teardown was owed. */
  ghost predicate ResumedClear(events: seq<Event>, history: seq<Snapshot>, n: nat)
    requires n <= |events| && n <= |history|
  {
    forall k :: 0 <= k < n && Resumes(events[k]) ==> history[k].owed == map[]
  }

  ghost predicate OnceThroughout(events: seq<Event>, history: seq<Snapshot>) {
    forall n :: 0 <= n < |history| && n <= |events| && ResumedClear(events, history, n) ==> ReportsOnce(history[n])
  }

  ghost predicate EndedAreScrubbed(clients: Clients) {
    forall id :: id in clients && DurablyTerminal(clients[id]) ==> Scrubbed(clients[id].stored.value)
  }

  lemma ReadableAreScrubbed(clients: Clients)
    requires ReadableClients(clients)
    ensures EndedAreScrubbed(clients)
  {
    forall id | id in clients && DurablyTerminal(clients[id])
      ensures Scrubbed(clients[id].stored.value)
    {
      assert ValidClient(clients[id].stored.value);
    }
  }

  lemma ExtendHistory(history: seq<Snapshot>, next: Snapshot, used: set<SocketId>, known: set<SocketId>)
    requires |history| > 0 && AbsorbedThroughout(history)
    requires forall k :: 0 <= k < |history| ==> history[k].clients.Keys <= used
    requires TerminalAbsorbed(history[|history| - 1].clients, next.clients)
    requires next.clients.Keys <= history[|history| - 1].clients.Keys + (known - used)
    ensures AbsorbedThroughout(history + [next])
  {
    hide TerminalAbsorbed;
    var last := history[|history| - 1].clients;
    forall i, j | 0 <= i <= j < |history + [next]|
      ensures TerminalAbsorbed((history + [next])[i].clients, (history + [next])[j].clients)
    {
      if j == |history| && i < j {
        AbsorbedAcross(history[i].clients, last, next.clients, used, known);
      }
      if i == j {
        AbsorbedSelf((history + [next])[i].clients);
      }
    }
  }

  /** The history up to the room's present state, over sockets already known. */
  ghost predicate Recorded(
    room: RendezvousRoom, events: seq<Event>, history: seq<Snapshot>, used: set<SocketId>, n: nat)
    requires n <= |events|
    reads room
  {
    && |history| == n + 1 && history[n] == Moment(room)
    && history[0] == Snapshot(map[], map[], map[], [], [], {})
    && (forall k :: 0 <= k < |history| ==> history[k].clients.Keys <= used)
    && SafeThroughout(history) && AbsorbedThroughout(history) && OnceThroughout(events, history)
    && (ResumedClear(events, history, n) ==> room.LedgerHolds())
  }

  method FirstMoment(room: RendezvousRoom, events: seq<Event>) returns (history: seq<Snapshot>)
    requires Healthy(room) && room.LedgerHolds()
    requires Moment(room) == Snapshot(map[], map[], map[], [], [], {})
    ensures Recorded(room, events, history, {}, 0)
  {
    hide IsSafe, ReportsOnce, SafeThroughout, OnceThroughout, AbsorbedThroughout, Healthy, RendezvousRoom.LedgerHolds;
    HealthySnapshot(room);
    history := [Moment(room)];
    FirstSnapshot(Moment(room), events);
  }

  method Begin(events: seq<Event>) returns (room: RendezvousRoom, history: seq<Snapshot>)
    ensures fresh(room) && Healthy(room) && Known(room, {}) && Recorded(room, events, history, {}, 0)
  {
    hide IsSafe, ReportsOnce, SafeThroughout, OnceThroughout, AbsorbedThroughout;
    room := new RendezvousRoom();
    history := FirstMoment(room, events);
  }

  /** One event, and the moment after it. */
  method RecordNext(
    room: RendezvousRoom, events: seq<Event>, history: seq<Snapshot>, used: set<SocketId>, n: nat)
    returns (known: set<SocketId>, extended: seq<Snapshot>)
    requires n < |events| && Healthy(room) && Known(room, used) && Recorded(room, events, history, used, n)
    modifies room
    ensures Healthy(room) && Known(room, known) && Recorded(room, events, extended, known, n + 1)
  {
    hide TerminalAbsorbed, IsSafe, ReportsOnce, AbsorbedThroughout, SafeThroughout, OnceThroughout, ResumedClear,
      Healthy, RendezvousRoom.LedgerHolds;
    known := Apply(room, events[n], used);
    var next := Moment(room);
    ExtendHistory(history, next, used, known);
    HealthySnapshot(room);
    ExtendRun(events, history, next, n);
    extended := history + [next];
  }

  /**
   Every run of a room, whatever events arrive in whatever order and whatever
   writes and closes fail, and at every moment of it: one owner at most; an ended
   session stays ended and scrubbed; every forwarded frame stayed within its
   session, its control and its budgets; and each connection has reported at most
   one metric, and only if it was delivered, unless a client's segment resumed
   while a control teardown was owed.
   */
  method Drive(events: seq<Event>) returns (room: RendezvousRoom, history: seq<Snapshot>)
    ensures |history| == |events| + 1 && history[|events|] == Moment(room)
    ensures history[0] == Snapshot(map[], map[], map[], [], [], {})
    ensures SafeThroughout(history) && AbsorbedThroughout(history) && OnceThroughout(events, history)
  {
    hide IsSafe, ReportsOnce, AbsorbedThroughout, SafeThroughout, OnceThroughout, ResumedClear, Healthy,
      RendezvousRoom.LedgerHolds;
    room, history := Begin(events);
    var used: set<SocketId> := {};
    var n := 0;
    while n < |events|
      invariant 0 <= n <= |events| && fresh(room) && Healthy(room) && Known(room, used)
      invariant Recorded(room, events, history, used, n)
    {
      used, history := RecordNext(room, events, history, used, n);
      n := n + 1;
    }
  }

  lemma FirstSnapshot(s: Snapshot, events: seq<Event>)
    requires IsSafe(s) && s.metrics == []
    ensures SafeThroughout([s]) && AbsorbedThroughout([s]) && OnceThroughout(events, [s])
    ensures ResumedClear(events, [s], 0)
  {
    AbsorbedSelf(s.clients);
  }

  lemma NextIsSafe(history: seq<Snapshot>, s: Snapshot)
    requires SafeThroughout(history) && IsSafe(s)
    ensures SafeThroughout(history + [s])
  {
    hide IsSafe;
  }

  /** The segments that have resumed before the next moment are the earlier ones and this event. */
  lemma ClearBefore(events: seq<Event>, history: seq<Snapshot>, next: Snapshot, n: nat)
    requires |history| == n + 1 && n < |events|
    ensures ResumedClear(events, history + [next], n + 1) <==>
              ResumedClear(events, history, n) && (Resumes(events[n]) ==> history[n].owed == map[])
  {
    var extended := history + [next];
    assert forall k :: 0 <= k <= n ==> extended[k] == history[k];
  }

  lemma SameClear(events: seq<Event>, history: seq<Snapshot>, next: Snapshot, n: nat)
    requires n < |history| && n <= |events|
    ensures ResumedClear(events, history + [next], n) <==> ResumedClear(events, history, n)
  {
    assert forall k :: 0 <= k < n ==> (history + [next])[k] == history[k];
  }

  lemma NextReportsOnce(events: seq<Event>, history: seq<Snapshot>, next: Snapshot)
    requires 0 < |history| <= |events| && OnceThroughout(events, history)
    requires ResumedClear(events, history + [next], |history|) ==> ReportsOnce(next)
    ensures OnceThroughout(events, history + [next])
  {
    hide ReportsOnce, ResumedClear;
    forall n | 0 <= n < |history|
      ensures ResumedClear(events, history + [next], n) <==> ResumedClear(events, history, n)
    {
      SameClear(events, history, next, n);
    }
  }

  lemma ExtendRun(events: seq<Event>, history: seq<Snapshot>, next: Snapshot, n: nat)
    requires |history| == n + 1 && n < |events|
    requires SafeThroughout(history) && IsSafe(next) && OnceThroughout(events, history)
    requires ResumedClear(events, history, n) && (Resumes(events[n]) ==> history[n].owed == map[]) ==> ReportsOnce(next)
    ensures SafeThroughout(history + [next]) && OnceThroughout(events, history + [next])
    ensures ResumedClear(events, history + [next], n + 1) <==>
              ResumedClear(events, history, n) && (Resumes(events[n]) ==> history[n].owed == map[])
  {
    hide IsSafe, ReportsOnce, SafeThroughout, OnceThroughout, ResumedClear;
    NextIsSafe(history, next);
    ClearBefore(events, history, next, n);
    NextReportsOnce(events, history, next);
  }

  lemma HealthySnapshot(room: RendezvousRoom)
    requires Healthy(room)
    ensures IsSafe(Moment(room)) && (room.LedgerHolds() ==> ReportsOnce(Moment(room)))
  {
    ReadableAreScrubbed(room.clients);
  }
}
