/**
 Concrete rooms: one with a current control and a waiting session, and one in
 which a session's summary is reported twice because its control still owes a
 teardown when the session's candidate resumes.
 */
module RoomFindings {
  import opened Options
  import opened Attachments
  import opened RoomAccounts
  import opened RoomState
  import opened RendezvousRooms

  /** 00000000-0000-4000-8000-00000000000, ended by the given digit. */
  function Uuid(last: char): (s: string)
    requires IsLowerHex(last)
    ensures ConnectionId(s) && s[35] == last
  {
    seq(36, i => if i in {8, 13, 18, 23} then '-' else if i == 14 then '4' else if i == 19 then '8'
                 else if i == 35 then last else '0')
  }

  function Control(): (s: string)
    ensures ConnectionId(s)
  {
    Uuid('1')
  }

  function Session(): (s: string)
    ensures ConnectionId(s)
  {
    Uuid('2')
  }

  function Zeros(): (s: string)
    ensures Hex64(s)
  {
    seq(64, _ => '0')
  }

  function OwingControl(): (a: ServerAttachment)
    ensures ValidServer(a) && a.current && a.tickets == []
  {
    hide ConnectionId, Hex64, Control, Zeros;
    ServerAttachment(true, false, Control(), Zeros(), 0, [])
  }

  /** A session newly admitted and delivered, with its fifteen seconds ahead of it. */
  function Waiting(control: string, generation: string, session: string, lifetime: int): ClientAttachment {
    ClientAttachment(
      control, generation, session, 1, 0, lifetime, Some(generation), None, None, None, None, None, None,
      AwaitingCandidate, NotRequired, 0, 0, 0, 0, 0, 0, 0, false, None, 0)
  }

  lemma WaitingIsValid(control: string, generation: string, session: string, lifetime: int)
    requires ConnectionId(control) && Hex64(generation) && ConnectionId(session) && 0 < lifetime <= MAX_SESSION_MS
    ensures ValidClient(Waiting(control, generation, session, lifetime))
  {
    hide ConnectionId, Hex64;
  }

  function WaitingSession(): (a: ClientAttachment)
    ensures ValidClient(a) && a.stage == AwaitingCandidate && a.connectionId == Session() && !a.summaryEmitted
  {
    hide ConnectionId, Hex64, Zeros, Control, Session, ValidClient;
    WaitingIsValid(Control(), Zeros(), Session(), MAX_SESSION_MS);
    Waiting(Control(), Zeros(), Session(), MAX_SESSION_MS)
  }

  function OwingServers(): Servers {
    map[1 := ServerSocket(true, Some(OwingControl()))]
  }

  function WaitingClients(): Clients {
    map[2 := ClientSocket(true, Some(WaitingSession()))]
  }

  lemma OwingControlsAreSound()
    ensures ReadableServers(OwingServers()) && AtMostOneOwner(OwingServers())
    ensures PendingOwned(OwingServers(), map[1 := ServerReplaced]) && PendingOwned(OwingServers(), map[])
  {
    hide ValidServer, OwingControl;
  }

  lemma WaitingSessionsAreSound()
    ensures ReadableClients(WaitingClients()) && AllReadable(WaitingClients())
    ensures Ledger(WaitingClients(), [], [], {Session()})
    ensures 2 in WaitingClients() && OwesReport(WaitingClients()[2], [])
    ensures WaitingClients()[2].stored == Some(WaitingSession())
  {
    hide ValidClient, Session;
  }

  lemma OwingStateIsConsistent()
    ensures Consistent(OwingServers(), WaitingClients(), [], {Session()})
  {
    hide ValidServer, ValidClient, OwingControl, WaitingSession, Session, Accounted, Issued, WithinSessionLimits;
    NothingForwarded();
    OwingStateIsAccounted();
    OwingStateIsIssued();
  }

  lemma NothingForwarded()
    ensures WithinSessionLimits([])
    ensures forall c :: Untouched([], c)
  {
  }

  lemma NoTickets()
    ensures forall s, t :: s in OwingServers() ==> !HasTicket(OwingServers()[s], t)
  {
  }

  lemma OwingStateIsAccounted()
    ensures Accounted(OwingServers(), WaitingClients(), [])
  {
    hide OwingServers, WaitingClients, HasTicket, Covers, Leads, Fresh;
    NothingIsKnown();
    NoTickets();
  }

  lemma NothingIsKnown()
    ensures forall c :: Fresh(OwingServers(), [], c)
  {
    hide OwingServers, HasTicket;
    NothingForwarded();
    NoTickets();
  }

  lemma OwingStateIsIssued()
    ensures Issued(OwingServers(), WaitingClients(), [], {Session()})
    ensures DistinctConnections(WaitingClients())
  {
    hide OwingServers, HasTicket, Session, ValidClient;
    NoTickets();
  }

  /** One open control that owns its room, and a delivered session. */
  method CurrentControl() returns (room: RendezvousRoom)
    ensures fresh(room) && room.Core() && room.LedgerHolds() && AllReadable(room.clients)
    ensures room.servers == OwingServers() && room.clients == WaitingClients()
    ensures room.currentGeneration == Some(Zeros()) && room.pendingServerOutcomes == map[] && !room.recoveryPersisted
    ensures room.metrics == [] && room.frames == [] && room.finalizedConnections == []
  {
    hide ValidClient, ValidServer, ReadableServers, ReadableClients, AtMostOneOwner, PendingOwned, Consistent, Ledger,
      AllReadable, WaitingSession, OwingControl, OwesReport, OwingServers, WaitingClients, Zeros;
    OwingControlsAreSound();
    WaitingSessionsAreSound();
    OwingStateIsConsistent();
    room := new RendezvousRoom();
    room.servers, room.clients := OwingServers(), WaitingClients();
    room.currentGeneration, room.storedGeneration := Some(Zeros()), Some(Zeros());
    room.delivered, room.issued := {Session()}, {Session()};
  }

  /**
   One open control whose teardown failed before, together with that of its one
   delivered session, which still awaits its candidate: nothing could be written or
   closed then, and the recovery request could not be stored either.
   */
  method OwedTeardown() returns (room: RendezvousRoom)
    ensures fresh(room) && room.Core() && room.LedgerHolds() && AllReadable(room.clients) && room.Unreported(2)
    ensures room.servers == OwingServers() && room.clients == WaitingClients()
    ensures room.pendingServerOutcomes == map[1 := ServerReplaced] && !room.faulty && !room.recoveryPersisted
    ensures room.pendingClientOutcomes == map[2 := ServerReplaced]
    ensures room.metrics == [] && room.frames == []
  {
    hide ValidClient, ValidServer, ReadableServers, ReadableClients, AtMostOneOwner, PendingOwned, Consistent, Ledger,
      AllReadable, WaitingSession, OwingControl, OwesReport, OwingServers, WaitingClients, Zeros;
    OwingControlsAreSound();
    WaitingSessionsAreSound();
    room := CurrentControl();
    room.pendingServerOutcomes, room.pendingClientOutcomes := map[1 := ServerReplaced], map[2 := ServerReplaced];
    room.faulty := false;
  }

  /**
   From that state, with every write succeeding: the session's candidate resumes,
   its transport drops, and the next instance reports it a second time.
   */
  method ReportsTwice() returns (room: RendezvousRoom)
    ensures fresh(room) && !AtMostOncePerConnection(room.metrics)
  {
    hide ValidClient, ValidServer, ReadableServers, ReadableClients, AtMostOneOwner, PendingOwned, Consistent, Ledger,
      AllReadable, RepeatsReport, TerminalAbsorbed, Settled, AtMostOncePerConnection, OneFrame;
    room := OwedTeardown();
    assert 1 in room.pendingServerOutcomes;
    var signal := CandidateSignal(Zeros(), Zeros(), Zeros(), 1);
    room.BeginClientTicket(2, WaitingSession(), signal, true, 1);
    ghost var resumed := room.clients;
    room.DropTransport(2);
    RepeatsWithStored(resumed, room.clients, 2, room.metrics);
    room.ReportAgain(2);
  }

  lemma RepeatsWithStored(a: Clients, b: Clients, id: SocketId, metrics: seq<Metric>)
    requires RepeatsReport(a, id, metrics) && id in a && id in b && b[id].stored == a[id].stored
    ensures RepeatsReport(b, id, metrics)
  {
  }
}
