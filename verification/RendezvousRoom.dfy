/**
 The rendezvous room: one control and many clients per published server. Every
 attachment write and every close may fail; a handler runs between awaits
 without interruption, so each method is one such segment.
 */
module RendezvousRooms {
  import opened Options
  import opened Attachments
  import opened RoomAccounts
  import opened RoomState

  /** How far a new instance gets; all but the first fail at the named step. */
  datatype Start = Started | LostRecovery | LostGeneration | LostLedger | LostKeys

  class RendezvousRoom {
    var servers: Servers
    var clients: Clients
    var currentGeneration: Option<string>
    var storedGeneration: Option<string>
    var pendingServerOutcomes: map<SocketId, Outcome>
    var pendingClientOutcomes: map<SocketId, Outcome>
    var finalizedConnections: seq<string>
    var inactiveControls: seq<string>

    /** Telemetry written and frames sent since the room first existed. */
    var metrics: seq<Metric>
    var frames: seq<Frame>

    /** The durable request for a full teardown, and the refusal of work until it is done. */
    var recoveryPersisted: bool
    var recoveryRequired: bool

    /** The constructor failed, so every handler refuses; and whether the replay ledger was opened before it did. */
    var initializationFailed: bool
    var ledgerOpened: bool

    /** Whether the platform may currently refuse an attachment write, and whether it refuses every write and close. */
    var faulty: bool
    var stuck: bool

    /** Whether a send, an upgrade, a stored value or a scheduled alarm may currently fail. */
    var lossy: bool

    /** Connections whose upgrade response was returned, and every id drawn so far. */
    var delivered: set<string>
    var issued: set<string>

    predicate Stuck()
      reads this`faulty, this`stuck
    {
      faulty && stuck
    }

    /** Every stored attachment is one the decoder returns. */
    ghost predicate Readable()
      reads this`servers, this`clients
    {
      ReadableServers(servers) && ReadableClients(clients)
    }

    ghost predicate LedgerHolds()
      reads this`clients, this`metrics, this`finalizedConnections, this`delivered
    {
      Ledger(clients, metrics, finalizedConnections, delivered)
    }

    // ---- sockets ------------------------------------------------------------------

    method TryWriteServer(id: SocketId, a: ServerAttachment) returns (ok: bool)
      requires id in servers && ValidServer(a)
      modifies this`servers
      ensures servers == if ok then old(servers)[id := old(servers)[id].(stored := Some(a))] else old(servers)
      ensures !faulty ==> ok
      ensures Stuck() ==> !ok
    {
      ReloadKeepsValid(Server(a));
      ok := *;
      ok := (ok && !Stuck()) || !faulty;
      if ok {
        servers := servers[id := servers[id].(stored := ReloadServer(a))];
      }
    }

    method TryWriteClient(id: SocketId, a: ClientAttachment) returns (ok: bool)
      requires id in clients && ValidClient(a)
      modifies this`clients
      ensures clients == if ok then old(clients)[id := old(clients)[id].(stored := Some(a))] else old(clients)
      ensures !faulty ==> ok
    {
      ReloadKeepsValid(Client(a));
      ok := *;
      ok := (ok && !Stuck()) || !faulty;
      if ok {
        clients := clients[id := clients[id].(stored := ReloadClient(a))];
      }
    }

    /** A send, an upgrade, a stored value or a scheduled alarm. */
    method CallPlatform() returns (ok: bool)
      ensures !lossy ==> ok
    {
      ok := *;
      ok := ok || !lossy;
    }

    /** Reports whether the transport is no longer open; close() may throw or have no effect. */
    method CloseServer(id: SocketId) returns (closed: bool)
      requires id in servers
      modifies this`servers
      ensures servers == old(servers)[id := old(servers)[id].(open := !closed)]
      ensures !old(servers)[id].open ==> closed
      ensures Stuck() && old(servers)[id].open ==> !closed
    {
      var effective: bool := *;
      if servers[id].open && effective && !Stuck() {
        servers := servers[id := servers[id].(open := false)];
      }
      closed := !servers[id].open;
      assert servers == old(servers)[id := old(servers)[id].(open := !closed)];
    }

    method CloseClient(id: SocketId) returns (closed: bool)
      requires id in clients
      modifies this`clients
      ensures clients == old(clients)[id := old(clients)[id].(open := !closed)]
      ensures !old(clients)[id].open ==> closed
    {
      var effective: bool := *;
      if clients[id].open && effective && !Stuck() {
        clients := clients[id := clients[id].(open := false)];
      }
      closed := !clients[id].open;
      assert clients == old(clients)[id := old(clients)[id].(open := !closed)];
    }

    /** Insertion-ordered set of at most 130 ids; the oldest leave first. */
    static method RememberBounded(values: seq<string>, value: string) returns (kept: seq<string>)
      ensures value in kept && (forall v :: v in kept ==> v in values || v == value)
      ensures |values| <= MAX_EPHEMERAL_IDS ==> |kept| <= MAX_EPHEMERAL_IDS
      ensures value in values ==> kept == values
      ensures |values| < MAX_EPHEMERAL_IDS && value !in values ==> kept == values + [value]
    {
      if value in values {
        return values;
      }
      kept := values;
      while |kept| >= MAX_EPHEMERAL_IDS
        invariant forall v :: v in kept ==> v in values
        invariant |values| < MAX_EPHEMERAL_IDS ==> kept == values
        decreases |kept|
      {
        kept := kept[1..];
      }
      kept := kept + [value];
    }

    // ---- ending one client ------------------------------------------------------------

    /** Spends the client's ticket on one control, if that control carries it unspent. */
    method SpendTicket(id: SocketId, client: ClientAttachment)
      requires id in servers && ReadableServers(servers) && client.ticketDigest.Some?
      modifies this`servers
      ensures servers == old(servers) || servers == old(servers)[id := SpentAt(old(servers)[id], client)]
      ensures !faulty ==> servers[id] == SpentAt(old(servers)[id], client)
    {
      hide SocketMarked;
      SpendingIsMarking(servers[id], client);
      var stored := servers[id].stored;
      if stored.Some? && stored.value.controlId == client.controlId && stored.value.generation == client.generation {
        var k := TicketIndex(stored.value.tickets, client.ticketDigest.value, Some(client.connectionId));
        assert k < |stored.value.tickets| && stored.value.tickets[k].stage == Spent ==>
          WithTicketSpent(stored.value, client).tickets == stored.value.tickets;
        if k < |stored.value.tickets| && stored.value.tickets[k].stage != Spent {
          var _ := TryWriteServer(id, WithTicketSpent(stored.value, client));
        }
      }
    }

    /** Spends the client's ticket on every control that carries it. */
    method MarkTicketTerminal(client: ClientAttachment)
      requires ReadableServers(servers)
      modifies this`servers
      ensures OnlyMarked(old(servers), servers) && ReadableServers(servers)
      ensures forall id :: id in servers ==>
          servers[id] == old(servers)[id] || servers[id] == SpentAt(old(servers)[id], client)
      ensures !faulty ==> forall id :: id in servers ==> servers[id] == SpentAt(old(servers)[id], client)
      ensures !faulty ==> forall id :: id in servers ==> TicketSpent(servers[id], client)
    {
      ghost var before := servers;
      ShrunkSelf(servers);
      if client.ticketDigest.None? {
        return;
      }
      hide ReadableServers, OnlyMarked, SpentAt, TicketSpent;
      var todo := servers.Keys;
      while todo != {}
        invariant servers.Keys == before.Keys && todo <= servers.Keys && ReadableServers(servers)
        invariant forall id :: id in todo ==> servers[id] == before[id]
        invariant forall id :: id in servers ==> servers[id] == before[id] || servers[id] == SpentAt(before[id], client)
        invariant !faulty ==> forall id :: id in servers && id !in todo ==> servers[id] == SpentAt(before[id], client)
        decreases |todo|
      {
        var id: SocketId :| id in todo;
        todo := todo - {id};
        SpendTicket(id, client);
        SpendingKeepsControls(before, servers, client);
      }
      SpendingKeepsControls(before, servers, client);
      if !faulty {
        SpentEverywhere(before, servers, client);
      }
    }

    /**
     Writes the durable marker and then the metric; without the marker nothing
     is written and the caller keeps the unmarked attachment.
     */
    method EmitTerminalMetric(id: SocketId, a: ClientAttachment, outcome: Outcome)
      returns (reported: bool, after: ClientAttachment)
      requires id in clients && ValidClient(a.(summaryEmitted := true))
      modifies this`clients, this`metrics, this`finalizedConnections
      ensures after == a || after == a.(summaryEmitted := true)
      ensures if a.summaryEmitted || a.connectionId in old(finalizedConnections) then
                reported && after == a && metrics == old(metrics) && clients == old(clients) &&
                finalizedConnections == old(finalizedConnections)
              else if reported then
                after == a.(summaryEmitted := true) && metrics == old(metrics) + [MetricOf(a, outcome)] &&
                clients == old(clients)[id := old(clients)[id].(stored := Some(after))] &&
                a.connectionId in finalizedConnections &&
                forall v :: v in finalizedConnections ==> v in old(finalizedConnections) || v == a.connectionId
              else
                after == a && metrics == old(metrics) && clients == old(clients) &&
                finalizedConnections == old(finalizedConnections)
      ensures !faulty ==> reported
    {
      if a.summaryEmitted || a.connectionId in finalizedConnections {
        return true, a;
      }
      after := a.(summaryEmitted := true);
      reported := TryWriteClient(id, after);
      if !reported {
        after := a;
        return;
      }
      finalizedConnections := RememberBounded(finalizedConnections, a.connectionId);
      metrics := metrics + [MetricOf(a, outcome)];
    }

    /** The outcome that wins: one already durable, then one already owed, then the caller's. */
    function CanonicalOutcome(id: SocketId, a: ClientAttachment, outcome: Outcome): Outcome
      reads this`pendingClientOutcomes
    {
      if a.terminalOutcome.Some? then a.terminalOutcome.value
      else if id in pendingClientOutcomes then pendingClientOutcomes[id]
      else outcome
    }

    /** Makes the terminal state durable, unless it already is and nothing is owed. */
    method PersistTerminal(id: SocketId, a: ClientAttachment, canonical: Outcome, owed: bool)
      returns (persisted: bool, t: ClientAttachment)
      requires Readable() && id in clients && Endable(a)
      modifies this`servers, this`clients
      ensures t == EndedSession(a, canonical)
      ensures OnlyMarked(old(servers), servers) && ReadableServers(servers)
      ensures clients == old(clients) || clients == old(clients)[id := old(clients)[id].(stored := Some(t))]
      ensures persisted && !(a.stage == Terminal && !owed) ==> clients[id].stored == Some(t)
      ensures !persisted ==> clients == old(clients)
      ensures !faulty || (a.stage == Terminal && !owed) ==> persisted
      ensures !faulty && a.stage != Terminal ==> forall sid :: sid in servers ==> TicketSpent(servers[sid], a)
    {
      EndedIsValid(a, canonical);
      hide TicketSpent, OnlyMarked, EndedSession, ValidServer, ValidClient, Endable;
      ShrunkSelf(servers);
      persisted := a.stage == Terminal && !owed;
      if a.stage != Terminal {
        MarkTicketTerminal(a);
      }
      t := EndedSession(a, canonical);
      if !persisted {
        persisted := TryWriteClient(id, t);
      }
    }

    /**
     Ends one client. Normal return means the terminal state was persisted, its
     summary is settled, or the transport is closed; otherwise nothing durable
     changed and the outcome stays owed.
     */
    method FailClient(id: SocketId, a: ClientAttachment, outcome: Outcome) returns (ok: bool)
      requires Readable() && id in clients && clients[id].stored.Some?
      requires SameSession(clients[id].stored.value, a) && Endable(a)
      modifies this`servers, this`clients, this`pendingClientOutcomes, this`metrics, this`finalizedConnections
      ensures Readable() && OnlyMarked(old(servers), servers)
      ensures ClientFailed(old(clients), clients, id, EndedSession(a, old(CanonicalOutcome(id, a, outcome))),
                           old(metrics), metrics, old(finalizedConnections), finalizedConnections)
      ensures !faulty && a.stage != Terminal ==>
                DurablyTerminal(clients[id]) &&
                WroteEnd(clients, id, EndedSession(a, old(CanonicalOutcome(id, a, outcome))), metrics != old(metrics))
      ensures !faulty && !a.summaryEmitted && a.connectionId !in old(finalizedConnections) ==> metrics != old(metrics)
      ensures ok && a.stage != Terminal ==>
                Gone(clients[id]) || a.summaryEmitted || a.connectionId in old(finalizedConnections)
      ensures !ok ==> clients[id] == old(clients)[id] && clients[id].open && id in pendingClientOutcomes
      ensures !faulty ==> ok && id !in pendingClientOutcomes
      ensures pendingClientOutcomes.Keys <= old(pendingClientOutcomes.Keys) + {id}
      ensures old(LedgerHolds() && KeepsMarker(clients[id], a)) ==> LedgerHolds()
      ensures pendingClientOutcomes - {id} == old(pendingClientOutcomes) - {id}
      ensures !faulty && a.stage != Terminal ==> forall sid :: sid in servers ==> TicketSpent(servers[sid], a)
    {
      hide TicketSpent, OnlyMarked, ValidServer, ValidClient, Endable, EndedSession, Ledger, MetricOf, KeepsMarker,
           SameSession, ReadableServers, ReadableClients;
      ghost var before := clients;
      var owed := id in pendingClientOutcomes;
      var canonical := CanonicalOutcome(id, a, outcome);
      EndedIsValid(a, canonical);
      pendingClientOutcomes := pendingClientOutcomes[id := canonical];

      var persisted, t := PersistTerminal(id, a, canonical, owed);
      ok := SettleTerminal(id, t, persisted);
      assert clients == before[id := clients[id]];
      ReadableAfterWrite(before, id, clients[id]);
      if old(LedgerHolds() && KeepsMarker(clients[id], a)) {
        LedgerAfterFail(before, clients, id, a, canonical, old(metrics), metrics, old(finalizedConnections),
                        finalizedConnections, delivered);
      }
    }

    /** The end of a teardown: the summary, what stays owed, and the transport. */
    method SettleTerminal(id: SocketId, t: ClientAttachment, persisted: bool) returns (ok: bool)
      requires id in clients && id in pendingClientOutcomes && t.terminalOutcome.Some?
      requires ValidClient(t.(summaryEmitted := true))
      modifies this`clients, this`pendingClientOutcomes, this`metrics, this`finalizedConnections
      ensures ClientFailed(old(clients), clients, id, t, old(metrics), metrics, old(finalizedConnections),
                           finalizedConnections)
      ensures clients[id].stored ==
              if metrics == old(metrics) then old(clients)[id].stored else Some(t.(summaryEmitted := true))
      ensures ok ==>
          persisted || !clients[id].open || t.summaryEmitted || t.connectionId in old(finalizedConnections) ||
                     clients[id].stored == Some(t.(summaryEmitted := true))
      ensures !ok ==> clients == old(clients) && clients[id].open && id in pendingClientOutcomes && !persisted
      ensures persisted || !faulty ==> ok && id !in pendingClientOutcomes
      ensures pendingClientOutcomes == old(pendingClientOutcomes) ||
          pendingClientOutcomes == old(pendingClientOutcomes) - {id}
      ensures !faulty && !t.summaryEmitted && t.connectionId !in old(finalizedConnections) ==> metrics != old(metrics)
    {
      hide ValidClient, MetricOf;
      var reported, _ := EmitTerminalMetric(id, t, t.terminalOutcome.value);
      if persisted || reported {
        pendingClientOutcomes := pendingClientOutcomes - {id};
      }
      var closed := CloseClient(id);
      ok := persisted || reported || closed;
    }

    /** Ends one client with its own stored attachment; an unreadable one is only closed. */
    method EndStoredClient(id: SocketId, outcome: Outcome) returns (ok: bool)
      requires Readable() && id in clients
      modifies this`servers, this`clients, this`pendingClientOutcomes, this`metrics, this`finalizedConnections
      ensures Readable() && OnlyMarked(old(servers), servers)
      ensures clients.Keys == old(clients.Keys) && Settled(old(clients), clients)
      ensures forall other :: other in clients && other != id ==> clients[other] == old(clients)[other]
      ensures old(LedgerHolds()) ==> LedgerHolds()
      ensures !faulty ==> pendingClientOutcomes.Keys <= old(pendingClientOutcomes.Keys)
      ensures old(metrics) <= metrics
      ensures !faulty && old(clients)[id].stored.Some? ==> ok && id !in pendingClientOutcomes
      ensures forall v :: v in finalizedConnections ==>
                v in old(finalizedConnections) ||
                (old(clients)[id].stored.Some? && v == old(clients)[id].stored.value.connectionId)
      ensures !faulty && OwesReport(old(clients)[id], old(finalizedConnections)) ==>
                Reported(metrics, old(clients)[id].stored.value.connectionId)
      ensures ok && old(LedgerHolds()) ==> Quiet(clients[id])
      ensures !faulty && clients[id].stored.Some? ==> ok && DurablyTerminal(clients[id])
      ensures !faulty && old(clients)[id].stored.Some? && !DurablyTerminal(old(clients)[id]) ==>
                clients[id].stored.Some? && clients[id].stored.value.terminalCloseAttempts == 0 &&
                clients[id].stored.value.expiresAt == old(clients)[id].stored.value.expiresAt
      ensures pendingClientOutcomes - {id} == old(pendingClientOutcomes) - {id}
      ensures !faulty ==>
                EndedFor(old(clients)[id], clients[id],
                         HowEnded(old(clients)[id], old(pendingClientOutcomes), id, outcome))
    {
      hide Reported, OnlyMarked, Ledger, ReadableServers, ValidClient, Endable, EndedSession, ClientFailed, SameSession,
        EndedAs;
      ghost var before := clients;
      ShrunkSelf(servers);
      if clients[id].stored.Some? {
        var a := clients[id].stored.value;
        ghost var canonical := CanonicalOutcome(id, a, outcome);
        StoredIsEndable(a);
        ok := FailClient(id, a, outcome);
        FailSettles(before, clients, id, a, canonical, old(metrics), metrics, old(finalizedConnections),
                    finalizedConnections);
        FailReports(before, clients, id, a, canonical, old(metrics), metrics, old(finalizedConnections),
                    finalizedConnections);
        if !faulty && a.stage != Terminal {
          FailResets(before, clients, id, a, canonical, old(metrics), metrics, old(finalizedConnections),
                     finalizedConnections);
          EndedFields(clients, id, a, canonical, metrics != old(metrics));
        }
        if ok && old(LedgerHolds()) {
          FailQuiets(before, clients, id, a, canonical, old(metrics), metrics, old(finalizedConnections),
                     finalizedConnections, delivered);
        }
      } else {
        ok := CloseClient(id);
        LedgerAfterClose(before, id, clients[id], metrics, finalizedConnections, delivered);
      }
    }

    /** Ends every client; reports whether all of them could be. */
    method CloseAllClients(outcome: Outcome) returns (ok: bool)
      requires Readable()
      modifies this`servers, this`clients, this`pendingClientOutcomes, this`metrics, this`finalizedConnections
      ensures Readable() && OnlyMarked(old(servers), servers)
      ensures clients.Keys == old(clients.Keys) && Settled(old(clients), clients)
      ensures old(LedgerHolds()) ==> LedgerHolds()
      ensures ok && old(LedgerHolds()) ==> forall id :: id in clients ==> Quiet(clients[id])
      ensures old(metrics) <= metrics
      ensures !faulty && old(DistinctConnections(clients)) ==>
                AllReported(old(clients), old(finalizedConnections), metrics)
      ensures !faulty && old(AllReadable(clients)) ==> ok && AllReadable(clients)
      ensures !faulty ==> forall id :: id in clients && clients[id].stored.Some? ==> DurablyTerminal(clients[id])
      ensures !faulty ==> AllEnded(old(clients), clients, old(pendingClientOutcomes), outcome)
    {
      ghost var before := clients;
      ghost var controls := servers;
      ghost var owed := pendingClientOutcomes;
      hide SameOwed, EndedBut, EndedFor, HowEnded, AllEnded, ReportedBut, AllReported, OnlyMarked, Ledger,
        ReadableServers, ReadableClients, Settled, Quiet, DurablyTerminal, Reported;
      ghost var reports, marks := metrics, finalizedConnections;
      ghost var distinct := DistinctConnections(clients);
      hide DistinctConnections;
      ShrunkSelf(servers);
      SettledSelf(clients);
      EndedNone(clients, owed, outcome);
      ReportedNone(clients, marks, metrics);
      ok := true;
      var todo := clients.Keys;
      while todo != {}
        invariant clients.Keys == before.Keys && todo <= clients.Keys && Readable()
        invariant OnlyMarked(controls, servers) && Settled(before, clients)
        invariant forall id :: id in todo ==> clients[id] == before[id]
        invariant old(LedgerHolds()) ==> LedgerHolds()
        invariant reports <= metrics
        invariant SameOwed(pendingClientOutcomes, owed, todo)
        invariant !faulty ==> EndedBut(before, clients, owed, outcome, todo)
        invariant !faulty && distinct ==> ReportedBut(before, marks, metrics, finalizedConnections, todo)
        invariant !faulty && AllReadable(before) ==> ok
        invariant ok && old(LedgerHolds()) ==> forall id :: id in clients && id !in todo ==> Quiet(clients[id])
        invariant !faulty ==> forall id :: id in clients && id !in todo && clients[id].stored.Some? ==>
            DurablyTerminal(clients[id])
        decreases |todo|
      {
        var id: SocketId :| id in todo;
        ghost var listed := todo;
        todo := todo - {id};
        assert listed == todo + {id};
        ghost var earlier, marked := clients, servers;
        ghost var sent, known := metrics, finalizedConnections;
        ghost var unsettled := pendingClientOutcomes;
        var ended := EndStoredClient(id, outcome);
        SameOwedStep(unsettled, pendingClientOutcomes, owed, todo, id);
        if !faulty {
          EndedStep(before, earlier, clients, unsettled, owed, outcome, todo, id);
        }
        ok := ok && ended;
        MarkedTransitive(controls, marked, servers);
        SettledTransitive(before, earlier, clients);
        if !faulty && distinct {
          OneMoreReported(before, marks, sent, metrics, known, finalizedConnections, todo, id);
        }
      }
      if !faulty {
        EndedAll(before, clients, owed, outcome);
        if distinct {
          ReportedEvery(before, marks, metrics, finalizedConnections);
        }
      }
      SettledStaysReadable(before, clients);
    }

    // ---- ending one control --------------------------------------------------------------

    /** At most one open control holds the room, and only that one can owe a teardown. */
    ghost predicate Owned()
      reads this`servers, this`pendingServerOutcomes
    {
      AtMostOneOwner(servers) && PendingOwned(servers, pendingServerOutcomes)
    }

    static function Without(values: seq<string>, value: string): (kept: seq<string>)
      ensures forall v :: v in kept <==> v in values && v != value
    {
      if |values| == 0 then []
      else if values[0] == value then Without(values[1..], value)
      else [values[0]] + Without(values[1..], value)
    }

    /**
     Ends one control: its claim, then its clients, then its transport. The
     outcome stays owed only while the control is still open and claiming.
     */
    method FailServer(id: SocketId, a: ServerAttachment, outcome: Outcome) returns (ok: bool)
      requires Readable() && id in servers && servers[id].stored.Some? && ValidServer(a)
      requires AttachmentShrunk(servers[id].stored.value, a) && a.current == servers[id].stored.value.current
      modifies this`servers, this`clients, this`pendingServerOutcomes, this`pendingClientOutcomes, this`metrics,
        this`finalizedConnections, this`inactiveControls
      ensures Readable() && servers.Keys == old(servers.Keys) && Shrunk(old(servers), servers)
      ensures clients.Keys == old(clients.Keys) && Settled(old(clients), clients)
      ensures forall other :: other in servers && other != id ==> SocketMarked(old(servers)[other], servers[other])
      ensures old(LedgerHolds()) ==> LedgerHolds()
      ensures old(metrics) <= metrics
      ensures id in old(pendingServerOutcomes) && !faulty && old(DistinctConnections(clients)) ==>
                AllReported(old(clients), old(finalizedConnections), metrics)
      ensures !faulty && old(AllReadable(clients)) ==> ok
      ensures pendingServerOutcomes.Keys == old(pendingServerOutcomes.Keys) - {id} ||
              (id in pendingServerOutcomes && pendingServerOutcomes.Keys == old(pendingServerOutcomes.Keys) + {id})
      ensures if id in pendingServerOutcomes then !ok && (a.current || id in old(pendingServerOutcomes)) &&
                                                  (a.current ==> Holds(servers[id]))
              else !Holds(servers[id])
      ensures ok && a.current && old(LedgerHolds()) ==> forall c :: c in clients ==> Quiet(clients[c])
      ensures !faulty ==> id !in pendingServerOutcomes
      ensures Stuck() && a.current && old(servers)[id].open ==> !ok
      ensures old(Owned()) ==> Owned()
      ensures a.current && !faulty ==>
                forall c :: c in clients && clients[c].stored.Some? ==> DurablyTerminal(clients[c])
      ensures !faulty ==> !Holds(servers[id])
      ensures a.current && !faulty ==>
                AllEnded(old(clients), clients, old(pendingClientOutcomes),
                         if id in old(pendingServerOutcomes) then old(pendingServerOutcomes)[id] else outcome)
    {
      hide AllEnded, Reported, AllReported, AllReadable, DistinctConnections;
      hide Ledger, ReadableClients, ReadableServers, ValidServer, TicketsDerived, TicketsMarked, Shrunk, OnlyMarked,
        Settled, Quiet,
        SocketMarked, AtMostOneOwner, PendingOwned, AttachmentShrunk;
      ghost var before := servers;
      var owed := id in pendingServerOutcomes;
      var canonical := if owed then pendingServerOutcomes[id] else outcome;
      pendingServerOutcomes := pendingServerOutcomes[id := canonical];
      var clientsEnded, settled := RetireControl(id, a, canonical, owed);
      if settled {
        pendingServerOutcomes := pendingServerOutcomes - {id};
      }
      ok := clientsEnded && settled;
      if old(Owned()) {
        FailKeepsPending(before, servers, old(pendingServerOutcomes), pendingServerOutcomes, id);
        ShrunkKeepsOwnership(before, servers);
      }
    }

    /** The teardown of one control: claim, clients, transport. */
    method RetireControl(id: SocketId, a: ServerAttachment, outcome: Outcome, owed: bool)
      returns (clientsEnded: bool, settled: bool)
      requires Readable() && id in servers && servers[id].stored.Some? && ValidServer(a)
      requires AttachmentShrunk(servers[id].stored.value, a) && a.current == servers[id].stored.value.current
      modifies this`servers, this`clients, this`pendingClientOutcomes, this`metrics, this`finalizedConnections,
        this`inactiveControls
      ensures Readable() && servers.Keys == old(servers.Keys) && Shrunk(old(servers), servers)
      ensures clients.Keys == old(clients.Keys) && Settled(old(clients), clients)
      ensures forall other :: other in servers && other != id ==> SocketMarked(old(servers)[other], servers[other])
      ensures old(LedgerHolds()) ==> LedgerHolds()
      ensures old(metrics) <= metrics
      ensures (a.current || owed) && !faulty && old(DistinctConnections(clients)) ==>
                AllReported(old(clients), old(finalizedConnections), metrics)
      ensures !faulty && old(AllReadable(clients)) ==> clientsEnded
      ensures settled ==> !Holds(servers[id])
      ensures !settled ==> (a.current || owed) && (a.current ==> Holds(servers[id]))
      ensures clientsEnded && a.current && old(LedgerHolds()) ==> forall c :: c in clients ==> Quiet(clients[c])
      ensures !faulty ==> settled
      ensures Stuck() && a.current && old(servers)[id].open ==> !settled
      ensures a.current && !faulty ==>
                forall c :: c in clients && clients[c].stored.Some? ==> DurablyTerminal(clients[c])
      ensures a.current && !faulty ==> AllEnded(old(clients), clients, old(pendingClientOutcomes), outcome)
    {
      hide AllEnded, Reported, AllReported, AllReadable, DistinctConnections;
      hide Ledger, ReadableClients, ReadableServers, ValidServer, TicketsDerived, TicketsMarked, Shrunk, OnlyMarked,
        Settled, Quiet,
        SocketMarked, AttachmentShrunk;
      ghost var before := servers;
      var persisted := DropClaim(id, a, owed);
      ghost var demoted := servers;
      clientsEnded := EndOwnedClients(a.current || owed, outcome);
      ghost var marked := servers;
      MarkedStaysOpen(demoted, marked, id);
      var closed := CloseServer(id);
      RetiredAfter(before, demoted, marked, servers, id);
      settled := persisted || closed;
    }

    /** Tries to make the end of a claim durable; without a claim or a debt there is nothing to write. */
    method DropClaim(id: SocketId, a: ServerAttachment, owed: bool) returns (persisted: bool)
      requires ReadableServers(servers) && id in servers && servers[id].stored.Some? && ValidServer(a)
      requires AttachmentShrunk(servers[id].stored.value, a) && a.current == servers[id].stored.value.current
      modifies this`servers, this`inactiveControls
      ensures ReadableServers(servers) && servers.Keys == old(servers.Keys) && Shrunk(old(servers), servers)
      ensures forall other :: other in servers && other != id ==> servers[other] == old(servers)[other]
      ensures persisted ==> !Claims(servers, id)
      ensures !persisted ==> servers == old(servers) && (a.current || owed)
      ensures !faulty ==> persisted
      ensures Stuck() && a.current ==> !persisted
    {
      ShrunkSelf(servers);
      hide ValidServer, ReadableServers, Shrunk, TicketsDerived, TicketsMarked;
      persisted := !a.current && !owed;
      if a.current {
        inactiveControls := RememberBounded(inactiveControls, a.controlId);
      }
      if !persisted {
        persisted := RetireClaim(id, a);
      }
    }

    method EndOwnedClients(owns: bool, outcome: Outcome) returns (ok: bool)
      requires Readable()
      modifies this`servers, this`clients, this`pendingClientOutcomes, this`metrics, this`finalizedConnections
      ensures Readable() && OnlyMarked(old(servers), servers) && servers.Keys == old(servers.Keys)
      ensures clients.Keys == old(clients.Keys) && Settled(old(clients), clients)
      ensures old(LedgerHolds()) ==> LedgerHolds()
      ensures old(metrics) <= metrics
      ensures owns && !faulty && old(DistinctConnections(clients)) ==>
                AllReported(old(clients), old(finalizedConnections), metrics)
      ensures !faulty && old(AllReadable(clients)) ==> ok
      ensures owns && ok && old(LedgerHolds()) ==> forall c :: c in clients ==> Quiet(clients[c])
      ensures owns && !faulty ==>
                forall c :: c in clients && clients[c].stored.Some? ==> DurablyTerminal(clients[c])
      ensures owns && !faulty ==> AllEnded(old(clients), clients, old(pendingClientOutcomes), outcome)
    {
      ShrunkSelf(servers);
      SettledSelf(clients);
      hide AllEnded, Reported, AllReported, AllReadable, DistinctConnections;
      hide Ledger, ReadableClients, ReadableServers, Settled, Quiet, SocketMarked;
      ok := true;
      if owns {
        ok := CloseAllClients(outcome);
      }
    }

    /** Tries to make the dropped claim durable. */
    method RetireClaim(id: SocketId, a: ServerAttachment) returns (ok: bool)
      requires ReadableServers(servers) && id in servers && servers[id].stored.Some? && ValidServer(a)
      requires AttachmentShrunk(servers[id].stored.value, a)
      modifies this`servers
      ensures ReadableServers(servers) && servers.Keys == old(servers.Keys) && Shrunk(old(servers), servers)
      ensures servers == if ok then old(servers)[id := old(servers)[id].(stored := Some(a.(current := false)))]
                         else old(servers)
      ensures !faulty ==> ok
      ensures Stuck() ==> !ok
    {
      assert ValidServer(a.(current := false));
      ShrunkSelf(servers);
      hide ValidServer, ReadableServers, Shrunk, TicketsDerived, TicketsMarked;
      ghost var before := servers;
      ok := TryWriteServer(id, a.(current := false));
      RetiringShrinks(before, id, servers[id], a);
      assert servers == before[id := servers[id]];
    }

    // ---- replacing a control ----------------------------------------------------------------

    /**
     Makes a control safely inactive: a durable demotion, or failing that a
     completed close. Without either it is left exactly as it was.
     */
    method PrepareServerRetirement(id: SocketId, a: ServerAttachment) returns (retirement: Option<Retirement>)
      requires ReadableServers(servers) && id in servers && servers[id].stored == Some(a)
      modifies this`servers, this`pendingServerOutcomes, this`inactiveControls
      ensures ReadableServers(servers)
      ensures retirement.None? ==>
                servers == old(servers) && pendingServerOutcomes == old(pendingServerOutcomes) && servers[id].open
      ensures retirement.Some? ==>
                && OneRetired(old(servers), servers, id)
                && pendingServerOutcomes == old(pendingServerOutcomes) - {id}
                && retirement.value.id == id
                && (if retirement.value.durablyDemoted then
                      retirement.value.attachment == a.(current := false) &&
                      servers[id] == old(servers)[id].(stored := Some(a.(current := false)))
                    else retirement.value.attachment == a && servers[id] == old(servers)[id].(open := false))
      ensures !faulty ==> retirement.Some? && retirement.value.durablyDemoted
    {
      ghost var before := servers;
      DerivedSelf(a.tickets);
      hide ValidServer, ReadableServers, TicketsDerived, TicketsMarked;
      assert ValidServer(a) by {
        ReadAt(servers, id);
      }
      var demoted := RetireClaim(id, a);
      if demoted {
        pendingServerOutcomes := pendingServerOutcomes - {id};
        return Some(Retirement(id, a.(current := false), true));
      }
      inactiveControls := RememberBounded(inactiveControls, a.controlId);
      var closed := CloseServer(id);
      RetiringShrinks(before, id, servers[id], a);
      if closed {
        pendingServerOutcomes := pendingServerOutcomes - {id};
        return Some(Retirement(id, a, false));
      }
      inactiveControls := Without(inactiveControls, a.controlId);
      assert servers == before;
      retirement := None;
    }

    method FinishServerRetirement(retirement: Retirement)
      requires ReadableServers(servers) && retirement.id in servers
      modifies this`servers
      ensures ReadableServers(servers) && Shrunk(old(servers), servers)
      ensures retirement.id in servers && servers == old(servers)[retirement.id := servers[retirement.id]]
      ensures servers[retirement.id].stored == old(servers)[retirement.id].stored
      ensures !retirement.durablyDemoted ==> servers == old(servers)
    {
      ghost var before := servers;
      ShrunkSelf(servers);
      if retirement.durablyDemoted {
        var _ := CloseServer(retirement.id);
        ShrinkOne(before, retirement.id, servers[retirement.id]);
        hide ValidServer;
        assert ReadableServers(servers);
      }
    }

    method RetireServerImmediately(id: SocketId, a: ServerAttachment) returns (retired: bool)
      requires ReadableServers(servers) && id in servers && servers[id].stored == Some(a)
      modifies this`servers, this`pendingServerOutcomes, this`inactiveControls
      ensures ReadableServers(servers)
      ensures !retired ==>
                servers == old(servers) && pendingServerOutcomes == old(pendingServerOutcomes) && servers[id].open
      ensures retired ==>
                OneRetired(old(servers), servers, id) && pendingServerOutcomes == old(pendingServerOutcomes) - {id}
      ensures !faulty ==> retired
      ensures old(Owned()) ==> Owned()
    {
      ghost var before := servers;
      hide ReadableServers, ValidServer, TicketsDerived, TicketsMarked, AtMostOneOwner, PendingOwned;
      var retirement := PrepareServerRetirement(id, a);
      retired := retirement.Some?;
      if retired {
        FinishServerRetirement(retirement.value);
        if old(Owned()) {
          RetiredKeepsPending(before, servers, old(pendingServerOutcomes), pendingServerOutcomes, id);
        }
      }
    }

    /** Ends every control whose teardown is still owed. */
    method RetryPendingServerTeardowns() returns (ok: bool)
      requires Readable()
      modifies this`servers, this`clients, this`pendingServerOutcomes, this`pendingClientOutcomes, this`metrics,
        this`finalizedConnections, this`inactiveControls
      ensures Readable() && servers.Keys == old(servers.Keys) && Shrunk(old(servers), servers)
      ensures clients.Keys == old(clients.Keys) && Settled(old(clients), clients)
      ensures old(LedgerHolds()) ==> LedgerHolds()
      ensures old(metrics) <= metrics
      ensures !faulty && old(OwesReadably() && DistinctConnections(clients)) ==>
                AllReported(old(clients), old(finalizedConnections), metrics)
      ensures !faulty && old(AllReadable(clients) && OwedAreReadable()) ==> ok
      ensures old(Owned()) ==> Owned()
      ensures ok ==> forall id :: id in servers ==> id !in pendingServerOutcomes
      ensures ok ==> forall id :: id in servers && id in old(pendingServerOutcomes) ==> !Holds(servers[id])
      ensures forall id :: id in servers && id !in old(pendingServerOutcomes) ==>
                SocketMarked(old(servers)[id], servers[id])
      ensures (forall id :: id in servers ==> id !in old(pendingServerOutcomes)) ==>
                ok && Idle()
    {
      hide Swept, Reported, AllReported, AllReadable, DistinctConnections, Ledger, ReadableClients, ReadableServers,
        Shrunk, Settled, SocketMarked, AtMostOneOwner, PendingOwned, AttachmentShrunk, Holds;
      ghost var before, sessions := servers, clients;
      ShrunkSelf(servers);
      SettledSelf(clients);
      ShrunkStaysReadable(servers, servers);
      MarksNothing(servers);
      ok := true;
      ghost var owed := pendingServerOutcomes.Keys;
      ghost var reports, marks := metrics, finalizedConnections;
      ghost var swept, readable := false, OwedAreReadable();
      SweepStarts(readable);
      var todo := servers.Keys;
      while todo != {}
        invariant Readable() && todo <= servers.Keys && Shrunk(before, servers) && OthersMarked(before, servers, owed)
        invariant clients.Keys == sessions.Keys && Settled(sessions, clients)
        invariant old(LedgerHolds()) ==> LedgerHolds()
        invariant Swept(sessions, marks, reports, swept, readable, ok)
        invariant old(Owned()) ==> Owned()
        invariant servers.Keys == before.Keys && (swept <==> exists id :: id in servers && id !in todo && id in owed)
        invariant forall id :: id in todo ==> (id in pendingServerOutcomes <==> id in owed)
        invariant ok ==> forall id :: id in servers && id !in todo ==>
                    id !in pendingServerOutcomes && (id in owed ==> !Holds(servers[id]))
        invariant !swept ==> ok && Idle()
        decreases |todo|
      {
        var id: SocketId :| id in todo;
        todo := todo - {id};
        ghost var earlier := servers;
        var settled := EndAndSweep(id, before, owed, sessions, marks, reports, swept, readable, ok);
        swept := swept || id in owed;
        ok := ok && settled;
        ShrunkKeepsOwnership(earlier, servers);
      }
      SweepEnds(sessions, marks, reports, swept, readable, ok);
    }

    /** A retry pass in progress: before its first teardown nothing changed, after it everyone is reported. */
    ghost predicate Swept(
      sessions: Clients, marks: seq<string>, reports: seq<Metric>, swept: bool, readable: bool, ok: bool)
      reads this
    {
      && reports <= metrics
      && (!swept ==> finalizedConnections == marks && clients == sessions && metrics == reports)
      && (swept && !faulty && readable && DistinctConnections(sessions) ==> AllReported(sessions, marks, metrics))
      && (!faulty && AllReadable(sessions) && readable ==> ok && AllReadable(clients))
    }

    lemma SweepStarts(readable: bool)
      ensures Swept(clients, finalizedConnections, metrics, false, readable, true)
    {
      hide AllReported, AllReadable;
    }

    lemma SweepEnds(
      sessions: Clients, marks: seq<string>, reports: seq<Metric>, swept: bool, readable: bool, ok: bool)
      requires Swept(sessions, marks, reports, swept, readable, ok)
      ensures reports <= metrics
      ensures swept && !faulty && readable && DistinctConnections(sessions) ==> AllReported(sessions, marks, metrics)
      ensures !faulty && AllReadable(sessions) && readable ==> ok
    {
      hide AllReported, AllReadable, DistinctConnections;
    }

    method EndAndSweep(
      id: SocketId, ghost before: Servers, ghost owed: set<SocketId>, ghost sessions: Clients,
      ghost marks: seq<string>, ghost reports: seq<Metric>, ghost swept: bool, ghost readable: bool, ghost soFar: bool)
      returns (ok: bool)
      requires Readable() && id in servers && Swept(sessions, marks, reports, swept, readable, soFar)
      requires Shrunk(before, servers) && OthersMarked(before, servers, owed) && Settled(sessions, clients)
      requires (id in pendingServerOutcomes <==> id in owed) && (readable && id in owed ==> before[id].stored.Some?)
      modifies this`servers, this`clients, this`pendingServerOutcomes, this`pendingClientOutcomes, this`metrics,
        this`finalizedConnections, this`inactiveControls
      ensures Readable() && servers.Keys == old(servers.Keys) && Shrunk(old(servers), servers)
      ensures Shrunk(before, servers) && OthersMarked(before, servers, owed)
      ensures clients.Keys == old(clients.Keys) && Settled(sessions, clients)
      ensures old(LedgerHolds()) ==> LedgerHolds()
      ensures old(Owned()) ==> Owned()
      ensures forall other :: other != id ==> (other in pendingServerOutcomes <==> other in old(pendingServerOutcomes))
      ensures ok ==> id !in pendingServerOutcomes && (id in old(pendingServerOutcomes) ==> !Holds(servers[id]))
      ensures id !in old(pendingServerOutcomes) ==> ok && Idle()
      ensures Swept(sessions, marks, reports, swept || id in old(pendingServerOutcomes), readable, soFar && ok)
    {
      hide OthersMarked, Ledger, ReadableClients, ReadableServers, Shrunk, Settled, SocketMarked, AtMostOneOwner,
        PendingOwned, Holds,
        Reported, AllReported, AllReadable, DistinctConnections;
      ghost var controls, earlier, sent := servers, clients, metrics;
      OthersKeys(before, servers, owed);
      ShrunkStaysReadable(before, servers);
      ok := EndIfOwed(id);
      SettledStaysReadable(earlier, clients);
      ShrunkTransitive(before, controls, servers);
      SettledTransitive(sessions, earlier, clients);
      OthersMarkedNext(before, controls, servers, owed, id);
      if swept && AllReported(sessions, marks, sent) {
        AllReportedStays(sessions, marks, sent, metrics);
      }
    }

    /** Every owed control still has a readable attachment. */
    ghost predicate OwedAreReadable()
      reads this`servers, this`pendingServerOutcomes
    {
      forall id :: id in servers && id in pendingServerOutcomes ==> servers[id].stored.Some?
    }

    /** Some listed control owes its teardown, and all that do can be read. */
    ghost predicate OwesReadably()
      reads this`servers, this`pendingServerOutcomes
    {
      OwedAreReadable() && exists id :: id in servers && id in pendingServerOutcomes
    }

    method EndIfOwed(id: SocketId) returns (ok: bool)
      requires Readable() && id in servers
      modifies this`servers, this`clients, this`pendingServerOutcomes, this`pendingClientOutcomes, this`metrics,
        this`finalizedConnections, this`inactiveControls
      ensures Readable() && servers.Keys == old(servers.Keys) && Shrunk(old(servers), servers)
      ensures clients.Keys == old(clients.Keys) && Settled(old(clients), clients)
      ensures old(LedgerHolds()) ==> LedgerHolds()
      ensures old(metrics) <= metrics
      ensures (id in old(pendingServerOutcomes) && old(servers)[id].stored.Some? && !faulty &&
               old(DistinctConnections(clients))) ==> AllReported(old(clients), old(finalizedConnections), metrics)
      ensures !faulty && old(AllReadable(clients)) && old(servers)[id].stored.Some? ==> ok
      ensures old(Owned()) ==> Owned()
      ensures forall other :: other != id ==> (other in pendingServerOutcomes <==> other in old(pendingServerOutcomes))
      ensures forall other :: other in servers && (other != id || id !in old(pendingServerOutcomes)) ==>
                SocketMarked(old(servers)[other], servers[other])
      ensures ok ==> id !in pendingServerOutcomes && (id in old(pendingServerOutcomes) ==> !Holds(servers[id]))
      ensures id !in old(pendingServerOutcomes) ==> ok && Idle()
    {
      MarksNothing(servers);
      ShrunkSelf(servers);
      SettledSelf(clients);
      hide Reported, AllReported, AllReadable, DistinctConnections;
      hide Ledger, ReadableClients, ReadableServers, Shrunk, Settled, SocketMarked, AtMostOneOwner, PendingOwned, Holds;
      ok := true;
      if id in pendingServerOutcomes {
        ok := EndOwedServer(id);
      }
    }

    /** Nothing durable or owed changed. */
    twostate predicate Idle()
      reads this
    {
      servers == old(servers) && clients == old(clients) && metrics == old(metrics) &&
      pendingServerOutcomes == old(pendingServerOutcomes) && pendingClientOutcomes == old(pendingClientOutcomes) &&
      finalizedConnections == old(finalizedConnections)
    }

    method EndOwedServer(id: SocketId) returns (ok: bool)
      requires Readable() && id in servers && id in pendingServerOutcomes
      modifies this`servers, this`clients, this`pendingServerOutcomes, this`pendingClientOutcomes, this`metrics,
        this`finalizedConnections, this`inactiveControls
      ensures Readable() && servers.Keys == old(servers.Keys) && Shrunk(old(servers), servers)
      ensures clients.Keys == old(clients.Keys) && Settled(old(clients), clients)
      ensures old(LedgerHolds()) ==> LedgerHolds()
      ensures old(metrics) <= metrics
      ensures (id in old(pendingServerOutcomes) && old(servers)[id].stored.Some? && !faulty &&
               old(DistinctConnections(clients))) ==> AllReported(old(clients), old(finalizedConnections), metrics)
      ensures !faulty && old(AllReadable(clients)) && old(servers)[id].stored.Some? ==> ok
      ensures old(Owned()) ==> Owned()
      ensures forall other :: other != id ==> (other in pendingServerOutcomes <==> other in old(pendingServerOutcomes))
      ensures forall other :: other in servers && other != id ==> SocketMarked(old(servers)[other], servers[other])
      ensures ok ==> id !in pendingServerOutcomes && !Holds(servers[id])
    {
      ShrunkSelf(servers);
      hide Reported, AllReported, AllReadable, DistinctConnections;
      hide Ledger, ReadableClients, ReadableServers, ValidServer, Shrunk, Settled, Quiet, SocketMarked,
        AtMostOneOwner, TicketsDerived, TicketsMarked, PendingOwned;
      if servers[id].stored.None? {
        SettledSelf(clients);
        PendingIsReadable(servers, pendingServerOutcomes, id);
        ok := CloseUnreadable(id);
        if ok {
          pendingServerOutcomes := pendingServerOutcomes - {id};
        }
      } else {
        var a := servers[id].stored.value;
        ReadAt(servers, id);
        DerivedSelf(a.tickets);
        ok := FailServer(id, a, pendingServerOutcomes[id]);
      }
    }

    /** A control whose attachment cannot be read can only be closed. */
    method CloseUnreadable(id: SocketId) returns (closed: bool)
      requires ReadableServers(servers) && id in servers && servers[id].stored.None?
      modifies this`servers
      ensures ReadableServers(servers) && servers.Keys == old(servers.Keys) && Shrunk(old(servers), servers)
      ensures servers == old(servers)[id := old(servers)[id].(open := !closed)] && !Holds(servers[id])
    {
      ghost var before := servers;
      closed := CloseServer(id);
      ShrinkOne(before, id, servers[id]);
      hide ValidServer;
      assert ReadableServers(servers);
    }

    // ---- reconciling competing controls ----------------------------------------------------------

    method CurrentOpenServers(ignored: Option<SocketId>) returns (active: set<SocketId>)
      ensures forall id :: id in active <==> Candidate(servers, id, currentGeneration, ignored)
    {
      active := {};
      var todo := servers.Keys;
      while todo != {}
        invariant todo <= servers.Keys
        invariant forall id :: id in active <==> id !in todo && Candidate(servers, id, currentGeneration, ignored)
        decreases |todo|
      {
        var id: SocketId :| id in todo;
        todo := todo - {id};
        if Some(id) != ignored && servers[id].open && servers[id].stored.Some? && servers[id].stored.value.current &&
           Some(servers[id].stored.value.generation) == currentGeneration {
          active := active + {id};
        }
      }
    }

    /** The given controls, newest first. */
    method NewestFirst(ids: set<SocketId>) returns (order: seq<SocketId>)
      requires forall id :: id in ids ==> id in servers && servers[id].stored.Some?
      ensures SortedNewest(servers, ids, order)
    {
      hide Newer;
      order := [];
      var rest := ids;
      while rest != {}
        invariant rest <= ids && |order| + |rest| == |ids|
        invariant forall id :: id in order <==> id in ids - rest
        invariant forall i, j :: 0 <= i < j < |order| ==> order[i] != order[j]
        invariant |order| > 0 ==> IsNewest(servers, ids, order[0])
        invariant |order| == 0 ==> rest == ids
        decreases |rest|
      {
        var _ := NewestExists(servers, rest);
        var next: SocketId :| next in rest && IsNewest(servers, rest, next);
        rest := rest - {next};
        order := order + [next];
      }
    }

    /**
     Retires every candidate but one, starting from the newest: an older control
     that cannot be retired takes over only when the newer one can be.
     */
    method ElectWinner(order: seq<SocketId>, ghost ignored: Option<SocketId>) returns (ok: bool, winner: SocketId)
      requires ReadableServers(servers) && |order| > 0
      requires ListsCandidates(servers, order, currentGeneration, ignored)
      modifies this`servers, this`pendingServerOutcomes, this`inactiveControls
      ensures ReadableServers(servers) && servers.Keys == old(servers.Keys) && Shrunk(old(servers), servers)
      ensures ok ==> SoleCandidate(servers, Some(winner), currentGeneration, ignored)
      ensures ok ==> winner in servers && servers[winner] == old(servers)[winner]
      ensures winner in order
      ensures ok && !faulty ==> winner == order[0]
      ensures !ok ==> |order| > 1 && !faulty == false
    {
      ghost var before := servers;
      var read := servers;
      ShrunkSelf(servers);
      winner := order[0];
      var next := 1;
      FirstOfOrder(before, order, currentGeneration, ignored);
      hide ReadableServers, Shrunk, OneRetired, Candidate, ListsCandidates;
      while next < |order|
        invariant 1 <= next <= |order| && ReadableServers(servers)
        invariant servers.Keys == before.Keys && Shrunk(before, servers)
        invariant Candidate(servers, winner, currentGeneration, ignored) && winner !in order[next..]
        invariant winner in order
        invariant forall id :: Candidate(servers, id, currentGeneration, ignored) ==>
            id == winner || id in order[next..]
        invariant forall id :: id == winner || id in order[next..] ==> id in servers && servers[id] == before[id]
        invariant !faulty ==> winner == order[0]
        decreases |order| - next
      {
        NextOfOrder(before, order, next, currentGeneration, ignored);
        CandidateIsReadable(servers, winner, currentGeneration, ignored);
        var settled, stays := RetireLoser(before, winner, read[winner].stored.value, order[next],
                                          read[order[next]].stored.value, ignored);
        if !settled {
          return false, winner;
        }
        winner := stays;
        next := next + 1;
      }
      SoleFromOne(servers, winner, currentGeneration, ignored);
      ok := true;
    }

    /** Keeps the established winner if the previous control retires, otherwise swaps their roles. */
    method RetireLoser(
      ghost before: Servers, winner: SocketId, a: ServerAttachment, previous: SocketId, b: ServerAttachment,
      ghost ignored: Option<SocketId>)
      returns (ok: bool, stays: SocketId)
      requires ReadableServers(servers) && servers.Keys == before.Keys && Shrunk(before, servers)
      requires winner != previous && winner in servers && previous in servers
      requires servers[winner].stored == Some(a) && servers[previous].stored == Some(b)
      requires Candidate(servers, winner, currentGeneration, ignored)
      requires Candidate(servers, previous, currentGeneration, ignored)
      modifies this`servers, this`pendingServerOutcomes, this`inactiveControls
      ensures ReadableServers(servers) && servers.Keys == before.Keys && Shrunk(before, servers)
      ensures stays == winner || stays == previous
      ensures Candidate(servers, stays, currentGeneration, ignored)
      ensures forall id :: id in servers && id != winner && id != previous ==> servers[id] == old(servers)[id]
      ensures servers[stays] == old(servers)[stays]
      ensures ok ==> forall id :: Candidate(servers, id, currentGeneration, ignored) ==>
                       Candidate(old(servers), id, currentGeneration, ignored) &&
                           (id == stays || id !in {winner, previous})
      ensures !faulty ==> ok && stays == winner
      ensures !ok ==> servers == old(servers) && winner in pendingServerOutcomes && previous in pendingServerOutcomes
    {
      hide ReadableServers, Shrunk, Candidate;
      ok, stays := true, winner;
      var retired := RetireOne(before, previous, b, ignored);
      if !retired {
        stays := previous;
        ok := RetireOne(before, winner, a, ignored);
        if !ok {
          inactiveControls := RememberBounded(inactiveControls, a.controlId);
          inactiveControls := RememberBounded(inactiveControls, b.controlId);
          pendingServerOutcomes := pendingServerOutcomes[winner := InternalError][previous := InternalError];
        }
      }
    }

    method RetireOne(ghost before: Servers, id: SocketId, a: ServerAttachment, ghost ignored: Option<SocketId>)
      returns (retired: bool)
      requires ReadableServers(servers) && id in servers && servers[id].stored == Some(a)
      requires servers.Keys == before.Keys && Shrunk(before, servers)
      modifies this`servers, this`pendingServerOutcomes, this`inactiveControls
      ensures ReadableServers(servers) && servers.Keys == before.Keys && Shrunk(before, servers)
      ensures forall other :: other in servers && other != id ==> servers[other] == old(servers)[other]
      ensures !retired ==> servers == old(servers) && pendingServerOutcomes == old(pendingServerOutcomes)
      ensures retired ==> !Holds(servers[id]) && pendingServerOutcomes == old(pendingServerOutcomes) - {id}
      ensures retired ==> forall other :: Candidate(servers, other, currentGeneration, ignored) <==>
                            Candidate(old(servers), other, currentGeneration, ignored) && other != id
      ensures !faulty ==> retired
    {
      hide ReadableServers, Shrunk, Eligible;
      ghost var earlier := servers;
      retired := RetireServerImmediately(id, a);
      if retired {
        OneRetiredShrinks(earlier, servers, id);
        ShrunkTransitive(before, earlier, servers);
        RetiredCandidates(earlier, servers, id, currentGeneration, ignored);
      }
    }

    /** Controls that share an id cannot be ordered: none of them survives. */
    method RetireAmbiguous(active: set<SocketId>, ghost ignored: Option<SocketId>) returns (ok: bool)
      requires Readable()
      requires forall id :: id in active <==> Candidate(servers, id, currentGeneration, ignored)
      modifies this`servers, this`clients, this`pendingServerOutcomes, this`pendingClientOutcomes, this`metrics,
        this`finalizedConnections, this`inactiveControls
      ensures Readable() && servers.Keys == old(servers.Keys) && Shrunk(old(servers), servers)
      ensures clients.Keys == old(clients.Keys) && Settled(old(clients), clients)
      ensures old(LedgerHolds()) ==> LedgerHolds()
      ensures old(metrics) <= metrics
      ensures ok ==> SoleCandidate(servers, None, currentGeneration, ignored)
      ensures ok && old(LedgerHolds()) ==> forall c :: c in clients ==> Quiet(clients[c])
    {
      hide Reported, AllReported, AllReadable, DistinctConnections;
      hide Ledger, ReadableClients, ReadableServers, Settled, Quiet, Shrunk, OnlyMarked, Candidate;
      ghost var before := servers;
      var ended := CloseAllClients(InternalError);
      ghost var marked := servers;
      MarkedShrinks(before, marked);
      MarkedStillCandidates(before, marked, currentGeneration, ignored);
      ok := RetireAll(active, ignored);
      ShrunkTransitive(before, marked, servers);
      ok := ok && ended;
    }

    method RetireAll(active: set<SocketId>, ghost ignored: Option<SocketId>) returns (ok: bool)
      requires ReadableServers(servers)
      requires forall id :: id in active <==> Candidate(servers, id, currentGeneration, ignored)
      modifies this`servers, this`pendingServerOutcomes, this`inactiveControls
      ensures ReadableServers(servers) && servers.Keys == old(servers.Keys) && Shrunk(old(servers), servers)
      ensures ok ==> SoleCandidate(servers, None, currentGeneration, ignored)
      ensures !faulty ==> ok
    {
      hide ReadableServers, Shrunk, OneRetired;
      ghost var before := servers;
      ShrunkSelf(servers);
      ok := true;
      var todo := active;
      while todo != {}
        invariant ReadableServers(servers) && servers.Keys == before.Keys && Shrunk(before, servers) && todo <= active
        invariant forall id :: id in todo ==> Candidate(servers, id, currentGeneration, ignored)
        invariant ok ==> forall id :: Candidate(servers, id, currentGeneration, ignored) ==> id in todo
        invariant !faulty ==> ok
        decreases |todo|
      {
        hide Candidate;
        var id: SocketId :| id in todo;
        todo := todo - {id};
        CandidateIsReadable(servers, id, currentGeneration, ignored);
        var retired := RetireOrOwe(before, id, servers[id].stored.value, ignored);
        ok := ok && retired;
      }
    }

    method RetireOrOwe(ghost before: Servers, id: SocketId, a: ServerAttachment, ghost ignored: Option<SocketId>)
      returns (retired: bool)
      requires ReadableServers(servers) && id in servers && servers[id].stored == Some(a)
      requires servers.Keys == before.Keys && Shrunk(before, servers)
      modifies this`servers, this`pendingServerOutcomes, this`inactiveControls
      ensures ReadableServers(servers) && servers.Keys == before.Keys && Shrunk(before, servers)
      ensures forall other :: other != id && Candidate(old(servers), other, currentGeneration, ignored) ==>
                Candidate(servers, other, currentGeneration, ignored)
      ensures forall other :: Candidate(servers, other, currentGeneration, ignored) ==>
                Candidate(old(servers), other, currentGeneration, ignored)
      ensures if retired then !Candidate(servers, id, currentGeneration, ignored)
              else servers == old(servers) && id in pendingServerOutcomes
      ensures !faulty ==> retired
    {
      hide ReadableServers, Shrunk, Candidate;
      retired := RetireOne(before, id, a, ignored);
      if !retired {
        pendingServerOutcomes := pendingServerOutcomes[id := InternalError];
        inactiveControls := RememberBounded(inactiveControls, a.controlId);
      }
    }

    /** Several candidates: an order among them, or none of them. */
    method ResolveCompetition(active: set<SocketId>, ghost ignored: Option<SocketId>)
      returns (ok: bool, winner: Option<SocketId>, attachment: Option<ServerAttachment>)
      requires Readable() && |active| > 1
      requires forall id :: id in active <==> Candidate(servers, id, currentGeneration, ignored)
      modifies this`servers, this`clients, this`pendingServerOutcomes, this`pendingClientOutcomes, this`metrics,
        this`finalizedConnections, this`inactiveControls
      ensures Readable() && servers.Keys == old(servers.Keys) && Shrunk(old(servers), servers)
      ensures clients.Keys == old(clients.Keys) && Settled(old(clients), clients)
      ensures old(LedgerHolds()) ==> LedgerHolds()
      ensures old(metrics) <= metrics
      ensures winner.Some? <==> attachment.Some?
      ensures ok ==> SoleCandidate(servers, winner, currentGeneration, ignored)
      ensures ok && old(LedgerHolds()) ==> forall c :: c in clients ==> Quiet(clients[c])
      ensures ok && winner.Some? ==> winner.value in servers && winner.value in old(servers) &&
                                     servers[winner.value].stored.Some? &&
                                     attachment == old(servers)[winner.value].stored &&
                                     SocketMarked(ServerSocket(true, attachment), servers[winner.value])
      ensures !faulty && ok && winner.Some? ==> NoneNewer(old(servers), winner.value, currentGeneration, ignored)
      ensures winner.Some? ==> forall a, b :: a in active && b in active && a != b ==> !old(SharedControl(a, b))
      ensures winner.Some? ==> winner.value in active
      ensures ok && winner.None? ==> exists a, b :: a in active && b in active && a != b && old(SharedControl(a, b))
    {
      hide Reported, AllReported, AllReadable, DistinctConnections;
      hide Ledger, ReadableClients, ReadableServers, Settled, Quiet, Shrunk, OnlyMarked, Candidate, OneRetired,
        SocketMarked, NoneNewer, SoleCandidate, ListsCandidates;
      winner, attachment := None, None;
      if exists a, b :: a in active && b in active && a != b && SharedControl(a, b) {
        ok := RetireAmbiguous(active, ignored);
        return;
      }
      ghost var before := servers;
      var read := servers;
      SettledSelf(clients);
      forall id | id in active
        ensures id in servers && servers[id].stored.Some?
      {
        CandidateIsReadable(servers, id, currentGeneration, ignored);
      }
      var order := NewestFirst(active);
      SortedCandidates(servers, active, order, currentGeneration, ignored);
      var elected, id := ElectWinner(order, ignored);
      ghost var retired := servers;
      var outcome := if elected then ServerReplaced else InternalError;
      ok := CloseAllClients(outcome);
      MarkedShrinks(retired, servers);
      ShrunkTransitive(before, retired, servers);
      ok := ok && elected;
      if elected {
        MarkedCandidates(retired, servers, Some(id), currentGeneration, ignored);
        winner, attachment := Some(id), read[id].stored;
        WinnerIsMarked(retired, servers, id, currentGeneration, ignored);
      }
    }

    predicate SharedControl(a: SocketId, b: SocketId)
      reads this`servers
    {
      a in servers && b in servers && servers[a].stored.Some? && servers[b].stored.Some? &&
      servers[a].stored.value.controlId == servers[b].stored.value.controlId
    }

    /** One of the candidates, all of which are listed, or none of them when two share an id. */
    method SelectAmong(active: set<SocketId>, ghost ignored: Option<SocketId>)
      returns (ok: bool, winner: Option<SocketId>, attachment: Option<ServerAttachment>)
      requires Readable()
      requires forall id :: id in active <==> Candidate(servers, id, currentGeneration, ignored)
      modifies this`servers, this`clients, this`pendingServerOutcomes, this`pendingClientOutcomes, this`metrics,
        this`finalizedConnections, this`inactiveControls
      ensures Readable() && servers.Keys == old(servers.Keys) && Shrunk(old(servers), servers)
      ensures clients.Keys == old(clients.Keys) && Settled(old(clients), clients)
      ensures old(LedgerHolds()) ==> LedgerHolds()
      ensures old(metrics) <= metrics
      ensures winner.Some? <==> attachment.Some?
      ensures |active| <= 1 ==>
                ok && Idle() && servers == old(servers) && clients == old(clients) &&
                (winner.Some? ==> winner.value in servers && attachment == servers[winner.value].stored)
      ensures ok ==> SoleCandidate(servers, winner, currentGeneration, ignored)
      ensures winner.Some? ==> winner.value in active
      ensures ok && winner.Some? ==> winner.value in servers && servers[winner.value].stored.Some? &&
                                     attachment == old(servers)[winner.value].stored &&
                                     SocketMarked(ServerSocket(true, attachment), servers[winner.value])
      ensures !faulty && ok && winner.Some? ==> NoneNewer(old(servers), winner.value, currentGeneration, ignored)
      ensures ok ==>
                (winner.Some? <==>
                   active != {} && forall a, b :: a in active && b in active && a != b ==> !old(SharedControl(a, b)))
    {
      hide Reported, AllReported, AllReadable, DistinctConnections;
      hide Ledger, ReadableClients, ReadableServers, Settled, Quiet, Shrunk, OnlyMarked, Candidate, OneRetired,
        SocketMarked, NoneNewer, SoleCandidate;
      ok, winner, attachment := true, None, None;
      SettledSelf(clients);
      ShrunkSelf(servers);
      if active == {} {
        NoCandidate(servers, active, currentGeneration, ignored);
      } else if |active| == 1 {
        var only: SocketId :| only in active;
        SmallSet(active, only);
        OnlyCandidate(servers, active, only, currentGeneration, ignored);
        winner, attachment := Some(only), servers[only].stored;
      } else {
        ok, winner, attachment := ResolveCompetition(active, ignored);
      }
    }

    /**
     Selects the control that speaks for the room, from any state: on a normal
     return at most one open control is durably current at the room's
     generation, and it is the one returned.
     */
    method ReconcileActiveServer(ignored: Option<SocketId>)
      returns (ok: bool, winner: Option<SocketId>, attachment: Option<ServerAttachment>)
      requires Readable()
      modifies this`servers, this`clients, this`pendingServerOutcomes, this`pendingClientOutcomes, this`metrics,
        this`finalizedConnections, this`inactiveControls
      ensures Readable() && servers.Keys == old(servers.Keys) && Shrunk(old(servers), servers)
      ensures clients.Keys == old(clients.Keys) && Settled(old(clients), clients)
      ensures old(LedgerHolds()) ==> LedgerHolds()
      ensures old(metrics) <= metrics
      ensures !faulty && old(Owned() && pendingServerOutcomes != map[] && DistinctConnections(clients)) ==>
                AllReported(old(clients), old(finalizedConnections), metrics)
      ensures !faulty && old(Owned() && AllReadable(clients)) ==> ok
      ensures ok ==> SoleCandidate(servers, winner, currentGeneration, ignored)
      ensures winner.Some? <==> attachment.Some?
      ensures ok && winner.Some? ==> winner.value in servers && servers[winner.value].stored.Some? &&
                                     SocketMarked(ServerSocket(true, attachment), servers[winner.value])
      ensures !faulty && ok && winner.Some? ==>
                forall id :: id !in old(pendingServerOutcomes) ==>
                  Candidate(old(servers), id, currentGeneration, ignored) ==>
                    !Newer(old(servers)[id].stored.value, attachment.value)
      ensures !faulty && ok && winner.Some? ==>
                LatestStood(old(servers), old(pendingServerOutcomes), attachment.value, currentGeneration, ignored)
      ensures ok && winner.Some? ==>
                Stood(old(servers), old(pendingServerOutcomes), winner.value, currentGeneration, ignored)
      ensures ok ==>
                (winner.Some? <==>
                   && (exists id :: Stood(old(servers), old(pendingServerOutcomes), id, currentGeneration, ignored))
                   && StoodApart(old(servers), old(pendingServerOutcomes), currentGeneration, ignored))
      ensures old(Owned()) ==> Owned()
      ensures old(Owned()) && ok ==> pendingServerOutcomes == map[]
      ensures old(Owned()) && ok && winner.Some? ==>
                old(pendingServerOutcomes) == map[] && attachment == servers[winner.value].stored
      ensures old(Owned()) && old(pendingServerOutcomes) == map[] ==>
                ok && servers == old(servers) && clients == old(clients) && metrics == old(metrics) &&
                pendingClientOutcomes == old(pendingClientOutcomes)
    {
      hide Reported, AllReported, AllReadable, DistinctConnections;
      hide Ledger, ReadableClients, ReadableServers, Settled, Quiet, Shrunk, OnlyMarked, Candidate, OneRetired,
        PendingOwned, AtMostOneOwner, SocketMarked, NoneNewer, SoleCandidate, Stood, StoodApart, LatestStood;
      if Owned() {
        OwedAreListed(servers, pendingServerOutcomes);
      }
      ghost var before, sessions := servers, clients;
      winner, attachment := None, None;
      ok := RetryPendingServerTeardowns();
      if !ok {
        return;
      }
      ghost var retried, live := servers, clients;
      var active := CurrentOpenServers(ignored);
      RetryLeaves(before, old(pendingServerOutcomes), retried, pendingServerOutcomes, currentGeneration, ignored);
      TwoCandidates(servers, active, currentGeneration, ignored);
      StoodAfterRetry(before, old(pendingServerOutcomes), retried, currentGeneration, ignored);
      ApartAfterRetry(before, old(pendingServerOutcomes), retried, active, currentGeneration, ignored);
      ok, winner, attachment := SelectAmong(active, ignored);
      ShrunkTransitive(before, retried, servers);
      SettledTransitive(sessions, live, clients);
      if !faulty && ok && winner.Some? {
        NewestSurvivesRetry(before, old(pendingServerOutcomes), retried, winner.value, currentGeneration, ignored);
        LatestByOrder(before, old(pendingServerOutcomes), attachment.value, currentGeneration, ignored);
      }
    }

    // ---- accepting a control ------------------------------------------------------------------------

    method SetAsideOne(
      ghost before: Servers, id: SocketId, a: ServerAttachment, ghost retirements: seq<Retirement>)
      returns (retirement: Option<Retirement>)
      requires ReadableServers(servers) && id in servers && servers[id].stored == Some(a) && a.current
      requires servers.Keys == before.Keys && Shrunk(before, servers) && before[id] == servers[id]
      requires SetAside(before, servers, retirements) && forall r :: r in retirements ==> r.id != id
      modifies this`servers, this`pendingServerOutcomes, this`inactiveControls
      ensures ReadableServers(servers) && servers.Keys == before.Keys && Shrunk(before, servers)
      ensures forall other :: other in servers && other != id ==> servers[other] == old(servers)[other]
      ensures SetAside(before, servers, retirements + if retirement.Some? then [retirement.value] else [])
      ensures retirement.Some? ==> retirement.value.id == id && !Holds(servers[id])
      ensures pendingServerOutcomes == if retirement.Some? then old(pendingServerOutcomes) - {id}
                                       else old(pendingServerOutcomes)
      ensures old(Owned()) ==> Owned()
      ensures !faulty ==> retirement.Some?
    {
      hide ReadableServers, Shrunk, PendingOwned, AtMostOneOwner, SetAside;
      ghost var earlier := servers;
      retirement := PrepareServerRetirement(id, a);
      if retirement.Some? {
        SetAsideOneMore(before, earlier, servers, retirements, retirement.value, a);
        OneRetiredShrinks(earlier, servers, id);
        ShrunkTransitive(before, earlier, servers);
        if old(Owned()) {
          RetiredKeepsPending(earlier, servers, old(pendingServerOutcomes), pendingServerOutcomes, id);
        }
      } else {
        assert retirements + [] == retirements;
      }
    }

    /** Sets every durably current control aside, newest first; reports whether all could be. */
    method SetControlsAside(order: seq<SocketId>) returns (safe: bool, retirements: seq<Retirement>)
      requires ReadableServers(servers)
      requires forall id :: id in order <==> Claims(servers, id)
      requires forall i, j :: 0 <= i < j < |order| ==> order[i] != order[j]
      modifies this`servers, this`pendingServerOutcomes, this`inactiveControls
      ensures ReadableServers(servers) && servers.Keys == old(servers.Keys) && Shrunk(old(servers), servers)
      ensures SetAside(old(servers), servers, retirements)
      ensures safe ==> AllSetAside(old(servers), servers)
      ensures safe ==> forall id :: Claims(old(servers), id) ==> id !in pendingServerOutcomes
      ensures pendingServerOutcomes.Keys <= old(pendingServerOutcomes.Keys)
      ensures old(Owned()) ==> Owned()
      ensures !faulty ==> safe
      ensures AllControlsRead(old(servers)) ==> AllControlsRead(servers)
    {
      hide ReadableServers, Shrunk, SocketShrunk, PendingOwned, AtMostOneOwner, Reinstatable;
      ghost var before := servers;
      ShrunkSelf(servers);
      var read := servers;
      safe, retirements := true, [];
      var next := 0;
      while next < |order|
        invariant 0 <= next <= |order| && ReadableServers(servers)
        invariant servers.Keys == before.Keys && Shrunk(before, servers)
        invariant forall id :: id in servers && id !in order[..next] ==> servers[id] == before[id]
        invariant forall r :: r in retirements ==> r.id in order[..next]
        invariant SetAside(before, servers, retirements)
        invariant safe ==> forall id :: id in order[..next] && id in servers ==>
                      !Holds(servers[id]) && id !in pendingServerOutcomes
        invariant pendingServerOutcomes.Keys <= old(pendingServerOutcomes.Keys)
        invariant old(Owned()) ==> Owned()
        invariant !faulty ==> safe
        decreases |order| - next
      {
        var id := order[next];
        assert id in order && id !in order[..next] && order[..next + 1] == order[..next] + [id];
        var retirement := SetAsideOne(before, id, read[id].stored.value, retirements);
        safe := safe && retirement.Some?;
        retirements := retirements + (if retirement.Some? then [retirement.value] else []);
        next := next + 1;
      }
      ShrunkStaysReadable(before, servers);
      if safe {
        forall id | id in servers
          ensures !Holds(servers[id])
        {
          assert order[..next] == order;
          assert id !in order ==> servers[id] == before[id] && !Claims(before, id);
        }
      }
    }

    /** Closes the transports of every control that was demoted durably. */
    method FinishRetirements(retirements: seq<Retirement>)
      requires ReadableServers(servers) && forall r :: r in retirements ==> r.id in servers
      modifies this`servers
      ensures ReadableServers(servers) && OnlyClosed(old(servers), servers)
      ensures forall id :: id in servers && (forall r :: r in retirements ==> r.id != id) ==>
          servers[id] == old(servers)[id]
    {
      hide ReadableServers;
      ghost var before := servers;
      var next := 0;
      while next < |retirements|
        invariant 0 <= next <= |retirements| && ReadableServers(servers) && OnlyClosed(before, servers)
        invariant forall id :: id in servers && (forall r :: r in retirements ==> r.id != id) ==>
            servers[id] == before[id]
        decreases |retirements| - next
      {
        FinishServerRetirement(retirements[next]);
        next := next + 1;
      }
    }

    /** Reinstates one demoted control, or finishes its retirement. */
    method ReinstateOrFinish(r: Retirement, free: bool, ghost before: Servers, ghost socket: SocketId)
      returns (restored: bool)
      requires ReadableServers(servers) && Reinstatable(before, servers, r)
      requires ReadableServers(before) && Grown(before, servers, socket) && socket !in before
      modifies this`servers
      ensures ReadableServers(servers) && servers.Keys == old(servers.Keys) && Grown(before, servers, socket)
      ensures forall other :: other in servers && other != r.id ==> servers[other] == old(servers)[other]
      ensures restored ==> free && Holds(servers[r.id]) && servers[r.id].stored == before[r.id].stored
      ensures !restored ==> !Holds(servers[r.id])
      ensures !faulty && free && r.durablyDemoted && old(servers)[r.id].open ==> restored
    {
      hide ReadableServers, Grown, TicketsDerived, TicketsMarked, ValidServer;
      ReadAt(before, r.id);
      restored := false;
      ghost var earlier := servers;
      if free && r.durablyDemoted && servers[r.id].open {
        restored := TryWriteServer(r.id, r.attachment.(current := true));
        if restored {
          assert servers == earlier[r.id := servers[r.id]];
          ReinstateGrown(before, earlier, socket, r.id, servers[r.id]);
          ReadableAfterServerWrite(earlier, r.id, servers[r.id]);
          return;
        }
      }
      assert servers == earlier;
      FinishServerRetirement(r);
      ShrinkAfterGrown(before, earlier, servers, socket);
    }

    /** After a failed replacement, at most one of the controls set aside takes the room back. */
    method RestorePreviousServer(retirements: seq<Retirement>, ghost before: Servers, ghost socket: SocketId)
      returns (restored: bool)
      requires ReadableServers(servers) && ReadableServers(before) && SetAside(before, servers, retirements)
      requires Grown(before, servers, socket) && socket !in before && NoHolder(servers)
      modifies this`servers
      ensures ReadableServers(servers) && servers.Keys == old(servers.Keys) && Grown(before, servers, socket)
      ensures AtMostOneOwner(servers) && (!restored ==> NoHolder(servers))
      ensures restored ==> exists id :: id in servers && Holds(servers[id])
      ensures socket in servers ==> servers[socket] == old(servers)[socket]
      ensures !faulty && (exists r :: r in retirements && r.durablyDemoted && old(servers)[r.id].open) ==> restored
    {
      hide ReadableServers, Grown, Reinstatable, Holds;
      restored := false;
      ghost var holder: SocketId := socket;
      ghost var earlier := servers;
      AsideStarts(before, servers, retirements);
      var next := 0;
      while next < |retirements|
        invariant 0 <= next <= |retirements| && ReadableServers(servers) && Grown(before, servers, socket)
        invariant servers.Keys == earlier.Keys && StillAside(before, servers, retirements, next)
        invariant forall id :: id in servers && Holds(servers[id]) ==> restored && id == holder
        invariant restored ==> holder in servers && Holds(servers[holder])
        invariant restored ==> exists i :: 0 <= i < next && retirements[i].id == holder
        invariant socket in servers ==> servers[socket] == earlier[socket]
        invariant forall i :: next <= i < |retirements| ==> servers[retirements[i].id] == earlier[retirements[i].id]
        invariant (!faulty &&
                   exists i ::
                       0 <= i < next && retirements[i].durablyDemoted && earlier[retirements[i].id].open) ==> restored
        decreases |retirements| - next
      {
        var r := retirements[next];
        assert Reinstatable(before, servers, r);
        ghost var previous := servers;
        var back := ReinstateOrFinish(r, !restored, before, socket);
        NextAside(before, previous, servers, retirements, next);
        if back {
          restored, holder := true, r.id;
        }
        next := next + 1;
      }
    }

    /** Closes every control whose attachment cannot be read; reports whether one stays open. */
    method CloseUnreadableControls() returns (remains: bool)
      requires ReadableServers(servers)
      modifies this`servers
      ensures ReadableServers(servers) && OnlyClosed(old(servers), servers)
      ensures forall id :: id in servers && servers[id].stored.Some? ==> servers[id] == old(servers)[id]
      ensures remains <==> exists id :: id in servers && servers[id].stored.None? && servers[id].open
    {
      hide ReadableServers;
      ghost var before := servers;
      remains := false;
      var todo := servers.Keys;
      while todo != {}
        invariant todo <= servers.Keys && ReadableServers(servers) && OnlyClosed(before, servers)
        invariant forall id :: id in servers && (id in todo || servers[id].stored.Some?) ==> servers[id] == before[id]
        invariant remains <==> exists id :: id in servers && id !in todo && servers[id].stored.None? && servers[id].open
        decreases |todo|
      {
        var id: SocketId :| id in todo;
        todo := todo - {id};
        if servers[id].stored.None? {
          var closed := CloseUnreadable(id);
          remains := remains || !closed;
        }
      }
    }

    /**
     Attaches a new control: not current first, then current. On any failure the
     socket is left unable to hold the room.
     */
    method AddControl(socket: SocketId, a: ServerAttachment) returns (accepted: bool)
      requires ReadableServers(servers) && socket !in servers && ValidServer(a) && a.current && a.tickets == []
      modifies this`servers
      ensures ReadableServers(servers) && Grown(old(servers), servers, socket)
      ensures servers.Keys <= old(servers.Keys) + {socket} && old(servers.Keys) <= servers.Keys
      ensures forall id :: id in old(servers) ==> servers[id] == old(servers)[id]
      ensures accepted ==> socket in servers && servers[socket] == ServerSocket(true, Some(a))
      ensures !accepted && socket in servers ==> !Holds(servers[socket])
      ensures !faulty && !lossy ==> accepted
    {
      hide ValidServer, SocketShrunk, ReadableServers;
      ghost var before := servers;
      accepted := false;
      EachShrinksToItself(before);
      var upgraded := CallPlatform();
      if upgraded {
        servers := servers[socket := ServerSocket(true, None)];
        accepted := AttachControl(socket, a);
        assert servers == before[socket := servers[socket]];
        ReadableAfterServerWrite(before, socket, servers[socket]);
      }
    }

    /** The two writes of a new control, and their undoing. */
    method AttachControl(socket: SocketId, a: ServerAttachment) returns (accepted: bool)
      requires socket in servers && servers[socket] == ServerSocket(true, None) && ValidServer(a) && a.current
      modifies this`servers
      ensures socket in servers && servers == old(servers)[socket := servers[socket]]
      ensures servers[socket].stored in {None, Some(a), Some(a.(current := false))}
      ensures servers[socket].stored.Some? ==> ValidServer(servers[socket].stored.value)
      ensures if accepted then servers[socket] == ServerSocket(true, Some(a)) else !Holds(servers[socket])
      ensures !faulty && !lossy ==> accepted
    {
      assert ValidServer(a.(current := false));
      hide ValidServer;
      var inactive := TryWriteServer(socket, a.(current := false));
      accepted := false;
      if inactive {
        var active := TryWriteServer(socket, a);
        var stays := CallPlatform();
        var dropped := !stays;
        if active && dropped {
          servers := servers[socket := servers[socket].(open := false)];
        }
        accepted := active && !dropped;
      }
      if !accepted {
        var _ := TryWriteServer(socket, a.(current := false));
        var _ := CloseServer(socket);
      }
    }

    /** Returns a full room to a single control, or leaves it without one and ends its clients. */
    method RestoreOrEndClients(retirements: seq<Retirement>, ghost before: Servers, ghost socket: SocketId)
      requires Readable() && ReadableServers(before) && SetAside(before, servers, retirements)
      requires Grown(before, servers, socket) && socket !in before && NoHolder(servers)
      modifies this`servers, this`clients, this`pendingClientOutcomes, this`metrics, this`finalizedConnections,
        this`recoveryPersisted
      ensures Readable() && servers.Keys == old(servers.Keys) && Grown(before, servers, socket)
      ensures AtMostOneOwner(servers)
      ensures clients.Keys == old(clients.Keys) && Settled(old(clients), clients)
      ensures old(LedgerHolds()) ==> LedgerHolds()
      ensures socket in servers && !Holds(old(servers)[socket]) ==> !Holds(servers[socket])
      ensures clients == old(clients) || NoHolder(servers)
    {
      hide ReadableServers, ReadableClients, Grown, SetAside, Ledger, Settled, OnlyMarked;
      SettledSelf(clients);
      var restored := RestorePreviousServer(retirements, before, socket);
      if !restored {
        ghost var earlier := servers;
        var ended := CloseAllClients(ServerUnavailable);
        MarkedShrinks(earlier, servers);
        ShrinkAfterGrown(before, earlier, servers, socket);
        if !ended {
          PersistTeardownRecoveryRequired();
        }
      }
    }

    /** The durable recovery request may itself fail to be stored. */
    method PersistTeardownRecoveryRequired()
      modifies this`recoveryPersisted
      ensures old(recoveryPersisted) ==> recoveryPersisted
    {
      var stored: bool := *;
      recoveryPersisted := recoveryPersisted || stored;
    }

    method DurablyCurrentControls() returns (current: set<SocketId>)
      ensures forall id :: id in current <==> Claims(servers, id)
    {
      current := {};
      var todo := servers.Keys;
      while todo != {}
        invariant todo <= servers.Keys
        invariant forall id :: id in current <==> id !in todo && Claims(servers, id)
        decreases |todo|
      {
        var id: SocketId :| id in todo;
        todo := todo - {id};
        if servers[id].stored.Some? && servers[id].stored.value.current {
          current := current + {id};
        }
      }
    }

    /** Binds the room to the generation, or refuses an upgrade made for another one. */
    method ClaimGeneration(generation: string) returns (ok: bool)
      modifies this`currentGeneration, this`storedGeneration
      ensures currentGeneration == old(currentGeneration) ||
              (old(currentGeneration).None? && currentGeneration == storedGeneration == Some(generation))
      ensures currentGeneration == old(currentGeneration) ==> storedGeneration == old(storedGeneration)
      ensures ok ==> currentGeneration == Some(generation)
      ensures !lossy ==> (ok <==> old(currentGeneration) in {None, Some(generation)})
    {
      var stored := CallPlatform();
      if currentGeneration.None? {
        if !stored {
          return false;
        }
        storedGeneration := Some(generation);
        currentGeneration := Some(generation);
      } else if currentGeneration != Some(generation) {
        return false;
      }
      var scheduled := CallPlatform();
      ok := scheduled;
    }

    /** Some control could be neither demoted nor closed: the replacement is refused. */
    method FinishUnsafe(ghost before: Servers, retirements: seq<Retirement>, ghost socket: SocketId)
      requires ReadableServers(servers) && Shrunk(before, servers) && SetAside(before, servers, retirements)
      requires socket !in before
      modifies this`servers
      ensures ReadableServers(servers) && Shrunk(before, servers) && servers.Keys == old(servers.Keys)
      ensures old(Owned()) ==> Owned()
      ensures old(AtMostOneOwner(servers)) ==> AtMostOneOwner(servers)
    {
      ghost var earlier := servers;
      AsideNames(before, servers, retirements, socket);
      hide ReadableServers, Shrunk, OnlyClosed, AtMostOneOwner, PendingOwned;
      FinishRetirements(retirements);
      OnlyClosedShrinks(earlier, servers);
      ShrunkTransitive(before, earlier, servers);
      ShrunkKeepsOwnership(earlier, servers);
      if old(Owned()) {
        OnlyClosedKeepsPending(earlier, servers, pendingServerOutcomes);
      }
    }

    /** Closes every other control transport that was not already set aside. */
    method CloseOtherControls(socket: SocketId, previous: set<SocketId>)
      requires ReadableServers(servers)
      modifies this`servers
      ensures ReadableServers(servers) && OnlyClosed(old(servers), servers)
      ensures socket in servers ==> servers[socket] == old(servers)[socket]
    {
      hide ReadableServers;
      ghost var before := servers;
      var todo := servers.Keys - previous - {socket};
      while todo != {}
        invariant todo <= servers.Keys - {socket} && ReadableServers(servers) && OnlyClosed(before, servers)
        invariant socket in servers ==> servers[socket] == before[socket]
        decreases |todo|
      {
        var id: SocketId :| id in todo;
        todo := todo - {id};
        CloseOne(id);
      }
    }

    method CloseOne(id: SocketId)
      requires ReadableServers(servers) && id in servers
      modifies this`servers
      ensures ReadableServers(servers) && OnlyClosed(old(servers), servers)
      ensures forall other :: other in servers && other != id ==> servers[other] == old(servers)[other]
    {
      ghost var before := servers;
      var _ := CloseServer(id);
      hide ReadableServers;
      OnlyClosedShrinks(before, servers);
    }

    /** The new control holds the room: ends the earlier sessions and transports. */
    method AnnounceControl(
      ghost before: Servers, previous: set<SocketId>, retirements: seq<Retirement>, socket: SocketId,
      ghost a: ServerAttachment)
      requires Readable() && SetAside(before, servers, retirements) && socket !in before
      requires Grown(before, servers, socket) && HeldOnlyBy(servers, socket)
      requires servers[socket].stored == Some(a) && a.tickets == []
      modifies this`servers, this`clients, this`pendingClientOutcomes, this`metrics, this`finalizedConnections,
        this`recoveryPersisted
      ensures Readable() && Grown(before, servers, socket) && HeldOnlyBy(servers, socket)
      ensures servers[socket].stored == Some(a)
      ensures clients.Keys == old(clients.Keys) && Settled(old(clients), clients)
      ensures old(LedgerHolds()) ==> LedgerHolds()
      ensures !faulty ==> forall id :: id in clients && clients[id].stored.Some? ==> DurablyTerminal(clients[id])
      ensures !faulty ==> AllEnded(old(clients), clients, old(pendingClientOutcomes), ServerReplaced)
    {
      hide AllEnded, ReadableClients, Ledger, Settled, Grown, SetAside, OnlyClosed, OnlyMarked, HeldOnlyBy,
           ReadableServers, DurablyTerminal;
      AsideNames(before, servers, retirements, socket);
      ghost var held := servers;
      var ended := CloseAllClients(ServerReplaced);
      ghost var marked := servers;
      HeldIsPresent(held, socket);
      MarkedWithoutTickets(held, marked, socket);
      MarkedShrinks(held, marked);
      HeldAfterMarking(held, marked, socket);
      GrownAfterMarking(before, held, marked, socket);
      FinishRetirements(retirements);
      ghost var finished := servers;
      CloseOtherControls(socket, previous);
      ClosedKeys(marked, finished);
      OnlyClosedTransitive(marked, finished, servers);
      HeldAfterClosing(marked, servers, socket);
      GrownAfterClosing(before, marked, servers, socket);
      if !ended {
        PersistTeardownRecoveryRequired();
      }
    }

    /** With every earlier control set aside, installs the new one or puts one of them back. */
    method ReplaceControl(
      ghost before: Servers, previous: set<SocketId>, retirements: seq<Retirement>, socket: SocketId,
      a: ServerAttachment)
      returns (accepted: bool)
      requires Readable() && ReadableServers(before) && SetAside(before, servers, retirements)
      requires AllSetAside(before, servers) && socket !in before && ValidServer(a) && a.current && a.tickets == []
      modifies this`servers, this`clients, this`pendingClientOutcomes, this`metrics, this`finalizedConnections,
        this`recoveryPersisted
      ensures Readable() && Grown(before, servers, socket)
      ensures clients.Keys == old(clients.Keys) && Settled(old(clients), clients)
      ensures old(LedgerHolds()) ==> LedgerHolds()
      ensures accepted ==> HeldOnlyBy(servers, socket) && servers[socket].stored == Some(a)
      ensures !accepted ==> AtMostOneOwner(servers) && (socket in servers ==> !Holds(servers[socket]))
      ensures accepted && !faulty ==> forall id :: id in clients && clients[id].stored.Some? ==>
          DurablyTerminal(clients[id])
      ensures !faulty && !lossy && AllControlsRead(old(servers)) ==> accepted
      ensures accepted && !faulty ==> AllEnded(old(clients), clients, old(pendingClientOutcomes), ServerReplaced)
    {
      ghost var aside := servers;
      SettledSelf(clients);
      ShrunkIsGrown(before, servers, socket);
      assert NoHolder(servers) && socket !in servers;
      hide AllEnded, ReadableClients, Ledger, Settled, Grown, SetAside, AllSetAside, OnlyClosed, Shrunk, OnlyMarked,
        AtMostOneOwner, NoHolder, HeldOnlyBy, ReadableServers, ValidServer, Holds, DurablyTerminal;
      var remains := CloseUnreadableControls();
      ClosedStaysAside(before, aside, servers, retirements);
      ClosedLeavesNoHolder(aside, servers);
      GrownAfterClosing(before, aside, servers, socket);
      ClosedKeys(aside, servers);
      ghost var cleared := servers;
      if remains {
        RestoreOrEndClients(retirements, before, socket);
        accepted := false;
        return;
      }
      accepted := AddControl(socket, a);
      AddedStaysAside(before, cleared, servers, retirements, socket);
      ShrinkThenGrow(before, aside, cleared, servers, socket);
      if accepted {
        HeldAfterAdding(cleared, servers, socket);
        AnnounceControl(before, previous, retirements, socket, a);
      } else {
        NotAdded(cleared, servers, socket);
        RestoreOrEndClients(retirements, before, socket);
      }
    }

    /**
     Replaces the control. Acceptance leaves the new socket, durably current at
     the room's generation, as the only open control that claims the room; any
     other result leaves at most one of the earlier controls in that role.
     */
    method AcceptServer(now: int, accessProtocol: bool, generation: string, controlId: string, socket: SocketId)
      returns (accepted: bool)
      requires Readable() && socket !in servers && Timestamp(now) && ConnectionId(controlId) && Hex64(generation)
      modifies this`servers, this`clients, this`currentGeneration, this`storedGeneration, this`pendingServerOutcomes,
        this`pendingClientOutcomes, this`metrics, this`finalizedConnections, this`inactiveControls,
        this`recoveryPersisted
      ensures Readable() && Grown(old(servers), servers, socket)
      ensures clients.Keys == old(clients.Keys) && Settled(old(clients), clients)
      ensures old(LedgerHolds()) ==> LedgerHolds()
      ensures accepted ==>
                && currentGeneration == Some(generation)
                && socket in servers && servers[socket].stored ==
                   Some(ServerAttachment(true, accessProtocol, controlId, generation, now, []))
                && forall id :: id in servers ==> (Holds(servers[id]) <==> id == socket)
      ensures !accepted && old(AtMostOneOwner(servers)) ==> AtMostOneOwner(servers)
      ensures !accepted && socket in servers ==> !Holds(servers[socket])
      ensures accepted && !faulty ==> forall id :: id in clients && clients[id].stored.Some? ==>
          DurablyTerminal(clients[id])
      ensures old(Owned()) ==> Owned()
      ensures old(Owned()) && accepted ==> pendingServerOutcomes == map[]
      ensures currentGeneration == old(currentGeneration) ||
              (old(currentGeneration).None? && currentGeneration == storedGeneration == Some(generation))
      ensures currentGeneration == old(currentGeneration) ==> storedGeneration == old(storedGeneration)
      ensures !faulty && !lossy && old(currentGeneration) in {None, Some(generation)} ==>
                (AllControlsRead(old(servers)) ==> accepted)
      ensures old(currentGeneration) !in {None, Some(generation)} ==> !accepted && servers == old(servers)
      ensures accepted && !faulty ==> AllEnded(old(clients), clients, old(pendingClientOutcomes), ServerReplaced)
    {
      hide AllEnded, Ledger, Settled, Grown, SetAside, AllSetAside, OnlyClosed, Shrunk, OnlyMarked, AtMostOneOwner,
        PendingOwned, ReadableServers, ReadableClients;
      accepted := false;
      ghost var before := servers;
      ShrunkSelf(servers);
      ShrunkIsGrown(servers, servers, socket);
      SettledSelf(clients);
      var bound := ClaimGeneration(generation);
      if !bound {
        return;
      }
      var current := DurablyCurrentControls();
      var order := NewestFirst(current);
      var safe, retirements := SetControlsAside(order);
      if !safe {
        FinishUnsafe(before, retirements, socket);
        ShrunkIsGrown(before, servers, socket);
        ShrunkKeepsOwnership(before, servers);
        return;
      }
      accepted := ReplaceControl(
        before, current, retirements, socket, ServerAttachment(true, accessProtocol, controlId, generation, now, []));
      HeldIsOwned(servers, socket);
      if old(Owned()) {
        NoneOwedWhenAside(before, old(pendingServerOutcomes), pendingServerOutcomes);
      }
    }

    // ---- the room's invariant --------------------------------------------------------------------------

    /** What every segment keeps, whatever fails: readable state, one owner, and exact accounts. */
    ghost predicate Core()
      reads this`servers, this`clients, this`pendingServerOutcomes, this`frames, this`issued, this`delivered
    {
      Readable() && Owned() && Consistent(servers, clients, frames, issued) && delivered <= issued
    }

    /** Ends a client with the copy a handler holds. */
    method FailCurrent(id: SocketId, a: ClientAttachment, outcome: Outcome)
      requires Core() && id in clients && clients[id].stored.Some?
      requires SameSession(clients[id].stored.value, a) && Endable(a)
      modifies this`servers, this`clients, this`pendingClientOutcomes, this`metrics, this`finalizedConnections,
        this`recoveryPersisted
      ensures Core() && clients.Keys == old(clients.Keys) && Settled(old(clients), clients)
      ensures OnlyMarked(old(servers), servers) && servers.Keys == old(servers.Keys)
      ensures old(LedgerHolds() && KeepsMarker(clients[id], a)) ==> LedgerHolds()
      ensures !faulty && a.stage != Terminal ==> DurablyTerminal(clients[id])
      ensures !faulty ==> recoveryPersisted == old(recoveryPersisted)
      ensures !faulty && a.stage != Terminal && !a.summaryEmitted && old(Reported(metrics, a.connectionId)) ==>
                !LedgerHolds() && RepeatsReport(clients, id, metrics)
      ensures clients == old(clients)[id := clients[id]]
      ensures a.stage != Terminal ==>
                var how := Verdict(a.terminalOutcome, old(pendingClientOutcomes), id, outcome);
                && (!faulty ==> EndedAs(clients[id].stored, a, how))
                && (metrics == old(metrics) || metrics == old(metrics) + [
                     Metric(a.connectionId, how, a.clientAuthorizationFrames + a.clientCandidates,
                            a.serverAuthorizationFrames + a.serverCandidates + a.completionCount, a.framesForwarded,
                            a.signalBytes)])
      ensures !faulty && !a.summaryEmitted && a.connectionId !in old(finalizedConnections) ==> metrics != old(metrics)
      ensures !faulty && a.stage != Terminal ==> forall sid :: sid in servers ==> TicketSpent(servers[sid], a)
    {
      hide TicketSpent, EndedAs, RepeatsReport, WroteEnd, Reported, ValidServer, ValidClient, Endable, EndedSession,
           Ledger, MetricOf, KeepsMarker, SameSession, ReadableServers, ReadableClients, OnlyMarked, Consistent,
           AtMostOneOwner, PendingOwned, ClientFailed, Settled, Shrunk, TicketsCarried;
      ghost var before, sessions := servers, clients;
      ghost var canonical := CanonicalOutcome(id, a, outcome);
      var ok := FailClient(id, a, outcome);
      FailSettles(sessions, clients, id, a, canonical, old(metrics), metrics, old(finalizedConnections),
                  finalizedConnections);
      if !faulty && a.stage != Terminal && !a.summaryEmitted && Reported(old(metrics), a.connectionId) {
        StaleCopyBreaksLedger(sessions, clients, id, a, canonical, old(metrics), metrics, old(finalizedConnections),
                              finalizedConnections, delivered);
        StaleCopyRepeats(sessions, clients, id, a, canonical, old(metrics), metrics, old(finalizedConnections),
                         finalizedConnections);
      }
      if a.stage != Terminal {
        EndedMetric(sessions, clients, id, a, canonical, old(metrics), metrics, old(finalizedConnections),
                    finalizedConnections);
        if !faulty {
          EndedFields(clients, id, a, canonical, metrics != old(metrics));
        }
      }
      FailedOnly(sessions, clients, id, a, canonical, old(metrics), metrics, old(finalizedConnections),
                 finalizedConnections);
      MarkedShrinks(before, servers);
      ShrunkCarries(before, servers);
      MarkedKeepsOwned(before, servers, pendingServerOutcomes);
      ConsistentAfterTeardown(before, servers, sessions, clients, frames, issued);
      if !ok {
        PersistTeardownRecoveryRequired();
      }
    }

    /** The error path of a handler: ends a client with whatever is stored for it now. */
    method FailStored(id: SocketId, outcome: Outcome)
      requires Core() && id in clients
      modifies this`servers, this`clients, this`pendingClientOutcomes, this`metrics, this`finalizedConnections,
        this`recoveryPersisted
      ensures Core() && clients.Keys == old(clients.Keys) && Settled(old(clients), clients)
      ensures OnlyMarked(old(servers), servers) && servers.Keys == old(servers.Keys)
      ensures old(metrics) <= metrics
      ensures old(LedgerHolds()) ==> LedgerHolds()
      ensures !faulty && clients[id].stored.Some? ==> DurablyTerminal(clients[id])
    {
      hide ValidServer, ValidClient, Ledger, ReadableServers, ReadableClients, OnlyMarked, Consistent, AtMostOneOwner,
        PendingOwned, Settled, Shrunk, TicketsCarried;
      ghost var before, sessions := servers, clients;
      var ok := EndStoredClient(id, outcome);
      MarkedShrinks(before, servers);
      ShrunkCarries(before, servers);
      MarkedKeepsOwned(before, servers, pendingServerOutcomes);
      ConsistentAfterTeardown(before, servers, sessions, clients, frames, issued);
      if !ok {
        PersistTeardownRecoveryRequired();
      }
    }

    /** Ends a control with the copy a handler holds. */
    method FailControl(id: SocketId, a: ServerAttachment, outcome: Outcome)
      requires Core() && id in servers && servers[id].stored.Some? && ValidServer(a)
      requires AttachmentShrunk(servers[id].stored.value, a) && a.current == servers[id].stored.value.current
      modifies this`servers, this`clients, this`pendingServerOutcomes, this`pendingClientOutcomes, this`metrics,
        this`finalizedConnections, this`inactiveControls, this`recoveryPersisted
      ensures Core() && clients.Keys == old(clients.Keys) && Settled(old(clients), clients)
      ensures servers.Keys == old(servers.Keys) && Shrunk(old(servers), servers)
      ensures old(LedgerHolds()) ==> LedgerHolds()
      ensures a.current && !faulty ==>
                forall c :: c in clients && clients[c].stored.Some? ==> DurablyTerminal(clients[c])
      ensures !faulty ==> !Holds(servers[id])
      ensures a.current && !faulty ==>
                AllEnded(old(clients), clients, old(pendingClientOutcomes),
                         if id in old(pendingServerOutcomes) then old(pendingServerOutcomes)[id] else outcome)
    {
      hide AllEnded, ValidServer, ValidClient, Ledger, ReadableServers, ReadableClients, Consistent, AtMostOneOwner,
           PendingOwned, Settled, Shrunk, TicketsCarried, AttachmentShrunk, SocketMarked, Quiet;
      ghost var before, sessions := servers, clients;
      var ok := FailServer(id, a, outcome);
      ShrunkCarries(before, servers);
      ConsistentAfterTeardown(before, servers, sessions, clients, frames, issued);
      if !ok {
        PersistTeardownRecoveryRequired();
      }
    }

    /** The error path of a control's handler: ends it with whatever is stored for it now. */
    method FailStoredControl(id: SocketId, outcome: Outcome)
      requires Core() && id in servers
      modifies this`servers, this`clients, this`pendingServerOutcomes, this`pendingClientOutcomes, this`metrics,
        this`finalizedConnections, this`inactiveControls, this`recoveryPersisted
      ensures Core() && clients.Keys == old(clients.Keys) && Settled(old(clients), clients)
      ensures servers.Keys == old(servers.Keys) && Shrunk(old(servers), servers)
      ensures old(LedgerHolds()) ==> LedgerHolds()
    {
      hide Ledger, Consistent, AtMostOneOwner, PendingOwned, Settled, Shrunk, TicketsCarried;
      if servers[id].stored.Some? {
        ReadAt(servers, id);
        DerivedSelf(servers[id].stored.value.tickets);
        FailControl(id, servers[id].stored.value, outcome);
      } else {
        FailUnreadableControl(id);
      }
    }

    /** A control that cannot be read may still own every client. */
    method FailUnreadableControl(id: SocketId)
      requires Core() && id in servers && servers[id].stored.None?
      modifies this`servers, this`clients, this`pendingClientOutcomes, this`metrics, this`finalizedConnections,
        this`recoveryPersisted
      ensures Core() && clients.Keys == old(clients.Keys) && Settled(old(clients), clients)
      ensures servers.Keys == old(servers.Keys) && Shrunk(old(servers), servers)
      ensures old(LedgerHolds()) ==> LedgerHolds()
    {
      hide ValidServer, ValidClient, Ledger, ReadableServers, ReadableClients, OnlyMarked, Consistent, AtMostOneOwner,
        PendingOwned, Settled, Shrunk, TicketsCarried, OnlyClosed;
      ghost var before, sessions := servers, clients;
      var ended := CloseAllClients(InternalError);
      ghost var marked := servers;
      MarkedShrinks(before, marked);
      MarkedKeepsOwned(before, marked, pendingServerOutcomes);
      if ended {
        CloseOne(id);
      } else {
        ClosedSelf(servers);
        PersistTeardownRecoveryRequired();
      }
      OnlyClosedShrinks(marked, servers);
      ClosedKeys(marked, servers);
      ShrunkTransitive(before, marked, servers);
      ShrunkKeepsOwnership(marked, servers);
      OnlyClosedKeepsPending(marked, servers, pendingServerOutcomes);
      ShrunkCarries(before, servers);
      ConsistentAfterTeardown(before, servers, sessions, clients, frames, issued);
    }

    /**
     The control that speaks for the room. Under the invariant an answer means
     nothing was owed and nothing changed, so copies read before it are current.
     */
    method ActiveControl() returns (ok: bool, winner: Option<SocketId>, attachment: Option<ServerAttachment>)
      requires Core()
      modifies this`servers, this`clients, this`pendingServerOutcomes, this`pendingClientOutcomes, this`metrics,
        this`finalizedConnections, this`inactiveControls, this`recoveryPersisted
      ensures Core() && clients.Keys == old(clients.Keys) && Settled(old(clients), clients)
      ensures servers.Keys == old(servers.Keys) && Shrunk(old(servers), servers)
      ensures old(LedgerHolds()) ==> LedgerHolds()
      ensures old(metrics) <= metrics
      ensures !faulty && old(pendingServerOutcomes) != map[] ==>
                winner.None? && AllReported(old(clients), old(finalizedConnections), metrics)
      ensures !faulty && old(AllReadable(clients)) ==> ok
      ensures ok ==> SoleCandidate(servers, winner, currentGeneration, None) && pendingServerOutcomes == map[]
      ensures winner.Some? <==> attachment.Some?
      ensures winner.Some? ==> ok
      ensures ok ==> recoveryPersisted == old(recoveryPersisted)
      ensures old(pendingServerOutcomes) == map[] ==>
                ok && servers == old(servers) && clients == old(clients) && metrics == old(metrics) &&
                pendingClientOutcomes == old(pendingClientOutcomes)
      ensures winner.Some? ==>
                && old(pendingServerOutcomes) == map[]
                && winner.value in servers && servers[winner.value].stored == attachment
                && servers[winner.value].open && attachment.value.current
                && Some(attachment.value.generation) == currentGeneration
    {
      hide Reported, AllReported, AllReadable, DistinctConnections;
      hide Ledger, ReadableServers, ReadableClients, Consistent, AtMostOneOwner, PendingOwned,
        Settled, Shrunk, TicketsCarried, SocketMarked, Candidate, Newer;
      ConsistentIsDistinct(servers, clients, frames, issued);
      ghost var before, sessions := servers, clients;
      ok, winner, attachment := ReconcileActiveServer(None);
      ShrunkCarries(before, servers);
      ConsistentAfterTeardown(before, servers, sessions, clients, frames, issued);
      if !ok {
        winner, attachment := None, None;
        PersistTeardownRecoveryRequired();
      } else if winner.Some? {
        CandidateHolds(servers, winner.value, currentGeneration, None);
      }
    }

    method CloseUnreadableClient(id: SocketId)
      requires Core() && id in clients
      modifies this`clients
      ensures Core() && clients.Keys == old(clients.Keys) && Settled(old(clients), clients)
      ensures old(LedgerHolds()) ==> LedgerHolds()
    {
      hide Ledger, ReadableServers, Consistent, AtMostOneOwner, PendingOwned, TicketsCarried, ValidClient;
      ghost var sessions := clients;
      ReadClientAt(clients, id);
      var _ := CloseClient(id);
      LedgerAfterClose(sessions, id, clients[id], metrics, finalizedConnections, delivered);
      ReadableAfterWrite(sessions, id, clients[id]);
      CarriedSelf(servers);
      ConsistentAfterTeardown(servers, servers, sessions, clients, frames, issued);
    }

    /** Durably moves the session to the exchange. */
    method EnterExchange(id: SocketId, c: ClientAttachment, signal: CandidateSignal) returns (ok: bool)
      requires Core() && id in clients && clients[id].stored == Some(c) && ValidSignal(signal)
      requires c.stage == AwaitingCandidate && Fresh(servers, frames, c.connectionId)
      modifies this`clients
      ensures Core() && clients.Keys == old(clients.Keys) && TerminalAbsorbed(old(clients), clients)
      ensures old(LedgerHolds()) ==> LedgerHolds()
      ensures clients == if ok then old(clients)[id := old(clients)[id].(stored := Some(Dispatched(c, signal)))]
                         else old(clients)
      ensures !faulty ==> ok
    {
      hide Ledger, ReadableServers, ReadableClients, Consistent, AtMostOneOwner, PendingOwned, ValidClient, Fresh,
        TerminalAbsorbed;
      ghost var sessions := clients;
      ReadClientAt(clients, id);
      DispatchedIsValid(c, signal);
      AbsorbedSelf(clients);
      ok := TryWriteClient(id, Dispatched(c, signal));
      if ok {
        DispatchKeepsRoom(servers, sessions, clients, id, c, signal, frames, issued);
        AbsorbedAfterWrite(sessions, id, clients[id]);
        LedgerAfterProgress(sessions, id, clients[id], c, metrics, finalizedConnections, delivered);
        ReadableAfterWrite(sessions, id, clients[id]);
      }
    }

    /** Adds the session's ticket to the control. */
    method AddTicket(
      id: SocketId, c: ClientAttachment, sid: SocketId, a: ServerAttachment, signal: CandidateSignal, now: int,
      ghost sessions: Clients)
      returns (ok: bool)
      requires Core() && DistinctConnections(sessions) && ValidClient(c) && ValidSignal(signal)
      requires id in sessions && sessions[id].stored == Some(c) && c.stage == AwaitingCandidate
      requires clients == sessions[id := sessions[id].(stored := Some(Dispatched(c, signal)))]
      requires Fresh(servers, frames, c.connectionId) && sid in servers && servers[sid].stored == Some(a)
      requires |Pruned(a, now).tickets| < MAX_RETAINED_TICKETS
      requires forall t :: t in Pruned(a, now).tickets ==> t.ticketDigest != signal.digest
      requires a.controlId == c.controlId && a.generation == c.generation
      modifies this`servers
      ensures Core()
      ensures servers ==
          if ok then old(servers)[sid := TicketAdded(old(servers)[sid], c, signal, now)] else old(servers)
      ensures !faulty ==> ok
    {
      hide ReadableServers, ReadableClients, Consistent, AtMostOneOwner, PendingOwned, ValidServer, Fresh, Pruned,
        WithTicket, NewTicket, Dispatched, DistinctConnections, ValidClient;
      AddingKeepsRoom(servers, sessions, clients, id, sid, c, signal, now, frames, issued, pendingServerOutcomes);
      ok := TryWriteServer(sid, WithTicket(Pruned(a, now), NewTicket(c, signal)));
    }

    /** An open control with the room's claim at its generation. */
    ghost predicate OwnsRoom(sid: SocketId)
      reads this`servers, this`currentGeneration
    {
      && sid in servers && servers[sid].open && servers[sid].stored.Some? && servers[sid].stored.value.current
      && Some(servers[sid].stored.value.generation) == currentGeneration
    }

    /** A session that has not ended and whose summary is still to be sent. */
    predicate Unreported(id: SocketId)
      reads this`clients, this`finalizedConnections
    {
      id in clients && OwesReport(clients[id], finalizedConnections) && clients[id].stored.value.stage != Terminal
    }

    /** Why a candidate frame is refused after its hashes are known, in the order the room decides. */
    function BeginRefusal(
      c: ClientAttachment, open: bool, snapshot: ClientAttachment, signal: CandidateSignal, live: bool, now: int,
      control: Option<ServerAttachment>): Option<Outcome>
      reads this`currentGeneration
    {
      if c.boundTicketHash != Some(signal.boundHash) || !live ||
         (snapshot.accessRedemption.Some? &&
          (c.accessRedemption != snapshot.accessRedemption || c.accessGrant != Some(signal.ticket)))
      then Some(AuthorizationFailed)
      else if !open then Some(ClientDisconnected)
      else if c.connectionId != snapshot.connectionId then Some(InternalError)
      else if c.stage != AwaitingCandidate || c.authorization != NotRequired then Some(ProtocolError)
      else if c.expiresAt <= now then Some(SessionExpired)
      else if control.None? || control.value.controlId != c.controlId || control.value.generation != c.generation ||
              Some(c.generation) != currentGeneration
      then Some(ServerUnavailable)
      else None
    }

    /**
     Resumes a client's candidate after the hashing awaits: refuses it, or opens
     its ticket on the control and forwards the frame. The client attachment is
     read before the control is reconciled, so its summary marker is only
     trustworthy when no control teardown was owed.
     */
    method BeginClientTicket(
      id: SocketId, snapshot: ClientAttachment, signal: CandidateSignal, live: bool, now: int)
      requires Core() && id in clients && ValidSignal(signal)
      modifies this`servers, this`clients, this`pendingServerOutcomes, this`pendingClientOutcomes, this`metrics,
        this`finalizedConnections, this`inactiveControls, this`recoveryPersisted, this`frames
      ensures Core() && clients.Keys == old(clients.Keys) && TerminalAbsorbed(old(clients), clients)
      ensures servers.Keys == old(servers.Keys)
      ensures old(LedgerHolds()) && old(pendingServerOutcomes) == map[] ==> LedgerHolds()
      ensures !faulty && old(LedgerHolds() && AllReadable(clients) && Unreported(id)) ==>
                (LedgerHolds() <==> old(pendingServerOutcomes) == map[]) &&
                (old(pendingServerOutcomes) != map[] ==> RepeatsReport(clients, id, metrics))
      ensures !faulty && old(AllReadable(clients) && Unreported(id) && pendingServerOutcomes != map[]) ==>
                recoveryPersisted == old(recoveryPersisted)
      ensures frames == old(frames) ||
              (old(clients)[id].stored.Some? && old(clients)[id].open &&
               OneFrame(old(frames), frames, ClientCandidate, old(clients)[id].stored.value.connectionId) &&
               old(clients)[id].stored.value.boundTicketHash == Some(signal.boundHash) && live &&
               now < old(clients)[id].stored.value.expiresAt)
      ensures !faulty && old(pendingServerOutcomes) == map[] && old(clients)[id].stored.Some?
              && old(clients)[id].stored.value.stage != Terminal ==>
                && (forall sid :: old(OwnsRoom(sid)) ==>
                      CandidateHandled(id, sid, old(clients)[id].stored.value, old(servers)[sid].stored, snapshot,
                                       signal, live, now, currentGeneration, old(servers), servers, old(clients),
                                       clients, old(frames), frames, old(pendingClientOutcomes), lossy))
                && ((forall sid :: !old(OwnsRoom(sid))) ==>
                      CandidateHandled(id, id, old(clients)[id].stored.value, None, snapshot,
                                       signal, live, now, currentGeneration, old(servers), servers, old(clients),
                                       clients, old(frames), frames, old(pendingClientOutcomes), lossy))
    {
      hide RepeatsReport, Reported, AllReported, AllReadable, CandidateHandled;
      hide Ledger, ReadableServers, ReadableClients, Consistent, AtMostOneOwner, PendingOwned,
        Settled, Shrunk, OnlyMarked, SoleCandidate, ValidClient, Endable, TerminalAbsorbed, OneFrame;
      ghost var sessions := clients;
      ReadClientAt(clients, id);
      var current := clients[id].stored;
      var ok, winner, attachment := ActiveControl();
      if !faulty && old(pendingServerOutcomes) != map[] && old(Unreported(id)) {
        OneOfAll(sessions, id, old(finalizedConnections), metrics);
      }
      SettledAbsorbs(sessions, clients);
      SettledAt(sessions, clients, id);
      if !ok {
        return;
      }
      if current.None? {
        ghost var reconciled := clients;
        CloseUnreadableClient(id);
        SettledTransitive(sessions, reconciled, clients);
        SettledAbsorbs(sessions, clients);
        return;
      }
      StoredIsEndable(current.value);
      ghost var reconciled := clients;
      if old(pendingServerOutcomes) == map[] {
        MarkerKept(clients, id, current.value);
        WinnerOwns(servers, winner, currentGeneration);
        assert winner.Some? ==> old(OwnsRoom(winner.value));
      }
      OpenOrRefuse(id, current.value, snapshot, signal, live, now, winner, attachment);
      AbsorbedTransitive(sessions, reconciled, clients);
    }

    /** The session's own control is known or missing: its candidate is refused, or opens a ticket there. */
    method OpenOrRefuse(
      id: SocketId, c: ClientAttachment, snapshot: ClientAttachment, signal: CandidateSignal, live: bool, now: int,
      winner: Option<SocketId>, control: Option<ServerAttachment>)
      requires Core() && id in clients && ValidSignal(signal) && (winner.Some? <==> control.Some?)
      requires clients[id].stored.Some? && SameSession(clients[id].stored.value, c) && Endable(c)
      requires winner.Some? ==>
                 winner.value in servers && servers[winner.value].stored == control && clients[id].stored == Some(c)
      modifies this`servers, this`clients, this`pendingServerOutcomes, this`pendingClientOutcomes, this`metrics,
        this`finalizedConnections, this`inactiveControls, this`recoveryPersisted, this`frames
      ensures Core() && clients.Keys == old(clients.Keys) && TerminalAbsorbed(old(clients), clients)
      ensures servers.Keys == old(servers.Keys)
      ensures old(LedgerHolds() && KeepsMarker(clients[id], c)) ==> LedgerHolds()
      ensures winner.None? && !faulty && c.stage != Terminal && !c.summaryEmitted ==>
                (old(Reported(metrics, c.connectionId)) ==> !LedgerHolds() && RepeatsReport(clients, id, metrics))
      ensures winner.None? && !faulty ==> recoveryPersisted == old(recoveryPersisted)
      ensures frames == old(frames) ||
              (old(clients)[id].open && OneFrame(old(frames), frames, ClientCandidate, c.connectionId) &&
               c.boundTicketHash == Some(signal.boundHash) && live && now < c.expiresAt)
      ensures !faulty && c.stage != Terminal ==>
                CandidateHandled(id, if winner.Some? then winner.value else id, c, control, snapshot, signal, live, now,
                                 currentGeneration, old(servers), servers, old(clients), clients, old(frames), frames,
                                 old(pendingClientOutcomes), lossy)
    {
      hide RepeatsReport, Reported;
      hide Ledger, ReadableServers, ReadableClients, Consistent, AtMostOneOwner, PendingOwned,
        Settled, Shrunk, OnlyMarked, ValidClient, Endable, TerminalAbsorbed, EndedAs, SessionOpened, SlotFree, OneFrame,
        SameSession, KeepsMarker;
      ghost var sessions := clients;
      var refusal := BeginRefusal(c, clients[id].open, snapshot, signal, live, now, control);
      if refusal.Some? {
        FailCurrent(id, c, refusal.value);
        SettledAbsorbs(sessions, clients);
      } else {
        MarkerKept(clients, id, c);
        DispatchCandidate(id, c, winner.value, control.value, signal, now);
      }
    }

    /** Records in the session that its frame went out. */
    method CountFrame(id: SocketId, c: ClientAttachment, c': ClientAttachment)
      requires Core() && id in clients && clients[id].stored == Some(c) && c.stage == CandidateExchange
      requires c' == c.(framesForwarded := c'.framesForwarded) && ValidClient(c')
      modifies this`servers, this`clients, this`pendingClientOutcomes, this`metrics, this`finalizedConnections,
        this`recoveryPersisted
      ensures Core() && clients.Keys == old(clients.Keys) && TerminalAbsorbed(old(clients), clients)
      ensures servers.Keys == old(servers.Keys)
      ensures old(LedgerHolds()) ==> LedgerHolds()
      ensures !faulty ==>
                servers == old(servers) && clients == old(clients)[id := old(clients)[id].(stored := Some(c'))]
    {
      hide Ledger, ReadableServers, ReadableClients, Consistent, AtMostOneOwner, PendingOwned, Settled, OnlyMarked,
        ValidClient, Endable, TerminalAbsorbed, KeepsMarker;
      ghost var sessions := clients;
      CountedFrameKeepsRoom(servers, clients, id, c, c', frames, issued);
      StoredIsEndable(c');
      LedgerAfterProgress(sessions, id, sessions[id].(stored := Some(c')), c, metrics, finalizedConnections, delivered);
      AbsorbedAfterWrite(sessions, id, sessions[id].(stored := Some(c')));
      ReadableAfterWrite(sessions, id, sessions[id].(stored := Some(c')));
      var counted := TryWriteClient(id, c');
      if !counted {
        MarkerKept(clients, id, c');
        FailCurrent(id, c', InternalError);
        SettledAbsorbs(sessions, clients);
      }
    }

    /** Sends an opened candidate to the control and counts it. */
    method SendCandidate(
      id: SocketId, c: ClientAttachment, sid: SocketId, a: ServerAttachment, signal: CandidateSignal)
      requires Core() && id in clients && clients[id].stored == Some(Dispatched(c, signal)) && ValidSignal(signal)
      requires ValidClient(c) && c.stage == AwaitingCandidate
      requires sid in servers && servers[sid].stored == Some(WithTicket(a, NewTicket(c, signal)))
      requires a.controlId == c.controlId && a.generation == c.generation && Some(c.generation) == currentGeneration
      requires Untouched(frames, c.connectionId)
      modifies this`servers, this`clients, this`pendingServerOutcomes, this`pendingClientOutcomes, this`metrics,
        this`finalizedConnections, this`inactiveControls, this`recoveryPersisted, this`frames
      ensures Core() && clients.Keys == old(clients.Keys) && TerminalAbsorbed(old(clients), clients)
      ensures servers.Keys == old(servers.Keys)
      ensures old(LedgerHolds()) ==> LedgerHolds()
      ensures frames == old(frames) || OneFrame(old(frames), frames, ClientCandidate, c.connectionId)
      ensures !faulty && !lossy ==>
                && servers == old(servers) && CandidateSent(old(frames), frames, c, signal)
                && clients == old(clients)[id := old(clients)[id].(stored :=
                     Some(Dispatched(c, signal).(framesForwarded := Dispatched(c, signal).framesForwarded + 1)))]
    {
      hide Ledger, ReadableServers, ReadableClients, Consistent, AtMostOneOwner, PendingOwned, Settled, Shrunk,
        ValidClient, TerminalAbsorbed, Untouched, Dispatched, WithTicket, NewTicket, CandidateFrame, OneFrame,
        CandidateSent;
      ghost var sessions := clients;
      var sent := CallPlatform();
      if sent {
        RecordCandidate(id, c, sid, a, signal);
      } else {
        FailStoredControl(sid, ServerUnavailable);
        SettledAbsorbs(sessions, clients);
      }
    }

    method RecordCandidate(
      id: SocketId, c: ClientAttachment, ghost sid: SocketId, a: ServerAttachment, signal: CandidateSignal)
      requires Core() && id in clients && clients[id].stored == Some(Dispatched(c, signal)) && ValidSignal(signal)
      requires ValidClient(c) && c.stage == AwaitingCandidate
      requires sid in servers && servers[sid].stored == Some(WithTicket(a, NewTicket(c, signal)))
      requires a.controlId == c.controlId && a.generation == c.generation && Some(c.generation) == currentGeneration
      requires Untouched(frames, c.connectionId)
      modifies this`servers, this`clients, this`pendingClientOutcomes, this`metrics, this`finalizedConnections,
        this`recoveryPersisted, this`frames
      ensures Core() && clients.Keys == old(clients.Keys) && TerminalAbsorbed(old(clients), clients)
      ensures servers.Keys == old(servers.Keys)
      ensures old(LedgerHolds()) ==> LedgerHolds()
      ensures OneFrame(old(frames), frames, ClientCandidate, c.connectionId)
      ensures !faulty ==>
                && servers == old(servers) && CandidateSent(old(frames), frames, c, signal)
                && clients == old(clients)[id := old(clients)[id].(stored :=
                     Some(Dispatched(c, signal).(framesForwarded := Dispatched(c, signal).framesForwarded + 1)))]
    {
      hide Ledger, ReadableServers, ReadableClients, Consistent, AtMostOneOwner, PendingOwned, ValidClient,
        TerminalAbsorbed, Untouched, Dispatched, WithTicket, NewTicket, CandidateFrame, OneFrame,
        ValidServer, CandidateSent;
      CandidateIsSent(frames, c, a, signal, currentGeneration);
      DispatchedIsValid(c, signal);
      ReadAt(servers, sid);
      CandidateFrameKeepsRoom(servers, clients, sid, a, c, signal, currentGeneration, frames, issued);
      frames := frames + [CandidateFrame(c, a, signal, currentGeneration)];
      var c' := Dispatched(c, signal);
      CountFrame(id, c', c'.(framesForwarded := c'.framesForwarded + 1));
    }

    /** Forwards a candidate to the control that owns the session, unless its ticket was used or no slot is left. */
    method DispatchCandidate(
      id: SocketId, c: ClientAttachment, sid: SocketId, a: ServerAttachment, signal: CandidateSignal, now: int)
      requires Core() && id in clients && clients[id].stored == Some(c) && ValidSignal(signal)
      requires c.stage == AwaitingCandidate && sid in servers && servers[sid].stored == Some(a)
      requires a.controlId == c.controlId && a.generation == c.generation && Some(c.generation) == currentGeneration
      modifies this`servers, this`clients, this`pendingServerOutcomes, this`pendingClientOutcomes, this`metrics,
        this`finalizedConnections, this`inactiveControls, this`recoveryPersisted, this`frames
      ensures Core() && clients.Keys == old(clients.Keys) && TerminalAbsorbed(old(clients), clients)
      ensures servers.Keys == old(servers.Keys)
      ensures old(LedgerHolds()) ==> LedgerHolds()
      ensures frames == old(frames) || OneFrame(old(frames), frames, ClientCandidate, c.connectionId)
      ensures !faulty && !SlotFree(a, signal.digest, now) ==>
                && frames == old(frames)
                && EndedAs(clients[id].stored, c,
                           Verdict(c.terminalOutcome, old(pendingClientOutcomes), id, ProtocolError))
      ensures !faulty && !lossy && SlotFree(a, signal.digest, now) ==>
                SessionOpened(id, sid, c, a, signal, now, old(servers), servers, old(clients), clients, old(frames),
                              frames)
    {
      hide Ledger, ReadableServers, ReadableClients, Consistent, AtMostOneOwner, PendingOwned, Settled, OnlyMarked,
        ValidClient, Endable, TerminalAbsorbed, SessionOpened, EndedAs, OneFrame;
      ghost var sessions := clients;
      if (exists t :: t in PrunedTickets(a.tickets, now) && t.ticketDigest == signal.digest) ||
         |PrunedTickets(a.tickets, now)| >= MAX_RETAINED_TICKETS {
        ReadClientAt(clients, id);
        StoredIsEndable(c);
        MarkerKept(clients, id, c);
        FailCurrent(id, c, ProtocolError);
        SettledAbsorbs(sessions, clients);
      } else {
        OpenTicket(id, c, sid, a, signal, now);
      }
    }

    /** The session enters the exchange, its ticket is added to the control, and only then its frame is sent. */
    method OpenTicket(
      id: SocketId, c: ClientAttachment, sid: SocketId, a: ServerAttachment, signal: CandidateSignal, now: int)
      requires Core() && id in clients && clients[id].stored == Some(c) && ValidSignal(signal)
      requires c.stage == AwaitingCandidate && sid in servers && servers[sid].stored == Some(a)
      requires a.controlId == c.controlId && a.generation == c.generation && Some(c.generation) == currentGeneration
      requires |PrunedTickets(a.tickets, now)| < MAX_RETAINED_TICKETS
      requires forall t :: t in PrunedTickets(a.tickets, now) ==> t.ticketDigest != signal.digest
      modifies this`servers, this`clients, this`pendingServerOutcomes, this`pendingClientOutcomes, this`metrics,
        this`finalizedConnections, this`inactiveControls, this`recoveryPersisted, this`frames
      ensures Core() && clients.Keys == old(clients.Keys) && TerminalAbsorbed(old(clients), clients)
      ensures servers.Keys == old(servers.Keys)
      ensures old(LedgerHolds()) ==> LedgerHolds()
      ensures frames == old(frames) || OneFrame(old(frames), frames, ClientCandidate, c.connectionId)
      ensures !faulty && !lossy ==>
                SessionOpened(id, sid, c, a, signal, now, old(servers), servers, old(clients), clients, old(frames),
                              frames)
    {
      hide Ledger, ReadableServers, ReadableClients, Consistent, AtMostOneOwner, PendingOwned, Settled, Shrunk,
        OnlyMarked, ValidClient, ValidServer, Endable, TerminalAbsorbed, Untouched, Routed, Affords, Opened,
        CandidateSent, Dispatched, WithTicket, NewTicket, OneFrame, SessionOpened, Pruned;
      ghost var before, sessions := servers, clients;
      ReadAt(servers, sid);
      ReadClientAt(clients, id);
      PrunedControl(a, now);
      AwaitingIsFresh(servers, clients, frames, issued, id);
      var entered := EnterExchange(id, c, signal);
      ghost var exchange := clients;
      var added := false;
      if entered {
        added := AddTicket(id, c, sid, a, signal, now, sessions);
      }
      if !added {
        FailStored(id, InternalError);
        SettledAbsorbs(exchange, clients);
      } else {
        TicketsAreOthers(before, frames, sid, a, now, c.connectionId);
        ghost var ticketed := servers;
        SendCandidate(id, c, sid, Pruned(a, now), signal);
        if !faulty && !lossy {
          OpenedTogether(id, sid, c, a, signal, now, before, ticketed, sessions, exchange, clients, old(frames),
                         frames);
        }
      }
      AbsorbedTransitive(sessions, exchange, clients);
    }

    // ---- frames from the control --------------------------------------------------------------------

    /** The open, live session that presented exactly this ticket to exactly this control. */
    predicate IsTicketClient(id: SocketId, a: ServerAttachment, t: TicketState, ticket: string, now: int)
      reads this`clients
    {
      && id in clients && clients[id].open && clients[id].stored.Some?
      && var c := clients[id].stored.value;
         && c.controlId == a.controlId && c.generation == a.generation && c.connectionId == t.clientConnectionId
         && c.stage != Terminal && c.expiresAt > now && c.ticketDigest == Some(t.ticketDigest)
         && c.ticket == Some(ticket)
    }

    method FindTicketClient(a: ServerAttachment, t: TicketState, ticket: string, now: int)
      returns (found: Option<SocketId>)
      ensures found.Some? ==> t.stage == Active && t.expiresAt > now && IsTicketClient(found.value, a, t, ticket, now)
      ensures found.None? && t.stage == Active && t.expiresAt > now ==>
                forall id :: id in clients ==> !IsTicketClient(id, a, t, ticket, now)
    {
      if t.stage != Active || t.expiresAt <= now {
        return None;
      }
      var todo := clients.Keys;
      while todo != {}
        invariant todo <= clients.Keys
        invariant forall id :: id in clients && id !in todo ==> !IsTicketClient(id, a, t, ticket, now)
        decreases |todo|
      {
        var id: SocketId :| id in todo;
        todo := todo - {id};
        if IsTicketClient(id, a, t, ticket, now) {
          return Some(id);
        }
      }
      found := None;
    }

    /** Makes the charged ticket durable. */
    method ChargeTicket(sid: SocketId, a: ServerAttachment, k: nat, signal: ServerSignal, spent: bool)
      returns (ok: bool)
      requires Core() && sid in servers && CopyOf(servers[sid], a) && k < |a.tickets| && ValidServerSignal(signal)
      requires Charge(a.tickets[k], signal).Some? && (signal.complete ==> spent)
      modifies this`servers
      ensures Core() && servers.Keys == old(servers.Keys)
      ensures servers == if ok then old(servers)[sid := old(servers)[sid].(stored :=
                           Some(Recharged(a, k, SpentIf(Charge(a.tickets[k], signal).value, spent))))] else old(servers)
      ensures !faulty ==> ok
    {
      hide ReadableServers, ReadableClients, Consistent, AtMostOneOwner, PendingOwned, CopyOf, ValidServer, Charge,
        Recharged, SpentIf;
      RechargingKeepsRoom(servers, clients, sid, a, k, signal, spent, frames, issued, pendingServerOutcomes);
      ok := TryWriteServer(sid, Recharged(a, k, SpentIf(Charge(a.tickets[k], signal).value, spent)));
    }

    /** A frame beyond its budget is the control's fault. */
    method RejectFrame(sid: SocketId, a: ServerAttachment)
      requires Core() && sid in servers && CopyOf(servers[sid], a)
      modifies this`servers, this`clients, this`pendingServerOutcomes, this`pendingClientOutcomes, this`metrics,
        this`finalizedConnections, this`inactiveControls, this`recoveryPersisted
      ensures Core() && clients.Keys == old(clients.Keys) && Settled(old(clients), clients)
      ensures servers.Keys == old(servers.Keys)
      ensures old(LedgerHolds()) ==> LedgerHolds()
      ensures a.current && !faulty ==>
                forall c :: c in clients && clients[c].stored.Some? ==> DurablyTerminal(clients[c])
      ensures !faulty ==> !Holds(servers[sid])
      ensures a.current && !faulty ==>
                AllEnded(old(clients), clients, old(pendingClientOutcomes),
                         if sid in old(pendingServerOutcomes) then old(pendingServerOutcomes)[sid] else ProtocolError)
    {
      CopyShrinks(servers[sid], a);
      CopyClaims(servers[sid], a);
      hide AllEnded, Ledger, ReadableServers, ReadableClients, Consistent, AtMostOneOwner, PendingOwned, Settled,
           Shrunk, CopyOf, ValidServer, AttachmentShrunk;
      FailControl(sid, a, ProtocolError);
    }

    /** Charges a frame to a ticket whose session is gone, and spends the ticket. */
    method ChargeUnclaimed(sid: SocketId, a: ServerAttachment, k: nat, signal: ServerSignal)
      requires Core() && sid in servers && CopyOf(servers[sid], a) && k < |a.tickets| && ValidServerSignal(signal)
      modifies this`servers, this`clients, this`pendingServerOutcomes, this`pendingClientOutcomes, this`metrics,
        this`finalizedConnections, this`inactiveControls, this`recoveryPersisted
      ensures Core() && clients.Keys == old(clients.Keys) && Settled(old(clients), clients)
      ensures servers.Keys == old(servers.Keys)
      ensures old(LedgerHolds()) ==> LedgerHolds()
      ensures Charge(a.tickets[k], signal).Some? && !faulty ==>
                servers == old(servers)[sid := old(servers)[sid].(stored :=
                  Some(Recharged(a, k, SpentIf(Charge(a.tickets[k], signal).value, true))))]
    {
      hide Core, Ledger, Settled, CopyOf, Charge, Recharged;
      SettledSelf(clients);
      var charged := Charge(a.tickets[k], signal);
      if charged.None? {
        RejectFrame(sid, a);
        return;
      }
      var wrote := ChargeTicket(sid, a, k, signal, true);
      if !wrote {
        FailStoredControl(sid, InternalError);
      }
    }

    /** Charges the frame, persists both budgets, and only then hands it to the session. */
    method ForwardServerFrame(
      sid: SocketId, a: ServerAttachment, k: nat, tid: SocketId, c: ClientAttachment, signal: ServerSignal)
      requires Core() && sid in servers && CopyOf(servers[sid], a) && k < |a.tickets| && ValidServerSignal(signal)
      requires tid in clients && clients[tid].stored == Some(c) && Matched(c, a, a.tickets[k])
      requires Some(c.generation) == currentGeneration
      modifies this`servers, this`clients, this`pendingServerOutcomes, this`pendingClientOutcomes, this`metrics,
        this`finalizedConnections, this`inactiveControls, this`recoveryPersisted, this`frames
      ensures Core() && clients.Keys == old(clients.Keys) && TerminalAbsorbed(old(clients), clients)
      ensures servers.Keys == old(servers.Keys)
      ensures old(LedgerHolds()) ==> LedgerHolds()
      ensures frames == old(frames) ||
              OneFrame(old(frames), frames, if signal.complete then Completion else ServerCandidate, c.connectionId)
      ensures !HasRoomFor(a.tickets[k], signal) ==> frames == old(frames)
      ensures !HasRoomFor(a.tickets[k], signal) && !faulty ==>
                && !Holds(servers[sid])
                && (a.current ==>
                     forall id :: id in clients && clients[id].stored.Some? ==> DurablyTerminal(clients[id]))
      ensures HasRoomFor(a.tickets[k], signal) && !faulty ==>
                && servers[sid].open == old(servers)[sid].open && servers[sid].stored.Some?
                && servers[sid].stored.value.current == a.current
      ensures HasRoomFor(a.tickets[k], signal) && !faulty && !lossy ==>
                && Relayed(old(frames), frames, c.connectionId, signal)
                && SocketMarked(old(servers)[sid].(stored := Some(ControlAfterFrame(a, k, signal))), servers[sid])
      ensures HasRoomFor(a.tickets[k], signal) && !faulty && !lossy && !signal.complete ==>
                && servers == old(servers)[sid := old(servers)[sid].(stored := Some(ControlAfterFrame(a, k, signal)))]
                && clients == old(clients)[tid := old(clients)[tid].(stored :=
                     Some(CountedFrame(c, AfterFrame(a.tickets[k], signal))))]
      ensures HasRoomFor(a.tickets[k], signal) && !faulty && !lossy && signal.complete ==>
                EndedAs(clients[tid].stored, CountedFrame(c, AfterFrame(a.tickets[k], signal)),
                        Verdict(c.terminalOutcome, old(pendingClientOutcomes), tid, Completed))
      ensures FrameHandled(sid, tid, a.tickets[k], c, signal, old(servers), servers, old(clients), clients,
                           old(frames), frames, old(pendingClientOutcomes), sid !in old(pendingServerOutcomes), faulty,
                           lossy)
    {
      hide Ledger, Settled, CopyOf, Charge, Recharged, Matched, TerminalAbsorbed, OneFrame, Covers, Consistent,
        ReadableServers, ReadableClients, AtMostOneOwner, PendingOwned, Shrunk, HasRoomFor, Relayed, EndedAs,
        CountedFrame, AfterFrame, ControlAfterFrame, SocketMarked, OnlyMarked;
      ChargeMeans(a.tickets[k], signal);
      CopyClaims(servers[sid], a);
      CoveredTicket(servers, clients, frames, issued, sid, a, k);
      hide Core;
      ghost var sessions := clients;
      AbsorbedSelf(clients);
      if Charge(a.tickets[k], signal).None? {
        RejectFrame(sid, a);
        SettledAbsorbs(sessions, clients);
        return;
      }
      var wrote := ChargeTicket(sid, a, k, signal, signal.complete);
      if wrote {
        ghost var charged := servers;
        RechargeMeans(a, k, signal);
        DeliverAnswer(sid, a, k, tid, c, signal);
        if !faulty {
          MarkedClaim(charged, servers, sid);
          ChargedIsIn(a, k, signal);
          if !lossy {
            SpentStays(old(servers)[sid], servers[sid], a, k, signal);
          }
        }
      } else {
        FailStoredControl(sid, InternalError);
        SettledAbsorbs(sessions, clients);
      }
    }

    /** A candidate is charged to the session's own copy before it is sent; a completion is not. */
    method WriteCopy(
      sid: SocketId, ghost a: ServerAttachment, ghost k: nat, tid: SocketId, c: ClientAttachment,
      c': ClientAttachment, signal: ServerSignal)
      returns (ok: bool)
      requires Core() && sid in servers && k < |a.tickets| && ValidServerSignal(signal)
      requires Charge(a.tickets[k], signal).Some? && Matched(c, a, a.tickets[k])
      requires servers[sid].stored ==
               Some(Recharged(a, k, SpentIf(Charge(a.tickets[k], signal).value, signal.complete)))
      requires tid in clients && clients[tid].stored == Some(c)
      requires c' == CopiedBudget(c, SpentIf(Charge(a.tickets[k], signal).value, signal.complete))
      modifies this`clients
      ensures Core() && clients.Keys == old(clients.Keys) && TerminalAbsorbed(old(clients), clients)
      ensures old(LedgerHolds()) ==> LedgerHolds()
      ensures clients == if ok && !signal.complete then old(clients)[tid := old(clients)[tid].(stored := Some(c'))]
                         else old(clients)
      ensures signal.complete || !faulty ==> ok
    {
      hide Ledger, ReadableServers, ReadableClients, Consistent, AtMostOneOwner, PendingOwned, ValidServer, Charge,
        Recharged, Matched, TerminalAbsorbed, ValidClient, SameSession, CopiedBudget, ValidServerSignal;
      ghost var sessions := clients;
      AbsorbedSelf(clients);
      if signal.complete {
        return true;
      }
      ReadAt(servers, sid);
      CopiedIsValid(c, a, a.tickets[k], signal);
      ExchangeStays(sessions, tid, c, c', metrics, finalizedConnections, delivered);
      CopyKeepsRecharged(servers, clients, sid, a, k, tid, c, signal, frames, issued);
      ok := TryWriteClient(tid, c');
    }

    /** A delivered completion ends the session; a delivered candidate is counted in it. */
    method CompleteOrCount(sid: SocketId, tid: SocketId, c: ClientAttachment, signal: ServerSignal)
      requires Core() && sid in servers && tid in clients && clients[tid].stored.Some?
      requires SameSession(clients[tid].stored.value, c.(framesForwarded := c.framesForwarded + 1))
      requires clients[tid].stored.value.summaryEmitted == c.summaryEmitted && c.stage == CandidateExchange
      requires Endable(c.(framesForwarded := c.framesForwarded + 1))
      requires !signal.complete ==>
                 clients[tid].stored == Some(c) && ValidClient(c.(framesForwarded := c.framesForwarded + 1))
      modifies this`servers, this`clients, this`pendingServerOutcomes, this`pendingClientOutcomes, this`metrics,
        this`finalizedConnections, this`inactiveControls, this`recoveryPersisted
      ensures Core() && clients.Keys == old(clients.Keys) && TerminalAbsorbed(old(clients), clients)
      ensures servers.Keys == old(servers.Keys)
      ensures old(LedgerHolds()) ==> LedgerHolds()
      ensures !faulty && !signal.complete ==>
                && servers == old(servers)
                && clients == old(clients)[tid := old(clients)[tid].(stored :=
                     Some(c.(framesForwarded := c.framesForwarded + 1)))]
      ensures !faulty && signal.complete ==>
                && OnlyMarked(old(servers), servers) && clients == old(clients)[tid := clients[tid]]
                && EndedAs(clients[tid].stored, c.(framesForwarded := c.framesForwarded + 1), Verdict(
                     c.terminalOutcome, old(pendingClientOutcomes), tid, Completed))
    {
      ghost var sessions := clients;
      var c' := c.(framesForwarded := c.framesForwarded + 1);
      hide Ledger, ReadableServers, ReadableClients, Consistent, AtMostOneOwner, PendingOwned, Settled, Shrunk,
        OnlyMarked, TerminalAbsorbed, ValidClient, Endable, KeepsMarker, SameSession;
      if signal.complete {
        MarkerKept(clients, tid, c');
        FailCurrent(tid, c', Completed);
        SettledAbsorbs(sessions, clients);
        return;
      }
      CountedFrameKeepsRoom(servers, clients, tid, c, c', frames, issued);
      ExchangeStays(sessions, tid, c, c', metrics, finalizedConnections, delivered);
      var counted := TryWriteClient(tid, c');
      if !counted {
        FailStoredControl(sid, InternalError);
        SettledAbsorbs(sessions, clients);
      }
    }

    /** The control's ticket is charged; copies the budget and sends. */
    method DeliverAnswer(
      sid: SocketId, a: ServerAttachment, k: nat, tid: SocketId, c: ClientAttachment, signal: ServerSignal)
      requires Core() && sid in servers && k < |a.tickets| && ValidServerSignal(signal)
      requires Charge(a.tickets[k], signal).Some? && Matched(c, a, a.tickets[k]) && Covers(a.tickets[k], frames)
      requires servers[sid].stored ==
               Some(Recharged(a, k, SpentIf(Charge(a.tickets[k], signal).value, signal.complete)))
      requires tid in clients && clients[tid].stored == Some(c) && Some(c.generation) == currentGeneration
      modifies this`servers, this`clients, this`pendingServerOutcomes, this`pendingClientOutcomes, this`metrics,
        this`finalizedConnections, this`inactiveControls, this`recoveryPersisted, this`frames
      ensures Core() && clients.Keys == old(clients.Keys) && TerminalAbsorbed(old(clients), clients)
      ensures servers.Keys == old(servers.Keys)
      ensures old(LedgerHolds()) ==> LedgerHolds()
      ensures frames == old(frames) ||
              OneFrame(old(frames), frames, if signal.complete then Completion else ServerCandidate, c.connectionId)
      ensures !faulty && !lossy ==> Relayed(old(frames), frames, c.connectionId, signal)
      ensures !faulty && !lossy && !signal.complete ==>
                && servers == old(servers)
                && clients == old(clients)[tid := old(clients)[tid].(stored :=
                     Some(CountedFrame(c, AfterFrame(a.tickets[k], signal))))]
      ensures !faulty && !lossy && signal.complete ==>
                && clients == old(clients)[tid := clients[tid]]
                && EndedAs(clients[tid].stored, CountedFrame(c, AfterFrame(a.tickets[k], signal)),
                           Verdict(c.terminalOutcome, old(pendingClientOutcomes), tid, Completed))
      ensures !faulty ==> OnlyMarked(old(servers), servers)
    {
      hide Core, Ledger, Settled, Charge, Recharged, Matched, TerminalAbsorbed, ValidClient, OneFrame, Covers,
        CopiedBudget, Endable, SameSession, ValidServerSignal, SpentIf;
      ghost var sessions := clients;
      var copied := WriteCopyOrFail(sid, a, k, tid, c, signal);
      ghost var copiedSessions := clients;
      if copied {
        SendAnswer(sid, a, k, tid, c, CopiedBudget(c, SpentIf(Charge(a.tickets[k], signal).value, signal.complete)),
            signal);
        AbsorbedTransitive(sessions, copiedSessions, clients);
      }
    }

    method WriteCopyOrFail(
      sid: SocketId, a: ServerAttachment, k: nat, tid: SocketId, c: ClientAttachment, signal: ServerSignal)
      returns (ok: bool)
      requires Core() && sid in servers && k < |a.tickets| && ValidServerSignal(signal)
      requires Charge(a.tickets[k], signal).Some? && Matched(c, a, a.tickets[k])
      requires servers[sid].stored ==
               Some(Recharged(a, k, SpentIf(Charge(a.tickets[k], signal).value, signal.complete)))
      requires tid in clients && clients[tid].stored == Some(c)
      modifies this`servers, this`clients, this`pendingServerOutcomes, this`pendingClientOutcomes, this`metrics,
        this`finalizedConnections, this`inactiveControls, this`recoveryPersisted
      ensures Core() && clients.Keys == old(clients.Keys) && TerminalAbsorbed(old(clients), clients)
      ensures servers.Keys == old(servers.Keys)
      ensures old(LedgerHolds()) ==> LedgerHolds()
      ensures ok ==>
                && servers == old(servers)
                && clients[tid].stored == Some(if signal.complete then c
                     else CopiedBudget(c, SpentIf(Charge(a.tickets[k], signal).value, signal.complete)))
      ensures !faulty ==> ok
      ensures ok ==> pendingClientOutcomes == old(pendingClientOutcomes)
      ensures ok ==>
                clients == if signal.complete then old(clients) else old(clients)[tid := old(clients)[tid].(stored :=
                  Some(CopiedBudget(c, SpentIf(Charge(a.tickets[k], signal).value, signal.complete))))]
    {
      hide Core, Ledger, Settled, Charge, Recharged, Matched, TerminalAbsorbed, ValidClient, CopiedBudget,
        ValidServerSignal, SpentIf, Shrunk;
      ghost var sessions := clients;
      ok := WriteCopy(sid, a, k, tid, c, CopiedBudget(c, SpentIf(Charge(a.tickets[k], signal).value,
          signal.complete)), signal);
      if !ok {
        FailStoredControl(sid, InternalError);
        SettledAbsorbs(sessions, clients);
      }
    }

    /** Hands the charged frame to the session and settles its own copy. */
    method SendAnswer(
      sid: SocketId, a: ServerAttachment, k: nat, tid: SocketId, c: ClientAttachment, c': ClientAttachment,
      signal: ServerSignal)
      requires Core() && sid in servers && k < |a.tickets| && ValidServerSignal(signal)
      requires Charge(a.tickets[k], signal).Some? && Matched(c, a, a.tickets[k]) && Covers(a.tickets[k], frames)
      requires servers[sid].stored ==
               Some(Recharged(a, k, SpentIf(Charge(a.tickets[k], signal).value, signal.complete)))
      requires tid in clients && Some(c.generation) == currentGeneration
      requires clients[tid].stored == Some(if signal.complete then c else c')
      requires c' == CopiedBudget(c, SpentIf(Charge(a.tickets[k], signal).value, signal.complete))
      modifies this`servers, this`clients, this`pendingServerOutcomes, this`pendingClientOutcomes, this`metrics,
        this`finalizedConnections, this`inactiveControls, this`recoveryPersisted, this`frames
      ensures Core() && clients.Keys == old(clients.Keys) && TerminalAbsorbed(old(clients), clients)
      ensures servers.Keys == old(servers.Keys)
      ensures old(LedgerHolds()) ==> LedgerHolds()
      ensures frames == old(frames) ||
              OneFrame(old(frames), frames, if signal.complete then Completion else ServerCandidate, c.connectionId)
      ensures !faulty && !lossy ==> Relayed(old(frames), frames, c.connectionId, signal)
      ensures !faulty && !lossy && !signal.complete ==>
                && servers == old(servers)
                && clients == old(clients)[tid := old(clients)[tid].(stored :=
                     Some(CountedFrame(c, AfterFrame(a.tickets[k], signal))))]
      ensures !faulty && !lossy && signal.complete ==>
                && clients == old(clients)[tid := clients[tid]]
                && EndedAs(clients[tid].stored, CountedFrame(c, AfterFrame(a.tickets[k], signal)),
                           Verdict(c.terminalOutcome, old(pendingClientOutcomes), tid, Completed))
      ensures !faulty ==> OnlyMarked(old(servers), servers)
    {
      ghost var sessions := clients;
      hide Core, Ledger, Settled, Charge, Recharged, Matched, TerminalAbsorbed, ValidClient, OneFrame, Covers,
        CopiedBudget, Endable, KeepsMarker, SameSession, OnlyMarked, ValidTicket, ValidServerSignal, Relayed, EndedAs,
        CountedFrame, AfterFrame;
      ShrunkSelf(servers);
      CopyMeans(c, a.tickets[k], signal);
      CopyEnds(c, a.tickets[k], signal);
      CopiedIsValid(c, a, a.tickets[k], signal);
      SameSessionAs(clients, tid, c, c');
      var sent := CallPlatform();
      if sent {
        RecordAnswer(sid, a, k, tid, c, signal);
        CompleteOrCount(sid, tid, c', signal);
      } else {
        MarkerKept(clients, tid, c');
        FailCurrent(tid, c', InternalError);
        SettledAbsorbs(sessions, clients);
      }
    }

    method RecordAnswer(
      sid: SocketId, a: ServerAttachment, k: nat, ghost tid: SocketId, c: ClientAttachment, signal: ServerSignal)
      requires Core() && sid in servers && k < |a.tickets| && ValidServerSignal(signal)
      requires Charge(a.tickets[k], signal).Some? && Matched(c, a, a.tickets[k]) && Covers(a.tickets[k], frames)
      requires servers[sid].stored ==
               Some(Recharged(a, k, SpentIf(Charge(a.tickets[k], signal).value, signal.complete)))
      requires Some(c.generation) == currentGeneration
      modifies this`frames
      ensures Core()
      ensures OneFrame(old(frames), frames, if signal.complete then Completion else ServerCandidate, c.connectionId)
      ensures Relayed(old(frames), frames, c.connectionId, signal)
    {
      hide ReadableServers, ReadableClients, Consistent, AtMostOneOwner, PendingOwned, Charge, Recharged, Matched,
        ValidServer, OneFrame, Covers, AnswerFrame, Relayed;
      ReadAt(servers, sid);
      AnswerKeepsRoom(servers, clients, sid, a, k, c, signal, currentGeneration, frames, issued);
      AnswerIsOne(c, a, a.tickets[k], signal, currentGeneration, frames);
      frames := frames + [AnswerFrame(c, a, a.tickets[k], signal, currentGeneration)];
    }

    /**
     Handles a candidate or completion from a control after its digest is known.
     A session admitted by a grant is rechecked first: it is then returned and
     ResumeServerFrame continues after that await.
     */
    method HandleServerFrame(sid: SocketId, snapshot: ServerAttachment, signal: ServerSignal, now: int)
      returns (recheck: Option<SocketId>)
      requires Core() && sid in servers && ValidServerSignal(signal)
      modifies this`servers, this`clients, this`pendingServerOutcomes, this`pendingClientOutcomes, this`metrics,
        this`finalizedConnections, this`inactiveControls, this`recoveryPersisted, this`frames
      ensures Core() && clients.Keys == old(clients.Keys) && TerminalAbsorbed(old(clients), clients)
      ensures servers.Keys == old(servers.Keys)
      ensures old(LedgerHolds()) ==> LedgerHolds()
      ensures recheck.Some? ==> recheck.value in clients && clients[recheck.value].stored.Some? &&
                                clients[recheck.value].stored.value.ticket == Some(signal.ticket) &&
                                servers == old(servers) && clients == old(clients)
      ensures frames == old(frames) ||
              exists id :: id in old(clients) && old(clients)[id].stored.Some? && old(clients)[id].open &&
                old(clients)[id].stored.value.ticket == Some(signal.ticket) &&
                now < old(clients)[id].stored.value.expiresAt &&
                OneFrame(old(frames), frames, if signal.complete then Completion else ServerCandidate,
                         old(clients)[id].stored.value.connectionId)
      ensures forall tid, j: nat :: old(Answerable(sid, snapshot, tid, j, signal, now)) ==>
                var c := old(clients)[tid].stored.value;
                if c.accessRedemption.Some? then recheck == Some(tid) && frames == old(frames)
                else FrameHandled(sid, tid, old(servers)[sid].stored.value.tickets[j], c, signal, old(servers), servers,
                                  old(clients), clients, old(frames), frames, old(pendingClientOutcomes), true, faulty,
                                  lossy)
    {
      hide Ledger, ReadableServers, ReadableClients, Consistent, AtMostOneOwner, PendingOwned, Settled, Shrunk,
        OnlyMarked, TerminalAbsorbed, SoleCandidate, OneFrame, CopyOf, Matched, ValidServer;
      ghost var before, sessions := servers, clients;
      recheck := None;
      ghost var hit := exists tid, j: nat :: Answerable(sid, snapshot, tid, j, signal, now);
      ghost var aim, slot: nat := sid, 0;
      if hit {
        aim, slot :| Answerable(sid, snapshot, aim, slot, signal, now);
        OnlyAnswerable(sid, snapshot, aim, slot, signal, now);
      }
      var current := servers[sid].stored;
      var ok, winner, attachment := ActiveControl();
      SettledAbsorbs(sessions, clients);
      if !ok {
        return;
      }
      if hit {
        CandidateWins(servers, winner, currentGeneration, sid);
      }
      if !servers[sid].open || current.None? || !current.value.current ||
         current.value.controlId != snapshot.controlId || current.value.generation != snapshot.generation ||
         winner != Some(sid) || attachment.value.controlId != current.value.controlId ||
         attachment.value.generation != current.value.generation {
        CloseControl(sid);
        return;
      }
      ReadAt(servers, sid);
      PrunedIsCopy(servers[sid], now);
      var a := Pruned(current.value, now);
      var k := TicketIndex(a.tickets, signal.digest, None);
      if hit {
        PrunedIndex(current.value, now, slot);
      }
      if k == |a.tickets| {
        CopyShrinks(servers[sid], a);
        CopyClaims(servers[sid], a);
        FailControl(sid, a, ProtocolError);
        SettledAbsorbs(sessions, clients);
        return;
      }
      var target := FindTicketClient(a, a.tickets[k], signal.ticket, now);
      if target.None? {
        ChargeUnclaimed(sid, a, k, signal);
        SettledAbsorbs(sessions, clients);
        return;
      }
      var c := clients[target.value].stored.value;
      assert hit ==> SameConnection(clients[target.value], clients[aim]) && target.value == aim;
      if c.accessRedemption.Some? {
        return target;
      }
      MatchedSession(servers, clients, frames, issued, sid, a, k, target.value);
      ForwardServerFrame(sid, a, k, target.value, c, signal);
    }

    /** The frame is for an open, live session of this control, which owns the room; the session's ticket is slot j. */
    ghost predicate Answerable(
      sid: SocketId, snapshot: ServerAttachment, tid: SocketId, j: nat, signal: ServerSignal, now: int)
      reads this`servers, this`clients, this`pendingServerOutcomes, this`currentGeneration
    {
      && pendingServerOutcomes == map[] && sid in servers && servers[sid].open && servers[sid].stored.Some?
      && var s := servers[sid].stored.value;
      && s.current && Some(s.generation) == currentGeneration
      && s.controlId == snapshot.controlId && s.generation == snapshot.generation && j < |s.tickets|
      && var t := s.tickets[j];
      && t.ticketDigest == signal.digest && t.stage == Active && now < t.expiresAt
      && tid in clients && clients[tid].open && clients[tid].stored.Some?
      && var c := clients[tid].stored.value;
      && c.controlId == s.controlId && c.generation == s.generation && c.connectionId == t.clientConnectionId
      && c.ticketDigest == Some(signal.digest) && c.ticket == Some(signal.ticket)
      && c.stage != Terminal && now < c.expiresAt
    }

    /** At most one session and slot can answer a frame. */
    lemma OnlyAnswerable(
      sid: SocketId, snapshot: ServerAttachment, tid: SocketId, j: nat, signal: ServerSignal, now: int)
      requires Core() && Answerable(sid, snapshot, tid, j, signal, now)
      ensures forall t, k: nat :: Answerable(sid, snapshot, t, k, signal, now) ==> t == tid && k == j
      ensures forall id :: id in clients && SameConnection(clients[id], clients[tid]) ==> id == tid
    {
      hide Consistent, ReadableClients, AtMostOneOwner, PendingOwned, ValidTicket;
      ReadAt(servers, sid);
      ConsistentIsDistinct(servers, clients, frames, issued);
    }

    /** Closes a control that lost the room, leaving its attachment to its own events. */
    method CloseControl(sid: SocketId)
      requires Core() && sid in servers
      modifies this`servers
      ensures Core() && servers.Keys == old(servers.Keys) && Shrunk(old(servers), servers)
      ensures forall other :: other in servers && other != sid ==> servers[other] == old(servers)[other]
    {
      ghost var before := servers;
      hide ReadableServers, ReadableClients, Consistent, AtMostOneOwner, PendingOwned, Shrunk, TicketsCarried,
        OnlyClosed;
      CloseOne(sid);
      SettledSelf(clients);
      OnlyClosedShrinks(before, servers);
      ClosedKeys(before, servers);
      ShrunkKeepsOwnership(before, servers);
      OnlyClosedKeepsPending(before, servers, pendingServerOutcomes);
      ShrunkCarries(before, servers);
      ConsistentAfterTeardown(before, servers, clients, clients, frames, issued);
    }

    /** The session and the control are still those of the frame, and slot j of the control is still its ticket. */
    ghost predicate Resumable(
      sid: SocketId, controlId: string, tid: SocketId, connectionId: string, j: nat, signal: ServerSignal, now: int)
      reads this`servers, this`clients, this`pendingServerOutcomes, this`currentGeneration
    {
      && pendingServerOutcomes == map[] && sid in servers && servers[sid].open && servers[sid].stored.Some?
      && var s := servers[sid].stored.value;
      && s.current && Some(s.generation) == currentGeneration && s.controlId == controlId && j < |s.tickets|
      && var t := s.tickets[j];
      && t.ticketDigest == signal.digest && t.clientConnectionId == connectionId && t.stage == Active
      && now < t.expiresAt
      && tid in clients && clients[tid].open && clients[tid].stored.Some?
      && var c := clients[tid].stored.value;
      && c.connectionId == connectionId && Some(c.generation) == currentGeneration
      && c.stage != Terminal && now < c.expiresAt
    }

    /**
     Continues a server frame after the grant recheck. The session is read before
     the control is reconciled; everything else is read again.
     */
    method ResumeServerFrame(
      sid: SocketId, controlId: string, tid: SocketId, connectionId: string, signal: ServerSignal, live: bool, now: int)
      requires Core() && sid in servers && tid in clients && ValidServerSignal(signal)
      modifies this`servers, this`clients, this`pendingServerOutcomes, this`pendingClientOutcomes, this`metrics,
        this`finalizedConnections, this`inactiveControls, this`recoveryPersisted, this`frames
      ensures Core() && clients.Keys == old(clients.Keys) && TerminalAbsorbed(old(clients), clients)
      ensures servers.Keys == old(servers.Keys)
      ensures old(LedgerHolds()) && old(pendingServerOutcomes) == map[] ==> LedgerHolds()
      ensures !faulty && old(LedgerHolds() && AllReadable(clients) && Unreported(tid)) ==>
                (LedgerHolds() <==> old(pendingServerOutcomes) == map[]) &&
                (old(pendingServerOutcomes) != map[] ==> RepeatsReport(clients, tid, metrics))
      ensures frames == old(frames) ||
              (live && old(clients)[tid].stored.Some? && now < old(clients)[tid].stored.value.expiresAt &&
               OneFrame(old(frames), frames, if signal.complete then Completion else ServerCandidate, connectionId))
      ensures forall j: nat :: live && old(Resumable(sid, controlId, tid, connectionId, j, signal, now)) ==>
                FrameHandled(sid, tid, old(servers)[sid].stored.value.tickets[j], old(clients)[tid].stored.value,
                             signal, old(servers), servers, old(clients), clients, old(frames), frames,
                             old(pendingClientOutcomes), true, faulty, lossy)
    {
      hide RepeatsReport, Reported, AllReported, AllReadable, FrameHandled, Resumable;
      hide Ledger, ReadableServers, ReadableClients, Consistent, AtMostOneOwner, PendingOwned, Settled, Shrunk,
        OnlyMarked, TerminalAbsorbed, SoleCandidate, OneFrame, ValidServer, ValidClient, Endable, KeepsMarker, OwnsRoom;
      ghost var sessions := clients;
      ReadClientAt(clients, tid);
      var latest := clients[tid].stored;
      ghost var hit := exists j: nat :: Resumable(sid, controlId, tid, connectionId, j, signal, now);
      if hit {
        ghost var slot: nat :| Resumable(sid, controlId, tid, connectionId, slot, signal, now);
        ResumableControl(sid, controlId, tid, connectionId, slot, signal, now);
      }
      var ok, winner, attachment := ActiveControl();
      if !faulty && old(pendingServerOutcomes) != map[] && old(Unreported(tid)) {
        OneOfAll(sessions, tid, old(finalizedConnections), metrics);
      }
      SettledAbsorbs(sessions, clients);
      SettledAt(sessions, clients, tid);
      if !ok || latest.None? {
        return;
      }
      if hit {
        CandidateWins(servers, winner, currentGeneration, sid);
      }
      StoredIsEndable(latest.value);
      ghost var reconciled := clients;
      if old(pendingServerOutcomes) == map[] {
        MarkerKept(clients, tid, latest.value);
      }
      AnswerOrEnd(sid, controlId, tid, latest.value, connectionId, signal, live, now,
                  if winner == Some(sid) then attachment else None);
      AbsorbedTransitive(sessions, reconciled, clients);
    }

    lemma ResumableControl(
      sid: SocketId, controlId: string, tid: SocketId, connectionId: string, j: nat, signal: ServerSignal, now: int)
      requires Resumable(sid, controlId, tid, connectionId, j, signal, now)
      ensures pendingServerOutcomes == map[] && sid in servers && servers[sid].open && servers[sid].stored.Some?
      ensures servers[sid].stored.value.current && Some(servers[sid].stored.value.generation) == currentGeneration
      ensures clients[tid].stored.Some?
    {
    }

    /** Once the control is known: the session is refused, or its frame is answered under the control's own copy. */
    method AnswerOrEnd(
      sid: SocketId, controlId: string, tid: SocketId, c: ClientAttachment, connectionId: string, signal: ServerSignal,
      live: bool, now: int, attachment: Option<ServerAttachment>)
      requires Core() && sid in servers && tid in clients && ValidServerSignal(signal)
      requires clients[tid].stored.Some? && SameSession(clients[tid].stored.value, c) && Endable(c)
      requires attachment.Some? ==> servers[sid].stored == attachment && clients[tid].stored == Some(c)
      modifies this`servers, this`clients, this`pendingServerOutcomes, this`pendingClientOutcomes, this`metrics,
        this`finalizedConnections, this`inactiveControls, this`recoveryPersisted, this`frames
      ensures Core() && clients.Keys == old(clients.Keys) && TerminalAbsorbed(old(clients), clients)
      ensures servers.Keys == old(servers.Keys)
      ensures old(LedgerHolds() && KeepsMarker(clients[tid], c)) ==> LedgerHolds()
      ensures attachment.None? && !faulty && c.stage != Terminal && !c.summaryEmitted ==>
                (old(Reported(metrics, c.connectionId)) ==> !LedgerHolds() && RepeatsReport(clients, tid, metrics))
      ensures frames == old(frames) ||
              (live && now < c.expiresAt &&
               OneFrame(old(frames), frames, if signal.complete then Completion else ServerCandidate, connectionId))
      ensures attachment.Some? ==>
                forall j: nat :: live && old(Resumable(sid, controlId, tid, connectionId, j, signal, now)) ==>
                  FrameHandled(sid, tid, attachment.value.tickets[j], c, signal, old(servers), servers, old(clients),
                               clients, old(frames), frames, old(pendingClientOutcomes),
                               sid !in old(pendingServerOutcomes), faulty, lossy)
    {
      hide RepeatsReport, Reported, FrameHandled;
      hide Ledger, ReadableServers, ReadableClients, Consistent, AtMostOneOwner, PendingOwned, Settled, Shrunk,
        OnlyMarked, TerminalAbsorbed, OneFrame, CopyOf, Matched, ValidServer, ValidClient, Endable, KeepsMarker,
        SameSession;
      ghost var sessions := clients;
      ghost var hit := attachment.Some? &&
        exists j: nat :: Resumable(sid, controlId, tid, connectionId, j, signal, now);
      if hit {
        ghost var slot: nat :| Resumable(sid, controlId, tid, connectionId, slot, signal, now);
        SlotIndex(servers, sid, slot, connectionId);
      }
      var k := if attachment.Some?
        then TicketIndex(attachment.value.tickets, signal.digest, Some(c.connectionId)) else 0;
      if !live || c.stage == Terminal || c.expiresAt <= now || c.connectionId != connectionId ||
         Some(c.generation) != currentGeneration || !clients[tid].open || attachment.None? ||
         attachment.value.controlId != controlId ||
         k == |attachment.value.tickets| || attachment.value.tickets[k].stage != Active ||
         attachment.value.tickets[k].expiresAt <= now {
        FailCurrent(tid, c, AuthorizationFailed);
        SettledAbsorbs(sessions, clients);
        return;
      }
      var a := attachment.value;
      ReadAt(servers, sid);
      PrunedIsCopy(servers[sid], now);
      MatchedSession(servers, clients, frames, issued, sid, a, k, tid);
      ForwardServerFrame(sid, a, k, tid, c, signal);
    }

    // ---- other frames from a client --------------------------------------------------------------------

    /**
     Resumes a grant confirmation after its liveness check. As with a candidate,
     the session is read before the control is reconciled.
     */
    method AcceptAccessInit(
      id: SocketId, snapshot: ClientAttachment, grant: string, clientNonce: string, live: bool, now: int,
      sessionMs: int)
      requires Core() && id in clients && 0 < sessionMs <= MAX_SESSION_MS
      requires clients[id].stored.Some? ==>
                 clients[id].stored.value.openedAt + MAX_SESSION_MS <= MAX_SAFE_INTEGER - RETRY_HORIZON_MS
      modifies this`servers, this`clients, this`pendingServerOutcomes, this`pendingClientOutcomes, this`metrics,
        this`finalizedConnections, this`inactiveControls, this`recoveryPersisted
      ensures Core() && clients.Keys == old(clients.Keys) && TerminalAbsorbed(old(clients), clients)
      ensures servers.Keys == old(servers.Keys)
      ensures old(LedgerHolds()) && old(pendingServerOutcomes) == map[] ==> LedgerHolds()
      ensures !faulty && old(LedgerHolds() && AllReadable(clients) && Unreported(id)) ==>
                (LedgerHolds() <==> old(pendingServerOutcomes) == map[]) &&
                (old(pendingServerOutcomes) != map[] ==> RepeatsReport(clients, id, metrics))
      ensures old(clients)[id].stored.Some? && clients[id].stored.Some? &&
              old(clients)[id].stored.value.authorization == AwaitingInit &&
              clients[id].stored.value.authorization == NotRequired ==>
                live && old(clients)[id].stored.value.accessGrant == Some(grant) &&
                old(clients)[id].stored.value.accessClientNonce == Some(clientNonce) &&
                clients[id].stored.value.expiresAt <= old(clients)[id].stored.value.accessExpiresAt.value
      ensures !faulty && !lossy && old(pendingServerOutcomes) == map[] && old(clients)[id].stored.Some?
              && old(clients)[id].stored.value.stage != Terminal ==>
                var c := old(clients)[id].stored.value;
                if live && Confirmable(c, snapshot, grant, clientNonce, now) && old(clients)[id].open
                   && exists sid :: old(OwnsRoom(sid)) && old(servers)[sid].stored.value.controlId == c.controlId
                        && currentGeneration == Some(c.generation)
                then
                  servers == old(servers) && OnlyConfirmed(old(clients), clients, id, c, sessionMs)
                else EndedAs(clients[id].stored, c,
                             Verdict(c.terminalOutcome, old(pendingClientOutcomes), id, AuthorizationFailed))
    {
      hide RepeatsReport, Reported, AllReported, AllReadable, EndedAs, Confirmable, Confirmed;
      hide Ledger, ReadableServers, ReadableClients, Consistent, AtMostOneOwner, PendingOwned, Settled, Shrunk,
        OnlyMarked, TerminalAbsorbed, SoleCandidate, ValidClient, Endable, KeepsMarker, OnlyConfirmed;
      ghost var sessions := clients;
      ReadClientAt(clients, id);
      var current := clients[id].stored;
      var ok, winner, attachment := ActiveControl();
      if !faulty && old(pendingServerOutcomes) != map[] && old(Unreported(id)) {
        OneOfAll(sessions, id, old(finalizedConnections), metrics);
      }
      SettledAbsorbs(sessions, clients);
      SettledAt(sessions, clients, id);
      TerminalIsEnded(sessions, clients, id);
      if !ok {
        return;
      }
      ghost var reconciled := clients;
      if current.None? {
        CloseUnreadableClient(id);
        SettledTransitive(sessions, reconciled, clients);
        SettledAbsorbs(sessions, clients);
        SettledAt(sessions, clients, id);
        return;
      }
      StoredIsEndable(current.value);
      if old(pendingServerOutcomes) == map[] {
        MarkerKept(clients, id, current.value);
        WinnerOwns(servers, winner, currentGeneration);
        assert winner.Some? ==> old(OwnsRoom(winner.value));
      }
      ConfirmOrRefuse(id, current.value, snapshot, grant, clientNonce, live, now, sessionMs, attachment);
      AbsorbedTransitive(sessions, reconciled, clients);
    }

    /** The session still waits for its confirmation, and the confirmation brings its own grant and nonce. */
    static predicate Confirmable(
      c: ClientAttachment, snapshot: ClientAttachment, grant: string, clientNonce: string, now: int)
    {
      && c.authorization == AwaitingInit && c.stage == AwaitingCandidate && snapshot.accessRedemption != None
      && c.accessGrant == Some(grant) && c.accessClientNonce == Some(clientNonce)
      && c.accessRedemption == snapshot.accessRedemption && now < c.expiresAt
      && c.connectionId == snapshot.connectionId
    }

    /** Only this session is written: it needs no confirmation any more, and ends no later than its grant or its cap. */
    static predicate OnlyConfirmed(
      before: Clients, after: Clients, id: SocketId, c: ClientAttachment, sessionMs: int)
    {
      && id in before && c.accessExpiresAt.Some?
      && after == before[id := before[id].(stored := Some(c.(authorization := NotRequired,
           expiresAt := if c.accessExpiresAt.value <= c.openedAt + sessionMs then c.accessExpiresAt.value
                        else c.openedAt + sessionMs)))]
    }

    /** The control is known or missing: the session is confirmed and told so, or refused. */
    method ConfirmOrRefuse(
      id: SocketId, c: ClientAttachment, snapshot: ClientAttachment, grant: string, clientNonce: string, live: bool,
      now: int, sessionMs: int, control: Option<ServerAttachment>)
      requires Core() && id in clients && 0 < sessionMs <= MAX_SESSION_MS
      requires c.openedAt + MAX_SESSION_MS <= MAX_SAFE_INTEGER - RETRY_HORIZON_MS
      requires clients[id].stored.Some? && SameSession(clients[id].stored.value, c) && Endable(c)
      requires control.Some? ==> clients[id].stored == Some(c)
      modifies this`servers, this`clients, this`pendingServerOutcomes, this`pendingClientOutcomes, this`metrics,
        this`finalizedConnections, this`inactiveControls, this`recoveryPersisted
      ensures Core() && clients.Keys == old(clients.Keys) && TerminalAbsorbed(old(clients), clients)
      ensures servers.Keys == old(servers.Keys)
      ensures old(LedgerHolds() && KeepsMarker(clients[id], c)) ==> LedgerHolds()
      ensures control.None? && !faulty && c.stage != Terminal && !c.summaryEmitted ==>
                (old(Reported(metrics, c.connectionId)) ==> !LedgerHolds() && RepeatsReport(clients, id, metrics))
      ensures clients[id].stored.Some? ==>
                || clients[id].stored == old(clients)[id].stored || clients[id].stored.value.authorization == Ended
                || (live && c.accessGrant == Some(grant) && c.accessClientNonce == Some(clientNonce) &&
                    c.accessExpiresAt.Some? && clients[id].stored.value.expiresAt <= c.accessExpiresAt.value)
      ensures !faulty && !lossy && c.stage != Terminal ==>
                if live && Confirmable(c, snapshot, grant, clientNonce, now) && old(clients)[id].open
                   && Serves(control, c, currentGeneration)
                then
                  servers == old(servers) && OnlyConfirmed(old(clients), clients, id, c, sessionMs)
                else EndedAs(clients[id].stored, c,
                             Verdict(c.terminalOutcome, old(pendingClientOutcomes), id, AuthorizationFailed))
    {
      hide RepeatsReport, Reported, EndedAs;
      hide Ledger, ReadableServers, ReadableClients, Consistent, AtMostOneOwner, PendingOwned, Settled, Shrunk,
        OnlyMarked, TerminalAbsorbed, ValidClient, Endable, SameSession, KeepsMarker;
      ghost var sessions := clients;
      if !live || c.authorization != AwaitingInit || c.stage != AwaitingCandidate || snapshot.accessRedemption.None? ||
         c.accessGrant != Some(grant) || c.accessClientNonce != Some(clientNonce) ||
         c.accessRedemption != snapshot.accessRedemption || c.expiresAt <= now ||
         c.connectionId != snapshot.connectionId || !clients[id].open || control.None? ||
         control.value.controlId != c.controlId || control.value.generation != c.generation ||
         currentGeneration != Some(c.generation) {
        FailCurrent(id, c, AuthorizationFailed);
        SettledAbsorbs(sessions, clients);
        SettledAt(sessions, clients, id);
        ReadClientAt(clients, id);
        if clients[id].stored.Some? {
          EndedAuthorization(clients[id].stored.value);
        }
      } else {
        MarkerKept(clients, id, c);
        ConfirmGrant(id, c, sessionMs);
      }
    }

    method ConfirmGrant(id: SocketId, c: ClientAttachment, sessionMs: int)
      requires Core() && id in clients && clients[id].stored == Some(c) && c.stage == AwaitingCandidate
      requires c.accessRedemption.Some? && 0 < sessionMs <= MAX_SESSION_MS
      requires c.openedAt + MAX_SESSION_MS <= MAX_SAFE_INTEGER - RETRY_HORIZON_MS
      modifies this`servers, this`clients, this`pendingClientOutcomes, this`metrics, this`finalizedConnections,
        this`recoveryPersisted
      ensures Core() && clients.Keys == old(clients.Keys) && TerminalAbsorbed(old(clients), clients)
      ensures servers.Keys == old(servers.Keys)
      ensures old(LedgerHolds()) ==> LedgerHolds()
      ensures c.accessExpiresAt.Some? && clients[id].stored.Some? &&
              (clients[id].stored.value == c || clients[id].stored.value == Confirmed(c, sessionMs) ||
               clients[id].stored.value.authorization == Ended)
      ensures !faulty && !lossy ==>
                && c.accessExpiresAt.Some? && servers == old(servers)
                && clients == old(clients)[id := old(clients)[id].(stored := Some(Confirmed(c, sessionMs)))]
    {
      hide Ledger, ReadableServers, ReadableClients, Consistent, AtMostOneOwner, PendingOwned, Settled, Shrunk,
        OnlyMarked, TerminalAbsorbed, ValidClient;
      ghost var sessions := clients;
      ReadClientAt(clients, id);
      AbsorbedSelf(clients);
      ConfirmedIsValid(c, sessionMs);
      ExchangeStays(clients, id, c, Confirmed(c, sessionMs), metrics, finalizedConnections, delivered);
      WaitingKeepsRoom(servers, clients, id, c, Confirmed(c, sessionMs), frames, issued);
      var wrote := TryWriteClient(id, Confirmed(c, sessionMs));
      ghost var confirmed := clients;
      var sent := CallPlatform();
      if !wrote || !sent {
        FailStored(id, InternalError);
        SettledAt(confirmed, clients, id);
        ReadClientAt(clients, id);
        EndedAuthorization(clients[id].stored.value);
        SettledAbsorbs(confirmed, clients);
        AbsorbedTransitive(sessions, confirmed, clients);
      }
    }

    /** The synchronous half of a client's candidate: whether it may go on to be hashed. */
    method HandleClientMessage(id: SocketId, candidate: bool, ticket: string, now: int) returns (proceeds: bool)
      requires Core() && id in clients && clients[id].stored.Some?
      modifies this`servers, this`clients, this`pendingClientOutcomes, this`metrics, this`finalizedConnections,
        this`recoveryPersisted
      ensures Core() && clients.Keys == old(clients.Keys) && Settled(old(clients), clients)
      ensures servers.Keys == old(servers.Keys)
      ensures old(LedgerHolds()) ==> LedgerHolds()
      ensures proceeds ==> clients == old(clients) && candidate && clients[id].stored.value.expiresAt > now &&
                           clients[id].stored.value.stage == AwaitingCandidate &&
                           clients[id].stored.value.authorization == NotRequired &&
                           clients[id].stored.value.accessGrant in {None, Some(ticket)}
      ensures !proceeds && !faulty ==> DurablyTerminal(clients[id])
      ensures var c := old(clients)[id].stored.value;
              var waiting := candidate && c.stage == AwaitingCandidate && c.authorization == NotRequired;
              var granted := c.accessGrant == None || c.accessGrant == Some(ticket);
              && (proceeds <==> now < c.expiresAt && waiting && granted)
              && (!proceeds && !faulty && c.stage != Terminal ==>
                   EndedAs(clients[id].stored, c, Verdict(c.terminalOutcome, old(pendingClientOutcomes), id,
                     if now >= c.expiresAt then SessionExpired
                     else if !waiting then ProtocolError else AuthorizationFailed)))
    {
      hide Ledger, Settled, OnlyMarked, KeepsMarker, ValidClient, Endable, Consistent, AtMostOneOwner, PendingOwned,
        ReadableServers, EndedAs;
      SettledSelf(clients);
      var c := clients[id].stored.value;
      StoredAtIsEndable(clients, id, c);
      var refusal :=
        if c.expiresAt <= now then Some(SessionExpired)
        else if !candidate || c.stage != AwaitingCandidate || c.authorization != NotRequired then Some(ProtocolError)
        else if c.accessGrant.Some? && c.accessGrant != Some(ticket) then Some(AuthorizationFailed)
        else None;
      proceeds := refusal.None?;
      if refusal.Some? {
        ghost var sessions := clients;
        MarkerKept(clients, id, c);
        FailCurrent(id, c, refusal.value);
        StaysTerminal(sessions, clients, id);
      }
    }

    // ---- admitting a client --------------------------------------------------------------------------

    /** The control selected earlier still owns the room, the grant still runs, and both client limits have room. */
    ghost predicate Admissible(m: Admission, server: SocketId, now: int, activeLimit: nat)
      reads this`servers, this`clients, this`currentGeneration
    {
      && (m.redemption.Some? ==> now < m.redemption.value.expiresAt)
      && OwnsRoom(server) && servers[server].stored.value.controlId == m.controlId
      && currentGeneration == Some(m.generation) && |clients| < 64
      && |InSession(clients, m.controlId, m.generation, now)| < activeLimit
    }

    /**
     The claim and allocation of an admission, after every await before it: the
     control must still be the one selected earlier and both room limits free.
     The new session is stored with its summary suppressed.
     */
    method AdmitClient(
      id: SocketId, m: Admission, server: SocketId, now: int, sessionMs: int, activeLimit: nat, claimed: bool)
      returns (reserved: bool)
      requires Core() && id !in clients && ValidAdmission(m) && m.connectionId !in issued
      requires 0 < sessionMs <= MAX_SESSION_MS && 0 <= now <= MAX_SAFE_INTEGER - RETRY_HORIZON_MS - MAX_SESSION_MS
      modifies this`servers, this`clients, this`pendingServerOutcomes, this`pendingClientOutcomes, this`metrics,
        this`finalizedConnections, this`inactiveControls, this`recoveryPersisted, this`issued
      ensures Core() && servers.Keys == old(servers.Keys) && TerminalAbsorbed(old(clients), clients)
      ensures clients.Keys == old(clients.Keys) || (clients.Keys == old(clients.Keys) + {id} &&
          |old(clients)| < MAX_CLIENT_SOCKETS)
      ensures old(LedgerHolds()) ==> LedgerHolds()
      ensures reserved ==>
                && claimed && id in clients && clients[id].open && currentGeneration == Some(m.generation)
                && clients[id].stored == (if GrantWindow(m, now) then Some(Admitted(m, now, sessionMs)) else None)
                && |ActiveClients(old(clients), m.controlId, m.generation, now)| < activeLimit
                && SoleCandidate(servers, Some(server), currentGeneration, None)
                && server in servers && servers[server].stored.Some?
                && servers[server].stored.value.controlId == m.controlId
      ensures old(pendingServerOutcomes) == map[] && !faulty && !lossy ==>
                (reserved <==> claimed && old(Admissible(m, server, now, activeLimit)))
      ensures old(pendingServerOutcomes) == map[] && !reserved && !claimed ==> clients == old(clients)
      ensures reserved && clients[id].stored.Some? ==>
                var c := clients[id].stored.value;
                && c.stage == AwaitingCandidate && c.openedAt == now && c.summaryEmitted
                && (m.redemption.None? ==> c.authorization == NotRequired && c.expiresAt == now + sessionMs)
                && (m.redemption.Some? ==>
                     && c.authorization == AwaitingInit && c.accessGrant == Some(m.ticket)
                     && c.expiresAt == if m.redemption.value.expiresAt < now + 2000 then m.redemption.value.expiresAt
                                       else now + 2000)
    {
      hide Ledger, ReadableServers, ReadableClients, Consistent, AtMostOneOwner, PendingOwned, Settled, Shrunk,
        TerminalAbsorbed, SoleCandidate, ValidClient, Admitted, GrantWindow, ActiveClients;
      ghost var sessions := clients;
      reserved := false;
      var ok, winner, attachment := ActiveControl();
      SettledAbsorbs(sessions, clients);
      if old(pendingServerOutcomes) == map[] {
        WinnerOwns(servers, winner, currentGeneration);
        ActiveMeans(clients, m.controlId, m.generation, now);
      }
      if !ok || (m.redemption.Some? && m.redemption.value.expiresAt <= now) ||
         currentGeneration != Some(m.generation) || winner != Some(server) ||
         attachment.value.controlId != m.controlId || attachment.value.generation != m.generation ||
         |clients| >= MAX_CLIENT_SOCKETS ||
         |ActiveClients(clients, m.controlId, m.generation, now)| >= activeLimit || !claimed {
        return;
      }
      var upgraded := CallPlatform();
      if upgraded {
        AdmittedMeans(m, now, sessionMs);
        reserved := StoreAdmission(id, m, now, sessionMs);
      }
    }

    /** Accepts the socket and writes its first attachment. */
    method StoreAdmission(id: SocketId, m: Admission, now: int, sessionMs: int) returns (reserved: bool)
      requires Core() && id !in clients && ValidAdmission(m) && m.connectionId !in issued
      requires 0 < sessionMs <= MAX_SESSION_MS && 0 <= now <= MAX_SAFE_INTEGER - RETRY_HORIZON_MS - MAX_SESSION_MS
      requires m.redemption.Some? ==> m.redemption.value.expiresAt > now
      modifies this`servers, this`clients, this`pendingClientOutcomes, this`metrics, this`finalizedConnections,
        this`recoveryPersisted, this`issued
      ensures Core() && servers.Keys == old(servers.Keys) && TerminalAbsorbed(old(clients), clients)
      ensures clients.Keys == old(clients.Keys) + {id}
      ensures old(LedgerHolds()) ==> LedgerHolds()
      ensures reserved ==>
                && clients[id] == ClientSocket(true, if GrantWindow(m, now) then Some(Admitted(m, now,
                    sessionMs)) else None)
                && servers == old(servers)
      ensures !faulty && !lossy ==> reserved
    {
      hide Ledger, ReadableServers, ReadableClients, AtMostOneOwner, PendingOwned, Settled, Shrunk, Consistent,
        TerminalAbsorbed, ValidClient, GrantWindow, OnlyMarked, Admitted;
      ghost var sessions := clients;
      var wrote := AcceptClient(id, m, now, sessionMs);
      ghost var added := clients;
      var scheduled := CallPlatform();
      reserved := wrote && scheduled;
      if !reserved {
        FailStored(id, ServerUnavailable);
        SettledAbsorbs(added, clients);
        AbsorbedTransitive(sessions, added, clients);
      }
    }

    /** The accepted socket with its first attachment, if that could be written and can be read back. */
    method AcceptClient(id: SocketId, m: Admission, now: int, sessionMs: int) returns (wrote: bool)
      requires Core() && id !in clients && ValidAdmission(m) && m.connectionId !in issued
      requires 0 < sessionMs <= MAX_SESSION_MS && 0 <= now <= MAX_SAFE_INTEGER - RETRY_HORIZON_MS - MAX_SESSION_MS
      requires m.redemption.Some? ==> m.redemption.value.expiresAt > now
      modifies this`clients, this`issued
      ensures Core() && TerminalAbsorbed(old(clients), clients) && clients.Keys == old(clients.Keys) + {id}
      ensures old(LedgerHolds()) ==> LedgerHolds()
      ensures clients[id].stored ==
              if wrote && GrantWindow(m, now) then Some(Admitted(m, now, sessionMs)) else None
      ensures clients == old(clients)[id := ClientSocket(true, clients[id].stored)]
      ensures !faulty ==> wrote
    {
      hide Ledger, ReadableServers, ReadableClients, AtMostOneOwner, PendingOwned, Accounted,
        WithinSessionLimits, DistinctConnections, TerminalAbsorbed, ValidClient, GrantWindow;
      AdmittedReadable(m, now, sessionMs);
      ReloadKeepsValid(Client(Admitted(m, now, sessionMs)));
      wrote := *;
      wrote := wrote || !faulty;
      var stored := if wrote then ReloadClient(Admitted(m, now, sessionMs)) else None;
      AdmittedKeepsRoom(servers, clients, id, ClientSocket(true, stored), frames, issued, m.connectionId);
      AdmittedKeepsLedger(clients, id, ClientSocket(true, stored), metrics, finalizedConnections, delivered, issued,
                          m.connectionId);
      ReadableAfterWrite(clients, id, ClientSocket(true, stored));
      AbsorbedAfterAdding(clients, id, ClientSocket(true, stored));
      clients := clients[id := ClientSocket(true, stored)];
      issued := issued + {m.connectionId};
    }

    /**
     Delivers an admission after its last awaits, or ends it. Until now the client
     end was with nobody, so the stored session is the one allocated or terminal;
     only a delivered session can ever report a metric.
     */
    method FinishAdmission(id: SocketId, a: ClientAttachment, server: SocketId, live: bool, now: int)
      returns (accepted: bool)
      requires Core() && id in clients && a.connectionId !in delivered && ValidClient(a)
      requires clients[id].stored.Some? && clients[id].stored.value.stage != Terminal ==> clients[id].stored == Some(a)
      modifies this`servers, this`clients, this`pendingServerOutcomes, this`pendingClientOutcomes, this`metrics,
        this`finalizedConnections, this`inactiveControls, this`recoveryPersisted, this`delivered
      ensures Core() && clients.Keys == old(clients.Keys) && TerminalAbsorbed(old(clients), clients)
      ensures old(LedgerHolds()) ==> LedgerHolds()
      ensures servers.Keys == old(servers.Keys)
      ensures accepted ==>
                && live && now < a.expiresAt && clients[id].open && currentGeneration == Some(a.generation)
                && clients[id].stored == Some(a.(summaryEmitted := false))
                && SoleCandidate(servers, Some(server), currentGeneration, None)
                && server in servers && servers[server].stored.Some?
                && servers[server].stored.value.controlId == a.controlId
      ensures delivered == old(delivered) + if accepted then {a.connectionId} else {}
      ensures !accepted && !faulty && clients[id].stored.Some? ==> DurablyTerminal(clients[id])
      ensures old(pendingServerOutcomes) == map[] && !faulty ==>
                (accepted <==>
                  && live && now < a.expiresAt && old(clients)[id].open && old(clients)[id].stored.Some?
                  && old(clients)[id].stored.value.stage != Terminal
                  && old(OwnsRoom(server)) && old(servers)[server].stored.value.controlId == a.controlId
                  && currentGeneration == Some(a.generation))
    {
      hide Ledger, ReadableServers, ReadableClients, Consistent, AtMostOneOwner, PendingOwned, Settled, Shrunk,
        TerminalAbsorbed, SoleCandidate, ValidClient;
      ghost var sessions := clients;
      var ok, winner, attachment := ActiveControl();
      SettledAbsorbs(sessions, clients);
      SettledAt(sessions, clients, id);
      if old(pendingServerOutcomes) == map[] {
        WinnerOwns(servers, winner, currentGeneration);
      }
      accepted := false;
      var current := clients[id].stored;
      if ok && live && a.expiresAt > now && current.Some? && current.value.stage != Terminal &&
         current.value.connectionId == a.connectionId && winner == Some(server) &&
         attachment.value.controlId == a.controlId && attachment.value.generation == a.generation &&
         currentGeneration == Some(a.generation) && clients[id].open {
        accepted := DeliverAdmission(id, a);
      }
      if !accepted {
        ghost var reconciled := clients;
        FailStored(id, ServerUnavailable);
        SettledTransitive(sessions, reconciled, clients);
        SettledAbsorbs(sessions, clients);
      } else {
        AbsorbedAfterWrite(sessions, id, clients[id]);
      }
    }

    method DeliverAdmission(id: SocketId, a: ClientAttachment) returns (wrote: bool)
      requires Core() && id in clients && clients[id].stored == Some(a)
      requires a.connectionId !in delivered
      modifies this`clients, this`delivered
      ensures Core()
      ensures old(LedgerHolds()) ==> LedgerHolds()
      ensures clients ==
          if wrote then old(clients)[id := old(clients)[id].(stored := Some(a.(summaryEmitted := false)))]
                         else old(clients)
      ensures delivered == old(delivered) + if wrote then {a.connectionId} else {}
      ensures !faulty ==> wrote
    {
      hide Ledger, ReadableServers, ReadableClients, Consistent, AtMostOneOwner, PendingOwned;
      ReadClientAt(clients, id);
      DeliveryKeepsLedger(clients, id, a, metrics, finalizedConnections, delivered);
      DeliveryKeepsRoom(servers, clients, id, a, frames, issued);
      ReadableAfterWrite(clients, id, clients[id].(stored := Some(a.(summaryEmitted := false))));
      wrote := TryWriteClient(id, a.(summaryEmitted := false));
      if wrote {
        delivered := delivered + {a.connectionId};
      }
    }

    // ---- time ---------------------------------------------------------------------------------------------

    /** Ends one session at its deadline, or closes an ended one again within its attempts. */
    method ExpireClient(id: SocketId, now: int) returns (ok: bool)
      requires Core() && id in clients
      modifies this`servers, this`clients, this`pendingClientOutcomes, this`metrics, this`finalizedConnections
      ensures Core() && servers.Keys == old(servers.Keys) && OnlyMarked(old(servers), servers)
      ensures clients.Keys == old(clients.Keys) && Settled(old(clients), clients)
      ensures forall other :: other in clients && other != id ==> clients[other] == old(clients)[other]
      ensures !faulty ==> pendingClientOutcomes.Keys <= old(pendingClientOutcomes.Keys)
      ensures old(LedgerHolds()) ==> LedgerHolds()
      ensures !faulty && old(clients)[id].stored.Some? ==> ok && id !in pendingClientOutcomes
      ensures !faulty && old(clients)[id].stored.Some? && id !in old(pendingClientOutcomes) ==>
                ok && Expired(old(clients)[id], clients[id], now)
      ensures !faulty && old(clients)[id].stored.Some? && id !in old(pendingClientOutcomes) &&
              old(clients)[id].stored.value.expiresAt <= now ==>
                EndedFor(old(clients)[id], clients[id],
                         HowEnded(old(clients)[id], old(pendingClientOutcomes), id, SessionExpired))
    {
      hide Ledger, ReadableServers, ReadableClients, Consistent, AtMostOneOwner, PendingOwned, Settled, ValidClient,
        OnlyMarked, Shrunk, TicketsCarried;
      ghost var before, sessions := servers, clients;
      ReadClientAt(clients, id);
      SettledSelf(clients);
      ShrunkSelf(servers);
      ok := true;
      var stored := clients[id].stored;
      if stored.None? || id in pendingClientOutcomes {
        ok := EndOwedClient(id);
      } else if stored.value.expiresAt <= now {
        if stored.value.stage != Terminal {
          ok := EndOneClient(id, SessionExpired);
        } else {
          var attemptAt := TerminalCloseAttemptAt(stored.value);
          if attemptAt.Some? && attemptAt.value <= now {
            ok := RetryClose(id, stored.value);
          }
        }
      }
      SettledAt(sessions, clients, id);
      if stored.Some? {
        AttemptsFollowDeadline(stored.value, now);
      }
    }

    /** One more close of an ended session, counted durably before it is tried. */
    method RetryClose(id: SocketId, a: ClientAttachment) returns (ok: bool)
      requires Core() && id in clients && clients[id].stored == Some(a) && a.stage == Terminal
      requires a.terminalCloseAttempts < MAX_CLOSE_ATTEMPTS
      modifies this`clients
      ensures Core() && clients.Keys == old(clients.Keys) && Settled(old(clients), clients)
      ensures forall other :: other in clients && other != id ==> clients[other] == old(clients)[other]
      ensures old(LedgerHolds()) ==> LedgerHolds()
      ensures !faulty ==> ok && clients[id].stored == Some(a.(terminalCloseAttempts := a.terminalCloseAttempts + 1))
      ensures !ok ==> clients[id] == old(clients)[id] && clients[id].open
    {
      hide Ledger, ReadableServers, ReadableClients, Consistent, AtMostOneOwner, PendingOwned, ValidClient;
      ghost var sessions := clients;
      ReadClientAt(clients, id);
      var a' := a.(terminalCloseAttempts := a.terminalCloseAttempts + 1);
      AttemptIsValid(a);
      var persisted := TryWriteClient(id, a');
      var closed := CloseClient(id);
      ok := persisted || closed;
      assert clients == sessions[id := clients[id]];
      EndedStays(servers, sessions, id, clients[id], a, frames, issued, metrics, finalizedConnections, delivered);
      ReadableAfterWrite(sessions, id, clients[id]);
    }

    /** Ends a session whose outcome is still owed, or closes one that cannot be read. */
    method EndOwedClient(id: SocketId) returns (ok: bool)
      requires Core() && id in clients
      modifies this`servers, this`clients, this`pendingClientOutcomes, this`metrics, this`finalizedConnections
      ensures Core() && servers.Keys == old(servers.Keys) && OnlyMarked(old(servers), servers)
      ensures clients.Keys == old(clients.Keys) && Settled(old(clients), clients)
      ensures forall other :: other in clients && other != id ==> clients[other] == old(clients)[other]
      ensures !faulty ==> pendingClientOutcomes.Keys <= old(pendingClientOutcomes.Keys)
      ensures old(LedgerHolds()) ==> LedgerHolds()
      ensures !faulty && old(clients)[id].stored.Some? ==> ok && id !in pendingClientOutcomes
    {
      ok := EndOneClient(id, if id in pendingClientOutcomes then pendingClientOutcomes[id] else InternalError);
    }

    method EndOneClient(id: SocketId, outcome: Outcome) returns (ok: bool)
      requires Core() && id in clients
      modifies this`servers, this`clients, this`pendingClientOutcomes, this`metrics, this`finalizedConnections
      ensures Core() && servers.Keys == old(servers.Keys) && OnlyMarked(old(servers), servers)
      ensures clients.Keys == old(clients.Keys) && Settled(old(clients), clients)
      ensures forall other :: other in clients && other != id ==> clients[other] == old(clients)[other]
      ensures !faulty ==> pendingClientOutcomes.Keys <= old(pendingClientOutcomes.Keys)
      ensures old(LedgerHolds()) ==> LedgerHolds()
      ensures !faulty && old(clients)[id].stored.Some? ==> ok && id !in pendingClientOutcomes
      ensures !faulty && clients[id].stored.Some? ==> ok && DurablyTerminal(clients[id])
      ensures !faulty && old(clients)[id].stored.Some? && !DurablyTerminal(old(clients)[id]) ==>
                clients[id].stored.Some? && clients[id].stored.value.terminalCloseAttempts == 0 &&
                clients[id].stored.value.expiresAt == old(clients)[id].stored.value.expiresAt
      ensures !faulty ==>
                EndedFor(old(clients)[id], clients[id],
                         HowEnded(old(clients)[id], old(pendingClientOutcomes), id, outcome))
    {
      hide EndedFor, HowEnded, Ledger, ReadableServers, ReadableClients, OnlyMarked, Consistent, AtMostOneOwner,
           PendingOwned, Settled, Shrunk, TicketsCarried;
      ghost var before, sessions := servers, clients;
      ok := EndStoredClient(id, outcome);
      MarkedShrinks(before, servers);
      ShrunkCarries(before, servers);
      MarkedKeepsOwned(before, servers, pendingServerOutcomes);
      ConsistentAfterTeardown(before, servers, sessions, clients, frames, issued);
    }

    /** No listed session's outcome is still owed. */
    ghost predicate NoneOwed()
      reads this`clients, this`pendingClientOutcomes
    {
      forall id :: id in clients ==> id !in pendingClientOutcomes
    }

    /** Applies every session's deadline, and settles what is still owed. */
    method ExpireClients(now: int) returns (ok: bool)
      requires Core()
      modifies this`servers, this`clients, this`pendingClientOutcomes, this`metrics, this`finalizedConnections
      ensures Core() && servers.Keys == old(servers.Keys) && OnlyMarked(old(servers), servers)
      ensures clients.Keys == old(clients.Keys) && Settled(old(clients), clients)
      ensures old(LedgerHolds()) ==> LedgerHolds()
      ensures !faulty ==> pendingClientOutcomes.Keys <= old(pendingClientOutcomes.Keys)
      ensures !faulty && old(NoneOwed()) ==>
                NoneOwed() &&
                forall id :: id in clients && old(clients)[id].stored.Some? ==>
                    Expired(old(clients)[id], clients[id], now)
      ensures !faulty && old(AllReadable(clients)) ==> ok && NoneOwed()
    {
      hide Core, Ledger, Settled, Expired, OnlyMarked;
      ghost var controls, before := servers, clients;
      ShrunkSelf(servers);
      SettledSelf(clients);
      ok := true;
      var todo := clients.Keys;
      while todo != {}
        invariant Core() && servers.Keys == old(servers.Keys) && clients.Keys == before.Keys && todo <= clients.Keys
        invariant Settled(before, clients) && OnlyMarked(controls, servers)
        invariant old(LedgerHolds()) ==> LedgerHolds()
        invariant forall id :: id in todo ==> clients[id] == before[id]
        invariant !faulty ==> pendingClientOutcomes.Keys <= old(pendingClientOutcomes.Keys)
        invariant !faulty && old(NoneOwed()) ==>
                    forall id :: id in clients && id !in todo && before[id].stored.Some? ==>
                      Expired(before[id], clients[id], now)
        invariant !faulty && AllReadable(before) ==>
                    ok && forall id :: id in clients && id !in todo ==> id !in pendingClientOutcomes
        decreases |todo|
      {
        var id: SocketId :| id in todo;
        todo := todo - {id};
        ghost var marked, earlier := servers, clients;
        var done := ExpireClient(id, now);
        ok := ok && done;
        MarkedTransitive(controls, marked, servers);
        SettledTransitive(before, earlier, clients);
      }
    }

    /** Drops the expired tickets of one readable control; a refused write aborts the pass. */
    method PruneControl(id: SocketId, now: int) returns (ok: bool)
      requires Core() && id in servers && servers[id].stored.Some?
      modifies this`servers
      ensures Core() && servers.Keys == old(servers.Keys) && Shrunk(old(servers), servers)
      ensures forall other :: other in servers && other != id ==> servers[other] == old(servers)[other]
      ensures !faulty ==> ok && PrunedAt(old(servers)[id], servers[id], now)
    {
      hide ReadableServers, ReadableClients, Consistent, AtMostOneOwner, PendingOwned, Shrunk, ValidServer;
      ShrunkSelf(servers);
      var a := servers[id].stored.value;
      PrunedCount(a.tickets, now);
      PruningKeepsRoom(servers, clients, id, now, frames, issued, pendingServerOutcomes);
      ok := true;
      if |PrunedTickets(a.tickets, now)| != |a.tickets| {
        ok := TryWriteServer(id, Pruned(a, now));
      }
    }

    /** Drops expired tickets everywhere; controls that cannot be read are closed. */
    method PruneServerTickets(now: int) returns (ok: bool)
      requires Core()
      modifies this`servers, this`clients, this`pendingServerOutcomes, this`pendingClientOutcomes, this`metrics,
        this`finalizedConnections, this`inactiveControls, this`recoveryPersisted
      ensures Core() && servers.Keys == old(servers.Keys)
      ensures clients.Keys == old(clients.Keys) && Settled(old(clients), clients)
      ensures old(LedgerHolds()) ==> LedgerHolds()
      ensures !faulty && old(pendingServerOutcomes) == map[] &&
              old(EveryControlReadable(servers)) ==>
                && clients == old(clients) && ok
                && pendingServerOutcomes == map[] && pendingClientOutcomes == old(pendingClientOutcomes)
                && forall id :: id in servers ==> PrunedAt(old(servers)[id], servers[id], now)
    {
      hide Core, Ledger, Settled, Shrunk, PrunedAt, SoleCandidate;
      ghost var sessions := clients;
      var active, winner, _ := ActiveControl();
      ok := active;
      if active {
        ghost var live := clients;
        ok := PruneControls(now, winner.Some?);
        SettledTransitive(sessions, live, clients);
      }
    }

    method PruneControls(now: int, owned: bool) returns (ok: bool)
      requires Core()
      modifies this`servers, this`clients, this`pendingClientOutcomes, this`metrics, this`finalizedConnections
      ensures Core() && servers.Keys == old(servers.Keys)
      ensures clients.Keys == old(clients.Keys) && Settled(old(clients), clients)
      ensures old(LedgerHolds()) ==> LedgerHolds()
      ensures !faulty && old(EveryControlReadable(servers)) ==>
                && clients == old(clients) && ok && pendingClientOutcomes == old(pendingClientOutcomes)
                && forall id :: id in servers ==> PrunedAt(old(servers)[id], servers[id], now)
    {
      hide Core, Ledger, Settled, PrunedAt;
      ghost var before, sessions := servers, clients;
      SettledSelf(clients);
      ok := true;
      var invalidated := owned;
      var todo := servers.Keys;
      while todo != {}
        invariant Core() && servers.Keys == before.Keys && todo <= servers.Keys
        invariant clients.Keys == sessions.Keys && Settled(sessions, clients)
        invariant old(LedgerHolds()) ==> LedgerHolds()
        invariant !faulty && EveryControlReadable(before) ==>
                    && clients == sessions && ok && pendingClientOutcomes == old(pendingClientOutcomes)
                    && (forall id :: id in todo ==> servers[id] == before[id])
                    && forall id :: id in servers && id !in todo ==> PrunedAt(before[id], servers[id], now)
        decreases |todo|
      {
        var id: SocketId :| id in todo;
        todo := todo - {id};
        ghost var earlier := clients;
        var readable, done := PruneOrClose(id, now, !invalidated);
        invalidated := invalidated || !readable;
        ok := ok && done;
        SettledTransitive(sessions, earlier, clients);
        if readable && !done {
          return;
        }
      }
    }

    method PruneOrClose(id: SocketId, now: int, endClients: bool) returns (readable: bool, ok: bool)
      requires Core() && id in servers
      modifies this`servers, this`clients, this`pendingClientOutcomes, this`metrics, this`finalizedConnections
      ensures Core() && servers.Keys == old(servers.Keys)
      ensures clients.Keys == old(clients.Keys) && Settled(old(clients), clients)
      ensures old(LedgerHolds()) ==> LedgerHolds()
      ensures readable == old(servers)[id].stored.Some?
      ensures readable ==> clients == old(clients) && pendingClientOutcomes == old(pendingClientOutcomes)
      ensures readable ==> forall other :: other in servers && other != id ==> servers[other] == old(servers)[other]
      ensures !faulty && readable ==> ok && PrunedAt(old(servers)[id], servers[id], now)
    {
      hide Core, Ledger, Settled, PrunedAt;
      SettledSelf(clients);
      readable := servers[id].stored.Some?;
      if readable {
        ok := PruneControl(id, now);
      } else {
        ok := CloseUnreadableAnd(id, endClients);
      }
    }

    /** Closes a control that cannot be read, ending every client first when it may own them. */
    method CloseUnreadableAnd(id: SocketId, endClients: bool) returns (ok: bool)
      requires Core() && id in servers && servers[id].stored.None?
      modifies this`servers, this`clients, this`pendingClientOutcomes, this`metrics, this`finalizedConnections
      ensures Core() && servers.Keys == old(servers.Keys)
      ensures clients.Keys == old(clients.Keys) && Settled(old(clients), clients)
      ensures old(LedgerHolds()) ==> LedgerHolds()
    {
      hide ReadableServers, ReadableClients, Consistent, AtMostOneOwner, PendingOwned, Shrunk, TicketsCarried,
        OnlyClosed, OnlyMarked, Ledger, Settled, Quiet;
      ghost var before, sessions := servers, clients;
      SettledSelf(clients);
      var ended := EndOwnedClients(endClients, InternalError);
      MarkedShrinks(before, servers);
      MarkedKeepsOwned(before, servers, pendingServerOutcomes);
      ShrunkCarries(before, servers);
      ConsistentAfterTeardown(before, servers, sessions, clients, frames, issued);
      CloseControl(id);
      ok := ended && !servers[id].open;
    }

    // ---- transports that ended -------------------------------------------------------------------------------

    /** Retires a control that outlived a departed newer one, or owes its teardown. */
    method RetireRemaining(id: SocketId) returns (retired: bool)
      requires Core() && id in servers && Holds(servers[id])
      modifies this`servers, this`pendingServerOutcomes, this`inactiveControls
      ensures Core() && servers.Keys == old(servers.Keys) && Shrunk(old(servers), servers)
      ensures if retired then !Holds(servers[id]) else servers == old(servers) && id in pendingServerOutcomes
      ensures forall other :: other in servers && other != id ==> servers[other] == old(servers)[other]
    {
      hide ReadableServers, ReadableClients, Consistent, AtMostOneOwner, PendingOwned, Shrunk, TicketsCarried;
      ghost var before := servers;
      ShrunkSelf(servers);
      SettledSelf(clients);
      var a := servers[id].stored.value;
      OweHolder(servers, pendingServerOutcomes, id, ServerUnavailable);
      retired := RetireServerImmediately(id, a);
      if retired {
        OneRetiredShrinks(before, servers, id);
        ShrunkCarries(before, servers);
        ConsistentAfterTeardown(before, servers, clients, clients, frames, issued);
      } else {
        pendingServerOutcomes := pendingServerOutcomes[id := ServerUnavailable];
        inactiveControls := RememberBounded(inactiveControls, a.controlId);
      }
    }

    /** Ends every client because the control is gone or replaced. */
    method EndAllClients(outcome: Outcome) returns (ok: bool)
      requires Core()
      modifies this`servers, this`clients, this`pendingClientOutcomes, this`metrics, this`finalizedConnections
      ensures Core() && servers.Keys == old(servers.Keys) && OnlyMarked(old(servers), servers)
      ensures clients.Keys == old(clients.Keys) && Settled(old(clients), clients)
      ensures old(LedgerHolds()) ==> LedgerHolds()
      ensures ok && old(LedgerHolds()) ==> forall id :: id in clients ==> Quiet(clients[id])
    {
      hide Ledger, ReadableServers, ReadableClients, OnlyMarked, Consistent, AtMostOneOwner, PendingOwned, Settled,
        Shrunk, TicketsCarried, Quiet;
      ghost var before, sessions := servers, clients;
      ok := CloseAllClients(outcome);
      MarkedShrinks(before, servers);
      ShrunkCarries(before, servers);
      MarkedKeepsOwned(before, servers, pendingServerOutcomes);
      ConsistentAfterTeardown(before, servers, sessions, clients, frames, issued);
    }

    /**
     A control's transport ended. If it still claimed the room and was not retired
     on purpose, no session outlives it: an older control that took its place is
     retired, a newer one keeps the room, and every client ends either way.
     */
    method ServerGone(sid: SocketId) returns (ok: bool)
      requires Core() && sid in servers && !servers[sid].open
      modifies this`servers, this`clients, this`pendingServerOutcomes, this`pendingClientOutcomes, this`metrics,
        this`finalizedConnections, this`inactiveControls, this`recoveryPersisted
      ensures Core() && servers.Keys == old(servers.Keys)
      ensures clients.Keys == old(clients.Keys) && Settled(old(clients), clients)
      ensures old(LedgerHolds()) ==> LedgerHolds()
      ensures ok && old(LedgerHolds() && Departs(sid)) ==> forall id :: id in clients ==> Quiet(clients[id])
    {
      hide ReadableServers, ReadableClients, Consistent, AtMostOneOwner, PendingOwned, Settled, Ledger, OnlyMarked,
        Quiet;
      SettledSelf(clients);
      GoneOwesNothing(servers, pendingServerOutcomes, sid);
      pendingServerOutcomes := pendingServerOutcomes - {sid};
      var stored := servers[sid].stored;
      ok := true;
      if stored.None? {
        ok := EndAllClients(InternalError);
      } else {
        var departs := stored.value.current && stored.value.controlId !in inactiveControls;
        inactiveControls := Without(inactiveControls, stored.value.controlId);
        if departs {
          ok := SucceedControl(sid, stored.value);
        }
      }
      if !ok {
        PersistTeardownRecoveryRequired();
      }
    }

    /** The gone transport still claimed the room and nobody here retired it. */
    predicate Departs(sid: SocketId)
      reads this`servers, this`inactiveControls
    {
      Claims(servers, sid) && servers[sid].stored.value.controlId !in inactiveControls
    }

    /** Decides what becomes of the room after its control departed on its own. */
    method SucceedControl(sid: SocketId, a: ServerAttachment) returns (ok: bool)
      requires Core() && sid in servers && servers[sid].stored == Some(a)
      modifies this`servers, this`clients, this`pendingServerOutcomes, this`pendingClientOutcomes, this`metrics,
        this`finalizedConnections, this`inactiveControls
      ensures Core() && servers.Keys == old(servers.Keys)
      ensures clients.Keys == old(clients.Keys) && Settled(old(clients), clients)
      ensures old(LedgerHolds()) ==> LedgerHolds()
      ensures ok && old(LedgerHolds()) ==> forall id :: id in clients ==> Quiet(clients[id])
    {
      hide ReadableServers, ReadableClients, Consistent, AtMostOneOwner, PendingOwned, Settled, Ledger, OnlyMarked,
        Quiet,
        Newer, Shrunk, Candidate;
      var active := CurrentOpenServers(Some(sid));
      forall id | id in active
        ensures id in servers && servers[id].stored.Some? && Holds(servers[id])
      {
        CandidateHolds(servers, id, currentGeneration, Some(sid));
      }
      if active == {} {
        ok := EndAllClients(ServerUnavailable);
        return;
      }
      var order := NewestFirst(active);
      assert order[0] in active;
      ghost var sessions := clients;
      SettledSelf(sessions);
      var settled: bool;
      var outcome := ServerUnavailable;
      if !Newer(servers[order[0]].stored.value, a) {
        settled := RetireFallbacks(active);
      } else {
        outcome := ServerReplaced;
        settled := KeepReplacement(sid);
      }
      ghost var live := clients;
      ok := EndAllClients(outcome);
      SettledTransitive(sessions, live, clients);
      ok := ok && settled;
    }

    method RetireFallbacks(active: set<SocketId>) returns (ok: bool)
      requires Core() && forall id :: id in active ==> id in servers && Holds(servers[id])
      modifies this`servers, this`pendingServerOutcomes, this`inactiveControls
      ensures Core() && servers.Keys == old(servers.Keys)
      ensures ok ==> forall id :: id in active ==> !Holds(servers[id])
    {
      hide Core, Shrunk, Holds;
      ghost var before := servers;
      ok := true;
      var todo := active;
      while todo != {}
        invariant Core() && servers.Keys == before.Keys && todo <= active
        invariant forall id :: id in todo ==> servers[id] == before[id]
        invariant ok ==> forall id :: id in active && id !in todo ==> !Holds(servers[id])
        decreases |todo|
      {
        var id: SocketId :| id in todo;
        todo := todo - {id};
        var retired := RetireRemaining(id);
        ok := ok && retired;
      }
    }

    /** A newer control already took over: the usual selection decides among the rest. */
    method KeepReplacement(sid: SocketId) returns (ok: bool)
      requires Core()
      modifies this`servers, this`clients, this`pendingServerOutcomes, this`pendingClientOutcomes, this`metrics,
        this`finalizedConnections, this`inactiveControls
      ensures Core() && servers.Keys == old(servers.Keys)
      ensures clients.Keys == old(clients.Keys) && Settled(old(clients), clients)
      ensures old(LedgerHolds()) ==> LedgerHolds()
      ensures ok ==> exists winner :: SoleCandidate(servers, Some(winner), currentGeneration, Some(sid))
    {
      hide ReadableServers, ReadableClients, Consistent, AtMostOneOwner, PendingOwned, Settled, Ledger, Shrunk,
        TicketsCarried, SoleCandidate, Candidate, Newer, SocketMarked;
      ghost var before, sessions := servers, clients;
      var reconciled, winner, _ := ReconcileActiveServer(Some(sid));
      ShrunkCarries(before, servers);
      ConsistentAfterTeardown(before, servers, sessions, clients, frames, issued);
      ok := reconciled && winner.Some?;
    }

    /**
     A client's transport ended. A session that had not ended is reported unless
     the close carries a signature the room itself uses: that is enough to scrub
     the ticket, but a peer can copy it, so no metric is written for it.
     */
    method ClientGone(id: SocketId, signature: Option<Outcome>)
      requires Core() && id in clients && !clients[id].open
      modifies this`servers, this`clients, this`pendingClientOutcomes, this`metrics, this`finalizedConnections,
        this`recoveryPersisted
      ensures Core() && servers.Keys == old(servers.Keys)
      ensures clients.Keys == old(clients.Keys) && Settled(old(clients), clients)
      ensures old(metrics) <= metrics
      ensures old(LedgerHolds()) ==> LedgerHolds()
      ensures !faulty && clients[id].stored.Some? ==> DurablyTerminal(clients[id])
      ensures id !in pendingClientOutcomes
      ensures !faulty && id !in old(pendingClientOutcomes) && OwesReport(old(clients)[id], old(finalizedConnections)) &&
              DurablyTerminal(old(clients)[id]) ==>
                |metrics| == |old(metrics)| + 1 && old(metrics) <= metrics &&
                metrics[|old(metrics)|].connectionId == old(clients)[id].stored.value.connectionId
    {
      hide ReadableServers, ReadableClients, Consistent, AtMostOneOwner, PendingOwned, Settled, Ledger, OnlyMarked,
        ValidClient, Endable;
      SettledSelf(clients);
      ReadClientAt(clients, id);
      var stored := clients[id].stored;
      if stored.Some? {
        var a := stored.value;
        StoredIsEndable(a);
        if id in pendingClientOutcomes {
          FailStored(id, pendingClientOutcomes[id]);
        } else if a.stage != Terminal && signature.None? {
          FailStored(id, ClientDisconnected);
        } else if a.stage != Terminal {
          ScrubSession(id, a, signature.value);
        } else if !a.summaryEmitted {
          ReportEnded(id, a);
        }
      }
      pendingClientOutcomes := pendingClientOutcomes - {id};
    }

    /** Scrubs a session whose end this room may have initiated, without reporting it. */
    method ScrubSession(id: SocketId, a: ClientAttachment, outcome: Outcome)
      requires Core() && id in clients && clients[id].stored == Some(a) && a.stage != Terminal
      modifies this`servers, this`clients
      ensures Core() && servers.Keys == old(servers.Keys)
      ensures clients.Keys == old(clients.Keys) && Settled(old(clients), clients)
      ensures old(LedgerHolds()) ==> LedgerHolds()
      ensures !faulty ==> clients[id].stored == Some(EndedSession(a, outcome).(summaryEmitted := true))
    {
      hide ReadableServers, ReadableClients, Consistent, AtMostOneOwner, PendingOwned, Ledger, OnlyMarked, ValidClient,
        Endable, EndedSession, Shrunk, TicketsCarried;
      ghost var before, sessions := servers, clients;
      StoredAtIsEndable(clients, id, a);
      EndedIsValid(a, outcome);
      var t := EndedSession(a, outcome).(summaryEmitted := true);
      MarkTicketTerminal(a);
      MarkedShrinks(before, servers);
      ShrunkCarries(before, servers);
      MarkedKeepsOwned(before, servers, pendingServerOutcomes);
      LedgerAfterMark(clients, id, a, t, metrics, finalizedConnections, delivered);
      ReadableAfterWrite(clients, id, clients[id].(stored := Some(t)));
      var _ := TryWriteClient(id, t);
      ConsistentAfterTeardown(before, servers, sessions, clients, frames, issued);
    }

    /** Reports a session that ended durably without its summary going out. */
    method ReportEnded(id: SocketId, a: ClientAttachment)
      requires Core() && id in clients && clients[id].stored == Some(a) && a.stage == Terminal && !a.summaryEmitted
      modifies this`clients, this`metrics, this`finalizedConnections
      ensures Core() && clients.Keys == old(clients.Keys) && Settled(old(clients), clients)
      ensures old(LedgerHolds()) ==> LedgerHolds()
      ensures clients[id].stored.Some? && DurablyTerminal(clients[id]) && a.terminalOutcome.Some?
      ensures metrics == old(metrics) ||
              (metrics == old(metrics) + [MetricOf(a, a.terminalOutcome.value)] &&
                  a.connectionId !in old(finalizedConnections))
      ensures !faulty && a.connectionId !in old(finalizedConnections) ==> metrics != old(metrics)
    {
      hide ReadableServers, ReadableClients, Consistent, AtMostOneOwner, PendingOwned, Ledger, ValidClient, Endable;
      ghost var sessions := clients;
      StoredAtIsEndable(clients, id, a);
      EndedIsValid(a, InternalError);
      TerminalHasOutcome(a);
      var reported, after := EmitTerminalMetric(id, a, a.terminalOutcome.value);
      assert clients == sessions[id := clients[id]];
      ReadableAfterWrite(sessions, id, clients[id]);
      CarriedSelf(servers);
      ConsistentAfterTeardown(servers, servers, sessions, clients, frames, issued);
      if old(LedgerHolds()) && metrics != old(metrics) {
        LedgerAfterReport(sessions, id, clients[id], old(metrics), MetricOf(a, a.terminalOutcome.value),
                          old(finalizedConnections), finalizedConnections, delivered);
      }
    }

    // ---- changing the generation -----------------------------------------------------------------------------

    /** Ends one control that was opened for another generation, or that cannot be read. */
    method EndForeignControl(id: SocketId, generation: Option<string>) returns (ok: bool)
      requires Core() && id in servers
      modifies this`servers, this`clients, this`pendingServerOutcomes, this`pendingClientOutcomes, this`metrics,
        this`finalizedConnections, this`inactiveControls
      ensures Core() && servers.Keys == old(servers.Keys) && Shrunk(old(servers), servers)
      ensures clients.Keys == old(clients.Keys) && Settled(old(clients), clients)
      ensures old(LedgerHolds()) ==> LedgerHolds()
      ensures ok && Holds(servers[id]) ==> Some(servers[id].stored.value.generation) == generation
      ensures forall other :: other in servers && other != id ==> SocketMarked(old(servers)[other], servers[other])
      ensures !faulty && old(AllReadable(clients)) && old(servers)[id].stored.Some? ==> ok
      ensures Stuck() && ClaimsForeign(old(servers), id, generation) ==> !ok
    {
      hide ReadableServers, ReadableClients, Consistent, AtMostOneOwner, PendingOwned, Settled, Ledger, Shrunk,
        TicketsCarried, ValidServer, TicketsDerived, TicketsMarked, OnlyClosed, SocketMarked, Quiet, AllReadable;
      ghost var before, sessions := servers, clients;
      SettledSelf(clients);
      ShrunkSelf(servers);
      MarksNothing(servers);
      ok := true;
      if servers[id].stored.None? {
        CloseControl(id);
        OthersUnmarked(before, servers, id);
        ok := !servers[id].open;
      } else if Some(servers[id].stored.value.generation) != generation {
        var a := servers[id].stored.value;
        ReadAt(servers, id);
        DerivedSelf(a.tickets);
        ok := FailServer(id, a, ServerReplaced);
        ShrunkCarries(before, servers);
        ConsistentAfterTeardown(before, servers, sessions, clients, frames, issued);
      }
    }

    /** Every claiming open control is of the given generation, outside the given sockets. */
    ghost predicate ControlsMatch(generation: Option<string>, except: set<SocketId>)
      reads this`servers
    {
      forall id :: id in servers && id !in except && Holds(servers[id]) ==>
        Some(servers[id].stored.value.generation) == generation
    }

    method EndForeignControls(generation: Option<string>) returns (ok: bool)
      requires Core()
      modifies this`servers, this`clients, this`pendingServerOutcomes, this`pendingClientOutcomes, this`metrics,
        this`finalizedConnections, this`inactiveControls
      ensures Core() && servers.Keys == old(servers.Keys)
      ensures clients.Keys == old(clients.Keys) && Settled(old(clients), clients)
      ensures old(LedgerHolds()) ==> LedgerHolds()
      ensures ok ==> ControlsMatch(generation, {})
      ensures !faulty && old(AllReadable(clients) && EveryControlReadable(servers)) ==> ok
      ensures Stuck() ==> forall id :: ClaimsForeign(old(servers), id, generation) ==> !ok
    {
      hide Core, Ledger, Settled, Shrunk, AllReadable, EveryControlReadable, ClaimsForeign, SocketMarked;
      ghost var before, sessions := servers, clients;
      SettledSelf(clients);
      ok := true;
      var todo := servers.Keys;
      ForeignStarts(servers, generation);
      while todo != {}
        invariant Core() && servers.Keys == before.Keys && todo <= servers.Keys
        invariant clients.Keys == sessions.Keys && Settled(sessions, clients)
        invariant old(LedgerHolds()) ==> LedgerHolds()
        invariant ok ==> ControlsMatch(generation, todo)
        invariant !faulty && AllReadable(sessions) && EveryControlReadable(before) ==> ok
        invariant forall id :: id in todo ==> SocketMarked(before[id], servers[id])
        invariant Stuck() ==> forall id :: id in before && id !in todo && ClaimsForeign(before, id, generation) ==> !ok
        decreases |todo|
      {
        var id: SocketId :| id in todo;
        ghost var rest := todo;
        todo := todo - {id};
        ghost var earlier, live := servers, clients;
        SettledStaysReadable(sessions, live);
        MarkedStaysForeign(before, earlier, id, generation);
        var ended := EndForeignControl(id, generation);
        ok := ok && ended;
        HoldersKeepGeneration(earlier, servers);
        SettledTransitive(sessions, live, clients);
        MarkedOnwards(before, earlier, servers, rest, id);
      }
    }

    /** Nothing is left to do for any session of another generation. */
    ghost predicate ClientsMatch(generation: Option<string>, except: set<SocketId>)
      reads this`clients
    {
      forall id :: id in clients && id !in except ==>
        Quiet(clients[id]) || (clients[id].stored.Some? && Some(clients[id].stored.value.generation) == generation)
    }

    method EndForeignClients(generation: Option<string>) returns (ok: bool)
      requires Core()
      modifies this`servers, this`clients, this`pendingClientOutcomes, this`metrics, this`finalizedConnections
      ensures Core() && servers.Keys == old(servers.Keys) && OnlyMarked(old(servers), servers)
      ensures clients.Keys == old(clients.Keys) && Settled(old(clients), clients)
      ensures old(LedgerHolds()) ==> LedgerHolds()
      ensures ok && old(LedgerHolds()) ==> ClientsMatch(generation, {})
      ensures !faulty && old(AllReadable(clients)) ==> ok
    {
      hide Core, Ledger, Settled, OnlyMarked, Quiet;
      ghost var controls, sessions := servers, clients;
      SettledSelf(clients);
      ShrunkSelf(servers);
      ok := true;
      var todo := clients.Keys;
      while todo != {}
        invariant Core() && servers.Keys == controls.Keys && OnlyMarked(controls, servers) && todo <= clients.Keys
        invariant clients.Keys == sessions.Keys && Settled(sessions, clients)
        invariant old(LedgerHolds()) ==> LedgerHolds()
        invariant ok && old(LedgerHolds()) ==> ClientsMatch(generation, todo)
        invariant !faulty && AllReadable(sessions) ==> ok
        decreases |todo|
      {
        var id: SocketId :| id in todo;
        todo := todo - {id};
        ghost var earlier, live := servers, clients;
        SettledStaysReadable(sessions, live);
        if clients[id].stored.None? || Some(clients[id].stored.value.generation) != generation {
          var ended := EndForeignClient(id);
          ok := ok && ended;
          MarkedTransitive(controls, earlier, servers);
          SettledTransitive(sessions, live, clients);
        }
      }
    }

    method EndForeignClient(id: SocketId) returns (ok: bool)
      requires Core() && id in clients
      modifies this`servers, this`clients, this`pendingClientOutcomes, this`metrics, this`finalizedConnections
      ensures Core() && servers.Keys == old(servers.Keys) && OnlyMarked(old(servers), servers)
      ensures clients.Keys == old(clients.Keys) && Settled(old(clients), clients)
      ensures forall other :: other in clients && other != id ==> clients[other] == old(clients)[other]
      ensures old(LedgerHolds()) ==> LedgerHolds()
      ensures ok && old(LedgerHolds()) ==> Quiet(clients[id])
      ensures !faulty && old(clients)[id].stored.Some? ==> ok
    {
      hide Ledger, ReadableServers, ReadableClients, OnlyMarked, Consistent, AtMostOneOwner, PendingOwned, Settled,
        Shrunk, TicketsCarried, Quiet;
      ghost var before, sessions := servers, clients;
      ok := EndStoredClient(id, ServerReplaced);
      MarkedShrinks(before, servers);
      ShrunkCarries(before, servers);
      MarkedKeepsOwned(before, servers, pendingServerOutcomes);
      ConsistentAfterTeardown(before, servers, sessions, clients, frames, issued);
    }

    /**
     Moves the room to another generation: persisted first, then every transport
     of an earlier generation is ended. On success none of them speaks any more;
     a failed teardown leaves the new generation in force all the same.
     */
    method RotateTokenGeneration(generation: Option<string>, persists: bool) returns (ok: bool)
      requires Core()
      modifies this`servers, this`clients, this`currentGeneration, this`storedGeneration, this`pendingServerOutcomes,
        this`pendingClientOutcomes, this`metrics, this`finalizedConnections, this`inactiveControls,
        this`recoveryPersisted
      ensures Core() && servers.Keys == old(servers.Keys)
      ensures clients.Keys == old(clients.Keys) && Settled(old(clients), clients)
      ensures old(LedgerHolds()) ==> LedgerHolds()
      ensures old(currentGeneration) == generation ==> ok && storedGeneration == old(storedGeneration)
      ensures old(currentGeneration) == generation ==> servers == old(servers) && clients == old(clients)
      ensures persists || old(currentGeneration) == generation ==> currentGeneration == generation
      ensures persists && old(currentGeneration) != generation ==> storedGeneration == generation
      ensures !persists ==> currentGeneration == old(currentGeneration) && storedGeneration == old(storedGeneration)
      ensures !persists ==> servers == old(servers) && clients == old(clients)
      ensures !persists && old(currentGeneration) != generation ==> !ok
      ensures ok && old(currentGeneration) != generation ==> ControlsMatch(generation, {})
      ensures ok && old(currentGeneration) != generation && old(LedgerHolds()) ==> ClientsMatch(generation, {})
      ensures persists && !faulty && old(AllReadable(clients) && EveryControlReadable(servers)) ==> ok
      ensures Stuck() && old(currentGeneration) != generation ==>
                forall id :: ClaimsForeign(old(servers), id, generation) ==> !ok
    {
      hide Core, Ledger, Settled, OnlyMarked, Quiet, ClientsMatch, AllReadable, EveryControlReadable, ClaimsForeign;
      SettledSelf(clients);
      ok := true;
      if currentGeneration == generation {
        return;
      }
      ghost var sessions := clients;
      if !persists {
        return false;
      }
      storedGeneration := generation;
      currentGeneration := generation;
      ok := EndForeignControls(generation);
      ghost var controls, live := servers, clients;
      SettledStaysReadable(sessions, live);
      var ended := EndForeignClients(generation);
      SettledTransitive(sessions, live, clients);
      if ok {
        MatchAfterMarking(controls, generation);
      }
      ok := ok && ended;
      if !ok {
        PersistTeardownRecoveryRequired();
      }
    }

    lemma MatchAfterMarking(controls: Servers, generation: Option<string>)
      requires OnlyMarked(controls, servers)
      requires forall id :: id in controls && Holds(controls[id]) ==>
          Some(controls[id].stored.value.generation) == generation
      ensures ControlsMatch(generation, {})
    {
      hide OnlyMarked;
      MarkedShrinks(controls, servers);
      HoldersKeepGeneration(controls, servers);
    }

    // ---- quarantine and reconstruction -------------------------------------------------------------------------

    /** Scrubs one session durably; recovery also gives up its telemetry. */
    method SanitizeClient(id: SocketId, suppress: bool) returns (ok: bool)
      requires Core() && id in clients
      modifies this`clients
      ensures Core() && clients.Keys == old(clients.Keys) && Settled(old(clients), clients)
      ensures forall other :: other in clients && other != id ==> clients[other] == old(clients)[other]
      ensures old(LedgerHolds()) ==> LedgerHolds()
      ensures ok ==> Gone(clients[id])
      ensures ok && suppress && clients[id].open ==> clients[id].stored.value.summaryEmitted
      ensures !faulty && old(clients)[id].stored.Some? ==> ok
    {
      hide ReadableServers, ReadableClients, Consistent, AtMostOneOwner, PendingOwned, Ledger, ValidClient, Endable,
        EndedSession;
      ghost var sessions := clients;
      CarriedSelf(servers);
      var safe := false;
      if clients[id].stored.Some? {
        var a := clients[id].stored.value;
        StoredAtIsEndable(clients, id, a);
        EndedIsValid(a, InternalError);
        var ended := EndedSession(a, InternalError);
        var t := if suppress then ended.(summaryEmitted := true) else ended;
        LedgerAfterScrub(clients, id, a, t, metrics, finalizedConnections, delivered);
        ReadableAfterWrite(clients, id, clients[id].(stored := Some(t)));
        if a.stage == Terminal && !suppress {
          safe := true;
        } else {
          safe := TryWriteClient(id, t);
        }
      }
      ghost var written := clients;
      var closed := CloseClient(id);
      LedgerAfterClose(written, id, clients[id], metrics, finalizedConnections, delivered);
      ReadableAfterWrite(written, id, clients[id]);
      ok := safe || closed;
      ConsistentAfterTeardown(servers, servers, sessions, clients, frames, issued);
    }

    /** Strips one control durably of its claim and its tickets. */
    method SanitizeServer(id: SocketId) returns (ok: bool)
      requires Core() && id in servers && pendingServerOutcomes == map[]
      modifies this`servers
      ensures Core() && servers.Keys == old(servers.Keys) && Shrunk(old(servers), servers)
      ensures ok ==> !Holds(servers[id])
      ensures !faulty && old(servers)[id].stored.Some? ==> ok
    {
      hide ReadableServers, ReadableClients, Consistent, AtMostOneOwner, PendingOwned, Shrunk, TicketsCarried,
        ValidServer;
      ghost var before := servers;
      SettledSelf(clients);
      var safe := false;
      if servers[id].stored.Some? {
        StrippingShrinks(servers, id, servers[id]);
        safe := TryWriteServer(id, Stripped(servers[id].stored.value));
      }
      var closed := CloseServer(id);
      ok := safe || closed;
      assert servers == before[id := servers[id]];
      StrippingShrinks(before, id, servers[id]);
      ShrunkCarries(before, servers);
      HeldIsOwned(servers, id);
      ConsistentAfterTeardown(before, servers, clients, clients, frames, issued);
    }

    /**
     Scrubs and closes every socket. Success leaves no open control that claims
     the room and no session that is neither closed nor durably terminal.
     */
    method Quarantine(suppress: bool) returns (ok: bool)
      requires Core() && pendingServerOutcomes == map[]
      modifies this`servers, this`clients
      ensures Core() && servers.Keys == old(servers.Keys)
      ensures clients.Keys == old(clients.Keys) && Settled(old(clients), clients)
      ensures old(LedgerHolds()) ==> LedgerHolds()
      ensures ok ==> NoHolder(servers) && forall id :: id in clients ==> Gone(clients[id])
      ensures !faulty && old(EveryControlReadable(servers) && AllReadable(clients)) ==>
                ok && EveryControlReadable(servers) && AllReadable(clients)
    {
      hide Core, Ledger, Settled, Shrunk, NoHolder, Gone, EveryControlReadable, AllReadable;
      var sessionsSafe := QuarantineClients(suppress);
      var controlsSafe := QuarantineServers();
      ok := sessionsSafe && controlsSafe;
    }

    method QuarantineServers() returns (ok: bool)
      requires Core() && pendingServerOutcomes == map[]
      modifies this`servers
      ensures Core() && servers.Keys == old(servers.Keys)
      ensures ok ==> NoHolder(servers)
      ensures !faulty && old(EveryControlReadable(servers)) ==> ok && EveryControlReadable(servers)
    {
      hide Core, Shrunk;
      ok := true;
      var todo := servers.Keys;
      while todo != {}
        invariant Core() && servers.Keys == old(servers.Keys) && todo <= servers.Keys
        invariant !faulty && old(EveryControlReadable(servers)) ==> ok && EveryControlReadable(servers)
        invariant ok ==> forall id :: id in servers && id !in todo ==> !Holds(servers[id])
        decreases |todo|
      {
        var id: SocketId :| id in todo;
        todo := todo - {id};
        ghost var earlier := servers;
        var safe := SanitizeServer(id);
        ok := ok && safe;
        HoldersKeepGeneration(earlier, servers);
        ShrunkStaysReadable(earlier, servers);
      }
    }

    method QuarantineClients(suppress: bool) returns (ok: bool)
      requires Core()
      modifies this`clients
      ensures Core() && clients.Keys == old(clients.Keys) && Settled(old(clients), clients)
      ensures old(LedgerHolds()) ==> LedgerHolds()
      ensures ok ==> forall id :: id in clients ==> Gone(clients[id])
      ensures !faulty && old(AllReadable(clients)) ==> ok && AllReadable(clients)
    {
      hide Core, Ledger, Settled, Gone;
      ghost var before := clients;
      SettledSelf(clients);
      ok := true;
      var todo := clients.Keys;
      while todo != {}
        invariant Core() && clients.Keys == before.Keys && todo <= clients.Keys && Settled(before, clients)
        invariant old(LedgerHolds()) ==> LedgerHolds()
        invariant ok ==> forall id :: id in clients && id !in todo ==> Gone(clients[id])
        invariant !faulty && old(AllReadable(clients)) ==> ok && AllReadable(clients)
        decreases |todo|
      {
        var id: SocketId :| id in todo;
        todo := todo - {id};
        ghost var earlier := clients;
        var safe := SanitizeClient(id, suppress);
        ok := ok && safe;
        SettledStaysReadable(earlier, clients);
        SettledTransitive(before, earlier, clients);
      }
    }

    /**
     A new instance over the same sockets. Everything ephemeral is forgotten; a
     stored recovery request is honoured first, then the generation is read and the
     replay ledger opened. A failure at any of these leaves the instance refusing
     every event, with its sockets scrubbed and closed as far as they can be.
     */
    method Reconstruct(start: Start) returns (safe: bool)
      requires Core()
      modifies this`servers, this`clients, this`currentGeneration, this`pendingServerOutcomes,
        this`pendingClientOutcomes, this`finalizedConnections, this`inactiveControls, this`recoveryPersisted,
        this`recoveryRequired, this`initializationFailed, this`ledgerOpened
      ensures Core() && servers.Keys == old(servers.Keys)
      ensures clients.Keys == old(clients.Keys) && Settled(old(clients), clients)
      ensures old(LedgerHolds()) ==> LedgerHolds()
      ensures pendingServerOutcomes == map[] && pendingClientOutcomes == map[] && finalizedConnections == []
      ensures start != Started ==> initializationFailed
      ensures start == Started && (!faulty || !old(recoveryPersisted)) ==> !initializationFailed
      ensures !initializationFailed ==> currentGeneration == storedGeneration && ledgerOpened
      ensures currentGeneration == storedGeneration || (initializationFailed && currentGeneration.None?)
      ensures recoveryRequired ==> old(recoveryPersisted)
      ensures !old(recoveryPersisted) && !initializationFailed ==> clients == old(clients) && servers == old(servers)
      ensures (if initializationFailed then safe else old(recoveryPersisted) && !recoveryRequired) ==>
                NoHolder(servers) && forall id :: id in clients ==> Gone(clients[id])
    {
      hide Core, Settled, LedgerHolds, NoHolder, Gone, EveryControlReadable, AllReadable, Ledger;
      ForgetEphemeral();
      ghost var before := clients;
      initializationFailed := Initialize(start);
      safe := true;
      if initializationFailed {
        ghost var recovered := clients;
        safe := Quarantine(false);
        SettledTransitive(before, recovered, clients);
      }
    }

    /** The constructor's steps up to the first that throws. */
    method Initialize(start: Start) returns (threw: bool)
      requires Core() && pendingServerOutcomes == map[] && currentGeneration == None && !recoveryRequired
      modifies this`servers, this`clients, this`currentGeneration, this`recoveryPersisted, this`recoveryRequired,
        this`ledgerOpened
      ensures Core() && servers.Keys == old(servers.Keys)
      ensures clients.Keys == old(clients.Keys) && Settled(old(clients), clients)
      ensures old(LedgerHolds()) ==> LedgerHolds()
      ensures start != Started ==> threw
      ensures start == Started && (!faulty || !old(recoveryPersisted)) ==> !threw
      ensures !threw ==> currentGeneration == storedGeneration && ledgerOpened
      ensures currentGeneration == storedGeneration || (threw && currentGeneration.None?)
      ensures recoveryRequired ==> old(recoveryPersisted)
      ensures !old(recoveryPersisted) ==> clients == old(clients) && servers == old(servers)
      ensures old(recoveryPersisted) && !recoveryRequired && !threw ==>
                NoHolder(servers) && forall id :: id in clients ==> Gone(clients[id])
    {
      hide Core, Settled, Ledger, NoHolder, Gone, EveryControlReadable, AllReadable;
      SettledSelf(clients);
      threw := start == LostRecovery;
      if threw {
        return;
      }
      recoveryRequired := recoveryPersisted;
      if recoveryRequired {
        threw := RecoverTeardown();
        if threw {
          return;
        }
      }
      if start == LostGeneration {
        return true;
      }
      currentGeneration := storedGeneration;
      ledgerOpened := start != LostLedger;
      threw := start != Started;
    }

    method ForgetEphemeral()
      requires Core()
      modifies this`currentGeneration, this`pendingServerOutcomes, this`pendingClientOutcomes,
        this`finalizedConnections, this`inactiveControls, this`recoveryRequired, this`initializationFailed,
        this`ledgerOpened
      ensures Core() && (old(LedgerHolds()) ==> LedgerHolds())
      ensures pendingServerOutcomes == map[] && pendingClientOutcomes == map[] && finalizedConnections == []
      ensures currentGeneration == None && !recoveryRequired && !initializationFailed && !ledgerOpened
    {
      hide ReadableServers, ReadableClients, Consistent, AtMostOneOwner, Reported;
      HeldIsOwned(servers, 0);
      pendingServerOutcomes, pendingClientOutcomes := map[], map[];
      finalizedConnections, inactiveControls := [], [];
      currentGeneration, recoveryRequired, initializationFailed, ledgerOpened := None, false, false, false;
    }

    /** Runs the stored recovery; its request is dropped once every socket is safe, unless that write throws. */
    method RecoverTeardown() returns (threw: bool)
      requires Core() && pendingServerOutcomes == map[] && recoveryRequired
      modifies this`servers, this`clients, this`recoveryPersisted, this`recoveryRequired
      ensures Core() && servers.Keys == old(servers.Keys)
      ensures clients.Keys == old(clients.Keys) && Settled(old(clients), clients)
      ensures old(LedgerHolds()) ==> LedgerHolds()
      ensures threw ==> recoveryRequired
      ensures !faulty ==> !threw
      ensures !recoveryRequired ==>
                !recoveryPersisted && NoHolder(servers) && forall id :: id in clients ==> Gone(clients[id])
      ensures !faulty && old(EveryControlReadable(servers) && AllReadable(clients)) ==>
                !recoveryRequired && EveryControlReadable(servers) && AllReadable(clients)
    {
      hide Core, Ledger, Settled, NoHolder, Gone, EveryControlReadable, AllReadable;
      threw := false;
      var safe := Quarantine(true);
      if safe {
        threw := *;
        threw := threw && faulty;
        if !threw {
          recoveryPersisted, recoveryRequired := false, false;
        }
      }
    }

    // ---- the alarm ---------------------------------------------------------------------------------------------

    method RetryOwedControls() returns (ok: bool)
      requires Core()
      modifies this`servers, this`clients, this`pendingServerOutcomes, this`pendingClientOutcomes, this`metrics,
        this`finalizedConnections, this`inactiveControls
      ensures Core() && servers.Keys == old(servers.Keys)
      ensures clients.Keys == old(clients.Keys) && Settled(old(clients), clients)
      ensures old(LedgerHolds()) ==> LedgerHolds()
      ensures ok ==> pendingServerOutcomes == map[]
      ensures !faulty && old(AllReadable(clients) && EveryControlReadable(servers)) ==>
                ok && AllReadable(clients) && EveryControlReadable(servers)
      ensures old(pendingServerOutcomes) == map[] ==>
                ok && servers == old(servers) && clients == old(clients) && metrics == old(metrics) &&
                pendingClientOutcomes == old(pendingClientOutcomes)
    {
      hide Ledger, ReadableServers, ReadableClients, Consistent, AtMostOneOwner, PendingOwned, Settled, Shrunk,
        TicketsCarried, SocketMarked;
      ghost var before, sessions := servers, clients;
      ok := RetryPendingServerTeardowns();
      ShrunkStaysReadable(before, servers);
      SettledStaysReadable(sessions, clients);
      ShrunkCarries(before, servers);
      ConsistentAfterTeardown(before, servers, sessions, clients, frames, issued);
      if ok {
        NothingOwed(servers, pendingServerOutcomes);
      }
    }

    /** Owed teardowns, deadlines and expired tickets, each attempted whatever the others did. */
    method ApplyDeadlines(now: int) returns (ok: bool)
      requires Core()
      modifies this`servers, this`clients, this`pendingServerOutcomes, this`pendingClientOutcomes, this`metrics,
        this`finalizedConnections, this`inactiveControls, this`recoveryPersisted
      ensures Core() && servers.Keys == old(servers.Keys)
      ensures clients.Keys == old(clients.Keys) && Settled(old(clients), clients)
      ensures old(LedgerHolds()) ==> LedgerHolds()
      ensures !faulty && old(pendingServerOutcomes == map[] && NoneOwed() && EveryControlReadable(servers)) ==>
                && (forall id :: id in clients && old(clients)[id].stored.Some? ==>
                      Expired(old(clients)[id], clients[id], now))
                && (forall id :: id in servers ==> PrunedAt(old(servers)[id], servers[id], now))
      ensures !faulty && old(EveryControlReadable(servers) && AllReadable(clients)) ==>
                && ok && pendingServerOutcomes == map[] && NoneOwed()
                && EveryControlReadable(servers) && AllReadable(clients)
    {
      hide Core, Ledger, Settled, Expired, PrunedAt, OnlyMarked, AllReadable, EveryControlReadable;
      ghost var controls, sessions := servers, clients;
      var retried := RetryOwedControls();
      ghost var swept, live := servers, clients;
      var expired := ExpireClients(now);
      ghost var marked, timely := servers, clients;
      SettledTransitive(sessions, live, timely);
      MarkedStayReadable(swept, marked);
      var pruned := PruneServerTickets(now);
      SettledTransitive(sessions, timely, clients);
      if !faulty && old(pendingServerOutcomes == map[] && NoneOwed()) && EveryControlReadable(controls) {
        MarkedThenPruned(controls, marked, servers, now);
      }
      if !faulty && EveryControlReadable(marked) && retried {
        PrunedStayReadable(marked, servers, now);
      }
      SettledStaysReadable(sessions, clients);
      ok := retried && expired && pruned;
    }

    /** One alarm: a stored recovery first, then everything that is due. */
    method Alarm(now: int) returns (ok: bool)
      requires Core() && (recoveryRequired || initializationFailed ==> pendingServerOutcomes == map[])
      modifies this`servers, this`clients, this`pendingServerOutcomes, this`pendingClientOutcomes, this`metrics,
        this`finalizedConnections, this`inactiveControls, this`recoveryPersisted, this`recoveryRequired
      ensures Core() && servers.Keys == old(servers.Keys)
      ensures clients.Keys == old(clients.Keys) && Settled(old(clients), clients)
      ensures old(LedgerHolds()) ==> LedgerHolds()
      ensures recoveryRequired ==> old(recoveryRequired) && pendingServerOutcomes == map[] && !ok
      ensures ok && !initializationFailed ==> !recoveryPersisted
      ensures initializationFailed ==> pendingServerOutcomes == map[]
      ensures !faulty && !initializationFailed && old(!recoveryRequired && pendingServerOutcomes == map[]) &&
              old(NoneOwed() && EveryControlReadable(servers)) ==>
                && (forall id :: id in clients && old(clients)[id].stored.Some? ==>
                      Expired(old(clients)[id], clients[id], now))
                && (forall id :: id in servers ==> PrunedAt(old(servers)[id], servers[id], now))
      ensures !faulty && !initializationFailed && old(EveryControlReadable(servers) && AllReadable(clients)) ==>
                && ok && !recoveryRequired && pendingServerOutcomes == map[] && NoneOwed()
                && EveryControlReadable(servers) && AllReadable(clients)
      ensures ok && initializationFailed ==> NoHolder(servers) && forall id :: id in clients ==> Gone(clients[id])
    {
      hide Core, Ledger, Settled, Expired, Gone, NoHolder, PrunedAt, AllReadable, EveryControlReadable;
      ghost var sessions := clients;
      SettledSelf(clients);
      ok := false;
      if recoveryRequired {
        var _ := RecoverTeardown();
        if recoveryRequired {
          return;
        }
      }
      ghost var recovered := clients;
      if initializationFailed {
        ok := Quarantine(false);
        SettledTransitive(sessions, recovered, clients);
        return;
      }
      ok := ApplyDeadlines(now);
      SettledTransitive(sessions, recovered, clients);
      if ok {
        recoveryPersisted := false;
      }
    }

    // ---- what happens to the room from outside ---------------------------------------------------------------

    constructor ()
      ensures Core() && LedgerHolds() && fresh(this) && servers == map[] && clients == map[]
      ensures metrics == [] && frames == [] && pendingServerOutcomes == map[] && !recoveryRequired
      ensures pendingClientOutcomes == map[] && finalizedConnections == [] && !recoveryPersisted && delivered == {}
      ensures !initializationFailed
    {
      servers, clients := map[], map[];
      currentGeneration, storedGeneration := None, None;
      pendingServerOutcomes, pendingClientOutcomes := map[], map[];
      finalizedConnections, inactiveControls := [], [];
      metrics, frames := [], [];
      recoveryPersisted, recoveryRequired, faulty, stuck, lossy := false, false, true, false, true;
      initializationFailed, ledgerOpened := false, true;
      delivered, issued := {}, {};
    }

    /** An upgrade of a control inside the room's whole invariant. */
    method UpgradeServer(now: int, accessProtocol: bool, generation: string, controlId: string, socket: SocketId)
      returns (accepted: bool)
      requires Core() && socket !in servers && Timestamp(now) && ConnectionId(controlId) && Hex64(generation)
      modifies this`servers, this`clients, this`currentGeneration, this`storedGeneration, this`pendingServerOutcomes,
        this`pendingClientOutcomes, this`metrics, this`finalizedConnections, this`inactiveControls,
        this`recoveryPersisted
      ensures Core() && servers.Keys <= old(servers.Keys) + {socket}
      ensures clients.Keys == old(clients.Keys) && Settled(old(clients), clients)
      ensures old(LedgerHolds()) ==> LedgerHolds()
      ensures accepted ==> HeldOnlyBy(servers, socket) && pendingServerOutcomes == map[] &&
                           currentGeneration == Some(generation) && servers[socket].stored ==
                           Some(ServerAttachment(true, accessProtocol, controlId, generation, now, []))
      ensures !faulty && !lossy && old(currentGeneration) in {None, Some(generation)} ==>
                (AllControlsRead(old(servers)) ==> accepted)
      ensures old(currentGeneration) !in {None, Some(generation)} ==> !accepted && servers == old(servers)
      ensures accepted && !faulty ==> AllEnded(old(clients), clients, old(pendingClientOutcomes), ServerReplaced)
    {
      hide AllEnded, Ledger, ReadableServers, ReadableClients, Consistent, AtMostOneOwner, PendingOwned, Settled, Grown,
        TicketsCarried, Holds;
      ghost var before, sessions := servers, clients;
      accepted := AcceptServer(now, accessProtocol, generation, controlId, socket);
      GrownCarries(before, servers, socket);
      GrownKeys(before, servers, socket);
      ConsistentAfterTeardown(before, servers, sessions, clients, frames, issued);
    }

    /** A peer or the network ends a transport; its event comes later. */
    method DropTransport(socket: SocketId)
      requires Core()
      modifies this`servers, this`clients
      ensures Core() && servers.Keys == old(servers.Keys)
      ensures clients.Keys == old(clients.Keys) && Settled(old(clients), clients)
      ensures forall id :: id in clients ==> clients[id].stored == old(clients)[id].stored
      ensures socket in clients ==> !clients[socket].open
      ensures old(LedgerHolds()) ==> LedgerHolds()
    {
      hide Ledger, ReadableServers, ReadableClients, Consistent, AtMostOneOwner, PendingOwned, Shrunk,
        TicketsCarried, OnlyClosed, ValidClient, ValidServer;
      ghost var before, sessions := servers, clients;
      ClosedSelf(servers);
      if socket in servers {
        servers := servers[socket := servers[socket].(open := false)];
      }
      if socket in clients {
        clients := clients[socket := clients[socket].(open := false)];
        LedgerAfterClose(sessions, socket, clients[socket], metrics, finalizedConnections, delivered);
        ReadableAfterWrite(sessions, socket, clients[socket]);
      }
      DroppedIsClosed(before, servers, socket);
      OnlyClosedShrinks(before, servers);
      ShrunkKeepsOwnership(before, servers);
      OnlyClosedKeepsPending(before, servers, pendingServerOutcomes);
      ShrunkCarries(before, servers);
      ConsistentAfterTeardown(before, servers, sessions, clients, frames, issued);
    }

    /** After its close event a client is no longer listed. */
    method ForgetClient(id: SocketId)
      requires Core()
      modifies this`clients
      ensures Core() && clients == old(clients) - {id} && Settled(old(clients), clients)
      ensures old(LedgerHolds()) ==> LedgerHolds()
    {
      hide ReadableServers, Consistent, AtMostOneOwner, PendingOwned, TicketsCarried, ValidClient, Reported;
      ghost var sessions := clients;
      clients := clients - {id};
      CarriedSelf(servers);
      ConsistentAfterTeardown(servers, servers, sessions, clients, frames, issued);
    }

    /** After its close event a control is no longer listed. */
    method ForgetServer(id: SocketId)
      requires Core() && id !in pendingServerOutcomes
      modifies this`servers
      ensures Core() && servers == old(servers) - {id}
    {
      hide ReadableClients, Consistent, TicketsCarried, ValidServer, SocketShrunk;
      ghost var before := servers;
      EachShrinksToItself(servers);
      servers := servers - {id};
      ShrunkCarries(before, servers);
      SettledSelf(clients);
      ForgottenOwesNothing(before, servers, pendingServerOutcomes, id);
      ConsistentAfterTeardown(before, servers, clients, clients, frames, issued);
    }

    /**
     What losing the marker leads to: a fresh instance that sees the session's
     transport close writes the metric a second time.
     */
    method ReportAgain(id: SocketId)
      requires Core() && id in clients && !clients[id].open && RepeatsReport(clients, id, metrics)
      requires !faulty && !recoveryPersisted
      modifies this
      ensures Core() && !AtMostOncePerConnection(metrics)
    {
      hide ReadableServers, ReadableClients, Consistent, AtMostOneOwner, PendingOwned, Ledger, Settled, NoHolder, Gone,
        Reported, AtMostOncePerConnection;
      var _ := Reconstruct(Started);
      ghost var reports := metrics;
      ClientGone(id, None);
      if AtMostOncePerConnection(reports) {
        assert metrics == reports + [metrics[|reports|]];
        ReportedAgain(reports, metrics[|reports|]);
      } else {
        RepeatStays(reports, metrics);
      }
    }
  }
}
