# Atrinik services core: a verified model

The repository runs the directory and the rendezvous of the Atrinik game on
Cloudflare Workers. This project models its stateful core and proves what that
core promises over whole runs:

- **The rendezvous room** (`RoomState`, `RoomAccounts`, `RendezvousRoom`,
  `RoomRuns`, `RoomAlarm`, `RoomFindings`). One Durable Object per server: it
  selects the one control socket that owns the room, admits client sessions,
  relays their candidates within budgets, ends every session once, and reports
  one metric for it. Attachment writes, socket closes and storage writes may
  each fail; a new instance may start at any event.
- **The attachment codec** (`Attachments`): the stored form of every socket.
- **The replay ledger** (`ReplayLedger`, `ReplayRuns`): two tags per ticket, one
  per key, within a rolling window, under key rotation.
- **The signed access tables** (`Decimals`, `AccessState`, `AccessRuns`,
  `AccessDecisions`, `AccessDatabase`): reservations, activations, revocations,
  receipts, grants and nonces, each request one D1 batch.
- **The directory tables** (`DirectoryState`, `DirectoryRuns`,
  `DirectoryDatabase`): publication, expiry and checkpoint batches, each ending
  in an assertion that rolls back a batch whose writes were ignored.
- **Publication across the room and the database** (`PublishedGeneration`).
- **The directory builder** (`BuilderState`, `DirectoryBuilder`,
  `RetentionSweep`, `ExpiryQuantum`): immutable objects, aliases replaced by
  compare-and-swap, checkpoints, retention and the expiry quantum, with other
  writers between any two awaits and a crash at any of them.
- **The HTML page** (`MarkupText`, `HtmlEscaping`, `DirectoryPage`,
  `DirectoryHtml`, `PageLayout`, `HtmlCells`, `HtmlSafety`, `HtmlRoundTrip`):
  the publisher's printer and the verifier's reader, two programs that must undo
  each other.

The source's objects are classes whose methods are proved against
specification functions and relations; its pure code is functions and lemmas.
A field `faulty` says whether writes and closes may fail, and `lossy` whether sends
and other platform calls may; a parameter such as `ignored`, `persists`, `live` or
the `Faults` of a publication carries what the platform or the database answered,
and the contracts hold for every value.

## Findings

Six promises of the source are not met on every input. Each is kept as the code
has it, with an input that breaks it and the exact condition under which it holds.

- **A session can report two metrics.** `src/rendezvous-room.ts:1205-1206`,
  `:1122-1123` and `:1408-1409` read the client attachment before
  `reconcileActiveServer`, which retries an owed control teardown and may end
  that very client and write its summary marker; the handler then overwrites the
  marker with its older copy. `RoomFindings.OwedTeardown` is such a state and
  `RoomFindings.ReportsTwice` runs it to the second metric. For a session not
  reported before, with writes succeeding, the ledger survives a resumed segment
  if and only if no control teardown was owed (`BeginClientTicket`,
  `AcceptAccessInit`, `ResumeServerFrame`); `RoomRuns.Drive` carries the
  condition over every run. The owed teardown and its clients' owed outcomes are
  what a failed replacement leaves behind; the second report also needs the
  recovery request of that failure to be unwritten, because storage refused it too,
  or cleared again, since a new instance that finds it suppresses every summary.
- **The room and D1 can part on a publication.** `src/rendezvous-room.ts:329`
  rotates the room outside the `try` of `:331-365`, and a rotation throws on a
  teardown fault after it has stored the new generation (`:869-877`, `:932-934`).
  `PublishedGeneration.PartedByTeardown` is the input;
  `PublishedGeneration.CommitPublication` gives the condition for every exit.
- **An ambiguous batch is settled only if it can be read.** When either the matcher
  or the reconcile of `src/rendezvous-room.ts:350-364` fails, the room keeps the new
  generation whatever D1 holds; a throwing matcher leaves without any reconcile.
  `PublishedGeneration.PartedByLostBatch` is the input: a room without sockets, a
  batch that never ran and a matcher that cannot be read. Behind the rotation the
  two agree if and only if the publication brings no new generation, its batch
  committed, a heard refusal was reconciled, or matcher and reconcile both worked.
- **"Publisher replay state did not explain rejection"**
  (`src/rendezvous-room.ts:340-343`) is reachable: a refused publication has no
  conflict to report if and only if its server has no replay row yet, or the nonce
  table is full and neither its nonce nor its sequence was used
  (`PublishedGeneration.ConflictExplainsRefusal`, with an input of each kind in
  `PublishedGeneration.RefusedWithoutConflict`).
- **The expiry cutoff is clamped at zero.** `directoryExpiryCutoff`
  (`src/directory-builder.ts:1151-1158`) removes exactly the rows whose quantised
  deadline has passed if and only if the listing time is shorter than the next
  quarter-hour boundary (`ExpiryQuantum.RemovedExactlyWhenDue`).
- **The verifier refuses some published pages**, for two reasons.
  `scripts/static_origin_canary.py:1135-1139` searches the whole page for
  `javascript:`, so a listing on a host ending in `.javascript`, or with the word in
  its name, is published and then refused (`HtmlRoundTrip.PublishedPageRefused`).
  And the two sides check internationalised host labels by different standards:
  `src/hostname.ts:23-43` by non-transitional UTS 46, the reader's
  `canonical_hostname` (`scripts/static_origin_canary.py:180-207`) by the IDNA codec
  of RFC 3490, whose mapping does not return `xn--fa-hia`, the label of a word with
  a sharp s. Every label the first accepts and the second refuses gives such a page
  (`HtmlRoundTrip.PublishedLabelRefused`). A published page round-trips if and only
  if no displayed value holds the word in any case and every host label passes the
  reader's check too (`HtmlRoundTrip.PublishedPageRoundTrips`).

## Model

| member | source | states |
|---|---|---|
| RendezvousRooms.RendezvousRoom.ReconcileActiveServer | src/rendezvous-room.ts:1644-1749 | after a return that did not throw, the returned control is the only open one that claims the room at its generation, or there is none; with writes succeeding it was opened no earlier than any candidate whose teardown was not owed, on a tie its id is the greatest in text order, and there is one exactly when some such candidate stood and no two shared an id; a control is answered only when no teardown was owed, and then the call changed nothing |
| RendezvousRooms.RendezvousRoom.AcceptServer | src/rendezvous-room.ts:718-860 | an accepted control is stored as current and is the only open control that claims the room, and with writes succeeding every earlier readable session is durably ended; on any refusal the new socket holds nothing and at most one owner stays at most one; with nothing failing and every control readable it is refused only when the room is bound to another generation, and then nothing changes |
| RendezvousRooms.RendezvousRoom.FailClient | src/rendezvous-room.ts:1850-1889 | ending a session writes its scrubbed terminal form with the canonical outcome and at most one metric, after its marker; a failed end leaves an open, unchanged socket whose outcome stays owed, and the ledger survives unless the copy it ended had lost the marker |
| RendezvousRooms.RendezvousRoom.FailCurrent | src/rendezvous-room.ts:1850-1889 | with writes succeeding the stored session has lost its ticket, hashes, grant and nonce, keeps its identity and counters, and ends as it had, as it was owed, or as now asked; the one metric it writes, if it had reported none, carries those counters |
| RendezvousRooms.RendezvousRoom.BeginClientTicket | src/rendezvous-room.ts:1182-1338 | at most one frame leaves, for the ticket the session is bound to, while it is live and unexpired; for an unreported session and working writes the one-metric ledger survives if and only if no control teardown was owed; with none owed and nothing failing, a proven candidate of an open, waiting, unexpired session goes to the session's own control exactly when a slot and its digest are free there, opening that session and that ticket and touching nothing else, and any other candidate ends the session by the first condition it lacks |
| RendezvousRooms.RendezvousRoom.HandleClientMessage | src/rendezvous-room.ts:1144-1180 | a client's frame goes on to be hashed exactly when it is an unexpired waiting session's candidate under its own grant; otherwise the session ends expired, in protocol error or unauthorised, in that order |
| RendezvousRooms.RendezvousRoom.AcceptAccessInit | src/rendezvous-room.ts:1112-1142 | a session is confirmed only with its own grant and client nonce, while its redemption is live, and no later than its grant; the ledger survives if and only if no control teardown was owed; with none owed and nothing failing, every such confirmation of an open waiting session of the owning control succeeds and lasts until the earlier of its grant and its policy, and any other ends the session unauthorised |
| RendezvousRooms.RendezvousRoom.HandleServerFrame | src/rendezvous-room.ts:1340-1491 | with no teardown owed, a frame of the owning control for an open, live session with an active unexpired ticket is rechecked if the session was admitted by a grant; otherwise the control is failed, with every session, exactly when the ticket's bytes, twelve candidates or one completion are used up, and keeps its claim when they are not: then, with writes and the send succeeding, exactly this frame leaves, its ticket is charged once, and the session goes on by one frame or ends completed |
| RendezvousRooms.RendezvousRoom.ResumeServerFrame | src/rendezvous-room.ts:1404-1491 | at most one frame of the control's kind reaches the named session, only while live and before its expiry; the ledger survives if and only if no control teardown was owed; with none owed, a live recheck of the same session, control and ticket is answered as any frame: refused exactly beyond the ticket's budget, forwarded once within it |
| RoomAccounts.ChargeMeans | src/rendezvous-room.ts:2511-2540 | a frame is charged exactly while the ticket's bytes stay within 9216 and it has had fewer than twelve candidates, or no completion; then its kind is counted once, its bytes are added, and a completion spends the ticket |
| RendezvousRooms.RendezvousRoom.AdmitClient | src/rendezvous-room.ts:996-1062 | with no teardown owed and nothing failing a session is reserved if and only if the ticket was claimed, the grant still runs, the control selected before the awaits still owns the room at its generation, fewer than 64 sockets exist and fewer than the limit of its sessions are active; it is stored with its metric suppressed, for a session's length or for two seconds to confirm its grant |
| RendezvousRooms.RendezvousRoom.FinishAdmission | src/rendezvous-room.ts:1063-1103 | with no teardown owed and writes succeeding an admission is delivered if and only if it is live, unexpired, open, not ended, and of the room's generation and owning control; only a delivered session may ever report, and one not delivered is, with writes succeeding, durably ended |
| RendezvousRooms.RendezvousRoom.ServerGone | src/rendezvous-room.ts:2130-2270 | when the control that claims the room departs, a normal return leaves every session gone or already reported; the ledger and ownership survive any return |
| RendezvousRooms.RendezvousRoom.ClientGone | src/rendezvous-room.ts:2213-2256 | a departed session owes nothing any more; with writes succeeding it is durably ended and scrubbed, and one that had ended unreported writes exactly its own one metric |
| RendezvousRooms.RendezvousRoom.RotateTokenGeneration | src/rendezvous-room.ts:862-936 | a new generation is stored before any teardown and stays in force when one fails; on success no open control or session of another generation is left; with writes succeeding and every attachment readable it succeeds, and while nothing can be demoted or closed any foreign control makes it fail |
| RendezvousRooms.RendezvousRoom.Quarantine | src/rendezvous-room.ts:2348-2383 | success leaves no open control that claims the room and no session that is neither closed nor durably terminal |
| RendezvousRooms.RendezvousRoom.Reconstruct | src/rendezvous-room.ts:166-208 | a new instance keeps the whole invariant with all ephemeral state lost and honours a stored recovery request first; without a failure it takes the stored generation, and a failure at any step of the constructor, or of dropping that request, leaves it refusing every event, with no owner and every session closed or durably ended whenever the cleanup reports success |
| RendezvousRooms.RendezvousRoom.ReportAgain | src/rendezvous-room.ts:2057-2104 | a session whose marker was lost to a stale copy is reported a second time by the next instance that sees its transport close |
| RoomFindings.OwedTeardown | src/rendezvous-room.ts:1939-1974 | a concrete room inside the invariant with every attachment readable, an unreported session, and the teardown of its control and of that session both owed |
| RoomFindings.ReportsTwice | src/rendezvous-room.ts:1205-1206 | from that room, with every write succeeding, a run ends with two metrics of one connection |
| RoomRuns.Drive | src/rendezvous-room.ts:421-716 | for every sequence of events and faults, failed constructors among them, at every moment: at most one owner; ended sessions stay ended and hold no secret; every frame sent was afforded by its session, its control and its budgets; at most one metric a connection and only if delivered, unless a segment resumed while a teardown was owed |
| RoomAlarm.ScheduleNextAlarm | src/rendezvous-room.ts:2392-2434 | the scheduled time is the least deadline of any session, ticket or ledger row, and absent exactly when there is none |
| RoomAlarm.DeadlineMeans | src/rendezvous-room.ts:2595-2607 | an open session asks to be woken at its deadline, and once ended at 0, 1000, 3000 and 7000 milliseconds after it, once for each close not yet tried |
| RoomAlarm.DeliveryIsDue | src/rendezvous-room.ts:2392-2434 | an alarm delivered no earlier than its scheduled time always finds something due |
| RoomAlarm.AlarmProgress | src/rendezvous-room.ts:651-716 | one alarm that finds something due strictly reduces the work left, whatever closes fail |
| RoomAlarm.AlarmChainEnds | src/rendezvous-room.ts:651-716 | a chain of alarms each finding something due is never longer than the work at its start |
| RoomAlarm.RingUntilQuiet | src/rendezvous-room.ts:651-716 | from any initialised room, whatever it owes or has to recover, with writes succeeding and attachments readable: the modelled alarm, rung again at any delay after each time it schedules, stops scheduling itself, and then nothing is owed, every open session is ended with its four closes tried, the owning control has no ticket and the ledger is empty; from a room that owes nothing it rings no more often than the work at its start |
| Attachments.DecodesExactlyEncodings | src/rendezvous-attachments.ts:155-514 | a stored value decodes to an attachment if and only if the attachment is valid and the value is its encoding |
| Attachments.EncodeInjective | src/rendezvous-attachments.ts:168-183 | two valid attachments with one encoding are the same attachment |
| ReplayLedger.AdmissionStore.ConsumeAndClaim | src/rendezvous-admission.ts:208-348 | one attempt prunes, counts, refuses or claims as specified, keeps tags pairwise distinct over both columns, and never drops a row still inside its window; what it answers is pinned down by ReplayRuns.AnsweredByMemory |
| ReplayLedger.AdmissionStore.EarliestRetainedExpiry | src/rendezvous-admission.ts:350-369 | the least moment at which some row leaves the window, absent exactly when the ledger is empty |
| ReplayRuns.RunKeepsLedgerValid | src/rendezvous-admission.ts:208-348 | in every state of every run the ledger is within its ceiling, holds only claimed rows, and no tag stands in it twice over both columns |
| ReplayRuns.AnsweredByMemory | src/rendezvous-admission.ts:208-348 | in every run from an empty ledger, with a valid clock, no more overdue rows than one prune removes, room below the ceiling and a row id left, a ticket is refused as a replay if and only if the run accepted the same ticket inside the window under a ring that shares a key with the present one, and is accepted otherwise; each of those four conditions has its own answer |
| ReplayRuns.ReplayOnlyOfAccepted | src/rendezvous-admission.ts:308-326 | a replay is only ever answered for a ticket an earlier event of the run accepted |
| ReplayRuns.ReplayRefusedAcrossRotation | src/privacy.ts:142-172 | when key rotations are a window apart, a ticket accepted once is not accepted again inside the window, whichever keys tag it |
| ReplayRuns.ReplaySafetyIffSpaced | src/rendezvous-admission.ts:208-348 | every run is free of replays if and only if rotations are spaced by at least the window |
| Decimals.AfterIsNumericOrder | src/access-route-state.ts:68-72 | the length-then-text guard is numeric order on canonical sequences of any length, and equal numbers are equal texts |
| Decimals.ComparisonIsNumeric | src/rendezvous-room.ts:2685-2693 | the room's three-way comparison has the sign of the numeric difference |
| Decimals.MinimumNextIsLeastAdmitted | src/rendezvous-room.ts:2695-2701 | the hint in a replay refusal is canonical and the least sequence the guard admits, exactly while one is left |
| AccessState.MutationKeepsValid | src/access-route-state.ts:37-148 | every mutation keeps the receipt and nonce ceilings with the room owed to revocations, the route ceilings, unique tokens and grant ownership |
| AccessState.RevocationAlwaysCommits | src/access-route-state.ts:55-148 | a revocation of an owned live route with a later sequence, an unseen nonce and an unused request id commits however full the tables are, revokes the route and drops its grants |
| AccessDecisions.FenceExactly | src/access-route-state.ts:55-80 | once a batch of expired nonces is gone a request is answered if and only if its owner is known, its sequence is a larger number, its nonce is unseen and the shared nonce ceiling holds its budget; otherwise nothing else is written |
| AccessDecisions.ReserveAnswered | src/access-route-state.ts:81-152 | every answer of a reservation in the rows' own fields: taken, ended, known, lapsed, no fresh presence or a full table refuse it, and otherwise exactly the reserved row for one minute under the drawn handle is written |
| AccessDecisions.ActivateAnswered | src/access-route-state.ts:100-158 | an activation takes effect exactly with the stored handle, revision and expiry, before the minute and the expiry have passed, on a route still reserved; a lapsed one ends the route and any other mismatch conflicts |
| AccessDecisions.RevokeAnswered | src/access-route-state.ts:100-172 | an unknown route leaves a revoked row behind if the table has room; a known one is revoked in place under the numerically later revision and loses exactly its grants |
| AccessDecisions.StoredAnswered | src/access-route-state.ts:182-201 | a stored receipt answers its own request, or a lookup of it; anything else under its id conflicts, a lookup without one finds nothing, and none of them changes a row |
| AccessDecisions.ReservationActivates | src/access-route-state.ts:115-120 | in every run, an activation in time after an undisturbed reservation is answered as active and activates the row if it brings the answered handle, revision and expiry, and otherwise conflicts and changes no route |
| AccessDecisions.ActiveByAnsweredHandle | src/access-route-state.ts:100-158 | in every run from no routes, an active row was reserved by an answered reservation and then activated in time by a request that brought the very handle of that answer |
| AccessDecisions.RevokedStaysRevoked | src/access-route-state.ts:103-124 | while a revoked row is retained, every later reservation or activation of it answers revoked and changes no route |
| AccessRuns.RunKeepsValid | src/access-route-state.ts:37-224 | both shared ceilings and every constraint hold in every state of every run of mutations, cleanups, grants, redemptions, publications, resolve-time expiries, nonce sweeps and operator retirements |
| AccessRuns.RunAdvances | migrations/0014_access_token_routing.sql:55-66 | along every run a retained route keeps its owner and token and its state never moves back |
| AccessRuns.RetryInRun | src/access-route-state.ts:37-201 | while a request's receipt is retained, any retry in any run is refused or gets the first answer, and changes no route, receipt or grant |
| AccessRuns.RunSequences | src/access-route-state.ts:55-80 | along a run an owner's accepted sequence never falls and rises strictly with each accepted request, as long as no operator retires the server |
| AccessRuns.StepSequences | scripts/admin_sql.py:86-118 | a step removes an owner's replay row if and only if it retires that server, and every other step keeps its sequence or raises it |
| AccessRuns.RetirementRestarts | scripts/admin_sql.py:86-118 | a concrete run in which a retirement lets an owner publish below the sequence it had reached |
| AccessRuns.RevokedSessionNeverLiveAgain | src/access-grants.ts:94-109 | after a revocation commits, no session redeemed on that route passes the dispatch recheck in any later state of any run |
| AccessRuns.GrantRedeemedOnce | src/access-grants.ts:62-92 | while its row is retained a grant is redeemed at most once in every run |
| AccessDatabase.Database.Mutate | src/access-route-state.ts:37-201 | the batch, statement by statement, is the specified transaction, whose every answer and row effect the lemmas of AccessDecisions state in the rows' own fields; no capacity trigger or key of the schema is ever violated on the way |
| AccessDatabase.Database.CleanupAccessState | src/access-route-state.ts:208-224 | four bounded steps remove only expired rows, end only expired live routes and drop only retired routes without receipts, at most one batch each, and a step short of its batch leaves none behind |
| AccessDecisions.CleanedMeans | src/access-route-state.ts:208-224 | what a cleanup removes, in the rows' own fields: grants and receipts only once expired, routes ended only past their deadline, and deleted only ninety days after they ended without a receipt of their token |
| AccessDecisions.CleanedShort | src/access-route-state.ts:208-224 | a kind with no more than 256 due rows has none left after a cleanup |
| AccessDecisions.IssuedMeans | src/access-grants.ts:25-60 | a grant is stored, for fifteen seconds, if and only if its route is active and unexpired, its server protected, seen within the freshness, complete, not denied and at the expected generation, both ceilings have room and neither alias is taken |
| AccessDecisions.RedeemedMeans | src/access-grants.ts:63-92 | a grant is redeemed if and only if it is the only one that answers: same server, generation and nonce, unexpired, unused, with its route in force at its revision and generation; no other grant changes |
| AccessDatabase.Database.RedeemAccessGrant | src/access-grants.ts:63-92 | a redemption marks exactly the one unexpired, unredeemed matching grant on a live reachable route, or none |
| AccessDatabase.Database.IssueAccessGrant | src/access-grants.ts:25-60 | a grant is stored exactly when its route is reachable at the expected generation and neither alias nor ceiling is taken; expired grants leave by at most one batch, and no trigger or key is violated |
| AccessDatabase.Database.IsAccessRedemptionLive | src/access-grants.ts:95-109 | the recheck passes exactly while an unexpired grant with this redemption stands on a reachable route of its own revision and generation, and such a route is active |
| AccessDatabase.TakeBatch | src/access-route-state.ts:209-224 | a limited selection takes the whole matching set or exactly the limit, and nothing else |
| DirectoryDatabase.AssertedPublicationIsComplete | src/rendezvous-publication.ts:97-216 | for every set of ignored writes, a publication batch that passes its assertion has exactly the complete effect; with none ignored it passes |
| DirectoryDatabase.AssertedExpiryIsComplete | src/directory-state.ts:414-574 | the same for an expiry: complete or rolled back, whatever was ignored |
| DirectoryDatabase.AssertedCommitIsComplete | src/directory-state.ts:124-328 | the same for a checkpoint: it passes only for a later generation of the newest revision or the very same checkpoint again, with the complete effect |
| DirectoryRuns.CommittedPublication | src/rendezvous-publication.ts:97-216 | a committed publication in the tables' own fields: its entry, presence, replay and nonce rows, every other row kept, and the revision moved exactly when the shown directory changed |
| DirectoryDatabase.Database.PersistSignedPublication | src/rendezvous-publication.ts:97-216 | whatever is ignored the tables end as the complete publication, as the nonce cleanup alone, or unchanged, and stay consistent; an accepted one raises the revision, with its one outbox row, if and only if an entry changes or a public row too old to be shown is fresh again, so a heartbeat of an unchanged listing keeps both; with nothing ignored it is refused exactly for a used nonce, a full nonce table or a sequence not larger, and aborted exactly for a full profile |
| DirectoryDatabase.Database.ExpireDirectoryEntries | src/directory-state.ts:414-574 | exactly the rows not seen since the cutoff go, with their entries, or nothing does; the revision moves, with its one outbox row, if and only if an entry went; a cutoff in the future is refused; with nothing ignored it succeeds |
| DirectoryDatabase.Database.CommitArtifactPublication | src/directory-state.ts:124-328 | with nothing ignored a well-formed checkpoint commits if and only if it is of the newest revision and of a later generation, or the same again; then it is the checkpoint, the outbox is empty, its generation is in the ledger of at most eight, and no listing changed; otherwise nothing did |
| DirectoryState.FullLedgerKeepsSeven | src/directory-state.ts:200-244 | a commit of a new generation over a full ledger keeps it and exactly the seven newest predecessors |
| DirectoryState.CommitRetainsPredecessors | src/directory-state.ts:200-244 | a predecessor survives a commit if and only if the generation was already in the ledger or fewer than seven are newer |
| DirectoryRuns.RunKeepsConsistent | migrations/0006_directory_artifacts.sql:86-112 | in every state of every run the outbox holds exactly the newest revision while the checkpoint is behind it, and is empty otherwise |
| DirectoryRuns.RevisionFixesListing | src/directory-state.ts:124-328 | revisions and checkpoints never fall, and between two states of one revision the listing did not change |
| DirectoryRuns.PublishedListingIsCurrent | src/directory-builder.ts:305-550 | a listing read at one state and committed later under its revision is still the listing at every later state whose outbox is empty and whose checkpoint is that commit |
| PublishedGeneration.CommitPublication | src/rendezvous-room.ts:311-367 | for every exit whether room and stored generation agree: before the rotation as soon as the stored generation could be read and kept; not on a torn rotation; behind it if and only if the publication brings no new generation, the batch's reply says it committed, a heard refusal was reconciled, or matcher and reconcile both worked, where the reply is tied to what the batch did to the tables and, with no write ignored, decided by sequence, nonces and capacity; a sound room with working reads gets past the rotation exactly when the expected generation is the stored one, a heard acceptance is answered as such, and a committed batch nobody wrote over is always recognised |
| PublishedGeneration.PartedByTeardown | src/rendezvous-room.ts:862-936 | an input on which the room is on the new generation and D1 on the old one although every read and storage write would succeed |
| PublishedGeneration.PartedByLostBatch | src/rendezvous-room.ts:349-364 | an input without sockets or room faults on which the room is on the new generation and D1 on the old one because the batch never ran and the matcher threw |
| PublishedGeneration.ReconcilePublishedGeneration | src/rendezvous-room.ts:408-419 | an answered and stored reconcile makes room and D1 agree; an unanswered or unstored one leaves the room's generation alone |
| PublishedGeneration.ConflictMeans | src/rendezvous-room.ts:369-396 | a publication conflicts if and only if its owner's sequences are used up, its nonce is used or its sequence is not larger; the answer names the next sequence, or that none is left |
| PublishedGeneration.ConflictExplainsRefusal | src/rendezvous-room.ts:369-396 | a refused publication reports no conflict if and only if its server has no replay row, or the nonce table is full and neither its nonce nor its sequence was used |
| PublishedGeneration.RefusedWithoutConflict | src/rendezvous-room.ts:340-343 | two consistent tables, with and without a replay row, at which a publication is refused with nothing to report |
| ExpiryQuantum.RemovedExactlyWhenDue | src/directory-builder.ts:1151-1158 | the cutoff removes exactly the rows whose quantised deadline has been reached, if and only if the listing time is shorter than the next boundary |
| ExpiryQuantum.ExpiryKeepsUnexpiredRows | src/directory-builder.ts:282-303 | in the tables, a row remains after an expiry if and only if its quantised deadline is still ahead |
| ExpiryQuantum.SnapshotExpiry | src/directory-builder.ts:696-775 | the snapshot expiry is the latest quarter hour that outlives neither the artifact lifetime nor any row; reading fails if and only if some row's quantised deadline has passed |
| ExpiryQuantum.NoExpiredPresence | src/directory-builder.ts:773-775 | the expired-presence error cannot be reached by a read at the time of an expiry |
| ExpiryQuantum.MinimumTtlIsTight | src/config.ts:20-25 | every fresh row outlives the alias publication window at every clock value if and only if the listing time has the configured minimum |
| ExpiryQuantum.RefreshIsAhead | src/config.ts:226-235 | a fresh publication is never already due for its own refresh, for every lead the configuration admits |
| BuilderState.RunEvolves | src/directory-builder.ts:305-550 | in every run of allowed writes alias generations never fall, a bound generation keeps its content, and every checkpointed generation is carried by all four aliases |
| BuilderState.OneGenerationOneContent | src/directory-builder.ts:1412-1533 | the generation of an alias or object never changes its bytes in any later world |
| DirectoryBuilder.Builder.ReadModel | src/directory-builder.ts:679-775 | the model has one item per ranked server, the k-th being that server with its present entry; its time is the later of the clock and the last change, and its expiry no earlier than any quarter hour every row affords |
| DirectoryBuilder.Builder.BuildCurrent | src/directory-builder.ts:305-550 | with any other writers between awaits and a crash at any of them the world only moves forward, and a published outcome means checkpoint and all four aliases carry at least its generation; alone, it publishes exactly its checkpoint, whose model, while its revision stands, lists exactly the ranked servers in order with their entries, and it loses no acknowledged object; "current" is answered only for such a checkpoint in place; once the world is calm one build of a listing that affords an alias lifetime ends published or current, purged, with nothing owed |
| DirectoryBuilder.Builder.ReserveBuild | src/directory-builder.ts:801-845 | a reservation is resumed if and only if it has the same revision and model, is unexpired, outlived by the new read, above the checkpoint and not behind any alias; any other takes an unused generation above the checkpoint and every observed one |
| DirectoryBuilder.Builder.PutPublicAlias | src/directory-builder.ts:1476-1533 | success means the alias carries these bytes, no newer generation is overwritten, and a builder alone meets no conflict with an older alias |
| DirectoryBuilder.Builder.CommitGeneration | src/directory-builder.ts:478-530 | a commit error is settled by reading back: going on means the checkpoint has reached this generation, and alone is exactly this build's |
| DirectoryBuilder.Builder.PruneImmutableGenerations | src/directory-builder.ts:987-1038 | a retention pass deletes a bounded number of objects and, alone, none of an acknowledged, checkpointed or pending generation; in a calm world a pass short of its bound leaves no other listed object |
| DirectoryBuilder.Builder.Reconcile | src/directory-builder.ts:282-303 | a whole reconciliation, crashing anywhere, only moves the world forward, never ends superseded, and alone loses no acknowledged object; in a calm world whose expired tables can be published it ends with the newest revision published and nothing owed |
| DirectoryBuilder.Builder.Serve | src/directory-builder.ts:223-303 | the same over any sequence of reconciliations of one durable state |
| RetentionSweep.GenerationBucket.PrunePage | src/directory-builder.ts:1738-1788 | a page keeps every retained name, deletes at most one batch, and a deferred page leaves everything before its cursor clean and moves closer to the end |
| RetentionSweep.GenerationBucket.Sweep | src/directory-builder.ts:987-1038 | passes over a fixed retained set end, and leave exactly the retained names |
| HtmlEscaping.SequentialIsOnePass | src/directory-artifacts.ts:854-869 | five successive replacements produce on every text what the one-pass escape produces |
| HtmlEscaping.UnescapeEscape | scripts/static_origin_canary.py:1007-1015 | decoding undoes escaping on every text, and an escaped text holds no angle bracket |
| HtmlEscaping.EscapeContains | scripts/static_origin_canary.py:1135-1139 | escaping neither hides nor makes an occurrence of the searched word |
| HtmlCells.RowReads | scripts/static_origin_canary.py:1142-1146 | the search for cells finds every cell of a printed row, in order and whole |
| HtmlRoundTrip.TableReads | scripts/static_origin_canary.py:1142-1146 | the rows with data cells found in a page are exactly its listings' rows, each with its cells |
| HtmlSafety.RefusedExactly | scripts/static_origin_canary.py:1135-1139 | the safety check refuses a rendered page if and only if some displayed value holds the word, in any case |
| HtmlRoundTrip.AcceptsExactlyRendered | scripts/static_origin_canary.py:1127-1178 | the reader returns a snapshot for a text if and only if the snapshot is admissible, its host labels pass the reader's own check, it shows no refused word, and the text is the publisher's page for it |
| HtmlRoundTrip.PublishedPageRoundTrips | src/directory-artifacts.ts:570-680 | reading a published page gives back the whole snapshot, or nothing exactly when it shows the refused word or a host label that passed the publisher's check and not the reader's |
| HtmlRoundTrip.PageShows | src/directory-artifacts.ts:632-680 | the k-th row found in a page shows the k-th listing: under each heading of its profile stands that field, escaped, as code where the template says so, with an absent region or endpoint and the access policy in the template's words |
| HtmlRoundTrip.PageDetermines | src/directory-artifacts.ts:570-680 | two admissible snapshots with one page are the same snapshot |
| HtmlRoundTrip.PublishedPageRefused | scripts/static_origin_canary.py:1135-1139 | a concrete publishable listing, without markup in its values, whose page the reader refuses whatever its host check |
| HtmlRoundTrip.PublishedLabelRefused | scripts/static_origin_canary.py:180-207 | for every internationalised label the publisher accepts there is a published page without the refused word that the reader refuses if and only if its own check refuses the label |

## Left out

- Close codes and reasons: a session's end is its outcome; the code sent with it is not modelled.
- Cryptography: digests, ticket hashes, HMAC tags and signatures are opaque values that differ for different inputs and keys.
- Clocks, random ids and database answers are parameters; ids are assumed never drawn twice.
- Rate and request budgets (src/access-budget.ts, src/rate-limit.ts): counters whose laws are one inequality each.
- Activity tables, ranking scores and administrative pins: a ranked order is a parameter of a build, and activity writes of a publication are not in the tables.
- Profile rewriting: legacy profile names in publication and replay reads are not modelled.
- Server denials are part of the access tables but not of the directory's listing.
- PublishedGeneration.CommitPublication: D1 expiry of the server's own presence row between the room's last read and its return is not interleaved, because another writer may then change what was agreed on at any moment.
- RendezvousRooms.RendezvousRoom.Alarm: the retry timing after a failed recovery and after `observeControlFailure` is the platform's and not modelled.
- RoomAlarm.RingUntilQuiet: stated while writes succeed, attachments can be read and nothing new arrives; a socket that can neither be read nor closed is left to the platform's own retries. Clock values beyond the safe-integer bound end the loop.
- DirectoryBuilder.Builder.Reconcile: that no acknowledged object is lost is stated for a builder without a second instance; with one, retention sets read at different moments may cross.
- DirectoryBuilder.Builder.Serve: loss of the builder's own storage, writes of a dead instance that land later, and alias objects altered from outside the service are not in the world.
- Purging of the edge cache is a success or a failure.
- Attachments.DecodesExactlyEncodings: negative zero and sparse arrays of the host language have no counterpart in the stored values.
- Byte limits of rendered artifacts, UTF-8 coding and the JSON and XML forms are not modelled; text is a sequence of scalar values.
- DirectoryHtml: of HTML's character references only the five the printer writes are decoded; a page with any other differs from every rendered page and is refused either way. Lower-casing is that of ASCII: the two other characters whose lower case holds an ASCII letter cannot complete a searched word.
- Each side's check of an internationalised host label is a parameter; the tables of UTS 46 and RFC 3490 are not modelled. The rest of the host grammar is the same on both sides.
- The HTTP surface, the workers' routing and the edge origins.
