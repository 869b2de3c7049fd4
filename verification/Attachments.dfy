/**
 The attachment codec: the compact structured-clone value that hibernation
 keeps beside each WebSocket, and the strict decoder that guards every read.
 */
module Attachments {
  import opened Options

  const ATTACHMENT_VERSION: int := 4
  const MAX_SAFE_INTEGER: int := 9007199254740991
  const MAX_RETAINED_TICKETS: nat := 50
  const MAX_SESSION_MS: int := 15000
  const RETRY_HORIZON_MS: int := 7000
  const MAX_CLOSE_ATTEMPTS: int := 4
  const MAX_CLIENT_CANDIDATES: int := 1
  const MAX_SERVER_CANDIDATES: int := 12
  const MAX_COMPLETIONS: int := 1
  const MAX_CLIENT_AUTHORIZATION_FRAMES: int := 2
  const MAX_SERVER_AUTHORIZATION_FRAMES: int := 2
  const MAX_SIGNAL_BYTES: int := 512
  const MAX_SESSION_SIGNAL_BYTES: int := 512 * 4 + 512 * 14

  // ---- the stored value ---------------------------------------------------------

  /** Own property names: the letters the codec uses, and any other name. */
  datatype Key =
    | V | R | U | E | L | W | AE | C | G | I | A | O | X | T | D | S | P | H | J | N | Q | Z | B | F | M | Y | K
    | Other(name: string)

  /** A structured-clone value; numbers that are no integers carry no further detail. */
  datatype Value =
    | Null
    | Undefined
    | Bool(flag: bool)
    | Number(n: int)
    | Fraction
    | Text(text: string)
    | List(items: seq<Value>)
    | Record(fields: map<Key, Value>)

  // ---- the decoded attachments ----------------------------------------------------

  datatype Outcome =
    | Completed | ClientDisconnected | SessionExpired | ProtocolError
    | ServerUnavailable | ServerReplaced | AuthorizationFailed | InternalError

  datatype Stage = AwaitingCandidate | CandidateExchange | Terminal
  datatype Authorization = NotRequired | AwaitingInit | Ended

  datatype ClientAttachment = ClientAttachment(
    controlId: string, generation: string, connectionId: string, admissionId: int,
    openedAt: int, expiresAt: int, boundTicketHash: Option<string>,
    accessClientNonce: Option<string>, accessExpiresAt: Option<int>, accessGrant: Option<string>,
    accessRedemption: Option<string>, ticket: Option<string>, ticketDigest: Option<string>,
    stage: Stage, authorization: Authorization,
    clientAuthorizationFrames: int, serverAuthorizationFrames: int,
    clientCandidates: int, serverCandidates: int, completionCount: int,
    signalBytes: int, framesForwarded: int, summaryEmitted: bool,
    terminalOutcome: Option<Outcome>, terminalCloseAttempts: int)

  datatype TicketStage = Active | Spent

  datatype TicketState = TicketState(
    ticketDigest: string, clientConnectionId: string, openedAt: int, expiresAt: int, stage: TicketStage,
    serverCandidates: int, completionCount: int, signalBytes: int,
    clientAuthorizationFrames: int, serverAuthorizationFrames: int)

  datatype ServerAttachment = ServerAttachment(
    current: bool, accessProtocol: bool, controlId: string, generation: string, openedAt: int,
    tickets: seq<TicketState>)

  datatype Attachment = Client(client: ClientAttachment) | Server(server: ServerAttachment)

  // ---- scalar checks ----------------------------------------------------------------

  predicate IsLowerHex(c: char) {
    '0' <= c <= '9' || 'a' <= c <= 'f'
  }

  predicate Hex64(s: string) {
    |s| == 64 && forall k :: 0 <= k < |s| ==> IsLowerHex(s[k])
  }

  /** A lower-case version-4 UUID. */
  predicate ConnectionId(s: string) {
    && |s| == 36
    && s[8] == s[13] == s[18] == s[23] == '-'
    && s[14] == '4' && s[19] in "89ab"
    && forall k :: 0 <= k < |s| && k !in {8, 13, 18, 23} ==> IsLowerHex(s[k])
  }

  predicate Timestamp(n: int) {
    0 <= n <= MAX_SAFE_INTEGER
  }

  predicate IsHex64(v: Value) {
    v.Text? && Hex64(v.text)
  }

  predicate IsConnectionId(v: Value) {
    v.Text? && ConnectionId(v.text)
  }

  predicate IsSafeInteger(v: Value) {
    v.Number? && -MAX_SAFE_INTEGER <= v.n <= MAX_SAFE_INTEGER
  }

  predicate IsTimestamp(v: Value) {
    IsSafeInteger(v) && v.n >= 0
  }

  predicate IsPositiveInteger(v: Value) {
    IsSafeInteger(v) && v.n >= 1
  }

  predicate IsBoundedInteger(v: Value, low: int, high: int) {
    IsSafeInteger(v) && low <= v.n <= high
  }

  function Outcomes(): seq<Outcome> {
    [Completed, ClientDisconnected, SessionExpired, ProtocolError, ServerUnavailable, ServerReplaced,
     AuthorizationFailed, InternalError]
  }

  function EncodeOutcome(o: Outcome): int {
    match o
    case Completed => 0
    case ClientDisconnected => 1
    case SessionExpired => 2
    case ProtocolError => 3
    case ServerUnavailable => 4
    case ServerReplaced => 5
    case AuthorizationFailed => 6
    case InternalError => 7
  }

  function DecodeOutcome(v: Value): Option<Outcome> {
    if v.Null? || !IsSafeInteger(v) || v.n < 0 || v.n >= |Outcomes()| then None else Some(Outcomes()[v.n])
  }

  function EncodeStage(s: Stage): int {
    if s == AwaitingCandidate then 0 else if s == CandidateExchange then 1 else 2
  }

  function DecodeStage(n: int): Stage {
    if n == 0 then AwaitingCandidate else if n == 1 then CandidateExchange else Terminal
  }

  function EncodeAuthorization(a: Authorization): int {
    if a == NotRequired then 0 else if a == AwaitingInit then 1 else 6
  }

  function DecodeAuthorization(v: Value): Option<Authorization> {
    if v == Number(0) then Some(NotRequired)
    else if v == Number(1) then Some(AwaitingInit)
    else if v == Number(6) then Some(Ended)
    else None
  }

  function OptionalText(o: Option<string>): Value {
    if o.Some? then Text(o.value) else Null
  }

  function TextOption(v: Value): Option<string> {
    if v.Text? then Some(v.text) else None
  }

  // ---- clients -------------------------------------------------------------------------

  function ClientKeys(): set<Key> {
    {V, R, C, G, I, A, O, X, T, D, S, P, H, J, N, Q, Z, B, F, M, Y, K, U, E, L, W, AE}
  }

  datatype StoredClient = StoredClient(
    v: Value, r: Value, u: Value, e: Value, l: Value, w: Value, ae: Value, c: Value, g: Value, i: Value,
    a: Value, o: Value, x: Value, t: Value, d: Value, s: Value, p: Value, h: Value, j: Value, n: Value,
    q: Value, z: Value, b: Value, f: Value, m: Value, y: Value, k: Value)

  function ClientSlot(s: StoredClient, key: Key): Value {
    match key
    case V => s.v case R => s.r case U => s.u case E => s.e case L => s.l case W => s.w case AE => s.ae
    case C => s.c case G => s.g case I => s.i case A => s.a case O => s.o case X => s.x case T => s.t
    case D => s.d case S => s.s case P => s.p case H => s.h case J => s.j case N => s.n case Q => s.q
    case Z => s.z case B => s.b case F => s.f case M => s.m case Y => s.y case K => s.k
    case Other(_) => Undefined
  }

  function ClientRecord(s: StoredClient): map<Key, Value> {
    map key | key in ClientKeys() :: ClientSlot(s, key)
  }

  function ClientFields(f: map<Key, Value>): StoredClient
    requires f.Keys == ClientKeys()
  {
    StoredClient(f[V], f[R], f[U], f[E], f[L], f[W], f[AE], f[C], f[G], f[I], f[A], f[O], f[X], f[T], f[D],
                 f[S], f[P], f[H], f[J], f[N], f[Q], f[Z], f[B], f[F], f[M], f[Y], f[K])
  }

  function StoreClient(a: ClientAttachment): StoredClient {
    StoredClient(
      Number(ATTACHMENT_VERSION), Text("c"), OptionalText(a.accessGrant), OptionalText(a.accessRedemption),
      OptionalText(a.boundTicketHash), OptionalText(a.accessClientNonce),
      if a.accessExpiresAt.Some? then Number(a.accessExpiresAt.value) else Null,
      Text(a.controlId), Text(a.generation), Text(a.connectionId), Number(a.admissionId), Number(a.openedAt),
      Number(a.expiresAt), OptionalText(a.ticket), OptionalText(a.ticketDigest), Number(EncodeStage(a.stage)),
      Number(EncodeAuthorization(a.authorization)), Number(a.clientAuthorizationFrames),
      Number(a.serverAuthorizationFrames), Number(a.clientCandidates), Number(a.serverCandidates),
      Number(a.completionCount), Number(a.signalBytes), Number(a.framesForwarded), Bool(a.summaryEmitted),
      if a.terminalOutcome.Some? then Number(EncodeOutcome(a.terminalOutcome.value)) else Null,
      Number(a.terminalCloseAttempts))
  }

  function EncodeClient(a: ClientAttachment): Value {
    Record(ClientRecord(StoreClient(a)))
  }

  predicate AccessGroup(u: Value, e: Value, w: Value, ae: Value, o: Value) {
    || (u.Null? && e.Null? && w.Null? && ae.Null?)
    || (IsHex64(u) && IsHex64(e) && IsHex64(w) && IsTimestamp(ae) && IsTimestamp(o) &&
        ae.n > o.n && ae.n - o.n <= MAX_SESSION_MS)
  }

  /** The decoder's first test: each field's own shape. */
  predicate ClientFieldsAccepted(s: StoredClient) {
    && s.v == Number(ATTACHMENT_VERSION) && s.r == Text("c")
    && AccessGroup(s.u, s.e, s.w, s.ae, s.o)
    && !(s.s == Number(2) && !(s.u.Null? && s.e.Null? && s.w.Null?))
    && (if s.s == Number(2) then s.l.Null? else IsHex64(s.l))
    && IsConnectionId(s.c) && IsHex64(s.g) && IsConnectionId(s.i)
    && IsPositiveInteger(s.a) && IsTimestamp(s.o) && IsTimestamp(s.x)
    && s.x.n > s.o.n && s.x.n - s.o.n <= MAX_SESSION_MS
    && s.s in {Number(0), Number(1), Number(2)}
    && s.p in {Number(0), Number(1), Number(6)}
    && IsBoundedInteger(s.h, 0, MAX_CLIENT_AUTHORIZATION_FRAMES)
    && IsBoundedInteger(s.j, 0, MAX_SERVER_AUTHORIZATION_FRAMES)
    && IsBoundedInteger(s.n, 0, MAX_CLIENT_CANDIDATES)
    && IsBoundedInteger(s.q, 0, MAX_SERVER_CANDIDATES)
    && IsBoundedInteger(s.z, 0, MAX_COMPLETIONS)
    && IsBoundedInteger(s.b, 0, MAX_SESSION_SIGNAL_BYTES)
    && IsBoundedInteger(s.f, 0, MAX_CLIENT_AUTHORIZATION_FRAMES + MAX_SERVER_AUTHORIZATION_FRAMES +
                                MAX_CLIENT_CANDIDATES + MAX_SERVER_CANDIDATES + MAX_COMPLETIONS)
    && s.m.Bool?
    && IsBoundedInteger(s.k, 0, MAX_CLOSE_ATTEMPTS)
    && s.x.n <= MAX_SAFE_INTEGER - RETRY_HORIZON_MS
  }

  /** The decoder's second test: how the fields of one lifecycle stage fit together. */
  predicate ClientStageAccepted(s: StoredClient)
    requires ClientFieldsAccepted(s)
  {
    var outcome := DecodeOutcome(s.y);
    var authorization := DecodeAuthorization(s.p);
    var stage := s.s.n;
    var accepted := s.h.n + s.j.n + s.n.n + s.q.n + s.z.n;
    var paired := (s.t.Null? && s.d.Null?) || (IsHex64(s.t) && IsHex64(s.d));
    var ticketIsNull := s.t.Null?;
    && authorization.Some?
    && !(!s.y.Null? && outcome.None?)
    && ((stage == 2) == outcome.Some?)
    && paired
    && s.h.n == 0 && s.j.n == 0
    && !(s.f.n > accepted)
    && ((accepted == 0) == (s.b.n == 0))
    && !(s.z.n == MAX_COMPLETIONS && stage != 2)
    && !(stage == 0 && (s.n.n != 0 || s.q.n != 0 || s.z.n != 0))
    && !(stage == 1 && (ticketIsNull || s.n.n != MAX_CLIENT_CANDIDATES || s.z.n != 0))
    && !(stage == 2 && !ticketIsNull)
    && ((stage == 2) == (authorization.value == Ended))
    && !(stage != 2 && s.k.n != 0)
    && !(authorization.value == AwaitingInit && (stage != 0 || !ticketIsNull || accepted != 0))
    && !(authorization.value == NotRequired && ((stage == 0 && !ticketIsNull) || (stage == 1 && ticketIsNull)))
    && !(stage == 1 && authorization.value != NotRequired)
  }

  function LoadClient(s: StoredClient): ClientAttachment
    requires ClientFieldsAccepted(s) && ClientStageAccepted(s)
  {
    ClientAttachment(
      s.c.text, s.g.text, s.i.text, s.a.n, s.o.n, s.x.n, TextOption(s.l),
      TextOption(s.w), if s.ae.Number? then Some(s.ae.n) else None, TextOption(s.u),
      TextOption(s.e), TextOption(s.t), TextOption(s.d),
      DecodeStage(s.s.n), DecodeAuthorization(s.p).value,
      s.h.n, s.j.n, s.n.n, s.q.n, s.z.n, s.b.n, s.f.n, s.m.flag, DecodeOutcome(s.y), s.k.n)
  }

  function DecodeClient(v: Value): Option<ClientAttachment>
    requires v.Record?
  {
    if v.fields.Keys != ClientKeys() then None
    else
      var s := ClientFields(v.fields);
      if !ClientFieldsAccepted(s) || !ClientStageAccepted(s) then None else Some(LoadClient(s))
  }

  // ---- what a well-formed client attachment is -------------------------------------------

  predicate SomeHex(o: Option<string>) {
    o.Some? && Hex64(o.value)
  }

  predicate NoAccess(a: ClientAttachment) {
    a.accessGrant.None? && a.accessRedemption.None? && a.accessClientNonce.None? && a.accessExpiresAt.None?
  }

  predicate HasAccess(a: ClientAttachment) {
    && SomeHex(a.accessGrant) && SomeHex(a.accessRedemption) && SomeHex(a.accessClientNonce)
    && a.accessExpiresAt.Some? && Timestamp(a.accessExpiresAt.value)
    && 0 < a.accessExpiresAt.value - a.openedAt <= MAX_SESSION_MS
  }

  predicate Identified(a: ClientAttachment) {
    && ConnectionId(a.controlId) && Hex64(a.generation) && ConnectionId(a.connectionId)
    && 1 <= a.admissionId <= MAX_SAFE_INTEGER && Timestamp(a.openedAt)
    && 0 < a.expiresAt - a.openedAt <= MAX_SESSION_MS
    && a.expiresAt <= MAX_SAFE_INTEGER - RETRY_HORIZON_MS
  }

  function AcceptedFrames(a: ClientAttachment): int {
    a.clientCandidates + a.serverCandidates + a.completionCount
  }

  predicate WithinBudget(a: ClientAttachment) {
    && a.clientAuthorizationFrames == 0 && a.serverAuthorizationFrames == 0
    && 0 <= a.clientCandidates <= MAX_CLIENT_CANDIDATES
    && 0 <= a.serverCandidates <= MAX_SERVER_CANDIDATES
    && 0 <= a.completionCount <= MAX_COMPLETIONS
    && 0 <= a.framesForwarded <= AcceptedFrames(a)
    && 0 <= a.signalBytes <= MAX_SESSION_SIGNAL_BYTES
    && (AcceptedFrames(a) == 0 <==> a.signalBytes == 0)
  }

  predicate Staged(a: ClientAttachment) {
    match a.stage
    case AwaitingCandidate =>
      && SomeHex(a.boundTicketHash) && a.ticket.None? && a.ticketDigest.None?
      && a.authorization != Ended && AcceptedFrames(a) == 0
      && a.terminalOutcome.None? && a.terminalCloseAttempts == 0
    case CandidateExchange =>
      && SomeHex(a.boundTicketHash) && SomeHex(a.ticket) && SomeHex(a.ticketDigest)
      && a.authorization == NotRequired
      && a.clientCandidates == MAX_CLIENT_CANDIDATES && a.completionCount == 0
      && a.terminalOutcome.None? && a.terminalCloseAttempts == 0
    case Terminal =>
      && Scrubbed(a)
      && a.authorization == Ended
      && a.terminalOutcome.Some? && 0 <= a.terminalCloseAttempts <= MAX_CLOSE_ATTEMPTS
  }

  /** Nothing that identifies the ticket, its grant or its redemption is left. */
  predicate Scrubbed(a: ClientAttachment) {
    a.boundTicketHash.None? && a.ticket.None? && a.ticketDigest.None? && NoAccess(a)
  }

  predicate ValidClient(a: ClientAttachment) {
    Identified(a) && WithinBudget(a) && (NoAccess(a) || HasAccess(a)) && Staged(a)
  }

  // ---- servers ------------------------------------------------------------------------------

  const SERVER_KEYS: set<Key> := {V, R, U, P, C, G, O, T}

  predicate ValidTicket(t: TicketState) {
    && Hex64(t.ticketDigest) && ConnectionId(t.clientConnectionId)
    && Timestamp(t.openedAt) && Timestamp(t.expiresAt) && 0 < t.expiresAt - t.openedAt <= MAX_SESSION_MS
    && 0 <= t.serverCandidates <= MAX_SERVER_CANDIDATES
    && 0 <= t.completionCount <= MAX_COMPLETIONS
    && (t.stage == Active ==> t.completionCount == 0)
    && t.clientAuthorizationFrames == 0 && t.serverAuthorizationFrames == 0
    && 1 <= t.signalBytes <= MAX_SESSION_SIGNAL_BYTES
  }

  predicate DistinctTickets(tickets: seq<TicketState>) {
    forall i, j :: 0 <= i < j < |tickets| ==>
      tickets[i].ticketDigest != tickets[j].ticketDigest &&
      tickets[i].clientConnectionId != tickets[j].clientConnectionId
  }

  predicate ValidServer(a: ServerAttachment) {
    && ConnectionId(a.controlId) && Hex64(a.generation) && Timestamp(a.openedAt)
    && |a.tickets| <= MAX_RETAINED_TICKETS
    && (forall k :: 0 <= k < |a.tickets| ==> ValidTicket(a.tickets[k]))
    && DistinctTickets(a.tickets)
  }

  function EncodeTicket(t: TicketState): Value {
    List([Text(t.ticketDigest), Text(t.clientConnectionId), Number(t.openedAt), Number(t.expiresAt),
          Number(if t.stage == Active then 0 else 1), Number(t.serverCandidates), Number(t.completionCount),
          Number(t.signalBytes), Number(0), Number(t.clientAuthorizationFrames),
          Number(t.serverAuthorizationFrames)])
  }

  predicate IsStoredTicket(v: Value) {
    && v.List? && |v.items| == 11
    && IsHex64(v.items[0]) && IsConnectionId(v.items[1])
    && IsTimestamp(v.items[2]) && IsTimestamp(v.items[3])
    && v.items[3].n > v.items[2].n && v.items[3].n - v.items[2].n <= MAX_SESSION_MS
    && v.items[4] in {Number(0), Number(1)}
    && IsBoundedInteger(v.items[5], 0, MAX_SERVER_CANDIDATES)
    && IsBoundedInteger(v.items[6], 0, MAX_COMPLETIONS)
    && !(v.items[4] == Number(0) && v.items[6] != Number(0))
    && v.items[8] == Number(0) && v.items[9] == Number(0) && v.items[10] == Number(0)
    && IsBoundedInteger(v.items[7], 1, MAX_SESSION_SIGNAL_BYTES)
  }

  function DecodeTicket(v: Value): TicketState
    requires IsStoredTicket(v)
  {
    TicketState(v.items[0].text, v.items[1].text, v.items[2].n, v.items[3].n,
                if v.items[4] == Number(0) then Active else Spent,
                v.items[5].n, v.items[6].n, v.items[7].n, v.items[9].n, v.items[10].n)
  }

  datatype StoredServer = StoredServer(
    v: Value, r: Value, u: Value, p: Value, c: Value, g: Value, o: Value, t: Value)

  function ServerRecord(s: StoredServer): map<Key, Value> {
    map[V := s.v, R := s.r, U := s.u, P := s.p, C := s.c, G := s.g, O := s.o, T := s.t]
  }

  function ServerFields(f: map<Key, Value>): StoredServer
    requires f.Keys == SERVER_KEYS
  {
    StoredServer(f[V], f[R], f[U], f[P], f[C], f[G], f[O], f[T])
  }

  function EncodeTickets(tickets: seq<TicketState>): seq<Value> {
    seq(|tickets|, i requires 0 <= i < |tickets| => EncodeTicket(tickets[i]))
  }

  function StoreServer(a: ServerAttachment): StoredServer {
    StoredServer(Number(ATTACHMENT_VERSION), Text("s"), Bool(a.current), Bool(a.accessProtocol),
                 Text(a.controlId), Text(a.generation), Number(a.openedAt), List(EncodeTickets(a.tickets)))
  }

  function EncodeServer(a: ServerAttachment): Value {
    Record(ServerRecord(StoreServer(a)))
  }

  function DigestsOf(tickets: seq<TicketState>): set<string> {
    set k | 0 <= k < |tickets| :: tickets[k].ticketDigest
  }

  function ConnectionsOf(tickets: seq<TicketState>): set<string> {
    set k | 0 <= k < |tickets| :: tickets[k].clientConnectionId
  }

  predicate ServerFieldsAccepted(s: StoredServer) {
    && s.v == Number(ATTACHMENT_VERSION) && s.r == Text("s")
    && s.u.Bool? && s.p.Bool? && IsConnectionId(s.c) && IsHex64(s.g) && IsTimestamp(s.o)
    && s.t.List? && |s.t.items| <= MAX_RETAINED_TICKETS
    && forall k :: 0 <= k < |s.t.items| ==> IsStoredTicket(s.t.items[k])
  }

  function DecodeTickets(items: seq<Value>): (tickets: seq<TicketState>)
    requires forall k :: 0 <= k < |items| ==> IsStoredTicket(items[k])
  {
    seq(|items|, i requires 0 <= i < |items| => DecodeTicket(items[i]))
  }

  function LoadServer(s: StoredServer): Option<ServerAttachment>
    requires ServerFieldsAccepted(s)
  {
    var tickets := DecodeTickets(s.t.items);
    if |DigestsOf(tickets)| != |tickets| || |ConnectionsOf(tickets)| != |tickets| then None
    else Some(ServerAttachment(s.u.flag, s.p.flag, s.c.text, s.g.text, s.o.n, tickets))
  }

  function DecodeServer(v: Value): Option<ServerAttachment>
    requires v.Record?
  {
    if v.fields.Keys != SERVER_KEYS then None
    else
      var s := ServerFields(v.fields);
      if !ServerFieldsAccepted(s) then None else LoadServer(s)
  }

  // ---- either role ------------------------------------------------------------------------------

  function Encode(a: Attachment): Value {
    if a.Client? then EncodeClient(a.client) else EncodeServer(a.server)
  }

  function Decode(v: Value): Option<Attachment> {
    if !v.Record? || V !in v.fields || v.fields[V] != Number(ATTACHMENT_VERSION) || R !in v.fields then None
    else if v.fields[R] == Text("c") then
      (var a := DecodeClient(v); if a.Some? then Some(Client(a.value)) else None)
    else if v.fields[R] == Text("s") then
      (var a := DecodeServer(v); if a.Some? then Some(Server(a.value)) else None)
    else None
  }

  predicate ValidAttachment(a: Attachment) {
    if a.Client? then ValidClient(a.client) else ValidServer(a.server)
  }

  // ---- the round trips -----------------------------------------------------------------------------

  lemma OutcomeRoundTrip(o: Outcome)
    ensures DecodeOutcome(Number(EncodeOutcome(o))) == Some(o)
  {
  }

  lemma OutcomeCode(v: Value)
    requires DecodeOutcome(v).Some?
    ensures v == Number(EncodeOutcome(DecodeOutcome(v).value))
  {
  }

  lemma ClientKeyIff(key: Key)
    ensures key in ClientKeys() <==> !key.Other?
  {
  }

  lemma ClientRecordSlots(s: StoredClient)
    ensures ClientRecord(s).Keys == ClientKeys()
    ensures forall key: Key :: !key.Other? ==> key in ClientRecord(s) && ClientRecord(s)[key] == ClientSlot(s, key)
  {
    forall key: Key | !key.Other?
      ensures key in ClientKeys()
    {
      ClientKeyIff(key);
    }
    hide ClientSlot, ClientKeys;
  }

  lemma AccessSlots(s: StoredClient, f: map<Key, Value>)
    requires f == ClientRecord(s)
    ensures V in f && R in f && U in f && E in f && L in f && W in f
    ensures f[V] == s.v && f[R] == s.r && f[U] == s.u && f[E] == s.e && f[L] == s.l && f[W] == s.w
  {
    hide ClientRecord, ClientKeys;
    ClientRecordSlots(s);
  }

  lemma IdentitySlots(s: StoredClient, f: map<Key, Value>)
    requires f == ClientRecord(s)
    ensures AE in f && C in f && G in f && I in f && A in f && O in f
    ensures f[AE] == s.ae && f[C] == s.c && f[G] == s.g && f[I] == s.i && f[A] == s.a && f[O] == s.o
  {
    hide ClientRecord, ClientKeys;
    ClientRecordSlots(s);
  }

  lemma StageSlots(s: StoredClient, f: map<Key, Value>)
    requires f == ClientRecord(s)
    ensures X in f && T in f && D in f && S in f && P in f
    ensures f[X] == s.x && f[T] == s.t && f[D] == s.d && f[S] == s.s && f[P] == s.p
  {
    hide ClientRecord, ClientKeys;
    ClientRecordSlots(s);
  }

  lemma CountSlots(s: StoredClient, f: map<Key, Value>)
    requires f == ClientRecord(s)
    ensures H in f && J in f && N in f && Q in f && Z in f
    ensures f[H] == s.h && f[J] == s.j && f[N] == s.n && f[Q] == s.q && f[Z] == s.z
  {
    hide ClientRecord, ClientKeys;
    ClientRecordSlots(s);
  }

  lemma TerminalSlots(s: StoredClient, f: map<Key, Value>)
    requires f == ClientRecord(s)
    ensures B in f && F in f && M in f && Y in f && K in f
    ensures f[B] == s.b && f[F] == s.f && f[M] == s.m && f[Y] == s.y && f[K] == s.k
  {
    hide ClientRecord, ClientKeys;
    ClientRecordSlots(s);
  }

  lemma ClientFieldsOfRecord(s: StoredClient)
    ensures ClientRecord(s).Keys == ClientKeys() && ClientFields(ClientRecord(s)) == s
  {
    hide ClientKeys, ClientRecord, ClientSlot;
    ClientRecordSlots(s);
    AccessSlots(s, ClientRecord(s));
    IdentitySlots(s, ClientRecord(s));
    StageSlots(s, ClientRecord(s));
    CountSlots(s, ClientRecord(s));
    TerminalSlots(s, ClientRecord(s));
  }

  lemma ClientRecordOfFields(f: map<Key, Value>)
    requires f.Keys == ClientKeys()
    ensures ClientRecord(ClientFields(f)) == f
  {
    var s := ClientFields(f);
    forall key | key in ClientKeys()
      ensures ClientSlot(s, key) == f[key]
    {
      assert key in {V, R, C, G, I, A, O, X, T, D, S, P, H, J, N, Q, Z, B, F, M, Y, K, U, E, L, W, AE};
    }
  }

  lemma LoadsStoredClient(a: ClientAttachment)
    requires ValidClient(a)
    ensures ClientFieldsAccepted(StoreClient(a)) && ClientStageAccepted(StoreClient(a))
    ensures LoadClient(StoreClient(a)) == a
  {
    if a.terminalOutcome.Some? {
      OutcomeRoundTrip(a.terminalOutcome.value);
    }
  }

  lemma StoresLoadedClient(s: StoredClient)
    requires ClientFieldsAccepted(s) && ClientStageAccepted(s)
    ensures ValidClient(LoadClient(s)) && StoreClient(LoadClient(s)) == s
  {
    if DecodeOutcome(s.y).Some? {
      OutcomeCode(s.y);
    }
  }

  lemma ClientDecodesEncoded(a: ClientAttachment)
    requires ValidClient(a)
    ensures DecodeClient(EncodeClient(a)) == Some(a)
  {
    hide ValidClient, ClientFieldsAccepted, ClientStageAccepted, LoadClient, StoreClient, ClientRecord, ClientFields;
    ClientFieldsOfRecord(StoreClient(a));
    LoadsStoredClient(a);
  }

  lemma ClientEncodesDecoded(v: Value)
    requires v.Record? && DecodeClient(v).Some?
    ensures ValidClient(DecodeClient(v).value) && EncodeClient(DecodeClient(v).value) == v
  {
    hide ValidClient, ClientFieldsAccepted, ClientStageAccepted, LoadClient, StoreClient, ClientRecord, ClientFields;
    ClientRecordOfFields(v.fields);
    StoresLoadedClient(ClientFields(v.fields));
  }

  lemma TicketDecodesEncoded(t: TicketState)
    requires ValidTicket(t)
    ensures IsStoredTicket(EncodeTicket(t)) && DecodeTicket(EncodeTicket(t)) == t
  {
  }

  lemma TicketEncodesDecoded(v: Value)
    requires IsStoredTicket(v)
    ensures ValidTicket(DecodeTicket(v)) && EncodeTicket(DecodeTicket(v)) == v
  {
    assert EncodeTicket(DecodeTicket(v)).items == v.items;
  }

  function Elements(values: seq<string>): set<string> {
    set k | 0 <= k < |values| :: values[k]
  }

  lemma ElementsOfLast(values: seq<string>)
    requires |values| > 0
    ensures Elements(values) == Elements(values[..|values| - 1]) + {values[|values| - 1]}
  {
    var front := values[..|values| - 1];
    assert forall k :: 0 <= k < |front| ==> front[k] == values[k];
    forall x | x in Elements(values)
      ensures x in Elements(front) + {values[|values| - 1]}
    {
      var k :| 0 <= k < |values| && values[k] == x;
      assert k < |front| ==> front[k] == x;
    }
    forall x | x in Elements(front)
      ensures x in Elements(values)
    {
      var k :| 0 <= k < |front| && front[k] == x;
      assert values[k] == x;
    }
  }

  predicate NoRepeats(values: seq<string>) {
    forall i, j :: 0 <= i < j < |values| ==> values[i] != values[j]
  }

  lemma NoRepeatsOfLast(values: seq<string>)
    requires |values| > 0
    ensures NoRepeats(values) <==>
            NoRepeats(values[..|values| - 1]) && values[|values| - 1] !in Elements(values[..|values| - 1])
  {
    var front := values[..|values| - 1];
    if values[|values| - 1] in Elements(front) {
      var k :| 0 <= k < |front| && front[k] == values[|values| - 1];
      assert values[k] == values[|values| - 1];
    }
    if NoRepeats(front) && values[|values| - 1] !in Elements(front) {
      forall i, j | 0 <= i < j < |values|
        ensures values[i] != values[j]
      {
        assert front[i] == values[i] && front[i] in Elements(front);
      }
    }
  }

  /** The number of distinct values of a list is its length exactly when none repeats. */
  lemma {:induction false} DistinctCount(values: seq<string>)
    ensures |Elements(values)| <= |values|
    ensures |Elements(values)| == |values| <==> NoRepeats(values)
  {
    if |values| > 0 {
      hide Elements, NoRepeats;
      DistinctCount(values[..|values| - 1]);
      ElementsOfLast(values);
      NoRepeatsOfLast(values);
    }
  }

  lemma DistinctTicketsCounted(tickets: seq<TicketState>)
    ensures DistinctTickets(tickets) <==>
            |DigestsOf(tickets)| == |tickets| && |ConnectionsOf(tickets)| == |tickets|
  {
    var digests := seq(|tickets|, i requires 0 <= i < |tickets| => tickets[i].ticketDigest);
    var connections := seq(|tickets|, i requires 0 <= i < |tickets| => tickets[i].clientConnectionId);
    DistinctCount(digests);
    DistinctCount(connections);
    assert DigestsOf(tickets) == Elements(digests) by {
      assert forall k :: 0 <= k < |tickets| ==> digests[k] == tickets[k].ticketDigest;
    }
    assert ConnectionsOf(tickets) == Elements(connections) by {
      assert forall k :: 0 <= k < |tickets| ==> connections[k] == tickets[k].clientConnectionId;
    }
    if |digests| == |Elements(digests)| && |connections| == |Elements(connections)| {
      forall i, j | 0 <= i < j < |tickets|
        ensures tickets[i].ticketDigest != tickets[j].ticketDigest
        ensures tickets[i].clientConnectionId != tickets[j].clientConnectionId
      {
        assert digests[i] != digests[j] && connections[i] != connections[j];
      }
    }
    if DistinctTickets(tickets) {
      assert forall i, j :: 0 <= i < j < |tickets| ==> digests[i] != digests[j];
      assert forall i, j :: 0 <= i < j < |tickets| ==> connections[i] != connections[j];
    }
  }

  lemma ServerFieldsOfRecord(s: StoredServer)
    ensures ServerRecord(s).Keys == SERVER_KEYS && ServerFields(ServerRecord(s)) == s
  {
  }

  lemma ServerRecordOfFields(f: map<Key, Value>)
    requires f.Keys == SERVER_KEYS
    ensures ServerRecord(ServerFields(f)) == f
  {
  }

  lemma ServerDecodesEncoded(a: ServerAttachment)
    requires ValidServer(a)
    ensures DecodeServer(EncodeServer(a)) == Some(a)
  {
    hide ServerRecord, ServerFields, ValidTicket, IsStoredTicket, EncodeTicket, DecodeTicket, DistinctTickets,
      DigestsOf, ConnectionsOf;
    ServerFieldsOfRecord(StoreServer(a));
    var items := EncodeTickets(a.tickets);
    forall k | 0 <= k < |a.tickets|
      ensures IsStoredTicket(items[k]) && DecodeTicket(items[k]) == a.tickets[k]
    {
      TicketDecodesEncoded(a.tickets[k]);
    }
    assert DecodeTickets(items) == a.tickets;
    DistinctTicketsCounted(a.tickets);
  }

  lemma ServerEncodesDecoded(v: Value)
    requires v.Record? && DecodeServer(v).Some?
    ensures ValidServer(DecodeServer(v).value) && EncodeServer(DecodeServer(v).value) == v
  {
    hide ServerRecord, ServerFields, ValidTicket, IsStoredTicket, EncodeTicket, DecodeTicket, DistinctTickets,
      DigestsOf, ConnectionsOf;
    ServerRecordOfFields(v.fields);
    var s := ServerFields(v.fields);
    var a := DecodeServer(v).value;
    forall k | 0 <= k < |s.t.items|
      ensures ValidTicket(a.tickets[k]) && EncodeTicket(a.tickets[k]) == s.t.items[k]
    {
      TicketEncodesDecoded(s.t.items[k]);
    }
    DistinctTicketsCounted(a.tickets);
    assert EncodeTickets(a.tickets) == s.t.items;
  }

  /**
   The decoder accepts exactly the encodings of valid attachments and inverts
   the encoder on them: both round trips, and nothing else is readable.
   */
  lemma DecodesExactlyEncodings(v: Value, a: Attachment)
    ensures Decode(v) == Some(a) <==> ValidAttachment(a) && v == Encode(a)
  {
    hide DecodeClient, DecodeServer, EncodeClient, EncodeServer, ValidClient, ValidServer;
    RoleOf(a);
    if Decode(v) == Some(a) {
      if a.Client? {
        ClientEncodesDecoded(v);
      } else {
        ServerEncodesDecoded(v);
      }
    }
    if ValidAttachment(a) && v == Encode(a) {
      if a.Client? {
        ClientDecodesEncoded(a.client);
      } else {
        ServerDecodesEncoded(a.server);
      }
    }
  }

  /** What a read returns after a write: the attachment itself exactly when it is valid. */
  function Reloaded(a: Attachment): Option<Attachment> {
    Decode(Encode(a))
  }

  lemma ReloadedIsValid(a: Attachment)
    ensures Reloaded(a) == (if ValidAttachment(a) then Some(a) else None)
  {
    hide Decode, Encode, ValidAttachment;
    DecodesExactlyEncodings(Encode(a), a);
    if Reloaded(a).Some? {
      var b := Reloaded(a).value;
      DecodesExactlyEncodings(Encode(a), b);
      EncodeInjective(a, b);
    }
  }

  lemma EncodeInjective(a: Attachment, b: Attachment)
    requires Encode(a) == Encode(b)
    ensures a == b
  {
    hide StoreClient, StoreServer, ClientRecord, ServerRecord, ClientFields, ServerFields;
    RoleOf(a);
    RoleOf(b);
    if a.Client? {
      ClientFieldsOfRecord(StoreClient(a.client));
      ClientFieldsOfRecord(StoreClient(b.client));
      StoreClientInjective(a.client, b.client);
    } else {
      ServerFieldsOfRecord(StoreServer(a.server));
      ServerFieldsOfRecord(StoreServer(b.server));
      StoreServerInjective(a.server, b.server);
    }
  }

  lemma RoleOf(a: Attachment)
    ensures Encode(a).Record? && R in Encode(a).fields && V in Encode(a).fields
    ensures Encode(a).fields[R] == Text(if a.Client? then "c" else "s")
    ensures Encode(a).fields[V] == Number(ATTACHMENT_VERSION)
  {
  }

  lemma StoreClientInjective(a: ClientAttachment, b: ClientAttachment)
    requires StoreClient(a) == StoreClient(b)
    ensures a == b
  {
  }

  lemma EncodeTicketInjective(a: TicketState, b: TicketState)
    requires EncodeTicket(a) == EncodeTicket(b)
    ensures a == b
  {
    var f := EncodeTicket(a).items;
    var g := EncodeTicket(b).items;
    assert f[0] == g[0] && f[1] == g[1] && f[2] == g[2] && f[3] == g[3] && f[4] == g[4] && f[5] == g[5];
    assert f[6] == g[6] && f[7] == g[7] && f[9] == g[9] && f[10] == g[10];
  }

  lemma StoreServerInjective(a: ServerAttachment, b: ServerAttachment)
    requires StoreServer(a) == StoreServer(b)
    ensures a == b
  {
    var f := EncodeTickets(a.tickets);
    var g := EncodeTickets(b.tickets);
    assert |a.tickets| == |f| == |g| == |b.tickets|;
    forall i | 0 <= i < |a.tickets|
      ensures a.tickets[i] == b.tickets[i]
    {
      assert f[i] == g[i];
      EncodeTicketInjective(a.tickets[i], b.tickets[i]);
    }
    assert a.tickets == b.tickets;
  }
}
