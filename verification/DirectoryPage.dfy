/**
 The published HTML page: the listings it shows and its text, written as the
 tags and runs of text it is made of.
 */
module DirectoryPage {
  import opened Options
  import opened MarkupText
  import opened HtmlEscaping
  import Decimals

  const MAX_SERVERS: nat := 512
  const MAX_TIMESTAMP: nat := 253402300799
  const MAX_LIFETIME: nat := 14400

  datatype Profile = ClassicV3 | GameV2

  datatype Endpoint = Endpoint(hostname: string, port: nat)

  datatype Server =
    | Classic(serverId: string, name: string, playersCount: nat, version: string, textComment: string,
              certificate: string, accessRequired: bool, endpoint: Option<Endpoint>)
    | Game(serverId: string, certificate: string, name: string, description: string, region: Option<string>,
           minor: nat, contentId: string, contentRevision: string, online: nat, capacity: nat, status: string,
           accessRequired: bool, endpoint: Option<Endpoint>)

  datatype Snapshot = Snapshot(profile: Profile, generation: nat, generatedAt: nat, expiresAt: nat,
                               servers: seq<Server>)

  // ---- admissible values --------------------------------------------------------------------

  predicate IsLower(c: char) {
    'a' <= c <= 'z'
  }

  predicate IsDigest(s: string) {
    |s| == 64 && forall k :: 0 <= k < |s| ==> Decimals.IsDigit(s[k]) || 'a' <= s[k] <= 'f'
  }

  function Utf8Length(s: string): nat {
    if s == "" then 0
    else (if s[0] as int < 0x80 then 1 else if s[0] as int < 0x800 then 2 else if s[0] as int < 0x10000 then 3 else 4)
         + Utf8Length(s[1..])
  }

  predicate IsForbidden(c: char, game: bool) {
    var scalar := c as int;
    || scalar <= 0x1F || scalar == 0x7F || scalar == 0xFFFE || scalar == 0xFFFF
    || (game && (0x80 <= scalar <= 0x9F || scalar == 0x2028 || scalar == 0x2029))
  }

  predicate IsText(s: string, minimum: nat, maximum: nat, game: bool) {
    minimum <= Utf8Length(s) <= maximum && forall k :: 0 <= k < |s| ==> !IsForbidden(s[k], game)
  }

  /** A lower-case alphanumeric name with inner punctuation, as the region and content patterns spell it. */
  predicate IsSlug(s: string, maximum: nat, inner: string) {
    && 1 <= |s| <= maximum
    && (forall k :: 0 <= k < |s| ==> IsLower(s[k]) || Decimals.IsDigit(s[k]) || s[k] in inner)
    && s[0] !in inner && s[|s| - 1] !in inner
  }

  /** The parts of a host name between its dots. */
  function Labels(s: string): (labels: seq<string>)
    ensures |labels| >= 1
  {
    if s == "" then [""]
    else if s[0] == '.' then [""] + Labels(s[1..])
    else
      var rest := Labels(s[1..]);
      [[s[0]] + rest[0]] + rest[1..]
  }

  predicate IsHex(c: char) {
    Decimals.IsDigit(c) || 'a' <= c <= 'f'
  }

  /** A label that a numeric address could hold: decimal, or hexadecimal behind a prefix. */
  predicate IsNumeric(s: string) {
    || (s != "" && Decimals.AllDigits(s))
    || (|s| > 2 && s[..2] == "0x" && forall k :: 2 <= k < |s| ==> IsHex(s[k]))
  }

  /**
   What both sides ask of a host name: two or more labels of at most 63
   characters, a letter somewhere, and not the spelling of a numeric address.
   */
  predicate IsHostname(s: string) {
    && 1 <= |s| <= 253 && |Labels(s)| >= 2
    && (forall k :: 0 <= k < |Labels(s)| ==> IsSlug(Labels(s)[k], 63, "-"))
    && (exists k :: 0 <= k < |s| && IsLower(s[k]))
    && (exists k :: 0 <= k < |Labels(s)| && !IsNumeric(Labels(s)[k]))
  }

  /** Whether one side's check of internationalised labels accepts every such label of the host. */
  predicate LabelsPass(host: string, check: string -> bool) {
    forall k :: 0 <= k < |Labels(host)| && StartsWith(Labels(host)[k], "xn--") ==> check(Labels(host)[k])
  }

  predicate HostPasses(s: Server, check: string -> bool) {
    s.endpoint.Some? ==> LabelsPass(s.endpoint.value.hostname, check)
  }

  predicate HostsPass(servers: seq<Server>, check: string -> bool) {
    forall k :: 0 <= k < |servers| ==> HostPasses(servers[k], check)
  }

  predicate IsEndpoint(e: Option<Endpoint>) {
    e.Some? ==> IsHostname(e.value.hostname) && 1 <= e.value.port <= 65535
  }

  predicate FitsStatus(status: string, online: nat, capacity: nat) {
    || (status == "online" && online < capacity)
    || (status == "full" && online == capacity)
    || (status == "maintenance" && online == 0)
  }

  predicate IsServer(s: Server) {
    && IsDigest(s.serverId) && s.certificate == s.serverId && IsEndpoint(s.endpoint)
    && match s
       case Classic(_, name, playersCount, version, textComment, _, _, _) =>
         && IsText(name, 1, 80, false) && playersCount <= 4294967295
         && IsText(version, 1, 32, false) && IsText(textComment, 0, 256, false)
       case Game(_, _, name, description, region, minor, contentId, contentRevision, online, capacity, status, _, _) =>
         && IsText(name, 1, 80, true) && IsText(description, 0, 512, true)
         && (region.Some? ==> IsSlug(region.value, 32, "-")) && minor <= 65535
         && IsSlug(contentId, 64, "._-") && IsDigest(contentRevision)
         && online <= 100000 && 1 <= capacity <= 100000 && online <= capacity && FitsStatus(status, online, capacity)
  }

  predicate OfProfile(profile: Profile, s: Server) {
    s.Classic? <==> profile.ClassicV3?
  }

  predicate DistinctIds(servers: seq<Server>) {
    forall i, j :: 0 <= i < j < |servers| ==> servers[i].serverId != servers[j].serverId
  }

  /** What both sides ask of a snapshot's values, their checks of internationalised host labels apart. */
  predicate IsAdmitted(s: Snapshot) {
    && 1 <= s.generation <= Decimals.MAX_UINT64
    && s.generatedAt <= MAX_TIMESTAMP && s.expiresAt <= MAX_TIMESTAMP
    && |s.servers| <= MAX_SERVERS && DistinctIds(s.servers)
    && forall k :: 0 <= k < |s.servers| ==> OfProfile(s.profile, s.servers[k]) && IsServer(s.servers[k])
  }

  /** What the publisher admits before it renders: a bounded lifetime, and its own check of host labels. */
  predicate IsPublishable(s: Snapshot, check: string -> bool) {
    IsAdmitted(s) && HostsPass(s.servers, check) && s.generatedAt < s.expiresAt <= s.generatedAt + MAX_LIFETIME
  }

  // ---- the page -----------------------------------------------------------------------------

  /** The page's own wording: no markup, and no colon. */
  predicate IsWording(s: string) {
    forall k :: 0 <= k < |s| ==> s[k] != '<' && s[k] != '>' && s[k] != ':'
  }

  type Wording = s: string | IsWording(s) witness ""

  function Language(): (name: Wording)
    ensures |name| > 2 && name[0] == 'h'
  {
    "html lang=\"en\""
  }

  function Charset(): (name: Wording)
    ensures |name| > 2 && name[0] == 'm'
  {
    "meta charset=\"utf-8\""
  }

  function Words(a: Wording, b: Wording): Wording {
    a + b
  }

  function ViewportContent(): Wording {
    Words("content=\"width=device-width", ", initial-scale=1\"")
  }

  function Viewport(): (name: Wording)
    ensures |name| > 2 && name[0] == 'm'
  {
    Words("meta name=\"viewport\" ", ViewportContent())
  }

  function SecurityHeader(): (name: Wording)
    ensures |name| > 2 && name[0] == 'm'
  {
    "meta http-equiv=\"Content-Security-Policy\" "
  }

  function DefaultSource(): Wording {
    "content=\"default-src 'none'; "
  }

  function OtherSources(): Wording {
    "base-uri 'none'; form-action 'none'\""
  }

  function SecurityPolicy(): (name: Wording)
    ensures |name| > 2 && name[0] == 'm'
  {
    Words(SecurityHeader(), Words(DefaultSource(), OtherSources()))
  }

  function HeadingTag(): (name: Wording)
    ensures |name| > 2 && name[0] == 't'
  {
    "th scope=\"col\""
  }

  function Schema(profile: Profile): (name: string)
    ensures IsWording(name)
  {
    if profile.ClassicV3? then "atrinik-classic-directory-v6" else "atrinik-game-directory-v2"
  }

  function Title(profile: Profile): Wording {
    if profile.ClassicV3? then "Atrinik Classic servers" else "Atrinik servers"
  }

  function CertificateHeading(): Wording {
    "Certificate SHA-256"
  }

  function RevisionHeading(): Wording {
    "Content revision SHA-256"
  }

  function LastHeadings(): seq<Wording> {
    ["Status", "Access", "Direct endpoint"]
  }

  function ClassicHeadings(): seq<Wording> {
    ["Server ID", "Name", "Version", "Players", "Comment"] + [CertificateHeading()] + LastHeadings()
  }

  function DescriptionHeadings(): seq<Wording> {
    ["Name", "Description", "Region", "Protocol", "Content ID"]
  }

  function GameHeadings(): seq<Wording> {
    ["Server ID", CertificateHeading()] + DescriptionHeadings() + [RevisionHeading(), "Players"] + LastHeadings()
  }

  function Headings(profile: Profile): seq<Wording> {
    if profile.ClassicV3? then ClassicHeadings() else GameHeadings()
  }

  /** One cell of a row: its text, alone or as code. */
  datatype Cell = Text(shown: string) | Code(shown: string)

  function EndpointCell(endpoint: Option<Endpoint>, escape: string -> string): Cell {
    if endpoint.None? then Text("not published")
    else Code(escape(endpoint.value.hostname) + ":" + Decimals.Render(endpoint.value.port))
  }

  function Policy(accessRequired: bool): string {
    if accessRequired then "protected" else "open"
  }

  function Cells(s: Server, escape: string -> string): seq<Cell> {
    match s
    case Classic(serverId, name, playersCount, version, textComment, certificate, accessRequired, endpoint) =>
      [Code(serverId), Text(escape(name)), Text(escape(version)), Text(Decimals.Render(playersCount)),
       Text(escape(textComment)), Code(certificate), Text("listed"), Text(Policy(accessRequired)),
       EndpointCell(endpoint, escape)]
    case Game(serverId, certificate, name, description, region, minor, contentId, contentRevision, online, capacity,
              status, accessRequired, endpoint) =>
      [Code(serverId), Code(certificate), Text(escape(name)), Text(escape(description)),
       Text(if region.None? then "not published" else escape(region.value)), Text("1." + Decimals.Render(minor)),
       Text(escape(contentId)), Code(contentRevision),
       Text(Decimals.Render(online) + "/" + Decimals.Render(capacity)), Text(status), Text(Policy(accessRequired)),
       EndpointCell(endpoint, escape)]
  }

  function CellBody(c: Cell): seq<Piece> {
    if c.Text? then [Plain(c.shown)] else [Tag("code"), Plain(c.shown), Tag("/code")]
  }

  function Row(cells: seq<Cell>): seq<Piece> {
    if cells == [] then [] else [Tag("td")] + CellBody(cells[0]) + [Tag("/td")] + Row(cells[1..])
  }

  function Body(rows: seq<seq<Cell>>): seq<Piece> {
    if rows == [] then [] else [Plain("\n      "), Tag("tr")] + Row(rows[0]) + [Tag("/tr")] + Body(rows[1..])
  }

  function HeadingRow(headings: seq<Wording>): seq<Piece> {
    if headings == [] then [] else [Tag(HeadingTag()), Plain(headings[0]), Tag("/th")] + HeadingRow(headings[1..])
  }

  function Head(title: string): seq<Piece> {
    [Tag("!doctype html"), Plain("\n"), Tag(Language()), Plain("\n"), Tag("head"), Plain("\n  "), Tag(Charset()),
     Plain("\n  "), Tag(Viewport()), Plain("\n  "), Tag(SecurityPolicy()), Plain("\n  "), Tag("title"), Plain(title),
     Tag("/title"), Plain("\n"), Tag("/head"), Plain("\n"), Tag("body"), Plain("\n"), Tag("main"), Plain("\n  "),
     Tag("h1"), Plain(title), Tag("/h1"), Plain("\n  "), Tag("dl"), Plain("\n    ")]
  }

  function TermPieces(caption: string, value: seq<Piece>, after: string): seq<Piece> {
    [Tag("dt"), Plain(caption), Tag("/dt"), Tag("dd")] + value + [Tag("/dd"), Plain(after)]
  }

  function SchemaTerm(profile: Profile): seq<Piece> {
    TermPieces("Schema", [Tag("code"), Plain(Schema(profile)), Tag("/code")], "\n    ")
  }

  function NumberTerm(caption: string, n: nat, after: string): seq<Piece> {
    TermPieces(caption, [Plain(Decimals.Render(n))], after)
  }

  function TableHead(): seq<Piece> {
    [Tag("/dl"), Plain("\n  "), Tag("table"), Plain("\n    "), Tag("thead")]
  }

  function TableBody(): seq<Piece> {
    [Tag("/thead"), Plain("\n    "), Tag("tbody")]
  }

  function Tail(): seq<Piece> {
    [Tag("/tbody"), Plain("\n  "), Tag("/table"), Plain("\n"), Tag("/main"), Plain("\n"), Tag("/body"), Plain("\n"),
     Tag("/html"), Plain("\n")]
  }

  function Rows(servers: seq<Server>, escape: string -> string): (rows: seq<seq<Cell>>)
    ensures |rows| == |servers|
    ensures forall k :: 0 <= k < |rows| ==> rows[k] == Cells(servers[k], escape)
  {
    if servers == [] then [] else [Cells(servers[0], escape)] + Rows(servers[1..], escape)
  }

  /** The part above the table's rows, up to its heading row. */
  function Above(s: Snapshot): seq<Piece> {
    Head(Title(s.profile)) + (SchemaTerm(s.profile) + (NumberTerm("Generation", s.generation, "\n    ") +
    (NumberTerm("Generated at", s.generatedAt, "\n    ") + (NumberTerm("Expires at", s.expiresAt, "\n  ") +
    TableHead()))))
  }

  function Below(rows: seq<seq<Cell>>): seq<Piece> {
    TableBody() + (Body(rows) + ((if rows == [] then [] else [Plain("\n    ")]) + Tail()))
  }

  /** The heading row and all that follows. */
  function Table(s: Snapshot, escape: string -> string): seq<Piece> {
    [Tag("tr")] + (HeadingRow(Headings(s.profile)) + ([Tag("/tr")] + Below(Rows(s.servers, escape))))
  }

  function Page(s: Snapshot, escape: string -> string): seq<Piece> {
    Above(s) + Table(s, escape)
  }

  /** The publisher's page. */
  function RenderHtml(s: Snapshot): string {
    Flat(Page(s, Escape))
  }

  /** The page the reader prints to compare with. */
  function CanonicalHtml(s: Snapshot): string {
    Flat(Page(s, SequentialEscape))
  }

  // ---- the two printers ---------------------------------------------------------------------

  lemma SameCells(s: Server)
    ensures Cells(s, SequentialEscape) == Cells(s, Escape)
  {
    hide SequentialEscape, Escape;
    forall text: string
      ensures SequentialEscape(text) == Escape(text)
    {
      SequentialIsOnePass(text);
    }
  }

  lemma PrintersAgree(s: Snapshot)
    ensures CanonicalHtml(s) == RenderHtml(s)
  {
    hide Cells, Flat, Above, Below, HeadingRow;
    forall k | 0 <= k < |s.servers|
      ensures Cells(s.servers[k], SequentialEscape) == Cells(s.servers[k], Escape)
    {
      SameCells(s.servers[k]);
    }
    assert Rows(s.servers, SequentialEscape) == Rows(s.servers, Escape);
  }
}
