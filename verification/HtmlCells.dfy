/**
 Reading a row back: what each printed cell decodes to, and that the searches for
 rows and cells find each of them, in order and whole.
 */
module HtmlCells {
  import opened Options
  import opened MarkupText
  import opened HtmlEscaping
  import opened DirectoryPage
  import opened DirectoryHtml
  import Decimals

  // ---- one cell -----------------------------------------------------------------------------

  function Fragment(c: Cell): string {
    Flat(CellBody(c))
  }

  function Fragments(cells: seq<Cell>): (fragments: seq<string>)
    ensures |fragments| == |cells| && forall k :: 0 <= k < |cells| ==> fragments[k] == Fragment(cells[k])
  {
    if cells == [] then [] else [Fragment(cells[0])] + Fragments(cells[1..])
  }

  lemma FragmentText(c: Cell)
    ensures Fragment(c) == if c.Text? then c.shown else "<code>" + c.shown + "</code>"
  {
    if c.Text? {
      assert [Plain(c.shown)][1..] == [];
    } else {
      var last: seq<Piece> := [Tag("/code")];
      var two := [Plain(c.shown)] + last;
      assert CellBody(c)[1..] == two && two[1..] == last && last[1..] == [];
      assert Flat(last) == "</code>";
      assert Flat(two) == c.shown + Flat(last);
      assert Flat(CellBody(c)) == "<code>" + Flat(two);
    }
  }

  lemma CellReads(raw: string)
    ensures HtmlCell(Fragment(Text(Escape(raw))), false) == Some(raw)
    ensures HtmlCell(Fragment(Code(Escape(raw))), true) == Some(raw)
  {
    hide Fragment, Escape, Unescape;
    FragmentText(Text(Escape(raw)));
    FragmentText(Code(Escape(raw)));
    UnescapeEscape(raw);
    CodeReads(Escape(raw));
  }

  lemma CodeReads(shown: string)
    requires NoAngle(shown)
    ensures HtmlCell("<code>" + shown + "</code>", true) == Some(Unescape(shown))
  {
    hide Unescape, NoAngle;
    var fragment := "<code>" + shown + "</code>";
    assert fragment[..6] == "<code>" && fragment[|fragment| - 7..] == "</code>" && fragment[6..|fragment| - 7] == shown;
  }

  predicate IsBare(s: string) {
    forall k :: 0 <= k < |s| ==> !IsSpecial(s[k])
  }

  /** A text that needs no escaping reads as itself. */
  lemma BareReads(s: string)
    requires IsBare(s)
    ensures HtmlCell(Fragment(Text(s)), false) == Some(s) && HtmlCell(Fragment(Code(s)), true) == Some(s)
  {
    hide HtmlCell, Fragment;
    EscapeNothing(s);
    CellReads(s);
  }

  lemma DigitsAreBare(n: nat)
    ensures IsBare(Decimals.Render(n)) && ':' !in Decimals.Render(n) && '/' !in Decimals.Render(n)
  {
    Decimals.RenderDenotes(n);
  }

  lemma DigestIsBare(s: string)
    requires IsDigest(s)
    ensures IsBare(s) && ':' !in s
  {
  }

  lemma IntegerReads(n: nat, minimum: nat, maximum: nat)
    requires minimum <= n <= maximum
    ensures ReadInteger(Decimals.Render(n), minimum, maximum) == Some(n)
  {
    Decimals.RenderDenotes(n);
  }

  lemma {:induction false} LastIndexFound(head: string, tail: string, c: char)
    requires c !in tail
    ensures LastIndexOf(head + [c] + tail, c) == Some(|head|)
  {
    var text := head + [c] + tail;
    if tail == "" {
      assert text[|text| - 1] == c;
    } else {
      var last := tail[|tail| - 1];
      assert last in tail && text[|text| - 1] == last;
      var front := tail[..|tail| - 1];
      assert text[..|text| - 1] == head + [c] + front;
      LastIndexFound(head, front, c);
    }
  }

  function EndpointText(e: Endpoint): string {
    e.hostname + ":" + Decimals.Render(e.port)
  }

  lemma EndpointEscapes(e: Endpoint)
    ensures Escape(EndpointText(e)) == Escape(e.hostname) + ":" + Decimals.Render(e.port)
  {
    hide Escape;
    DigitsAreBare(e.port);
    EscapeConcat(e.hostname + ":", Decimals.Render(e.port));
    EscapeConcat(e.hostname, ":");
    EscapeNothing(":");
    EscapeNothing(Decimals.Render(e.port));
  }

  lemma EndpointReads(endpoint: Option<Endpoint>)
    requires endpoint.Some? ==> 1 <= endpoint.value.port <= 65535
    ensures HtmlEndpoint(Fragment(EndpointCell(endpoint, Escape))) == Some(endpoint)
  {
    hide Escape, HtmlCell, LastIndexOf, ReadInteger, Fragment;
    FragmentText(EndpointCell(endpoint, Escape));
    if endpoint.Some? {
      var e := endpoint.value;
      EndpointEscapes(e);
      CellReads(EndpointText(e));
      DigitsAreBare(e.port);
      LastIndexFound(e.hostname, Decimals.Render(e.port), ':');
      IntegerReads(e.port, 1, 65535);
      assert EndpointText(e)[|e.hostname| + 1..] == Decimals.Render(e.port);
      assert EndpointText(e)[..|e.hostname|] == e.hostname;
      var fragment := Fragment(EndpointCell(endpoint, Escape));
      assert fragment[0] == '<' && "not published"[0] == 'n';
    }
  }

  lemma ProtocolReads(minor: nat)
    requires minor <= 65535
    ensures ReadProtocol("1." + Decimals.Render(minor)) == Some(minor)
  {
    hide ReadInteger;
    IntegerReads(minor, 0, 65535);
    var cell := "1." + Decimals.Render(minor);
    assert cell[..2] == "1." && cell[2..] == Decimals.Render(minor);
  }

  lemma PlayersRead(online: nat, capacity: nat)
    requires online <= 100000 && 1 <= capacity <= 100000
    ensures ReadPlayers(Decimals.Render(online) + "/" + Decimals.Render(capacity)) == Some((online, capacity))
  {
    hide ReadInteger;
    var head, tail := Decimals.Render(online), Decimals.Render(capacity);
    DigitsAreBare(online);
    SkipPlain(head, "/" + tail, "/");
    assert StartsWith("/" + tail, "/");
    assert head + "/" + tail == head + ("/" + tail);
    assert (head + "/" + tail)[..|head|] == head && (head + "/" + tail)[|head| + 1..] == tail;
    IntegerReads(online, 0, 100000);
    IntegerReads(capacity, 1, 100000);
  }

  lemma RegionIsNotAbsence(region: string)
    requires IsSlug(region, 32, "-")
    ensures region != "not published"
  {
    if |region| == 13 {
      assert IsLower(region[3]) || Decimals.IsDigit(region[3]) || region[3] in "-";
      assert "not published"[3] == ' ';
    }
  }

  lemma StatusIsBare(status: string, online: nat, capacity: nat)
    requires FitsStatus(status, online, capacity)
    ensures IsBare(status) && ':' !in status
  {
  }

  lemma ConstantsAreBare()
    ensures IsBare("listed") && IsBare("not published") && IsBare("protected") && IsBare("open")
    ensures ':' !in "listed" && ':' !in "not published" && ':' !in "protected" && ':' !in "open"
  {
  }

  /** A host with a label that is not numeric is no address. */
  lemma HostIsNoAddress(host: string)
    requires IsHostname(host)
    ensures !IsAddress(host)
  {
  }

  lemma EndpointIsNoAddress(s: Server)
    requires IsServer(s)
    ensures s.endpoint.Some? ==> !IsAddress(s.endpoint.value.hostname)
  {
    hide IsHostname, IsAddress, IsDigest, IsText, FitsStatus, IsSlug;
    if s.endpoint.Some? {
      HostIsNoAddress(s.endpoint.value.hostname);
    }
  }

  /** A row reads back as its listing, or not at all when the reader's host check refuses it. */
  lemma ClassicReads(s: Server, check: string -> bool)
    requires s.Classic? && IsServer(s)
    ensures ClassicServer(Fragments(Cells(s, Escape)), check) == if HostPasses(s, check) then Some(s) else None
  {
    hide Escape, HtmlCell, HtmlEndpoint, ReadInteger, Fragment, IsBare, IsDigest, IsText, IsEndpoint, IsAddress,
         HostPasses;
    var cells := Cells(s, Escape);
    DigestIsBare(s.serverId);
    BareReads(s.serverId);
    CellReads(s.name);
    CellReads(s.version);
    CellReads(s.textComment);
    DigitsAreBare(s.playersCount);
    BareReads(Decimals.Render(s.playersCount));
    IntegerReads(s.playersCount, 0, 4294967295);
    ConstantsAreBare();
    BareReads("listed");
    BareReads(Policy(s.accessRequired));
    EndpointPort(s.endpoint);
    EndpointReads(s.endpoint);
    EndpointIsNoAddress(s);
    PolicyReads(s.accessRequired);
  }

  lemma EndpointPort(endpoint: Option<Endpoint>)
    requires IsEndpoint(endpoint)
    ensures endpoint.Some? ==> 1 <= endpoint.value.port <= 65535
  {
  }

  lemma PolicyReads(accessRequired: bool)
    ensures ReadPolicy(Some(Policy(accessRequired))) == Some(accessRequired)
  {
    assert |"protected"| == 9 && |"open"| == 4;
  }

  lemma GameIdentityReads(s: Server)
    requires s.Game? && IsServer(s)
    ensures var f := Fragments(Cells(s, Escape));
            && |f| == 12
            && HtmlCell(f[0], true) == Some(s.serverId) && HtmlCell(f[1], true) == Some(s.certificate)
            && HtmlCell(f[2], false) == Some(s.name) && HtmlCell(f[3], false) == Some(s.description)
            && HtmlCell(f[4], false) == Some(if s.region.Some? then s.region.value else "not published")
            && (s.region.Some? ==> s.region.value != "not published")
  {
    hide Escape, HtmlCell, Fragment, IsBare, IsDigest, IsText, IsEndpoint, IsSlug, FitsStatus, EndpointCell,
         Decimals.Render, IsSpecial, Policy;
    DigestIsBare(s.serverId);
    BareReads(s.serverId);
    CellReads(s.name);
    CellReads(s.description);
    if s.region.Some? {
      CellReads(s.region.value);
      RegionIsNotAbsence(s.region.value);
    } else {
      ConstantsAreBare();
      BareReads("not published");
    }
  }

  lemma GameDetailReads(s: Server)
    requires s.Game? && IsServer(s)
    ensures var f := Fragments(Cells(s, Escape));
            && |f| == 12
            && HtmlCell(f[5], false) == Some("1." + Decimals.Render(s.minor))
            && HtmlCell(f[6], false) == Some(s.contentId) && HtmlCell(f[7], true) == Some(s.contentRevision)
            && HtmlCell(f[8], false) == Some(Decimals.Render(s.online) + "/" + Decimals.Render(s.capacity))
            && HtmlCell(f[9], false) == Some(s.status) && HtmlCell(f[10], false) == Some(Policy(s.accessRequired))
            && f[11] == Fragment(EndpointCell(s.endpoint, Escape))
  {
    hide Escape, HtmlCell, Fragment, IsBare, IsDigest, IsText, IsEndpoint, IsSlug, FitsStatus, EndpointCell,
         Decimals.Render, IsSpecial;
    ConstantsAreBare();
    ProtocolIsBare(s.minor);
    BareReads("1." + Decimals.Render(s.minor));
    CellReads(s.contentId);
    DigestIsBare(s.contentRevision);
    BareReads(s.contentRevision);
    CountsAreBare(s.online, s.capacity);
    BareReads(Decimals.Render(s.online) + "/" + Decimals.Render(s.capacity));
    StatusIsBare(s.status, s.online, s.capacity);
    BareReads(s.status);
    BareReads(Policy(s.accessRequired));
  }

  lemma GameReads(s: Server, check: string -> bool)
    requires s.Game? && IsServer(s)
    ensures GameServer(Fragments(Cells(s, Escape)), check) == if HostPasses(s, check) then Some(s) else None
  {
    hide Cells, Fragments, Escape, HtmlCell, HtmlEndpoint, Fragment, IsDigest, IsText, IsEndpoint, IsSlug, FitsStatus,
         ReadPlayers, ReadProtocol, ReadPolicy, EndpointCell, Decimals.Render, IsAddress, HostPasses;
    GameIdentityReads(s);
    GameDetailReads(s);
    ProtocolReads(s.minor);
    PlayersRead(s.online, s.capacity);
    PolicyReads(s.accessRequired);
    EndpointPort(s.endpoint);
    EndpointReads(s.endpoint);
    EndpointIsNoAddress(s);
  }

  lemma ProtocolIsBare(minor: nat)
    ensures IsBare("1." + Decimals.Render(minor)) && ':' !in "1." + Decimals.Render(minor)
  {
    DigitsAreBare(minor);
  }

  lemma CountsAreBare(online: nat, capacity: nat)
    ensures IsBare(Decimals.Render(online) + "/" + Decimals.Render(capacity))
    ensures ':' !in Decimals.Render(online) + "/" + Decimals.Render(capacity)
  {
    DigitsAreBare(online);
    DigitsAreBare(capacity);
  }

  // ---- rows ---------------------------------------------------------------------------------

  predicate AllShown(cells: seq<Cell>) {
    forall k :: 0 <= k < |cells| ==> NoAngle(cells[k].shown)
  }

  lemma CellIsProper(c: Cell)
    requires NoAngle(c.shown)
    ensures Proper(CellBody(c)) && !HasTag(CellBody(c), "/td") && !HasTag(CellBody(c), "/tr")
  {
    assert |"code"| == 4 && |"/code"| == 5 && |"/td"| == 3 && |"/tr"| == 3;
    assert NoAngle("code") && NoAngle("/code");
  }

  lemma OneTag(name: string)
    ensures Flat([Tag(name)]) == Open(name)
  {
    hide Open;
    assert [Tag(name)][1..] == [];
    assert Shown(Tag(name)) + "" == Open(name);
  }

  lemma RowSplits(cells: seq<Cell>)
    requires cells != []
    ensures Row(cells) == [Tag("td")] + (CellBody(cells[0]) + ([Tag("/td")] + Row(cells[1..])))
    ensures Flat(Row(cells)) == Open("td") + (Flat(CellBody(cells[0])) + (Open("/td") + Flat(Row(cells[1..]))))
  {
    hide Flat, CellBody, Open;
    var rest := Row(cells[1..]);
    FlatConcat([Tag("/td")], rest);
    FlatConcat(CellBody(cells[0]), [Tag("/td")] + rest);
    FlatConcat([Tag("td")], CellBody(cells[0]) + ([Tag("/td")] + rest));
    OneTag("td");
    OneTag("/td");
    assert Row(cells) == [Tag("td")] + (CellBody(cells[0]) + ([Tag("/td")] + rest));
  }

  /** Every cell is found, in order and whole. */
  lemma {:induction false} RowReads(cells: seq<Cell>)
    requires AllShown(cells)
    ensures FindAll(Flat(Row(cells)), "td") == Fragments(cells)
    ensures Proper(Row(cells)) && !HasTag(Row(cells), "/tr")
    ensures cells != [] ==> Contains(Flat(Row(cells)), Open("td"))
  {
    hide Flat, CellBody, FindAll, HasTag, Proper, Contains, NoAngle;
    if cells == [] {
      NothingFound();
    } else {
      RowReads(cells[1..]);
      RowSplits(cells);
      CellIsProper(cells[0]);
      var body, rest := CellBody(cells[0]), Row(cells[1..]);
      CellFound(body, Flat(rest));
      ContainsOpen("td", Flat(body) + (Open("/td") + Flat(rest)));
      CellMarks();
      ProperConcat([Tag("/td")], rest);
      ProperConcat(body, [Tag("/td")] + rest);
      ProperConcat([Tag("td")], body + ([Tag("/td")] + rest));
      HasTagConcat([Tag("/td")], rest, "/tr");
      HasTagConcat(body, [Tag("/td")] + rest, "/tr");
      HasTagConcat([Tag("td")], body + ([Tag("/td")] + rest), "/tr");
    }
  }

  lemma NothingFound()
    ensures FindAll(Flat([]), "td") == [] && Proper([]) && !HasTag([], "/tr")
  {
  }

  lemma CellMarks()
    ensures Proper([Tag("/td")]) && Proper([Tag("td")])
    ensures !HasTag([Tag("/td")], "/tr") && !HasTag([Tag("td")], "/tr")
  {
    assert "/td"[1] == 't' && "/td"[2] == 'd' && "/tr"[2] == 'r' && |"td"| == 2;
  }

  lemma ContainsOpen(name: string, rest: string)
    ensures Contains(Open(name) + rest, Open(name))
  {
    FoundAtOnce(name, rest);
  }

  lemma CellFound(body: seq<Piece>, rest: string)
    requires Proper(body) && !HasTag(body, "/td")
    ensures FindAll(Open("td") + (Flat(body) + (Open("/td") + rest)), "td") == [Flat(body)] + FindAll(rest, "td")
  {
    hide FindAll, Open, Flat;
    assert "/" + "td" == "/td" && NoAngle("td");
    CloseIsOpen("td");
    Empty();
    EmptyText();
    FindElement([], "td", body, rest);
    Regroup("", Open("td"), Flat(body), Open("/td"), rest);
  }

  lemma Regroup(a: string, b: string, c: string, d: string, e: string)
    ensures a + (b + (c + (d + e))) == a + b + c + d + e
    ensures a == "" ==> b + (c + (d + e)) == a + b + c + d + e
  {
  }

  lemma Empty()
    ensures forall name: string :: !HasTag([], name)
    ensures Proper([])
  {
  }

  lemma EmptyText()
    ensures Flat([]) == ""
  {
  }

  // ---- the table ----------------------------------------------------------------------------

  predicate AllRowsShown(rows: seq<seq<Cell>>) {
    forall k :: 0 <= k < |rows| ==> AllShown(rows[k]) && rows[k] != []
  }

  function RowTexts(rows: seq<seq<Cell>>): seq<string> {
    if rows == [] then [] else [Flat(Row(rows[0]))] + RowTexts(rows[1..])
  }

  function RowFragments(rows: seq<seq<Cell>>): (r: seq<seq<string>>)
    ensures |r| == |rows| && forall k :: 0 <= k < |rows| ==> r[k] == Fragments(rows[k])
  {
    if rows == [] then [] else [Fragments(rows[0])] + RowFragments(rows[1..])
  }

  /** A row of the table, between what precedes its tag and the rest of the text. */
  lemma RowFound(before: seq<Piece>, body: seq<Piece>, rest: seq<Piece>)
    requires Proper(before) && !HasTag(before, "tr") && Proper(body) && !HasTag(body, "/tr")
    ensures FindAll(Flat(before + ([Tag("tr")] + (body + ([Tag("/tr")] + rest)))), "tr") ==
            [Flat(body)] + FindAll(Flat(rest), "tr")
  {
    hide Flat, FindAll, Open, Proper, HasTag;
    FlatConcat([Tag("/tr")], rest);
    FlatConcat(body, [Tag("/tr")] + rest);
    FlatConcat([Tag("tr")], body + ([Tag("/tr")] + rest));
    FlatConcat(before, [Tag("tr")] + (body + ([Tag("/tr")] + rest)));
    OneTag("tr");
    OneTag("/tr");
    CloseIsOpen("tr");
    assert "/" + "tr" == "/tr" && NoAngle("tr");
    FindElement(before, "tr", body, Flat(rest));
    Regroup(Flat(before), Open("tr"), Flat(body), Open("/tr"), Flat(rest));
  }

  lemma BodySplits(rows: seq<seq<Cell>>, before: seq<Piece>, after: seq<Piece>)
    requires rows != []
    ensures before + (Body(rows) + after) == before + [Plain("\n      ")] +
              ([Tag("tr")] + (Row(rows[0]) + ([Tag("/tr")] + (Body(rows[1..]) + after))))
  {
    hide Row;
  }

  lemma LineBefore(before: seq<Piece>)
    requires Proper(before) && !HasTag(before, "tr")
    ensures Proper(before + [Plain("\n      ")]) && !HasTag(before + [Plain("\n      ")], "tr")
  {
    hide Proper, HasTag;
    PlainLine();
    ProperConcat(before, [Plain("\n      ")]);
    HasTagConcat(before, [Plain("\n      ")], "tr");
  }

  lemma NoRows(before: seq<Piece>, after: seq<Piece>)
    requires Proper(before) && !HasTag(before, "tr") && Proper(after) && !HasTag(after, "tr")
    ensures FindAll(Flat(before + after), "tr") == []
  {
    hide Flat, FindAll, Proper, HasTag;
    ProperConcat(before, after);
    HasTagConcat(before, after, "tr");
    assert NoAngle("tr");
    FindNone(before + after, "tr");
  }

  lemma {:induction false} BodyReads(rows: seq<seq<Cell>>, before: seq<Piece>, after: seq<Piece>)
    requires AllRowsShown(rows) && Proper(before) && !HasTag(before, "tr") && Proper(after) && !HasTag(after, "tr")
    ensures FindAll(Flat(before + (Body(rows) + after)), "tr") == RowTexts(rows)
  {
    hide Flat, FindAll, Proper, HasTag, Row, AllShown, Contains, NoAngle;
    if rows == [] {
      NoRows(before, after);
      assert Body(rows) + after == after;
    } else {
      LineBefore(before);
      RowReads(rows[0]);
      RowFound(before + [Plain("\n      ")], Row(rows[0]), Body(rows[1..]) + after);
      BodySplits(rows, before, after);
      Empty();
      BodyReads(rows[1..], [], after);
      assert [] + (Body(rows[1..]) + after) == Body(rows[1..]) + after;
    }
  }

  lemma PlainLine()
    ensures Proper([Plain("\n      ")]) && !HasTag([Plain("\n      ")], "tr")
  {
  }

  lemma {:induction false} RowsRead(rows: seq<seq<Cell>>)
    requires AllRowsShown(rows)
    ensures CellsOfRows(RowTexts(rows)) == RowFragments(rows)
  {
    hide Flat, FindAll, Row, Contains, Open, AllShown;
    if rows != [] {
      RowReads(rows[0]);
      RowsRead(rows[1..]);
      assert RowTexts(rows)[1..] == RowTexts(rows[1..]);
    }
  }

  // ---- the cells' own text ------------------------------------------------------------------

  function AsIs(text: string): string {
    text
  }

  lemma BareEscape(s: string)
    requires IsBare(s)
    ensures Escape(s) == s
  {
    EscapeNothing(s);
  }

  lemma EndpointCellEscapes(endpoint: Option<Endpoint>)
    ensures EndpointCell(endpoint, Escape).shown == Escape(EndpointCell(endpoint, AsIs).shown)
  {
    hide Escape;
    if endpoint.Some? {
      EndpointEscapes(endpoint.value);
    } else {
      ConstantsAreBare();
      BareEscape("not published");
    }
  }

  predicate ShownEscaped(s: Server) {
    && |Cells(s, Escape)| == |Cells(s, AsIs)|
    && forall k :: 0 <= k < |Cells(s, AsIs)| ==> Cells(s, Escape)[k].shown == Escape(Cells(s, AsIs)[k].shown)
  }

  lemma ClassicEscapes(s: Server)
    requires s.Classic? && IsServer(s)
    ensures ShownEscaped(s)
  {
    hide Escape, EndpointCell, IsBare, IsDigest, Decimals.Render;
    DigestIsBare(s.serverId);
    BareEscape(s.serverId);
    DigitsAreBare(s.playersCount);
    BareEscape(Decimals.Render(s.playersCount));
    ConstantsAreBare();
    BareEscape("listed");
    BareEscape(Policy(s.accessRequired));
    EndpointCellEscapes(s.endpoint);
  }

  lemma GameEscapes(s: Server)
    requires s.Game? && IsServer(s)
    ensures ShownEscaped(s)
  {
    hide Escape, EndpointCell, IsBare, IsDigest, Decimals.Render, IsText, IsSlug, FitsStatus;
    DigestIsBare(s.serverId);
    BareEscape(s.serverId);
    DigestIsBare(s.contentRevision);
    BareEscape(s.contentRevision);
    ConstantsAreBare();
    BareEscape("not published");
    ProtocolIsBare(s.minor);
    BareEscape("1." + Decimals.Render(s.minor));
    CountsAreBare(s.online, s.capacity);
    BareEscape(Decimals.Render(s.online) + "/" + Decimals.Render(s.capacity));
    StatusIsBare(s.status, s.online, s.capacity);
    BareEscape(s.status);
    BareEscape(Policy(s.accessRequired));
    EndpointCellEscapes(s.endpoint);
  }

  /** What a row shows is its values, escaped; so it opens and closes no tag. */
  lemma CellsEscape(s: Server)
    requires IsServer(s)
    ensures ShownEscaped(s) && AllShown(Cells(s, Escape)) && Cells(s, Escape) != []
  {
    hide Escape, Cells, IsServer;
    if s.Classic? {
      ClassicEscapes(s);
    } else {
      GameEscapes(s);
    }
    forall k | 0 <= k < |Cells(s, Escape)|
      ensures NoAngle(Cells(s, Escape)[k].shown)
    {
      UnescapeEscape(Cells(s, AsIs)[k].shown);
    }
    SomeCells(s, Escape);
  }

  lemma SomeCells(s: Server, escape: string -> string)
    ensures Cells(s, escape) != []
  {
  }
}
