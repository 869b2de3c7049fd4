/**
 When the reader's safety check refuses a page: exactly when some value it shows
 holds the refused word, in any case.
 */
module HtmlSafety {
  import opened MarkupText
  import opened HtmlEscaping
  import opened DirectoryPage
  import opened DirectoryHtml
  import opened PageLayout
  import opened HtmlCells

  predicate Holds(text: string) {
    Contains(LowerText(text), TOKEN)
  }

  predicate Says(ps: seq<Piece>) {
    exists k :: 0 <= k < |ps| && Holds(Inner(ps[k]))
  }

  predicate RowShows(cells: seq<Cell>) {
    exists k :: 0 <= k < |cells| && Holds(cells[k].shown)
  }

  /** Some value of the listing, as the page shows it, holds the refused word. */
  predicate IsRefused(s: Server) {
    RowShows(Cells(s, AsIs))
  }

  predicate AnyRefused(s: Snapshot) {
    exists k :: 0 <= k < |s.servers| && IsRefused(s.servers[k])
  }

  // ---- a page in lower case -----------------------------------------------------------------

  function LowerPiece(p: Piece): Piece {
    if p.Tag? then Tag(LowerText(p.name)) else Plain(LowerText(p.text))
  }

  function LowerPieces(ps: seq<Piece>): (r: seq<Piece>)
    ensures |r| == |ps| && forall k :: 0 <= k < |ps| ==> r[k] == LowerPiece(ps[k])
  {
    if ps == [] then [] else [LowerPiece(ps[0])] + LowerPieces(ps[1..])
  }

  lemma LowerShown(p: Piece)
    ensures LowerText(Shown(p)) == Shown(LowerPiece(p)) && Inner(LowerPiece(p)) == LowerText(Inner(p))
  {
  }

  lemma {:induction false} LowerFlat(ps: seq<Piece>)
    ensures LowerText(Flat(ps)) == Flat(LowerPieces(ps))
  {
    hide Shown, LowerPiece, LowerText;
    if ps == [] {
      LowerNothing();
    } else {
      LowerConcat(Shown(ps[0]), Flat(ps[1..]));
      LowerShown(ps[0]);
      LowerFlat(ps[1..]);
      assert LowerPieces(ps)[1..] == LowerPieces(ps[1..]);
    }
  }

  lemma LowerNothing()
    ensures LowerText("") == ""
  {
  }

  lemma LowerLaid(ps: seq<Piece>)
    requires Laid(ps)
    ensures var lowered := LowerPieces(ps);
            && Proper(lowered) && Separated(lowered)
            && forall k :: 0 <= k < |lowered| && lowered[k].Tag? ==>
                 |lowered[k].name| > 0 && lowered[k].name[0] != 's' && lowered[k].name[0] != 'f'
  {
  }

  lemma TokenIsWord()
    ensures IsWord(TOKEN) && NoAngle(TOKEN) && |TOKEN| == 11 && TOKEN[10] == ':'
    ensures "<" + "script" == "<script" && "<" + "form" == "<form" && NoAngle("script") && NoAngle("form")
  {
  }

  lemma SaysLowered(ps: seq<Piece>)
    ensures AnyContains(LowerPieces(ps), TOKEN) <==> Says(ps)
  {
    hide Contains, Inner, LowerPiece, LowerText;
    forall k | 0 <= k < |ps|
      ensures Inner(LowerPieces(ps)[k]) == LowerText(Inner(ps[k]))
    {
      LowerShown(ps[k]);
    }
  }

  /** The check finds nothing but the refused word inside one text. */
  lemma UnsafeIsSaying(ps: seq<Piece>)
    requires Laid(ps)
    ensures IsUnsafe(LowerText(Flat(ps))) <==> Says(ps)
  {
    hide Flat, Contains, NoAngle, IsWord, LowerText, Laid, AnyContains, Says, Separated, Proper;
    LowerFlat(ps);
    LowerLaid(ps);
    TokenIsWord();
    TagTokenAbsent(LowerPieces(ps), "script");
    TagTokenAbsent(LowerPieces(ps), "form");
    TokenWithinPiece(LowerPieces(ps), TOKEN);
    SaysLowered(ps);
  }

  // ---- the parts of a page ------------------------------------------------------------------

  lemma MuteSaysNothing(ps: seq<Piece>)
    requires AllMute(ps)
    ensures !Says(ps)
  {
    forall k | 0 <= k < |ps|
      ensures !Holds(Inner(ps[k]))
    {
      assert Mute(ps[k]);
      NoColon(Inner(ps[k]));
    }
  }

  lemma NoColon(text: string)
    requires ':' !in text
    ensures !Holds(text)
  {
    TokenIsWord();
    assert forall k :: 0 <= k < |text| ==> text[k] in text && LowerText(text)[k] != ':';
    LackContains(LowerText(text), TOKEN, 10);
  }

  lemma SaysConcat(a: seq<Piece>, b: seq<Piece>)
    ensures Says(a + b) <==> Says(a) || Says(b)
  {
    hide Holds, Inner;
    assert forall k :: 0 <= k < |a| ==> (a + b)[k] == a[k];
    assert forall k :: 0 <= k < |b| ==> (a + b)[|a| + k] == b[k];
  }

  lemma CellSays(c: Cell)
    requires NoAngle(c.shown)
    ensures Laid(CellBody(c)) && (Says(CellBody(c)) <==> Holds(c.shown))
  {
    hide Holds, Mute;
    CellTags();
    CodeTags();
    if c.Text? {
      assert CellBody(c)[0] == Plain(c.shown);
    } else {
      assert CellBody(c)[1] == Plain(c.shown);
    }
  }

  lemma CodeTags()
    ensures !Holds("code") && !Holds("/code")
  {
    NoColon("code");
    NoColon("/code");
  }

  lemma RowShowsHead(cells: seq<Cell>)
    requires cells != []
    ensures RowShows(cells) <==> Holds(cells[0].shown) || RowShows(cells[1..])
  {
    hide Holds;
    assert forall k :: 0 <= k < |cells[1..]| ==> cells[1..][k] == cells[k + 1];
    assert forall k :: 1 <= k < |cells| ==> cells[k] == cells[1..][k - 1];
  }

  lemma OneSection(name: string)
    requires Fixed(Tag(name))
    ensures Section([Tag(name)]) && !Says([Tag(name)])
  {
    MuteSaysNothing([Tag(name)]);
  }

  lemma {:induction false} RowSays(cells: seq<Cell>)
    requires AllShown(cells)
    ensures Laid(Row(cells)) && (Says(Row(cells)) <==> RowShows(cells))
    ensures cells != [] ==> Row(cells)[0].Tag?
    ensures Row(cells) == [] || Row(cells)[|Row(cells)| - 1].Tag?
  {
    hide Holds, Says, Laid, NoAngle, CellBody, Fixed, RowShows;
    if cells == [] {
      NothingSaid();
    } else {
      var body, rest := CellBody(cells[0]), Row(cells[1..]);
      RowSays(cells[1..]);
      RowShowsHead(cells);
      RowSplits(cells);
      CellSays(cells[0]);
      CellTags();
      OneSection("td");
      OneSection("/td");
      LaidConcat([Tag("/td")], rest);
      LaidConcat(body, [Tag("/td")] + rest);
      LaidConcat([Tag("td")], body + ([Tag("/td")] + rest));
      SaysConcat([Tag("/td")], rest);
      SaysConcat(body, [Tag("/td")] + rest);
      SaysConcat([Tag("td")], body + ([Tag("/td")] + rest));
    }
  }

  lemma NothingSaid()
    ensures Laid([]) && !Says([]) && !RowShows([])
  {
  }

  // ---- the table's rows ---------------------------------------------------------------------

  predicate BodyShows(rows: seq<seq<Cell>>) {
    exists k :: 0 <= k < |rows| && RowShows(rows[k])
  }

  lemma BodyShowsHead(rows: seq<seq<Cell>>)
    requires rows != []
    ensures BodyShows(rows) <==> RowShows(rows[0]) || BodyShows(rows[1..])
  {
    hide RowShows;
    assert forall k :: 0 <= k < |rows[1..]| ==> rows[1..][k] == rows[k + 1];
    assert forall k :: 1 <= k < |rows| ==> rows[k] == rows[1..][k - 1];
  }

  lemma LineSection()
    ensures Section([Plain("\n      ")]) && !Says([Plain("\n      ")])
  {
    Spaces();
    MuteSaysNothing([Plain("\n      ")]);
  }

  lemma RowWrapped(row: seq<Piece>, rest: seq<Piece>)
    requires Laid(row) && (row == [] || (row[0].Tag? && row[|row| - 1].Tag?)) && Laid(rest)
    ensures var all := [Plain("\n      ")] + ([Tag("tr")] + (row + ([Tag("/tr")] + rest)));
            Laid(all) && (Says(all) <==> Says(row) || Says(rest))
  {
    hide Says, Laid, Fixed;
    CellTags();
    OneSection("tr");
    OneSection("/tr");
    LineSection();
    LaidConcat([Tag("/tr")], rest);
    LaidConcat(row, [Tag("/tr")] + rest);
    LaidConcat([Tag("tr")], row + ([Tag("/tr")] + rest));
    LaidConcat([Plain("\n      ")], [Tag("tr")] + (row + ([Tag("/tr")] + rest)));
    SaysConcat([Tag("/tr")], rest);
    SaysConcat(row, [Tag("/tr")] + rest);
    SaysConcat([Tag("tr")], row + ([Tag("/tr")] + rest));
    SaysConcat([Plain("\n      ")], [Tag("tr")] + (row + ([Tag("/tr")] + rest)));
  }

  lemma {:induction false} BodySays(rows: seq<seq<Cell>>)
    requires AllRowsShown(rows)
    ensures Laid(Body(rows)) && (Says(Body(rows)) <==> BodyShows(rows))
    ensures Body(rows) == [] || Body(rows)[|Body(rows)| - 1].Tag?
  {
    hide Says, Laid, Row, RowShows, BodyShows, AllShown;
    if rows == [] {
      NothingSaid();
      NoBody();
    } else {
      var row, rest := Row(rows[0]), Body(rows[1..]);
      BodySays(rows[1..]);
      BodyShowsHead(rows);
      RowSays(rows[0]);
      RowWrapped(row, rest);
      assert Body(rows) == [Plain("\n      ")] + ([Tag("tr")] + (row + ([Tag("/tr")] + rest)));
    }
  }

  lemma NoBody()
    ensures !BodyShows([])
  {
  }

  // ---- the whole page -----------------------------------------------------------------------

  lemma RowsShown(s: Snapshot)
    requires IsAdmitted(s)
    ensures AllRowsShown(Rows(s.servers, Escape))
  {
    hide Cells, IsServer, AllShown;
    forall k | 0 <= k < |s.servers|
      ensures AllShown(Rows(s.servers, Escape)[k]) && Rows(s.servers, Escape)[k] != []
    {
      CellsEscape(s.servers[k]);
    }
  }

  lemma EscapeHolds(text: string)
    ensures Holds(Escape(text)) <==> Holds(text)
  {
    LowerEscape(text);
    TokenIsWord();
    EscapeContains(LowerText(text), TOKEN);
  }

  lemma RowShowsValues(s: Server)
    requires IsServer(s)
    ensures RowShows(Cells(s, Escape)) <==> IsRefused(s)
  {
    hide Cells, Holds, Escape, IsServer;
    CellsEscape(s);
    forall k | 0 <= k < |Cells(s, AsIs)|
      ensures Holds(Cells(s, Escape)[k].shown) <==> Holds(Cells(s, AsIs)[k].shown)
    {
      EscapeHolds(Cells(s, AsIs)[k].shown);
    }
  }

  lemma BodyShowsValues(s: Snapshot)
    requires IsAdmitted(s)
    ensures BodyShows(Rows(s.servers, Escape)) <==> AnyRefused(s)
  {
    hide Cells, IsServer, IsRefused, RowShows;
    forall k | 0 <= k < |s.servers|
      ensures RowShows(Rows(s.servers, Escape)[k]) <==> IsRefused(s.servers[k])
    {
      RowShowsValues(s.servers[k]);
    }
  }

  lemma BelowSays(rows: seq<seq<Cell>>)
    requires AllRowsShown(rows)
    ensures Laid(Below(rows)) && (Says(Below(rows)) <==> BodyShows(rows)) && Below(rows)[0].Tag?
  {
    hide Says, Laid, AllMute, BodyShows, AllRowsShown, Body, AllOutside, TableBody, Tail;
    TableBodyIsSection();
    TailIsSection();
    MuteSaysNothing(TableBody());
    MuteSaysNothing(Tail());
    BodySays(rows);
    var last: seq<Piece> := if rows == [] then [] else [Plain("\n    ")];
    LastLine(rows);
    TableEnds();
    LaidConcat(last, Tail());
    LaidConcat(Body(rows), last + Tail());
    LaidConcat(TableBody(), Body(rows) + (last + Tail()));
    SaysConcat(last, Tail());
    SaysConcat(Body(rows), last + Tail());
    SaysConcat(TableBody(), Body(rows) + (last + Tail()));
  }

  lemma LastLine(rows: seq<seq<Cell>>)
    ensures var last: seq<Piece> := if rows == [] then [] else [Plain("\n    ")];
            Laid(last) && !Says(last)
  {
    Spaces();
    MuteSaysNothing(if rows == [] then [] else [Plain("\n    ")]);
  }

  lemma TableEnds()
    ensures TableBody() != [] && TableBody()[0].Tag? && TableBody()[|TableBody()| - 1].Tag?
    ensures Tail() != [] && Tail()[0].Tag?
  {
  }

  lemma PageSays(s: Snapshot)
    requires IsAdmitted(s)
    ensures Laid(Page(s, Escape)) && (Says(Page(s, Escape)) <==> AnyRefused(s))
  {
    hide Says, Laid, AllMute, BodyShows, AllRowsShown, Above, Below, HasTag, HeadingRow, Headings, IsAdmitted, Fixed,
         AnyRefused, Rows;
    var rows := Rows(s.servers, Escape);
    RowsShown(s);
    BodyShowsValues(s);
    BelowSays(rows);
    AboveIsSection(s);
    MuteSaysNothing(Above(s));
    HeadingRowIsSection(Headings(s.profile));
    HeadingsExist(s.profile);
    var heading := HeadingRow(Headings(s.profile));
    MuteSaysNothing(heading);
    CellTags();
    OneSection("tr");
    OneSection("/tr");
    LaidConcat([Tag("/tr")], Below(rows));
    LaidConcat(heading, [Tag("/tr")] + Below(rows));
    LaidConcat([Tag("tr")], heading + ([Tag("/tr")] + Below(rows)));
    LaidConcat(Above(s), [Tag("tr")] + (heading + ([Tag("/tr")] + Below(rows))));
    SaysConcat([Tag("/tr")], Below(rows));
    SaysConcat(heading, [Tag("/tr")] + Below(rows));
    SaysConcat([Tag("tr")], heading + ([Tag("/tr")] + Below(rows)));
    SaysConcat(Above(s), [Tag("tr")] + (heading + ([Tag("/tr")] + Below(rows))));
  }

  /** The safety check refuses a rendered page exactly when a shown value holds the word. */
  lemma RefusedExactly(s: Snapshot)
    requires IsAdmitted(s)
    ensures IsUnsafe(LowerText(RenderHtml(s))) <==> AnyRefused(s)
  {
    hide Says, Laid, IsUnsafe, Flat, Page, AnyRefused, IsAdmitted;
    PageSays(s);
    UnsafeIsSaying(Page(s, Escape));
  }
}
