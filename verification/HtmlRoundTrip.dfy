/**
 The printer and the reader of the HTML page undo each other, except on the pages
 the safety check refuses.
 */
module HtmlRoundTrip {
  import opened Options
  import opened MarkupText
  import opened HtmlEscaping
  import opened DirectoryPage
  import opened DirectoryHtml
  import opened PageLayout
  import opened HtmlCells
  import opened HtmlSafety
  import Decimals

  // ---- the labelled values ------------------------------------------------------------------

  /** The pieces of a term after its opening tag. */
  function AfterTerm(caption: string, value: seq<Piece>, after: string): seq<Piece> {
    [Plain(caption), Tag("/dt"), Tag("dd")] + value + [Tag("/dd"), Plain(after)]
  }

  lemma FlatPlain(text: string, rest: seq<Piece>)
    ensures Flat([Plain(text)] + rest) == text + Flat(rest)
  {
    assert ([Plain(text)] + rest)[1..] == rest;
  }

  lemma FlatTag(name: string, rest: seq<Piece>)
    ensures Flat([Tag(name)] + rest) == Open(name) + Flat(rest)
  {
    hide Open;
    assert ([Tag(name)] + rest)[1..] == rest;
  }

  lemma TermText(caption: string, value: seq<Piece>, after: string, rest: string)
    ensures var body := Flat([Tag("dd")] + value + [Tag("/dd"), Plain(after)]) + rest;
            && Flat(TermPieces(caption, value, after)) + rest == Open("dt") + (caption + (Close("dt") + body))
            && Flat(AfterTerm(caption, value, after)) + rest == caption + (Close("dt") + body)
  {
    hide Flat, Open;
    var dd := [Tag("dd")] + value + [Tag("/dd"), Plain(after)];
    FlatTag("/dt", dd);
    FlatPlain(caption, [Tag("/dt")] + dd);
    FlatTag("dt", [Plain(caption)] + ([Tag("/dt")] + dd));
    CloseIsOpen("dt");
    assert "/" + "dt" == "/dt";
    assert AfterTerm(caption, value, after) == [Plain(caption)] + ([Tag("/dt")] + dd);
    assert TermPieces(caption, value, after) == [Tag("dt")] + ([Plain(caption)] + ([Tag("/dt")] + dd));
  }

  lemma AfterTermIsPlain(caption: Wording, value: seq<Piece>, after: Wording)
    requires Proper(value) && !HasTag(value, "dt")
    ensures Proper(AfterTerm(caption, value, after)) && !HasTag(AfterTerm(caption, value, after), "dt")
  {
    hide HasTag, Proper;
    var front, back: seq<Piece> := [Plain(caption), Tag("/dt"), Tag("dd")], [Tag("/dd"), Plain(after)];
    TermEnds(caption, after);
    ProperConcat(front, value);
    ProperConcat(front + value, back);
    HasTagConcat(front, value, "dt");
    HasTagConcat(front + value, back, "dt");
  }

  lemma TermEnds(caption: Wording, after: Wording)
    ensures Proper([Plain(caption), Tag("/dt"), Tag("dd")]) && !HasTag([Plain(caption), Tag("/dt"), Tag("dd")], "dt")
    ensures Proper([Tag("/dd"), Plain(after)]) && !HasTag([Tag("/dd"), Plain(after)], "dt")
  {
    assert "dd"[1] == 'd' && "dt"[1] == 't' && |"/dt"| == 3 && |"/dd"| == 3 && |"dt"| == 2;
  }

  /** A search for another caption passes over a term. */
  lemma TermPassed(caption: Wording, value: seq<Piece>, after: Wording, rest: string, sought: Wording, tail: string,
                   suffix: string)
    requires Proper(value) && !HasTag(value, "dt") && caption != sought
    ensures FindBetween(Flat(TermPieces(caption, value, after)) + rest, Term(sought) + tail, suffix) ==
            FindBetween(rest, Term(sought) + tail, suffix)
  {
    hide FindBetween, Flat, Open, HasTag, Proper, TermPieces, AfterTerm, Term;
    TermText(caption, value, after, rest);
    var body := Flat([Tag("dd")] + value + [Tag("/dd"), Plain(after)]) + rest;
    OtherTerm(caption, body, sought, tail, suffix);
    AfterTermIsPlain(caption, value, after);
    BetweenPieces(AfterTerm(caption, value, after), rest, sought, tail, suffix);
  }

  lemma NumberPassed(caption: Wording, n: nat, after: Wording, rest: string, sought: Wording, tail: string,
                     suffix: string)
    requires caption != sought
    ensures FindBetween(Flat(NumberTerm(caption, n, after)) + rest, Term(sought) + tail, suffix) ==
            FindBetween(rest, Term(sought) + tail, suffix)
  {
    hide FindBetween, Flat, Term, TermPieces, Decimals.Render;
    NumberIsFixed(n);
    TermPassed(caption, [Plain(Decimals.Render(n))], after, rest, sought, tail, suffix);
  }

  lemma SchemaPassed(profile: Profile, rest: string, sought: Wording, tail: string, suffix: string)
    requires sought != "Schema"
    ensures FindBetween(Flat(SchemaTerm(profile)) + rest, Term(sought) + tail, suffix) ==
            FindBetween(rest, Term(sought) + tail, suffix)
  {
    hide FindBetween, Flat, Term, TermPieces, Schema;
    CellTags();
    assert |"code"| == 4 && |"/code"| == 5 && |"dt"| == 2;
    TermPassed("Schema", [Tag("code"), Plain(Schema(profile)), Tag("/code")], "\n    ", rest, sought, tail, suffix);
  }

  lemma HeadPassed(title: Wording, rest: string, sought: Wording, tail: string, suffix: string)
    ensures FindBetween(Flat(Head(title)) + rest, Term(sought) + tail, suffix) ==
            FindBetween(rest, Term(sought) + tail, suffix)
  {
    hide FindBetween, Flat, Term, Head, AllMute, AllOutside, HasTag;
    HeadIsSection(title);
    OutsideHasNot(Head(title));
    BetweenPieces(Head(title), rest, sought, tail, suffix);
  }

  lemma NumberFound(caption: Wording, n: nat, after: Wording, rest: string)
    ensures FindBetween(Flat(NumberTerm(caption, n, after)) + rest, Term(caption) + "", Close("dd")) ==
            Some(Decimals.Render(n))
  {
    hide FindBetween, Flat, Open, Decimals.Render, NoAngle;
    var value := Decimals.Render(n);
    TermText(caption, [Plain(value)], after, rest);
    FlatPlain(after, []);
    FlatTag("/dd", [Plain(after)]);
    FlatPlain(value, [Tag("/dd"), Plain(after)]);
    FlatTag("dd", [Plain(value)] + [Tag("/dd"), Plain(after)]);
    assert [Tag("dd")] + [Plain(value)] + [Tag("/dd"), Plain(after)] ==
           [Tag("dd")] + ([Plain(value)] + [Tag("/dd"), Plain(after)]);
    assert [Tag("/dd"), Plain(after)] == [Tag("/dd")] + [Plain(after)];
    CloseIsOpen("dd");
    assert "/" + "dd" == "/dd";
    RenderedValue(n);
    CloseBegins();
    FoundTerm(caption, "", value, Close("dd"), Flat([Plain(after)]) + rest);
    NumberRegroups(caption, value, Flat([Plain(after)]), rest);
  }

  lemma RenderedValue(n: nat)
    ensures |Decimals.Render(n)| > 0 && NoAngle(Decimals.Render(n))
  {
    Decimals.RenderDenotes(n);
  }

  lemma CloseBegins()
    ensures |Close("dd")| > 0 && Close("dd")[0] == '<'
    ensures |Close("code") + Close("dd")| > 0 && (Close("code") + Close("dd"))[0] == '<'
  {
  }

  lemma NumberRegroups(caption: string, value: string, end: string, rest: string)
    ensures Open("dt") + (caption + (Close("dt") + (Open("dd") + (value + (Close("dd") + end)) + rest))) ==
            Term(caption) + "" + (value + (Close("dd") + (end + rest)))
  {
    hide Open, Close;
  }

  lemma SchemaFound(profile: Profile, rest: string)
    ensures FindBetween(Flat(SchemaTerm(profile)) + rest, Term("Schema") + Open("code"), Close("code") + Close("dd")) ==
            Some(Schema(profile))
  {
    hide FindBetween, Flat, Open, Schema, NoAngle;
    var value: string := Schema(profile);
    var after := "\n    ";
    var last: seq<Piece> := [Plain(after)];
    var end: seq<Piece> := [Tag("/dd")] + last;
    TermText("Schema", [Tag("code"), Plain(value), Tag("/code")], after, rest);
    FlatTag("/dd", last);
    FlatTag("/code", end);
    FlatPlain(value, [Tag("/code")] + end);
    FlatTag("code", [Plain(value)] + ([Tag("/code")] + end));
    FlatTag("dd", [Tag("code")] + ([Plain(value)] + ([Tag("/code")] + end)));
    assert [Tag("dd")] + [Tag("code"), Plain(value), Tag("/code")] + [Tag("/dd"), Plain(after)] ==
           [Tag("dd")] + ([Tag("code")] + ([Plain(value)] + ([Tag("/code")] + end)));
    CloseIsOpen("dd");
    CloseIsOpen("code");
    assert "/" + "dd" == "/dd" && "/" + "code" == "/code";
    SchemaShown(profile);
    CloseBegins();
    FoundTerm("Schema", Open("code"), value, Close("code") + Close("dd"), Flat(last) + rest);
    SchemaRegroups(value, Flat(last), rest);
  }

  lemma SchemaShown(profile: Profile)
    ensures |Schema(profile)| > 0 && NoAngle(Schema(profile))
  {
  }

  lemma SchemaRegroups(value: string, end: string, rest: string)
    ensures Open("dt") + ("Schema" + (Close("dt") +
              (Open("dd") + (Open("code") + (value + (Close("code") + (Close("dd") + end)))) + rest))) ==
            Term("Schema") + Open("code") + (value + (Close("code") + Close("dd") + (end + rest)))
  {
    hide Open, Close;
  }

  // ---- the values of a page -----------------------------------------------------------------

  /** The text of a page, from its labelled values on. */
  lemma PageText(s: Snapshot)
    ensures var table := Flat(TableHead()) + Flat(Table(s, Escape));
            RenderHtml(s) ==
            Flat(Head(Title(s.profile))) + (Flat(SchemaTerm(s.profile)) +
            (Flat(NumberTerm("Generation", s.generation, "\n    ")) +
            (Flat(NumberTerm("Generated at", s.generatedAt, "\n    ")) +
            (Flat(NumberTerm("Expires at", s.expiresAt, "\n  ")) + table))))
  {
    hide Flat, Head, SchemaTerm, NumberTerm, TableHead, Title, Below, HeadingRow, Headings, Rows;
    var t4 := NumberTerm("Expires at", s.expiresAt, "\n  ") + TableHead();
    var t3 := NumberTerm("Generated at", s.generatedAt, "\n    ") + t4;
    var t2 := NumberTerm("Generation", s.generation, "\n    ") + t3;
    var t1 := SchemaTerm(s.profile) + t2;
    var rest := Table(s, Escape);
    FlatConcat(NumberTerm("Expires at", s.expiresAt, "\n  "), TableHead());
    FlatConcat(NumberTerm("Generated at", s.generatedAt, "\n    "), t4);
    FlatConcat(NumberTerm("Generation", s.generation, "\n    "), t3);
    FlatConcat(SchemaTerm(s.profile), t2);
    FlatConcat(Head(Title(s.profile)), t1);
    FlatConcat(Above(s), rest);
  }

  lemma SchemaReads(s: Snapshot)
    ensures HtmlCode(RenderHtml(s), "Schema") == Some(Schema(s.profile))
  {
    hide Flat, FindBetween, Term, Open, Close, Head, SchemaTerm, NumberTerm, TableHead, Table, Schema, Title,
         RenderHtml, Decimals.Render;
    PageText(s);
    var r4 := Flat(TableHead()) + Flat(Table(s, Escape));
    var r3 := Flat(NumberTerm("Expires at", s.expiresAt, "\n  ")) + r4;
    var r2 := Flat(NumberTerm("Generated at", s.generatedAt, "\n    ")) + r3;
    var r1 := Flat(NumberTerm("Generation", s.generation, "\n    ")) + r2;
    var r0 := Flat(SchemaTerm(s.profile)) + r1;
    HeadPassed(Title(s.profile), r0, "Schema", Open("code"), Close("code") + Close("dd"));
    SchemaFound(s.profile, r1);
  }

  lemma GenerationShown(s: Snapshot)
    ensures HtmlValue(RenderHtml(s), "Generation") == Some(Decimals.Render(s.generation))
  {
    hide Flat, FindBetween, Term, Open, Close, Head, SchemaTerm, NumberTerm, TableHead, Table, Schema, Title,
         RenderHtml, Decimals.Render;
    PageText(s);
    var r4 := Flat(TableHead()) + Flat(Table(s, Escape));
    var r3 := Flat(NumberTerm("Expires at", s.expiresAt, "\n  ")) + r4;
    var r2 := Flat(NumberTerm("Generated at", s.generatedAt, "\n    ")) + r3;
    var r1 := Flat(NumberTerm("Generation", s.generation, "\n    ")) + r2;
    var r0 := Flat(SchemaTerm(s.profile)) + r1;
    CaptionsDiffer();
    HeadPassed(Title(s.profile), r0, "Generation", "", Close("dd"));
    SchemaPassed(s.profile, r1, "Generation", "", Close("dd"));
    NumberFound("Generation", s.generation, "\n    ", r2);
  }

  lemma StartShown(s: Snapshot)
    ensures HtmlValue(RenderHtml(s), "Generated at") == Some(Decimals.Render(s.generatedAt))
  {
    hide Flat, FindBetween, Term, Open, Close, Head, SchemaTerm, NumberTerm, TableHead, Table, Schema, Title,
         RenderHtml, Decimals.Render;
    PageText(s);
    var r4 := Flat(TableHead()) + Flat(Table(s, Escape));
    var r3 := Flat(NumberTerm("Expires at", s.expiresAt, "\n  ")) + r4;
    var r2 := Flat(NumberTerm("Generated at", s.generatedAt, "\n    ")) + r3;
    var r1 := Flat(NumberTerm("Generation", s.generation, "\n    ")) + r2;
    var r0 := Flat(SchemaTerm(s.profile)) + r1;
    CaptionsDiffer();
    HeadPassed(Title(s.profile), r0, "Generated at", "", Close("dd"));
    SchemaPassed(s.profile, r1, "Generated at", "", Close("dd"));
    NumberPassed("Generation", s.generation, "\n    ", r2, "Generated at", "", Close("dd"));
    NumberFound("Generated at", s.generatedAt, "\n    ", r3);
  }

  lemma EndShown(s: Snapshot)
    ensures HtmlValue(RenderHtml(s), "Expires at") == Some(Decimals.Render(s.expiresAt))
  {
    hide Flat, FindBetween, Term, Open, Close, Head, SchemaTerm, NumberTerm, TableHead, Table, Schema, Title,
         RenderHtml, Decimals.Render;
    PageText(s);
    var r4 := Flat(TableHead()) + Flat(Table(s, Escape));
    var r3 := Flat(NumberTerm("Expires at", s.expiresAt, "\n  ")) + r4;
    var r2 := Flat(NumberTerm("Generated at", s.generatedAt, "\n    ")) + r3;
    var r1 := Flat(NumberTerm("Generation", s.generation, "\n    ")) + r2;
    var r0 := Flat(SchemaTerm(s.profile)) + r1;
    CaptionsDiffer();
    HeadPassed(Title(s.profile), r0, "Expires at", "", Close("dd"));
    SchemaPassed(s.profile, r1, "Expires at", "", Close("dd"));
    NumberPassed("Generation", s.generation, "\n    ", r2, "Expires at", "", Close("dd"));
    NumberPassed("Generated at", s.generatedAt, "\n    ", r3, "Expires at", "", Close("dd"));
    NumberFound("Expires at", s.expiresAt, "\n  ", r4);
  }

  /** The four labelled values read back. */
  lemma ValuesRead(s: Snapshot)
    ensures HtmlCode(RenderHtml(s), "Schema") == Some(Schema(s.profile))
    ensures HtmlValue(RenderHtml(s), "Generation") == Some(Decimals.Render(s.generation))
    ensures HtmlValue(RenderHtml(s), "Generated at") == Some(Decimals.Render(s.generatedAt))
    ensures HtmlValue(RenderHtml(s), "Expires at") == Some(Decimals.Render(s.expiresAt))
  {
    hide RenderHtml, HtmlCode, HtmlValue, Schema, Decimals.Render;
    SchemaReads(s);
    GenerationShown(s);
    StartShown(s);
    EndShown(s);
  }

  lemma CaptionsDiffer()
    ensures "Generation" != "Generated at" && "Generation" != "Expires at" && "Generated at" != "Expires at"
    ensures "Schema" != "Generation" && "Schema" != "Generated at" && "Schema" != "Expires at"
  {
    assert |"Schema"| == 6 && |"Generation"| == 10 && |"Generated at"| == 12 && |"Expires at"| == 10;
    assert "Generation"[0] == 'G' && "Expires at"[0] == 'E';
  }

  // ---- the rows of a page -------------------------------------------------------------------

  lemma BelowReads(rows: seq<seq<Cell>>)
    requires AllRowsShown(rows)
    ensures FindAll(Flat(Below(rows)), "tr") == RowTexts(rows)
  {
    hide Flat, FindAll, Body, TableBody, Tail, AllRowsShown, HasTag, AllMute, AllOutside;
    TableBodyIsSection();
    TailIsSection();
    OutsideHasNot(TableBody());
    OutsideHasNot(Tail());
    var last: seq<Piece> := if rows == [] then [] else [Plain("\n    ")];
    LastIsNoRow(rows);
    ProperConcat(last, Tail());
    HasTagConcat(last, Tail(), "tr");
    BodyReads(rows, TableBody(), last + Tail());
  }

  lemma LastIsNoRow(rows: seq<seq<Cell>>)
    ensures var last: seq<Piece> := if rows == [] then [] else [Plain("\n    ")];
            Proper(last) && !HasTag(last, "tr")
  {
  }

  /** The rows with data cells are the listings' rows, each with its cells. */
  lemma TableReads(s: Snapshot)
    requires IsAdmitted(s)
    ensures CellsOfRows(FindAll(RenderHtml(s), "tr")) == RowFragments(Rows(s.servers, Escape))
  {
    hide Flat, FindAll, Below, Above, HeadingRow, Headings, HasTag, AllMute, AllRowsShown, RowTexts, RowFragments,
         Contains, IsAdmitted, Rows, Open;
    var rows := Rows(s.servers, Escape);
    RowsShown(s);
    AboveIsSection(s);
    HeadingRowIsSection(Headings(s.profile));
    var heading := HeadingRow(Headings(s.profile));
    RowFound(Above(s), heading, Below(rows));
    BelowReads(rows);
    assert NoAngle("td");
    FindNone(heading, "td");
    HeadingSkipped(Flat(heading), RowTexts(rows));
    RowsRead(rows);
  }

  lemma HeadingSkipped(heading: string, rest: seq<string>)
    requires !Contains(heading, Open("td"))
    ensures CellsOfRows([heading] + rest) == CellsOfRows(rest)
  {
    hide Contains, Open;
    assert ([heading] + rest)[1..] == rest;
  }

  lemma {:induction false} ServersRead(profile: Profile, servers: seq<Server>, check: string -> bool)
    requires forall k :: 0 <= k < |servers| ==> OfProfile(profile, servers[k]) && IsServer(servers[k])
    ensures ReadServers(profile, RowFragments(Rows(servers, Escape)), check) ==
            if HostsPass(servers, check) then Some(servers) else None
  {
    hide IsServer, ClassicServer, GameServer, Cells, Fragments, HostPasses, HostsPass, Rows, RowFragments;
    if servers == [] {
      NoServers(profile, check);
    } else {
      if profile.ClassicV3? {
        ClassicReads(servers[0], check);
      } else {
        GameReads(servers[0], check);
      }
      ServersRead(profile, servers[1..], check);
      RestOfRows(servers);
      HostsPassHead(servers, check);
      assert servers == [servers[0]] + servers[1..];
    }
  }

  lemma NoServers(profile: Profile, check: string -> bool)
    ensures ReadServers(profile, RowFragments(Rows([], Escape)), check) == Some([]) && HostsPass([], check)
  {
  }

  lemma HostsPassHead(servers: seq<Server>, check: string -> bool)
    requires servers != []
    ensures HostsPass(servers, check) <==> HostPasses(servers[0], check) && HostsPass(servers[1..], check)
  {
    hide HostPasses;
    assert forall k :: 0 <= k < |servers[1..]| ==> servers[1..][k] == servers[k + 1];
    assert forall k :: 1 <= k < |servers| ==> servers[k] == servers[1..][k - 1];
  }

  lemma RestOfRows(servers: seq<Server>)
    requires servers != []
    ensures var rows := RowFragments(Rows(servers, Escape));
            |rows| > 0 && rows[0] == Fragments(Cells(servers[0], Escape))
            && rows[1..] == RowFragments(Rows(servers[1..], Escape))
  {
    hide Cells, Fragments;
    var rows := Rows(servers, Escape);
    assert rows[1..] == Rows(servers[1..], Escape);
    assert RowFragments(rows)[1..] == RowFragments(rows[1..]);
  }

  lemma GenerationReads(n: nat)
    requires 1 <= n <= Decimals.MAX_UINT64
    ensures ReadGeneration(Decimals.Render(n)) == Some(n)
  {
    Decimals.RenderDenotes(n);
    Decimals.RenderLength(n);
  }

  lemma SnapshotReads(s: Snapshot, check: string -> bool)
    requires IsAdmitted(s)
    ensures ReadSnapshot(s.profile, RenderHtml(s), check) == if HostsPass(s.servers, check) then Some(s) else None
  {
    hide RenderHtml, HtmlValue, HtmlCode, FindAll, CellsOfRows, ReadServers, ReadInteger, ReadGeneration, Cells,
         IsServer, Decimals.Render, Rows, RowFragments, Schema, HostsPass;
    ValuesRead(s);
    TableReads(s);
    ServersRead(s.profile, s.servers, check);
    GenerationReads(s.generation);
    IntegerReads(s.generatedAt, 0, MAX_TIMESTAMP);
    IntegerReads(s.expiresAt, 0, MAX_TIMESTAMP);
    SameCount(s);
  }

  lemma SameCount(s: Snapshot)
    ensures |RowFragments(Rows(s.servers, Escape))| == |s.servers|
  {
  }

  // ---- the theorem --------------------------------------------------------------------------

  lemma FlatBegins(ps: seq<Piece>)
    requires |ps| >= 2 && ps[0] == Tag("!doctype html") && ps[1] == Plain("\n")
    ensures Flat(ps) == "<!doctype html>\n" + Flat(ps[2..])
  {
    hide Flat, Open;
    FlatPlain("\n", ps[2..]);
    FlatTag("!doctype html", [Plain("\n")] + ps[2..]);
    assert ps == [Tag("!doctype html")] + ([Plain("\n")] + ps[2..]);
    DoctypeText();
    assert Open("!doctype html") + ("\n" + Flat(ps[2..])) == Open("!doctype html") + "\n" + Flat(ps[2..]);
  }

  lemma DoctypeText()
    ensures Open("!doctype html") + "\n" == "<!doctype html>\n"
  {
  }

  lemma PageBegins(s: Snapshot)
    ensures var page := Page(s, Escape);
            |page| >= 2 && page[0] == Tag("!doctype html") && page[1] == Plain("\n")
  {
    hide Table, SchemaTerm, NumberTerm, TableHead, Title, Language, Charset, Viewport, SecurityPolicy;
    assert Above(s)[0] == Tag("!doctype html") && Above(s)[1] == Plain("\n");
  }

  lemma DoctypeFirst(s: Snapshot)
    ensures StartsWith(LowerText(RenderHtml(s)), "<!doctype html>\n")
  {
    hide Page, Flat, LowerText;
    PageBegins(s);
    FlatBegins(Page(s, Escape));
    var first, rest := "<!doctype html>\n", Flat(Page(s, Escape)[2..]);
    LowerConcat(first, rest);
    LowerDoctype();
    PrefixStarts(first, LowerText(rest));
  }

  lemma PrefixStarts(first: string, rest: string)
    ensures StartsWith(first + rest, first)
  {
  }

  lemma LowerDoctype()
    ensures LowerText("<!doctype html>\n") == "<!doctype html>\n"
  {
  }

  lemma ReadIsAdmitted(profile: Profile, text: string, check: string -> bool)
    ensures var s := ReadSnapshot(profile, text, check);
            s.Some? ==> s.value.profile == profile && IsAdmitted(s.value) && HostsPass(s.value.servers, check)
  {
    hide HtmlValue, FindAll, CellsOfRows, IsServer, DistinctIds, HostsPass;
    GenerationIsPositive(HtmlValue(text, "Generation"));
  }

  lemma GenerationIsPositive(text: Option<string>)
    ensures text.Some? && ReadGeneration(text.value).Some? ==>
              1 <= ReadGeneration(text.value).value <= Decimals.MAX_UINT64
  {
    if text.Some? && Decimals.IsCanonical(text.value) {
      Decimals.ValueBounds(text.value);
      Decimals.Pow10Monotone(0, |text.value| - 1);
    }
  }

  /**
   The reader accepts exactly the rendered pages of admissible snapshots that show
   no refused word and no host its own check refuses.
   */
  lemma AcceptsExactlyRendered(profile: Profile, text: string, s: Snapshot, check: string -> bool)
    ensures ParseHtml(profile, text, check) == Some(s) <==>
              && s.profile == profile && IsAdmitted(s) && HostsPass(s.servers, check) && text == RenderHtml(s)
              && !AnyRefused(s)
  {
    hide RenderHtml, CanonicalHtml, IsUnsafe, HtmlCode, ReadSnapshot, AnyRefused, IsAdmitted, LowerText, StartsWith,
         Schema, HostsPass;
    PrintersAgree(s);
    ReadIsAdmitted(profile, text, check);
    if IsAdmitted(s) {
      RefusedExactly(s);
      DoctypeFirst(s);
      ValuesRead(s);
      SnapshotReads(s, check);
    }
  }

  /**
   Every published page is read back whole, unless it shows the refused word or a
   host label that passed the publisher's check and not the reader's.
   */
  lemma PublishedPageRoundTrips(s: Snapshot, publisher: string -> bool, reader: string -> bool)
    requires IsPublishable(s, publisher)
    ensures ParseHtml(s.profile, RenderHtml(s), reader) ==
            if AnyRefused(s) || !HostsPass(s.servers, reader) then None else Some(s)
  {
    hide RenderHtml, ParseHtml, AnyRefused, IsAdmitted, HostsPass;
    AcceptsExactlyRendered(s.profile, RenderHtml(s), s, reader);
    var read := ParseHtml(s.profile, RenderHtml(s), reader);
    if read.Some? {
      AcceptsExactlyRendered(s.profile, RenderHtml(s), read.value, reader);
      PageDetermines(s, read.value);
    }
  }

  /** No two admissible snapshots share a page. */
  lemma PageDetermines(a: Snapshot, b: Snapshot)
    requires IsAdmitted(a) && IsAdmitted(b) && RenderHtml(a) == RenderHtml(b)
    ensures a == b
  {
    hide RenderHtml, IsAdmitted, ReadSnapshot, HtmlCode, HtmlValue, Schema, Decimals.Render;
    SnapshotReads(a, AnyLabel);
    SnapshotReads(b, AnyLabel);
    ValuesRead(a);
    ValuesRead(b);
    SchemasDiffer(a.profile, b.profile);
  }

  predicate AnyLabel(part: string) {
    true
  }

  lemma SchemasDiffer(a: Profile, b: Profile)
    requires Schema(a) == Schema(b)
    ensures a == b
  {
    assert |Schema(ClassicV3)| == 28 && |Schema(GameV2)| == 25;
  }

  // ---- what a page shows --------------------------------------------------------------------

  /** The column's heading, and what the cell search finds under it in one row. */
  predicate Column(profile: Profile, cells: seq<string>, k: nat, heading: string, shown: string) {
    k < |Headings(profile)| == |cells| && Headings(profile)[k] == heading && cells[k] == shown
  }

  function AsCode(text: string): string {
    "<code>" + text + "</code>"
  }

  function ShownEndpoint(endpoint: Option<Endpoint>): string {
    if endpoint.None? then "not published"
    else AsCode(Escape(endpoint.value.hostname) + ":" + Decimals.Render(endpoint.value.port))
  }

  predicate ShowsClassic(cells: seq<string>, s: Server)
    requires s.Classic?
  {
    && Column(ClassicV3, cells, 0, "Server ID", AsCode(s.serverId))
    && Column(ClassicV3, cells, 1, "Name", Escape(s.name))
    && Column(ClassicV3, cells, 2, "Version", Escape(s.version))
    && Column(ClassicV3, cells, 3, "Players", Decimals.Render(s.playersCount))
    && Column(ClassicV3, cells, 4, "Comment", Escape(s.textComment))
    && Column(ClassicV3, cells, 5, "Certificate SHA-256", AsCode(s.certificate))
    && Column(ClassicV3, cells, 6, "Status", "listed")
    && Column(ClassicV3, cells, 7, "Access", if s.accessRequired then "protected" else "open")
    && Column(ClassicV3, cells, 8, "Direct endpoint", ShownEndpoint(s.endpoint))
    && |cells| == 9
  }

  predicate ShowsGameIdentity(cells: seq<string>, s: Server)
    requires s.Game?
  {
    && Column(GameV2, cells, 0, "Server ID", AsCode(s.serverId))
    && Column(GameV2, cells, 1, "Certificate SHA-256", AsCode(s.certificate))
    && Column(GameV2, cells, 2, "Name", Escape(s.name))
    && Column(GameV2, cells, 3, "Description", Escape(s.description))
    && Column(GameV2, cells, 4, "Region", if s.region.None? then "not published" else Escape(s.region.value))
    && Column(GameV2, cells, 5, "Protocol", "1." + Decimals.Render(s.minor))
  }

  predicate ShowsGameDetail(cells: seq<string>, s: Server)
    requires s.Game?
  {
    && Column(GameV2, cells, 6, "Content ID", Escape(s.contentId))
    && Column(GameV2, cells, 7, "Content revision SHA-256", AsCode(s.contentRevision))
    && Column(GameV2, cells, 8, "Players", Decimals.Render(s.online) + "/" + Decimals.Render(s.capacity))
    && Column(GameV2, cells, 9, "Status", s.status)
    && Column(GameV2, cells, 10, "Access", if s.accessRequired then "protected" else "open")
    && Column(GameV2, cells, 11, "Direct endpoint", ShownEndpoint(s.endpoint))
    && |cells| == 12
  }

  lemma CellShown(c: Cell)
    ensures Fragment(c) == if c.Text? then c.shown else AsCode(c.shown)
  {
    hide Fragment;
    FragmentText(c);
  }

  lemma ClassicColumns()
    ensures |Headings(ClassicV3)| == 9
    ensures Headings(ClassicV3)[0] == "Server ID"
    ensures Headings(ClassicV3)[1] == "Name"
    ensures Headings(ClassicV3)[2] == "Version"
    ensures Headings(ClassicV3)[3] == "Players"
    ensures Headings(ClassicV3)[4] == "Comment"
    ensures Headings(ClassicV3)[5] == "Certificate SHA-256"
    ensures Headings(ClassicV3)[6] == "Status"
    ensures Headings(ClassicV3)[7] == "Access"
    ensures Headings(ClassicV3)[8] == "Direct endpoint"
  {
  }

  lemma GameColumns()
    ensures |Headings(GameV2)| == 12
    ensures Headings(GameV2)[0] == "Server ID"
    ensures Headings(GameV2)[1] == "Certificate SHA-256"
    ensures Headings(GameV2)[2] == "Name"
    ensures Headings(GameV2)[3] == "Description"
    ensures Headings(GameV2)[4] == "Region"
    ensures Headings(GameV2)[5] == "Protocol"
    ensures Headings(GameV2)[6] == "Content ID"
    ensures Headings(GameV2)[7] == "Content revision SHA-256"
    ensures Headings(GameV2)[8] == "Players"
    ensures Headings(GameV2)[9] == "Status"
    ensures Headings(GameV2)[10] == "Access"
    ensures Headings(GameV2)[11] == "Direct endpoint"
  {
  }

  lemma ClassicShown(s: Server)
    requires s.Classic?
    ensures ShowsClassic(Fragments(Cells(s, Escape)), s)
  {
    hide Escape, Fragment, Fragments, AsCode, Decimals.Render, Headings;
    var cells := Cells(s, Escape);
    forall k | 0 <= k < |cells|
      ensures Fragment(cells[k]) == if cells[k].Text? then cells[k].shown else AsCode(cells[k].shown)
    {
      CellShown(cells[k]);
    }
    ClassicColumns();
  }

  lemma GameCells(s: Server)
    requires s.Game?
    ensures var cells := Cells(s, Escape);
            && |cells| == 12
            && cells[0] == Code(s.serverId) && cells[1] == Code(s.certificate) && cells[2] == Text(Escape(s.name))
            && cells[3] == Text(Escape(s.description))
            && cells[4] == Text(if s.region.None? then "not published" else Escape(s.region.value))
            && cells[5] == Text("1." + Decimals.Render(s.minor))
            && cells[6] == Text(Escape(s.contentId)) && cells[7] == Code(s.contentRevision)
            && cells[8] == Text(Decimals.Render(s.online) + "/" + Decimals.Render(s.capacity))
            && cells[9] == Text(s.status) && cells[10] == Text(if s.accessRequired then "protected" else "open")
            && cells[11] == EndpointCell(s.endpoint, Escape)
  {
    hide Escape, Decimals.Render, EndpointCell;
  }

  lemma GameIdentityShown(s: Server)
    requires s.Game?
    ensures ShowsGameIdentity(Fragments(Cells(s, Escape)), s)
  {
    hide Escape, Fragment, Fragments, AsCode, Decimals.Render, Headings, Cells;
    GameCells(s);
    var cells := Cells(s, Escape);
    forall k | 0 <= k < 6
      ensures Fragment(cells[k]) == if cells[k].Text? then cells[k].shown else AsCode(cells[k].shown)
    {
      CellShown(cells[k]);
    }
    GameColumns();
  }

  lemma GameDetailShown(s: Server)
    requires s.Game?
    ensures ShowsGameDetail(Fragments(Cells(s, Escape)), s)
  {
    hide Escape, Fragment, Fragments, AsCode, Decimals.Render, Headings, Cells;
    GameCells(s);
    var cells := Cells(s, Escape);
    forall k | 6 <= k < 12
      ensures Fragment(cells[k]) == if cells[k].Text? then cells[k].shown else AsCode(cells[k].shown)
    {
      CellShown(cells[k]);
    }
    GameColumns();
  }

  /** The k-th row of a page shows the k-th listing, each field as its escaped text under its own heading. */
  lemma PageShows(s: Snapshot, k: nat)
    requires IsAdmitted(s) && k < |s.servers|
    ensures var rows := CellsOfRows(FindAll(RenderHtml(s), "tr"));
            && |rows| == |s.servers|
            && (s.servers[k].Classic? ==> ShowsClassic(rows[k], s.servers[k]))
            && (s.servers[k].Game? ==>
                  ShowsGameIdentity(rows[k], s.servers[k]) && ShowsGameDetail(rows[k], s.servers[k]))
  {
    hide RenderHtml, FindAll, CellsOfRows, Cells, Fragments, ShowsClassic, ShowsGameIdentity, ShowsGameDetail;
    TableReads(s);
    if s.servers[k].Classic? {
      ClassicShown(s.servers[k]);
    } else {
      GameIdentityShown(s.servers[k]);
      GameDetailShown(s.servers[k]);
    }
  }

  // ---- pages the reader refuses -----------------------------------------------------------

  function ExampleId(): (id: string)
    ensures IsDigest(id) && ':' !in id
  {
    seq(64, _ => 'a')
  }

  function ListingAt(host: string): Server {
    Classic(ExampleId(), "n", 0, "v", "", ExampleId(), false, Some(Endpoint(host, 1)))
  }

  function PageWith(host: string): Snapshot {
    Snapshot(ClassicV3, 1, 0, 1, [ListingAt(host)])
  }

  lemma ListingIsServer(host: string)
    requires IsHostname(host)
    ensures IsServer(ListingAt(host)) && IsAdmitted(PageWith(host))
    ensures forall check :: LabelsPass(host, check) ==> IsPublishable(PageWith(host), check)
  {
    hide ExampleId, IsHostname;
    assert forall text: string :: |text| == 1 ==> Utf8Length(text[1..]) == 0;
    assert IsText("n", 1, 80, false) && IsText("v", 1, 32, false) && IsText("", 0, 256, false);
  }

  lemma {:induction false} LabelsOfOne(s: string)
    requires '.' !in s
    ensures Labels(s) == [s]
  {
    if s != "" {
      LabelsOfOne(s[1..]);
      assert s == [s[0]] + s[1..];
    }
  }

  lemma {:induction false} LabelsOfTwo(a: string, b: string)
    requires '.' !in a && '.' !in b
    ensures Labels(a + "." + b) == [a, b]
  {
    var s := a + "." + b;
    if a == "" {
      assert s[0] == '.' && s[1..] == b;
      LabelsOfOne(b);
    } else {
      assert s[0] == a[0] && s[1..] == a[1..] + "." + b;
      LabelsOfTwo(a[1..], b);
      assert a == [a[0]] + a[1..];
    }
  }

  lemma SlugHasNoDot(part: string)
    requires IsSlug(part, 63, "-")
    ensures '.' !in part && ':' !in part && 1 <= |part| <= 63
  {
  }

  lemma TwoLabelHost(a: string, b: string)
    requires IsSlug(a, 63, "-") && IsSlug(b, 63, "-") && IsLower(b[|b| - 1]) && !IsNumeric(b)
    ensures IsHostname(a + "." + b) && Labels(a + "." + b) == [a, b]
  {
    hide IsSlug, IsNumeric;
    SlugHasNoDot(a);
    SlugHasNoDot(b);
    LabelsOfTwo(a, b);
    var host := a + "." + b;
    assert host[|host| - 1] == b[|b| - 1];
    assert |Labels(host)| == 2 && Labels(host)[0] == a && Labels(host)[1] == b;
    assert !IsNumeric(Labels(host)[1]);
  }

  lemma ScriptHost()
    ensures IsHostname("x.javascript") && Labels("x.javascript") == ["x", "javascript"]
  {
    assert IsSlug("x", 63, "-") && IsSlug("javascript", 63, "-");
    assert "javascript"[9] == 't' && "javascript"[1] == 'a' && "javascript"[0] == 'j';
    assert !IsNumeric("javascript");
    TwoLabelHost("x", "javascript");
    assert "x" + "." + "javascript" == "x.javascript";
  }

  lemma ScriptHostHolds()
    ensures Holds("x.javascript:1")
  {
    var text := LowerText("x.javascript:1");
    ContainsStep(text, TOKEN);
    ContainsStep(text[1..], TOKEN);
    assert text[1..][1..] == text[2..];
    assert text[2..][..11] == TOKEN;
    assert StartsWith(text[2..], TOKEN);
    ContainsStep(text[2..], TOKEN);
  }

  lemma HostCell(host: string)
    ensures |Cells(ListingAt(host), AsIs)| == 9 && Cells(ListingAt(host), AsIs)[8].shown == host + ":" + "1"
    ensures forall k :: 0 <= k < 8 ==> ':' !in Cells(ListingAt(host), AsIs)[k].shown
  {
    hide ExampleId;
    assert Decimals.Render(1) == "1" && Decimals.Render(0) == "0";
    ConstantsAreBare();
  }

  lemma ScriptHostPasses(check: string -> bool)
    ensures LabelsPass("x.javascript", check)
  {
    ScriptHost();
    MismatchAt("javascript", "xn--", 0);
    assert |"x"| == 1 && |"xn--"| == 4;
  }

  /** A publishable page without any markup in its values that the reader refuses, whatever its host check. */
  lemma PublishedPageRefused(publisher: string -> bool, reader: string -> bool)
    ensures IsPublishable(PageWith("x.javascript"), publisher)
    ensures ParseHtml(ClassicV3, RenderHtml(PageWith("x.javascript")), reader) == None
  {
    hide ParseHtml, RenderHtml, IsServer, Holds, IsHostname, Cells, ListingAt, IsAdmitted, LabelsPass, Labels;
    ScriptHost();
    ScriptHostPasses(publisher);
    ListingIsServer("x.javascript");
    ScriptPageRefused();
    PublishedPageRoundTrips(PageWith("x.javascript"), publisher, reader);
  }

  lemma ScriptPageRefused()
    ensures AnyRefused(PageWith("x.javascript"))
  {
    hide Holds, Cells, ListingAt;
    ScriptHostHolds();
    HostCell("x.javascript");
    assert "x.javascript" + ":" + "1" == "x.javascript:1";
    assert IsRefused(PageWith("x.javascript").servers[0]);
  }

  lemma ExampleHost(part: string)
    requires IsSlug(part, 63, "-")
    ensures IsHostname(part + ".example") && Labels(part + ".example") == [part, "example"]
  {
    assert IsSlug("example", 63, "-");
    assert "example"[6] == 'e' && "example"[1] == 'x' && "example"[0] == 'e';
    assert !IsNumeric("example");
    TwoLabelHost(part, "example");
    assert part + "." + "example" == part + ".example";
  }

  /** A host and port show the refused word only when the host ends in it. */
  lemma HostHoldsNothing(host: string)
    requires host != "" && host[|host| - 1] == 'e' && ':' !in host
    ensures !Holds(host + ":" + "1")
  {
    var text := LowerText(host + ":" + "1");
    assert forall j :: 0 <= j < |host| ==> host[j] in host && text[j] != ':';
    forall k: nat | k + 11 <= |text|
      ensures !StartsWith(text[k..], TOKEN)
    {
      MismatchAt(text[k..], TOKEN, if k + 10 == |host| then 9 else 10);
    }
    NowhereContains(text, TOKEN);
  }

  lemma NowhereContains(text: string, pattern: string)
    requires forall k: nat :: k + |pattern| <= |text| ==> !StartsWith(text[k..], pattern)
    ensures !Contains(text, pattern)
  {
  }

  lemma ExampleShowsNothing(part: string)
    requires IsSlug(part, 63, "-")
    ensures !AnyRefused(PageWith(part + ".example"))
  {
    hide Holds, Cells, ListingAt, IsSlug;
    var host := part + ".example";
    SlugHasNoDot(part);
    assert host[|host| - 1] == ".example"[7] == 'e';
    HostHoldsNothing(host);
    HostCell(host);
    forall k | 0 <= k < 9
      ensures !Holds(Cells(ListingAt(host), AsIs)[k].shown)
    {
      if k < 8 {
        NoColon(Cells(ListingAt(host), AsIs)[k].shown);
      }
    }
  }

  /**
   Every internationalised label that the publisher's check accepts and the
   reader's refuses gives a page that is published, shows no refused word, and is
   refused; one accepted by both gives a page that is read back.
   */
  lemma PublishedLabelRefused(part: string, publisher: string -> bool, reader: string -> bool)
    requires IsSlug(part, 63, "-") && StartsWith(part, "xn--") && publisher(part)
    ensures var page := PageWith(part + ".example");
            && IsPublishable(page, publisher) && !AnyRefused(page)
            && (ParseHtml(ClassicV3, RenderHtml(page), reader) == None <==> !reader(part))
  {
    hide ParseHtml, RenderHtml, IsServer, IsHostname, Cells, IsAdmitted, AnyRefused, IsSlug, StartsWith;
    var host := part + ".example";
    ExampleHost(part);
    ExampleIsPlain();
    assert Labels(host)[0] == part && Labels(host)[1] == "example";
    assert LabelsPass(host, publisher);
    ListingIsServer(host);
    ExampleShowsNothing(part);
    PublishedPageRoundTrips(PageWith(host), publisher, reader);
    assert LabelsPass(host, reader) <==> reader(part);
    assert PageWith(host).servers[0].endpoint.value.hostname == host;
  }

  lemma ExampleIsPlain()
    ensures !StartsWith("example", "xn--")
  {
    MismatchAt("example", "xn--", 0);
  }
}
