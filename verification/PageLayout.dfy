/**
 What the fixed parts of the page hold: nothing the reader's searches could
 mistake for a term, a row or a cell, and nothing its safety check looks for.
 */
module PageLayout {
  import opened MarkupText
  import opened HtmlEscaping
  import opened DirectoryPage
  import Decimals

  /** The tag cannot begin a script or a form, whatever its case. */
  predicate Safe(p: Piece) {
    && NoAngle(Inner(p))
    && (p.Tag? ==> |p.name| > 0 && LowerChar(p.name[0]) != 's' && LowerChar(p.name[0]) != 'f')
  }

  predicate AllSafe(ps: seq<Piece>) {
    forall k :: 0 <= k < |ps| ==> Safe(ps[k])
  }

  /** Without a colon, and so without the refused word. */
  predicate Mute(p: Piece) {
    ':' !in Inner(p)
  }

  predicate AllMute(ps: seq<Piece>) {
    forall k :: 0 <= k < |ps| ==> Mute(ps[k])
  }

  /** Neither a term nor a row of the page. */
  predicate Outside(p: Piece) {
    p.Tag? ==> |p.name| != 2 || p.name[0] == 'h' || p.name[1] == 'l'
  }

  predicate AllOutside(ps: seq<Piece>) {
    forall k :: 0 <= k < |ps| ==> Outside(ps[k])
  }

  predicate Fixed(p: Piece) {
    Safe(p) && Mute(p)
  }

  lemma OutsideHasNot(ps: seq<Piece>)
    requires AllOutside(ps)
    ensures !HasTag(ps, "dt") && !HasTag(ps, "tr")
  {
    assert !Outside(Tag("dt")) && !Outside(Tag("tr"));
  }

  lemma WordingIsFixed(text: Wording)
    ensures Fixed(Plain(text))
    ensures |text| > 2 && LowerChar(text[0]) != 's' && LowerChar(text[0]) != 'f' ==>
              Fixed(Tag(text)) && Outside(Tag(text))
  {
  }

  // ---- the fixed tags -----------------------------------------------------------------------

  lemma LongTags()
    ensures Fixed(Tag(Language())) && Outside(Tag(Language())) && Fixed(Tag(Charset())) && Outside(Tag(Charset()))
    ensures Fixed(Tag(Viewport())) && Outside(Tag(Viewport()))
    ensures Fixed(Tag(SecurityPolicy())) && Outside(Tag(SecurityPolicy()))
    ensures Fixed(Tag(HeadingTag())) && Outside(Tag(HeadingTag()))
  {
    hide Language, Charset, Viewport, SecurityPolicy, HeadingTag, Fixed, Outside;
    WordingIsFixed(Language());
    WordingIsFixed(Charset());
    WordingIsFixed(Viewport());
    WordingIsFixed(SecurityPolicy());
    WordingIsFixed(HeadingTag());
  }

  lemma HeadTags()
    ensures Fixed(Tag("!doctype html")) && Fixed(Tag("head")) && Fixed(Tag("title")) && Fixed(Tag("/title"))
    ensures Outside(Tag("!doctype html")) && Outside(Tag("head")) && Outside(Tag("title")) && Outside(Tag("/title"))
  {
  }

  lemma BodyTags()
    ensures Fixed(Tag("/head")) && Fixed(Tag("body")) && Fixed(Tag("main"))
    ensures Fixed(Tag("h1")) && Fixed(Tag("/h1")) && Fixed(Tag("dl"))
    ensures Outside(Tag("/head")) && Outside(Tag("body")) && Outside(Tag("main"))
    ensures Outside(Tag("h1")) && Outside(Tag("/h1")) && Outside(Tag("dl"))
  {
  }

  lemma TableTags()
    ensures Fixed(Tag("/dl")) && Fixed(Tag("table")) && Fixed(Tag("thead")) && Fixed(Tag("/thead"))
    ensures Fixed(Tag("tbody"))
    ensures Outside(Tag("/dl")) && Outside(Tag("table")) && Outside(Tag("thead")) && Outside(Tag("/thead"))
    ensures Outside(Tag("tbody"))
  {
  }

  lemma TailTags()
    ensures Fixed(Tag("/tbody")) && Fixed(Tag("/table")) && Fixed(Tag("/main"))
    ensures Fixed(Tag("/body")) && Fixed(Tag("/html"))
    ensures Outside(Tag("/tbody")) && Outside(Tag("/table")) && Outside(Tag("/main"))
    ensures Outside(Tag("/body")) && Outside(Tag("/html"))
  {
  }

  lemma CellTags()
    ensures Fixed(Tag("dt")) && Fixed(Tag("/dt")) && Fixed(Tag("dd")) && Fixed(Tag("/dd"))
    ensures Fixed(Tag("code")) && Fixed(Tag("/code"))
    ensures Fixed(Tag("tr")) && Fixed(Tag("/tr")) && Fixed(Tag("td")) && Fixed(Tag("/td")) && Fixed(Tag("/th"))
  {
    hide Fixed;
    TermTags();
    RowTags();
  }

  lemma TermTags()
    ensures Fixed(Tag("dt")) && Fixed(Tag("/dt")) && Fixed(Tag("dd")) && Fixed(Tag("/dd"))
    ensures Fixed(Tag("code")) && Fixed(Tag("/code"))
  {
  }

  lemma RowTags()
    ensures Fixed(Tag("tr")) && Fixed(Tag("/tr")) && Fixed(Tag("td")) && Fixed(Tag("/td")) && Fixed(Tag("/th"))
  {
  }

  lemma Spaces()
    ensures Fixed(Plain("\n")) && Fixed(Plain("\n  ")) && Fixed(Plain("\n    ")) && Fixed(Plain("\n      "))
    ensures forall text :: Outside(Plain(text))
  {
  }

  lemma NumberIsFixed(n: nat)
    ensures Fixed(Plain(Decimals.Render(n)))
  {
    Decimals.RenderDenotes(n);
  }

  // ---- the sections -------------------------------------------------------------------------

  predicate Laid(ps: seq<Piece>) {
    AllSafe(ps) && Separated(ps)
  }

  /** Fixed pieces, no two texts in a row. */
  predicate Section(ps: seq<Piece>) {
    Laid(ps) && AllMute(ps)
  }

  lemma EachFixed(ps: seq<Piece>)
    requires forall k :: 0 <= k < |ps| ==> Fixed(ps[k])
    ensures AllSafe(ps) && AllMute(ps)
  {
  }

  lemma HeadIsSection(title: Wording)
    ensures Section(Head(title)) && AllOutside(Head(title))
  {
    hide Fixed, Outside, Safe, Mute, Language, Charset, Viewport, SecurityPolicy;
    LongTags();
    HeadTags();
    BodyTags();
    Spaces();
    WordingIsFixed(title);
    EachFixed(Head(title));
  }

  lemma TableHeadIsSection()
    ensures Section(TableHead()) && AllOutside(TableHead())
  {
    hide Fixed, Outside, Safe, Mute;
    TableTags();
    Spaces();
    EachFixed(TableHead());
  }

  lemma TableBodyIsSection()
    ensures Section(TableBody()) && AllOutside(TableBody())
  {
    hide Fixed, Outside, Safe, Mute;
    TableTags();
    Spaces();
    EachFixed(TableBody());
  }

  lemma TailIsSection()
    ensures Section(Tail()) && AllOutside(Tail())
  {
    hide Fixed, Outside, Safe, Mute;
    TailTags();
    Spaces();
    EachFixed(Tail());
  }

  lemma TermIsSection(caption: Wording, value: seq<Piece>, after: Wording)
    requires Section(value) && value != []
    ensures Section(TermPieces(caption, value, after))
  {
    hide Fixed, Safe, Mute;
    CellTags();
    WordingIsFixed(caption);
    WordingIsFixed(after);
    FixedParts();
    assert forall k :: 0 <= k < |value| ==> Safe(value[k]) && Mute(value[k]);
    var front, back := [Tag("dt"), Plain(caption), Tag("/dt"), Tag("dd")], [Tag("/dd"), Plain(after)];
    Join(front, value);
    Join(front + value, back);
  }

  lemma FixedParts()
    ensures forall p :: Fixed(p) <==> Safe(p) && Mute(p)
  {
  }

  predicate Joins(a: seq<Piece>, b: seq<Piece>) {
    a == [] || b == [] || a[|a| - 1].Tag? || b[0].Tag?
  }

  lemma LaidConcat(a: seq<Piece>, b: seq<Piece>)
    requires Laid(a) && Laid(b) && Joins(a, b)
    ensures Laid(a + b)
  {
    hide Safe;
    assert forall k :: 0 <= k < |a| ==> (a + b)[k] == a[k];
    assert forall k :: 0 <= k < |b| ==> (a + b)[|a| + k] == b[k];
  }

  /** Sections that meet at a tag form a section. */
  lemma Join(a: seq<Piece>, b: seq<Piece>)
    requires Section(a) && Section(b) && Joins(a, b)
    ensures Section(a + b)
  {
    hide Laid, Mute;
    LaidConcat(a, b);
  }

  lemma SchemaTermIsSection(profile: Profile)
    ensures Section(SchemaTerm(profile))
  {
    hide Fixed, Safe, Mute, Schema, TermPieces;
    CellTags();
    WordingIsFixed(Schema(profile));
    FixedParts();
    TermIsSection("Schema", [Tag("code"), Plain(Schema(profile)), Tag("/code")], "\n    ");
  }

  lemma NumberTermIsSection(caption: Wording, n: nat, after: Wording)
    ensures Section(NumberTerm(caption, n, after))
  {
    hide Fixed, Safe, Mute, Decimals.Render, TermPieces;
    NumberIsFixed(n);
    FixedParts();
    TermIsSection(caption, [Plain(Decimals.Render(n))], after);
  }

  lemma HeadingIsSection(heading: Wording)
    ensures var first: seq<Piece> := [Tag(HeadingTag()), Plain(heading), Tag("/th")];
            Section(first) && !HasTag(first, "/tr") && !HasTag(first, "td")
  {
    hide Fixed, Safe, Mute, HeadingTag;
    LongTags();
    RowTags();
    WordingIsFixed(heading);
    FixedParts();
    HeadingIsNoCell();
  }

  lemma {:induction false} HeadingRowIsSection(headings: seq<Wording>)
    ensures Section(HeadingRow(headings)) && !HasTag(HeadingRow(headings), "/tr") && !HasTag(HeadingRow(headings), "td")
    ensures headings != [] ==> HeadingRow(headings)[0].Tag?
    ensures headings != [] ==> HeadingRow(headings)[|HeadingRow(headings)| - 1].Tag?
  {
    hide Section, HasTag, HeadingTag;
    if headings == [] {
      NoHeadings();
    } else {
      var first: seq<Piece> := [Tag(HeadingTag()), Plain(headings[0]), Tag("/th")];
      var rest := HeadingRow(headings[1..]);
      HeadingRowIsSection(headings[1..]);
      HeadingIsSection(headings[0]);
      Join(first, rest);
      HasTagConcat(first, rest, "/tr");
      HasTagConcat(first, rest, "td");
    }
  }

  lemma NoHeadings()
    ensures Section([]) && !HasTag([], "/tr") && !HasTag([], "td")
  {
  }

  lemma HeadingIsNoCell()
    ensures HeadingTag() != "/tr" && HeadingTag() != "td" && "/th" != "/tr" && "/th" != "td"
  {
    hide HeadingTag;
    assert "/tr"[0] == '/' && "/th"[2] == 'h' && "/tr"[2] == 'r' && |"td"| == 2 && |"/th"| == 3;
  }

  lemma HeadingsExist(profile: Profile)
    ensures Headings(profile) != []
  {
  }

  // ---- the whole page -----------------------------------------------------------------------

  lemma AboveIsSection(s: Snapshot)
    ensures Section(Above(s)) && !HasTag(Above(s), "tr")
    ensures Above(s) != [] && Above(s)[|Above(s)| - 1].Tag?
  {
    hide Section, Head, SchemaTerm, NumberTerm, HasTag, AllOutside, Title;
    HeadIsSection(Title(s.profile));
    SchemaTermIsSection(s.profile);
    NumberTermIsSection("Generation", s.generation, "\n    ");
    NumberTermIsSection("Generated at", s.generatedAt, "\n    ");
    NumberTermIsSection("Expires at", s.expiresAt, "\n  ");
    TableHeadIsSection();
    TermsBegin(s);
    var t4 := NumberTerm("Expires at", s.expiresAt, "\n  ") + TableHead();
    var t3 := NumberTerm("Generated at", s.generatedAt, "\n    ") + t4;
    var t2 := NumberTerm("Generation", s.generation, "\n    ") + t3;
    var t1 := SchemaTerm(s.profile) + t2;
    Join(NumberTerm("Expires at", s.expiresAt, "\n  "), TableHead());
    Join(NumberTerm("Generated at", s.generatedAt, "\n    "), t4);
    Join(NumberTerm("Generation", s.generation, "\n    "), t3);
    Join(SchemaTerm(s.profile), t2);
    Join(Head(Title(s.profile)), t1);
    OutsideHasNot(Head(Title(s.profile)));
    OutsideHasNot(TableHead());
    TermHasNoRow(s);
    HasTagConcat(NumberTerm("Expires at", s.expiresAt, "\n  "), TableHead(), "tr");
    HasTagConcat(NumberTerm("Generated at", s.generatedAt, "\n    "), t4, "tr");
    HasTagConcat(NumberTerm("Generation", s.generation, "\n    "), t3, "tr");
    HasTagConcat(SchemaTerm(s.profile), t2, "tr");
    HasTagConcat(Head(Title(s.profile)), t1, "tr");
  }

  lemma TermsBegin(s: Snapshot)
    ensures SchemaTerm(s.profile) != [] && SchemaTerm(s.profile)[0].Tag?
    ensures forall caption, n, after ::
              NumberTerm(caption, n, after) != [] && NumberTerm(caption, n, after)[0].Tag?
  {
  }

  lemma TermHasNoRow(s: Snapshot)
    ensures !HasTag(SchemaTerm(s.profile), "tr")
    ensures forall caption, n, after :: !HasTag(NumberTerm(caption, n, after), "tr")
  {
    assert "dt"[0] == 'd' && "dd"[0] == 'd' && "tr"[0] == 't' && |"/dt"| == 3 && |"/dd"| == 3 && |"tr"| == 2;
    assert |"code"| == 4 && |"/code"| == 5;
  }
}
