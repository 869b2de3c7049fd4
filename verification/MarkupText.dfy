/**
 Text as markup: where a tag can begin in a rendered page, what the page's
 regular expressions find there, and how escaped text stays out of their way.
 */
module MarkupText {
  import opened Options

  predicate StartsWith(text: string, pattern: string) {
    |pattern| <= |text| && text[..|pattern|] == pattern
  }

  /** The first occurrence, as both substring search and a literal regular expression find it. */
  function IndexOf(text: string, pattern: string): (index: Option<nat>)
    ensures index.Some? ==> index.value + |pattern| <= |text| && StartsWith(text[index.value..], pattern)
  {
    if StartsWith(text, pattern) then Some(0)
    else if text == "" then None
    else
      var later := IndexOf(text[1..], pattern);
      if later.None? then None else Some(later.value + 1)
  }

  predicate Contains(text: string, pattern: string) {
    IndexOf(text, pattern).Some?
  }

  function Open(name: string): string {
    "<" + name + ">"
  }

  function Close(name: string): string {
    "</" + name + ">"
  }

  /** Every shortest match of an element, left to right: what findall returns. */
  function FindAll(text: string, name: string): seq<string>
    decreases |text|
  {
    var from := IndexOf(text, Open(name));
    if from.None? then []
    else
      var body := text[from.value + |Open(name)|..];
      var end := IndexOf(body, Close(name));
      if end.None? then [] else [body[..end.value]] + FindAll(body[end.value + |Close(name)|..], name)
  }

  /** The longest prefix without an opening angle bracket. */
  function Run(text: string): (n: nat)
    ensures n <= |text| && (forall k :: 0 <= k < n ==> text[k] != '<') && (n < |text| ==> text[n] == '<')
  {
    if text == "" || text[0] == '<' then 0 else 1 + Run(text[1..])
  }

  /** The first non-empty run between a literal prefix and suffix. */
  function FindBetween(text: string, prefix: string, suffix: string): Option<string> {
    if StartsWith(text, prefix) && Run(text[|prefix|..]) > 0 &&
       StartsWith(text[|prefix| + Run(text[|prefix|..])..], suffix)
    then Some(text[|prefix|..|prefix| + Run(text[|prefix|..])])
    else if text == "" then None
    else FindBetween(text[1..], prefix, suffix)
  }

  // ---- pieces ----------------------------------------------------------------------------

  datatype Piece = Tag(name: string) | Plain(text: string)

  predicate NoAngle(s: string) {
    forall k :: 0 <= k < |s| ==> s[k] != '<' && s[k] != '>'
  }

  function Inner(p: Piece): string {
    if p.Tag? then p.name else p.text
  }

  function Shown(p: Piece): string {
    if p.Tag? then Open(p.name) else p.text
  }

  predicate Proper(ps: seq<Piece>) {
    forall k :: 0 <= k < |ps| ==> NoAngle(Inner(ps[k]))
  }

  function Flat(ps: seq<Piece>): string {
    if ps == [] then "" else Shown(ps[0]) + Flat(ps[1..])
  }

  predicate HasTag(ps: seq<Piece>, name: string) {
    exists k :: 0 <= k < |ps| && ps[k] == Tag(name)
  }

  lemma {:induction false} FlatConcat(a: seq<Piece>, b: seq<Piece>)
    ensures Flat(a + b) == Flat(a) + Flat(b)
  {
    hide Shown;
    if a == [] {
      assert a + b == b;
    } else {
      assert (a + b)[0] == a[0] && (a + b)[1..] == a[1..] + b;
      FlatConcat(a[1..], b);
      ConcatAssociates(Shown(a[0]), Flat(a[1..]), Flat(b));
    }
  }

  lemma ConcatAssociates(a: string, b: string, c: string)
    ensures (a + b) + c == a + (b + c)
  {
  }

  lemma ProperConcat(a: seq<Piece>, b: seq<Piece>)
    ensures Proper(a + b) <==> Proper(a) && Proper(b)
  {
    hide NoAngle, Inner;
    assert forall k :: 0 <= k < |a| ==> (a + b)[k] == a[k];
    assert forall k :: 0 <= k < |b| ==> (a + b)[|a| + k] == b[k];
  }

  lemma HasTagConcat(a: seq<Piece>, b: seq<Piece>, name: string)
    ensures HasTag(a + b, name) <==> HasTag(a, name) || HasTag(b, name)
  {
    assert forall k :: 0 <= k < |a| ==> (a + b)[k] == a[k];
    assert forall k :: 0 <= k < |b| ==> (a + b)[|a| + k] == b[k];
  }

  lemma {:induction false} SkipPlain(s: string, rest: string, pattern: string)
    requires |pattern| > 0 && forall k :: 0 <= k < |s| ==> s[k] != pattern[0]
    ensures var found := IndexOf(rest, pattern);
            IndexOf(s + rest, pattern) == if found.None? then None else Some(|s| + found.value)
  {
    if s == "" {
      assert s + rest == rest;
    } else {
      assert (s + rest)[0] == s[0] && (s + rest)[1..] == s[1..] + rest;
      SkipPlain(s[1..], rest, pattern);
      assert !StartsWith(s + rest, pattern);
    }
  }

  lemma OpenChars(name: string)
    requires NoAngle(name)
    ensures |Open(name)| == |name| + 2 && Open(name)[0] == '<' && Open(name)[|name| + 1] == '>'
    ensures forall k :: 1 <= k <= |name| ==>
              Open(name)[k] == name[k - 1] && Open(name)[k] != '>' && Open(name)[k] != '<'
  {
  }

  lemma TagStart(name: string, other: string, rest: string)
    requires NoAngle(name) && NoAngle(other)
    ensures StartsWith(Open(name) + rest, Open(other)) <==> name == other
  {
    hide Open;
    OpenChars(name);
    OpenChars(other);
    var text := Open(name) + rest;
    assert text[|name| + 1] == '>' && Open(other)[|other| + 1] == '>';
    assert text[..|Open(name)|] == Open(name);
    SameTag(name, other);
    assert StartsWith(text, Open(other)) ==>
        forall k :: 0 <= k < |Open(other)| ==> text[k] == Open(other)[k];
  }

  lemma SameTag(name: string, other: string)
    ensures Open(name) == Open(other) <==> name == other
  {
    assert name == Open(name)[1..|Open(name)| - 1] && other == Open(other)[1..|Open(other)| - 1];
  }

  lemma IndexStep(text: string, pattern: string)
    requires text != "" && !StartsWith(text, pattern)
    ensures var found := IndexOf(text[1..], pattern);
            IndexOf(text, pattern) == if found.None? then None else Some(1 + found.value)
  {
  }

  /** The inner part of a tag and its end cannot begin another tag. */
  lemma SkipTag(name: string, rest: string, other: string)
    requires NoAngle(name) && NoAngle(other) && name != other
    ensures var found := IndexOf(rest, Open(other));
            IndexOf(Open(name) + rest, Open(other)) == if found.None? then None else Some(|Open(name)| + found.value)
  {
    hide IndexOf, StartsWith;
    TagStart(name, other, rest);
    var text := Open(name) + rest;
    IndexStep(text, Open(other));
    assert text[1..] == (name + ">") + rest;
    SkipPlain(name + ">", rest, Open(other));
  }

  lemma SkipPiece(p: Piece, rest: string, name: string)
    requires NoAngle(Inner(p)) && NoAngle(name) && p != Tag(name)
    ensures var found := IndexOf(rest, Open(name));
            IndexOf(Shown(p) + rest, Open(name)) == if found.None? then None else Some(|Shown(p)| + found.value)
  {
    if p.Tag? {
      SkipTag(p.name, rest, name);
    } else {
      SkipPlain(p.text, rest, Open(name));
    }
  }

  /** Pieces without the tag are skipped whole. */
  lemma {:induction false} SkipPieces(ps: seq<Piece>, rest: string, name: string)
    requires Proper(ps) && NoAngle(name) && !HasTag(ps, name)
    ensures var found := IndexOf(rest, Open(name));
            IndexOf(Flat(ps) + rest, Open(name)) == if found.None? then None else Some(|Flat(ps)| + found.value)
  {
    hide IndexOf, Shown, NoAngle, Open;
    if ps == [] {
      assert Flat(ps) + rest == rest;
    } else {
      assert forall k :: 0 <= k < |ps[1..]| ==> ps[1..][k] == ps[k + 1];
      SkipPieces(ps[1..], rest, name);
      assert Flat(ps) + rest == Shown(ps[0]) + (Flat(ps[1..]) + rest);
      SkipPiece(ps[0], Flat(ps[1..]) + rest, name);
    }
  }

  lemma FoundAtOnce(name: string, rest: string)
    ensures IndexOf(Open(name) + rest, Open(name)) == Some(0)
  {
    assert StartsWith(Open(name) + rest, Open(name));
  }

  /** An element's text, split where its tags begin. */
  lemma ElementText(before: string, name: string, body: string, rest: string)
    ensures var text := before + Open(name) + body + Close(name) + rest;
            var tail := body + (Open("/" + name) + rest);
            && text == before + (Open(name) + tail) && |text| >= |before| + |Open(name)|
            && text[|before| + |Open(name)|..] == tail && tail[..|body|] == body
            && tail[|body| + |Close(name)|..] == rest
  {
    assert Close(name) == Open("/" + name);
  }

  /** One element of the page, with nothing of its kind before it or inside it. */
  lemma FindElement(before: seq<Piece>, name: string, body: seq<Piece>, rest: string)
    requires Proper(before) && Proper(body) && NoAngle(name)
    requires !HasTag(before, name) && !HasTag(body, "/" + name)
    ensures FindAll(Flat(before) + Open(name) + Flat(body) + Close(name) + rest, name) ==
            [Flat(body)] + FindAll(rest, name)
  {
    hide IndexOf, Flat, Open, HasTag;
    var tail := Flat(body) + (Open("/" + name) + rest);
    ElementText(Flat(before), name, Flat(body), rest);
    FoundAtOnce(name, tail);
    SkipPieces(before, Open(name) + tail, name);
    CloseIsOpen(name);
    assert NoAngle("/" + name);
    FoundAtOnce("/" + name, rest);
    SkipPieces(body, Open("/" + name) + rest, "/" + name);
  }

  lemma CloseIsOpen(name: string)
    ensures Close(name) == Open("/" + name)
  {
  }

  lemma FindNone(ps: seq<Piece>, name: string)
    requires Proper(ps) && NoAngle(name) && !HasTag(ps, name)
    ensures FindAll(Flat(ps), name) == [] && !Contains(Flat(ps), Open(name))
  {
    assert Flat(ps) + "" == Flat(ps);
    SkipPieces(ps, "", name);
  }

  // ---- labelled values --------------------------------------------------------------------

  function Term(caption: string): string {
    Open("dt") + caption + Close("dt") + Open("dd")
  }

  /** Only a position that begins the prefix can begin a match. */
  lemma {:induction false} BetweenSkips(s: string, rest: string, prefix: string, suffix: string)
    requires forall k :: 0 <= k < |s| ==> !StartsWith((s + rest)[k..], prefix)
    ensures FindBetween(s + rest, prefix, suffix) == FindBetween(rest, prefix, suffix)
  {
    if s == "" {
      assert s + rest == rest;
    } else {
      assert (s + rest)[0..] == s + rest && (s + rest)[1..] == s[1..] + rest;
      forall k | 0 <= k < |s[1..]|
        ensures !StartsWith((s[1..] + rest)[k..], prefix)
      {
        assert (s + rest)[k + 1..] == (s[1..] + rest)[k..];
      }
      BetweenSkips(s[1..], rest, prefix, suffix);
    }
  }

  lemma PlainBeginsNothing(s: string, rest: string, prefix: string)
    requires |prefix| > 0 && forall k :: 0 <= k < |s| ==> s[k] != prefix[0]
    ensures forall k :: 0 <= k < |s| ==> !StartsWith((s + rest)[k..], prefix)
  {
    forall k | 0 <= k < |s|
      ensures !StartsWith((s + rest)[k..], prefix)
    {
      assert (s + rest)[k..][0] == s[k];
    }
  }

  lemma BetweenPiece(p: Piece, rest: string, caption: string, tail: string, suffix: string)
    requires NoAngle(Inner(p)) && p != Tag("dt")
    ensures FindBetween(Shown(p) + rest, Term(caption) + tail, suffix) ==
            FindBetween(rest, Term(caption) + tail, suffix)
  {
    var prefix := Term(caption) + tail;
    if p.Plain? {
      PlainBeginsNothing(p.text, rest, prefix);
      BetweenSkips(p.text, rest, prefix, suffix);
    } else {
      OtherTag(p.name, rest, caption, tail);
      BetweenTag(p.name, rest, prefix, suffix);
    }
  }

  lemma OtherTag(name: string, rest: string, caption: string, tail: string)
    requires NoAngle(name) && name != "dt"
    ensures !StartsWith(Open(name) + rest, Term(caption) + tail)
  {
    TagStart(name, "dt", rest);
    PrefixOfPrefix(Open(name) + rest, Open("dt"), caption + Close("dt") + Open("dd") + tail, Term(caption) + tail);
  }

  lemma PrefixOfPrefix(text: string, a: string, b: string, whole: string)
    requires whole == a + b
    ensures StartsWith(text, whole) ==> StartsWith(text, a)
  {
    if StartsWith(text, whole) {
      assert text[..|a|] == text[..|whole|][..|a|] == a;
    }
  }

  lemma BetweenTag(name: string, rest: string, prefix: string, suffix: string)
    requires NoAngle(name) && |prefix| > 0 && prefix[0] == '<' && !StartsWith(Open(name) + rest, prefix)
    ensures FindBetween(Open(name) + rest, prefix, suffix) == FindBetween(rest, prefix, suffix)
  {
    var text := Open(name) + rest;
    assert text[1..] == (name + ">") + rest;
    PlainBeginsNothing(name + ">", rest, prefix);
    BetweenSkips(name + ">", rest, prefix, suffix);
  }

  lemma {:induction false} BetweenPieces(ps: seq<Piece>, rest: string, caption: string, tail: string, suffix: string)
    requires Proper(ps) && !HasTag(ps, "dt")
    ensures FindBetween(Flat(ps) + rest, Term(caption) + tail, suffix) ==
            FindBetween(rest, Term(caption) + tail, suffix)
  {
    hide FindBetween, Shown, NoAngle, Term;
    if ps == [] {
      assert Flat(ps) + rest == rest;
    } else {
      assert forall k :: 0 <= k < |ps[1..]| ==> ps[1..][k] == ps[k + 1];
      BetweenPieces(ps[1..], rest, caption, tail, suffix);
      assert Flat(ps) + rest == Shown(ps[0]) + (Flat(ps[1..]) + rest);
      BetweenPiece(ps[0], Flat(ps[1..]) + rest, caption, tail, suffix);
    }
  }

  /** A term with another caption is not the one searched for. */
  lemma OtherTerm(caption: string, rest: string, sought: string, tail: string, suffix: string)
    requires NoAngle(caption) && NoAngle(sought) && caption != sought
    ensures FindBetween(Open("dt") + (caption + (Close("dt") + rest)), Term(sought) + tail, suffix) ==
            FindBetween(caption + (Close("dt") + rest), Term(sought) + tail, suffix)
  {
    var text := Open("dt") + (caption + (Close("dt") + rest));
    var prefix := Term(sought) + tail;
    assert prefix == Open("dt") + (sought + (Close("dt") + (Open("dd") + tail)));
    LabelsDiffer(caption, Close("dt") + rest, sought, Close("dt") + (Open("dd") + tail));
    CommonPrefix(Open("dt"), caption + (Close("dt") + rest), sought + (Close("dt") + (Open("dd") + tail)));
    BetweenTag("dt", caption + (Close("dt") + rest), prefix, suffix);
  }

  lemma MismatchAt(text: string, pattern: string, k: nat)
    requires k < |text| && k < |pattern| && text[k] != pattern[k]
    ensures !StartsWith(text, pattern)
  {
    assert |pattern| <= |text| ==> text[..|pattern|][k] == text[k];
  }

  lemma LabelsDiffer(a: string, x: string, b: string, y: string)
    requires NoAngle(a) && NoAngle(b) && a != b && |x| > 0 && |y| > 0 && x[0] == '<' && y[0] == '<'
    ensures !StartsWith(a + x, b + y)
  {
    if |a| == |b| {
      var k :| 0 <= k < |a| && a[k] != b[k];
      MismatchAt(a + x, b + y, k);
    } else {
      MismatchAt(a + x, b + y, if |a| < |b| then |a| else |b|);
    }
  }

  lemma CommonPrefix(head: string, text: string, pattern: string)
    ensures StartsWith(head + text, head + pattern) <==> StartsWith(text, pattern)
  {
    if |pattern| <= |text| {
      assert (head + text)[..|head + pattern|] == head + text[..|pattern|];
      assert (head + text[..|pattern|])[|head|..] == text[..|pattern|] && (head + pattern)[|head|..] == pattern;
    }
  }

  /** The term itself, with its value up to the next tag. */
  lemma FoundTerm(caption: string, tail: string, value: string, suffix: string, rest: string)
    requires |value| > 0 && NoAngle(value) && |suffix| > 0 && suffix[0] == '<'
    ensures FindBetween(Term(caption) + tail + (value + (suffix + rest)), Term(caption) + tail, suffix) == Some(value)
  {
    var prefix := Term(caption) + tail;
    var text := prefix + (value + (suffix + rest));
    assert text[..|prefix|] == prefix && text[|prefix|..] == value + (suffix + rest);
    RunStops(value, suffix + rest);
    assert text[|prefix| + |value|..] == suffix + rest;
    assert (suffix + rest)[..|suffix|] == suffix;
    assert text[|prefix|..|prefix| + |value|] == value;
  }

  lemma {:induction false} RunStops(value: string, rest: string)
    requires NoAngle(value) && |rest| > 0 && rest[0] == '<'
    ensures Run(value + rest) == |value|
  {
    if value == "" {
      assert value + rest == rest;
    } else {
      assert (value + rest)[0] == value[0] && (value + rest)[1..] == value[1..] + rest;
      RunStops(value[1..], rest);
    }
  }

  // ---- forbidden tokens ---------------------------------------------------------------------

  lemma {:induction false} SplitContains(a: string, c: char, b: string, pattern: string)
    requires |pattern| > 0 && c !in pattern
    ensures Contains(a + ([c] + b), pattern) <==> Contains(a, pattern) || Contains(b, pattern)
  {
    var text := a + ([c] + b);
    if a == "" {
      assert text == [c] + b && text[1..] == b && text[0] == c;
      assert !StartsWith(text, pattern);
    } else {
      assert text[0] == a[0] && text[1..] == a[1..] + ([c] + b);
      SplitContains(a[1..], c, b, pattern);
      PrefixWithin(a, c, b, pattern);
    }
  }

  lemma PrefixWithin(a: string, c: char, b: string, pattern: string)
    requires c !in pattern
    ensures StartsWith(a + ([c] + b), pattern) <==> StartsWith(a, pattern)
  {
    var text := a + ([c] + b);
    if |pattern| <= |a| {
      assert text[..|pattern|] == a[..|pattern|];
    } else if |pattern| <= |text| {
      assert text[..|pattern|][|a|] == c;
      assert pattern[|a|] in pattern;
    }
  }

  /** No two plain pieces touch, so a token without angle brackets lies within one piece. */
  predicate Separated(ps: seq<Piece>) {
    forall k :: 0 <= k < |ps| - 1 && ps[k].Plain? ==> ps[k + 1].Tag?
  }

  predicate AnyContains(ps: seq<Piece>, pattern: string) {
    exists k :: 0 <= k < |ps| && Contains(Inner(ps[k]), pattern)
  }

  lemma TokenInTag(name: string, rest: string, pattern: string)
    requires |pattern| > 0 && NoAngle(pattern)
    ensures Contains(Open(name) + rest, pattern) <==> Contains(name, pattern) || Contains(rest, pattern)
  {
    hide Contains;
    assert Open(name) + rest == "" + (['<'] + (name + (['>'] + rest)));
    SplitContains("", '<', name + (['>'] + rest), pattern);
    SplitContains(name, '>', rest, pattern);
    EmptyContains(pattern);
  }

  lemma TokenInText(text: string, after: string, pattern: string)
    requires |pattern| > 0 && NoAngle(pattern)
    ensures Contains(text + (['<'] + after), pattern) <==> Contains(text, pattern) || Contains(['<'] + after, pattern)
  {
    hide Contains;
    SplitContains(text, '<', after, pattern);
    SplitContains("", '<', after, pattern);
    assert "" + (['<'] + after) == ['<'] + after;
    EmptyContains(pattern);
  }

  lemma AnyContainsHead(ps: seq<Piece>, pattern: string)
    requires ps != []
    ensures AnyContains(ps, pattern) <==> Contains(Inner(ps[0]), pattern) || AnyContains(ps[1..], pattern)
  {
    hide Contains, Inner;
    assert forall k :: 0 <= k < |ps[1..]| ==> ps[1..][k] == ps[k + 1];
    assert forall k :: 1 <= k < |ps| ==> ps[k] == ps[1..][k - 1];
  }

  lemma {:induction false} TokenWithinPiece(ps: seq<Piece>, pattern: string)
    requires Separated(ps) && |pattern| > 0 && NoAngle(pattern)
    ensures Contains(Flat(ps), pattern) <==> AnyContains(ps, pattern)
  {
    hide Contains, AnyContains, NoAngle, Open;
    if ps == [] {
      EmptyContains(pattern);
      NoneContains(pattern);
    } else {
      var rest := ps[1..];
      assert forall k :: 0 <= k < |rest| ==> rest[k] == ps[k + 1];
      TokenWithinPiece(rest, pattern);
      AnyContainsHead(ps, pattern);
      if ps[0].Tag? {
        TokenInTag(ps[0].name, Flat(rest), pattern);
      } else if rest == [] {
        EmptyContains(pattern);
        assert Flat(ps) == ps[0].text;
      } else {
        assert rest[0] == ps[1] && rest[0].Tag?;
        FlatOpens(rest);
        TokenInText(ps[0].text, Flat(rest)[1..], pattern);
        assert Flat(rest) == ['<'] + Flat(rest)[1..];
      }
    }
  }

  lemma NoneContains(pattern: string)
    ensures !AnyContains([], pattern)
  {
  }

  lemma FlatOpens(ps: seq<Piece>)
    requires |ps| > 0 && ps[0].Tag?
    ensures |Flat(ps)| > 0 && Flat(ps)[0] == '<'
  {
  }

  lemma EmptyContains(pattern: string)
    requires |pattern| > 0
    ensures !Contains("", pattern)
  {
  }

  /** A token that begins a tag needs a tag that begins with it. */
  lemma {:induction false} TagTokenAbsent(ps: seq<Piece>, token: string)
    requires Proper(ps) && |token| > 0 && NoAngle(token)
    requires forall k :: 0 <= k < |ps| && ps[k].Tag? ==> |ps[k].name| > 0 && ps[k].name[0] != token[0]
    ensures !Contains(Flat(ps), "<" + token)
  {
    hide Contains;
    if ps == [] {
      EmptyContains("<" + token);
    } else {
      assert forall k :: 0 <= k < |ps[1..]| ==> ps[1..][k] == ps[k + 1];
      TagTokenAbsent(ps[1..], token);
      TokenSkipsPiece(ps[0], Flat(ps[1..]), token);
    }
  }

  lemma TokenSkipsPiece(p: Piece, rest: string, token: string)
    requires NoAngle(Inner(p)) && |token| > 0
    requires p.Tag? ==> |p.name| > 0 && p.name[0] != token[0]
    requires !Contains(rest, "<" + token)
    ensures !Contains(Shown(p) + rest, "<" + token)
  {
    var pattern := "<" + token;
    if p.Plain? {
      SkipPlain(p.text, rest, pattern);
    } else {
      var text := Shown(p) + rest;
      assert text[1] == p.name[0] && pattern[1] == token[0];
      assert !StartsWith(text, pattern);
      assert text[1..] == (p.name + ">") + rest;
      SkipPlain(p.name + ">", rest, pattern);
    }
  }
}
