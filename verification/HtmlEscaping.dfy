/**
 Escaped text: the publisher's single pass, the reader's chain of replacements,
 the decoding that undoes both, and what escaping does to the text a page is
 searched for.
 */
module HtmlEscaping {
  import opened MarkupText

  predicate IsSpecial(c: char) {
    c == '&' || c == '<' || c == '>' || c == '\"' || c == '\''
  }

  function EscapeChar(c: char): string {
    if c == '&' then "&amp;"
    else if c == '<' then "&lt;"
    else if c == '>' then "&gt;"
    else if c == '\"' then "&quot;"
    else if c == '\'' then "&#39;"
    else [c]
  }

  /** One pass over the text, as the publisher escapes it. */
  function Escape(s: string): string {
    if s == "" then "" else EscapeChar(s[0]) + Escape(s[1..])
  }

  function Replace(s: string, c: char, text: string): string {
    if s == "" then "" else (if s[0] == c then text else [s[0]]) + Replace(s[1..], c, text)
  }

  /** Five passes, each over the result of the one before, as the reader escapes it. */
  function SequentialEscape(s: string): string {
    var ampersands := Replace(s, '&', "&amp;");
    var opens := Replace(ampersands, '<', "&lt;");
    var closes := Replace(opens, '>', "&gt;");
    var quotes := Replace(closes, '\"', "&quot;");
    Replace(quotes, '\'', "&#39;")
  }

  /** The character references a page of the publisher can hold; every other ampersand stands for itself. */
  function Unescape(s: string): string {
    if s == "" then ""
    else if StartsWith(s, "&amp;") then "&" + Unescape(s[5..])
    else if StartsWith(s, "&lt;") then "<" + Unescape(s[4..])
    else if StartsWith(s, "&gt;") then ">" + Unescape(s[4..])
    else if StartsWith(s, "&quot;") then "\"" + Unescape(s[6..])
    else if StartsWith(s, "&#39;") then "\'" + Unescape(s[5..])
    else [s[0]] + Unescape(s[1..])
  }

  // ---- one pass and five ------------------------------------------------------------------

  lemma {:induction false} ReplaceConcat(a: string, b: string, c: char, text: string)
    ensures Replace(a + b, c, text) == Replace(a, c, text) + Replace(b, c, text)
  {
    if a == "" {
      assert a + b == b;
    } else {
      assert (a + b)[0] == a[0] && (a + b)[1..] == a[1..] + b;
      ReplaceConcat(a[1..], b, c, text);
    }
  }

  lemma {:induction false} ReplaceAbsent(s: string, c: char, text: string)
    requires c !in s
    ensures Replace(s, c, text) == s
  {
    if s != "" {
      ReplaceAbsent(s[1..], c, text);
    }
  }

  lemma ReplaceOne(c: char, text: string)
    ensures Replace([c], c, text) == text
  {
    assert [c][1..] == "";
  }

  lemma SequentialConcat(a: string, b: string)
    ensures SequentialEscape(a + b) == SequentialEscape(a) + SequentialEscape(b)
  {
    hide Replace;
    ReplaceConcat(a, b, '&', "&amp;");
    var a1, b1 := Replace(a, '&', "&amp;"), Replace(b, '&', "&amp;");
    ReplaceConcat(a1, b1, '<', "&lt;");
    var a2, b2 := Replace(a1, '<', "&lt;"), Replace(b1, '<', "&lt;");
    ReplaceConcat(a2, b2, '>', "&gt;");
    var a3, b3 := Replace(a2, '>', "&gt;"), Replace(b2, '>', "&gt;");
    ReplaceConcat(a3, b3, '\"', "&quot;");
    ReplaceConcat(Replace(a3, '\"', "&quot;"), Replace(b3, '\"', "&quot;"), '\'', "&#39;");
  }

  /** No later pass touches what an earlier one wrote. */
  lemma SequentialChar(c: char)
    ensures SequentialEscape([c]) == EscapeChar(c)
  {
    hide Replace;
    if IsSpecial(c) {
      ReplaceOne(c, EscapeChar(c));
    }
    var s := EscapeChar(c);
    assert s != [c] ==> '<' !in s && '>' !in s && '\"' !in s && '\'' !in s;
    forall x: char, text: string | x !in s
      ensures Replace(s, x, text) == s
    {
      ReplaceAbsent(s, x, text);
    }
    forall x: char, text: string | x != c
      ensures Replace([c], x, text) == [c]
    {
      ReplaceAbsent([c], x, text);
    }
  }

  lemma {:induction false} SequentialIsOnePass(s: string)
    ensures SequentialEscape(s) == Escape(s)
  {
    hide Replace, SequentialEscape, EscapeChar;
    if s == "" {
      SequentialEmpty();
    } else {
      assert s == [s[0]] + s[1..];
      SequentialConcat([s[0]], s[1..]);
      SequentialChar(s[0]);
      SequentialIsOnePass(s[1..]);
    }
  }

  lemma SequentialEmpty()
    ensures SequentialEscape("") == ""
  {
  }

  // ---- decoding ---------------------------------------------------------------------------

  lemma UnescapeHead(c: char, rest: string)
    ensures Unescape(EscapeChar(c) + rest) == [c] + Unescape(rest)
  {
    var text := EscapeChar(c) + rest;
    if IsSpecial(c) {
      assert text[..|EscapeChar(c)|] == EscapeChar(c) && text[|EscapeChar(c)|..] == rest;
      Decodes(c, rest);
    } else {
      PlainHead(c, rest);
      assert text[1..] == rest;
    }
  }

  lemma PlainHead(c: char, rest: string)
    requires c != '&'
    ensures forall reference: string :: |reference| > 0 && reference[0] == '&' ==> !StartsWith([c] + rest, reference)
  {
    forall reference: string | |reference| > 0 && reference[0] == '&'
      ensures !StartsWith([c] + rest, reference)
    {
      MismatchAt([c] + rest, reference, 0);
    }
  }

  /** No reference is another's beginning. */
  lemma Decodes(c: char, rest: string)
    requires IsSpecial(c)
    ensures var text := EscapeChar(c) + rest;
            && (StartsWith(text, "&amp;") <==> c == '&') && (StartsWith(text, "&lt;") <==> c == '<')
            && (StartsWith(text, "&gt;") <==> c == '>') && (StartsWith(text, "&quot;") <==> c == '\"')
            && (StartsWith(text, "&#39;") <==> c == '\'')
  {
    var text := EscapeChar(c) + rest;
    assert text[..|EscapeChar(c)|] == EscapeChar(c);
    assert text[1] == if c == '&' then 'a' else if c == '<' then 'l' else if c == '>' then 'g'
                      else if c == '\"' then 'q' else '#';
    if c != '&' { MismatchAt(text, "&amp;", 1); }
    if c != '<' { MismatchAt(text, "&lt;", 1); }
    if c != '>' { MismatchAt(text, "&gt;", 1); }
    if c != '\"' { MismatchAt(text, "&quot;", 1); }
    if c != '\'' { MismatchAt(text, "&#39;", 1); }
  }

  /** Decoding undoes escaping on every text, and escaped text never opens or closes a tag. */
  lemma {:induction false} UnescapeEscape(s: string)
    ensures Unescape(Escape(s)) == s && NoAngle(Escape(s))
  {
    hide Unescape, EscapeChar;
    if s == "" {
      UnescapeEmpty();
    } else {
      UnescapeEscape(s[1..]);
      UnescapeHead(s[0], Escape(s[1..]));
      EscapeCharNoAngle(s[0]);
    }
  }

  lemma UnescapeEmpty()
    ensures Unescape("") == ""
  {
  }

  lemma EscapeCharNoAngle(c: char)
    ensures NoAngle(EscapeChar(c))
  {
  }

  lemma {:induction false} EscapeNothing(s: string)
    requires forall k :: 0 <= k < |s| ==> !IsSpecial(s[k])
    ensures Escape(s) == s
  {
    if s != "" {
      EscapeNothing(s[1..]);
    }
  }

  lemma {:induction false} EscapeConcat(a: string, b: string)
    ensures Escape(a + b) == Escape(a) + Escape(b)
  {
    if a == "" {
      assert a + b == b;
    } else {
      assert (a + b)[0] == a[0] && (a + b)[1..] == a[1..] + b;
      EscapeConcat(a[1..], b);
    }
  }

  // ---- searching ignoring case --------------------------------------------------------------

  function LowerChar(c: char): char {
    if 'A' <= c <= 'Z' then (c as int + 32) as char else c
  }

  function LowerText(s: string): (r: string)
    ensures |r| == |s| && forall k :: 0 <= k < |s| ==> r[k] == LowerChar(s[k])
  {
    seq(|s|, k requires 0 <= k < |s| => LowerChar(s[k]))
  }

  lemma LowerConcat(a: string, b: string)
    ensures LowerText(a + b) == LowerText(a) + LowerText(b)
  {
  }

  lemma LowerEscapeChar(c: char)
    ensures LowerText(EscapeChar(c)) == EscapeChar(LowerChar(c))
  {
  }

  lemma {:induction false} LowerEscape(s: string)
    ensures LowerText(Escape(s)) == Escape(LowerText(s))
  {
    hide EscapeChar;
    if s != "" {
      LowerConcat(EscapeChar(s[0]), Escape(s[1..]));
      LowerEscapeChar(s[0]);
      LowerEscape(s[1..]);
      assert LowerText(s)[1..] == LowerText(s[1..]);
    }
  }

  predicate IsWord(pattern: string) {
    forall k :: 0 <= k < |pattern| ==> !IsSpecial(pattern[k]) && pattern[k] != ';'
  }

  lemma {:induction false} EscapeStarts(s: string, pattern: string)
    requires IsWord(pattern)
    ensures StartsWith(Escape(s), pattern) <==> StartsWith(s, pattern)
  {
    hide StartsWith;
    if pattern == "" {
      StartsEmpty(s);
      StartsEmpty(Escape(s));
    } else if s == "" {
    } else if s[0] != pattern[0] {
      MismatchAt(s, pattern, 0);
      assert Escape(s)[0] == if IsSpecial(s[0]) then '&' else s[0];
      MismatchAt(Escape(s), pattern, 0);
    } else {
      EscapeStarts(s[1..], pattern[1..]);
      CommonPrefix([s[0]], Escape(s[1..]), pattern[1..]);
      CommonPrefix([s[0]], s[1..], pattern[1..]);
      assert s == [s[0]] + s[1..] && pattern == [s[0]] + pattern[1..];
    }
  }

  lemma StartsEmpty(s: string)
    ensures StartsWith(s, "")
  {
  }

  lemma {:induction false} ShortContains(text: string, pattern: string)
    requires |text| < |pattern|
    ensures !Contains(text, pattern)
  {
    if text != "" {
      ShortContains(text[1..], pattern);
    }
  }

  lemma ContainsStep(text: string, pattern: string)
    requires text != ""
    ensures Contains(text, pattern) <==> StartsWith(text, pattern) || Contains(text[1..], pattern)
  {
  }

  lemma ReferenceContains(c: char, rest: string, pattern: string)
    requires IsSpecial(c) && IsWord(pattern) && |pattern| > 5
    ensures Contains(EscapeChar(c) + rest, pattern) <==> Contains(rest, pattern)
  {
    hide Contains;
    var head := EscapeChar(c)[..|EscapeChar(c)| - 1];
    assert EscapeChar(c) + rest == head + ([';'] + rest);
    SplitContains(head, ';', rest, pattern);
    ShortContains(head, pattern);
  }

  /** Escaping neither hides nor makes an occurrence of a word longer than a reference. */
  lemma {:induction false} EscapeContains(s: string, pattern: string)
    requires IsWord(pattern) && |pattern| > 5
    ensures Contains(Escape(s), pattern) <==> Contains(s, pattern)
  {
    hide Contains, StartsWith, IsWord;
    if s != "" {
      EscapeContains(s[1..], pattern);
      ContainsStep(s, pattern);
      EscapeStarts(s, pattern);
      if IsSpecial(s[0]) {
        NotStart(s, pattern);
        ReferenceContains(s[0], Escape(s[1..]), pattern);
      } else {
        ContainsStep(Escape(s), pattern);
        assert Escape(s) == [s[0]] + Escape(s[1..]);
      }
    }
  }

  lemma NotStart(s: string, pattern: string)
    requires s != "" && IsSpecial(s[0]) && IsWord(pattern) && pattern != ""
    ensures !StartsWith(s, pattern)
  {
    MismatchAt(s, pattern, 0);
  }

  /** A text without the word's last character does not hold the word. */
  lemma {:induction false} LackContains(text: string, pattern: string, k: nat)
    requires k < |pattern| && pattern[k] !in text
    ensures !Contains(text, pattern)
  {
    if text != "" {
      LackContains(text[1..], pattern, k);
      if k < |text| {
        assert text[k] in text;
        MismatchAt(text, pattern, k);
      }
    }
  }
}
