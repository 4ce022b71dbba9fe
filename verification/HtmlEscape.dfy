/** Escaping of text for HTML: three whole-string replacements, one after the other. */
module HtmlEscape {

  /** `replace` of a character by a string. */
  function Replace(s: string, c: char, with: string): string {
    if s == "" then "" else (if s[0] == c then with else [s[0]]) + Replace(s[1..], c, with)
  }

  function Escape(s: string): string {
    Replace(Replace(Replace(s, '&', "&amp;"), '<', "&lt;"), '>', "&gt;")
  }

  /** The reference: each character on its own. */
  function EscapeChar(c: char): string {
    match c
    case '&' => "&amp;"
    case '<' => "&lt;"
    case '>' => "&gt;"
    case _ => [c]
  }

  function EscapeEach(s: string): string {
    if s == "" then "" else EscapeChar(s[0]) + EscapeEach(s[1..])
  }

  lemma Regroup(a: string, b: string, x: string, y: string, z: string)
    requires a != ""
    ensures (a + b)[0] == a[0] && (a + b)[1..] == a[1..] + b
    ensures x + (y + z) == x + y + z
  {
  }

  lemma ReplaceHead(s: string, c: char, with: string)
    requires s != ""
    ensures Replace(s, c, with) == (if s[0] == c then with else [s[0]]) + Replace(s[1..], c, with)
  {
  }

  lemma {:induction false} ReplaceAppend(a: string, b: string, c: char, with: string)
    ensures Replace(a + b, c, with) == Replace(a, c, with) + Replace(b, c, with)
  {
    if a == "" {
      assert a + b == b;
    } else {
      hide Replace;
      ReplaceAppend(a[1..], b, c, with);
      ReplaceHead(a, c, with);
      ReplaceHead(a + b, c, with);
      Regroup(a, b, if a[0] == c then with else [a[0]], Replace(a[1..], c, with), Replace(b, c, with));
    }
  }

  lemma {:induction false} ReplaceNothing(s: string, c: char, with: string)
    requires c !in s
    ensures Replace(s, c, with) == s
  {
    if s != "" {
      ReplaceNothing(s[1..], c, with);
    }
  }

  lemma ReplaceFirst(c: char, rest: string, with: string)
    ensures Replace([c] + rest, c, with) == with + Replace(rest, c, with)
  {
    assert ([c] + rest)[1..] == rest;
  }

  lemma ReplaceOne(c: char, with: string)
    ensures Replace([c], c, with) == with
  {
    ReplaceFirst(c, "", with);
    assert [c] + "" == [c] && with + "" == with;
  }

  /** What the three replacements make of one character. */
  lemma EscapeOne(c: char)
    ensures Escape([c]) == EscapeChar(c)
  {
    hide Replace;
    ReplaceOne('&', "&amp;");
    ReplaceOne('<', "&lt;");
    ReplaceOne('>', "&gt;");
    if c != '&' { ReplaceNothing([c], '&', "&amp;"); }
    var first := Replace([c], '&', "&amp;");
    if c != '<' { ReplaceNothing(first, '<', "&lt;"); }
    var second := Replace(first, '<', "&lt;");
    if c != '>' { ReplaceNothing(second, '>', "&gt;"); }
  }

  lemma ThriceAppends(a: string, b: string, c: char, u: string, d: char, v: string, e: char, w: string)
    ensures Replace(Replace(Replace(a + b, c, u), d, v), e, w)
      == Replace(Replace(Replace(a, c, u), d, v), e, w) + Replace(Replace(Replace(b, c, u), d, v), e, w)
  {
    ReplaceAppend(a, b, c, u);
    ReplaceAppend(Replace(a, c, u), Replace(b, c, u), d, v);
    ReplaceAppend(Replace(Replace(a, c, u), d, v), Replace(Replace(b, c, u), d, v), e, w);
  }

  lemma EscapeAppend(a: string, b: string)
    ensures Escape(a + b) == Escape(a) + Escape(b)
    ensures EscapeLate(a + b) == EscapeLate(a) + EscapeLate(b)
  {
    hide Replace;
    ThriceAppends(a, b, '&', "&amp;", '<', "&lt;", '>', "&gt;");
    ThriceAppends(a, b, '<', "&lt;", '>', "&gt;", '&', "&amp;");
  }

  /** The replacements fuse into one pass. */
  lemma {:induction false} EscapeFuses(s: string)
    ensures Escape(s) == EscapeEach(s)
  {
    if s != "" {
      hide Escape;
      EscapeFuses(s[1..]);
      EscapeOne(s[0]);
      EscapeAppend([s[0]], s[1..]);
      assert s == [s[0]] + s[1..];
    }
  }

  /** No character is left that could open or close a tag. */
  lemma {:induction false} NothingOpensATag(s: string)
    ensures '<' !in Escape(s) && '>' !in Escape(s)
  {
    EscapeFuses(s);
    if s != "" {
      NothingOpensATag(s[1..]);
      EscapeFuses(s[1..]);
    }
  }

  /** Reads the three entities back; an '&' that starts none of them stands for itself. */
  function Unescape(s: string): string
    decreases |s|
  {
    if s == "" then ""
    else if "&amp;" <= s then "&" + Unescape(s[5..])
    else if "&lt;" <= s then "<" + Unescape(s[4..])
    else if "&gt;" <= s then ">" + Unescape(s[4..])
    else [s[0]] + Unescape(s[1..])
  }

  /** Nothing is lost: unescaping recovers the text, so that different texts look different. */
  lemma {:induction false} UnescapeInverts(s: string)
    ensures Unescape(Escape(s)) == s
  {
    EscapeFuses(s);
    if s != "" {
      UnescapeInverts(s[1..]);
      EscapeFuses(s[1..]);
      UnescapeOne(s[0], EscapeEach(s[1..]));
    }
  }

  lemma UnescapeOne(c: char, rest: string)
    ensures Unescape(EscapeChar(c) + rest) == [c] + Unescape(rest)
  {
    var s := EscapeChar(c) + rest;
    assert s[|EscapeChar(c)|..] == rest;
    match c
    case '&' => assert "&amp;" <= s;
    case '<' => assert s[1] == 'l' && "&lt;" <= s;
    case '>' => assert s[1] == 'g' && "&gt;" <= s;
    case _ => assert s[0] != '&';
  }

  // - - - the order of the replacements

  /** The same replacements with '&' going last. */
  function EscapeLate(s: string): string {
    Replace(Replace(Replace(s, '<', "&lt;"), '>', "&gt;"), '&', "&amp;")
  }

  lemma EscapeLateOne(c: char)
    ensures c != '<' && c != '>' ==> EscapeLate([c]) == EscapeChar(c)
    ensures c == '<' || c == '>' ==> |EscapeLate([c])| == |EscapeChar(c)| + 4
  {
    hide Replace;
    ReplaceOne('&', "&amp;");
    ReplaceOne('<', "&lt;");
    ReplaceOne('>', "&gt;");
    if c != '<' { ReplaceNothing([c], '<', "&lt;"); }
    var first := Replace([c], '<', "&lt;");
    if c != '>' { ReplaceNothing(first, '>', "&gt;"); }
    var second := Replace(first, '>', "&gt;");
    if c == '<' || c == '>' {
      assert second == ['&'] + second[1..];
      ReplaceFirst('&', second[1..], "&amp;");
      ReplaceNothing(second[1..], '&', "&amp;");
    } else if c != '&' {
      ReplaceNothing(second, '&', "&amp;");
    }
  }

  lemma {:induction false} EscapeLateGrows(s: string)
    ensures |EscapeLate(s)| >= |EscapeEach(s)|
    ensures |EscapeLate(s)| == |EscapeEach(s)| ==> '<' !in s && '>' !in s
    ensures '<' !in s && '>' !in s ==> EscapeLate(s) == EscapeEach(s)
  {
    if s != "" {
      hide EscapeLate;
      EscapeLateGrows(s[1..]);
      EscapeLateOne(s[0]);
      EscapeAppend([s[0]], s[1..]);
      assert s == [s[0]] + s[1..];
    }
  }

  /** All of this rests on '&' going first: going last, it would give the right text exactly for texts that have nothing
      else to escape. */
  lemma OrderMatters(s: string)
    ensures EscapeLate(s) == Escape(s) <==> '<' !in s && '>' !in s
  {
    EscapeFuses(s);
    EscapeLateGrows(s);
  }
}
