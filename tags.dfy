/** The tag-highlighting render chain of the Suno pages (music123.py:201-203 and
    the identical chain at music55.py:197-199): brackets are wrapped in a
    highlight span, then two section markers are meant to become headings. */
module Tags {
  import opened Text

  const TagOpen := "<span class='tag'>["
  const TagClose := "]</span>"
  const StyleMarker := "**[Style Prompt]**"
  const LyricsMarker := "**[Lyrics]**"

  /** The styled headings that replace the two section markers; each page has its own. */
  datatype Headings = Headings(style: string, lyrics: string)

  /** The first step: every `[` and then every `]` is replaced by its span. */
  function HighlightTags(raw: string): string
  {
    ReplaceAll(ReplaceAll(raw, "[", TagOpen), "]", TagClose)
  }

  /** The chain as written: highlighting first, the heading substitutions after it. */
  function Render(raw: string, h: Headings): string
  {
    ReplaceAll(ReplaceAll(HighlightTags(raw), StyleMarker, h.style), LyricsMarker, h.lyrics)
  }

  /** The chain in the order that makes the headings reachable: headings first. */
  function RenderIntended(raw: string, h: Headings): string
  {
    HighlightTags(ReplaceAll(ReplaceAll(raw, StyleMarker, h.style), LyricsMarker, h.lyrics))
  }

  /** Reference: what one character of raw text becomes on display. */
  function Wrap(c: char): string
  {
    if c == '[' then TagOpen else if c == ']' then TagClose else [c]
  }

  /** Reference: the display text, character by character. */
  function WrapAll(s: string): string
  {
    if s == [] then [] else Wrap(s[0]) + WrapAll(s[1..])
  }

  /** Every `[` is immediately preceded by `>`. */
  predicate Guarded(r: string)
  {
    forall i :: 0 <= i < |r| && r[i] == '[' ==> i > 0 && r[i - 1] == '>'
  }

  /** Text that neither step of the chain can touch: no bracket, no `*`. */
  predicate PlainText(s: string)
  {
    '[' !in s && ']' !in s && '*' !in s
  }

  /** Both headings are plain text, as on both pages. */
  predicate PlainHeadings(h: Headings)
  {
    PlainText(h.style) && PlainText(h.lyrics)
  }

  lemma {:induction false} WrapAllConcat(a: string, b: string)
    ensures WrapAll(a + b) == WrapAll(a) + WrapAll(b)
    decreases |a|
  {
    if a == [] {
      assert a + b == b;
    } else {
      assert (a + b)[0] == a[0];
      assert (a + b)[1..] == a[1..] + b;
      WrapAllConcat(a[1..], b);
    }
  }

  lemma {:induction false} WrapAllPlain(s: string)
    requires '[' !in s && ']' !in s
    ensures WrapAll(s) == s
    decreases |s|
  {
    if s != [] {
      WrapAllPlain(s[1..]);
      assert s == [s[0]] + s[1..];
    }
  }

  lemma ReplaceCharOne(c: char, d: char, rep: string)
    ensures ReplaceChar([c], d, rep) == if c == d then rep else [c]
  {
    assert [c][1..] == [];
  }

  lemma ScanOne(c: char)
    ensures ReplaceChar(if c == '[' then TagOpen else [c], ']', TagClose) == Wrap(c)
  {
    if c == '[' {
      ReplaceCharAbsent(TagOpen, ']', TagClose);
    } else {
      ReplaceCharOne(c, ']', TagClose);
    }
  }

  lemma {:induction false} TwoScansAreWrap(s: string)
    ensures ReplaceChar(ReplaceChar(s, '[', TagOpen), ']', TagClose) == WrapAll(s)
    decreases |s|
  {
    if s != [] {
      var head := if s[0] == '[' then TagOpen else [s[0]];
      var tail := ReplaceChar(s[1..], '[', TagOpen);
      assert ReplaceChar(s, '[', TagOpen) == head + tail;
      ReplaceCharConcat(head, tail, ']', TagClose);
      ScanOne(s[0]);
      TwoScansAreWrap(s[1..]);
    }
  }

  /** The first step wraps every `[` and `]` and keeps every other character, in
      order: it agrees with the character-by-character reference. */
  lemma HighlightIsWrap(s: string)
    ensures HighlightTags(s) == WrapAll(s)
  {
    ReplaceAllChar(s, '[', TagOpen);
    ReplaceAllChar(ReplaceChar(s, '[', TagOpen), ']', TagClose);
    TwoScansAreWrap(s);
  }

  lemma {:induction false} WrapAllLength(s: string)
    ensures |WrapAll(s)| == |s| + 18 * Count(s, '[') + 7 * Count(s, ']')
    decreases |s|
  {
    if s != [] {
      WrapAllLength(s[1..]);
    }
  }

  /** The first step adds 18 characters per `[` and 7 per `]`, and nothing else. */
  lemma HighlightLength(s: string)
    ensures |HighlightTags(s)| == |s| + 18 * Count(s, '[') + 7 * Count(s, ']')
  {
    HighlightIsWrap(s);
    WrapAllLength(s);
  }

  /** Bracket-free text passes through the first step unchanged. */
  lemma HighlightPlain(s: string)
    requires '[' !in s && ']' !in s
    ensures HighlightTags(s) == s
  {
    HighlightIsWrap(s);
    WrapAllPlain(s);
  }

  lemma GuardedConcat(a: string, b: string)
    requires Guarded(a) && Guarded(b)
    requires b != [] ==> b[0] != '['
    ensures Guarded(a + b)
  {
    var r := a + b;
    forall i | 0 <= i < |r| && r[i] == '['
      ensures i > 0 && r[i - 1] == '>'
    {
      if i >= |a| {
        assert b[i - |a|] == '[';
        assert i - |a| > 0;
        assert r[i - 1] == b[i - |a| - 1];
      }
    }
  }

  lemma {:induction false} WrapAllGuarded(s: string)
    ensures Guarded(WrapAll(s))
    ensures WrapAll(s) != [] ==> WrapAll(s)[0] != '['
    decreases |s|
  {
    if s != [] {
      var w := Wrap(s[0]);
      assert Guarded(w) by {
        if s[0] == '[' {
          assert forall i :: 0 <= i < |TagOpen| - 1 ==> TagOpen[i] != '[';
        }
      }
      WrapAllGuarded(s[1..]);
      GuardedConcat(w, WrapAll(s[1..]));
      assert WrapAll(s)[0] == w[0];
    }
  }

  /** After the first step, every `[` is immediately preceded by `>`. */
  lemma HighlightGuarded(s: string)
    ensures Guarded(HighlightTags(s))
  {
    HighlightIsWrap(s);
    WrapAllGuarded(s);
  }

  /** A pattern holding `*[` cannot occur in guarded text. */
  lemma GuardedExcludes(r: string, pat: string, k: nat)
    requires Guarded(r)
    requires k + 1 < |pat| && pat[k] == '*' && pat[k + 1] == '['
    ensures !Occurs(r, pat)
  {
    forall i: nat | i <= |r|
      ensures !MatchAt(r, pat, i)
    {
      if i + |pat| <= |r| {
        assert r[i..i + |pat|][k] == r[i + k];
        assert r[i..i + |pat|][k + 1] == r[i + k + 1];
      }
    }
  }

  /** The heading substitutions never fire: the chain as written only
      highlights tags, whatever the headings are. */
  lemma RenderIsHighlight(s: string, h: Headings)
    ensures Render(s, h) == HighlightTags(s)
  {
    var t := HighlightTags(s);
    HighlightGuarded(s);
    GuardedExcludes(t, StyleMarker, 1);
    ReplaceAbsent(t, StyleMarker, h.style);
    GuardedExcludes(t, LyricsMarker, 1);
    ReplaceAbsent(t, LyricsMarker, h.lyrics);
  }

  /** Bracket-free text passes through the whole chain as written unchanged. */
  lemma RenderPlain(s: string, h: Headings)
    requires '[' !in s && ']' !in s
    ensures Render(s, h) == s
  {
    RenderIsHighlight(s, h);
    HighlightPlain(s);
  }

  lemma WrapAllCons(c: char, t: string)
    ensures WrapAll([c] + t) == Wrap(c) + WrapAll(t)
  {
    assert ([c] + t)[1..] == t;
  }

  /** The style marker is still displayed with its own `**` in front instead of
      the heading: the chain as written leaves it to the tag highlighting. */
  lemma RenderLeavesStyleMarker(x: string, h: Headings)
    ensures |Render(StyleMarker + x, h)| >= 2 && Render(StyleMarker + x, h)[..2] == "**"
  {
    var raw := StyleMarker + x;
    RenderIsHighlight(raw, h);
    HighlightIsWrap(raw);
    var rest := raw[1..];
    assert raw == ['*'] + rest;
    WrapAllCons('*', rest);
    assert rest == ['*'] + rest[1..];
    WrapAllCons('*', rest[1..]);
  }

  /** Likewise the lyrics marker keeps its own `**` on display. */
  lemma RenderLeavesLyricsMarker(x: string, h: Headings)
    ensures |Render(LyricsMarker + x, h)| >= 2 && Render(LyricsMarker + x, h)[..2] == "**"
  {
    var raw := LyricsMarker + x;
    RenderIsHighlight(raw, h);
    HighlightIsWrap(raw);
    var rest := raw[1..];
    assert raw == ['*'] + rest;
    WrapAllCons('*', rest);
    assert rest == ['*'] + rest[1..];
    WrapAllCons('*', rest[1..]);
  }

  lemma NoCharNoMatch(s: string, pat: string, k: nat)
    requires k < |pat| && pat[k] !in s
    ensures !Occurs(s, pat)
  {
    forall i: nat | i <= |s|
      ensures !MatchAt(s, pat, i)
    {
      if i + |pat| <= |s| {
        assert s[i..i + |pat|][k] == s[i + k];
      }
    }
  }

  /** Text without `*` holds neither marker: the intended chain only highlights it. */
  lemma RenderIntendedPlain(s: string, h: Headings)
    requires '*' !in s
    ensures RenderIntended(s, h) == HighlightTags(s)
  {
    NoCharNoMatch(s, StyleMarker, 0);
    ReplaceAbsent(s, StyleMarker, h.style);
    NoCharNoMatch(s, LyricsMarker, 0);
    ReplaceAbsent(s, LyricsMarker, h.lyrics);
  }

  /** Bracket-free text passes through the intended chain unchanged too. */
  lemma RenderIntendedBracketFree(s: string, h: Headings)
    requires '[' !in s && ']' !in s
    ensures RenderIntended(s, h) == s
  {
    NoCharNoMatch(s, StyleMarker, 2);
    ReplaceAbsent(s, StyleMarker, h.style);
    NoCharNoMatch(s, LyricsMarker, 2);
    ReplaceAbsent(s, LyricsMarker, h.lyrics);
    HighlightPlain(s);
  }

  /** The style marker cannot start anywhere in a lyrics section without `*`:
      its `*` at index 16 would fall beyond the lyrics marker. */
  lemma LyricsSectionLacksStyleMarker(y: string)
    requires '*' !in y
    ensures !Occurs(LyricsMarker + y, StyleMarker)
  {
    var s := LyricsMarker + y;
    var n := |LyricsMarker|;
    assert n == 12 && |StyleMarker| == 18 && StyleMarker[16] == '*';
    forall i: nat | i <= |s|
      ensures !MatchAt(s, StyleMarker, i)
    {
      if i + |StyleMarker| <= |s| {
        assert s[i..i + |StyleMarker|][16] == s[i + 16] == y[i + 16 - n];
      }
    }
  }

  lemma StylePass(x: string, y: string, hs: string)
    requires '*' !in x && '*' !in y
    ensures ReplaceAll(StyleMarker + x + LyricsMarker + y, StyleMarker, hs) == hs + x + LyricsMarker + y
  {
    var rest := LyricsMarker + y;
    calc {
      ReplaceAll(StyleMarker + x + LyricsMarker + y, StyleMarker, hs);
      { assert StyleMarker + x + LyricsMarker + y == StyleMarker + (x + rest); }
      ReplaceAll(StyleMarker + (x + rest), StyleMarker, hs);
      { ReplaceAllAtMatch(StyleMarker, x + rest, hs); }
      hs + ReplaceAll(x + rest, StyleMarker, hs);
      { ReplaceAllSkip(x, rest, StyleMarker, hs); }
      hs + (x + ReplaceAll(rest, StyleMarker, hs));
      { LyricsSectionLacksStyleMarker(y); ReplaceAbsent(rest, StyleMarker, hs); }
      hs + (x + rest);
    }
  }

  /** A marker that starts with `*` is replaced once, after a `*`-free prefix
      and before a `*`-free rest. */
  lemma MarkerPass(p: string, marker: string, y: string, rep: string)
    requires marker != [] && marker[0] == '*'
    requires '*' !in p && '*' !in y
    ensures ReplaceAll(p + marker + y, marker, rep) == p + rep + y
  {
    calc {
      ReplaceAll(p + marker + y, marker, rep);
      { assert p + marker + y == p + (marker + y); }
      ReplaceAll(p + (marker + y), marker, rep);
      { ReplaceAllSkip(p, marker + y, marker, rep); }
      p + ReplaceAll(marker + y, marker, rep);
      { ReplaceAllAtMatch(marker, y, rep); }
      p + (rep + ReplaceAll(y, marker, rep));
      { NoCharNoMatch(y, marker, 0); ReplaceAbsent(y, marker, rep); }
      p + (rep + y);
    }
  }

  lemma HighlightSections(a: string, x: string, b: string, y: string)
    requires '[' !in a && ']' !in a && '[' !in b && ']' !in b
    ensures HighlightTags(a + x + b + y) == a + HighlightTags(x) + b + HighlightTags(y)
  {
    HighlightIsWrap(a + x + b + y);
    WrapAllConcat(a + x + b, y);
    WrapAllConcat(a + x, b);
    WrapAllConcat(a, x);
    WrapAllPlain(a);
    WrapAllPlain(b);
    HighlightIsWrap(x);
    HighlightIsWrap(y);
  }

  /** A text laid out as the pages request (style marker, style section, lyrics
      marker, lyrics section) shows both headings in place, the sections highlighted. */
  lemma RenderIntendedSections(x: string, y: string, h: Headings)
    requires PlainHeadings(h)
    requires '*' !in x && '*' !in y
    ensures RenderIntended(StyleMarker + x + LyricsMarker + y, h)
         == h.style + HighlightTags(x) + h.lyrics + HighlightTags(y)
  {
    StylePass(x, y, h.style);
    assert h.style + x + LyricsMarker + y == (h.style + x) + LyricsMarker + y;
    MarkerPass(h.style + x, LyricsMarker, y, h.lyrics);
    assert (h.style + x) + h.lyrics + y == h.style + x + h.lyrics + y;
    HighlightSections(h.style, x, h.lyrics, y);
  }

  /** With the corrected chain, a text that opens with the style marker is
      shown opening with the style heading. */
  lemma RenderIntendedOpensWithStyle(x: string, h: Headings)
    requires PlainHeadings(h)
    ensures |RenderIntended(StyleMarker + x, h)| >= |h.style|
    ensures RenderIntended(StyleMarker + x, h)[..|h.style|] == h.style
  {
    ReplaceAllAtMatch(StyleMarker, x, h.style);
    var x1 := ReplaceAll(x, StyleMarker, h.style);
    ReplaceAllSkip(h.style, x1, LyricsMarker, h.lyrics);
    var x2 := ReplaceAll(x1, LyricsMarker, h.lyrics);
    HighlightIsWrap(h.style + x2);
    WrapAllConcat(h.style, x2);
    WrapAllPlain(h.style);
  }

  /** A bracket-free prefix, such as `Error: `, is kept in front by the chain
      as written, and the rest is rendered on its own. */
  lemma RenderPrefix(p: string, m: string, h: Headings)
    requires '[' !in p && ']' !in p
    ensures Render(p + m, h) == p + Render(m, h)
  {
    RenderIsHighlight(p + m, h);
    RenderIsHighlight(m, h);
    HighlightIsWrap(p + m);
    HighlightIsWrap(m);
    WrapAllConcat(p, m);
    WrapAllPlain(p);
  }

  /** A prefix without brackets or `*` is kept in front by the intended chain. */
  lemma RenderIntendedPrefix(p: string, m: string, h: Headings)
    requires '[' !in p && ']' !in p && '*' !in p
    ensures RenderIntended(p + m, h) == p + RenderIntended(m, h)
  {
    ReplaceAllSkip(p, m, StyleMarker, h.style);
    var m1 := ReplaceAll(m, StyleMarker, h.style);
    ReplaceAllSkip(p, m1, LyricsMarker, h.lyrics);
    var m2 := ReplaceAll(m1, LyricsMarker, h.lyrics);
    HighlightIsWrap(p + m2);
    WrapAllConcat(p, m2);
    WrapAllPlain(p);
    HighlightIsWrap(m2);
  }
}
