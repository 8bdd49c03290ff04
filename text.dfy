/** String operations the lyric pages rely on, with the semantics of the host
    languages: Python's `str.replace`, `str.join` and `str.split("\n")`, and
    JavaScript's `Array.prototype.join`, which agrees with Python's on strings. */
module Text {

  /** `pat` occurs in `s` starting at index `i`. */
  predicate MatchAt(s: string, pat: string, i: nat)
  {
    i + |pat| <= |s| && s[i..i + |pat|] == pat
  }

  /** `pat` is a substring of `s` (Python's `pat in s`). */
  predicate Occurs(s: string, pat: string)
  {
    exists i: nat :: i <= |s| && MatchAt(s, pat, i)
  }

  /** Python's `s.replace(pat, rep)`: a left-to-right scan that replaces each
      non-overlapping occurrence of `pat`; an empty `pat` matches before every
      character and at the end. */
  function ReplaceAll(s: string, pat: string, rep: string): string
    decreases |s|
  {
    if pat == [] then
      if s == [] then rep else rep + [s[0]] + ReplaceAll(s[1..], pat, rep)
    else if |pat| <= |s| && s[..|pat|] == pat then
      rep + ReplaceAll(s[|pat|..], pat, rep)
    else if s == [] then
      []
    else
      [s[0]] + ReplaceAll(s[1..], pat, rep)
  }

  /** Reference definition of replacing one character: every `c` becomes `rep`,
      every other character is kept, in order. */
  function ReplaceChar(s: string, c: char, rep: string): string
  {
    if s == [] then [] else (if s[0] == c then rep else [s[0]]) + ReplaceChar(s[1..], c, rep)
  }

  /** Number of occurrences of the character `c` in `s`. */
  function Count(s: string, c: char): nat
  {
    if s == [] then 0 else (if s[0] == c then 1 else 0) + Count(s[1..], c)
  }

  /** `sep.join(xs)` in Python, `xs.join(sep)` in JavaScript. */
  function Join(xs: seq<string>, sep: string): string
  {
    if |xs| == 0 then [] else if |xs| == 1 then xs[0] else xs[0] + sep + Join(xs[1..], sep)
  }

  /** Python's `s.split("\n")`: the pieces between line breaks. Joining them
      again gives back `s`, and no piece holds a line break. */
  function Lines(s: string): (r: seq<string>)
    ensures |r| >= 1
    ensures Join(r, "\n") == s
    ensures forall i :: 0 <= i < |r| ==> '\n' !in r[i]
  {
    if s == [] then [[]]
    else
      var rest := Lines(s[1..]);
      if s[0] == '\n' then
        assert s == "\n" + s[1..];
        [[]] + rest
      else
        var r := [[s[0]] + rest[0]] + rest[1..];
        assert s == [s[0]] + s[1..];
        assert r[1..] == rest[1..];
        if |rest| == 1 then r
        else
          assert Join(rest, "\n") == rest[0] + "\n" + Join(rest[1..], "\n");
          r
  }

  lemma {:induction false} NotOccursTail(s: string, pat: string)
    requires s != [] && !Occurs(s, pat)
    ensures !Occurs(s[1..], pat)
  {
    if Occurs(s[1..], pat) {
      var i: nat :| i <= |s[1..]| && MatchAt(s[1..], pat, i);
      assert s[i + 1..i + 1 + |pat|] == s[1..][i..i + |pat|];
      assert MatchAt(s, pat, i + 1);
    }
  }

  /** Text without an occurrence of a non-empty `pat` is returned unchanged. */
  lemma {:induction false} ReplaceAbsent(s: string, pat: string, rep: string)
    requires pat != [] && !Occurs(s, pat)
    ensures ReplaceAll(s, pat, rep) == s
    decreases |s|
  {
    if s != [] {
      assert !MatchAt(s, pat, 0);
      NotOccursTail(s, pat);
      ReplaceAbsent(s[1..], pat, rep);
      assert s == [s[0]] + s[1..];
    }
  }

  /** Replacing a one-character pattern agrees with the reference `ReplaceChar`. */
  lemma {:induction false} ReplaceAllChar(s: string, c: char, rep: string)
    ensures ReplaceAll(s, [c], rep) == ReplaceChar(s, c, rep)
    decreases |s|
  {
    if s != [] {
      ReplaceAllChar(s[1..], c, rep);
      assert (s[..1] == [c]) == (s[0] == c);
    }
  }

  lemma {:induction false} ReplaceCharConcat(a: string, b: string, c: char, rep: string)
    ensures ReplaceChar(a + b, c, rep) == ReplaceChar(a, c, rep) + ReplaceChar(b, c, rep)
    decreases |a|
  {
    if a != [] {
      assert (a + b)[0] == a[0];
      assert (a + b)[1..] == a[1..] + b;
      ReplaceCharConcat(a[1..], b, c, rep);
    } else {
      assert a + b == b;
    }
  }

  lemma {:induction false} ReplaceCharAbsent(s: string, c: char, rep: string)
    requires c !in s
    ensures ReplaceChar(s, c, rep) == s
    decreases |s|
  {
    if s != [] {
      ReplaceCharAbsent(s[1..], c, rep);
      assert s == [s[0]] + s[1..];
    }
  }

  /** A match is consumed as a whole and the scan resumes right after it. */
  lemma ReplaceAllAtMatch(pat: string, m: string, rep: string)
    requires pat != []
    ensures ReplaceAll(pat + m, pat, rep) == rep + ReplaceAll(m, pat, rep)
  {
    assert (pat + m)[..|pat|] == pat;
    assert (pat + m)[|pat|..] == m;
  }

  /** A prefix that cannot start a match passes through unchanged. */
  lemma {:induction false} ReplaceAllSkip(p: string, m: string, pat: string, rep: string)
    requires pat != [] && pat[0] !in p
    ensures ReplaceAll(p + m, pat, rep) == p + ReplaceAll(m, pat, rep)
    decreases |p|
  {
    if p != [] {
      assert (p + m)[0] == p[0];
      assert |pat| <= |p + m| ==> (p + m)[..|pat|][0] != pat[0];
      assert (p + m)[1..] == p[1..] + m;
      ReplaceAllSkip(p[1..], m, pat, rep);
      assert p == [p[0]] + p[1..];
    } else {
      assert p + m == m;
    }
  }

  lemma {:induction false} CountConcat(a: string, b: string, c: char)
    ensures Count(a + b, c) == Count(a, c) + Count(b, c)
    decreases |a|
  {
    if a != [] {
      assert (a + b)[0] == a[0];
      assert (a + b)[1..] == a[1..] + b;
      CountConcat(a[1..], b, c);
    } else {
      assert a + b == b;
    }
  }

  /** JavaScript's and Python's join add one separator before each further element. */
  lemma {:induction false} JoinSnoc(xs: seq<string>, y: string, sep: string)
    requires |xs| >= 1
    ensures Join(xs + [y], sep) == Join(xs, sep) + sep + y
    decreases |xs|
  {
    if |xs| > 1 {
      assert (xs + [y])[1..] == xs[1..] + [y];
      JoinSnoc(xs[1..], y, sep);
    }
  }

  lemma {:induction false} LinesNoBreak(a: string)
    requires '\n' !in a
    ensures Lines(a) == [a]
    decreases |a|
  {
    if a != [] {
      LinesNoBreak(a[1..]);
      assert a == [a[0]] + a[1..];
    }
  }

  lemma {:induction false} LinesBreak(a: string, b: string)
    requires '\n' !in a
    ensures Lines(a + "\n" + b) == [a] + Lines(b)
    decreases |a|
  {
    var s := a + "\n" + b;
    if a == [] {
      assert s[1..] == b;
    } else {
      assert s[1..] == a[1..] + "\n" + b;
      LinesBreak(a[1..], b);
      assert a == [a[0]] + a[1..];
    }
  }

  /** Splitting a join of line-break-free pieces gives the pieces back. */
  lemma {:induction false} LinesOfJoin(xs: seq<string>)
    requires |xs| >= 1
    requires forall i :: 0 <= i < |xs| ==> '\n' !in xs[i]
    ensures Lines(Join(xs, "\n")) == xs
    decreases |xs|
  {
    if |xs| == 1 {
      LinesNoBreak(xs[0]);
    } else {
      assert '\n' !in xs[0];
      LinesOfJoin(xs[1..]);
      LinesBreak(xs[0], Join(xs[1..], "\n"));
      assert xs == [xs[0]] + xs[1..];
    }
  }

  /** The text between `a` and `b` is found at offset `|a|`. */
  lemma OccursBetween(a: string, x: string, b: string)
    ensures MatchAt(a + x + b, x, |a|)
  {
    assert (a + x + b)[|a|..|a| + |x|] == x;
  }
}
