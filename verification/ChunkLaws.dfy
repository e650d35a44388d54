/** What a disclosure's paragraphs are, and that they can be read off its chunks again. */
module ChunkLaws {
  import opened Chunker

  // ---------------------------------------------------------------- characters

  /** Lines break at line feed, vertical tab, form feed, carriage return, the information and Unicode separators. */
  lemma BreaksAre(c: char)
    ensures BreaksLine(c) <==>
            c as int in {0x0A, 0x0B, 0x0C, 0x0D, 0x1C, 0x1D, 0x1E, 0x85, 0x2028, 0x2029}
  {
  }

  /** White space is those, the tab, the unit separator and the spaces of Unicode. */
  lemma SpacesAre(c: char)
    ensures IsSpace(c) <==>
            BreaksLine(c)
            || c as int in {0x09, 0x1F, 0x20, 0xA0, 0x1680, 0x2000, 0x2001, 0x2002, 0x2003, 0x2004, 0x2005, 0x2006,
                            0x2007, 0x2008, 0x2009, 0x200A, 0x202F, 0x205F, 0x3000}
  {
  }

  // ---------------------------------------------------------------- stripping

  ghost predicate Surrounds(a: string, b: string, s: string, core: string) {
    s == a + core + b && Blank(a) && Blank(b)
  }

  lemma {:induction false} StripLeftDrops(s: string) returns (a: string)
    ensures s == a + StripLeft(s) && Blank(a)
  {
    a := "";
    if s != [] && IsSpace(s[0]) {
      var rest := StripLeftDrops(s[1..]);
      a := [s[0]] + rest;
      assert s == [s[0]] + s[1..];
    }
  }

  lemma {:induction false} StripRightDrops(s: string) returns (b: string)
    ensures s == StripRight(s) + b && Blank(b)
  {
    b := "";
    if s != [] && IsSpace(s[|s| - 1]) {
      var rest := StripRightDrops(s[..|s| - 1]);
      b := rest + [s[|s| - 1]];
      assert s == s[..|s| - 1] + [s[|s| - 1]];
    }
  }

  /** Stripping takes white space off both ends, all of it, and nothing else. */
  lemma StripIs(s: string) returns (a: string, b: string)
    ensures Surrounds(a, b, s, Strip(s)) && (Strip(s) == [] || Trim(Strip(s)))
  {
    a := StripLeftDrops(s);
    b := StripRightDrops(StripLeft(s));
    StripLeaves(s);
  }

  // ---------------------------------------------------------------- paragraphs

  ghost predicate OneLine(s: string) { forall i :: 0 <= i < |s| ==> !BreaksLine(s[i]) }

  /** Text without a line break is one paragraph, stripped, if it is not blank. */
  lemma LineIsParagraph(s: string)
    requires OneLine(s)
    ensures Paragraphs(s) == if Blank(s) then [] else [Strip(s)]
  {
    StripLeaves(s);
    if s != [] {
      assert FirstBreak(s) == |s|;
      assert Lines(s) == [s];
      hide Lines, Strip;
      assert [s][1..] == [] && StrippedOf([]) == [];
      assert StrippedOf([s]) == (if Strip(s) != [] then [Strip(s)] else []) + [];
    }
  }

  lemma {:induction false} StrippedTogether(xs: seq<string>, ys: seq<string>)
    ensures StrippedOf(xs + ys) == StrippedOf(xs) + StrippedOf(ys)
  {
    if xs == [] {
      assert xs + ys == ys;
    } else {
      assert (xs + ys)[1..] == xs[1..] + ys;
      StrippedTogether(xs[1..], ys);
    }
  }

  lemma FirstLine(line: string, rest: string, s: string)
    requires s != [] && FirstBreak(s) < |s| && line == s[..FirstBreak(s)] && rest == s[AfterBreak(s)..]
    ensures Paragraphs(s) == (if Strip(line) != [] then [Strip(line)] else []) + Paragraphs(rest)
  {
    assert ([line] + Lines(rest))[1..] == Lines(rest);
  }

  /** A line feed at the beginning adds no paragraph. */
  lemma LeadingFeed(y: string)
    requires y != [] && y[0] == '\n'
    ensures Paragraphs(y) == Paragraphs(y[1..])
  {
    assert BreaksLine(y[0]) && FirstBreak(y) == 0 && AfterBreak(y) == 1;
    FirstLine("", y[1..], y);
    assert Strip("") == "";
  }

  /** The first line is all of a text without breaks, and what follows is the other text, or that without its feed. */
  lemma PartedAtEnd(x: string, c: char, y: string)
    requires BreaksLine(c) && FirstBreak(x) == |x|
    ensures var s := x + [c] + y;
            && FirstBreak(s) < |s| && s[..FirstBreak(s)] == x
            && (s[AfterBreak(s)..] == y || (y != [] && y[0] == '\n' && s[AfterBreak(s)..] == y[1..]))
  {
    hide *;
    SpellsOut(x, c, y);
    BreakStays(x + [c] + y, x, c, y);
    Slices(x, c, y, |x|);
  }

  lemma BreakEnds(x: string, c: char, y: string)
    requires BreaksLine(c) && FirstBreak(x) == |x|
    ensures Paragraphs(x + [c] + y) == Paragraphs(x) + Paragraphs(y)
  {
    hide *;
    var s := x + [c] + y;
    PartedAtEnd(x, c, y);
    FirstLine(x, s[AfterBreak(s)..], s);
    BareLine(x);
    if s[AfterBreak(s)..] != y {
      LeadingFeed(y);
    }
  }

  /** The first line stays the first one, and what follows is the rest and the other text, or that alone. */
  lemma PartedWithin(x: string, c: char, y: string)
    requires BreaksLine(c) && FirstBreak(x) < |x|
    ensures var s, rest := x + [c] + y, x[AfterBreak(x)..];
            && FirstBreak(s) < |s| && s[..FirstBreak(s)] == x[..FirstBreak(x)]
            && (s[AfterBreak(s)..] == rest + [c] + y || (rest == [] && s[AfterBreak(s)..] == y))
  {
    hide *;
    SpellsOut(x, c, y);
    BreakStays(x + [c] + y, x, c, y);
    Slices(x, c, y, FirstBreak(x));
    Slices(x, c, y, AfterBreak(x));
  }

  lemma BreakFollows(x: string, c: char, y: string)
    requires BreaksLine(c) && FirstBreak(x) < |x|
    requires Paragraphs(x[AfterBreak(x)..] + [c] + y) == Paragraphs(x[AfterBreak(x)..]) + Paragraphs(y)
    ensures Paragraphs(x + [c] + y) == Paragraphs(x) + Paragraphs(y)
  {
    assert Paragraphs([]) == [];
    hide *;
    var s := x + [c] + y;
    PartedWithin(x, c, y);
    FollowingLine(x[..FirstBreak(x)], x[AfterBreak(x)..], s[AfterBreak(s)..], x, s, Paragraphs(y));
  }

  lemma FollowingLine(line: string, rest: string, more: string, x: string, s: string, ps: seq<string>)
    requires FirstBreak(x) < |x| && line == x[..FirstBreak(x)] && rest == x[AfterBreak(x)..]
    requires FirstBreak(s) < |s| && line == s[..FirstBreak(s)] && more == s[AfterBreak(s)..]
    requires Paragraphs(more) == Paragraphs(rest) + ps
    ensures Paragraphs(s) == Paragraphs(x) + ps
  {
    hide *;
    FirstLine(line, rest, x);
    FirstLine(line, more, s);
  }

  /** A line break parts a text into two whose paragraphs follow one another, whatever stands on either side. */
  lemma {:induction false} BreakParts(x: string, c: char, y: string)
    requires BreaksLine(c)
    ensures Paragraphs(x + [c] + y) == Paragraphs(x) + Paragraphs(y)
    decreases |x|
  {
    hide Paragraphs;
    if FirstBreak(x) < |x| {
      BreakParts(x[AfterBreak(x)..], c, y);
      BreakFollows(x, c, y);
    } else {
      BreakEnds(x, c, y);
    }
  }

  lemma BareLine(x: string)
    requires FirstBreak(x) == |x|
    ensures Paragraphs(x) == if Strip(x) != [] then [Strip(x)] else []
  {
    StripLeaves(x);
    LineIsParagraph(x);
  }

  /** The text is x, the character c, and y. */
  ghost predicate Spells(s: string, x: string, c: char, y: string) {
    && |s| == |x| + 1 + |y| && (forall i :: 0 <= i < |x| ==> s[i] == x[i]) && s[|x|] == c
    && forall i :: |x| < i < |s| ==> s[i] == y[i - |x| - 1]
  }

  lemma SpellsOut(x: string, c: char, y: string)
    ensures Spells(x + [c] + y, x, c, y)
  {
  }

  lemma FirstBreakStays(s: string, x: string, c: char, y: string)
    requires BreaksLine(c) && Spells(s, x, c, y)
    ensures FirstBreak(s) == FirstBreak(x)
  {
    var n, m := FirstBreak(x), FirstBreak(s);
    hide FirstBreak;
    assert m <= n by {
      assert BreaksLine(s[n]);
    }
    assert n <= m by {
      assert m < |s| && BreaksLine(s[m]);
    }
  }

  /** Where the first break of a text is, and ends, once more text follows. */
  lemma BreakStays(s: string, x: string, c: char, y: string)
    requires BreaksLine(c) && Spells(s, x, c, y)
    ensures FirstBreak(s) == FirstBreak(x)
    ensures if FirstBreak(x) == |x|
            then AfterBreak(s) == (if c == '\r' && y != [] && y[0] == '\n' then |x| + 2 else |x| + 1)
            else AfterBreak(s) == AfterBreak(x) || (AfterBreak(x) == |x| && AfterBreak(s) == |x| + 1)
  {
    FirstBreakStays(s, x, c, y);
    hide FirstBreak, BreaksLine;
  }

  lemma Slices(x: string, c: char, y: string, k: nat)
    requires k <= |x|
    ensures var s := x + [c] + y; s[..k] == x[..k] && s[k..] == x[k..] + [c] + y && s[|x| + 1..] == y
    ensures y != [] ==> (x + [c] + y)[|x| + 2..] == y[1..]
  {
  }

  // ---------------------------------------------------------------- paragraphs can be read again

  /** A paragraph has no line break and no white space at its ends. */
  ghost predicate IsParagraph(p: string) { Trim(p) && OneLine(p) }

  ghost predicate AllParagraphs(ps: seq<string>) { forall p :: p in ps ==> IsParagraph(p) }

  lemma StrippedIsParagraph(line: string)
    requires OneLine(line)
    ensures Strip(line) != [] ==> IsParagraph(Strip(line))
  {
    var a, b := StripIs(line);
    var p := Strip(line);
    forall i | 0 <= i < |p| ensures !BreaksLine(p[i]) {
      assert line[|a| + i] == p[i];
    }
  }

  lemma {:induction false} ParagraphsAre(s: string)
    ensures AllParagraphs(Paragraphs(s))
  {
    if s != [] {
      if FirstBreak(s) == |s| {
        BareLine(s);
        StrippedIsParagraph(s);
      } else {
        var line, rest := s[..FirstBreak(s)], s[AfterBreak(s)..];
        FirstLine(line, rest, s);
        StrippedIsParagraph(line);
        ParagraphsAre(rest);
      }
    }
  }

  lemma {:induction false} JoinedAgain(ps: seq<string>)
    requires AllParagraphs(ps)
    ensures Paragraphs(Joined(ps)) == ps
  {
    if ps != [] {
      var init, p := ps[..|ps| - 1], ps[|ps| - 1];
      assert ps == init + [p] && p in ps;
      LineIsParagraph(p);
      TrimStays(p);
      assert p[0] in p;
      JoinedGrows(init, p);
      if init != [] {
        assert BreaksLine('\n');
        BreakParts(Joined(init), '\n', p);
        assert Joined(init) + "\n" + p == Joined(init) + ['\n'] + p;
        JoinedAgain(init);
      }
    }
  }

  ghost function ParagraphsOfEach(chunks: seq<string>): seq<string> {
    if chunks == [] then [] else ParagraphsOfEach(chunks[..|chunks| - 1]) + Paragraphs(chunks[|chunks| - 1])
  }

  lemma {:induction false} EachAgain(gs: seq<seq<string>>)
    requires AllParagraphs(Flat(gs))
    ensures ParagraphsOfEach(JoinEach(gs)) == Flat(gs)
  {
    if gs != [] {
      var init, g := gs[..|gs| - 1], gs[|gs| - 1];
      assert JoinEach(gs)[..|init|] == JoinEach(init);
      assert forall p :: p in Flat(init) || p in g ==> p in Flat(gs);
      EachAgain(init);
      JoinedAgain(g);
    }
  }

  /** The paragraphs of the chunks, one chunk after the other, are those of the body. */
  lemma ChunksSplitBack(body: string, limit: int)
    ensures ParagraphsOfEach(Chunks(body, limit)) == Paragraphs(body)
  {
    ParagraphsAre(body);
    GroupsDivide(Paragraphs(body), limit);
    EachAgain(Groups(Paragraphs(body), limit));
  }
}
