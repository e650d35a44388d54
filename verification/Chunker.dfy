/** How a disclosure's body is cut into chunks: greedily, paragraph by paragraph. */
module Chunker {

  // ---------------------------------------------------------------- text

  /** The characters Python's `str.splitlines` breaks a line at. */
  predicate BreaksLine(c: char) {
    var n := c as int;
    0x0A <= n <= 0x0D || 0x1C <= n <= 0x1E || n == 0x85 || n == 0x2028 || n == 0x2029
  }

  /** The characters Python's `str.strip` removes. */
  predicate IsSpace(c: char) {
    var n := c as int;
    BreaksLine(c) || n == 0x09 || n == 0x1F || n == 0x20 || n == 0xA0 || n == 0x1680
    || 0x2000 <= n <= 0x200A || n == 0x202F || n == 0x205F || n == 0x3000
  }

  function StripLeft(s: string): string {
    if s != [] && IsSpace(s[0]) then StripLeft(s[1..]) else s
  }

  function StripRight(s: string): string {
    if s != [] && IsSpace(s[|s| - 1]) then StripRight(s[..|s| - 1]) else s
  }

  function Strip(s: string): string {
    StripRight(StripLeft(s))
  }

  function FirstBreak(s: string): (n: nat)
    ensures n <= |s| && (n < |s| ==> BreaksLine(s[n]))
    ensures forall i :: 0 <= i < n ==> !BreaksLine(s[i])
  {
    if s == [] || BreaksLine(s[0]) then 0 else 1 + FirstBreak(s[1..])
  }

  /** Where the text goes on after its first line break: a carriage return and line feed break it once. */
  function AfterBreak(s: string): (k: nat)
    requires FirstBreak(s) < |s|
    ensures FirstBreak(s) < k <= |s|
  {
    var n := FirstBreak(s);
    if s[n] == '\r' && n + 1 < |s| && s[n + 1] == '\n' then n + 2 else n + 1
  }

  function Lines(s: string): seq<string> {
    if s == [] then []
    else if FirstBreak(s) == |s| then [s]
    else [s[..FirstBreak(s)]] + Lines(s[AfterBreak(s)..])
  }

  function StrippedOf(lines: seq<string>): seq<string> {
    if lines == [] then []
    else (if Strip(lines[0]) != [] then [Strip(lines[0])] else []) + StrippedOf(lines[1..])
  }

  function Paragraphs(body: string): seq<string> { StrippedOf(Lines(body)) }

  ghost predicate Blank(s: string) {
    forall c :: c in s ==> IsSpace(c)
  }

  /** Text that stripping leaves alone and that is not empty. */
  predicate Trim(s: string) {
    s != [] && !IsSpace(s[0]) && !IsSpace(s[|s| - 1])
  }

  lemma {:induction false} StripLeftLeaves(s: string)
    ensures StripLeft(s) == [] || !IsSpace(StripLeft(s)[0])
    ensures StripLeft(s) == [] <==> Blank(s)
  {
    if s != [] && IsSpace(s[0]) {
      StripLeftLeaves(s[1..]);
      assert s == [s[0]] + s[1..];
    } else if s != [] {
      assert s[0] in s;
    }
  }

  lemma {:induction false} StripRightLeaves(s: string)
    requires s == [] || !IsSpace(s[0])
    ensures if s == [] then StripRight(s) == [] else Trim(StripRight(s))
  {
    if s != [] && IsSpace(s[|s| - 1]) {
      StripRightLeaves(s[..|s| - 1]);
    }
  }

  lemma StripLeaves(s: string)
    ensures Strip(s) == [] || Trim(Strip(s))
    ensures Strip(s) == [] <==> Blank(s)
  {
    StripLeftLeaves(s);
    StripRightLeaves(StripLeft(s));
  }

  lemma TrimStays(s: string)
    requires Trim(s)
    ensures Strip(s) == s
  {
  }

  ghost predicate AllTrim(ps: seq<string>) {
    forall p :: p in ps ==> Trim(p)
  }

  lemma {:induction false} StrippedAreTrim(lines: seq<string>)
    ensures AllTrim(StrippedOf(lines))
    ensures StrippedOf(lines) == [] <==> forall l :: l in lines ==> Blank(l)
  {
    if lines != [] {
      StripLeaves(lines[0]);
      StrippedAreTrim(lines[1..]);
      assert lines == [lines[0]] + lines[1..];
    }
  }

  lemma BlankInParts(s: string, n: nat, k: nat)
    requires n <= k <= |s| && Blank(s[n..k])
    ensures Blank(s) <==> Blank(s[..n]) && Blank(s[k..])
  {
    assert s == s[..n] + s[n..k] + s[k..];
  }

  lemma BreaksAreBlank(s: string)
    requires FirstBreak(s) < |s|
    ensures Blank(s[FirstBreak(s)..AfterBreak(s)])
  {
    var n, k := FirstBreak(s), AfterBreak(s);
    assert BreaksLine('\n');
    forall c | c in s[n..k] ensures IsSpace(c) {
      var i :| 0 <= i < k - n && s[n..k][i] == c;
      assert i == 0 || i == 1;
    }
  }

  lemma {:induction false} BlankByLines(s: string)
    ensures Blank(s) <==> forall l :: l in Lines(s) ==> Blank(l)
  {
    if s != [] && FirstBreak(s) < |s| {
      BreaksAreBlank(s);
      BlankInParts(s, FirstBreak(s), AfterBreak(s));
      BlankByLines(s[AfterBreak(s)..]);
    }
  }

  // ---------------------------------------------------------------- grouping

  function Joined(ps: seq<string>): string {
    if ps == [] then []
    else if |ps| == 1 then ps[0]
    else Joined(ps[..|ps| - 1]) + "\n" + ps[|ps| - 1]
  }

  /** A paragraph that still fits joins the last group, any other opens one. */
  function Placed(gs: seq<seq<string>>, p: string, limit: int): seq<seq<string>> {
    if gs == [] || |Joined(gs[|gs| - 1])| + |p| + 1 > limit then gs + [[p]]
    else gs[..|gs| - 1] + [gs[|gs| - 1] + [p]]
  }

  /** The greedy grouping. */
  function Groups(ps: seq<string>, limit: int): seq<seq<string>> {
    if ps == [] then [] else Placed(Groups(ps[..|ps| - 1], limit), ps[|ps| - 1], limit)
  }

  function JoinEach(gs: seq<seq<string>>): (r: seq<string>)
    ensures |r| == |gs| && forall i :: 0 <= i < |gs| ==> r[i] == Joined(gs[i])
  {
    seq(|gs|, i requires 0 <= i < |gs| => Joined(gs[i]))
  }

  function Chunks(body: string, limit: int): seq<string> {
    JoinEach(Groups(Paragraphs(body), limit))
  }

  function Flat(gs: seq<seq<string>>): seq<string> {
    if gs == [] then [] else Flat(gs[..|gs| - 1]) + gs[|gs| - 1]
  }

  /** An order-preserving division of the paragraphs into groups. */
  ghost predicate Divides(gs: seq<seq<string>>, ps: seq<string>) {
    Flat(gs) == ps && forall g :: g in gs ==> g != []
  }

  ghost predicate Within(gs: seq<seq<string>>, limit: int) {
    forall g :: g in gs ==> |Joined(g)| <= limit
  }

  lemma JoinedGrows(g: seq<string>, p: string)
    ensures Joined(g + [p]) == if g == [] then p else Joined(g) + "\n" + p
  {
    assert (g + [p])[..|g|] == g;
  }

  lemma FlatOpens(gs: seq<seq<string>>, p: string)
    ensures Flat(gs + [[p]]) == Flat(gs) + [p]
  {
    assert (gs + [[p]])[..|gs|] == gs;
  }

  lemma FlatExtends(gs: seq<seq<string>>, g: seq<string>, p: string)
    ensures Flat(gs + [g + [p]]) == Flat(gs + [g]) + [p]
  {
    assert (gs + [g + [p]])[..|gs|] == gs && (gs + [g])[..|gs|] == gs;
  }

  ghost predicate Fitting(gs: seq<seq<string>>, limit: int) {
    forall g :: g in gs ==> g != [] && (|Joined(g)| <= limit || |g| == 1)
  }

  lemma PlacedDivides(gs: seq<seq<string>>, p: string, limit: int)
    requires Fitting(gs, limit)
    ensures Flat(Placed(gs, p, limit)) == Flat(gs) + [p] && Fitting(Placed(gs, p, limit), limit)
  {
    if gs == [] || |Joined(gs[|gs| - 1])| + |p| + 1 > limit {
      FlatOpens(gs, p);
    } else {
      var init, g := gs[..|gs| - 1], gs[|gs| - 1];
      assert gs == init + [g] && g in gs;
      FlatExtends(init, g, p);
      JoinedGrows(g, p);
      forall x | x in init + [g + [p]] ensures x != [] && (|Joined(x)| <= limit || |x| == 1) {
        assert x in gs || x == g + [p];
      }
    }
  }

  /** The groups divide the paragraphs; each fits, or is one paragraph that is too long by itself. */
  lemma {:induction false} GroupsDivide(ps: seq<string>, limit: int)
    ensures Divides(Groups(ps, limit), ps) && Fitting(Groups(ps, limit), limit)
    ensures ps == [] <==> Groups(ps, limit) == []
  {
    if ps != [] {
      var init, p := ps[..|ps| - 1], ps[|ps| - 1];
      assert ps == init + [p];
      GroupsDivide(init, limit);
      PlacedDivides(Groups(init, limit), p, limit);
    }
  }

  /** The length of the last group. */
  ghost function Reach(gs: seq<seq<string>>): nat {
    if gs == [] then 0 else |Joined(gs[|gs| - 1])|
  }

  lemma PlacedReaches(gs: seq<seq<string>>, p: string, limit: int)
    requires gs != [] ==> gs[|gs| - 1] != []
    ensures var opens, next := gs == [] || Reach(gs) + |p| + 1 > limit, Placed(gs, p, limit);
            |next| == (if opens then |gs| + 1 else |gs|) && Reach(next) == if opens then |p| else Reach(gs) + |p| + 1
  {
    JoinedGrows([], p);
    if gs != [] {
      JoinedGrows(gs[|gs| - 1], p);
    }
  }

  /** Dropping the last paragraph of a division. */
  function Shorter(hs: seq<seq<string>>): seq<seq<string>>
    requires hs != []
  {
    var n := |hs| - 1;
    if |hs[n]| <= 1 then hs[..n] else hs[n := hs[n][..|hs[n]| - 1]]
  }

  lemma ShorterDivides(hs: seq<seq<string>>, ps: seq<string>, limit: int)
    requires ps != [] && Divides(hs, ps) && Within(hs, limit)
    ensures hs != [] && Divides(Shorter(hs), ps[..|ps| - 1]) && Within(Shorter(hs), limit)
    ensures var p, alone := ps[|ps| - 1], |hs[|hs| - 1]| == 1;
            && Reach(hs) <= limit
            && |Shorter(hs)| == (if alone then |hs| - 1 else |hs|)
            && Reach(hs) == if alone then |p| else Reach(Shorter(hs)) + |p| + 1
  {
    var init, g := hs[..|hs| - 1], hs[|hs| - 1];
    assert hs == init + [g] && g in hs;
    var rest, p := g[..|g| - 1], g[|g| - 1];
    assert g == rest + [p];
    FlatLast(init, g);
    JoinedGrows(rest, p);
    hide Flat, Joined;
    assert ps == Flat(init) + g;
    assert forall h :: h in init ==> h in hs;
    if |g| == 1 {
      assert Shorter(hs) == init && g == [p];
    } else {
      assert Shorter(hs) == init + [rest];
      FlatLast(init, rest);
      assert ps[..|ps| - 1] == Flat(init) + rest;
      assert forall h :: h in init + [rest] ==> h in hs || h == rest;
    }
  }

  lemma FlatLast(init: seq<seq<string>>, g: seq<string>)
    ensures Flat(init + [g]) == Flat(init) + g
  {
    assert (init + [g])[..|init|] == init;
  }

  /** No division within the limit is shorter, nor, at the same length, has a shorter last group. */
  lemma {:induction false} GreedyIsAhead(ps: seq<string>, hs: seq<seq<string>>, limit: int)
    requires Divides(hs, ps) && Within(hs, limit)
    ensures |Groups(ps, limit)| <= |hs|
    ensures |hs| == |Groups(ps, limit)| ==> Reach(Groups(ps, limit)) <= Reach(hs)
  {
    if ps != [] {
      ShorterDivides(hs, ps, limit);
      GreedyIsAhead(ps[..|ps| - 1], Shorter(hs), limit);
      StepStaysAhead(ps, hs, limit);
    }
  }

  lemma StepStaysAhead(ps: seq<string>, hs: seq<seq<string>>, limit: int)
    requires ps != [] && Divides(hs, ps) && Within(hs, limit) && hs != []
    requires var gs := Groups(ps[..|ps| - 1], limit);
             |gs| <= |Shorter(hs)| && (|Shorter(hs)| == |gs| ==> Reach(gs) <= Reach(Shorter(hs)))
    ensures |Groups(ps, limit)| <= |hs|
    ensures |hs| == |Groups(ps, limit)| ==> Reach(Groups(ps, limit)) <= Reach(hs)
  {
    var init := ps[..|ps| - 1];
    GroupsDivide(init, limit);
    ShorterDivides(hs, ps, limit);
    var gs := Groups(init, limit);
    assert gs != [] ==> gs[|gs| - 1] in gs;
    PlacedReaches(gs, ps[|ps| - 1], limit);
  }

  // ---------------------------------------------------------------- the service's loop

  /** Cuts the body as the ingestion service does, in one pass over the paragraphs. */
  method CutIntoChunks(body: string, limit: int) returns (chunks: seq<string>)
    ensures chunks == Chunks(body, limit)
  {
    var paragraphs := Paragraphs(body);
    StrippedAreTrim(Lines(body));
    if paragraphs == [] {
      BlankByLines(body);
      StripLeaves(body);
      // The stripped body stands in for the paragraphs, and is itself empty.
      assert Strip(body) == [];
      return [];
    }
    hide Groups, JoinEach, Strip;
    var current := "";
    chunks := [];
    for i := 0 to |paragraphs|
      invariant Cut(paragraphs[..i], limit, chunks, current)
    {
      var p := paragraphs[i];
      assert p in paragraphs;
      assert paragraphs[..i + 1] == paragraphs[..i] + [p];
      NextChunk(paragraphs[..i], p, limit, chunks, current);
      if current != "" && |current| + |p| + 1 > limit {
        chunks := chunks + [current];
        current := p;
      } else {
        current := Strip(current + "\n" + p);
      }
    }
    assert paragraphs[..|paragraphs|] == paragraphs;
    if current != "" {
      chunks := chunks + [current];
    }
  }

  /** What has been cut of the paragraphs so far: all chunks but the last, which is still growing. */
  ghost predicate Cut(ps: seq<string>, limit: int, chunks: seq<string>, current: string) {
    if ps == [] then chunks == [] && current == []
    else Trim(current) && chunks + [current] == JoinEach(Groups(ps, limit))
  }

  lemma JoinEachLast(init: seq<seq<string>>, g: seq<string>)
    ensures JoinEach(init + [g]) == JoinEach(init) + [Joined(g)]
  {
    hide Joined;
  }

  /** One more paragraph extends the last chunk, or adds one. */
  lemma PlacedJoins(gs: seq<seq<string>>, p: string, limit: int, chunks: seq<string>, current: string)
    requires gs != [] && gs[|gs| - 1] != [] && chunks + [current] == JoinEach(gs)
    ensures JoinEach(Placed(gs, p, limit))
            == if |current| + |p| + 1 > limit then chunks + [current] + [p] else chunks + [current + "\n" + p]
  {
    var init, g := gs[..|gs| - 1], gs[|gs| - 1];
    assert gs == init + [g];
    JoinEachLast(init, g);
    assert chunks == JoinEach(init) && current == Joined(g) by {
      assert (chunks + [current])[..|chunks|] == chunks && (chunks + [current])[|chunks|] == current;
    }
    JoinedGrows(g, p);
    JoinedGrows([], p);
    assert [] + [p] == [p];
    JoinEachLast(gs, [p]);
    JoinEachLast(init, g + [p]);
    hide JoinEach, Joined;
  }

  lemma NextChunk(ps: seq<string>, p: string, limit: int, chunks: seq<string>, current: string)
    requires Cut(ps, limit, chunks, current) && Trim(p)
    ensures if current != [] && |current| + |p| + 1 > limit then Cut(ps + [p], limit, chunks + [current], p)
            else Cut(ps + [p], limit, chunks, Strip(current + "\n" + p))
  {
    GroupsDivide(ps, limit);
    StripJoined(current, p);
    assert (ps + [p])[..|ps|] == ps;
    assert Groups(ps + [p], limit) == Placed(Groups(ps, limit), p, limit);
    if ps == [] {
      FirstChunk(p, limit);
    } else {
      var gs := Groups(ps, limit);
      assert gs[|gs| - 1] in gs;
      hide Groups, JoinEach, Strip, Placed;
      PlacedJoins(gs, p, limit, chunks, current);
    }
  }

  lemma FirstChunk(p: string, limit: int)
    ensures JoinEach(Placed([], p, limit)) == [p]
  {
    JoinedGrows([], p);
    assert [] + [p] == [p];
    JoinEachLast([], [p]);
    hide Joined;
  }

  lemma StripJoined(current: string, p: string)
    requires (current == [] || Trim(current)) && Trim(p)
    ensures Strip(current + "\n" + p) == if current == [] then p else current + "\n" + p
    ensures Trim(Strip(current + "\n" + p))
  {
    if current == [] {
      assert ("\n" + p)[1..] == p;
      TrimStays(p);
    } else {
      TrimStays(current + "\n" + p);
    }
  }

  // ---------------------------------------------------------------- what chunking promises

  lemma {:induction false} JoinedTogether(gs: seq<seq<string>>)
    requires forall g :: g in gs ==> g != []
    ensures Joined(JoinEach(gs)) == Joined(Flat(gs))
  {
    if gs != [] {
      var init, g := gs[..|gs| - 1], gs[|gs| - 1];
      assert g in gs && forall x :: x in init ==> x in gs;
      JoinedTogether(init);
      assert JoinEach(gs) == JoinEach(init) + [Joined(g)];
      JoinedGrows(JoinEach(init), Joined(g));
      FlatIsEmpty(init);
      JoinedSplits(Flat(init), g);
    }
  }

  lemma FlatIsEmpty(gs: seq<seq<string>>)
    requires forall g :: g in gs ==> g != []
    ensures Flat(gs) == [] <==> gs == []
  {
    if gs != [] {
      assert gs[|gs| - 1] in gs;
    }
  }

  lemma Regroup(a: string, b: string, c: string)
    ensures a + "\n" + (b + "\n" + c) == (a + "\n" + b) + "\n" + c
  {
  }

  lemma {:induction false} JoinedSplits(xs: seq<string>, ys: seq<string>)
    requires ys != []
    ensures Joined(xs + ys) == if xs == [] then Joined(ys) else Joined(xs) + "\n" + Joined(ys)
  {
    var init, y := ys[..|ys| - 1], ys[|ys| - 1];
    assert ys == init + [y];
    if xs == [] {
      assert xs + ys == ys;
    } else {
      assert xs + ys == (xs + init) + [y];
      JoinedGrows(xs + init, y);
      JoinedGrows(init, y);
      if init == [] {
        assert xs + init == xs;
      } else {
        JoinedSplits(xs, init);
        Regroup(Joined(xs), Joined(init), y);
      }
    }
  }

  /** Joining the chunks with newlines gives back the paragraphs, joined; only a blank body has none. */
  lemma ChunksKeepTheText(body: string, limit: int)
    ensures Joined(Chunks(body, limit)) == Joined(Paragraphs(body))
    ensures Chunks(body, limit) == [] <==> Blank(body)
    ensures forall c :: c in Chunks(body, limit) ==> |c| <= limit || c in Paragraphs(body)
  {
    var ps := Paragraphs(body);
    var gs := Groups(ps, limit);
    GroupsDivide(ps, limit);
    JoinedTogether(gs);
    StrippedAreTrim(Lines(body));
    BlankByLines(body);
    assert gs == [] ==> ps == [];
    forall c | c in Chunks(body, limit) ensures |c| <= limit || c in ps {
      var i :| 0 <= i < |gs| && Chunks(body, limit)[i] == c;
      assert gs[i] in gs;
      if |gs[i]| == 1 {
        MemberOfFlat(gs, i, gs[i][0]);
      }
    }
  }

  lemma {:induction false} MemberOfFlat(gs: seq<seq<string>>, i: nat, p: string)
    requires i < |gs| && p in gs[i]
    ensures p in Flat(gs)
  {
    if i < |gs| - 1 {
      MemberOfFlat(gs[..|gs| - 1], i, p);
    }
  }

  /** When every paragraph fits, the chunks do too, and no division within the limit uses fewer. */
  lemma ChunksAreFewest(body: string, limit: int)
    requires forall p :: p in Paragraphs(body) ==> |p| <= limit
    ensures forall c :: c in Chunks(body, limit) ==> |c| <= limit
    ensures forall hs :: Divides(hs, Paragraphs(body)) && Within(hs, limit) ==> |Chunks(body, limit)| <= |hs|
  {
    ChunksKeepTheText(body, limit);
    forall hs | Divides(hs, Paragraphs(body)) && Within(hs, limit) ensures |Chunks(body, limit)| <= |hs| {
      GreedyIsAhead(Paragraphs(body), hs, limit);
    }
  }
}
