/** What the calibration metrics count: pairs told apart, errors made, and the bias of every bin. */
module CalibrationRanks {
  import opened Calibration
  import opened CalibrationLaws

  // ---------------------------------------------------------------- pairs of a positive and a negative

  datatype Relation = Above | Level | Whatever

  predicate Holds(r: Relation, positive: real, negative: real) {
    match r case Above => positive > negative case Level => positive == negative case Whatever => true
  }

  predicate IsPlace(obs: seq<Observation>, outcome: bool, i: int) { 0 <= i < |obs| && obs[i].outcome == outcome }

  /** A positive and a negative that stand in the relation. */
  predicate IsPair(obs: seq<Observation>, r: Relation, i: int, j: int) {
    IsPlace(obs, true, i) && IsPlace(obs, false, j) && Holds(r, obs[i].value, obs[j].value)
  }

  /** An observation of the other outcome that stands in the relation with this one. */
  predicate IsPartner(obs: seq<Observation>, r: Relation, o: Observation, i: int) {
    && IsPlace(obs, !o.outcome, i)
    && if o.outcome then Holds(r, o.value, obs[i].value) else Holds(r, obs[i].value, o.value)
  }

  ghost function Places(obs: seq<Observation>, outcome: bool): set<int> {
    set i | 0 <= i < |obs| && IsPlace(obs, outcome, i)
  }

  ghost function Pairs(obs: seq<Observation>, r: Relation): set<(int, int)> {
    set i, j | 0 <= i < |obs| && 0 <= j < |obs| && IsPair(obs, r, i, j) :: (i, j)
  }

  ghost function Partners(obs: seq<Observation>, r: Relation, o: Observation): set<int> {
    set i | 0 <= i < |obs| && IsPartner(obs, r, o, i)
  }

  lemma InPairs(obs: seq<Observation>, r: Relation, i: int, j: int)
    ensures (i, j) in Pairs(obs, r) <==> IsPair(obs, r, i, j)
  {
  }

  /** A place paired with each of some others, as the positive or as the negative. */
  ghost function WithEach(xs: set<int>, n: int, first: bool): set<(int, int)> {
    set x | x in xs :: if first then (n, x) else (x, n)
  }

  lemma InWithEach(xs: set<int>, n: int, first: bool, i: int, j: int)
    ensures (i, j) in WithEach(xs, n, first) <==> if first then i == n && j in xs else j == n && i in xs
  {
  }

  lemma {:induction false} AsManyPairs(xs: set<int>, n: int, first: bool)
    ensures |WithEach(xs, n, first)| == |xs|
  {
    if exists x :: x in xs {
      var x :| x in xs;
      AsManyPairs(xs - {x}, n, first);
      assert WithEach(xs, n, first) == WithEach(xs - {x}, n, first) + {if first then (n, x) else (x, n)};
    } else {
      assert xs == {} && WithEach(xs, n, first) == {};
    }
  }

  lemma PairOneMore(obs: seq<Observation>, o: Observation, r: Relation, i: int, j: int)
    ensures IsPair(obs + [o], r, i, j) <==>
              || IsPair(obs, r, i, j)
              || (o.outcome && i == |obs| && IsPartner(obs, r, o, j))
              || (!o.outcome && j == |obs| && IsPartner(obs, r, o, i))
  {
    hide Holds;
  }

  lemma PairsOneMore(obs: seq<Observation>, o: Observation, r: Relation)
    ensures |Pairs(obs + [o], r)| == |Pairs(obs, r)| + |Partners(obs, r, o)|
  {
    var next, n := obs + [o], |obs|;
    var partners := Partners(obs, r, o);
    var added := WithEach(partners, n, o.outcome);
    AsManyPairs(partners, n, o.outcome);
    assert forall i :: i in partners <==> IsPartner(obs, r, o, i);
    assert forall i, j :: IsPair(obs, r, i, j) ==> i < n && j < n;
    hide IsPair, IsPartner, Partners, Pairs, WithEach;
    forall i, j ensures (i, j) in Pairs(next, r) <==> (i, j) in Pairs(obs, r) || (i, j) in added {
      InPairs(next, r, i, j);
      InPairs(obs, r, i, j);
      InWithEach(partners, n, o.outcome, i, j);
      PairOneMore(obs, o, r, i, j);
    }
    forall i, j | (i, j) in Pairs(obs, r) ensures (i, j) !in added {
      InPairs(obs, r, i, j);
      InWithEach(partners, n, o.outcome, i, j);
    }
    SumOfSets(Pairs(obs, r), added, Pairs(next, r));
  }

  lemma SumOfSets(xs: set<(int, int)>, ys: set<(int, int)>, all: set<(int, int)>)
    requires forall i, j :: (i, j) in all <==> (i, j) in xs || (i, j) in ys
    requires forall i, j :: (i, j) in xs ==> (i, j) !in ys
    ensures |all| == |xs| + |ys|
  {
    forall p ensures p in all <==> p in xs + ys {
      var (i, j) := p;
      assert p == (i, j);
    }
    forall p | p in xs ensures p !in ys {
      var (i, j) := p;
      assert p == (i, j);
    }
    assert all == xs + ys;
  }

  lemma PlacesOneMore(obs: seq<Observation>, o: Observation, outcome: bool)
    ensures |Places(obs + [o], outcome)| == |Places(obs, outcome)| + (if o.outcome == outcome then 1 else 0)
  {
    assert Places(obs + [o], outcome)
           == Places(obs, outcome) + (if o.outcome == outcome then {|obs|} else {});
  }

  /** This observation stands in the relation with the other. */
  predicate Partnered(last: Observation, r: Relation, o: Observation) {
    && last.outcome != o.outcome
    && if o.outcome then Holds(r, o.value, last.value) else Holds(r, last.value, o.value)
  }

  lemma PartnersOneMore(obs: seq<Observation>, last: Observation, r: Relation, o: Observation)
    ensures |Partners(obs + [last], r, o)| == |Partners(obs, r, o)| + (if Partnered(last, r, o) then 1 else 0)
  {
    var next := obs + [last];
    assert forall i :: 0 <= i < |obs| ==> (IsPartner(next, r, o, i) <==> IsPartner(obs, r, o, i)) by {
      hide Holds;
    }
    assert IsPartner(next, r, o, |obs|) <==> Partnered(last, r, o) by {
      hide Holds;
    }
    hide IsPartner, Partnered;
    assert Partners(next, r, o) == Partners(obs, r, o) + (if Partnered(last, r, o) then {|obs|} else {});
  }

  // ---------------------------------------------------------------- the AUC counts pairs

  /** How many pairs the scores tell apart, ties counting half. */
  ghost function ToldApart(obs: seq<Observation>): real {
    |Pairs(obs, Above)| as real + |Pairs(obs, Level)| as real / 2.0
  }

  ghost function Beats(obs: seq<Observation>, o: Observation): real {
    |Partners(obs, Above, o)| as real + |Partners(obs, Level, o)| as real / 2.0
  }

  lemma BeatsOneMore(obs: seq<Observation>, last: Observation, o: Observation)
    ensures Beats(obs + [last], o) == Beats(obs, o)
              + (if Partnered(last, Above, o) then 1.0 else if Partnered(last, Level, o) then 0.5 else 0.0)
  {
    PartnersOneMore(obs, last, Above, o);
    PartnersOneMore(obs, last, Level, o);
    hide Partners;
  }

  lemma BeatsNone(o: Observation)
    ensures Beats([], o) == 0.0
  {
    assert Partners([], Above, o) == {} && Partners([], Level, o) == {};
  }

  lemma {:induction false} PositiveBeats(obs: seq<Observation>, o: Observation)
    requires o.outcome
    ensures WinsOf(o.value, With(obs, false)) == Beats(obs, o)
  {
    BeatsNone(o);
    if obs != [] {
      var init, last := obs[..|obs| - 1], obs[|obs| - 1];
      assert obs == init + [last];
      PositiveBeats(init, o);
      BeatsOneMore(init, last, o);
      WithOneMore(init, last, false);
      WinsOfMore(o.value, With(init, false), last.value);
      hide With, WinsOf, Beats;
      assert With(init, false) + [] == With(init, false);
    }
  }

  lemma {:induction false} NegativeIsBeaten(obs: seq<Observation>, o: Observation)
    requires !o.outcome
    ensures Wins(With(obs, true), [o.value]) == Beats(obs, o)
  {
    BeatsNone(o);
    if obs != [] {
      var init, last := obs[..|obs| - 1], obs[|obs| - 1];
      assert obs == init + [last];
      NegativeIsBeaten(init, o);
      BeatsOneMore(init, last, o);
      WithOneMore(init, last, true);
      WinsMore(With(init, true), last.value, [o.value]);
      WinsOfMore(last.value, [], o.value);
      hide With, WinsOf, Wins, Beats;
      assert With(init, true) + [] == With(init, true);
    }
  }

  lemma WinsMore(ps: seq<real>, p: real, ns: seq<real>)
    ensures Wins(ps + [p], ns) == Wins(ps, ns) + WinsOf(p, ns)
  {
    assert (ps + [p])[..|ps|] == ps;
  }

  lemma WithOneMore(obs: seq<Observation>, o: Observation, outcome: bool)
    ensures With(obs + [o], outcome) == With(obs, outcome) + (if o.outcome == outcome then [o.value] else [])
  {
    assert (obs + [o])[..|obs|] == obs;
  }

  lemma {:induction false} WinsAreToldApart(obs: seq<Observation>)
    ensures Wins(With(obs, true), With(obs, false)) == ToldApart(obs)
    ensures |With(obs, true)| == |Places(obs, true)| && |With(obs, false)| == |Places(obs, false)|
  {
    if obs == [] {
      assert Places(obs, true) == {} && Places(obs, false) == {};
      assert forall r :: Pairs(obs, r) == {};
    } else {
      var init, o := obs[..|obs| - 1], obs[|obs| - 1];
      assert obs == init + [o];
      WinsAreToldApart(init);
      PlacesOneMore(init, o, true);
      PlacesOneMore(init, o, false);
      WithOneMore(init, o, true);
      WithOneMore(init, o, false);
      PairsOneMore(init, o, Above);
      PairsOneMore(init, o, Level);
      hide With, Places, Pairs, Partners;
      hide Wins, WinsOf;
      if o.outcome {
        PositiveBeats(init, o);
        WinsMore(With(init, true), o.value, With(init, false));
        assert With(obs, false) == With(init, false);
      } else {
        NegativeIsBeaten(init, o);
        assert With(obs, true) == With(init, true);
        WinsSplit(With(init, true), With(init, false), o.value);
      }
    }
  }

  lemma {:induction false} AllPairs(obs: seq<Observation>)
    ensures |Pairs(obs, Whatever)| == |Places(obs, true)| * |Places(obs, false)|
  {
    if obs == [] {
      assert Places(obs, true) == {} && Pairs(obs, Whatever) == {};
    } else {
      var init, o := obs[..|obs| - 1], obs[|obs| - 1];
      assert obs == init + [o];
      AllPairs(init);
      PlacesOneMore(init, o, true);
      PlacesOneMore(init, o, false);
      PairsOneMore(init, o, Whatever);
      assert Partners(init, Whatever, o) == Places(init, !o.outcome);
      hide Places, Pairs, Partners;
      OneMoreTimes(|Places(init, true)|, |Places(init, false)|);
    }
  }

  lemma OneMoreTimes(m: nat, n: nat)
    ensures (m + 1) * n == m * n + n && m * (n + 1) == m * n + m
  {
  }

  /** The AUC is the share of pairs in which the positive has the higher score, ties counting half. */
  lemma AucCountsPairs(obs: seq<Observation>)
    ensures var ps, ns := |Places(obs, true)|, |Places(obs, false)|;
            && |Pairs(obs, Whatever)| == ps * ns
            && (if ps == 0 || ns == 0 then Auc(obs) == 0.5
                else Auc(obs) * (ps as real * ns as real)
                     == |Pairs(obs, Above)| as real + |Pairs(obs, Level)| as real / 2.0)
  {
    AllPairs(obs);
    WinsAreToldApart(obs);
    var ps, ns := With(obs, true), With(obs, false);
    hide With, Wins, Pairs, Places;
    if ps != [] && ns != [] {
      ShareTimes(Wins(ps, ns), |ps|, |ns|);
    }
  }

  lemma ShareTimes(wins: real, ps: nat, ns: nat)
    requires ps > 0 && ns > 0
    ensures Share(wins, ps, ns) * (ps as real * ns as real) == wins
    ensures Share(wins, ps, ns) == 1.0 <==> wins == (ps * ns) as real
  {
    var total := ps as real * ns as real;
    ProductPositive(ps as real, ns as real);
    assert (ps * ns) as real == total;
    Divides(wins, total);
  }

  lemma Divides(x: real, y: real)
    requires y > 0.0
    ensures x / y * y == x && (x / y == 1.0 <==> x == y)
  {
  }

  lemma Trichotomy(obs: seq<Observation>)
    ensures Pairs(obs, Above) !! Pairs(obs, Level)
    ensures Pairs(obs, Above) + Pairs(obs, Level) <= Pairs(obs, Whatever)
    ensures |Pairs(obs, Above) + Pairs(obs, Level)| == |Pairs(obs, Above)| + |Pairs(obs, Level)|
  {
  }

  lemma SmallerSet<T>(xs: set<T>, ys: set<T>)
    requires xs <= ys
    ensures |xs| <= |ys| && (|xs| == |ys| ==> xs == ys)
  {
    assert ys == xs + (ys - xs);
  }

  ghost predicate Separates(obs: seq<Observation>) {
    forall i, j :: 0 <= i < |obs| && 0 <= j < |obs| && obs[i].outcome && !obs[j].outcome ==>
      obs[i].value > obs[j].value
  }

  lemma SeparatesIff(obs: seq<Observation>)
    ensures Separates(obs) <==> Pairs(obs, Above) == Pairs(obs, Whatever)
  {
    if Pairs(obs, Above) == Pairs(obs, Whatever) {
      forall i, j | 0 <= i < |obs| && 0 <= j < |obs| && obs[i].outcome && !obs[j].outcome
        ensures obs[i].value > obs[j].value
      {
        assert (i, j) in Pairs(obs, Whatever);
      }
    }
  }

  /** The AUC is one exactly when there are both outcomes and every positive scores above every negative. */
  lemma PerfectIff(obs: seq<Observation>)
    ensures Auc(obs) == 1.0
            <==> Separates(obs) && (exists o :: o in obs && o.outcome) && exists o :: o in obs && !o.outcome
  {
    AllPairs(obs);
    WinsAreToldApart(obs);
    Trichotomy(obs);
    SeparatesIff(obs);
    AnyPlace(obs, true);
    AnyPlace(obs, false);
    SmallerSet(Pairs(obs, Above) + Pairs(obs, Level), Pairs(obs, Whatever));
    SmallerSet(Pairs(obs, Above), Pairs(obs, Whatever));
    var ps, ns := With(obs, true), With(obs, false);
    hide With, Wins, Pairs, Places, Separates, Share;
    if ps != [] && ns != [] {
      ShareTimes(Wins(ps, ns), |ps|, |ns|);
    }
  }

  lemma AnyPlace(obs: seq<Observation>, outcome: bool)
    ensures |Places(obs, outcome)| > 0 <==> exists o :: o in obs && o.outcome == outcome
  {
    if o :| o in obs && o.outcome == outcome {
      var i :| 0 <= i < |obs| && obs[i] == o;
      assert i in Places(obs, outcome);
    }
    if i :| i in Places(obs, outcome) {
      assert obs[i] in obs;
    }
  }

  lemma RaisingKeepsPairs(obs: seq<Observation>, next: seq<Observation>, i: nat, a: int, b: int)
    requires Raised(obs, next, i)
    ensures IsPair(obs, Above, a, b) ==> IsPair(next, Above, a, b)
    ensures IsPair(obs, Level, a, b) ==> IsPair(next, Above, a, b) || IsPair(next, Level, a, b)
  {
  }

  /** One positive has a higher score, and the rest is the same. */
  ghost predicate Raised(obs: seq<Observation>, next: seq<Observation>, i: nat) {
    && i < |obs| == |next| && obs[i].outcome && next[i].outcome && next[i].value >= obs[i].value
    && forall k :: 0 <= k < |obs| && k != i ==> next[k] == obs[k]
  }

  lemma RaisingTellsMoreApart(obs: seq<Observation>, next: seq<Observation>, i: nat)
    requires Raised(obs, next, i)
    ensures |Places(next, true)| == |Places(obs, true)| && |Places(next, false)| == |Places(obs, false)|
    ensures ToldApart(next) >= ToldApart(obs)
  {
    assert Places(next, true) == Places(obs, true) && Places(next, false) == Places(obs, false);
    Trichotomy(obs);
    Trichotomy(next);
    hide Pairs, Places, IsPair, Raised;
    forall a, b
      ensures (a, b) in Pairs(obs, Above) ==> (a, b) in Pairs(next, Above)
      ensures (a, b) in Pairs(obs, Level) ==> (a, b) in Pairs(next, Above) || (a, b) in Pairs(next, Level)
    {
      RaisingKeepsPairs(obs, next, i, a, b);
      InPairs(obs, Above, a, b);
      InPairs(obs, Level, a, b);
      InPairs(next, Above, a, b);
      InPairs(next, Level, a, b);
    }
    SmallerSet(Pairs(obs, Above), Pairs(next, Above));
    SmallerSet(Pairs(obs, Above) + Pairs(obs, Level), Pairs(next, Above) + Pairs(next, Level));
  }

  lemma AucIs(obs: seq<Observation>)
    ensures var ps, ns := |Places(obs, true)|, |Places(obs, false)|;
            Auc(obs) == if ps == 0 || ns == 0 then 0.5 else Share(ToldApart(obs), ps, ns)
  {
    WinsAreToldApart(obs);
  }

  lemma ShareGrows(x: real, y: real, ps: nat, ns: nat)
    requires ps > 0 && ns > 0 && x <= y
    ensures Share(x, ps, ns) <= Share(y, ps, ns)
  {
    ProductPositive(ps as real, ns as real);
    QuotientGrows(x, y, ps as real * ns as real);
  }

  /** Raising the score of a positive never lowers the AUC. */
  lemma RaisingAPositive(obs: seq<Observation>, i: nat, higher: real)
    requires i < |obs| && obs[i].outcome && higher >= obs[i].value
    ensures Auc(obs[i := Observation(higher, true)]) >= Auc(obs)
  {
    var next, ps, ns := obs[i := Observation(higher, true)], |Places(obs, true)|, |Places(obs, false)|;
    assert Raised(obs, next, i);
    RaisingTellsMoreApart(obs, next, i);
    AucIs(obs);
    AucIs(next);
    hide Auc, Places, ToldApart, Share, Raised;
    if ps > 0 && ns > 0 {
      ShareGrows(ToldApart(obs), ToldApart(next), ps, ns);
    }
  }

  // ---------------------------------------------------------------- the Brier score counts errors

  /** The mean, times the number, is the sum. */
  ghost predicate IsMeanOf(mean: real, sum: real, n: nat) { mean * n as real == sum }

  lemma QuotientIsMean(sum: real, n: nat)
    requires n > 0
    ensures IsMeanOf(sum / n as real, sum, n) && (sum / n as real == 0.0 <==> sum == 0.0)
  {
    DividesZero(sum, n as real);
  }

  /** How far a probability is from what came. */
  function Miss(o: Observation): real { if o.outcome then 1.0 - o.value else o.value }

  ghost function Misses(obs: seq<Observation>): real {
    if obs == [] then 0.0 else Misses(obs[..|obs| - 1]) + Square(Miss(obs[|obs| - 1]))
  }

  lemma PositiveProduct(x: real, y: real, product: real)
    requires x > 0.0 && y > 0.0 && product == x * y
    ensures product > 0.0
  {
  }

  lemma PositiveSquare(x: real)
    requires x > 0.0
    ensures Square(x) > 0.0
  {
    PositiveProduct(x, x, Square(x));
  }

  lemma SquarePositive(x: real)
    requires x != 0.0
    ensures Square(x) > 0.0
  {
    OppositesSquare(x, -x);
    hide Square;
    if x > 0.0 {
      PositiveSquare(x);
    } else {
      PositiveSquare(-x);
    }
  }

  lemma OppositesSquare(x: real, y: real)
    requires x == y || x == -y
    ensures Square(x) == Square(y)
  {
  }

  lemma SquareVanishes(x: real)
    ensures Square(x) >= 0.0 && (Square(x) == 0.0 <==> x == 0.0)
  {
    if x == 0.0 {
      assert Square(x) == 0.0;
    } else {
      SquarePositive(x);
      hide Square;
    }
  }

  lemma MissSquared(o: Observation)
    ensures Square(Error(o)) == Square(Miss(o)) >= 0.0
    ensures Square(Miss(o)) == 0.0 <==> Miss(o) == 0.0
  {
    SquareVanishes(Miss(o));
    OppositesSquare(Error(o), Miss(o));
    hide Square;
  }

  lemma {:induction false} ErrorsAreMisses(obs: seq<Observation>)
    ensures SumOf(obs, SQUARED) == Misses(obs) >= 0.0
    ensures Misses(obs) == 0.0 <==> forall i :: 0 <= i < |obs| ==> Miss(obs[i]) == 0.0
  {
    if obs != [] {
      var init, o := obs[..|obs| - 1], obs[|obs| - 1];
      assert obs == init + [o];
      ErrorsAreMisses(init);
      MissSquared(o);
      assert (forall i :: 0 <= i < |obs| ==> Miss(obs[i]) == 0.0)
             <==> (forall i :: 0 <= i < |init| ==> Miss(init[i]) == 0.0) && Miss(o) == 0.0;
    }
  }

  /** The Brier score is the mean of the squared misses, and zero exactly for certain and right predictions. */
  lemma BrierCountsMisses(obs: seq<Observation>)
    requires obs != []
    ensures IsMeanOf(Brier(obs), Misses(obs), |obs|)
    ensures Brier(obs) == 0.0 <==> forall i :: 0 <= i < |obs| ==> obs[i].value == if obs[i].outcome then 1.0 else 0.0
  {
    ErrorsAreMisses(obs);
    hide SumOf, Misses;
    QuotientIsMean(SumOf(obs, SQUARED), |obs|);
    hide IsMeanOf;
    assert forall o :: Miss(o) == 0.0 <==> o.value == if o.outcome then 1.0 else 0.0;
    hide Miss;
  }

  lemma DividesZero(x: real, y: real)
    requires y > 0.0
    ensures x / y * y == x && (x / y == 0.0 <==> x == 0.0)
  {
  }

  // ---------------------------------------------------------------- the calibration error counts bias

  /** The probabilities of the bin: a bin's width apart from its neighbours, and one in the last. */
  predicate Falls(v: real, k: int, bins: int) {
    k as real <= v * bins as real < k as real + 1.0 || (k == bins - 1 && v == 1.0)
  }

  /** How far the predictions of a bin add up to more than its positives. */
  ghost function Bias(obs: seq<Observation>, k: int, bins: int): real {
    if obs == [] then 0.0
    else
      var o := obs[|obs| - 1];
      Bias(obs[..|obs| - 1], k, bins)
      + (if Falls(o.value, k, bins) then o.value - (if o.outcome then 1.0 else 0.0) else 0.0)
  }

  /** The biases of the first k bins, whichever way they point. */
  ghost function Biases(obs: seq<Observation>, bins: int, k: nat): real {
    if k == 0 then 0.0
    else
      var b := Bias(obs, k - 1, bins);
      Biases(obs, bins, k - 1) + (if b >= 0.0 then b else -b)
  }

  lemma FallsInBin(v: real, k: int, bins: int)
    requires bins > 0
    ensures InBin(v, k, bins) <==> Falls(v, k, bins)
  {
    AtLeastEdge(v, k, bins);
    AtLeastEdge(v, k + 1, bins);
  }

  lemma AtLeastEdge(v: real, k: int, bins: int)
    requires bins > 0
    ensures Edge(k, bins) <= v <==> k as real <= v * bins as real
  {
    var b := bins as real;
    assert v * b / b == v;
    QuotientGrows(k as real, v * b, b);
    QuotientGrows(v * b, k as real, b);
  }

  lemma {:induction false} MembersBias(obs: seq<Observation>, k: int, bins: int)
    requires bins > 0
    ensures var members := Members(obs, k, bins); SumOf(members, VALUE) - SumOf(members, LABEL) == Bias(obs, k, bins)
  {
    if obs != [] {
      var init, o := obs[..|obs| - 1], obs[|obs| - 1];
      MembersBias(init, k, bins);
      FallsInBin(o.value, k, bins);
      SumOneMore(Members(init, k, bins), o, VALUE);
      SumOneMore(Members(init, k, bins), o, LABEL);
      assert Members(init, k, bins) + [] == Members(init, k, bins);
      hide SumOf, InBin, Falls;
    }
  }

  lemma GapIsBias(obs: seq<Observation>, k: int, bins: int)
    requires obs != [] && bins > 0
    ensures var members, count := Members(obs, k, bins), |obs|;
            (if members != [] then Gap(members, count) else 0.0) == Abs(Bias(obs, k, bins)) / count as real
  {
    MembersBias(obs, k, bins);
    var members, n := Members(obs, k, bins), |obs| as real;
    assert members == [] ==> SumOf(members, VALUE) == SumOf(members, LABEL) == 0.0;
    hide Members, SumOf, Bias;
    if members != [] {
      Weighing(|members| as real, n, SumOf(members, VALUE), SumOf(members, LABEL));
    } else {
      assert Abs(Bias(obs, k, bins)) == 0.0;
      assert 0.0 / n == 0.0;
    }
  }

  lemma {:induction false} EceIsBiases(obs: seq<Observation>, bins: int, k: nat)
    requires obs != [] && k <= bins
    ensures EceBelow(obs, bins, k) == Biases(obs, bins, k) / |obs| as real
  {
    if k > 0 {
      EceIsBiases(obs, bins, k - 1);
      GapIsBias(obs, k - 1, bins);
      hide Bias, Members, Gap;
      QuotientAdds(Biases(obs, bins, k - 1), Abs(Bias(obs, k - 1, bins)), |obs| as real);
    }
  }

  ghost predicate Unbiased(obs: seq<Observation>, bins: int, k: nat) {
    forall j :: 0 <= j < k ==> Bias(obs, j, bins) == 0.0
  }

  lemma {:induction false} BiasesVanish(obs: seq<Observation>, bins: int, k: nat)
    ensures Biases(obs, bins, k) >= 0.0
    ensures Biases(obs, bins, k) == 0.0 <==> Unbiased(obs, bins, k)
  {
    if k > 0 {
      BiasesVanish(obs, bins, k - 1);
      hide Bias;
      assert Unbiased(obs, bins, k) <==> Unbiased(obs, bins, k - 1) && Bias(obs, k - 1, bins) == 0.0;
    }
  }

  /**
   * The expected calibration error, times the number of observations, is the sum over the bins of the distance of
   * a bin's predictions from its positives; it is zero exactly when in every bin the predictions add up to them.
   */
  lemma EceCountsBias(obs: seq<Observation>, bins: int)
    requires obs != []
    ensures bins <= 0 ==> Ece(obs, bins) == 0.0
    ensures bins > 0 ==> IsMeanOf(Ece(obs, bins), Biases(obs, bins, bins), |obs|)
    ensures bins > 0 ==> (Ece(obs, bins) == 0.0 <==> Unbiased(obs, bins, bins))
  {
    if bins > 0 {
      EceIsBiases(obs, bins, bins);
      BiasesVanish(obs, bins, bins);
      hide Biases, Bias, EceBelow, Unbiased, IsMeanOf;
      QuotientIsMean(Biases(obs, bins, bins), |obs|);
    }
  }
}
