/** What the calibration metrics promise. */
module CalibrationLaws {
  import opened Calibration

  // ---------------------------------------------------------------- every probability has its bin

  lemma QuotientGrows(x: real, y: real, d: real)
    requires d > 0.0
    ensures x <= y ==> x / d <= y / d
    ensures x < y ==> x / d < y / d
  {
  }

  lemma EdgesGrow(j: int, k: int, bins: int)
    requires bins > 0
    ensures j <= k ==> Edge(j, bins) <= Edge(k, bins)
    ensures j < k ==> Edge(j, bins) < Edge(k, bins)
  {
    QuotientGrows(j as real, k as real, bins as real);
  }

  lemma LastEdge(bins: int)
    requires bins > 0
    ensures Edge(bins, bins) == 1.0 && Edge(0, bins) == 0.0
  {
  }

  lemma AtMostOneBin(v: real, j: int, k: int, bins: int)
    requires 0 <= j < k < bins
    ensures !(InBin(v, j, bins) && InBin(v, k, bins))
  {
    EdgesGrow(j + 1, k, bins);
    EdgesGrow(j + 1, bins, bins);
    LastEdge(bins);
  }

  /** Every probability falls in exactly one bin. */
  lemma OneBin(v: real, bins: int)
    requires 0.0 <= v <= 1.0 && bins > 0
    ensures exists k :: 0 <= k < bins && InBin(v, k, bins)
    ensures forall j, k :: 0 <= j < bins && 0 <= k < bins && InBin(v, j, bins) && InBin(v, k, bins) ==> j == k
  {
    if v == 1.0 {
      assert InBin(v, bins - 1, bins);
    } else {
      FindBin(v, bins, bins);
    }
    forall j, k | 0 <= j < bins && 0 <= k < bins && InBin(v, j, bins) && InBin(v, k, bins) ensures j == k {
      if j < k {
        AtMostOneBin(v, j, k, bins);
      } else if k < j {
        AtMostOneBin(v, k, j, bins);
      }
    }
  }

  lemma {:induction false} FindBin(v: real, bins: int, k: nat)
    requires 0.0 <= v < 1.0 && 0 < bins && k <= bins && v < Edge(k, bins)
    ensures exists j :: 0 <= j < bins && InBin(v, j, bins)
  {
    if k == 0 {
      LastEdge(bins);
    } else if v < Edge(k - 1, bins) {
      FindBin(v, bins, k - 1);
    } else {
      assert InBin(v, k - 1, bins);
    }
  }

  // ---------------------------------------------------------------- the calibration error and the Brier score

  lemma SumOneMore(obs: seq<Observation>, o: Observation, f: Observation -> real)
    ensures SumOf(obs + [o], f) == SumOf(obs, f) + f(o)
  {
    assert (obs + [o])[..|obs|] == obs;
  }

  lemma {:induction false} ErrorsAreDifferences(obs: seq<Observation>)
    ensures SumOf(obs, ERROR) == SumOf(obs, VALUE) - SumOf(obs, LABEL)
    ensures Abs(SumOf(obs, ERROR)) <= SumOf(obs, DISTANCE)
  {
    if obs != [] {
      ErrorsAreDifferences(obs[..|obs| - 1]);
    }
  }

  lemma Weighing(n: real, count: real, x: real, y: real)
    requires n > 0.0 && count > 0.0
    ensures n / count * Abs(x / n - y / n) == Abs(x - y) / count
  {
    var d := (x - y) / n;
    assert x / n - y / n == d;
    assert n * d == x - y;
    var a := Abs(d);
    assert n * a == Abs(x - y) by {
      if d >= 0.0 {
        ProductSign(n, d);
      } else {
        ProductSign(n, -d);
        assert n * -d == -(n * d);
      }
    }
    assert n / count * a == (n * a) / count;
  }

  lemma ProductSign(x: real, y: real)
    requires x >= 0.0 && y >= 0.0
    ensures x * y >= 0.0
  {
  }

  lemma GapIsSmall(members: seq<Observation>, count: nat)
    requires members != [] && count > 0
    ensures Gap(members, count) <= SumOf(members, DISTANCE) / count as real
  {
    hide Abs, SumOf;
    ErrorsAreDifferences(members);
    Weighing(|members| as real, count as real, SumOf(members, VALUE), SumOf(members, LABEL));
    QuotientGrows(Abs(SumOf(members, ERROR)), SumOf(members, DISTANCE), count as real);
  }

  /** The distances of all observations in the first k bins. */
  function Binned(obs: seq<Observation>, bins: int, k: nat): real
    requires k <= bins
  {
    if k == 0 then 0.0 else Binned(obs, bins, k - 1) + SumOf(Members(obs, k - 1, bins), DISTANCE)
  }

  lemma MembersOneMore(obs: seq<Observation>, o: Observation, k: int, bins: int)
    requires bins != 0
    ensures SumOf(Members(obs + [o], k, bins), DISTANCE)
            == SumOf(Members(obs, k, bins), DISTANCE) + (if InBin(o.value, k, bins) then Abs(Error(o)) else 0.0)
  {
    hide InBin, Abs, Error;
    assert (obs + [o])[..|obs|] == obs;
    if InBin(o.value, k, bins) {
      SumOneMore(Members(obs, k, bins), o, DISTANCE);
    } else {
      assert Members(obs, k, bins) + [] == Members(obs, k, bins);
    }
  }

  ghost predicate InFirstBins(v: real, k: nat, bins: int)
    requires k <= bins
  {
    exists j :: 0 <= j < k && InBin(v, j, bins)
  }

  lemma OneMoreBin(v: real, k: nat, bins: int)
    requires k < bins
    ensures InFirstBins(v, k + 1, bins) <==> InFirstBins(v, k, bins) || InBin(v, k, bins)
    ensures !(InFirstBins(v, k, bins) && InBin(v, k, bins))
  {
    if j :| 0 <= j < k && InBin(v, j, bins) {
      AtMostOneBin(v, j, k, bins);
    }
  }

  lemma {:induction false} BinnedOneMore(obs: seq<Observation>, o: Observation, bins: int, k: nat)
    requires k <= bins
    ensures Binned(obs + [o], bins, k)
            == Binned(obs, bins, k) + (if InFirstBins(o.value, k, bins) then Abs(Error(o)) else 0.0)
  {
    if k > 0 {
      hide InBin, Abs, Error, Members, SumOf;
      BinnedOneMore(obs, o, bins, k - 1);
      MembersOneMore(obs, o, k - 1, bins);
      OneMoreBin(o.value, k - 1, bins);
    }
  }

  lemma {:induction false} BinnedIsPart(obs: seq<Observation>, bins: nat)
    ensures Binned(obs, bins, bins) <= SumOf(obs, DISTANCE)
  {
    if obs != [] {
      var init, o := obs[..|obs| - 1], obs[|obs| - 1];
      BinnedIsPart(init, bins);
      assert obs == init + [o];
      BinnedOneMore(init, o, bins, bins);
    } else {
      NothingBinned(bins, bins);
    }
  }

  lemma {:induction false} NothingBinned(bins: nat, k: nat)
    requires k <= bins
    ensures Binned([], bins, k) == 0.0
  {
    if k > 0 {
      NothingBinned(bins, k - 1);
    }
  }

  lemma {:induction false} EceIsBinned(obs: seq<Observation>, bins: int, k: nat)
    requires obs != [] && k <= bins
    ensures 0.0 <= EceBelow(obs, bins, k) <= Binned(obs, bins, k) / |obs| as real
  {
    var n := |obs| as real;
    if k > 0 {
      EceIsBinned(obs, bins, k - 1);
      var members := Members(obs, k - 1, bins);
      QuotientAdds(Binned(obs, bins, k - 1), SumOf(members, DISTANCE), n);
      if members != [] {
        GapIsSmall(members, |obs|);
        GapIsPositive(members, |obs|);
      } else {
        assert SumOf(members, DISTANCE) == 0.0;
      }
    }
  }

  lemma GapIsPositive(members: seq<Observation>, count: nat)
    requires members != [] && count > 0
    ensures Gap(members, count) >= 0.0
  {
    var n := |members| as real;
    Weighing(n, count as real, SumOf(members, VALUE), SumOf(members, LABEL));
    QuotientGrows(0.0, Abs(SumOf(members, VALUE) - SumOf(members, LABEL)), count as real);
  }

  lemma QuotientAdds(x: real, y: real, d: real)
    requires d != 0.0
    ensures (x + y) / d == x / d + y / d
  {
  }

  /** The squared deviations of n distances with sum s and squares q from a number m, expanded. */
  function Spread(n: real, s: real, q: real, m: real): real { q - 2.0 * (m * s) + n * (m * m) }

  lemma SpreadGrows(n: real, s: real, q: real, m: real, a: real)
    ensures Spread(n + 1.0, s + a, q + Square(a), m) == Spread(n, s, q, m) + Square(a - m)
    ensures Square(a - m) >= 0.0
  {
    assert m * (s + a) == m * s + m * a;
    assert (n + 1.0) * (m * m) == n * (m * m) + m * m;
    assert Square(a - m) == Square(a) - 2.0 * (m * a) + m * m;
  }

  lemma {:induction false} Deviations(obs: seq<Observation>, m: real)
    ensures Spread(|obs| as real, SumOf(obs, DISTANCE), SumOf(obs, SQUARED), m) >= 0.0
  {
    if obs != [] {
      var init, e := obs[..|obs| - 1], Error(obs[|obs| - 1]);
      Deviations(init, m);
      SpreadGrows(|init| as real, SumOf(init, DISTANCE), SumOf(init, SQUARED), m, Abs(e));
      SquareOfAbs(e);
      hide Spread, Square, Abs;
      assert |obs| as real == |init| as real + 1.0;
    }
  }

  lemma SquareOfAbs(x: real)
    ensures Square(Abs(x)) == Square(x)
  {
  }

  /** The square of the mean distance is at most the mean squared distance. */
  lemma MeanSquare(obs: seq<Observation>)
    requires obs != []
    ensures Square(SumOf(obs, DISTANCE) / |obs| as real) <= Brier(obs)
  {
    var n, s, q := |obs| as real, SumOf(obs, DISTANCE), SumOf(obs, SQUARED);
    Deviations(obs, s / n);
    LeastDeviation(n, s, s / n, q);
  }

  lemma LeastDeviation(n: real, s: real, m: real, q: real)
    requires n > 0.0 && m == s / n && Spread(n, s, q, m) >= 0.0
    ensures Square(m) <= q / n
  {
    var mm := m * m;
    assert s == n * m;
    assert m * s == n * mm;
    assert n * mm <= q;
    QuotientGrows(n * mm, q, n);
    assert n * mm / n == mm;
  }

  /** The square of the expected calibration error is at most the Brier score. */
  lemma EceIsBounded(obs: seq<Observation>, bins: int)
    requires obs != []
    ensures 0.0 <= Ece(obs, bins) && Square(Ece(obs, bins)) <= Brier(obs)
  {
    MeanSquare(obs);
    var mean := SumOf(obs, DISTANCE) / |obs| as real;
    if bins > 0 {
      EceIsBinned(obs, bins, bins);
      BinnedIsPart(obs, bins);
      QuotientGrows(Binned(obs, bins, bins), SumOf(obs, DISTANCE), |obs| as real);
      SquareGrows(Ece(obs, bins), mean);
    } else {
      SquareGrows(0.0, mean) by {
        DistancesArePositive(obs);
        QuotientGrows(0.0, SumOf(obs, DISTANCE), |obs| as real);
      }
    }
  }

  lemma {:induction false} DistancesArePositive(obs: seq<Observation>)
    ensures SumOf(obs, DISTANCE) >= 0.0
  {
    if obs != [] {
      DistancesArePositive(obs[..|obs| - 1]);
    }
  }

  lemma SquareGrows(x: real, y: real)
    requires 0.0 <= x <= y
    ensures Square(x) <= Square(y)
  {
    assert x * x <= x * y;
    assert x * y <= y * y;
  }

  // ---------------------------------------------------------------- the AUC

  function Flipped(obs: seq<Observation>): (r: seq<Observation>)
    ensures |r| == |obs| && forall i :: 0 <= i < |r| ==> r[i] == Observation(obs[i].value, !obs[i].outcome)
  {
    seq(|obs|, i requires 0 <= i < |obs| => Observation(obs[i].value, !obs[i].outcome))
  }

  function Mapped(f: real -> real, obs: seq<Observation>): (r: seq<Observation>)
    ensures |r| == |obs| && forall i :: 0 <= i < |r| ==> r[i] == Observation(f(obs[i].value), obs[i].outcome)
  {
    seq(|obs|, i requires 0 <= i < |obs| => Observation(f(obs[i].value), obs[i].outcome))
  }

  function MapEach(f: real -> real, xs: seq<real>): (r: seq<real>)
    ensures |r| == |xs| && forall i :: 0 <= i < |r| ==> r[i] == f(xs[i])
  {
    seq(|xs|, i requires 0 <= i < |xs| => f(xs[i]))
  }

  lemma {:induction false} FlippedWith(obs: seq<Observation>, outcome: bool)
    ensures With(Flipped(obs), outcome) == With(obs, !outcome)
  {
    if obs != [] {
      var init := obs[..|obs| - 1];
      FlippedWith(init, outcome);
      assert Flipped(obs)[..|init|] == Flipped(init);
    }
  }

  lemma {:induction false} MappedWith(f: real -> real, obs: seq<Observation>, outcome: bool)
    ensures With(Mapped(f, obs), outcome) == MapEach(f, With(obs, outcome))
  {
    if obs != [] {
      var init := obs[..|obs| - 1];
      MappedWith(f, init, outcome);
      assert Mapped(f, obs)[..|init|] == Mapped(f, init);
    }
  }

  lemma WinsOfMore(p: real, ns: seq<real>, n: real)
    ensures WinsOf(p, ns + [n]) == WinsOf(p, ns) + Win(p, n)
    ensures WinsOf(p, [n]) == Win(p, n)
  {
    assert (ns + [n])[..|ns|] == ns;
    assert [n][..0] == [] && WinsOf(p, []) == 0.0;
  }

  /** The wins of one against many, seen from the other side. */
  lemma {:induction false} WinsAgainst(ps: seq<real>, n: real)
    ensures WinsOf(n, ps) + Wins(ps, [n]) == |ps| as real
  {
    if ps != [] {
      WinsAgainst(ps[..|ps| - 1], n);
      WinsOfMore(ps[|ps| - 1], [], n);
    }
  }

  lemma {:induction false} WinsSplit(ps: seq<real>, ns: seq<real>, n: real)
    ensures Wins(ps, ns + [n]) == Wins(ps, ns) + Wins(ps, [n])
  {
    if ps != [] {
      WinsSplit(ps[..|ps| - 1], ns, n);
      WinsOfMore(ps[|ps| - 1], ns, n);
    }
  }

  lemma {:induction false} NoWins(ps: seq<real>)
    ensures Wins(ps, []) == 0.0
  {
    if ps != [] {
      NoWins(ps[..|ps| - 1]);
    }
  }

  lemma {:induction false} WinsShare(ps: seq<real>, ns: seq<real>)
    ensures Wins(ps, ns) + Wins(ns, ps) == |ps| as real * |ns| as real
  {
    if ns == [] {
      NoWins(ps);
    } else {
      var init, n := ns[..|ns| - 1], ns[|ns| - 1];
      WinsShare(ps, init);
      assert ns == init + [n];
      WinsSplit(ps, init, n);
      WinsAgainst(ps, n);
      OneMoreColumn(|ps| as real, |init| as real);
      hide Wins;
      assert |ns| as real == |init| as real + 1.0;
    }
  }

  lemma OneMoreColumn(p: real, n: real)
    ensures p * (n + 1.0) == p * n + p
  {
  }

  /** Flipping all labels turns the AUC into one minus it. */
  lemma FlippingReverses(obs: seq<Observation>)
    ensures Auc(Flipped(obs)) == 1.0 - Auc(obs)
  {
    hide Share, With, Wins;
    FlippedWith(obs, true);
    FlippedWith(obs, false);
    var ps, ns := With(obs, true), With(obs, false);
    if ps != [] && ns != [] {
      WinsShare(ps, ns);
      SharesAddUp(Wins(ps, ns), Wins(ns, ps), |ps|, |ns|);
    }
  }

  lemma SharesAddUp(wins: real, losses: real, ps: nat, ns: nat)
    requires ps > 0 && ns > 0 && wins + losses == ps as real * ns as real
    ensures Share(losses, ns, ps) == 1.0 - Share(wins, ps, ns)
  {
    var total := ps as real * ns as real;
    ProductPositive(ps as real, ns as real);
    assert ns as real * ps as real == total;
    QuotientAdds(wins, losses, total);
    assert total / total == 1.0;
  }

  lemma ProductPositive(x: real, y: real)
    requires x > 0.0 && y > 0.0
    ensures x * y > 0.0
  {
  }

  /** So the AUC lies between zero and one. */
  lemma {:induction false} WinsArePositive(ps: seq<real>, ns: seq<real>)
    ensures Wins(ps, ns) >= 0.0
  {
    if ps != [] {
      WinsArePositive(ps[..|ps| - 1], ns);
      WinsOfPositive(ps[|ps| - 1], ns);
    }
  }

  lemma {:induction false} WinsOfPositive(p: real, ns: seq<real>)
    ensures WinsOf(p, ns) >= 0.0
  {
    if ns != [] {
      WinsOfPositive(p, ns[..|ns| - 1]);
    }
  }

  lemma AucInRange(obs: seq<Observation>)
    ensures 0.0 <= Auc(obs) <= 1.0
  {
    AucNotNegative(obs);
    AucNotNegative(Flipped(obs));
    FlippingReverses(obs);
  }

  lemma AucNotNegative(obs: seq<Observation>)
    ensures Auc(obs) >= 0.0
  {
    var ps, ns := With(obs, true), With(obs, false);
    if ps != [] && ns != [] {
      WinsArePositive(ps, ns);
      ProductPositive(|ps| as real, |ns| as real);
      QuotientGrows(0.0, Wins(ps, ns), |ps| as real * |ns| as real);
    }
  }

  ghost predicate Increasing(f: real -> real) {
    forall x, y :: x < y ==> f(x) < f(y)
  }

  lemma {:induction false} MappedWinsOf(f: real -> real, p: real, ns: seq<real>)
    requires Increasing(f)
    ensures WinsOf(f(p), MapEach(f, ns)) == WinsOf(p, ns)
  {
    if ns != [] {
      var n := |ns| - 1;
      MappedWinsOf(f, p, ns[..n]);
      assert MapEach(f, ns)[..n] == MapEach(f, ns[..n]);
    }
  }

  lemma {:induction false} MappedWins(f: real -> real, ps: seq<real>, ns: seq<real>)
    requires Increasing(f)
    ensures Wins(MapEach(f, ps), MapEach(f, ns)) == Wins(ps, ns)
  {
    if ps != [] {
      var n := |ps| - 1;
      MappedWins(f, ps[..n], ns);
      MappedWinsOf(f, ps[n], ns);
      assert MapEach(f, ps)[..n] == MapEach(f, ps[..n]);
    }
  }

  /** Any strictly increasing map of the scores, such as a calibration of positive slope, leaves the AUC as it was. */
  lemma MappingKeepsAuc(f: real -> real, obs: seq<Observation>)
    requires Increasing(f)
    ensures Auc(Mapped(f, obs)) == Auc(obs)
  {
    hide Share;
    MappedWith(f, obs, true);
    MappedWith(f, obs, false);
    MappedWins(f, With(obs, true), With(obs, false));
  }
}
