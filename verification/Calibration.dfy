/** Calibration metrics, before rounding: the Brier score, the expected calibration error and the AUC. */
module Calibration {
  import opened Wrappers

  datatype Observation = Observation(value: real, outcome: bool)

  function Label(b: bool): real { if b then 1.0 else 0.0 }
  function Abs(x: real): real { if x >= 0.0 then x else -x }
  function Square(x: real): real { x * x }
  function Error(o: Observation): real { o.value - Label(o.outcome) }

  function Zip(values: seq<real>, labels: seq<bool>): (r: seq<Observation>)
    requires |values| == |labels|
    ensures |r| == |values| && forall i :: 0 <= i < |r| ==> r[i] == Observation(values[i], labels[i])
  {
    seq(|values|, i requires 0 <= i < |values| => Observation(values[i], labels[i]))
  }

  function SumOf(obs: seq<Observation>, f: Observation -> real): real {
    if obs == [] then 0.0 else SumOf(obs[..|obs| - 1], f) + f(obs[|obs| - 1])
  }

  const VALUE: Observation -> real := (o: Observation) => o.value
  const LABEL: Observation -> real := (o: Observation) => Label(o.outcome)
  const ERROR: Observation -> real := (o: Observation) => Error(o)
  const DISTANCE: Observation -> real := (o: Observation) => Abs(Error(o))
  const SQUARED: Observation -> real := (o: Observation) => Square(Error(o))

  function Brier(obs: seq<Observation>): real
    requires obs != []
  {
    SumOf(obs, SQUARED) / |obs| as real
  }

  // ---------------------------------------------------------------- bins

  function Edge(k: int, bins: int): real
    requires bins != 0
  {
    k as real / bins as real
  }

  /** The last bin takes in its upper edge. */
  predicate InBin(v: real, k: int, bins: int)
    requires bins != 0
  {
    Edge(k, bins) <= v < Edge(k + 1, bins) || (k == bins - 1 && v == 1.0)
  }

  function Members(obs: seq<Observation>, k: int, bins: int): seq<Observation>
    requires bins != 0
  {
    if obs == [] then []
    else
      var o := obs[|obs| - 1];
      Members(obs[..|obs| - 1], k, bins) + (if InBin(o.value, k, bins) then [o] else [])
  }

  /** How far the mean prediction of some observations is from their share of positives, weighted by their number. */
  function Gap(members: seq<Observation>, count: nat): real
    requires members != [] && count > 0
  {
    var n := |members| as real;
    n / count as real * Abs(SumOf(members, VALUE) / n - SumOf(members, LABEL) / n)
  }

  function EceBelow(obs: seq<Observation>, bins: int, k: nat): real
    requires obs != [] && k <= bins
  {
    if k == 0 then 0.0
    else
      var members := Members(obs, k - 1, bins);
      EceBelow(obs, bins, k - 1) + (if members != [] then Gap(members, |obs|) else 0.0)
  }

  function Ece(obs: seq<Observation>, bins: int): real
    requires obs != []
  {
    if bins <= 0 then 0.0 else EceBelow(obs, bins, bins)
  }

  // ---------------------------------------------------------------- ranking

  function With(obs: seq<Observation>, outcome: bool): seq<real> {
    if obs == [] then []
    else With(obs[..|obs| - 1], outcome) + (if obs[|obs| - 1].outcome == outcome then [obs[|obs| - 1].value] else [])
  }

  function Win(p: real, n: real): real { if p > n then 1.0 else if p == n then 0.5 else 0.0 }

  function WinsOf(p: real, ns: seq<real>): real {
    if ns == [] then 0.0 else WinsOf(p, ns[..|ns| - 1]) + Win(p, ns[|ns| - 1])
  }

  function Wins(ps: seq<real>, ns: seq<real>): real {
    if ps == [] then 0.0 else Wins(ps[..|ps| - 1], ns) + WinsOf(ps[|ps| - 1], ns)
  }

  /** The share of all pairs of a positive and a negative. */
  function Share(wins: real, ps: nat, ns: nat): real
    requires ps > 0 && ns > 0
  {
    wins / (ps as real * ns as real)
  }

  function Auc(obs: seq<Observation>): real {
    var ps, ns := With(obs, true), With(obs, false);
    if ps == [] || ns == [] then 0.5 else Share(Wins(ps, ns), |ps|, |ns|)
  }

  // ---------------------------------------------------------------- the procedure

  datatype Metrics = Metrics(samples: nat, positives: nat, brier: real, ece: real, auc: real)

  method Measure(values: seq<real>, labels: seq<bool>, bins: int) returns (r: Option<Metrics>)
    ensures r.None? <==> values == [] || |values| != |labels|
    ensures r.Some? ==>
              var obs := Zip(values, labels);
              r.value == Metrics(|obs|, |With(obs, true)|, Brier(obs), Ece(obs, bins), Auc(obs))
  {
    if values == [] || |values| != |labels| {
      return None;
    }
    var obs := Zip(values, labels);
    var brier := Brier(obs);
    var ece := 0.0;
    for k := 0 to if bins > 0 then bins else 0
      invariant ece == if bins <= 0 then 0.0 else EceBelow(obs, bins, k)
    {
      var members := Members(obs, k, bins);
      if members != [] {
        ece := ece + Gap(members, |obs|);
      }
    }
    return Some(Metrics(|obs|, |With(obs, true)|, brier, ece, Auc(obs)));
  }
}
