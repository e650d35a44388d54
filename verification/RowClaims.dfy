/** Claiming rows of a table: `SELECT … ORDER BY … LIMIT … FOR UPDATE SKIP LOCKED`, then an update of each. */
module RowClaims {
  import Sorting

  /** The places of the rows that qualify and are not locked by another transaction. */
  function Eligible<T>(rows: seq<T>, wanted: T -> bool, locked: set<nat>): seq<nat> {
    if rows == [] then []
    else
      var n := |rows| - 1;
      Eligible(rows[..n], wanted, locked) + (if wanted(rows[n]) && n !in locked then [n] else [])
  }

  function KeyAt<T>(rows: seq<T>, key: T -> int, i: nat): int { if i < |rows| then key(rows[i]) else 0 }

  function Order<T>(rows: seq<T>, key: T -> int): (nat, nat) -> bool {
    (i: nat, j: nat) => KeyAt(rows, key, i) <= KeyAt(rows, key, j)
  }

  function Pick<T>(rows: seq<T>, wanted: T -> bool, key: T -> int, locked: set<nat>, limit: nat): seq<nat> {
    var all := Sorting.Sort(Eligible(rows, wanted, locked), Order(rows, key));
    if |all| <= limit then all else all[..limit]
  }

  function Update<T>(rows: seq<T>, picks: seq<nat>, change: T -> T): (r: seq<T>)
    ensures |r| == |rows|
    ensures forall i :: 0 <= i < |rows| ==> r[i] == if i in picks then change(rows[i]) else rows[i]
  {
    seq(|rows|, i requires 0 <= i < |rows| => if i in picks then change(rows[i]) else rows[i])
  }

  ghost predicate NoRepeats(picks: seq<nat>) {
    forall i, j :: 0 <= i < j < |picks| ==> picks[i] != picks[j]
  }

  lemma {:induction false} EligibleQualify<T>(rows: seq<T>, wanted: T -> bool, locked: set<nat>)
    ensures NoRepeats(Eligible(rows, wanted, locked))
    ensures forall i: nat :: i in Eligible(rows, wanted, locked) <==> i < |rows| && wanted(rows[i]) && i !in locked
  {
    if rows != [] {
      EligibleQualify(rows[..|rows| - 1], wanted, locked);
    }
  }

  lemma {:induction false} RepeatsCounted(xs: seq<nat>)
    ensures NoRepeats(xs) <==> forall x :: multiset(xs)[x] <= 1
  {
    if xs != [] {
      var init, last := xs[..|xs| - 1], xs[|xs| - 1];
      assert xs == init + [last];
      RepeatsCounted(init);
      if NoRepeats(xs) {
        assert last !in init;
        assert last !in multiset(init);
      }
      if forall x :: multiset(xs)[x] <= 1 {
        assert forall x :: multiset(init)[x] <= multiset(xs)[x];
        assert last !in multiset(init);
        assert last !in init;
      }
    }
  }

  lemma SortKeepsNoRepeats(xs: seq<nat>, le: (nat, nat) -> bool)
    requires NoRepeats(xs)
    ensures NoRepeats(Sorting.Sort(xs, le))
  {
    Sorting.SortPermutes(xs, le);
    RepeatsCounted(xs);
    RepeatsCounted(Sorting.Sort(xs, le));
  }

  /** What is picked qualifies, is not locked, and is picked once. */
  lemma PickQualifies<T>(rows: seq<T>, wanted: T -> bool, key: T -> int, locked: set<nat>, limit: nat)
    ensures var picks := Pick(rows, wanted, key, locked, limit);
            && NoRepeats(picks) && |picks| <= limit
            && forall i :: i in picks ==> i < |rows| && wanted(rows[i]) && i !in locked
  {
    var le := Order(rows, key);
    EligibleQualify(rows, wanted, locked);
    SortKeepsNoRepeats(Eligible(rows, wanted, locked), le);
    Sorting.SortPermutes(Eligible(rows, wanted, locked), le);
    var all, picks := Sorting.Sort(Eligible(rows, wanted, locked), le), Pick(rows, wanted, key, locked, limit);
    assert picks == all[..|picks|];
    forall i | i in picks ensures i in all {
    }
  }

  /** A qualifying row is passed over only for a full batch of rows that were due no later. */
  lemma PassedOver<T>(rows: seq<T>, wanted: T -> bool, key: T -> int, locked: set<nat>, limit: nat, i: nat)
    requires i < |rows| && wanted(rows[i]) && i !in locked && i !in Pick(rows, wanted, key, locked, limit)
    ensures var picks := Pick(rows, wanted, key, locked, limit);
            |picks| == limit && forall j :: j in picks ==> j < |rows| && key(rows[j]) <= key(rows[i])
  {
    var le := Order(rows, key);
    var all := Sorting.Sort(Eligible(rows, wanted, locked), le);
    EligibleQualify(rows, wanted, locked);
    Sorting.SortPermutes(Eligible(rows, wanted, locked), le);
    Sorting.SortSorts(Eligible(rows, wanted, locked), le);
    var picks := Pick(rows, wanted, key, locked, limit);
    var k :| 0 <= k < |all| && all[k] == i;
    assert k >= limit;
    forall j | j in picks ensures j < |rows| && key(rows[j]) <= key(rows[i]) {
      var m :| 0 <= m < |picks| && picks[m] == j;
      assert all[m] == j && le(all[m], all[k]);
      assert j in all;
    }
  }

  /** What is picked comes in the order of its keys. */
  lemma PickedInOrder<T>(rows: seq<T>, wanted: T -> bool, key: T -> int, locked: set<nat>, limit: nat)
    ensures var picks := Pick(rows, wanted, key, locked, limit);
            forall j, k :: 0 <= j < k < |picks| ==>
              picks[j] < |rows| && picks[k] < |rows| && key(rows[picks[j]]) <= key(rows[picks[k]])
  {
    var le, picks := Order(rows, key), Pick(rows, wanted, key, locked, limit);
    Sorting.SortSorts(Eligible(rows, wanted, locked), le);
    PickQualifies(rows, wanted, key, locked, limit);
    var all := Sorting.Sort(Eligible(rows, wanted, locked), le);
    forall j, k | 0 <= j < k < |picks|
      ensures picks[j] < |rows| && picks[k] < |rows| && key(rows[picks[j]]) <= key(rows[picks[k]])
    {
      assert picks[j] in picks && picks[k] in picks && picks[j] == all[j] && picks[k] == all[k];
      assert le(all[j], all[k]);
    }
  }

  // ---------------------------------------------------------------- claiming one row

  function Below(n: nat): (r: set<nat>)
    ensures forall j: nat :: j in r <==> j < n
  {
    if n == 0 then {} else Below(n - 1) + {n - 1}
  }

  function AllBut<T>(rows: seq<T>, i: nat): set<nat> { Below(|rows|) - {i} }

  /** With every row but one locked, that one is picked if it qualifies. */
  lemma OnlyOneIsPicked<T>(rows: seq<T>, wanted: T -> bool, key: T -> int, i: nat)
    requires i < |rows| && wanted(rows[i])
    ensures Pick(rows, wanted, key, AllBut(rows, i), 1) == [i]
  {
    var picks := Pick(rows, wanted, key, AllBut(rows, i), 1);
    PickQualifies(rows, wanted, key, AllBut(rows, i), 1);
    if i !in picks {
      PassedOver(rows, wanted, key, AllBut(rows, i), 1, i);
    }
    hide Pick;
    assert |picks| == 1 && picks[0] in picks;
  }

  // ---------------------------------------------------------------- transactions that raise

  /** How a transaction that records an outcome may end: well, raising before it is committed, or raising after. */
  datatype Fault = Fine | Lost(error: string) | Late(error: string)
}
