/** The transactional outbox: rows that are claimed, published and marked. */
module Outbox {
  import opened Wrappers
  import opened RowClaims

  /** Times are in microseconds. */
  const SECOND := 1000000
  const STALE := 300 * SECOND
  const MOST_ATTEMPTS := 10

  datatype Status = Pending | Processing | Published | Failed

  datatype Row = Row(
    topic: string, event: string, created: int, status: Status, attempts: nat,
    claimed: Option<int>, published: Option<int>, error: Option<string>)

  function Added(topic: string, event: string, now: int): Row { Row(topic, event, now, Pending, 0, None, None, None) }

  /** Waiting, failed, or claimed more than five minutes ago; and not yet out of attempts. */
  predicate IsClaimable(r: Row, now: int) {
    && (r.status == Pending || r.status == Failed
        || (r.status == Processing && r.claimed.Some? && r.claimed.value < now - STALE))
    && r.attempts < MOST_ATTEMPTS
  }

  function Claimable(now: int): Row -> bool { r => IsClaimable(r, now) }

  const CREATED: Row -> int := (r: Row) => r.created

  function PickPending(rows: seq<Row>, now: int, locked: set<nat>, limit: nat): seq<nat> {
    Pick(rows, Claimable(now), CREATED, locked, limit)
  }

  function Claim(now: int): Row -> Row {
    (r: Row) => r.(status := Processing, claimed := Some(now), attempts := r.attempts + 1)
  }

  function Claimed(rows: seq<Row>, now: int, locked: set<nat>, limit: nat): seq<Row> {
    Update(rows, PickPending(rows, now, locked, limit), Claim(now))
  }

  function Truncated(s: string): string { if |s| <= 2000 then s else s[..2000] }

  function MarkedPublished(r: Row, now: int): Row { r.(status := Published, published := Some(now), error := None) }

  /** Unconditional: whatever the row's status has become. */
  function MarkedFailed(r: Row, error: string): Row {
    r.(status := Failed, error := Some(Truncated(if error != "" then error else "publish failed")))
  }

  type Outcome = Option<string>

  /** What a message comes to: published, or failed with an error. */
  function Marked(r: Row, now: int, failure: Outcome): Row {
    match failure case None => MarkedPublished(r, now) case Some(e) => MarkedFailed(r, e)
  }

  /** What the outside does to each row: how publishing goes, and how the transaction that marks it ends. */
  datatype World = World(publishes: nat -> Outcome, marks: nat -> Fault, clock: nat -> int)

  function Recorded(r: Row, id: nat, w: World): Row {
    if w.marks(id).Lost? then r else Marked(r, w.clock(id), w.publishes(id))
  }

  function Raised(f: Fault): Option<string> { if f.Fine? then None else Some(f.error) }

  datatype Batch = Batch(rows: seq<Row>, published: nat, escaped: Option<string>)

  /** One after the other; an error in marking escapes, and the rest of the batch is left as it was claimed. */
  function DispatchedEach(rows: seq<Row>, ids: seq<nat>, w: World): Batch {
    if ids == [] then Batch(rows, 0, None)
    else
      var before, id := DispatchedEach(rows, ids[..|ids| - 1], w), ids[|ids| - 1];
      if before.escaped.Some? || id >= |before.rows| then before
      else
        Batch(before.rows[id := Recorded(before.rows[id], id, w)],
              before.published + (if w.publishes(id).None? && w.marks(id).Fine? then 1 else 0), Raised(w.marks(id)))
  }

  lemma {:induction false} EscapeStays(rows: seq<Row>, ids: seq<nat>, k: nat, w: World)
    requires k <= |ids| && DispatchedEach(rows, ids[..k], w).escaped.Some?
    ensures DispatchedEach(rows, ids, w) == DispatchedEach(rows, ids[..k], w)
  {
    if k < |ids| {
      var init := ids[..|ids| - 1];
      assert init[..k] == ids[..k];
      EscapeStays(rows, init, k, w);
    } else {
      assert ids[..k] == ids;
    }
  }

  lemma {:induction false} DispatchedEachKeepsRows(rows: seq<Row>, ids: seq<nat>, w: World)
    ensures |DispatchedEach(rows, ids, w).rows| == |rows|
  {
    if ids != [] {
      DispatchedEachKeepsRows(rows, ids[..|ids| - 1], w);
    }
  }

  /** What is picked is claimable and free, and is picked once. */
  lemma PendingQualify(rows: seq<Row>, now: int, locked: set<nat>, limit: nat)
    ensures NoRepeats(PickPending(rows, now, locked, limit)) && |PickPending(rows, now, locked, limit)| <= limit
    ensures forall i :: i in PickPending(rows, now, locked, limit) ==>
            i < |rows| && IsClaimable(rows[i], now) && i !in locked
  {
    PickQualifies(rows, Claimable(now), CREATED, locked, limit);
  }

  class SqlOutboxRepository {
    var rows: seq<Row>

    constructor ()
      ensures rows == []
    {
      rows := [];
    }

    method ClaimPending(limit: nat, now: int, locked: set<nat>) returns (ids: seq<nat>)
      modifies this
      ensures ids == PickPending(old(rows), now, locked, limit)
      ensures rows == Claimed(old(rows), now, locked, limit)
    {
      hide Pick, PickPending;
      ids := PickPending(rows, now, locked, limit);
      PendingQualify(rows, now, locked, limit);
      for k := 0 to |ids|
        invariant |rows| == |old(rows)|
        invariant forall i :: 0 <= i < |rows| ==>
                rows[i] == if i in ids[..k] then Claim(now)(old(rows)[i]) else old(rows)[i]
      {
        assert ids[k] in ids;
        var r := rows[ids[k]];
        rows := rows[ids[k] := r.(status := Processing, claimed := Some(now), attempts := r.attempts + 1)];
        assert ids[..k + 1] == ids[..k] + [ids[k]];
      }
      assert ids[..|ids|] == ids;
    }

    /** Marks in one transaction, which may raise and then has or has not been committed. */
    method MarkPublished(id: nat, now: int, fault: Fault) returns (raised: Option<string>)
      modifies this
      ensures rows == if id < |old(rows)| && !fault.Lost? then old(rows)[id := MarkedPublished(old(rows)[id], now)]
                      else old(rows)
      ensures raised == Raised(fault)
    {
      if id < |rows| && !fault.Lost? {
        rows := rows[id := rows[id].(status := Published, published := Some(now), error := None)];
      }
      raised := Raised(fault);
    }

    method MarkFailed(id: nat, error: string, fault: Fault) returns (raised: Option<string>)
      modifies this
      ensures rows == if id < |old(rows)| && !fault.Lost? then old(rows)[id := MarkedFailed(old(rows)[id], error)]
                      else old(rows)
      ensures raised == Raised(fault)
    {
      if id < |rows| && !fault.Lost? {
        var text := if error != "" then error else "publish failed";
        rows := rows[id := rows[id].(status := Failed, error := Some(Truncated(text)))];
      }
      raised := Raised(fault);
    }
  }

  class OutboxDispatcher {
    const repository: SqlOutboxRepository

    constructor (r: SqlOutboxRepository)
      ensures repository == r
    {
      repository := r;
    }

    /** Publishes one message and marks its row by how that went. */
    method DispatchOne(id: nat, w: World) returns (done: bool, escaped: Option<string>)
      requires id < |repository.rows|
      modifies repository
      ensures repository.rows == old(repository.rows)[id := Recorded(old(repository.rows)[id], id, w)]
      ensures done == (w.publishes(id).None? && w.marks(id).Fine?) && escaped == Raised(w.marks(id))
    {
      var failure := w.publishes(id);
      if failure.Some? {
        escaped := repository.MarkFailed(id, failure.value, w.marks(id));
        return false, escaped;
      }
      escaped := repository.MarkPublished(id, w.clock(id), w.marks(id));
      done := escaped.None?;
    }

    /** Publishes a batch one by one; a failure is recorded and the batch goes on, unless recording it raises. */
    method DispatchBatch(limit: nat, now: int, locked: set<nat>, w: World) returns (r: Result<nat, string>)
      modifies repository
      ensures var ids := PickPending(old(repository.rows), now, locked, limit);
              var batch := DispatchedEach(Claimed(old(repository.rows), now, locked, limit), ids, w);
              && repository.rows == batch.rows
              && r == match batch.escaped case None => Success(batch.published) case Some(error) => Failure(error)
    {
      hide PickPending, Recorded, Raised;
      PendingQualify(repository.rows, now, locked, limit);
      var ids := repository.ClaimPending(limit, now, locked);
      ghost var claimed := repository.rows;
      var published := 0;
      for k := 0 to |ids|
        invariant |repository.rows| == |claimed|
        invariant Batch(repository.rows, published, None) == DispatchedEach(claimed, ids[..k], w)
      {
        assert ids[..k + 1][..k] == ids[..k] && ids[k] in ids;
        var done, escaped := DispatchOne(ids[k], w);
        if escaped.Some? {
          EscapeStays(claimed, ids, k + 1, w);
          return Failure(escaped.value);
        }
        published := published + (if done then 1 else 0);
      }
      assert ids[..|ids|] == ids;
      return Success(published);
    }
  }

  // ---------------------------------------------------------------- what a batch leaves

  /** How many rows of the batch are marked before marking one raises. */
  function Reached(ids: seq<nat>, w: World): (n: nat)
    ensures n <= |ids|
  {
    if ids == [] then 0
    else
      var n := Reached(ids[..|ids| - 1], w);
      if n == |ids| - 1 && w.marks(ids[n]).Fine? then |ids| else n
  }

  function Successes(ids: seq<nat>, publishes: nat -> Outcome): nat {
    if ids == [] then 0
    else Successes(ids[..|ids| - 1], publishes) + (if publishes(ids[|ids| - 1]).None? then 1 else 0)
  }

  function StatusOf(failure: Outcome): Status { if failure.None? then Published else Failed }

  /** Rows reached, and one whose marking was committed before it raised, are marked; the others are not. */
  ghost predicate MarkedAt(k: nat, reached: nat, id: nat, w: World) {
    k < reached || (k == reached && w.marks(id).Late?)
  }

  lemma {:induction false} BatchReaches(rows: seq<Row>, ids: seq<nat>, w: World)
    requires forall id :: id in ids ==> id < |rows|
    ensures var batch := DispatchedEach(rows, ids, w);
            && (batch.escaped.None? <==> Reached(ids, w) == |ids|)
            && batch.published == Successes(ids[..Reached(ids, w)], w.publishes)
  {
    if ids != [] {
      var init, id := ids[..|ids| - 1], ids[|ids| - 1];
      assert ids == init + [id] && id in ids && forall j :: j in init ==> j in ids;
      BatchReaches(rows, init, w);
      DispatchedEachKeepsRows(rows, init, w);
      assert ids[..|ids|] == ids && init[..|init|] == init;
      assert Reached(init, w) <= |init| && ids[..Reached(init, w)] == init[..Reached(init, w)];
    }
  }

  ghost predicate Marks(rows: seq<Row>, ids: seq<nat>, w: World, i: nat)
    requires i < |rows|
  {
    var after := DispatchedEach(rows, ids, w).rows;
    && |after| == |rows| && (i !in ids ==> after[i] == rows[i])
    && forall k :: 0 <= k < |ids| && ids[k] == i ==>
         after[i].status == if MarkedAt(k, Reached(ids, w), i, w) then StatusOf(w.publishes(i)) else rows[i].status
  }

  lemma {:induction false} BatchMarks(rows: seq<Row>, ids: seq<nat>, w: World, i: nat)
    requires NoRepeats(ids) && (forall id :: id in ids ==> id < |rows|) && i < |rows|
    ensures Marks(rows, ids, w, i)
  {
    if ids != [] {
      var init, id := ids[..|ids| - 1], ids[|ids| - 1];
      assert ids == init + [id] && id in ids && id !in init && forall j :: j in init ==> j in ids;
      BatchMarks(rows, init, w, i);
      BatchReaches(rows, init, w);
      MarksOneMore(rows, init, id, w, i);
    }
  }

  lemma MarksOneMore(rows: seq<Row>, init: seq<nat>, id: nat, w: World, i: nat)
    requires i < |rows| && id < |rows| && id !in init && Marks(rows, init, w, i)
    requires DispatchedEach(rows, init, w).escaped.None? <==> Reached(init, w) == |init|
    ensures Marks(rows, init + [id], w, i)
  {
    var ids, before, after := init + [id], DispatchedEach(rows, init, w), DispatchedEach(rows, init + [id], w);
    OneMoreDispatched(rows, init, id, w);
    RecordedStatus(before.rows[id], id, w);
    assert Reached(init, w) <= |init|;
    hide DispatchedEach, Reached, Recorded, StatusOf;
    if i == id {
      assert forall k :: 0 <= k < |ids| && ids[k] == i ==> k == |init|;
    } else {
      assert after.rows[i] == before.rows[i];
      assert forall k :: 0 <= k < |ids| && ids[k] == i ==> k < |init| && init[k] == i;
    }
  }

  lemma OneMoreDispatched(rows: seq<Row>, init: seq<nat>, id: nat, w: World)
    requires id < |rows|
    ensures |DispatchedEach(rows, init, w).rows| == |rows|
    ensures var before, after := DispatchedEach(rows, init, w), DispatchedEach(rows, init + [id], w);
            after.rows == if before.escaped.Some? then before.rows
                          else before.rows[id := Recorded(before.rows[id], id, w)]
    ensures Reached(init + [id], w)
            == if Reached(init, w) == |init| && w.marks(id).Fine? then |init| + 1 else Reached(init, w)
  {
    assert (init + [id])[..|init|] == init;
    DispatchedEachKeepsRows(rows, init, w);
    hide Recorded, Raised;
  }

  lemma RecordedStatus(r: Row, id: nat, w: World)
    ensures Recorded(r, id, w).status == if w.marks(id).Lost? then r.status else StatusOf(w.publishes(id))
    ensures Raised(w.marks(id)).None? <==> w.marks(id).Fine?
  {
  }

  /**
   * A batch marks what was claimed PUBLISHED or FAILED as its publishing went, up to the first row whose
   * marking raises; the rest stays PROCESSING, and nothing else changes. It counts the successes before that.
   */
  lemma BatchSettles(rows: seq<Row>, limit: nat, now: int, locked: set<nat>, w: World, i: nat)
    requires i < |rows|
    ensures var ids := PickPending(rows, now, locked, limit);
            var batch := DispatchedEach(Claimed(rows, now, locked, limit), ids, w);
            && |batch.rows| == |rows| && (i !in ids ==> batch.rows[i] == rows[i])
            && (forall k :: 0 <= k < |ids| && ids[k] == i ==>
                  batch.rows[i].status
                  == if MarkedAt(k, Reached(ids, w), i, w) then StatusOf(w.publishes(i)) else Processing)
            && (batch.escaped.None? <==> Reached(ids, w) == |ids|)
            && batch.published == Successes(ids[..Reached(ids, w)], w.publishes)
  {
    var ids, claimed := PickPending(rows, now, locked, limit), Claimed(rows, now, locked, limit);
    PendingQualify(rows, now, locked, limit);
    BatchMarks(claimed, ids, w, i);
    BatchReaches(claimed, ids, w);
    hide PickPending, DispatchedEach, Reached;
    forall k | 0 <= k < |ids| && ids[k] == i ensures claimed[i].status == Processing {
      assert ids[k] in ids;
    }
  }
}
