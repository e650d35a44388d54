/** The notification service: deliveries that are queued, claimed, sent and finalised. */
module Notifications {
  import opened Wrappers
  import opened RowClaims

  /** Times are in microseconds. */
  const SECOND := 1000000

  datatype Status = Pending | Processing | Retry | Delivered | Failed

  datatype Delivery = Delivery(
    channel: string, event: string, status: Status, attempts: nat, next: int,
    delivered: Option<int>, code: Option<int>, error: Option<string>)

  function Queued(channel: string, event: string, now: int): Delivery {
    Delivery(channel, event, Pending, 0, now, None, None, None)
  }

  // ---------------------------------------------------------------- queueing

  predicate IsQueued(rows: seq<Delivery>, channel: string, event: string) {
    exists i :: 0 <= i < |rows| && rows[i].channel == channel && rows[i].event == event
  }

  /** One row for each channel that does not have one for the event yet. */
  function Enqueued(rows: seq<Delivery>, channels: seq<string>, event: string, now: int): seq<Delivery> {
    if channels == [] then rows
    else
      var before, channel := Enqueued(rows, channels[..|channels| - 1], event, now), channels[|channels| - 1];
      if IsQueued(before, channel, event) then before else before + [Queued(channel, event, now)]
  }

  // ---------------------------------------------------------------- claiming and finalising

  predicate IsDue(d: Delivery, now: int) { (d.status == Pending || d.status == Retry) && d.next <= now }

  function Due(now: int): Delivery -> bool { d => IsDue(d, now) }

  const NEXT: Delivery -> int := (d: Delivery) => d.next

  function PickDue(rows: seq<Delivery>, now: int, locked: set<nat>, limit: nat): seq<nat> {
    Pick(rows, Due(now), NEXT, locked, limit)
  }

  /** What is picked is due and free, and is picked once. */
  lemma DueQualify(rows: seq<Delivery>, now: int, locked: set<nat>, limit: nat)
    ensures NoRepeats(PickDue(rows, now, locked, limit)) && |PickDue(rows, now, locked, limit)| <= limit
    ensures forall i :: i in PickDue(rows, now, locked, limit) ==> i < |rows| && IsDue(rows[i], now) && i !in locked
  {
    PickQualifies(rows, Due(now), NEXT, locked, limit);
  }

  function Claim(d: Delivery): Delivery { d.(attempts := d.attempts + 1, status := Processing) }

  const CLAIM: Delivery -> Delivery := (d: Delivery) => Claim(d)

  function Claimed(rows: seq<Delivery>, now: int, locked: set<nat>, limit: nat): seq<Delivery> {
    Update(rows, PickDue(rows, now, locked, limit), CLAIM)
  }

  function Power(n: nat): nat { if n == 0 then 1 else 2 * Power(n - 1) }

  function Backoff(attempts: nat): int { (if Power(attempts) * 5 <= 900 then Power(attempts) * 5 else 900) * SECOND }

  function Truncated(s: string): string { if |s| <= 2000 then s else s[..2000] }

  type Sent = Result<int, string>

  /** Only a delivery in progress is finalised; the fifth failure is the last. */
  function Finalised(d: Delivery, now: int, sent: Sent): Delivery {
    if d.status != Processing then d
    else
      match sent
      case Success(code) => d.(status := Delivered, delivered := Some(now), code := Some(code), error := None)
      case Failure(error) =>
        d.(error := Some(Truncated(error)), next := now + Backoff(d.attempts),
           status := if d.attempts >= 5 then Failed else Retry)
  }

  function Committed(d: Delivery, now: int, sent: Sent, fault: Fault): Delivery {
    if fault.Lost? then d else Finalised(d, now, sent)
  }

  /**
   * What the outside does to each delivery: what sending it comes to, and how finalising ends, the first
   * time and, as a failure, the second time.
   */
  datatype World = World(
    sends: nat -> Sent, first: nat -> Fault, second: nat -> Fault, clock: nat -> int, later: nat -> int)

  /** Sending and finalising share one `try`: a finalisation that raises is followed by one that records a failure. */
  function Attempted(d: Delivery, id: nat, w: World): Delivery {
    match w.sends(id)
    case Failure(error) => Committed(d, w.later(id), Failure(error), w.second(id))
    case Success(code) =>
      var once := Committed(d, w.clock(id), Success(code), w.first(id));
      if w.first(id).Fine? then once else Committed(once, w.later(id), Failure(w.first(id).error), w.second(id))
  }

  /** The error that leaves the loop: that of the second finalisation, if there is one. */
  function Escapes(id: nat, w: World): Option<string> {
    if (w.sends(id).Success? && w.first(id).Fine?) || w.second(id).Fine? then None else Some(w.second(id).error)
  }

  datatype Batch = Batch(rows: seq<Delivery>, escaped: Option<string>)

  /** One after the other, until an error escapes and the rest of the batch is left as it was claimed. */
  function DeliveredEach(rows: seq<Delivery>, ids: seq<nat>, w: World): Batch {
    if ids == [] then Batch(rows, None)
    else
      var before, id := DeliveredEach(rows, ids[..|ids| - 1], w), ids[|ids| - 1];
      if before.escaped.Some? || id >= |before.rows| then before
      else Batch(before.rows[id := Attempted(before.rows[id], id, w)], Escapes(id, w))
  }

  lemma {:induction false} EscapeStays(rows: seq<Delivery>, ids: seq<nat>, k: nat, w: World)
    requires k <= |ids| && DeliveredEach(rows, ids[..k], w).escaped.Some?
    ensures DeliveredEach(rows, ids, w) == DeliveredEach(rows, ids[..k], w)
  {
    if k < |ids| {
      var init := ids[..|ids| - 1];
      assert init[..k] == ids[..k];
      EscapeStays(rows, init, k, w);
    } else {
      assert ids[..k] == ids;
    }
  }

  lemma {:induction false} DeliveredEachKeepsRows(rows: seq<Delivery>, ids: seq<nat>, w: World)
    ensures |DeliveredEach(rows, ids, w).rows| == |rows|
  {
    if ids != [] {
      DeliveredEachKeepsRows(rows, ids[..|ids| - 1], w);
    }
  }

  class NotificationService {
    var deliveries: seq<Delivery>

    constructor ()
      ensures deliveries == []
    {
      deliveries := [];
    }

    method Enqueue(channels: seq<string>, event: string, now: int) returns (created: nat)
      modifies this
      ensures deliveries == Enqueued(old(deliveries), channels, event, now)
      ensures |deliveries| == |old(deliveries)| + created
    {
      created := 0;
      for i := 0 to |channels|
        invariant deliveries == Enqueued(old(deliveries), channels[..i], event, now)
        invariant |deliveries| == |old(deliveries)| + created
      {
        assert channels[..i + 1][..i] == channels[..i];
        if !IsQueued(deliveries, channels[i], event) {
          deliveries := deliveries + [Queued(channels[i], event, now)];
          created := created + 1;
        }
      }
      assert channels[..|channels|] == channels;
    }

    method ClaimDue(limit: nat, now: int, locked: set<nat>) returns (ids: seq<nat>)
      modifies this
      ensures ids == PickDue(old(deliveries), now, locked, limit)
      ensures deliveries == Claimed(old(deliveries), now, locked, limit)
    {
      hide Pick;
      ids := PickDue(deliveries, now, locked, limit);
      DueQualify(deliveries, now, locked, limit);
      for k := 0 to |ids|
        invariant |deliveries| == |old(deliveries)|
        invariant forall i :: 0 <= i < |deliveries| ==>
                    deliveries[i] == if i in ids[..k] then Claim(old(deliveries)[i]) else old(deliveries)[i]
      {
        assert ids[k] in ids;
        var d := deliveries[ids[k]];
        deliveries := deliveries[ids[k] := d.(attempts := d.attempts + 1, status := Processing)];
        assert ids[..k + 1] == ids[..k] + [ids[k]];
      }
      assert ids[..|ids|] == ids;
    }

    /** Finalises in one transaction, which may raise and then has or has not been committed. */
    method Finalize(id: nat, now: int, sent: Sent, fault: Fault) returns (raised: Option<string>)
      modifies this
      ensures deliveries == if id < |old(deliveries)|
                            then old(deliveries)[id := Committed(old(deliveries)[id], now, sent, fault)]
                            else old(deliveries)
      ensures raised == if fault.Fine? then None else Some(fault.error)
    {
      if fault.Lost? {
        return Some(fault.error);
      }
      raised := if fault.Late? then Some(fault.error) else None;
      if id >= |deliveries| || deliveries[id].status != Processing {
        return;
      }
      var d := deliveries[id];
      match sent {
        case Success(code) =>
          d := d.(status := Delivered, delivered := Some(now), code := Some(code), error := None);
        case Failure(error) =>
          d := d.(error := Some(Truncated(error)), status := if d.attempts >= 5 then Failed else Retry);
          d := d.(next := now + Backoff(d.attempts));
      }
      deliveries := deliveries[id := d];
    }

    /** Sends one delivery and finalises it, as a failure if sending or finalising raised. */
    method DeliverOne(id: nat, w: World) returns (escaped: Option<string>)
      requires id < |deliveries|
      modifies this
      ensures deliveries == old(deliveries)[id := Attempted(old(deliveries)[id], id, w)] && escaped == Escapes(id, w)
    {
      var sent, error := w.sends(id), None;
      if sent.Success? {
        error := Finalize(id, w.clock(id), sent, w.first(id));
      } else {
        error := Some(sent.error);
      }
      escaped := None;
      if error.Some? {
        escaped := Finalize(id, w.later(id), Failure(error.value), w.second(id));
      }
    }

    /** Claims what is due, then sends and finalises each; an error in recording a failure ends the batch. */
    method DeliverDue(limit: nat, now: int, locked: set<nat>, w: World) returns (r: Result<nat, string>)
      modifies this
      ensures var ids := PickDue(old(deliveries), now, locked, limit);
              var batch := DeliveredEach(Claimed(old(deliveries), now, locked, limit), ids, w);
              && deliveries == batch.rows
              && r == match batch.escaped case None => Success(|ids|) case Some(error) => Failure(error)
    {
      hide PickDue, Attempted, Escapes;
      DueQualify(deliveries, now, locked, limit);
      var ids := ClaimDue(limit, now, locked);
      ghost var claimed := deliveries;
      for k := 0 to |ids|
        invariant |deliveries| == |claimed| && Batch(deliveries, None) == DeliveredEach(claimed, ids[..k], w)
      {
        assert ids[..k + 1][..k] == ids[..k] && ids[k] in ids;
        var escaped := DeliverOne(ids[k], w);
        if escaped.Some? {
          EscapeStays(claimed, ids, k + 1, w);
          return Failure(escaped.value);
        }
      }
      assert ids[..|ids|] == ids;
      return Success(|ids|);
    }
  }
}
