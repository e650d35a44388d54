/** What a notification's row tells of its own past, in every reachable state. */
module NotificationRows {
  import opened Wrappers
  import opened RowClaims
  import opened Notifications
  import opened NotificationRuns

  /** What befalls a row: a worker claims it, or settles a claim as delivered or as failed. */
  datatype Episode = Taken(at: int) | Arrived(at: int, code: int) | Missed(at: int, error: string)

  /** Settling a claim counts only while the row is in progress. */
  function EpisodeOf(s: System, step: Step, i: nat): seq<Episode> {
    if i >= |s.rows| then []
    else
      match step
      case ClaimDue(now, locked, limit) => if i in PickDue(s.rows, now, locked, limit) then [Taken(now)] else []
      case Raise(c, now, _, committed) =>
        if c in s.claims && c.row == i && committed && s.claims[c].Accepted? && s.rows[i].status == Processing
        then [Arrived(now, s.claims[c].code)] else []
      case Finalize(c, now) =>
        if c !in s.claims || c.row != i || s.rows[i].status != Processing then []
        else (match s.claims[c]
              case Held => []
              case Accepted(code) => [Arrived(now, code)]
              case Refused(error) => [Missed(now, error)])
      case _ => []
  }

  function History(steps: seq<Step>, i: nat): seq<Episode> {
    if steps == [] then []
    else
      var init := steps[..|steps| - 1];
      History(init, i) + EpisodeOf(Run(init), steps[|steps| - 1], i)
  }

  /** When the row was queued. */
  function QueuedAt(steps: seq<Step>, i: nat): int {
    if steps == [] then 0
    else if i < |Run(steps[..|steps| - 1]).rows| then QueuedAt(steps[..|steps| - 1], i)
    else steps[|steps| - 1].now
  }

  // ---------------------------------------------------------------- reading a history

  function TimesTaken(h: seq<Episode>): nat {
    if h == [] then 0 else TimesTaken(h[..|h| - 1]) + (if h[|h| - 1].Taken? then 1 else 0)
  }

  function TimesMissed(h: seq<Episode>): nat {
    if h == [] then 0 else TimesMissed(h[..|h| - 1]) + (if h[|h| - 1].Missed? then 1 else 0)
  }

  function LastMissed(h: seq<Episode>): Option<Episode> {
    if h == [] then None else if h[|h| - 1].Missed? then Some(h[|h| - 1]) else LastMissed(h[..|h| - 1])
  }

  function LastArrived(h: seq<Episode>): Option<Episode> {
    if h == [] then None else if h[|h| - 1].Arrived? then Some(h[|h| - 1]) else LastArrived(h[..|h| - 1])
  }

  /** At most the first 2000 characters of the text. */
  ghost predicate StartOf(start: string, text: string) {
    start <= text && |start| <= 2000 && (|start| == 2000 || start == text)
  }

  /** Ten seconds after the first failure, and twice as many after every further one. */
  const PAUSES: seq<int> := [10 * 1000000, 20 * 1000000, 40 * 1000000, 80 * 1000000, 160 * 1000000]

  /** The row is what its history, and the time it was queued, make of it. */
  ghost predicate Tells(d: Delivery, h: seq<Episode>, queued: int) {
    var missed, arrived := LastMissed(h), LastArrived(h);
    && d.attempts == TimesTaken(h) <= 5 && TimesMissed(h) <= 5
    && (missed.Some? <==> TimesMissed(h) > 0) && (missed.Some? ==> missed.value.Missed?)
    && (arrived.Some? ==> arrived.value.Arrived?)
    && d.next == (if missed.None? then queued else missed.value.at + PAUSES[TimesMissed(h) - 1])
    && d.delivered == (if arrived.None? then None else Some(arrived.value.at))
    && d.code == (if arrived.None? then None else Some(arrived.value.code))
    && (if missed.None? || arrived.Some? then d.error == None
        else d.error.Some? && StartOf(d.error.value, missed.value.error))
    && (d.status == Delivered <==> arrived.Some?)
    && (d.status == Pending <==> h == [])
    && (d.status == Processing <==> h != [] && h[|h| - 1].Taken?)
    && (d.status == Retry <==> h != [] && h[|h| - 1].Missed? && TimesMissed(h) < 5)
    && (d.status == Failed <==> h != [] && h[|h| - 1].Missed? && TimesMissed(h) == 5)
    && TimesTaken(h) == TimesMissed(h) + (if d.status in {Processing, Delivered} then 1 else 0)
  }

  lemma Pauses(n: nat)
    requires 1 <= n <= 5
    ensures Backoff(n) == PAUSES[n - 1]
  {
    assert Power(0) == 1 && Power(1) == 2 && Power(2) == 4 && Power(3) == 8 && Power(4) == 16 && Power(5) == 32;
  }

  /** Waiting starts at five seconds, doubles with every attempt, and is never more than fifteen minutes. */
  lemma BackoffDoubles(n: nat)
    ensures Backoff(0) == 5 * 1000000
    ensures Backoff(n + 1) == if 2 * Backoff(n) <= 900 * 1000000 then 2 * Backoff(n) else 900 * 1000000
  {
  }

  lemma TakenTells(d: Delivery, h: seq<Episode>, queued: int, now: int)
    requires Tells(d, h, queued) && IsDue(d, now)
    ensures Tells(Claim(d), h + [Taken(now)], queued)
  {
    assert (h + [Taken(now)])[..|h|] == h;
  }

  lemma ArrivedTells(d: Delivery, h: seq<Episode>, queued: int, now: int, code: int)
    requires Tells(d, h, queued) && d.status == Processing
    ensures Tells(Finalised(d, now, Success(code)), h + [Arrived(now, code)], queued)
  {
    assert (h + [Arrived(now, code)])[..|h|] == h;
  }

  lemma MissedTells(d: Delivery, h: seq<Episode>, queued: int, now: int, error: string)
    requires Tells(d, h, queued) && d.status == Processing
    ensures Tells(Finalised(d, now, Failure(error)), h + [Missed(now, error)], queued)
  {
    assert (h + [Missed(now, error)])[..|h|] == h;
    Pauses(d.attempts);
    hide Backoff;
  }

  lemma OneMoreTells(s: System, step: Step, i: nat, h: seq<Episode>, queued: int)
    requires i < |s.rows| && Tells(s.rows[i], h, queued)
    ensures i < |Next(s, step).rows| && Tells(Next(s, step).rows[i], h + EpisodeOf(s, step, i), queued)
  {
    var d := s.rows[i];
    hide Tells, Finalised, Claim, Backoff;
    assert h + [] == h;
    match step {
      case Enqueue(channels, event, now) => EnqueuedExtends(s.rows, channels, event, now);
      case ClaimDue(now, locked, limit) =>
        DueQualify(s.rows, now, locked, limit);
        if i in PickDue(s.rows, now, locked, limit) {
          TakenTells(d, h, queued, now);
        }
      case Raise(c, now, _, _) =>
        if c in s.claims && s.claims[c].Accepted? && d.status == Processing {
          ArrivedTells(d, h, queued, now, s.claims[c].code);
        }
      case Finalize(c, now) =>
        if c in s.claims && d.status == Processing {
          match s.claims[c] {
            case Held =>
            case Accepted(code) => ArrivedTells(d, h, queued, now, code);
            case Refused(error) => MissedTells(d, h, queued, now, error);
          }
        }
      case _ =>
    }
  }

  lemma {:induction false} NewRows(rows: seq<Delivery>, channels: seq<string>, event: string, now: int, i: nat)
    requires |rows| <= i < |Enqueued(rows, channels, event, now)|
    ensures var d := Enqueued(rows, channels, event, now)[i];
            Tells(d, [], now) && d.channel in channels && d.event == event
  {
    if channels != [] {
      var init := channels[..|channels| - 1];
      assert channels == init + [channels[|channels| - 1]];
      if i < |Enqueued(rows, init, event, now)| {
        NewRows(rows, init, event, now, i);
      }
    }
  }

  lemma GrowsByQueueing(s: System, step: Step, i: nat)
    requires |s.rows| <= i < |Next(s, step).rows|
    ensures step.Enqueue? && Next(s, step).rows == Enqueued(s.rows, step.channels, step.event, step.now)
  {
  }

  /**
   * Every row tells its own history: how often it was claimed; when it arrived and with what code; the start of the
   * error of its last failure unless it arrived; when it is next due, by a pause that doubles from ten seconds; and
   * as its status what came last, a fifth failure being the end.
   */
  lemma {:induction false} RowTells(steps: seq<Step>, i: nat)
    ensures if i < |Run(steps).rows| then Tells(Run(steps).rows[i], History(steps, i), QueuedAt(steps, i))
            else History(steps, i) == []
  {
    if steps != [] {
      var init, step := steps[..|steps| - 1], steps[|steps| - 1];
      RowTells(init, i);
      hide Tells, Next;
      if i < |Run(init).rows| {
        OneMoreTells(Run(init), step, i, History(init, i), QueuedAt(init, i));
      } else if i < |Run(steps).rows| {
        GrowsByQueueing(Run(init), step, i);
        NewRows(Run(init).rows, step.channels, step.event, step.now, i);
      }
    }
  }

  /** Rows are claimed in the order in which they were due. */
  lemma ClaimedInOrder(rows: seq<Delivery>, now: int, locked: set<nat>, limit: nat, j: nat, k: nat)
    requires j < k < |PickDue(rows, now, locked, limit)|
    ensures var ids := PickDue(rows, now, locked, limit);
            ids[j] < |rows| && ids[k] < |rows| && rows[ids[j]].next <= rows[ids[k]].next
  {
    PickedInOrder(rows, Due(now), NEXT, locked, limit);
    var ids := PickDue(rows, now, locked, limit);
    hide Pick;
    assert NEXT(rows[ids[j]]) <= NEXT(rows[ids[k]]);
  }

  // ---------------------------------------------------------------- what ends a batch

  /** The delivery is settled without an error: it was delivered at once, or its failure could be recorded. */
  ghost predicate Ends(id: nat, w: World) { w.second(id).Fine? || (w.sends(id).Success? && w.first(id).Fine?) }

  /** The k-th delivery is the first whose failure could not be recorded. */
  ghost predicate BreaksOff(ids: seq<nat>, w: World, k: nat) {
    k < |ids| && !Ends(ids[k], w) && forall j :: 0 <= j < k ==> Ends(ids[j], w)
  }

  /** A batch ends with the error of the first delivery whose failure could not be recorded, or well without one. */
  lemma {:induction false} BatchBreaksOff(rows: seq<Delivery>, ids: seq<nat>, w: World)
    requires forall id :: id in ids ==> id < |rows|
    ensures var escaped := DeliveredEach(rows, ids, w).escaped;
            && (escaped.None? <==> forall k :: 0 <= k < |ids| ==> Ends(ids[k], w))
            && (escaped.Some? ==> exists k: nat :: BreaksOff(ids, w, k) && escaped.value == w.second(ids[k]).error)
  {
    if ids != [] {
      var init, id := ids[..|ids| - 1], ids[|ids| - 1];
      assert id in ids && forall j :: j in init ==> j in ids;
      BatchBreaksOff(rows, init, w);
      DeliveredEachKeepsRows(rows, init, w);
      var before := DeliveredEach(rows, init, w).escaped;
      assert (forall k :: 0 <= k < |ids| ==> Ends(ids[k], w))
             <==> (forall k :: 0 <= k < |init| ==> Ends(init[k], w)) && Ends(id, w);
      if before.Some? {
        var k: nat :| BreaksOff(init, w, k) && before.value == w.second(init[k]).error;
        assert BreaksOff(ids, w, k);
      } else if !Ends(id, w) {
        assert BreaksOff(ids, w, |init|);
      }
    }
  }
}
