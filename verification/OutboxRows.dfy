/** What an outbox row tells of its own past, in every reachable state. */
module OutboxRows {
  import opened Wrappers
  import opened RowClaims
  import opened Outbox
  import opened OutboxRuns

  /** What befalls a row: a dispatcher claims it, or marks it by how publishing went. */
  datatype Episode = Taken(at: int) | Posted(at: int) | Unposted(error: string)

  function EpisodeOf(s: System, step: Step, i: nat): seq<Episode> {
    if i >= |s.rows| then []
    else
      match step
      case ClaimSome(now, locked, limit) => if i in PickPending(s.rows, now, locked, limit) then [Taken(now)] else []
      case Mark(c, now) =>
        if c !in s.claims || c.row != i then []
        else (match s.claims[c] case Held => [] case Sent => [Posted(now)] case Unsent(e) => [Unposted(e)])
      case _ => []
  }

  function History(steps: seq<Step>, i: nat): seq<Episode> {
    if steps == [] then []
    else
      var init := steps[..|steps| - 1];
      History(init, i) + EpisodeOf(Run(init), steps[|steps| - 1], i)
  }

  /** The rows added, in order. */
  function Additions(steps: seq<Step>): seq<Step> {
    if steps == [] then []
    else Additions(steps[..|steps| - 1]) + (if steps[|steps| - 1].Add? then [steps[|steps| - 1]] else [])
  }

  // ---------------------------------------------------------------- reading a history

  function TimesTaken(h: seq<Episode>): nat {
    if h == [] then 0 else TimesTaken(h[..|h| - 1]) + (if h[|h| - 1].Taken? then 1 else 0)
  }

  function LastTaken(h: seq<Episode>): Option<int> {
    if h == [] then None else if h[|h| - 1].Taken? then Some(h[|h| - 1].at) else LastTaken(h[..|h| - 1])
  }

  function LastPosted(h: seq<Episode>): Option<int> {
    if h == [] then None else if h[|h| - 1].Posted? then Some(h[|h| - 1].at) else LastPosted(h[..|h| - 1])
  }

  /** The last time the row was marked, if ever. */
  function LastMark(h: seq<Episode>): Option<Episode> {
    if h == [] then None else if h[|h| - 1].Taken? then LastMark(h[..|h| - 1]) else Some(h[|h| - 1])
  }

  /** At most the first 2000 characters of the text. */
  ghost predicate StartOf(start: string, text: string) {
    start <= text && |start| <= 2000 && (|start| == 2000 || start == text)
  }

  /** The row is what its history makes of it. */
  ghost predicate Tells(r: Row, h: seq<Episode>) {
    && r.attempts == TimesTaken(h) && r.claimed == LastTaken(h) && r.published == LastPosted(h)
    && (match LastMark(h)
        case None => r.error == None
        case Some(Unposted(e)) => r.error.Some? && StartOf(r.error.value, if e == "" then "publish failed" else e)
        case Some(_) => r.error == None)
    && (r.status == Pending <==> h == [])
    && (h != [] ==> match h[|h| - 1]
                    case Taken(_) => r.status == Processing
                    case Posted(_) => r.status == Published
                    case Unposted(_) => r.status == Failed)
  }

  lemma TakenTells(r: Row, h: seq<Episode>, now: int)
    requires Tells(r, h)
    ensures Tells(Claim(now)(r), h + [Taken(now)])
  {
    assert (h + [Taken(now)])[..|h|] == h;
  }

  lemma PostedTells(r: Row, h: seq<Episode>, now: int)
    requires Tells(r, h)
    ensures Tells(MarkedPublished(r, now), h + [Posted(now)])
  {
    assert (h + [Posted(now)])[..|h|] == h;
  }

  lemma UnpostedTells(r: Row, h: seq<Episode>, error: string)
    requires Tells(r, h)
    ensures Tells(MarkedFailed(r, error), h + [Unposted(error)])
  {
    assert (h + [Unposted(error)])[..|h|] == h;
  }

  lemma OneMoreTells(s: System, step: Step, i: nat, h: seq<Episode>)
    requires i < |s.rows| && Tells(s.rows[i], h)
    ensures i < |Next(s, step).rows| && Tells(Next(s, step).rows[i], h + EpisodeOf(s, step, i))
  {
    var r := s.rows[i];
    assert h + [] == h;
    hide Tells, MarkedPublished, MarkedFailed, PickPending;
    match step {
      case ClaimSome(now, locked, limit) => TakenTells(r, h, now);
      case Mark(c, now) =>
        if c in s.claims && c.row == i {
          match s.claims[c] {
            case Held =>
            case Sent => PostedTells(r, h, now);
            case Unsent(e) => UnpostedTells(r, h, e);
          }
        }
      case _ =>
    }
  }

  /**
   * Every row tells its own history: how often and when last it was claimed, when it was last published, the start
   * of the error it was last marked with, if it was not marked published since, and as its status what came last.
   */
  lemma {:induction false} RowTells(steps: seq<Step>, i: nat)
    ensures if i < |Run(steps).rows| then Tells(Run(steps).rows[i], History(steps, i)) else History(steps, i) == []
  {
    if steps != [] {
      var init, step := steps[..|steps| - 1], steps[|steps| - 1];
      RowTells(init, i);
      if i < |Run(init).rows| {
        OneMoreTells(Run(init), step, i, History(init, i));
      }
    }
  }

  /** The rows are those added, in order, and keep their topic, event and time of creation. */
  lemma {:induction false} RowsAreAdded(steps: seq<Step>)
    ensures var rows, adds := Run(steps).rows, Additions(steps);
            && |rows| == |adds|
            && forall i :: 0 <= i < |adds| ==>
                 adds[i].Add? && (rows[i].topic, rows[i].event, rows[i].created)
                                 == (adds[i].topic, adds[i].event, adds[i].now)
  {
    if steps != [] {
      RowsAreAdded(steps[..|steps| - 1]);
    }
  }

  // ---------------------------------------------------------------- whose turn it is

  /** Rows are claimed oldest first. */
  lemma ClaimedInOrder(rows: seq<Row>, now: int, locked: set<nat>, limit: nat, j: nat, k: nat)
    requires j < k < |PickPending(rows, now, locked, limit)|
    ensures var ids := PickPending(rows, now, locked, limit);
            ids[j] < |rows| && ids[k] < |rows| && rows[ids[j]].created <= rows[ids[k]].created
  {
    PickedInOrder(rows, Claimable(now), CREATED, locked, limit);
    var ids := PickPending(rows, now, locked, limit);
    hide Pick;
    assert CREATED(rows[ids[j]]) <= CREATED(rows[ids[k]]);
  }

  /** Waiting, failed, or claimed more than five minutes ago, and claimed fewer than ten times. */
  ghost predicate Open(r: Row, now: int) {
    && r.attempts < 10
    && (r.status in {Pending, Failed}
        || (r.status == Processing && r.claimed.Some? && now - r.claimed.value > 300 * 1000000))
  }

  /**
   * A row is claimed only if it is open and free, and then its claim is stamped and counted; and an open and free row
   * is claimed unless the batch is full of rows no younger than it.
   */
  lemma OpenIsClaimed(s: System, now: int, locked: set<nat>, limit: nat, i: nat)
    requires i < |s.rows|
    ensures var ids, next := PickPending(s.rows, now, locked, limit), Next(s, ClaimSome(now, locked, limit));
            && (i in ids ==>
                  && Open(s.rows[i], now) && i !in locked
                  && next.rows[i] == s.rows[i].(status := Processing, claimed := Some(now),
                                                attempts := s.rows[i].attempts + 1))
            && (i !in ids ==> next.rows[i] == s.rows[i])
            && (i !in ids && Open(s.rows[i], now) && i !in locked ==>
                  |ids| == limit && forall j :: j in ids ==> j < |s.rows| && s.rows[j].created <= s.rows[i].created)
  {
    PendingQualify(s.rows, now, locked, limit);
    if i !in PickPending(s.rows, now, locked, limit) && Open(s.rows[i], now) && i !in locked {
      PassedOver(s.rows, Claimable(now), CREATED, locked, limit, i);
    }
  }
}
