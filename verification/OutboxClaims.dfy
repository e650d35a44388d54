/** What becomes of a claim of an outbox row: when a row can be published again, and a batch as a run. */
module OutboxClaims {
  import opened Wrappers
  import opened RowClaims
  import opened Outbox
  import opened OutboxRuns

  // ---------------------------------------------------------------- rows that can be published, again

  ghost predicate HeldSomewhere(s: System, i: nat) {
    exists t :: t in s.claims && t.row == i && s.claims[t] == Held
  }

  /** Some dispatcher is about to publish it, or it has attempts left and is not PUBLISHED for good. */
  ghost predicate Open(s: System, i: nat) {
    && i < |s.rows|
    && (HeldSomewhere(s, i)
        || (s.rows[i].attempts < MOST_ATTEMPTS && (s.rows[i].status != Published || Outstanding(s, i))))
  }

  lemma ClosedIsNotPicked(s: System, now: int, locked: set<nat>, limit: nat, i: nat)
    requires i < |s.rows| && !Open(s, i)
    ensures i !in PickPending(s.rows, now, locked, limit)
  {
    PendingQualify(s.rows, now, locked, limit);
  }

  lemma StepSparesClosed(s: System, step: Step, i: nat)
    requires i < |s.rows| && !Open(s, i)
    ensures i < |Next(s, step).rows| && !Open(Next(s, step), i) && Publishings(Next(s, step), i) == Publishings(s, i)
  {
    var next := Next(s, step);
    match step {
      case ClaimSome(now, locked, limit) => ClosedIsNotPicked(s, now, locked, limit, i);
      case Add(_, _, _) =>
      case Publish(c, _) =>
        assert c in s.claims && s.claims[c] == Held ==> c.row != i;
      case Mark(c, _) =>
        assert c in s.claims && c.row == i && s.claims[c] != Sent ==> Outstanding(s, i);
      case Lose(_) =>
    }
    forall t | t in next.claims && t.row == i ensures t in s.claims && next.claims[t] == s.claims[t] {
    }
  }

  lemma {:induction false} ClosedStays(s: System, more: seq<Step>, i: nat)
    requires i < |s.rows| && !Open(s, i)
    ensures i < |After(s, more).rows| && !Open(After(s, more), i) && Publishings(After(s, more), i) == Publishings(s, i)
  {
    if more != [] {
      var init := more[..|more| - 1];
      ClosedStays(s, init, i);
      StepSparesClosed(After(s, init), more[|more| - 1], i);
    }
  }

  ghost predicate Publishes(s: System, more: seq<Step>, i: nat) {
    |Publishings(After(s, more), i)| > |Publishings(s, i)|
  }

  lemma HeldCanBePublished(s: System, t: Token) returns (more: seq<Step>)
    requires Sound(s) && t in s.claims && s.claims[t] == Held
    ensures Publishes(s, more, t.row)
  {
    var publish := Publish(t, None);
    more := [publish];
    OneStep(s, publish);
    assert Publishings(Next(s, publish), t.row) == Publishings(s, t.row) + {t};
  }

  lemma ThenPublished(s: System, step: Step, rest: seq<Step>, i: nat)
    requires Next(s, step).sent == s.sent && Publishes(Next(s, step), rest, i)
    ensures Publishes(s, [step] + rest, i)
  {
    OneStep(s, step);
    AfterTogether(s, [step], rest);
  }

  lemma UnpublishedCanBePublished(s: System, i: nat) returns (more: seq<Step>)
    requires Sound(s) && i < |s.rows| && s.rows[i].attempts < MOST_ATTEMPTS && s.rows[i].status != Published
    ensures Publishes(s, more, i)
  {
    var now := ClaimableFrom(s.rows[i]);
    var claim := ClaimOne(s, i, now);
    assert RowSound(s, i);
    OneIsClaimed(s, i, now);
    StepKeeps(s, claim);
    hide Next, Publishes, Sound;
    var rest := HeldCanBePublished(Next(s, claim), Token(i, s.rows[i].attempts + 1));
    more := [claim] + rest;
    ThenPublished(s, claim, rest, i);
  }

  lemma UnsentCanBePublished(s: System, t: Token) returns (more: seq<Step>)
    requires Sound(s) && t in s.claims && s.claims[t].Unsent? && s.rows[t.row].attempts < MOST_ATTEMPTS
    ensures Publishes(s, more, t.row)
  {
    var mark := Mark(t, 0);
    var next := Next(s, mark);
    assert TokenSound(s, t);
    assert next.rows[t.row].status == Failed && next.rows[t.row].attempts == s.rows[t.row].attempts
           && next.sent == s.sent;
    StepKeeps(s, mark);
    hide Next, Publishes, Sound;
    var rest := UnpublishedCanBePublished(next, t.row);
    more := [mark] + rest;
    ThenPublished(s, mark, rest, t.row);
  }

  lemma OpenCanBePublished(s: System, i: nat) returns (more: seq<Step>)
    requires Sound(s) && Open(s, i)
    ensures Publishes(s, more, i)
  {
    if t :| t in s.claims && t.row == i && s.claims[t] == Held {
      more := HeldCanBePublished(s, t);
    } else if s.rows[i].status != Published {
      more := UnpublishedCanBePublished(s, i);
    } else {
      var t :| t in s.claims && t.row == i && s.claims[t] != Sent;
      assert TokenSound(s, t);
      more := UnsentCanBePublished(s, t);
    }
  }

  /**
   * In every reachable state a row can be published, for the first time or again, exactly while a dispatcher
   * is about to publish it, or it has attempts left and is not PUBLISHED for good.
   */
  lemma {:induction false} CanBePublishedIff(steps: seq<Step>, i: nat)
    requires i < |Run(steps).rows|
    ensures (exists more :: |Publishings(Run(steps + more), i)| > |Publishings(Run(steps), i)|) <==> Open(Run(steps), i)
  {
    RunsAreSound(steps);
    if Open(Run(steps), i) {
      var more := OpenCanBePublished(Run(steps), i);
      AfterTogether(EMPTY, steps, more);
      assert |Publishings(Run(steps + more), i)| > |Publishings(Run(steps), i)|;
    } else {
      forall more ensures |Publishings(Run(steps + more), i)| == |Publishings(Run(steps), i)| {
        ClosedStays(Run(steps), more, i);
        AfterTogether(EMPTY, steps, more);
      }
    }
  }

  // ---------------------------------------------------------------- a batch as a run

  /** The steps a dispatcher takes for one claim of a batch. */
  function StepsFor(c: Token, w: World): seq<Step> {
    [Publish(c, w.publishes(c.row))] + (if w.marks(c.row).Lost? then [Lose(c)] else [Mark(c, w.clock(c.row))])
  }

  /** The steps for one claim do to its row what the dispatcher does. */
  lemma StepsAmount(s: System, c: Token, w: World)
    requires c in s.claims && c.row < |s.rows| && s.claims[c] == Held
    ensures var next := After(s, StepsFor(c, w));
            next.rows == s.rows[c.row := Recorded(s.rows[c.row], c.row, w)] && next.claims == s.claims - {c}
  {
    var publish := Publish(c, w.publishes(c.row));
    var next := Next(s, publish);
    OneStep(s, publish);
    var last := if w.marks(c.row).Lost? then Lose(c) else Mark(c, w.clock(c.row));
    OneStep(next, last);
    AfterTogether(s, [publish], [last]);
  }

  /** The claim of a row of the batch. */
  function ClaimOf(rows: seq<Row>, id: nat): Token
    requires id < |rows|
  {
    Token(id, rows[id].attempts)
  }

  /** One more claim is taken up, or lost with the dispatcher. */
  function MoreSteps(rows: seq<Row>, init: seq<nat>, id: nat, w: World): seq<Step>
    requires id < |rows|
  {
    if DispatchedEach(rows, init, w).escaped.Some? then [Lose(ClaimOf(rows, id))] else StepsFor(ClaimOf(rows, id), w)
  }

  /** A batch: each claim in turn, until an error escapes; the dispatcher's other claims are then lost. */
  function BatchSteps(rows: seq<Row>, ids: seq<nat>, w: World): seq<Step> {
    if ids == [] then []
    else
      var init, id := ids[..|ids| - 1], ids[|ids| - 1];
      BatchSteps(rows, init, w) + (if id < |rows| then MoreSteps(rows, init, id, w) else [])
  }

  ghost predicate Holds(s: System, rows: seq<Row>, ids: seq<nat>) {
    forall id :: id in ids ==> id < |rows| && ClaimOf(rows, id) in s.claims && s.claims[ClaimOf(rows, id)] == Held
  }

  /** The claims of the batch. */
  function ClaimsOf(rows: seq<Row>, ids: seq<nat>): set<Token> {
    set id: nat | id in ids && id < |rows| :: ClaimOf(rows, id)
  }

  lemma OneMoreInBatch(rows: seq<Row>, init: seq<nat>, id: nat, w: World)
    requires id < |rows|
    ensures BatchSteps(rows, init + [id], w) == BatchSteps(rows, init, w) + MoreSteps(rows, init, id, w)
  {
    assert (init + [id])[..|init|] == init;
    hide MoreSteps;
  }

  lemma BatchClaimsOneMore(rows: seq<Row>, init: seq<nat>, id: nat)
    requires id < |rows| && id !in init
    ensures ClaimOf(rows, id) !in ClaimsOf(rows, init)
    ensures ClaimsOf(rows, init + [id]) == ClaimsOf(rows, init) + {ClaimOf(rows, id)}
  {
    assert id in init + [id] && forall j :: j in init ==> j in init + [id];
  }

  lemma BatchOneMore(s: System, before: System, init: seq<nat>, id: nat, w: World)
    requires before == After(s, BatchSteps(s.rows, init, w)) && before.rows == DispatchedEach(s.rows, init, w).rows
    requires id < |s.rows| && ClaimOf(s.rows, id) in before.claims && before.claims[ClaimOf(s.rows, id)] == Held
    ensures var next := After(s, BatchSteps(s.rows, init + [id], w));
            && next.rows == DispatchedEach(s.rows, init + [id], w).rows
            && next.claims == before.claims - {ClaimOf(s.rows, id)}
  {
    var c := ClaimOf(s.rows, id);
    OneMoreInBatch(s.rows, init, id, w);
    OneMoreDispatched(s.rows, init, id, w);
    AfterTogether(s, BatchSteps(s.rows, init, w), MoreSteps(s.rows, init, id, w));
    hide After, BatchSteps, DispatchedEach, StepsFor, Recorded;
    if DispatchedEach(s.rows, init, w).escaped.Some? {
      OneStep(before, Lose(c));
    } else {
      StepsAmount(before, c, w);
    }
  }

  /** The rows after a batch are those the dispatcher leaves, and none of its claims is left. */
  lemma {:induction false} BatchIsSteps(s: System, ids: seq<nat>, w: World)
    requires NoRepeats(ids) && Holds(s, s.rows, ids)
    ensures var next := After(s, BatchSteps(s.rows, ids, w));
            next.rows == DispatchedEach(s.rows, ids, w).rows && next.claims == s.claims - ClaimsOf(s.rows, ids)
  {
    if ids == [] {
      assert forall c :: c in ClaimsOf(s.rows, ids) <==> c in {};
    } else {
      hide After, BatchSteps, DispatchedEach;
      var init, id := ids[..|ids| - 1], ids[|ids| - 1];
      assert ids == init + [id] && id !in init && forall j :: j in init ==> j in ids;
      assert id in ids && Holds(s, s.rows, init);
      BatchIsSteps(s, init, w);
      BatchClaimsOneMore(s.rows, init, id);
      BatchOneMore(s, After(s, BatchSteps(s.rows, init, w)), init, id, w);
    }
  }

  /** One call of the dispatcher is a run of steps: the claim, and what it does with each row it claimed. */
  lemma DispatchIsARun(s: System, now: int, locked: set<nat>, limit: nat, w: World)
    ensures var ids, claimed := PickPending(s.rows, now, locked, limit), Claimed(s.rows, now, locked, limit);
            var next := After(s, [ClaimSome(now, locked, limit)] + BatchSteps(claimed, ids, w));
            next.rows == DispatchedEach(claimed, ids, w).rows
  {
    var ids, claimed := PickPending(s.rows, now, locked, limit), Claimed(s.rows, now, locked, limit);
    var claim := ClaimSome(now, locked, limit);
    PendingQualify(s.rows, now, locked, limit);
    OneStep(s, claim);
    var held := Next(s, claim);
    hide PickPending;
    forall id | id in ids
      ensures id < |claimed| && ClaimOf(claimed, id) in held.claims && held.claims[ClaimOf(claimed, id)] == Held
    {
      assert claimed[id] == Claim(now)(s.rows[id]);
      assert ClaimOf(claimed, id) in NewClaims(s.rows, ids);
    }
    BatchIsSteps(held, ids, w);
    AfterTogether(s, [claim], BatchSteps(claimed, ids, w));
  }
}
