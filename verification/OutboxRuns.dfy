/** Outbox safety: any interleaving of dispatchers, publishing that succeeds or fails, and crashes. */
module OutboxRuns {
  import opened Wrappers
  import opened RowClaims
  import opened Outbox

  /** A claim: the row, and which of its attempts it is. */
  datatype Token = Token(row: nat, attempt: nat)

  datatype Phase = Held | Sent | Unsent(error: string)

  /** The table, the claims dispatchers are working on, and the claims whose message was published. */
  datatype System = System(rows: seq<Row>, claims: map<Token, Phase>, sent: set<Token>)

  datatype Step =
    | Add(topic: string, event: string, now: int)
    | ClaimSome(now: int, locked: set<nat>, limit: nat)
    | Publish(claim: Token, failure: Outcome)
    | Mark(claim: Token, now: int)
    | Lose(claim: Token)

  const EMPTY := System([], map[], {})

  function NewClaims(rows: seq<Row>, ids: seq<nat>): map<Token, Phase> {
    map i: nat | i in ids && i < |rows| :: Token(i, rows[i].attempts + 1) := Held
  }

  function Next(s: System, step: Step): System {
    match step
    case Add(topic, event, now) => s.(rows := s.rows + [Added(topic, event, now)])
    case ClaimSome(now, locked, limit) =>
      var ids := PickPending(s.rows, now, locked, limit);
      s.(rows := Claimed(s.rows, now, locked, limit), claims := s.claims + NewClaims(s.rows, ids))
    case Publish(c, failure) =>
      if c in s.claims && s.claims[c] == Held
      then s.(claims := s.claims[c := match failure case None => Sent case Some(e) => Unsent(e)],
              sent := if failure.None? then s.sent + {c} else s.sent)
      else s
    case Mark(c, now) =>
      if c in s.claims && c.row < |s.rows| && s.claims[c] != Held
      then s.(rows := s.rows[c.row := match s.claims[c] case Unsent(e) => MarkedFailed(s.rows[c.row], e)
                                                         case _ => MarkedPublished(s.rows[c.row], now)],
              claims := s.claims - {c})
      else s
    case Lose(c) => s.(claims := s.claims - {c})
  }

  function After(s: System, steps: seq<Step>): System {
    if steps == [] then s else Next(After(s, steps[..|steps| - 1]), steps[|steps| - 1])
  }

  function Run(steps: seq<Step>): System { After(EMPTY, steps) }

  lemma OneMoreStep(s: System, steps: seq<Step>, step: Step)
    ensures After(s, steps + [step]) == Next(After(s, steps), step)
  {
    assert (steps + [step])[..|steps|] == steps;
  }

  lemma OneStep(s: System, step: Step)
    ensures After(s, [step]) == Next(s, step)
  {
    OneMoreStep(s, [], step);
    assert [] + [step] == [step];
  }

  lemma {:induction false} AfterTogether(s: System, first: seq<Step>, second: seq<Step>)
    ensures After(s, first + second) == After(After(s, first), second)
  {
    if second == [] {
      assert first + second == first;
    } else {
      var n := |second| - 1;
      assert first + second == (first + second[..n]) + [second[n]] && second == second[..n] + [second[n]];
      AfterTogether(s, first, second[..n]);
      OneMoreStep(s, first + second[..n], second[n]);
    }
  }

  // ---------------------------------------------------------------- what every step keeps

  ghost predicate RowSound(s: System, i: nat)
    requires i < |s.rows|
  {
    var r := s.rows[i];
    && r.attempts <= MOST_ATTEMPTS
    && (r.status == Processing ==> r.claimed.Some?)
    && (r.status == Published ==> exists t :: t in s.sent && t.row == i)
  }

  ghost predicate TokenSound(s: System, t: Token) {
    t.row < |s.rows| && 1 <= t.attempt <= s.rows[t.row].attempts
  }

  ghost predicate Sound(s: System) {
    && (forall i :: 0 <= i < |s.rows| ==> RowSound(s, i))
    && (forall t :: t in s.sent ==> TokenSound(s, t))
    && (forall t :: t in s.claims ==> TokenSound(s, t))
    && (forall t :: t in s.claims ==> (s.claims[t] == Sent <==> t in s.sent))
  }

  lemma {:induction false} ClaimKeeps(s: System, step: Step)
    requires Sound(s) && step.ClaimSome?
    ensures Sound(Next(s, step))
  {
    var ids := PickPending(s.rows, step.now, step.locked, step.limit);
    var next := Next(s, step);
    PickQualifies(s.rows, Claimable(step.now), CREATED, step.locked, step.limit);
    assert forall i :: i in ids ==> Claimable(step.now)(s.rows[i]);
    forall i | 0 <= i < |next.rows| ensures RowSound(next, i) && next.rows[i].attempts >= s.rows[i].attempts {
      assert RowSound(s, i);
    }
    forall t | t in next.claims ensures TokenSound(next, t) && (next.claims[t] == Sent <==> t in next.sent) {
      if t !in NewClaims(s.rows, ids) {
        assert TokenSound(s, t);
      }
    }
    forall t | t in next.sent ensures TokenSound(next, t) {
      assert TokenSound(s, t);
    }
  }

  lemma MarkKeeps(s: System, step: Step)
    requires Sound(s) && step.Mark?
    ensures Sound(Next(s, step))
  {
    var next, c := Next(s, step), step.claim;
    forall i | 0 <= i < |next.rows| ensures RowSound(next, i) {
      assert RowSound(s, i);
      if c in s.claims && s.claims[c] == Sent {
        assert c in s.sent;
      }
    }
    forall t | t in next.claims || t in next.sent ensures TokenSound(next, t) {
      assert TokenSound(s, t);
    }
  }

  lemma AddKeeps(s: System, step: Step)
    requires Sound(s) && step.Add?
    ensures Sound(Next(s, step))
  {
    var next := Next(s, step);
    forall i | 0 <= i < |next.rows| ensures RowSound(next, i) {
      if i < |s.rows| {
        assert RowSound(s, i);
      }
    }
    forall t | t in next.claims || t in next.sent ensures TokenSound(next, t) {
      assert TokenSound(s, t);
    }
  }

  lemma PublishKeeps(s: System, step: Step)
    requires Sound(s) && step.Publish?
    ensures Sound(Next(s, step))
  {
    var next := Next(s, step);
    forall i | 0 <= i < |next.rows| ensures RowSound(next, i) {
      assert RowSound(s, i);
      if t :| t in s.sent && t.row == i {
        assert t in next.sent;
      }
    }
    forall t | t in next.claims || t in next.sent ensures TokenSound(next, t) {
      assert t in s.claims || t in s.sent;
      assert TokenSound(s, t);
    }
  }

  lemma LoseKeeps(s: System, step: Step)
    requires Sound(s) && step.Lose?
    ensures Sound(Next(s, step))
  {
    var next := Next(s, step);
    forall i | 0 <= i < |next.rows| ensures RowSound(next, i) {
      assert RowSound(s, i);
    }
    forall t | t in next.claims || t in next.sent ensures TokenSound(next, t) {
      assert TokenSound(s, t);
    }
  }

  lemma StepKeeps(s: System, step: Step)
    requires Sound(s)
    ensures Sound(Next(s, step))
  {
    match step {
      case Add(_, _, _) => AddKeeps(s, step);
      case ClaimSome(_, _, _) => ClaimKeeps(s, step);
      case Publish(_, _) => PublishKeeps(s, step);
      case Mark(_, _) => MarkKeeps(s, step);
      case Lose(_) => LoseKeeps(s, step);
    }
  }

  lemma {:induction false} RunsAreSound(steps: seq<Step>)
    ensures Sound(Run(steps))
  {
    if steps != [] {
      RunsAreSound(steps[..|steps| - 1]);
      StepKeeps(Run(steps[..|steps| - 1]), steps[|steps| - 1]);
    }
  }

  // ---------------------------------------------------------------- the promises

  function Publishings(s: System, i: nat): set<Token> { set t | t in s.sent && t.row == i }

  lemma {:induction false} FewTokens(tokens: set<Token>, i: nat, n: nat)
    requires forall t :: t in tokens ==> t.row == i && 1 <= t.attempt <= n
    ensures |tokens| <= n
  {
    if n == 0 {
      assert forall t :: t in tokens ==> t in {};
      assert tokens <= {};
    } else {
      FewTokens(tokens - {Token(i, n)}, i, n - 1);
      assert tokens <= (tokens - {Token(i, n)}) + {Token(i, n)};
    }
  }

  /** A row is claimed at most ten times, published at most once for each, and PUBLISHED only after that. */
  lemma {:induction false} OutboxIsSafe(steps: seq<Step>, i: nat)
    requires i < |Run(steps).rows|
    ensures var s := Run(steps);
            && |Publishings(s, i)| <= s.rows[i].attempts <= MOST_ATTEMPTS
            && (s.rows[i].status == Published ==> Publishings(s, i) != {})
  {
    var s := Run(steps);
    RunsAreSound(steps);
    assert RowSound(s, i);
    forall t | t in Publishings(s, i) ensures 1 <= t.attempt <= s.rows[i].attempts {
      assert TokenSound(s, t);
    }
    FewTokens(Publishings(s, i), i, s.rows[i].attempts);
    if s.rows[i].status == Published {
      var t :| t in s.sent && t.row == i;
      assert t in Publishings(s, i);
    }
  }

  /** When an unpublished row with attempts left can be claimed: at once, or when its claim is stale. */
  function ClaimableFrom(r: Row): int {
    if r.status == Processing && r.claimed.Some? then r.claimed.value + STALE + 1 else r.created
  }

  /** Claims one row, leaving the others to other dispatchers. */
  function ClaimOne(s: System, i: nat, now: int): Step { ClaimSome(now, AllBut(s.rows, i), 1) }

  lemma OneIsClaimed(s: System, i: nat, now: int)
    requires i < |s.rows| && IsClaimable(s.rows[i], now)
    ensures var next, c := Next(s, ClaimOne(s, i, now)), Token(i, s.rows[i].attempts + 1);
            |next.rows| == |s.rows| && next.rows[i] == Claim(now)(s.rows[i])
            && next.sent == s.sent && c in next.claims && next.claims[c] == Held
  {
    OnlyOneIsPicked(s.rows, Claimable(now), CREATED, i);
    hide Pick;
    assert PickPending(s.rows, now, AllBut(s.rows, i), 1) == [i];
    assert Token(i, s.rows[i].attempts + 1) in NewClaims(s.rows, [i]);
  }

  /**
   * Nothing is stuck: an unpublished row with attempts left can be claimed at once, or exactly from the moment
   * its claim is stale, and a dispatcher that does so gets it.
   */
  lemma {:induction false} NothingIsStuck(steps: seq<Step>, i: nat, now: int)
    requires i < |Run(steps).rows|
    ensures var r := Run(steps).rows[i];
            IsClaimable(r, now) <==>
              r.status != Published && r.attempts < MOST_ATTEMPTS
              && (r.status == Processing ==> r.claimed.Some? && now > r.claimed.value + STALE)
    ensures var r := Run(steps).rows[i];
            r.status != Published && r.attempts < MOST_ATTEMPTS ==>
              var at := ClaimableFrom(r);
              IsClaimable(r, at) && Next(Run(steps), ClaimOne(Run(steps), i, at)).rows[i] == Claim(at)(r)
  {
    RunsAreSound(steps);
    var s := Run(steps);
    assert RowSound(s, i);
    var r := s.rows[i];
    hide Run;
    if r.status != Published && r.attempts < MOST_ATTEMPTS {
      OneIsClaimed(s, i, ClaimableFrom(r));
    }
  }

  // ---------------------------------------------------------------- how PUBLISHED is left

  ghost predicate Outstanding(s: System, i: nat) {
    exists t :: t in s.claims && t.row == i && s.claims[t] != Sent
  }

  /** Only a claim of the row that has not been published can take it out of PUBLISHED, by being marked failed. */
  lemma {:induction false} PublishedIsLeftBy(s: System, step: Step, i: nat)
    requires i < |s.rows| && s.rows[i].status == Published && Next(s, step).rows[i].status != Published
    ensures step.Mark? && step.claim.row == i && step.claim in s.claims && s.claims[step.claim].Unsent?
    ensures Next(s, step).rows[i].status == Failed && Outstanding(s, i)
  {
    if step.ClaimSome? {
      PublishedIsNotPicked(s.rows, step.now, step.locked, step.limit, i);
    }
  }

  lemma {:induction false} PublishedIsNotPicked(rows: seq<Row>, now: int, locked: set<nat>, limit: nat, i: nat)
    requires i < |rows| && rows[i].status == Published
    ensures i !in PickPending(rows, now, locked, limit)
  {
    PendingQualify(rows, now, locked, limit);
  }

  ghost predicate Leaves(s: System, more: seq<Step>, i: nat)
    decreases |more|
  {
    more != [] && (var next := Next(s, more[0]);
                   i < |next.rows| && (next.rows[i].status != Published || Leaves(next, more[1..], i)))
  }

  lemma {:induction false} StaysPublished(s: System, more: seq<Step>, i: nat)
    requires i < |s.rows| && s.rows[i].status == Published && !Outstanding(s, i)
    ensures !Leaves(s, more, i)
    decreases |more|
  {
    if more != [] {
      var step := more[0];
      var next := Next(s, step);
      if step.ClaimSome? {
        PublishedIsNotPicked(s.rows, step.now, step.locked, step.limit, i);
      }
      if next.rows[i].status != Published {
        PublishedIsLeftBy(s, step, i);
      }
      forall t | t in next.claims && t.row == i ensures next.claims[t] == Sent {
      }
      StaysPublished(next, more[1..], i);
    }
  }

  /**
   * PUBLISHED can be left exactly when a claim of the row is still outstanding: one that was taken over
   * as stale and has yet to hear that its own publishing failed.
   */
  lemma {:induction false} PublishedIsFinalIff(s: System, i: nat)
    requires Sound(s) && i < |s.rows| && s.rows[i].status == Published
    ensures (exists more :: Leaves(s, more, i)) <==> Outstanding(s, i)
  {
    if Outstanding(s, i) {
      OutstandingCanLeave(s, i);
    } else {
      forall more ensures !Leaves(s, more, i) {
        StaysPublished(s, more, i);
      }
    }
  }

  lemma {:induction false} OutstandingCanLeave(s: System, i: nat)
    requires i < |s.rows| && Outstanding(s, i)
    ensures exists more :: Leaves(s, more, i)
  {
    var t :| t in s.claims && t.row == i && s.claims[t] != Sent;
    var publish, mark := Publish(t, Some("timed out")), Mark(t, 0);
    if s.claims[t] == Held {
      var next := Next(s, publish);
      MarkLeaves(next, t);
      assert [publish, mark][1..] == [mark];
      assert Leaves(s, [publish, mark], i);
    } else {
      MarkLeaves(s, t);
    }
  }

  lemma {:induction false} MarkLeaves(s: System, t: Token)
    requires t in s.claims && t.row < |s.rows| && s.claims[t].Unsent?
    ensures Leaves(s, [Mark(t, 0)], t.row)
  {
    assert Next(s, Mark(t, 0)).rows[t.row].status == Failed;
  }

  lemma ClaimsTheOnlyRow(r: Row, now: int)
    requires IsClaimable(r, now)
    ensures Claimed([r], now, {}, 1) == [Claim(now)(r)]
    ensures NewClaims([r], PickPending([r], now, {}, 1)) == map[Token(0, r.attempts + 1) := Held]
  {
    OnlyOneIsPicked([r], Claimable(now), CREATED, 0);
    assert forall j: nat :: j in AllBut([r], 0) <==> j in {};
    assert AllBut([r], 0) == {};
    hide Pick;
  }

  lemma NextClaim(r: Row, claims: map<Token, Phase>, now: int)
    requires IsClaimable(r, now)
    ensures Next(System([r], claims, {}), ClaimSome(now, {}, 1))
            == System([Claim(now)(r)], claims + map[Token(0, r.attempts + 1) := Held], {})
  {
    ClaimsTheOnlyRow(r, now);
    hide PickPending, Claimed, NewClaims;
  }

  const ADD := Add("topic", "event", 0)
  const ROW := Added("topic", "event", 0)
  const FIRST := ClaimSome(0, {}, 1)
  const SECOND := ClaimSome(STALE + 1, {}, 1)

  lemma RowAdded()
    ensures Run([ADD]) == System([ROW], map[], {})
  {
    OneStep(EMPTY, ADD);
    assert [] + [ROW] == [ROW];
  }

  lemma RunThenClaim(steps: seq<Step>, r: Row, claims: map<Token, Phase>, now: int)
    requires Run(steps) == System([r], claims, {}) && IsClaimable(r, now)
    ensures Run(steps + [ClaimSome(now, {}, 1)])
            == System([Claim(now)(r)], claims + map[Token(0, r.attempts + 1) := Held], {})
  {
    OneMoreStep(EMPTY, steps, ClaimSome(now, {}, 1));
    NextClaim(r, claims, now);
  }

  /** A row claimed by a slow dispatcher, and by a quick one once the first claim is stale. */
  lemma BothHold(steps: seq<Step>, r: Row)
    requires Run(steps) == System([r], map[], {}) && r.attempts == 0 && IsClaimable(r, 0)
    ensures var s := Run(steps + [FIRST] + [SECOND]);
            |s.rows| == 1 && s.claims == map[Token(0, 1) := Held, Token(0, 2) := Held]
  {
    var claimed := Claim(0)(r);
    RunThenClaim(steps, r, map[], 0);
    RunThenClaim(steps + [FIRST], claimed, map[] + map[Token(0, 1) := Held], STALE + 1);
    hide After;
  }

  ghost predicate LeavesPublished(steps: seq<Step>, step: Step) {
    && Run(steps).rows != [] && Run(steps).rows[0].status == Published
    && Run(steps + [step]).rows != [] && Run(steps + [step]).rows[0].status == Failed
  }

  /** It does happen: the slow dispatcher is overtaken, the row is published, and then the first failure is recorded. */
  lemma {:induction false} PublishedCanBeLeft()
    ensures exists steps, step :: LeavesPublished(steps, step)
  {
    RowAdded();
    BothHold([ADD], ROW);
    OvertakenRun([ADD] + [FIRST] + [SECOND], Token(0, 1), Token(0, 2));
  }

  lemma {:induction false} OvertakenRun(opening: seq<Step>, slow: Token, quick: Token)
    requires var s := Run(opening); |s.rows| == 1 && s.claims == map[slow := Held, quick := Held]
    requires slow != quick && slow.row == quick.row == 0
    ensures exists steps, step :: LeavesPublished(steps, step)
  {
    var fail, publish := Publish(slow, Some("timed out")), Publish(quick, None);
    var mark, late := Mark(quick, STALE + 2), Mark(slow, STALE + 3);
    Overtaken(Run(opening), slow, quick);
    hide After, Next;
    var a := opening + [fail];
    OneMoreStep(EMPTY, opening, fail);
    var b := a + [publish];
    OneMoreStep(EMPTY, a, publish);
    var c := b + [mark];
    OneMoreStep(EMPTY, b, mark);
    OneMoreStep(EMPTY, c, late);
    assert LeavesPublished(c, late);
  }

  lemma {:induction false} Overtaken(s: System, slow: Token, quick: Token)
    requires |s.rows| == 1 && s.claims == map[slow := Held, quick := Held] && slow != quick
            && slow.row == quick.row == 0
    ensures var p := Next(Next(Next(s, Publish(slow, Some("timed out"))), Publish(quick, None)),
                          Mark(quick, STALE + 2));
            && |p.rows| == 1 && p.rows[0].status == Published
            && |Next(p, Mark(slow, STALE + 3)).rows| == 1 && Next(p, Mark(slow, STALE + 3)).rows[0].status == Failed
  {
    var failed := Next(s, Publish(slow, Some("timed out")));
    assert failed.claims[slow].Unsent? && failed.claims[quick] == Held;
    var sent := Next(failed, Publish(quick, None));
    assert sent.claims[slow].Unsent? && sent.claims[quick] == Sent;
    var p := Next(sent, Mark(quick, STALE + 2));
    assert p.claims[slow].Unsent?;
  }
}
