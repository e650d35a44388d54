/** What becomes of a claim: which rows can still be settled, how a notification is sent twice, and a batch as a run. */
module NotificationClaims {
  import opened Wrappers
  import opened RowClaims
  import opened Notifications
  import opened NotificationRuns

  // ---------------------------------------------------------------- rows that can still be settled

  /** Steps that happen in order, none before a time. */
  ghost predicate Ahead(more: seq<Step>, from: int) {
    Forward(more) && forall step :: step in more ==> step.now >= from
  }

  ghost predicate Settles(s: System, more: seq<Step>, i: nat) {
    i < |After(s, more).rows| && SettledRow(After(s, more).rows[i])
  }

  lemma OneStep(s: System, step: Step)
    ensures After(s, [step]) == Next(s, step)
  {
    OneMoreStep(s, [], step);
    assert [] + [step] == [step];
  }

  lemma TwoSteps(s: System, first: Step, second: Step)
    ensures After(s, [first, second]) == Next(Next(s, first), second)
  {
    OneStep(s, first);
    OneMoreStep(s, [first], second);
    assert [first] + [second] == [first, second];
  }

  /** A claim whose send has yet to happen can be delivered. */
  lemma HeldCanSettle(s: System, c: Token, from: int) returns (more: seq<Step>)
    requires Works(s, c) && s.claims[c] == Held && s.rows[c.row].status == Processing
    ensures Ahead(more, from) && Settles(s, more, c.row)
  {
    var send, finalize := Send(c, from, Success(200)), Finalize(c, from);
    more := [send, finalize];
    TwoSteps(s, send, finalize);
    assert Next(s, send).claims[c] == Accepted(200) && Next(s, send).rows == s.rows;
  }

  lemma AcceptedCanSettle(s: System, c: Token, from: int) returns (more: seq<Step>)
    requires Works(s, c) && s.claims[c].Accepted? && s.rows[c.row].status == Processing
    ensures Ahead(more, from) && Settles(s, more, c.row)
  {
    more := [Finalize(c, from)];
    OneStep(s, Finalize(c, from));
  }

  lemma OnlyDueIsPicked(rows: seq<Delivery>, i: nat, now: int)
    requires i < |rows| && IsDue(rows[i], now)
    ensures PickDue(rows, now, AllBut(rows, i), 1) == [i]
  {
    OnlyOneIsPicked(rows, Due(now), NEXT, i);
  }

  function Latest(x: int, y: int): int { if x >= y then x else y }

  /** Claims one row when it is due. */
  function ClaimOne(s: System, i: nat, from: int): Step
    requires i < |s.rows|
  {
    ClaimDue(Latest(from, s.rows[i].next), AllBut(s.rows, i), 1)
  }

  lemma WaitingIsClaimed(s: System, i: nat, from: int)
    requires i < |s.rows| && (s.rows[i].status == Pending || s.rows[i].status == Retry)
    ensures var next, c := Next(s, ClaimOne(s, i, from)), Token(i, s.rows[i].attempts + 1);
            Works(next, c) && next.claims[c] == Held && next.rows[i].status == Processing
    ensures Next(s, ClaimOne(s, i, from)).log == s.log + Claimings([i], ClaimOne(s, i, from).now)
  {
    var now := Latest(from, s.rows[i].next);
    OnlyDueIsPicked(s.rows, i, now);
    hide PickDue;
    assert Claimed(s.rows, now, AllBut(s.rows, i), 1)[i] == Claim(s.rows[i]);
    assert Token(i, s.rows[i].attempts + 1) in NewClaims(s.rows, [i]);
  }

  /** A row waiting to be retried can be claimed again, and then delivered. */
  lemma RetryCanSettle(s: System, i: nat, from: int) returns (more: seq<Step>)
    requires i < |s.rows| && s.rows[i].status == Retry
    ensures Ahead(more, from) && Settles(s, more, i)
  {
    var claim := ClaimOne(s, i, from);
    WaitingIsClaimed(s, i, from);
    OneStep(s, claim);
    hide Next, After, PickDue;
    var rest := HeldCanSettle(Next(s, claim), Token(i, s.rows[i].attempts + 1), claim.now);
    more := [claim] + rest;
    AfterTogether(s, [claim], rest);
    AheadTogether([claim], rest, from, claim.now);
  }

  lemma AheadTogether(first: seq<Step>, second: seq<Step>, from: int, middle: int)
    requires Ahead(first, from) && Ahead(second, middle) && from <= middle
    requires forall step :: step in first ==> step.now <= middle
    ensures Ahead(first + second, from)
  {
    var all := first + second;
    forall i, j | 0 <= i <= j < |all| ensures all[i].now <= all[j].now {
      if i < |first| <= j {
        assert all[i] in first && all[j] in second;
      }
    }
  }

  /** A claim about to record a failure settles the row as FAILED, or sets it up for another attempt. */
  lemma RefusedCanSettle(s: System, c: Token, from: int) returns (more: seq<Step>)
    requires Works(s, c) && s.claims[c].Refused? && s.rows[c.row].status == Processing
    ensures Ahead(more, from) && Settles(s, more, c.row)
  {
    var finalize := Finalize(c, from);
    var next := Next(s, finalize);
    OneStep(s, finalize);
    if SettledRow(next.rows[c.row]) {
      more := [finalize];
    } else {
      var rest := RetryCanSettle(next, c.row, from);
      more := [finalize] + rest;
      AfterTogether(s, [finalize], rest);
      AheadTogether([finalize], rest, from, from);
    }
  }

  lemma ClaimCanSettle(s: System, c: Token, from: int) returns (more: seq<Step>)
    requires Works(s, c) && s.rows[c.row].status == Processing
    ensures Ahead(more, from) && Settles(s, more, c.row)
  {
    match s.claims[c] {
      case Held => more := HeldCanSettle(s, c, from);
      case Accepted(_) => more := AcceptedCanSettle(s, c, from);
      case Refused(_) => more := RefusedCanSettle(s, c, from);
    }
  }

  ghost predicate SettledAfter(steps: seq<Step>, more: seq<Step>, i: nat) {
    i < |Run(steps + more).rows| && SettledRow(Run(steps + more).rows[i])
  }

  /**
   * A PROCESSING row can still be settled exactly while a worker holds a claim of it; and if one does, from any
   * time on, in order.
   */
  lemma {:induction false} CanSettleIff(steps: seq<Step>, i: nat, from: int)
    requires i < |Run(steps).rows| && Run(steps).rows[i].status == Processing
    ensures (exists more :: SettledAfter(steps, more, i)) <==> HasClaim(Run(steps), i)
    ensures HasClaim(Run(steps), i) <==> exists more :: Ahead(more, from) && SettledAfter(steps, more, i)
  {
    var s := Run(steps);
    if c :| c in s.claims && c.row == i {
      var more := ClaimCanSettle(s, c, from);
      AfterTogether(EMPTY, steps, more);
      assert Ahead(more, from) && SettledAfter(steps, more, i);
    } else {
      forall more ensures !SettledAfter(steps, more, i) {
        SettledStays(steps, more, i);
      }
    }
  }

  // ---------------------------------------------------------------- rows that can be sent, and accepted, again

  /** Waiting, or claimed by a worker that has yet to send, or whose failure to settle would leave another attempt. */
  ghost predicate Open(s: System, i: nat) {
    && i < |s.rows|
    && (s.rows[i].status == Pending || s.rows[i].status == Retry
        || (s.rows[i].status == Processing
            && exists c :: c in s.claims && c.row == i && (s.claims[c] == Held || s.rows[i].attempts < 5)))
  }

  function Acceptances(s: System, i: nat): nat { |StoryOf(s.log, i).accepted| }

  lemma {:induction false} AcceptedGrows(log: seq<Happening>, more: seq<Happening>, i: nat)
    ensures |StoryOf(log + more, i).accepted| >= |StoryOf(log, i).accepted|
  {
    if more == [] {
      assert log + more == log;
    } else {
      var init, last := more[..|more| - 1], more[|more| - 1];
      assert log + more == (log + init) + [last];
      AcceptedGrows(log, init, i);
      StoryOneMore(log + init, last, i);
    }
  }

  /** A step to the row of one claim, of which something is recorded. */
  lemma TouchedStory(s: System, c: Token, d: Delivery, claims: map<Token, Phase>, log: seq<Happening>, i: nat)
    requires c.row < |s.rows| && |log| <= 1
    ensures var was := StoryOf(s.log, i);
            StoryOf(Touched(s, c, d, claims, log).log, i) == if log == [] then was else Told(was, log[0], i)
  {
    if log == [] {
      assert s.log + log == s.log;
    } else {
      assert log == [log[0]];
      StoryOneMore(s.log, log[0], i);
    }
  }

  lemma ClaimSparesClosed(s: System, clock: int, step: Step, i: nat)
    requires Sound(s, clock) && step.ClaimDue? && i < |s.rows| && !Open(s, i)
    ensures !Open(Next(s, step), i) && Acceptances(Next(s, step), i) == Acceptances(s, i)
  {
    var ids, next := PickDue(s.rows, step.now, step.locked, step.limit), Next(s, step);
    DueQualify(s.rows, step.now, step.locked, step.limit);
    ClaimedOnce(s.log, ids, step.now, i);
    hide PickDue, StoryOf;
    assert i !in ids && next.rows[i] == s.rows[i];
    forall c | c in next.claims && c.row == i ensures c in s.claims && next.claims[c] == s.claims[c] {
    }
  }

  /** A step of another claim, or of none, spares a row. */
  lemma OtherSpares(s: System, c: Token, d: Delivery, claims: map<Token, Phase>, log: seq<Happening>, i: nat)
    requires c.row < |s.rows| && c.row != i && i < |s.rows| && |log| <= 1 && forall h :: h in log ==> h.id == c.row
    requires forall o :: o != c ==> (o in claims <==> o in s.claims) && (o in claims ==> claims[o] == s.claims[o])
    requires !Open(s, i)
    ensures var next := Touched(s, c, d, claims, log); !Open(next, i) && Acceptances(next, i) == Acceptances(s, i)
  {
    TouchedStory(s, c, d, claims, log, i);
    assert log != [] ==> log[0] in log;
  }

  /** The row of a claim that can be neither sent nor retried can only be settled. */
  lemma LastSpares(s: System, c: Token, d: Delivery, claims: map<Token, Phase>, log: seq<Happening>, clock: int)
    requires Sound(s, clock) && Works(s, c) && s.claims[c] != Held && !Open(s, c.row) && |log| <= 1
    requires forall h :: h in log ==> h.id == c.row && !h.Sending?
    requires (forall o :: o in claims ==> o in s.claims) && (c in claims ==> claims[c] != Held)
    requires d.attempts == s.rows[c.row].attempts && (d.status == s.rows[c.row].status || SettledRow(d))
    ensures var next := Touched(s, c, d, claims, log);
            !Open(next, c.row) && Acceptances(next, c.row) == Acceptances(s, c.row)
  {
    TouchedStory(s, c, d, claims, log, c.row);
    assert log != [] ==> log[0] in log;
    forall o | o in claims && o.row == c.row ensures o == c {
      OneClaimPerRow(s, clock, o, c);
    }
    hide StoryOf, Sound;
    ClosedRow(s, c, d, claims, log);
  }

  lemma ClosedRow(s: System, c: Token, d: Delivery, claims: map<Token, Phase>, log: seq<Happening>)
    requires Works(s, c) && !Open(s, c.row) && forall o :: o in claims && o.row == c.row ==> o == c
    requires c in claims ==> claims[c] != Held
    requires d.attempts == s.rows[c.row].attempts && (d.status == s.rows[c.row].status || SettledRow(d))
    ensures !Open(Touched(s, c, d, claims, log), c.row)
  {
    if s.rows[c.row].status == Processing {
      assert c in s.claims && c.row == c.row;
    }
  }

  /** A finalisation that finds the row in progress and out of attempts settles it. */
  lemma LastIsSettled(s: System, c: Token, clock: int, now: int, sent: Sent)
    requires Sound(s, clock) && Works(s, c) && s.claims[c] != Held && !Open(s, c.row)
    ensures var d, next := s.rows[c.row], Finalised(s.rows[c.row], now, sent);
            next.attempts == d.attempts && (next.status == d.status || SettledRow(next))
  {
    assert ClaimSound(s, c);
  }

  lemma StepSparesClosed(s: System, clock: int, step: Step, i: nat)
    requires Sound(s, clock) && clock <= step.now && i < |s.rows| && !Open(s, i)
    ensures i < |Next(s, step).rows| && !Open(Next(s, step), i) && Acceptances(Next(s, step), i) == Acceptances(s, i)
  {
    match step {
      case Enqueue(channels, event, now) => EnqueuedExtends(s.rows, channels, event, now);
      case ClaimDue(_, _, _) => ClaimSparesClosed(s, clock, step, i);
      case Send(c, now, sent) => SendSparesClosed(s, clock, step, i);
      case Raise(c, now, error, committed) => RaiseSparesClosed(s, clock, step, i);
      case Finalize(c, now) => FinalizeSparesClosed(s, clock, step, i);
      case Lose(c, now) =>
    }
  }

  lemma SendSparesClosed(s: System, clock: int, step: Step, i: nat)
    requires Sound(s, clock) && step.Send? && i < |s.rows| && !Open(s, i)
    ensures !Open(Next(s, step), i) && Acceptances(Next(s, step), i) == Acceptances(s, i)
  {
    var c := step.claim;
    if Works(s, c) && s.claims[c] == Held {
      assert ClaimSound(s, c);
      OtherSpares(s, c, s.rows[c.row], s.claims[c := PhaseAfter(step.sent)],
                  [Sending(c.row, step.now, step.sent.Success?)], i);
    }
  }

  lemma RaiseSparesClosed(s: System, clock: int, step: Step, i: nat)
    requires Sound(s, clock) && step.Raise? && i < |s.rows| && !Open(s, i)
    ensures !Open(Next(s, step), i) && Acceptances(Next(s, step), i) == Acceptances(s, i)
  {
    var c := step.claim;
    if Works(s, c) && s.claims[c].Accepted? {
      var d, sent, claims := s.rows[c.row], Success(s.claims[c].code), s.claims[c := Refused(step.error)];
      var after := if step.committed then Finalised(d, step.now, sent) else d;
      var log := if step.committed then Outcome(d, c.row, step.now, sent) else [Losing(c.row, step.now)];
      if c.row == i {
        LastIsSettled(s, c, clock, step.now, sent);
        LastSpares(s, c, after, claims, log, clock);
      } else {
        OtherSpares(s, c, after, claims, log, i);
      }
    }
  }

  lemma FinalizeSparesClosed(s: System, clock: int, step: Step, i: nat)
    requires Sound(s, clock) && step.Finalize? && i < |s.rows| && !Open(s, i)
    ensures !Open(Next(s, step), i) && Acceptances(Next(s, step), i) == Acceptances(s, i)
  {
    var c := step.claim;
    if Works(s, c) && s.claims[c] != Held {
      var d, sent := s.rows[c.row], Finding(s.claims[c]);
      if c.row == i {
        LastIsSettled(s, c, clock, step.now, sent);
        LastSpares(s, c, Finalised(d, step.now, sent), s.claims - {c}, Outcome(d, i, step.now, sent), clock);
      } else {
        OtherSpares(s, c, Finalised(d, step.now, sent), s.claims - {c}, Outcome(d, c.row, step.now, sent), i);
      }
    }
  }

  /** A row that is not open is never accepted again, whatever happens. */
  lemma {:induction false} ClosedStays(steps: seq<Step>, more: seq<Step>, i: nat)
    requires Forward(steps + more) && steps != [] && i < |Run(steps).rows| && !Open(Run(steps), i)
    ensures i < |Run(steps + more).rows| && !Open(Run(steps + more), i)
    ensures Acceptances(Run(steps + more), i) == Acceptances(Run(steps), i)
  {
    if more == [] {
      assert steps + more == steps;
    } else {
      var init, last := steps + more[..|more| - 1], more[|more| - 1];
      assert steps + more == init + [last];
      ForwardParts(init, last);
      ClosedStays(steps, more[..|more| - 1], i);
      RunsAreSound(init);
      OneMoreStep(EMPTY, init, last);
      StepSparesClosed(Run(init), init[|init| - 1].now, last, i);
    }
  }

  lemma ForwardParts(init: seq<Step>, last: Step)
    requires Forward(init + [last])
    ensures Forward(init) && (init != [] ==> init[|init| - 1].now <= last.now)
  {
    var all := init + [last];
    assert forall k :: 0 <= k < |init| ==> all[k] == init[k];
    assert all[|init|] == last;
  }

  // ---------------------------------------------------------------- and how they are

  ghost predicate Accepts(s: System, more: seq<Step>, i: nat) {
    Acceptances(After(s, more), i) > Acceptances(s, i)
  }

  lemma HeldCanBeAccepted(s: System, c: Token, from: int) returns (more: seq<Step>)
    requires Works(s, c) && s.claims[c] == Held
    ensures Ahead(more, from) && Accepts(s, more, c.row)
  {
    var send := Send(c, from, Success(200));
    more := [send];
    OneStep(s, send);
    StoryOneMore(s.log, Sending(c.row, from, true), c.row);
  }

  /** After a step that accepts nothing, what can be accepted can be accepted from before it. */
  lemma ThenAccepted(s: System, step: Step, rest: seq<Step>, i: nat, from: int)
    requires Acceptances(Next(s, step), i) >= Acceptances(s, i) && Accepts(Next(s, step), rest, i)
    requires step.now >= from && Ahead(rest, step.now)
    ensures Ahead([step] + rest, from) && Accepts(s, [step] + rest, i)
  {
    OneStep(s, step);
    AfterTogether(s, [step], rest);
    AheadTogether([step], rest, from, step.now);
  }

  lemma NextAccepts(s: System, step: Step, i: nat, log: seq<Happening>)
    requires Next(s, step).log == s.log + log
    ensures Acceptances(Next(s, step), i) >= Acceptances(s, i)
  {
    AcceptedGrows(s.log, log, i);
  }

  lemma WaitingCanBeAccepted(s: System, i: nat, from: int) returns (more: seq<Step>)
    requires i < |s.rows| && (s.rows[i].status == Pending || s.rows[i].status == Retry)
    ensures Ahead(more, from) && Accepts(s, more, i)
  {
    var claim := ClaimOne(s, i, from);
    WaitingIsClaimed(s, i, from);
    NextAccepts(s, claim, i, Claimings([i], claim.now));
    hide Next, Accepts, Acceptances;
    var rest := HeldCanBeAccepted(Next(s, claim), Token(i, s.rows[i].attempts + 1), claim.now);
    more := [claim] + rest;
    ThenAccepted(s, claim, rest, i, from);
  }

  /** Recording the failure of an attempt that is not the last leaves the row waiting. */
  lemma RefusedCanBeAccepted(s: System, c: Token, from: int) returns (more: seq<Step>)
    requires Works(s, c) && s.claims[c].Refused? && s.rows[c.row].status == Processing && s.rows[c.row].attempts < 5
    ensures Ahead(more, from) && Accepts(s, more, c.row)
  {
    var finalize := Finalize(c, from);
    assert Next(s, finalize).rows[c.row].status == Retry;
    NextAccepts(s, finalize, c.row, [Failing(c.row, from)]);
    hide Next, Accepts, Acceptances;
    var rest := WaitingCanBeAccepted(Next(s, finalize), c.row, from);
    more := [finalize] + rest;
    ThenAccepted(s, finalize, rest, c.row, from);
  }

  /** So does losing the finalisation of an accepted send and recording that. */
  lemma AcceptedCanBeAccepted(s: System, c: Token, from: int) returns (more: seq<Step>)
    requires Works(s, c) && s.claims[c].Accepted? && s.rows[c.row].status == Processing && s.rows[c.row].attempts < 5
    ensures Ahead(more, from) && Accepts(s, more, c.row)
  {
    var raise := Raise(c, from, "connection lost", false);
    assert Next(s, raise).rows == s.rows && Works(Next(s, raise), c) && Next(s, raise).claims[c].Refused?;
    NextAccepts(s, raise, c.row, [Losing(c.row, from)]);
    hide Next, Accepts, Acceptances;
    var rest := RefusedCanBeAccepted(Next(s, raise), c, from);
    more := [raise] + rest;
    ThenAccepted(s, raise, rest, c.row, from);
  }

  lemma OpenCanBeAccepted(s: System, i: nat, from: int) returns (more: seq<Step>)
    requires Open(s, i)
    ensures Ahead(more, from) && Accepts(s, more, i)
  {
    if s.rows[i].status == Processing {
      var c :| c in s.claims && c.row == i && (s.claims[c] == Held || s.rows[i].attempts < 5);
      match s.claims[c] {
        case Held => more := HeldCanBeAccepted(s, c, from);
        case Accepted(_) => more := AcceptedCanBeAccepted(s, c, from);
        case Refused(_) => more := RefusedCanBeAccepted(s, c, from);
      }
    } else {
      more := WaitingCanBeAccepted(s, i, from);
    }
  }

  ghost predicate AcceptedAgain(steps: seq<Step>, more: seq<Step>, i: nat) {
    Forward(steps + more) && Acceptances(Run(steps + more), i) > Acceptances(Run(steps), i)
  }

  /**
   * A notification can be sent and accepted, for the first time or again, exactly while its row is waiting,
   * or a worker holds a claim of it that it has yet to send, or one whose failure would leave another attempt.
   */
  lemma {:induction false} CanBeAcceptedIff(steps: seq<Step>, i: nat)
    requires Forward(steps) && steps != [] && i < |Run(steps).rows|
    ensures (exists more :: AcceptedAgain(steps, more, i)) <==> Open(Run(steps), i)
  {
    var last := steps[|steps| - 1].now;
    if Open(Run(steps), i) {
      var more := OpenCanBeAccepted(Run(steps), i, last);
      AfterTogether(EMPTY, steps, more);
      assert Forward(steps + more) by {
        forall k, j | 0 <= k <= j < |steps + more| ensures (steps + more)[k].now <= (steps + more)[j].now {
          if k < |steps| <= j {
            assert (steps + more)[j] in more;
          }
        }
      }
      assert AcceptedAgain(steps, more, i);
    } else {
      forall more ensures !AcceptedAgain(steps, more, i) {
        if Forward(steps + more) {
          ClosedStays(steps, more, i);
        }
      }
    }
  }

  // ---------------------------------------------------------------- two runs

  const QUEUE := Enqueue(["channel"], "event", 0)
  const ROW := Queued("channel", "event", 0)
  const CLAIM1 := ClaimDue(0, {}, 1)

  lemma Opening()
    ensures Run([QUEUE]) == System([ROW], map[], [])
  {
    OneStep(EMPTY, QUEUE);
    assert ["channel"][..0] == [] && Enqueued([], [], "event", 0) == [];
    assert [] + [ROW] == [ROW];
  }

  lemma ClaimsTheOnlyRow(d: Delivery, log: seq<Happening>, now: int)
    requires IsDue(d, now)
    ensures Next(System([d], map[], log), ClaimDue(now, {}, 1))
            == System([Claim(d)], map[Token(0, d.attempts + 1) := Held], log + [Claiming(0, now)])
  {
    OnlyDueIsPicked([d], 0, now);
    assert forall j: nat :: j in AllBut([d], 0) <==> j in {};
    assert AllBut([d], 0) == {};
    assert Claimed([d], now, {}, 1) == [Claim(d)];
    assert NewClaims([d], [0]) == map[Token(0, d.attempts + 1) := Held];
    hide PickDue, Claimed, NewClaims;
    assert map[] + map[Token(0, d.attempts + 1) := Held] == map[Token(0, d.attempts + 1) := Held];
    assert Claimings([0], now) == [Claiming(0, now)];
  }

  lemma RunThenClaim(steps: seq<Step>, d: Delivery, log: seq<Happening>, now: int)
    requires Run(steps) == System([d], map[], log) && IsDue(d, now)
    ensures Run(steps + [ClaimDue(now, {}, 1)])
            == System([Claim(d)], map[Token(0, d.attempts + 1) := Held], log + [Claiming(0, now)])
  {
    OneMoreStep(EMPTY, steps, ClaimDue(now, {}, 1));
    ClaimsTheOnlyRow(d, log, now);
  }

  lemma FirstClaim()
    ensures Run([QUEUE, CLAIM1]) == System([Claim(ROW)], map[Token(0, 1) := Held], [Claiming(0, 0)])
  {
    Opening();
    RunThenClaim([QUEUE], ROW, [], 0);
    hide After, Claim;
    assert [QUEUE] + [CLAIM1] == [QUEUE, CLAIM1];
    assert [] + [Claiming(0, 0)] == [Claiming(0, 0)];
  }

  /** A worker that crashes with its claim leaves the row PROCESSING, for good. */
  lemma ClaimsCanBeLost()
    ensures var lost := Run([QUEUE, CLAIM1, Lose(Token(0, 1), 1)]);
            |lost.rows| == 1 && Stuck(lost, 0)
    ensures forall more :: !SettledAfter([QUEUE, CLAIM1, Lose(Token(0, 1), 1)], more, 0)
  {
    var steps := [QUEUE, CLAIM1, Lose(Token(0, 1), 1)];
    FirstClaim();
    OneMoreStep(EMPTY, [QUEUE, CLAIM1], Lose(Token(0, 1), 1));
    assert [QUEUE, CLAIM1] + [Lose(Token(0, 1), 1)] == steps;
    CanSettleIff(steps, 0, 1);
  }

  /** Claimed, sent and accepted, the finalisation lost, the failure recorded; then claimed again and delivered. */
  function Resent(retry: int): seq<Step> {
    var t, u := Token(0, 1), Token(0, 2);
    [QUEUE, CLAIM1] + [Send(t, 1, Success(200))] + [Raise(t, 2, "connection lost", false)] + [Finalize(t, 3)]
    + [ClaimDue(retry, {}, 1)] + [Send(u, retry, Success(200))] + [Finalize(u, retry)]
  }

  lemma LostAndRecorded(d: Delivery, log: seq<Happening>)
    requires d.status == Processing && d.attempts == 1
    ensures var t := Token(0, 1);
            var sent := Next(System([d], map[t := Held], log), Send(t, 1, Success(200)));
            Next(Next(sent, Raise(t, 2, "connection lost", false)), Finalize(t, 3))
            == System([Finalised(d, 3, Failure("connection lost"))], map[],
                      log + [Sending(0, 1, true)] + [Losing(0, 2)] + [Failing(0, 3)])
  {
    var t := Token(0, 1);
    var sent := Next(System([d], map[t := Held], log), Send(t, 1, Success(200)));
    assert sent == System([d], map[t := Accepted(200)], log + [Sending(0, 1, true)]);
    var lost := Next(sent, Raise(t, 2, "connection lost", false));
    assert lost == System([d], map[t := Refused("connection lost")], log + [Sending(0, 1, true)] + [Losing(0, 2)]);
    hide Finalised;
    assert lost.claims - {t} == map[];
  }

  lemma SentAndDelivered(d: Delivery, log: seq<Happening>, u: Token, now: int)
    requires d.status == Processing && u.row == 0
    ensures Next(Next(System([d], map[u := Held], log), Send(u, now, Success(200))), Finalize(u, now))
            == System([Finalised(d, now, Success(200))], map[], log + [Sending(0, now, true)] + [Delivering(0, now)])
  {
    var sent := Next(System([d], map[u := Held], log), Send(u, now, Success(200)));
    assert sent == System([d], map[u := Accepted(200)], log + [Sending(0, now, true)]);
    hide Finalised;
    assert sent.claims - {u} == map[];
  }

  const RETRIED := Finalised(Claim(ROW), 3, Failure("connection lost"))

  /** What happens to the row in such a run. */
  function ResentLog(retry: int): seq<Happening> {
    [Claiming(0, 0)] + [Sending(0, 1, true)] + [Losing(0, 2)] + [Failing(0, 3)] + [Claiming(0, retry)]
    + [Sending(0, retry, true)] + [Delivering(0, retry)]
  }

  lemma ResentRun(retry: int)
    requires retry == RETRIED.next && RETRIED.status == Retry
    ensures Run(Resent(retry))
            == System([Finalised(Claim(RETRIED), retry, Success(200))], map[], ResentLog(retry))
  {
    var t, u, first := Token(0, 1), Token(0, 2), [QUEUE, CLAIM1];
    var log := [Claiming(0, 0)] + [Sending(0, 1, true)] + [Losing(0, 2)] + [Failing(0, 3)];
    FirstClaim();
    LostAndRecorded(Claim(ROW), [Claiming(0, 0)]);
    ClaimsTheOnlyRow(RETRIED, log, retry);
    SentAndDelivered(Claim(RETRIED), log + [Claiming(0, retry)], u, retry);
    SixMore(first, Send(t, 1, Success(200)), Raise(t, 2, "connection lost", false), Finalize(t, 3),
            ClaimDue(retry, {}, 1), Send(u, retry, Success(200)), Finalize(u, retry));
    hide After, Next, Finalised;
  }

  /** A notification can be sent, and accepted, more than once: when finalising an accepted send raises. */
  lemma SentTwice()
    ensures var steps := Resent(RETRIED.next);
            var s := Run(steps);
            && Forward(steps) && |s.rows| == 1 && s.rows[0].status == Delivered
            && |StoryOf(s.log, 0).accepted| == 2 && |StoryOf(s.log, 0).lost| == 1
  {
    assert Power(1) == 2;
    assert RETRIED == ROW.(status := Retry, attempts := 1, next := 3 + 10 * SECOND, error := Some("connection lost"));
    ResentRun(RETRIED.next);
    ResentStory(RETRIED.next);
    ResentIsForward(RETRIED.next);
    hide After, Resent, Forward, StoryOf, ResentLog;
  }

  lemma ResentIsForward(retry: int)
    requires retry >= 3
    ensures Forward(Resent(retry))
  {
    var steps := Resent(retry);
    assert |steps| == 8 && steps[0].now == 0 && steps[1].now == 0 && steps[2].now == 1 && steps[3].now == 2;
    assert steps[4].now == 3 && steps[5].now == retry && steps[6].now == retry && steps[7].now == retry;
  }

  lemma SixMore(steps: seq<Step>, a: Step, b: Step, c: Step, d: Step, e: Step, f: Step)
    ensures Run(steps + [a] + [b] + [c] + [d] + [e] + [f])
            == Next(Next(Next(Next(Next(Next(Run(steps), a), b), c), d), e), f)
  {
    OneMoreStep(EMPTY, steps, a);
    OneMoreStep(EMPTY, steps + [a], b);
    OneMoreStep(EMPTY, steps + [a] + [b], c);
    OneMoreStep(EMPTY, steps + [a] + [b] + [c], d);
    OneMoreStep(EMPTY, steps + [a] + [b] + [c] + [d], e);
    OneMoreStep(EMPTY, steps + [a] + [b] + [c] + [d] + [e], f);
  }

  lemma ResentStory(retry: int)
    ensures StoryOf(ResentLog(retry), 0) == Story([0, retry], [1, retry], [1, retry], [2], [3], [retry])
  {
    var a := [Claiming(0, 0)];
    var b := a + [Sending(0, 1, true)];
    var c := b + [Losing(0, 2)];
    var d := c + [Failing(0, 3)];
    var e := d + [Claiming(0, retry)];
    var f := e + [Sending(0, retry, true)];
    assert [] + [Claiming(0, 0)] == a;
    StoryOneMore([], Claiming(0, 0), 0);
    StoryOneMore(a, Sending(0, 1, true), 0);
    StoryOneMore(b, Losing(0, 2), 0);
    StoryOneMore(c, Failing(0, 3), 0);
    StoryOneMore(d, Claiming(0, retry), 0);
    StoryOneMore(e, Sending(0, retry, true), 0);
    StoryOneMore(f, Delivering(0, retry), 0);
  }

  // ---------------------------------------------------------------- a batch as a run

  /** Recording a failure: it is finalised, unless that is lost, and the worker with it. */
  function Again(c: Token, w: World): seq<Step> {
    if w.second(c.row).Lost? then [Lose(c, w.later(c.row))] else [Finalize(c, w.later(c.row))]
  }

  /** The steps a worker takes for one claim of a batch. */
  function StepsFor(c: Token, w: World): seq<Step> {
    match w.sends(c.row)
    case Failure(error) => [Send(c, w.clock(c.row), Failure(error))] + Again(c, w)
    case Success(code) =>
      [Send(c, w.clock(c.row), Success(code))]
      + match w.first(c.row)
        case Fine => [Finalize(c, w.clock(c.row))]
        case Lost(error) => [Raise(c, w.clock(c.row), error, false)] + Again(c, w)
        case Late(error) => [Raise(c, w.clock(c.row), error, true)] + Again(c, w)
  }

  /** Only the row of the claim changes, and only its claim goes. */
  ghost predicate Amounts(s: System, next: System, c: Token, d: Delivery)
    requires c.row < |s.rows|
  {
    next.rows == s.rows[c.row := d] && next.claims == s.claims - {c}
  }

  lemma AgainAmounts(s: System, c: Token, error: string, w: World)
    requires Works(s, c) && s.claims[c] == Refused(error)
    ensures Amounts(s, After(s, Again(c, w)), c,
                    Committed(s.rows[c.row], w.later(c.row), Failure(error), w.second(c.row)))
  {
    if w.second(c.row).Lost? {
      OneStep(s, Lose(c, w.later(c.row)));
    } else {
      OneStep(s, Finalize(c, w.later(c.row)));
    }
  }

  lemma RaisedAmounts(s: System, c: Token, code: int, error: string, committed: bool, w: World)
    requires Works(s, c) && s.claims[c] == Accepted(code)
    ensures var once := if committed then Finalised(s.rows[c.row], w.clock(c.row), Success(code)) else s.rows[c.row];
            Amounts(s, After(s, [Raise(c, w.clock(c.row), error, committed)] + Again(c, w)), c,
                    Committed(once, w.later(c.row), Failure(error), w.second(c.row)))
  {
    var raise := Raise(c, w.clock(c.row), error, committed);
    var next := Next(s, raise);
    OneStep(s, raise);
    AfterTogether(s, [raise], Again(c, w));
    AgainAmounts(next, c, error, w);
  }

  /** The steps for one claim do to its row what the service does. */
  lemma StepsAmount(s: System, c: Token, w: World)
    requires Works(s, c) && s.claims[c] == Held
    ensures Amounts(s, After(s, StepsFor(c, w)), c, Attempted(s.rows[c.row], c.row, w))
  {
    var sent := w.sends(c.row);
    var send := Send(c, w.clock(c.row), sent);
    var next := Next(s, send);
    OneStep(s, send);
    match sent {
      case Failure(error) =>
        AgainAmounts(next, c, error, w);
        AfterTogether(s, [send], Again(c, w));
      case Success(code) =>
        match w.first(c.row) {
          case Fine =>
            OneStep(next, Finalize(c, w.clock(c.row)));
            AfterTogether(s, [send], [Finalize(c, w.clock(c.row))]);
          case Lost(error) =>
            RaisedAmounts(next, c, code, error, false, w);
            AfterTogether(s, [send], [Raise(c, w.clock(c.row), error, false)] + Again(c, w));
          case Late(error) =>
            RaisedAmounts(next, c, code, error, true, w);
            AfterTogether(s, [send], [Raise(c, w.clock(c.row), error, true)] + Again(c, w));
        }
    }
  }

  /** The claim of a row of the batch. */
  function ClaimOf(rows: seq<Delivery>, id: nat): Token
    requires id < |rows|
  {
    Token(id, rows[id].attempts)
  }

  /** A batch: each claim in turn, until an error escapes; the worker's other claims are then lost. */
  function BatchSteps(rows: seq<Delivery>, ids: seq<nat>, w: World): seq<Step> {
    if ids == [] then []
    else
      var init, id := ids[..|ids| - 1], ids[|ids| - 1];
      BatchSteps(rows, init, w)
      + (if id >= |rows| then []
         else if DeliveredEach(rows, init, w).escaped.Some? then [Lose(ClaimOf(rows, id), w.later(id))]
         else StepsFor(ClaimOf(rows, id), w))
  }

  ghost predicate Holds(s: System, rows: seq<Delivery>, ids: seq<nat>) {
    forall id :: id in ids ==> id < |rows| && ClaimOf(rows, id) in s.claims && s.claims[ClaimOf(rows, id)] == Held
  }

  /** The claims of the batch. */
  function ClaimsOf(rows: seq<Delivery>, ids: seq<nat>): set<Token> {
    set id: nat | id in ids && id < |rows| :: ClaimOf(rows, id)
  }

  /** The rows after a batch are those the service leaves, and none of its claims is left. */
  ghost predicate LeftByBatch(s: System, ids: seq<nat>, w: World) {
    var next := After(s, BatchSteps(s.rows, ids, w));
    next.rows == DeliveredEach(s.rows, ids, w).rows && next.claims == s.claims - ClaimsOf(s.rows, ids)
  }

  lemma {:induction false} BatchIsSteps(s: System, ids: seq<nat>, w: World)
    requires NoRepeats(ids) && Holds(s, s.rows, ids)
    ensures LeftByBatch(s, ids, w)
  {
    if ids == [] {
      assert forall c :: c in ClaimsOf(s.rows, ids) <==> c in {};
    } else {
      var init, id := ids[..|ids| - 1], ids[|ids| - 1];
      assert ids == init + [id] && id !in init && forall j :: j in init ==> j in ids;
      assert id in ids && Holds(s, s.rows, init);
      BatchIsSteps(s, init, w);
      BatchOneMore(s, init, id, w);
    }
  }

  lemma BatchClaimsOneMore(rows: seq<Delivery>, init: seq<nat>, id: nat)
    requires id < |rows| && id !in init
    ensures ClaimOf(rows, id) !in ClaimsOf(rows, init)
            && ClaimsOf(rows, init + [id]) == ClaimsOf(rows, init) + {ClaimOf(rows, id)}
  {
    assert id in init + [id] && forall j :: j in init ==> j in init + [id];
  }

  /** One more claim is taken up, or lost with the worker. */
  function MoreSteps(rows: seq<Delivery>, init: seq<nat>, id: nat, w: World): seq<Step>
    requires id < |rows|
  {
    if DeliveredEach(rows, init, w).escaped.Some? then [Lose(ClaimOf(rows, id), w.later(id))]
    else StepsFor(ClaimOf(rows, id), w)
  }

  lemma OneMoreInBatch(rows: seq<Delivery>, init: seq<nat>, id: nat, w: World)
    requires id < |rows|
    ensures BatchSteps(rows, init + [id], w) == BatchSteps(rows, init, w) + MoreSteps(rows, init, id, w)
    ensures |DeliveredEach(rows, init, w).rows| == |rows|
    ensures var before := DeliveredEach(rows, init, w);
            DeliveredEach(rows, init + [id], w)
            == if before.escaped.Some? then before
               else Batch(before.rows[id := Attempted(before.rows[id], id, w)], Escapes(id, w))
  {
    assert (init + [id])[..|init|] == init;
    DeliveredEachKeepsRows(rows, init, w);
    hide StepsFor, Attempted, Escapes;
  }

  lemma BatchOneMore(s: System, init: seq<nat>, id: nat, w: World)
    requires LeftByBatch(s, init, w) && Holds(s, s.rows, init + [id]) && id !in init
    ensures LeftByBatch(s, init + [id], w)
  {
    var before := After(s, BatchSteps(s.rows, init, w));
    assert id in init + [id];
    BatchClaimsOneMore(s.rows, init, id);
    OneMoreInBatch(s.rows, init, id, w);
    AfterTogether(s, BatchSteps(s.rows, init, w), MoreSteps(s.rows, init, id, w));
    MoreAmounts(s.rows, before, init, id, w);
    hide After, BatchSteps, DeliveredEach, MoreSteps, ClaimsOf;
  }

  lemma MoreAmounts(rows: seq<Delivery>, before: System, init: seq<nat>, id: nat, w: World)
    requires id < |rows| == |before.rows|
    requires ClaimOf(rows, id) in before.claims && before.claims[ClaimOf(rows, id)] == Held
    ensures var d := before.rows[id];
            Amounts(before, After(before, MoreSteps(rows, init, id, w)), ClaimOf(rows, id),
                    if DeliveredEach(rows, init, w).escaped.Some? then d else Attempted(d, id, w))
  {
    var c := ClaimOf(rows, id);
    if DeliveredEach(rows, init, w).escaped.Some? {
      OneStep(before, Lose(c, w.later(id)));
    } else {
      StepsAmount(before, c, w);
    }
  }

  lemma ClaimsAreHeld(s: System, now: int, locked: set<nat>, limit: nat)
    ensures var ids, held := PickDue(s.rows, now, locked, limit), Next(s, ClaimDue(now, locked, limit));
            Holds(held, held.rows, ids) && NoRepeats(ids)
  {
    var ids, claimed := PickDue(s.rows, now, locked, limit), Claimed(s.rows, now, locked, limit);
    DueQualify(s.rows, now, locked, limit);
    forall id | id in ids
      ensures id < |claimed| && ClaimOf(claimed, id) in NewClaims(s.rows, ids)
      ensures NewClaims(s.rows, ids)[ClaimOf(claimed, id)] == Held
    {
      hide PickDue;
      assert claimed[id] == Claim(s.rows[id]);
    }
    hide PickDue, Claimed, NewClaims, ClaimOf;
  }

  /** One call of the service is a run of steps: the claim, and what the worker does with each of its claims. */
  lemma DeliverDueIsARun(s: System, now: int, locked: set<nat>, limit: nat, w: World)
    ensures var ids, claimed := PickDue(s.rows, now, locked, limit), Claimed(s.rows, now, locked, limit);
            var next := After(s, [ClaimDue(now, locked, limit)] + BatchSteps(claimed, ids, w));
            next.rows == DeliveredEach(claimed, ids, w).rows
  {
    var ids, claim := PickDue(s.rows, now, locked, limit), ClaimDue(now, locked, limit);
    var held := Next(s, claim);
    OneStep(s, claim);
    ClaimsAreHeld(s, now, locked, limit);
    BatchIsSteps(held, ids, w);
    AfterTogether(s, [claim], BatchSteps(held.rows, ids, w));
  }
}
