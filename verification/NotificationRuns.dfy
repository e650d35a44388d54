/** Delivery safety: any interleaving of workers, sends and finalisations that succeed or raise, and crashes. */
module NotificationRuns {
  import opened Wrappers
  import opened RowClaims
  import opened Notifications

  /** A claim: the row, and which of its attempts it is. */
  datatype Token = Token(row: nat, attempt: nat)

  /**
   * A worker has claimed the row; its send was accepted; or sending or finalising raised, which it is
   * about to record.
   */
  datatype Phase = Held | Accepted(code: int) | Refused(error: string)

  /**
   * What is recorded. A send counts as accepted if the worker saw it accepted: one that times out after the
   * receiver took it counts as not.
   */
  datatype Happening =
    | Claiming(id: nat, at: int)
    | Sending(id: nat, at: int, accepted: bool)
    | Losing(id: nat, at: int)
    | Failing(id: nat, at: int)
    | Delivering(id: nat, at: int)

  /** The table, the claims workers are working on, and what has happened. */
  datatype System = System(rows: seq<Delivery>, claims: map<Token, Phase>, log: seq<Happening>)

  /**
   * `Raise` is a finalisation of an accepted send that raises, before or after it is committed; a claim in
   * that state is finalised again, as a failure. `Lose` is a worker that crashes while holding a claim.
   */
  datatype Step =
    | Enqueue(channels: seq<string>, event: string, now: int)
    | ClaimDue(now: int, locked: set<nat>, limit: nat)
    | Send(claim: Token, now: int, sent: Sent)
    | Raise(claim: Token, now: int, error: string, committed: bool)
    | Finalize(claim: Token, now: int)
    | Lose(claim: Token, now: int)

  const EMPTY := System([], map[], [])

  function Claimings(ids: seq<nat>, at: int): (r: seq<Happening>)
    ensures |r| == |ids| && forall k :: 0 <= k < |r| ==> r[k] == Claiming(ids[k], at)
  {
    seq(|ids|, k requires 0 <= k < |ids| => Claiming(ids[k], at))
  }

  function NewClaims(rows: seq<Delivery>, ids: seq<nat>): map<Token, Phase> {
    map i: nat | i in ids && i < |rows| :: Token(i, rows[i].attempts + 1) := Held
  }

  /** Finalising is recorded only while the row is in progress. */
  function Outcome(d: Delivery, id: nat, now: int, sent: Sent): seq<Happening> {
    if d.status != Processing then []
    else match sent case Success(_) => [Delivering(id, now)] case Failure(_) => [Failing(id, now)]
  }

  function PhaseAfter(sent: Sent): Phase {
    match sent case Success(code) => Accepted(code) case Failure(error) => Refused(error)
  }

  /** What a claim is finalised as. */
  function Finding(phase: Phase): Sent
    requires phase != Held
  {
    match phase case Accepted(code) => Success(code) case Refused(error) => Failure(error)
  }

  predicate Works(s: System, c: Token) { c in s.claims && c.row < |s.rows| }

  /** A change to the row of one claim. */
  function Touched(s: System, c: Token, d: Delivery, claims: map<Token, Phase>, log: seq<Happening>): System
    requires c.row < |s.rows|
  {
    System(s.rows[c.row := d], claims, s.log + log)
  }

  function Next(s: System, step: Step): System {
    match step
    case Enqueue(channels, event, now) => s.(rows := Enqueued(s.rows, channels, event, now))
    case ClaimDue(now, locked, limit) =>
      var ids := PickDue(s.rows, now, locked, limit);
      System(Claimed(s.rows, now, locked, limit), s.claims + NewClaims(s.rows, ids), s.log + Claimings(ids, now))
    case Send(c, now, sent) =>
      if Works(s, c) && s.claims[c] == Held
      then Touched(s, c, s.rows[c.row], s.claims[c := PhaseAfter(sent)], [Sending(c.row, now, sent.Success?)])
      else s
    case Raise(c, now, error, committed) =>
      if Works(s, c) && s.claims[c].Accepted?
      then
        var sent := Success(s.claims[c].code);
        if committed
        then Touched(s, c, Finalised(s.rows[c.row], now, sent), s.claims[c := Refused(error)],
                     Outcome(s.rows[c.row], c.row, now, sent))
        else Touched(s, c, s.rows[c.row], s.claims[c := Refused(error)], [Losing(c.row, now)])
      else s
    case Finalize(c, now) =>
      if Works(s, c) && s.claims[c] != Held
      then
        var sent := Finding(s.claims[c]);
        Touched(s, c, Finalised(s.rows[c.row], now, sent), s.claims - {c}, Outcome(s.rows[c.row], c.row, now, sent))
      else s
    case Lose(c, now) => s.(claims := s.claims - {c})
  }

  function After(s: System, steps: seq<Step>): System {
    if steps == [] then s else Next(After(s, steps[..|steps| - 1]), steps[|steps| - 1])
  }

  function Run(steps: seq<Step>): System { After(EMPTY, steps) }

  lemma OneMoreStep(s: System, steps: seq<Step>, step: Step)
    ensures After(s, steps + [step]) == Next(After(s, steps), step)
  {
    assert (steps + [step])[..|steps|] == steps;
  }

  lemma {:induction false} AfterTogether(s: System, first: seq<Step>, second: seq<Step>)
    ensures After(s, first + second) == After(After(s, first), second)
  {
    if second == [] {
      assert first + second == first;
    } else {
      var n := |second| - 1;
      assert first + second == (first + second[..n]) + [second[n]] && second == second[..n] + [second[n]];
      AfterTogether(s, first, second[..n]);
      OneMoreStep(s, first + second[..n], second[n]);
    }
  }

  ghost predicate Forward(steps: seq<Step>) {
    forall i, j :: 0 <= i <= j < |steps| ==> steps[i].now <= steps[j].now
  }

  // ---------------------------------------------------------------- reading the log

  /**
   * What has happened to one row: the times of its claims, sends, accepted sends, lost finalisations,
   * failures and deliveries.
   */
  datatype Story = Story(
    claims: seq<int>, sends: seq<int>, accepted: seq<int>, lost: seq<int>, failures: seq<int>, deliveries: seq<int>)

  const UNTOLD := Story([], [], [], [], [], [])

  function Told(story: Story, h: Happening, id: nat): Story {
    if h.id != id then story
    else
      match h
      case Claiming(_, at) => story.(claims := story.claims + [at])
      case Sending(_, at, accepted) =>
        story.(sends := story.sends + [at], accepted := if accepted then story.accepted + [at] else story.accepted)
      case Losing(_, at) => story.(lost := story.lost + [at])
      case Failing(_, at) => story.(failures := story.failures + [at])
      case Delivering(_, at) => story.(deliveries := story.deliveries + [at])
  }

  function StoryOf(log: seq<Happening>, id: nat): Story {
    if log == [] then UNTOLD else Told(StoryOf(log[..|log| - 1], id), log[|log| - 1], id)
  }

  lemma StoryOneMore(log: seq<Happening>, h: Happening, id: nat)
    ensures StoryOf(log + [h], id) == Told(StoryOf(log, id), h, id)
  {
    assert (log + [h])[..|log|] == log;
  }

  lemma {:induction false} ClaimedOnce(log: seq<Happening>, ids: seq<nat>, at: int, id: nat)
    requires NoRepeats(ids)
    ensures var was := StoryOf(log, id);
            StoryOf(log + Claimings(ids, at), id) == if id in ids then was.(claims := was.claims + [at]) else was
  {
    if ids == [] {
      assert log + Claimings(ids, at) == log;
    } else {
      var init, last := ids[..|ids| - 1], ids[|ids| - 1];
      assert ids == init + [last];
      assert log + Claimings(ids, at) == (log + Claimings(init, at)) + [Claiming(last, at)];
      ClaimedOnce(log, init, at, id);
      StoryOneMore(log + Claimings(init, at), Claiming(last, at), id);
    }
  }

  // ---------------------------------------------------------------- what one row keeps

  /** The waiting that the first n failures impose. */
  function Waited(n: nat): int { if n == 0 then 0 else Waited(n - 1) + Backoff(n) }

  lemma Waits()
    ensures Waited(1) == 10 * SECOND && Waited(2) == 30 * SECOND && Waited(3) == 70 * SECOND
            && Waited(4) == 150 * SECOND
  {
    assert Power(1) == 2 && Power(2) == 4 && Power(3) == 8 && Power(4) == 16;
  }

  /** A row agrees with its story, by the time of the clock. */
  ghost predicate RowSound(d: Delivery, story: Story, clock: int) {
    var Story(claims, sends, accepted, lost, failures, deliveries) := story;
    && d.attempts == |claims| <= 5 && |accepted| <= |sends| <= d.attempts && |accepted| <= |lost| + 1
    && (failures != [] ==> failures[|failures| - 1] <= clock)
    && match d.status
       case Pending => d.attempts == 0 && failures == [] && deliveries == []
       case Processing =>
         && 1 <= d.attempts && |failures| == d.attempts - 1 && deliveries == []
         && (d.attempts >= 2 ==> clock >= failures[0] + Waited(d.attempts - 1))
       case Retry =>
         && 1 <= d.attempts <= 4 && |failures| == d.attempts && deliveries == [] && |accepted| <= |lost|
         && d.next >= failures[0] + Waited(d.attempts)
       case Delivered => 1 <= d.attempts && |failures| == d.attempts - 1 && |deliveries| == 1 && accepted != []
       case Failed =>
         && d.attempts == 5 && |failures| == 5 && deliveries == [] && |accepted| <= |lost|
         && failures[4] >= failures[0] + Waited(4)
  }

  /** A claim is of the row's last attempt, and the row has not been settled but by a finalisation that then raised. */
  ghost predicate PhaseSound(d: Delivery, story: Story, attempt: nat, phase: Phase) {
    && attempt == d.attempts
    && match phase
       case Held => d.status == Processing && |story.sends| < d.attempts && |story.accepted| <= |story.lost|
       case Accepted(_) => d.status == Processing && story.accepted != []
       case Refused(_) => (d.status == Processing && |story.accepted| <= |story.lost|) || d.status == Delivered
  }

  ghost predicate SoundAt(s: System, clock: int, i: nat) {
    if i < |s.rows| then RowSound(s.rows[i], StoryOf(s.log, i), clock) else StoryOf(s.log, i) == UNTOLD
  }

  ghost predicate ClaimSound(s: System, c: Token) {
    c in s.claims && c.row < |s.rows| && PhaseSound(s.rows[c.row], StoryOf(s.log, c.row), c.attempt, s.claims[c])
  }

  ghost predicate Sound(s: System, clock: int) {
    (forall i: nat :: SoundAt(s, clock, i)) && (forall c :: c in s.claims ==> ClaimSound(s, c))
  }

  lemma ClaimKeepsRow(d: Delivery, story: Story, clock: int, now: int)
    requires RowSound(d, story, clock) && clock <= now && IsDue(d, now)
    ensures var after := story.(claims := story.claims + [now]);
            RowSound(Claim(d), after, now) && PhaseSound(Claim(d), after, d.attempts + 1, Held)
  {
  }

  lemma SendKeepsRow(d: Delivery, story: Story, clock: int, now: int, id: nat, attempt: nat, sent: Sent)
    requires RowSound(d, story, clock) && PhaseSound(d, story, attempt, Held) && clock <= now
    ensures var after := Told(story, Sending(id, now, sent.Success?), id);
            RowSound(d, after, now) && PhaseSound(d, after, attempt, PhaseAfter(sent))
  {
  }

  /** A finalisation that raises before its commit is counted as lost. */
  lemma LossKeepsRow(d: Delivery, story: Story, clock: int, now: int, id: nat, attempt: nat, code: int, error: string)
    requires RowSound(d, story, clock) && PhaseSound(d, story, attempt, Accepted(code)) && clock <= now
    ensures var after := Told(story, Losing(id, now), id);
            RowSound(d, after, now) && PhaseSound(d, after, attempt, Refused(error))
  {
  }

  lemma FinaliseKeepsRow(d: Delivery, story: Story, clock: int, now: int, id: nat, attempt: nat, phase: Phase)
    requires RowSound(d, story, clock) && phase != Held && PhaseSound(d, story, attempt, phase) && clock <= now
    ensures var sent := Finding(phase);
            var after := if d.status != Processing then story
                         else Told(story, if sent.Success? then Delivering(id, now) else Failing(id, now), id);
            && RowSound(Finalised(d, now, sent), after, now)
            && (sent.Success? ==> forall error :: PhaseSound(Finalised(d, now, sent), after, attempt, Refused(error)))
  {
    assert d.attempts >= 1 && Waited(d.attempts) == Waited(d.attempts - 1) + Backoff(d.attempts);
    assert Waited(0) == 0;
  }

  lemma LaterKeepsRow(d: Delivery, story: Story, clock: int, now: int)
    requires RowSound(d, story, clock) && clock <= now
    ensures RowSound(d, story, now)
  {
  }

  // ---------------------------------------------------------------- what every step keeps

  /** Time alone, and dropping a claim, keep everything. */
  lemma DroppingKeeps(s: System, claims: map<Token, Phase>, clock: int, now: int)
    requires Sound(s, clock) && clock <= now && forall c :: c in claims ==> c in s.claims && claims[c] == s.claims[c]
    ensures Sound(s.(claims := claims), now)
  {
    forall i: nat ensures SoundAt(s.(claims := claims), now, i) {
      assert SoundAt(s, clock, i);
      if i < |s.rows| {
        LaterKeepsRow(s.rows[i], StoryOf(s.log, i), clock, now);
      }
    }
    forall c | c in claims ensures ClaimSound(s.(claims := claims), c) {
      assert ClaimSound(s, c);
    }
  }

  /** A change to the row of one claim that suits row and claim keeps everything. */
  lemma TouchingKeeps(
      s: System, c: Token, d: Delivery, claims: map<Token, Phase>, log: seq<Happening>, clock: int, now: int)
    requires Sound(s, clock) && clock <= now && Works(s, c) && d.attempts == s.rows[c.row].attempts
    requires |log| <= 1 && forall h :: h in log ==> h.id == c.row
    requires forall o :: o != c ==> (o in claims <==> o in s.claims) && (o in claims ==> claims[o] == s.claims[o])
    requires var after := if log == [] then StoryOf(s.log, c.row) else Told(StoryOf(s.log, c.row), log[0], c.row);
             RowSound(d, after, now) && (c in claims ==> PhaseSound(d, after, c.attempt, claims[c]))
    ensures Sound(Touched(s, c, d, claims, log), now)
  {
    var next := Touched(s, c, d, claims, log);
    forall i: nat
      ensures StoryOf(next.log, i) == if log == [] then StoryOf(s.log, i) else Told(StoryOf(s.log, i), log[0], i)
    {
      if log == [] {
        assert s.log + log == s.log;
      } else {
        assert log == [log[0]];
        StoryOneMore(s.log, log[0], i);
      }
    }
    hide RowSound, PhaseSound, StoryOf;
    forall i: nat ensures SoundAt(next, now, i) {
      assert SoundAt(s, clock, i);
      assert log != [] ==> log[0] in log;
      if i < |s.rows| && i != c.row {
        LaterKeepsRow(s.rows[i], StoryOf(s.log, i), clock, now);
      }
    }
    forall o | o in claims ensures ClaimSound(next, o) {
      if o != c {
        assert ClaimSound(s, o) && ClaimSound(s, c);
        OneClaimPerRow(s, clock, o, c);
        assert log != [] ==> log[0] in log;
      }
    }
  }

  /** No two claims are of the same row. */
  lemma OneClaimPerRow(s: System, clock: int, c: Token, o: Token)
    requires Sound(s, clock) && c in s.claims && o in s.claims
    ensures c.row == o.row ==> c == o
  {
    assert ClaimSound(s, c) && ClaimSound(s, o);
  }

  lemma {:induction false} EnqueuedExtends(rows: seq<Delivery>, channels: seq<string>, event: string, now: int)
    ensures var next := Enqueued(rows, channels, event, now);
            && |next| >= |rows| && next[..|rows|] == rows
            && forall i :: |rows| <= i < |next| ==> next[i].status == Pending && next[i].attempts == 0
  {
    if channels != [] {
      EnqueuedExtends(rows, channels[..|channels| - 1], event, now);
    }
  }

  lemma EnqueueKeeps(s: System, clock: int, step: Step)
    requires Sound(s, clock) && step.Enqueue? && clock <= step.now
    ensures Sound(Next(s, step), step.now)
  {
    var next := Next(s, step);
    EnqueuedExtends(s.rows, step.channels, step.event, step.now);
    hide Enqueued;
    assert forall i :: 0 <= i < |s.rows| ==> next.rows[i] == s.rows[i];
    forall i: nat ensures SoundAt(next, step.now, i) {
      assert SoundAt(s, clock, i);
      if i < |s.rows| {
        LaterKeepsRow(s.rows[i], StoryOf(s.log, i), clock, step.now);
      }
    }
    forall c | c in next.claims ensures ClaimSound(next, c) {
      assert ClaimSound(s, c);
    }
  }

  lemma ClaimKeepsRowAt(s: System, clock: int, step: Step, i: nat)
    requires Sound(s, clock) && step.ClaimDue? && clock <= step.now
    ensures SoundAt(Next(s, step), step.now, i)
    ensures i in PickDue(s.rows, step.now, step.locked, step.limit) ==>
              i < |s.rows|
              && PhaseSound(Next(s, step).rows[i], StoryOf(Next(s, step).log, i), s.rows[i].attempts + 1, Held)
  {
    var ids := PickDue(s.rows, step.now, step.locked, step.limit);
    DueQualify(s.rows, step.now, step.locked, step.limit);
    ClaimedOnce(s.log, ids, step.now, i);
    assert SoundAt(s, clock, i);
    hide PickDue, RowSound, PhaseSound, StoryOf;
    if i < |s.rows| {
      if i in ids {
        ClaimKeepsRow(s.rows[i], StoryOf(s.log, i), clock, step.now);
      } else {
        LaterKeepsRow(s.rows[i], StoryOf(s.log, i), clock, step.now);
      }
    }
  }

  /** A row that is due has no claim left. */
  lemma DueIsUnclaimed(s: System, clock: int, c: Token, now: int)
    requires Sound(s, clock) && c in s.claims
    ensures c.row < |s.rows| && !IsDue(s.rows[c.row], now)
  {
    assert ClaimSound(s, c);
  }

  lemma ClaimKeeps(s: System, clock: int, step: Step)
    requires Sound(s, clock) && step.ClaimDue? && clock <= step.now
    ensures Sound(Next(s, step), step.now)
  {
    var ids, next := PickDue(s.rows, step.now, step.locked, step.limit), Next(s, step);
    DueQualify(s.rows, step.now, step.locked, step.limit);
    forall i: nat ensures SoundAt(next, step.now, i) {
      ClaimKeepsRowAt(s, clock, step, i);
    }
    forall c | c in next.claims ensures ClaimSound(next, c) {
      ClaimKeepsClaimAt(s, clock, step, c);
    }
  }

  lemma ClaimKeepsClaimAt(s: System, clock: int, step: Step, c: Token)
    requires Sound(s, clock) && step.ClaimDue? && clock <= step.now && c in Next(s, step).claims
    ensures ClaimSound(Next(s, step), c)
  {
    var ids, next := PickDue(s.rows, step.now, step.locked, step.limit), Next(s, step);
    DueQualify(s.rows, step.now, step.locked, step.limit);
    ClaimKeepsRowAt(s, clock, step, c.row);
    hide PickDue, PhaseSound, RowSound, StoryOf;
    if c !in NewClaims(s.rows, ids) {
      assert ClaimSound(s, c);
      DueIsUnclaimed(s, clock, c, step.now);
      ClaimedOnce(s.log, ids, step.now, c.row);
    }
  }

  lemma SendKeeps(s: System, clock: int, step: Step)
    requires Sound(s, clock) && step.Send? && clock <= step.now
    ensures Sound(Next(s, step), step.now)
  {
    var c := step.claim;
    if Works(s, c) && s.claims[c] == Held {
      assert ClaimSound(s, c) && SoundAt(s, clock, c.row);
      SendKeepsRow(s.rows[c.row], StoryOf(s.log, c.row), clock, step.now, c.row, c.attempt, step.sent);
      hide RowSound, PhaseSound, StoryOf;
      TouchingKeeps(s, c, s.rows[c.row], s.claims[c := PhaseAfter(step.sent)],
                    [Sending(c.row, step.now, step.sent.Success?)], clock, step.now);
    } else {
      DroppingKeeps(s, s.claims, clock, step.now);
    }
  }

  lemma RaiseKeeps(s: System, clock: int, step: Step)
    requires Sound(s, clock) && step.Raise? && clock <= step.now
    ensures Sound(Next(s, step), step.now)
  {
    var c := step.claim;
    if Works(s, c) && s.claims[c].Accepted? {
      assert ClaimSound(s, c) && SoundAt(s, clock, c.row);
      var d, story, code := s.rows[c.row], StoryOf(s.log, c.row), s.claims[c].code;
      var claims := s.claims[c := Refused(step.error)];
      if step.committed {
        assert d.status == Processing;
        FinaliseKeepsRow(d, story, clock, step.now, c.row, c.attempt, s.claims[c]);
        hide RowSound, PhaseSound, StoryOf;
        TouchingKeeps(s, c, Finalised(d, step.now, Success(code)), claims,
                      Outcome(d, c.row, step.now, Success(code)), clock, step.now);
      } else {
        LossKeepsRow(d, story, clock, step.now, c.row, c.attempt, code, step.error);
        hide RowSound, PhaseSound, StoryOf;
        TouchingKeeps(s, c, d, claims, [Losing(c.row, step.now)], clock, step.now);
      }
    } else {
      DroppingKeeps(s, s.claims, clock, step.now);
    }
  }

  lemma FinalizeKeeps(s: System, clock: int, step: Step)
    requires Sound(s, clock) && step.Finalize? && clock <= step.now
    ensures Sound(Next(s, step), step.now)
  {
    var c := step.claim;
    if Works(s, c) && s.claims[c] != Held {
      assert ClaimSound(s, c) && SoundAt(s, clock, c.row);
      var d, sent := s.rows[c.row], Finding(s.claims[c]);
      FinaliseKeepsRow(d, StoryOf(s.log, c.row), clock, step.now, c.row, c.attempt, s.claims[c]);
      hide RowSound, PhaseSound, StoryOf;
      TouchingKeeps(s, c, Finalised(d, step.now, sent), s.claims - {c},
                    Outcome(d, c.row, step.now, sent), clock, step.now);
    } else {
      DroppingKeeps(s, s.claims, clock, step.now);
    }
  }

  lemma StepKeeps(s: System, clock: int, step: Step)
    requires Sound(s, clock) && clock <= step.now
    ensures Sound(Next(s, step), step.now)
  {
    match step {
      case Enqueue(_, _, _) => EnqueueKeeps(s, clock, step);
      case ClaimDue(_, _, _) => ClaimKeeps(s, clock, step);
      case Send(_, _, _) => SendKeeps(s, clock, step);
      case Raise(_, _, _, _) => RaiseKeeps(s, clock, step);
      case Finalize(_, _) => FinalizeKeeps(s, clock, step);
      case Lose(c, _) => DroppingKeeps(s, s.claims - {c}, clock, step.now);
    }
  }

  /** In every reachable state every row and every claim agree with the row's history. */
  lemma {:induction false} RunsAreSound(steps: seq<Step>)
    requires Forward(steps) && steps != []
    ensures Sound(Run(steps), steps[|steps| - 1].now)
  {
    var init, step := steps[..|steps| - 1], steps[|steps| - 1];
    if init != [] {
      RunsAreSound(init);
      StepKeeps(Run(init), init[|init| - 1].now, step);
    } else {
      assert Run(init) == EMPTY && forall i: nat :: StoryOf(EMPTY.log, i) == UNTOLD;
      StepKeeps(EMPTY, step.now, step);
    }
  }

  ghost predicate HasClaim(s: System, i: nat) {
    exists c :: c in s.claims && c.row == i
  }

  /**
   * A notification has at most one unfinalised claim, at most five attempts, and is sent at most once for
   * each. It becomes DELIVERED only after a send was accepted, and at most once; a send is accepted again
   * only after the finalisation of one was lost. It becomes FAILED no sooner than 150 seconds after its
   * first failure.
   */
  lemma {:induction false} DeliveryIsSafe(steps: seq<Step>, i: nat)
    requires Forward(steps) && steps != [] && i < |Run(steps).rows|
    ensures var s := Run(steps);
            var d, story := s.rows[i], StoryOf(s.log, i);
            && (forall c, o :: c in s.claims && o in s.claims && c.row == o.row ==> c == o)
            && |story.accepted| <= |story.sends| <= d.attempts == |story.claims| <= 5
            && |story.accepted| <= |story.lost| + 1
            && |story.deliveries| == (if d.status == Delivered then 1 else 0)
            && (d.status == Delivered ==> story.accepted != [])
            && (d.status == Failed ==> |story.failures| == 5 && story.failures[4] - story.failures[0] >= 150 * SECOND)
  {
    var s, clock := Run(steps), steps[|steps| - 1].now;
    RunsAreSound(steps);
    Waits();
    assert SoundAt(s, clock, i);
    forall c, o | c in s.claims && o in s.claims && c.row == o.row ensures c == o {
      OneClaimPerRow(s, clock, c, o);
    }
  }

  // ---------------------------------------------------------------- what is never left

  predicate SettledRow(d: Delivery) { d.status == Delivered || d.status == Failed }

  ghost predicate Stuck(s: System, i: nat)
    requires i < |s.rows|
  {
    s.rows[i].status == Processing && !HasClaim(s, i)
  }

  /** DELIVERED and FAILED are never left, nor is a row with a lost claim ever touched again. */
  lemma StepSparesSettled(s: System, step: Step, i: nat)
    requires i < |s.rows| && (SettledRow(s.rows[i]) || Stuck(s, i))
    ensures i < |Next(s, step).rows| && Next(s, step).rows[i] == s.rows[i]
    ensures Stuck(s, i) ==> Stuck(Next(s, step), i)
  {
    var next := Next(s, step);
    match step {
      case Enqueue(channels, event, now) => EnqueuedExtends(s.rows, channels, event, now);
      case ClaimDue(now, locked, limit) =>
        DueQualify(s.rows, now, locked, limit);
        assert i !in PickDue(s.rows, now, locked, limit);
      case Send(_, _, _) =>
      case Raise(_, _, _, _) =>
      case Finalize(_, _) =>
      case Lose(_, _) =>
    }
    if Stuck(s, i) {
      forall c | c in next.claims ensures c.row != i {
        assert c in s.claims ==> c.row != i;
      }
    }
  }

  lemma {:induction false} SettledStays(steps: seq<Step>, more: seq<Step>, i: nat)
    requires i < |Run(steps).rows| && (SettledRow(Run(steps).rows[i]) || Stuck(Run(steps), i))
    ensures i < |Run(steps + more).rows| && Run(steps + more).rows[i] == Run(steps).rows[i]
    ensures Stuck(Run(steps), i) ==> Stuck(Run(steps + more), i)
  {
    if more == [] {
      assert steps + more == steps;
    } else {
      var n := |more| - 1;
      assert steps + more == (steps + more[..n]) + [more[n]];
      SettledStays(steps, more[..n], i);
      OneMoreStep(EMPTY, steps + more[..n], more[n]);
      StepSparesSettled(Run(steps + more[..n]), more[n], i);
    }
  }

  // ---------------------------------------------------------------- queueing once, and getting a turn

  ghost predicate Unique(rows: seq<Delivery>) {
    forall i, j :: 0 <= i < j < |rows| ==> rows[i].channel != rows[j].channel || rows[i].event != rows[j].event
  }

  ghost predicate SameTargets(rows: seq<Delivery>, next: seq<Delivery>) {
    |next| == |rows| && forall i :: 0 <= i < |rows| ==>
        next[i].channel == rows[i].channel && next[i].event == rows[i].event
  }

  lemma SameTargetsAfter(s: System, step: Step)
    requires !step.Enqueue?
    ensures SameTargets(s.rows, Next(s, step).rows)
  {
  }

  lemma {:induction false} EnqueueKeepsUnique(rows: seq<Delivery>, channels: seq<string>, event: string, now: int)
    requires Unique(rows)
    ensures Unique(Enqueued(rows, channels, event, now))
    ensures forall c :: c in channels ==> IsQueued(Enqueued(rows, channels, event, now), c, event)
  {
    if channels != [] {
      var init, last := channels[..|channels| - 1], channels[|channels| - 1];
      assert channels == init + [last];
      EnqueueKeepsUnique(rows, init, event, now);
      var before, next := Enqueued(rows, init, event, now), Enqueued(rows, channels, event, now);
      forall c | c in channels ensures IsQueued(next, c, event) {
        if c in init {
          var i :| 0 <= i < |before| && before[i].channel == c && before[i].event == event;
          assert next[i] == before[i];
        } else if !IsQueued(before, last, event) {
          assert next[|before|].channel == c;
        }
      }
    }
  }

  /** Each channel gets a row for an event once, however often and concurrently it is offered. */
  lemma {:induction false} QueuedOnce(steps: seq<Step>)
    ensures Unique(Run(steps).rows)
  {
    if steps != [] {
      var s, step := Run(steps[..|steps| - 1]), steps[|steps| - 1];
      QueuedOnce(steps[..|steps| - 1]);
      if step.Enqueue? {
        EnqueueKeepsUnique(s.rows, step.channels, step.event, step.now);
      } else {
        SameTargetsAfter(s, step);
      }
    }
  }

  /** A row that is due and free is claimed, or the batch was filled with rows due no later. */
  lemma DueIsClaimed(s: System, now: int, locked: set<nat>, limit: nat, i: nat)
    requires i < |s.rows| && IsDue(s.rows[i], now) && i !in locked
    ensures var ids := PickDue(s.rows, now, locked, limit);
            if i in ids then Next(s, ClaimDue(now, locked, limit)).rows[i] == Claim(s.rows[i])
            else |ids| == limit && forall j :: j in ids ==> j < |s.rows| && s.rows[j].next <= s.rows[i].next
  {
    if i !in PickDue(s.rows, now, locked, limit) {
      PassedOver(s.rows, Due(now), NEXT, locked, limit, i);
    }
  }
}
