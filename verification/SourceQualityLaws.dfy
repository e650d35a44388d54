/** What a source's record says about the whole history of the source. */
module SourceQualityLaws {
  import opened Wrappers
  import opened SourceQualities

  datatype Event = Seen(o: Observation) | WentIdle

  function Next(threshold: int, q: Quality, e: Event): Quality {
    match e case Seen(o) => Observed(threshold, q, o) case WentIdle => MarkedIdle(q)
  }

  function Run(threshold: int, events: seq<Event>): Quality {
    if events == [] then STARTING else Next(threshold, Run(threshold, events[..|events| - 1]), events[|events| - 1])
  }

  // ---------------------------------------------------------------- sequences

  /** The sequence numbers of a history, in order of arrival. */
  function Sequences(events: seq<Event>): seq<int> {
    if events == [] then []
    else
      var e := events[|events| - 1];
      Sequences(events[..|events| - 1]) + (if e.Seen? && e.o.sequence.Some? then [e.o.sequence.value] else [])
  }

  /** The sequences are accounted for: by steps forward, by repeats that go nowhere and by what was skipped. */
  predicate Balanced(q: Quality, numbers: seq<int>) {
    if numbers == [] then q.lastSequence == None && q.gaps == 0 && q.outOfOrder == 0
    else q.lastSequence.Some? && q.lastSequence.value - numbers[0] == (|numbers| - 1 - q.outOfOrder) + q.gaps
  }

  /** The one case in which a repeat moves the last sequence: a negative number after zero. */
  predicate DropsBelowZero(q: Quality, o: Observation) {
    q.lastSequence == Some(0) && o.sequence.Some? && o.sequence.value < 0
  }

  /** From a balanced record one more observation keeps the balance exactly unless it drops below zero. */
  lemma BalanceStaysIff(threshold: int, q: Quality, numbers: seq<int>, o: Observation)
    requires Balanced(q, numbers)
    ensures Balanced(Observed(threshold, q, o), if o.sequence.Some? then numbers + [o.sequence.value] else numbers)
            <==> !DropsBelowZero(q, o)
  {
    if o.sequence.Some? {
      var more := numbers + [o.sequence.value];
      assert numbers != [] ==> more[0] == numbers[0];
    }
  }

  ghost predicate NonNegative(events: seq<Event>) {
    forall e :: e in events && e.Seen? && e.o.sequence.Some? ==> e.o.sequence.value >= 0
  }

  /**
   * Over any history of non-negative sequences, last - first = (sequenced - 1 - out of order) + gaps,
   * and the last sequence is the highest seen.
   */
  lemma {:induction false} SequencesBalance(threshold: int, events: seq<Event>)
    requires NonNegative(events)
    ensures Balanced(Run(threshold, events), Sequences(events))
    ensures Sequences(events) != [] ==>
              var last := Run(threshold, events).lastSequence;
              last.Some? && last.value in Sequences(events) && forall n :: n in Sequences(events) ==> n <= last.value
  {
    if events != [] {
      var init, e := events[..|events| - 1], events[|events| - 1];
      assert events == init + [e];
      SequencesBalance(threshold, init);
      if e.Seen? {
        BalanceStaysIff(threshold, Run(threshold, init), Sequences(init), e.o);
      }
    }
  }

  /** How far the sequences fall short of being accounted for. */
  function Shortfall(q: Quality, numbers: seq<int>): int {
    if numbers == [] || q.lastSequence.None? then 0
    else (|numbers| - 1 - q.outOfOrder) + q.gaps - (q.lastSequence.value - numbers[0])
  }

  /** The record has a last sequence once there is one, and a shortfall, not a surplus. */
  ghost predicate FallsShort(q: Quality, numbers: seq<int>) {
    && (numbers == [] ==> q.lastSequence == None && q.gaps == 0 && q.outOfOrder == 0)
    && (numbers != [] ==> q.lastSequence.Some?) && Shortfall(q, numbers) >= 0
  }

  lemma ShortfallGrows(threshold: int, q: Quality, numbers: seq<int>, o: Observation)
    requires FallsShort(q, numbers)
    ensures var next := Observed(threshold, q, o);
            var more := if o.sequence.Some? then numbers + [o.sequence.value] else numbers;
            && FallsShort(next, more)
            && (if DropsBelowZero(q, o) then Shortfall(next, more) > Shortfall(q, numbers)
                else Shortfall(next, more) == Shortfall(q, numbers))
  {
    if o.sequence.Some? {
      var more := numbers + [o.sequence.value];
      assert numbers != [] ==> more[0] == numbers[0];
    }
  }

  /** The i-th event of the history drops the last sequence below zero. */
  predicate DropsAt(threshold: int, events: seq<Event>, i: nat)
    requires i < |events|
  {
    events[i].Seen? && DropsBelowZero(Run(threshold, events[..i]), events[i].o)
  }

  ghost predicate NeverDrops(threshold: int, events: seq<Event>) {
    forall i :: 0 <= i < |events| ==> !DropsAt(threshold, events, i)
  }

  lemma NeverDropsOneMore(threshold: int, init: seq<Event>, e: Event)
    ensures NeverDrops(threshold, init + [e])
            <==> NeverDrops(threshold, init) && !(e.Seen? && DropsBelowZero(Run(threshold, init), e.o))
  {
    var events := init + [e];
    forall i | 0 <= i < |init| ensures DropsAt(threshold, init, i) <==> DropsAt(threshold, events, i) {
      assert init[..i] == events[..i];
    }
    assert events[..|init|] == init;
    assert DropsAt(threshold, events, |init|) <==> e.Seen? && DropsBelowZero(Run(threshold, init), e.o);
    hide DropsAt;
  }

  lemma {:induction false} ShortfallIff(threshold: int, events: seq<Event>)
    ensures FallsShort(Run(threshold, events), Sequences(events))
    ensures Shortfall(Run(threshold, events), Sequences(events)) == 0 <==> NeverDrops(threshold, events)
  {
    if events != [] {
      var init, e := events[..|events| - 1], events[|events| - 1];
      ShortfallIff(threshold, init);
      assert events == init + [e];
      NeverDropsOneMore(threshold, init, e);
      if e.Seen? {
        ShortfallGrows(threshold, Run(threshold, init), Sequences(init), e.o);
      }
      hide NeverDrops, Observed, DropsBelowZero;
    }
  }

  /**
   * Over any history the sequences are accounted for exactly when no event has dropped the last sequence
   * below zero: once broken, the balance is never restored.
   */
  lemma BalancedIff(threshold: int, events: seq<Event>)
    ensures Balanced(Run(threshold, events), Sequences(events))
            <==> NeverDrops(threshold, events)
  {
    ShortfallIff(threshold, events);
  }

  /** Zero followed by a negative number is out of order and yet becomes the last sequence. */
  lemma NegativesUnbalance(threshold: int, time: int)
    ensures var zero, negative := Observation(time, time, Some(0), false), Observation(time, time, Some(-5), false);
            var events := [Seen(zero), Seen(negative)];
            var q := Run(threshold, events);
            q.lastSequence == Some(-5) && q.outOfOrder == 1 && q.gaps == 0 && !Balanced(q, [0, -5])
  {
    var first, second := Seen(Observation(time, time, Some(0), false)), Seen(Observation(time, time, Some(-5), false));
    assert [first, second][..1] == [first] && [first][..0] == [];
    assert Run(threshold, [first]) == Next(threshold, STARTING, first);
  }

  // ---------------------------------------------------------------- the order book

  datatype Fault = Late | Gap

  /** The observation came in later than the threshold allows; one from the future counts as on time. */
  predicate CameLate(threshold: int, o: Observation) { threshold < 0 || o.ingested - o.time > threshold }

  /** Its sequence is not the one after the last. */
  predicate Jumps(last: Option<int>, o: Observation) {
    o.sequence.Some? && last.Some? && o.sequence.value != last.value + 1
  }

  /** The last fault among the book updates, and how many clean ones came since. */
  datatype Recovery = NeverFaulty | Since(fault: Fault, clean: nat)

  function RecoveryOf(threshold: int, events: seq<Event>): Recovery {
    if events == [] then NeverFaulty
    else
      var init, e := events[..|events| - 1], events[|events| - 1];
      var before := RecoveryOf(threshold, init);
      if !e.Seen? || !e.o.book then before
      else if CameLate(threshold, e.o) then Since(Late, 0)
      else if Jumps(Run(threshold, init).lastSequence, e.o) then Since(Gap, 0)
      else if before.Since? then Since(before.fault, before.clean + 1)
      else NeverFaulty
  }

  function BookAfter(r: Recovery): BookState {
    match r
    case NeverFaulty => Valid
    case Since(fault, clean) =>
      if clean == 0 then (if fault == Late then Stale else GapDetected)
      else if clean == 1 then Resyncing
      else if clean == 2 then Recovered
      else Valid
  }

  /** The order-book state is a function of the history: the last fault and the clean updates since it. */
  lemma {:induction false} BookTellsHistory(threshold: int, events: seq<Event>)
    ensures var q, r := Run(threshold, events), RecoveryOf(threshold, events);
            && q.book == BookAfter(r)
            && q.bookValid == (r == NeverFaulty || r.clean >= 2)
            && q.recoveries == (if r == NeverFaulty then 0 else if r.clean >= 2 then 2 else r.clean)
  {
    if events != [] {
      BookTellsHistory(threshold, events[..|events| - 1]);
    }
  }

  /**
   * A source is degraded just when its last event was an observation that was late, had a gap, or left
   * the book invalid.
   */
  lemma DegradedIff(threshold: int, events: seq<Event>, e: Event)
    ensures Run(threshold, events + [e]).degraded <==>
            e.Seen? && (CameLate(threshold, e.o) || Jumps(Run(threshold, events).lastSequence, e.o)
                        || (e.o.book && RecoveryOf(threshold, events + [e]) != NeverFaulty
                            && RecoveryOf(threshold, events + [e]).clean < 2))
    ensures Run(threshold, events + [e]).status
            == if e.WentIdle? then Idle else if Run(threshold, events + [e]).degraded then Degraded else Healthy
  {
    assert (events + [e])[..|events|] == events;
    BookTellsHistory(threshold, events + [e]);
  }
}
