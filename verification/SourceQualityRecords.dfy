/** Times, activity and sequence counts of a source's record, told by its whole history. */
module SourceQualityRecords {
  import opened Wrappers
  import opened SourceQualities
  import opened SourceQualityLaws

  function Seens(events: seq<Event>): seq<Observation> {
    if events == [] then []
    else Seens(events[..|events| - 1]) + (if events[|events| - 1].Seen? then [events[|events| - 1].o] else [])
  }

  /** The latest time there is among the observations. */
  ghost predicate LatestOf(t: int, obs: seq<Observation>) {
    (exists o :: o in obs && o.time == t) && forall o :: o in obs ==> o.time <= t
  }

  /**
   * The record's event time is the latest of all, and its arrival that of the last observation. The source is
   * active once anything is heard of it, and idle as long as the last thing heard is that it went idle.
   */
  lemma {:induction false} RecordTells(threshold: int, events: seq<Event>)
    ensures var q, obs := Run(threshold, events), Seens(events);
            && (q.lastEvent.None? <==> obs == []) && (q.lastIngested.None? <==> obs == [])
            && (obs != [] ==> LatestOf(q.lastEvent.value, obs) && q.lastIngested.value == obs[|obs| - 1].ingested)
            && (q.active <==> events != []) && (q.status == Starting <==> events == [])
            && (q.idle <==> events != [] && events[|events| - 1].WentIdle?)
            && (q.status == Idle <==> q.idle)
  {
    if events != [] {
      var init, e := events[..|events| - 1], events[|events| - 1];
      RecordTells(threshold, init);
      if e.Seen? {
        var was, obs := Run(threshold, init), Seens(init);
        var t := Observed(threshold, was, e.o).lastEvent.value;
        hide Run, Seens;
        assert LatestOf(t, obs + [e.o]) by {
          if obs == [] || e.o.time >= was.lastEvent.value {
            assert e.o in obs + [e.o];
          } else {
            var o :| o in obs && o.time == was.lastEvent.value;
            assert o in obs + [e.o];
          }
        }
      }
    }
  }

  // ---------------------------------------------------------------- sequences out of order

  /** The k-th number is not above all before it. */
  predicate Returns(numbers: seq<int>, k: nat)
    requires k < |numbers|
  {
    exists j :: 0 <= j < k && numbers[j] >= numbers[k]
  }

  ghost function Returning(numbers: seq<int>): nat {
    if numbers == [] then 0
    else Returning(numbers[..|numbers| - 1]) + (if Returns(numbers, |numbers| - 1) then 1 else 0)
  }

  ghost predicate Highest(last: Option<int>, numbers: seq<int>) {
    && (last.None? <==> numbers == [])
    && (last.Some? ==> last.value in numbers && forall n :: n in numbers ==> n <= last.value)
  }

  lemma ReturnsIff(last: Option<int>, numbers: seq<int>, n: int)
    requires Highest(last, numbers)
    ensures Returns(numbers + [n], |numbers|) <==> last.Some? && n <= last.value
  {
    var more, k := numbers + [n], |numbers|;
    if last.Some? && n <= last.value {
      var j :| 0 <= j < k && numbers[j] == last.value;
      assert more[j] >= more[k];
    } else {
      assert forall j :: 0 <= j < k ==> numbers[j] in numbers && more[j] == numbers[j];
    }
  }

  lemma ReturningOneMore(numbers: seq<int>, n: int)
    ensures Returning(numbers + [n]) == Returning(numbers) + (if Returns(numbers + [n], |numbers|) then 1 else 0)
  {
    assert (numbers + [n])[..|numbers|] == numbers;
  }

  lemma HighestOneMore(threshold: int, q: Quality, numbers: seq<int>, o: Observation)
    requires Highest(q.lastSequence, numbers) && q.outOfOrder == Returning(numbers) && !DropsBelowZero(q, o)
    ensures var next := Observed(threshold, q, o);
            var more := if o.sequence.Some? then numbers + [o.sequence.value] else numbers;
            Highest(next.lastSequence, more) && next.outOfOrder == Returning(more)
  {
    if o.sequence.Some? {
      ReturnsIff(q.lastSequence, numbers, o.sequence.value);
      ReturningOneMore(numbers, o.sequence.value);
      hide Returning, Returns;
    }
  }

  /**
   * As long as no event drops the last sequence below zero, the last sequence is the highest, and those out of order
   * are the ones not above all before them; what the source skipped then follows from the balance.
   */
  lemma {:induction false} ReturnsAreCounted(threshold: int, events: seq<Event>)
    requires NeverDrops(threshold, events)
    ensures Highest(Run(threshold, events).lastSequence, Sequences(events))
    ensures Run(threshold, events).outOfOrder == Returning(Sequences(events))
  {
    if events == [] {
      assert Sequences(events) == [] && Returning([]) == 0;
    } else {
      var init, e := events[..|events| - 1], events[|events| - 1];
      assert events == init + [e];
      NeverDropsOneMore(threshold, init, e);
      ReturnsAreCounted(threshold, init);
      hide NeverDrops, Observed, Returning;
      if e.Seen? {
        HighestOneMore(threshold, Run(threshold, init), Sequences(init), e.o);
        assert e.o.sequence.None? ==> Sequences(events) == Sequences(init);
      } else {
        assert Sequences(events) == Sequences(init);
      }
    }
  }
}
