/** Tracking the quality of a market data source: sequence gaps, freshness and order-book recovery. */
module SourceQualities {
  import opened Wrappers

  datatype BookState = Valid | Stale | GapDetected | Resyncing | Recovered

  datatype Status = Starting | Healthy | Degraded | Idle

  /** Times, and the freshness threshold, are in microseconds. */
  datatype Observation = Observation(time: int, ingested: int, sequence: Option<int>, book: bool)

  /** The fields of a source's record. */
  datatype Quality = Quality(
    lastEvent: Option<int>, lastIngested: Option<int>, lastSequence: Option<int>, gaps: int, outOfOrder: nat,
    status: Status, active: bool, idle: bool, degraded: bool, book: BookState, bookValid: bool, recoveries: nat)

  const STARTING := Quality(None, None, None, 0, 0, Starting, false, false, false, Valid, true, 0)

  function Larger(x: int, y: int): int { if x >= y then x else y }

  function Age(o: Observation): int { Larger(0, o.ingested - o.time) }

  predicate Skips(last: Option<int>, o: Observation) {
    o.sequence.Some? && last.Some? && o.sequence.value > last.value + 1
  }

  predicate Repeats(last: Option<int>, o: Observation) {
    o.sequence.Some? && last.Some? && o.sequence.value <= last.value
  }

  predicate HasGap(last: Option<int>, o: Observation) { Skips(last, o) || Repeats(last, o) }

  /** Python's `max(sequence, last or sequence)`: a last sequence of zero counts as none. */
  function NextSequence(last: Option<int>, o: Observation): Option<int> {
    if o.sequence.None? then last
    else if last.Some? && last.value != 0 then Some(Larger(o.sequence.value, last.value))
    else o.sequence
  }

  /** The recovery machine: what a book update makes of the state and of the count of recovery updates. */
  function NextBook(state: BookState, recoveries: nat, late: bool, gap: bool): (BookState, nat) {
    if late then (Stale, 0)
    else if gap then (GapDetected, 0)
    else
      match state
      case GapDetected => (Resyncing, 1)
      case Stale => (Resyncing, 1)
      case Resyncing => (Recovered, recoveries + 1)
      case Recovered => (Valid, recoveries)
      case Valid => (Valid, recoveries)
  }

  function Observed(threshold: int, q: Quality, o: Observation): Quality {
    var late, gap := Age(o) > threshold, HasGap(q.lastSequence, o);
    var (book, recoveries) := if o.book then NextBook(q.book, q.recoveries, late, gap) else (q.book, q.recoveries);
    var valid := if o.book then book == Valid || book == Recovered else q.bookValid;
    var degraded := late || gap || (o.book && !valid);
    Quality(Some(Larger(o.time, q.lastEvent.GetOr(o.time))), Some(o.ingested), NextSequence(q.lastSequence, o),
            q.gaps + (if Skips(q.lastSequence, o) then o.sequence.value - q.lastSequence.value - 1 else 0),
            q.outOfOrder + (if Repeats(q.lastSequence, o) then 1 else 0),
            if degraded then Degraded else Healthy, true, false, degraded, book, valid, recoveries)
  }

  function MarkedIdle(q: Quality): Quality { q.(active := true, idle := true, degraded := false, status := Idle) }

  class SourceQuality {
    var lastEvent: Option<int>
    var lastIngested: Option<int>
    var lastSequence: Option<int>
    var gaps: int
    var outOfOrder: nat
    var status: Status
    var active: bool
    var idle: bool
    var degraded: bool
    var book: BookState
    var bookValid: bool
    var recoveries: nat

    function View(): Quality
      reads this
    {
      Quality(lastEvent, lastIngested, lastSequence, gaps, outOfOrder, status, active, idle, degraded, book, bookValid,
              recoveries)
    }

    constructor ()
      ensures View() == STARTING
    {
      lastEvent, lastIngested, lastSequence, gaps, outOfOrder := None, None, None, 0, 0;
      status, active, idle, degraded := Starting, false, false, false;
      book, bookValid, recoveries := Valid, true, 0;
    }

    /** Follows the sequence, counting what it skips and repeats. */
    method Follow(o: Observation) returns (gap: bool)
      modifies this`lastSequence, this`gaps, this`outOfOrder
      ensures gap == HasGap(old(lastSequence), o) && lastSequence == NextSequence(old(lastSequence), o)
      ensures gaps
              == old(gaps) + (if Skips(old(lastSequence), o) then o.sequence.value - old(lastSequence).value - 1 else 0)
      ensures outOfOrder == old(outOfOrder) + (if Repeats(old(lastSequence), o) then 1 else 0)
    {
      gap := false;
      if o.sequence.Some? && lastSequence.Some? {
        if o.sequence.value > lastSequence.value + 1 {
          gaps := gaps + (o.sequence.value - lastSequence.value - 1);
          gap := true;
        } else if o.sequence.value <= lastSequence.value {
          outOfOrder := outOfOrder + 1;
          gap := true;
        }
      }
      if o.sequence.Some? {
        var last := if lastSequence.Some? && lastSequence.value != 0 then lastSequence.value else o.sequence.value;
        lastSequence := Some(Larger(o.sequence.value, last));
      }
    }

    method Observe(threshold: int, o: Observation)
      modifies this
      ensures View() == Observed(threshold, old(View()), o)
    {
      var gap := Follow(o);
      lastEvent := Some(Larger(o.time, lastEvent.GetOr(o.time)));
      lastIngested := Some(o.ingested);
      var age := Larger(0, o.ingested - o.time);
      active, idle := true, false;
      if o.book {
        if age > threshold {
          book, recoveries := Stale, 0;
        } else if gap {
          book, recoveries := GapDetected, 0;
        } else if book == GapDetected || book == Stale {
          book, recoveries := Resyncing, 1;
        } else if book == Resyncing {
          book, recoveries := Recovered, recoveries + 1;
        } else if book == Recovered {
          book := Valid;
        }
        bookValid := book == Valid || book == Recovered;
      }
      degraded := age > threshold || gap || (o.book && !bookValid);
      status := if degraded then Degraded else Healthy;
    }

    method GoIdle()
      modifies this
      ensures View() == MarkedIdle(old(View()))
    {
      active, idle, degraded, status := true, true, false, Idle;
    }
  }

  datatype Key = Key(source: string, asset: string)

  /** A record for every source and asset seen. */
  class SourceQualityTracker {
    const threshold: int
    var states: map<Key, SourceQuality>

    /** No two keys share a record. */
    ghost predicate Unshared()
      reads this
    {
      forall k, l :: k in states && l in states && states[k] == states[l] ==> k == l
    }

    ghost function Of(key: Key): Quality
      reads this, states.Values
    {
      if key in states then states[key].View() else STARTING
    }

    constructor (freshness: int)
      ensures threshold == freshness && states == map[] && Unshared()
    {
      threshold, states := freshness, map[];
    }

    /** The record of the key, made on first sight. */
    method Enter(key: Key) returns (state: SourceQuality)
      requires Unshared()
      modifies this`states
      ensures Unshared() && key in states && states[key] == state
      ensures states == old(states)[key := state]
      ensures if key in old(states) then state == old(states)[key] else fresh(state)
      ensures state.View() == old(Of(key))
    {
      if key !in states {
        state := new SourceQuality();
        states := states[key := state];
      } else {
        state := states[key];
      }
    }

    method Observe(key: Key, o: Observation) returns (state: SourceQuality)
      requires Unshared()
      modifies this`states, states.Values
      ensures Unshared() && states.Keys == old(states.Keys) + {key} && states[key] == state
      ensures forall k :: Of(k) == if k == key then Observed(threshold, old(Of(key)), o) else old(Of(k))
    {
      state := Enter(key);
      state.Observe(threshold, o);
    }

    method MarkIdle(key: Key) returns (state: SourceQuality)
      requires Unshared()
      modifies this`states, states.Values
      ensures Unshared() && states.Keys == old(states.Keys) + {key} && states[key] == state
      ensures forall k :: Of(k) == if k == key then MarkedIdle(old(Of(key))) else old(Of(k))
    {
      state := Enter(key);
      state.GoIdle();
    }
  }
}
