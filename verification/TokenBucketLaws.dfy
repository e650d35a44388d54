/** Which requests the token bucket lets through, told by the times of the requests alone. */
module TokenBucketLaws {
  import opened Wrappers
  import opened TokenBucket

  /** With this many requests let through from the i-th on, a request at this time has room in the stretch. */
  ghost predicate HasRoom(s: Settings, times: seq<real>, i: nat, now: real)
    requires i < |times|
  {
    (Accepted(s, times, i) + 1) as real <= s.capacity as real + Drip(s, now - times[i])
  }

  /** The bucket holds what the tightest stretch leaves, and TokensBalance says that no stretch leaves less. */
  lemma {:induction false} TightestStretch(s: Settings, times: seq<real>) returns (i: nat)
    requires Forward(times) && times != []
    ensures i < |times| && Run(s, times).Some?
    ensures Accepted(s, times, i) as real + Run(s, times).value.tokens
            == s.capacity as real + Drip(s, times[|times| - 1] - times[i])
  {
    var init, now := times[..|times| - 1], times[|times| - 1];
    RunsStayLevel(s, init);
    TakeStaysLevel(s, Run(s, init), now);
    ExpiredIsFull(s, Run(s, init), now);
    NothingDrips(s);
    i := |init|;
    hide Drip, TimeToLive;
    if init != [] && Refilled(s, Run(s, init), now) < s.capacity as real {
      i := TightestStretch(s, init);
      DripAdds(s, init[|init| - 1] - times[i], now - init[|init| - 1]);
    }
  }

  /**
   * A request is accepted exactly when in every stretch of requests before it there is room for one more: the
   * accepted ones and it are no more than the capacity and what has dripped in since the stretch began.
   */
  lemma AcceptedIff(s: Settings, times: seq<real>, now: real)
    requires Forward(times + [now])
    ensures AnswerTo(s, times + [now]).accepted <==> forall i :: 0 <= i < |times| ==> HasRoom(s, times, i, now)
  {
    var all := times + [now];
    assert all[..|times|] == times;
    StaysForward(times, now);
    RunsStayLevel(s, times);
    ExpiredIsFull(s, Run(s, times), now);
    RunsStayLevel(s, all);
    NothingDrips(s);
    hide Drip, TimeToLive, Found;
    if AnswerTo(s, all).accepted {
      forall i | 0 <= i < |times| ensures HasRoom(s, times, i, now) {
        TokensBalance(s, all, i);
      }
    } else if times != [] {
      var i := TightestStretch(s, times);
      DripAdds(s, times[|times| - 1] - times[i], now - times[|times| - 1]);
      assert !HasRoom(s, times, i, now);
    }
  }

  lemma StaysForward(times: seq<real>, now: real)
    requires Forward(times + [now])
    ensures Forward(times) && (times != [] ==> times[|times| - 1] <= now)
  {
    var all := times + [now];
    forall i, j | 0 <= i <= j < |times| ensures times[i] <= times[j] {
      assert all[i] <= all[j];
    }
    assert times != [] ==> all[|times| - 1] <= all[|times|];
  }

  // ---------------------------------------------------------------- what remains

  /** The same requests, and n more at the instant of the last one. */
  function Again(times: seq<real>, n: nat): seq<real>
    requires times != []
  {
    if n == 0 then times else Again(times, n - 1) + [times[|times| - 1]]
  }

  lemma {:induction false} AgainForward(times: seq<real>, n: nat)
    requires times != [] && Forward(times)
    ensures Again(times, n) != [] && Forward(Again(times, n))
    ensures Again(times, n)[|Again(times, n)| - 1] == times[|times| - 1]
  {
    if n > 0 {
      AgainForward(times, n - 1);
      var before, now := Again(times, n - 1), times[|times| - 1];
      assert forall i :: 0 <= i < |before| ==> before[i] <= before[|before| - 1];
    }
  }

  lemma TakeAtOnce(s: Settings, b: Bucket)
    requires Level(s, Some(b))
    ensures var (next, answer) := Take(s, Some(b), b.last);
            && next.tokens == b.tokens - (if b.tokens >= 1.0 then 1.0 else 0.0)
            && answer == Answer(b.tokens >= 1.0, next.tokens.Floor)
  {
    NothingDrips(s);
    hide Drip;
  }

  lemma {:induction false} AgainTakes(s: Settings, times: seq<real>, n: nat)
    requires times != [] && Forward(times)
    ensures Run(s, times).Some? && Run(s, Again(times, n)).Some?
    ensures var tokens := Run(s, times).value.tokens;
            Run(s, Again(times, n)).value.tokens
            == tokens - (if n <= tokens.Floor then n else tokens.Floor) as real
    ensures n > 0 ==> (AnswerTo(s, Again(times, n)).accepted <==> n <= Run(s, times).value.tokens.Floor)
  {
    RunsStayLevel(s, times);
    if n > 0 {
      var before, now := Again(times, n - 1), times[|times| - 1];
      AgainTakes(s, times, n - 1);
      AgainForward(times, n - 1);
      RunsStayLevel(s, before);
      OneMoreRequest(s, before, now);
      TakeAtOnce(s, Run(s, before).value);
      Countdown(Run(s, times).value.tokens, n, Run(s, before).value.tokens);
      hide Take, Run, AnswerTo, Forward, Level;
    }
  }

  /** Whole tokens are taken one by one until there are none. */
  lemma Countdown(tokens: real, n: nat, left: real)
    requires tokens >= 0.0 && n > 0
    requires left == tokens - (if n - 1 <= tokens.Floor then n - 1 else tokens.Floor) as real
    ensures left >= 1.0 <==> n <= tokens.Floor
    ensures left - (if left >= 1.0 then 1.0 else 0.0)
            == tokens - (if n <= tokens.Floor then n else tokens.Floor) as real
  {
  }

  /** The answer's remaining requests are just those accepted if they come at once. */
  lemma RemainingIsWhatRemains(s: Settings, times: seq<real>, n: nat)
    requires times != [] && Forward(times) && n > 0
    ensures AnswerTo(s, Again(times, n)).accepted <==> n <= AnswerTo(s, times).remaining
  {
    AgainTakes(s, times, n);
  }

  // ---------------------------------------------------------------- how long a key lives

  /** The key lives for the whole seconds of twice the time to fill, and for one second at least. */
  lemma LifeIsTwiceFilling(s: Settings)
    ensures TimeToLive(s) >= 1 && 2.0 * FillTime(s) < TimeToLive(s) as real + 1.0
    ensures TimeToLive(s) > 1 ==> TimeToLive(s) as real <= 2.0 * FillTime(s)
  {
  }
}
