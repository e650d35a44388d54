/** The rate limiter's token bucket, kept under a key that expires. Times are in seconds, on one clock. */
module TokenBucket {
  import opened Wrappers

  datatype Limits = Limits(capacity: int, refill: real)

  /** The settings the application accepts, and those it starts with. */
  type Settings = s: Limits | s.capacity >= 1 && s.refill > 0.0 witness Limits(300, 5.0)

  /** What the key holds, and when it expires. */
  datatype Bucket = Bucket(tokens: real, last: real, expires: real)

  function Least(x: real, y: real): real { if x <= y then x else y }

  /** `max(1, int(capacity / refill * 2))`. */
  function TimeToLive(s: Settings): int {
    var twice := (s.capacity as real / s.refill * 2.0).Floor;
    if twice >= 1 then twice else 1
  }

  /** The key as a reader finds it: gone once it has expired. */
  function Found(key: Option<Bucket>, now: real): Option<Bucket> {
    if key.Some? && now >= key.value.expires then None else key
  }

  /** The tokens that drip in over a time. */
  function Drip(s: Settings, elapsed: real): real { elapsed * s.refill }

  /** A missing bucket is a full one last seen now. */
  function Refilled(s: Settings, key: Option<Bucket>, now: real): real {
    var (tokens, last) := if key.Some? then (key.value.tokens, key.value.last) else (s.capacity as real, now);
    Least(s.capacity as real, tokens + Drip(s, now - last))
  }

  datatype Answer = Answer(accepted: bool, remaining: int)

  /** One run of the script: refill, take a token if there is one, write the bucket back. */
  function Take(s: Settings, key: Option<Bucket>, now: real): (Bucket, Answer) {
    var filled := Refilled(s, key, now);
    var accepted := filled >= 1.0;
    var tokens := if accepted then filled - 1.0 else filled;
    (Bucket(tokens, now, now + TimeToLive(s) as real), Answer(accepted, tokens.Floor))
  }

  class RateLimiter {
    const settings: Settings
    var key: Option<Bucket>

    constructor (s: Settings)
      ensures settings == s && key == None
    {
      settings, key := s, None;
    }

    method Request(now: real) returns (answer: Answer)
      modifies this
      ensures key == Some(Take(settings, Found(old(key), now), now).0)
      ensures answer == Take(settings, Found(old(key), now), now).1
    {
      hide Drip, TimeToLive;
      var tokens, last := settings.capacity as real, now;
      if key.Some? && now < key.value.expires {
        tokens, last := key.value.tokens, key.value.last;
      }
      tokens := Least(settings.capacity as real, tokens + Drip(settings, now - last));
      var accepted := false;
      if tokens >= 1.0 {
        tokens, accepted := tokens - 1.0, true;
      }
      key := Some(Bucket(tokens, now, now + TimeToLive(settings) as real));
      return Answer(accepted, tokens.Floor);
    }
  }

  // ---------------------------------------------------------------- runs on a clock that does not run back

  ghost predicate Forward(times: seq<real>) {
    forall i, j :: 0 <= i <= j < |times| ==> times[i] <= times[j]
  }

  /** The key after the requests at these times, when keys expire. */
  function Run(s: Settings, times: seq<real>): Option<Bucket>
  {
    if times == [] then None
    else
      var now := times[|times| - 1];
      Some(Take(s, Found(Run(s, times[..|times| - 1]), now), now).0)
  }

  /** And when they never do. */
  function RunForever(s: Settings, times: seq<real>): Option<Bucket>
  {
    if times == [] then None
    else
      var now := times[|times| - 1];
      Some(Take(s, RunForever(s, times[..|times| - 1]), now).0)
  }

  function AnswerTo(s: Settings, times: seq<real>): Answer
    requires times != []
  {
    var now := times[|times| - 1];
    Take(s, Found(Run(s, times[..|times| - 1]), now), now).1
  }

  function AnswerForever(s: Settings, times: seq<real>): Answer
    requires times != []
  {
    var now := times[|times| - 1];
    Take(s, RunForever(s, times[..|times| - 1]), now).1
  }

  function FillTime(s: Settings): real { s.capacity as real / s.refill }

  lemma FillTimeFills(s: Settings)
    ensures Drip(s, FillTime(s)) == s.capacity as real && FillTime(s) > 0.0
  {
    assert FillTime(s) * s.refill == s.capacity as real;
  }

  /** The key lives at least as long as an empty bucket takes to fill. */
  lemma LivesUntilFull(s: Settings)
    ensures TimeToLive(s) as real >= FillTime(s)
    ensures s.capacity as real <= Drip(s, TimeToLive(s) as real)
  {
    FillTimeFills(s);
    assert TimeToLive(s) as real >= FillTime(s) by {
      var twice := (FillTime(s) * 2.0).Floor;
      assert FillTime(s) * 2.0 < twice as real + 1.0;
    }
    DripGrows(s, FillTime(s), TimeToLive(s) as real);
  }

  lemma ProductGrows(x: real, y: real, z: real)
    requires x <= y && z >= 0.0
    ensures x * z <= y * z
  {
  }

  lemma DripGrows(s: Settings, x: real, y: real)
    requires x <= y
    ensures Drip(s, x) <= Drip(s, y)
  {
    ProductGrows(x, y, s.refill);
  }

  lemma NothingDrips(s: Settings)
    ensures Drip(s, 0.0) == 0.0
  {
  }

  lemma DripAdds(s: Settings, x: real, y: real)
    ensures Drip(s, x + y) == Drip(s, x) + Drip(s, y)
  {
  }

  ghost predicate Level(s: Settings, key: Option<Bucket>) {
    key.Some? ==>
        0.0 <= key.value.tokens <= s.capacity as real && key.value.expires == key.value.last + TimeToLive(s) as real
  }

  lemma TakeStaysLevel(s: Settings, key: Option<Bucket>, now: real)
    requires Level(s, key) && (key.Some? ==> key.value.last <= now)
    ensures Level(s, Some(Take(s, key, now).0)) && 0.0 <= Refilled(s, key, now) <= s.capacity as real
  {
    hide Drip, TimeToLive;
    NothingDrips(s);
    if key.Some? {
      DripGrows(s, 0.0, now - key.value.last);
    }
  }

  /** A bucket old enough to have expired has filled up, so forgetting it changes nothing. */
  lemma ExpiredIsFull(s: Settings, key: Option<Bucket>, now: real)
    requires Level(s, key)
    ensures Take(s, Found(key, now), now) == Take(s, key, now)
  {
    if key.Some? && now >= key.value.expires {
      LivesUntilFull(s);
      hide Drip, TimeToLive;
      NothingDrips(s);
      DripGrows(s, TimeToLive(s) as real, now - key.value.last);
    }
  }

  lemma {:induction false} RunsStayLevel(s: Settings, times: seq<real>)
    requires Forward(times)
    ensures Run(s, times) == RunForever(s, times) && Level(s, Run(s, times))
    ensures times != [] ==> Run(s, times).Some? && Run(s, times).value.last == times[|times| - 1]
  {
    if times != [] {
      var init, now := times[..|times| - 1], times[|times| - 1];
      RunsStayLevel(s, init);
      ExpiredIsFull(s, Run(s, init), now);
      TakeStaysLevel(s, Run(s, init), now);
    }
  }

  /** Expiry is invisible: no request is ever answered differently because a key was dropped. */
  lemma ExpiryIsInvisible(s: Settings, times: seq<real>)
    requires Forward(times) && times != []
    ensures AnswerTo(s, times) == AnswerForever(s, times)
  {
    var init := times[..|times| - 1];
    RunsStayLevel(s, init);
    ExpiredIsFull(s, Run(s, init), times[|times| - 1]);
  }

  // ---------------------------------------------------------------- the bound

  /** How many of the requests from the i-th on were accepted. */
  function Accepted(s: Settings, times: seq<real>, i: nat): nat
  {
    if |times| <= i then 0
    else Accepted(s, times[..|times| - 1], i) + (if AnswerTo(s, times).accepted then 1 else 0)
  }

  lemma {:induction false} TokensBalance(s: Settings, times: seq<real>, i: nat)
    requires Forward(times) && i < |times|
    ensures Run(s, times).Some?
    ensures Accepted(s, times, i) as real + Run(s, times).value.tokens
            <= s.capacity as real + Drip(s, times[|times| - 1] - times[i])
  {
    hide Drip, TimeToLive;
    var init, now := times[..|times| - 1], times[|times| - 1];
    RunsStayLevel(s, init);
    TakeStaysLevel(s, Run(s, init), now);
    ExpiredIsFull(s, Run(s, init), now);
    if i < |init| {
      TokensBalance(s, init, i);
      DripAdds(s, init[|init| - 1] - times[i], now - init[|init| - 1]);
    } else {
      NothingDrips(s);
    }
  }

  /** In any stretch of requests at most capacity + refill * elapsed are accepted. */
  lemma RateIsBounded(s: Settings, times: seq<real>, i: nat)
    requires Forward(times) && i < |times|
    ensures Accepted(s, times, i) as real <= s.capacity as real + Drip(s, times[|times| - 1] - times[i])
  {
    TokensBalance(s, times, i);
    RunsStayLevel(s, times);
  }

  /** A client that has waited for a token to drip in is always let through. */
  lemma PatienceIsRewarded(s: Settings, times: seq<real>, now: real)
    requires Forward(times + [now])
    requires times != [] ==> Drip(s, now - times[|times| - 1]) >= 1.0
    ensures AnswerTo(s, times + [now]).accepted
  {
    hide Drip, TimeToLive;
    NothingDrips(s);
    assert (times + [now])[..|times|] == times;
    assert Forward(times) by {
      forall i, j | 0 <= i <= j < |times| ensures times[i] <= times[j] {
        assert (times + [now])[i] <= (times + [now])[j];
      }
    }
    RunsStayLevel(s, times);
    ExpiredIsFull(s, Run(s, times), now);
  }

  /** A burst of requests at time zero. */
  function Burst(n: nat): seq<real> { seq(n, i requires 0 <= i < n => 0.0) }

  /** A burst empties the bucket token by token. */
  lemma {:induction false} BurstEmpties(s: Settings, n: nat)
    requires 1 <= n <= s.capacity
    ensures Run(s, Burst(n)) == Some(Bucket((s.capacity - n) as real, 0.0, TimeToLive(s) as real))
  {
    hide Drip, TimeToLive;
    NothingDrips(s);
    assert Burst(n)[..n - 1] == Burst(n - 1);
    if n > 1 {
      BurstEmpties(s, n - 1);
      RunsStayLevel(s, Burst(n - 1));
      ExpiredIsFull(s, Run(s, Burst(n - 1)), 0.0);
    }
  }

  lemma OneMoreRequest(s: Settings, times: seq<real>, now: real)
    requires Forward(times)
    ensures Run(s, times + [now]) == Some(Take(s, Run(s, times), now).0)
    ensures AnswerTo(s, times + [now]) == Take(s, Run(s, times), now).1
  {
    assert (times + [now])[..|times|] == times;
    RunsStayLevel(s, times);
    ExpiredIsFull(s, Run(s, times), now);
  }

  /** After a burst of the whole capacity a request is rejected, and one a second later for want of a full token. */
  lemma RejectedTwice(s: Settings)
    requires s.refill < 1.0
    ensures var burst := Burst(s.capacity);
            && Forward(burst + [0.0])
            && !AnswerTo(s, burst + [0.0]).accepted && !AnswerTo(s, burst + [0.0] + [1.0]).accepted
  {
    var burst := Burst(s.capacity);
    BurstEmpties(s, s.capacity);
    NothingDrips(s);
    assert Drip(s, 1.0) == s.refill;
    OneMoreRequest(s, burst, 0.0);
    OneMoreRequest(s, burst + [0.0], 1.0);
    hide Drip, TimeToLive, Run, AnswerTo;
  }

  /** Every request rejected in a run is answered well a second later. */
  ghost predicate RetryHelps(s: Settings) {
    forall times: seq<real>, now: real :: Forward(times + [now]) && !AnswerTo(s, times + [now]).accepted ==>
      AnswerTo(s, times + [now] + [now + 1.0]).accepted
  }

  /** The advice to retry after a second is sound for every run of requests exactly when a second refills a token. */
  lemma {:induction false} RetryAfterOneSecond(s: Settings)
    ensures RetryHelps(s) <==> s.refill >= 1.0
  {
    if s.refill >= 1.0 {
      assert Drip(s, 1.0) >= 1.0;
      forall times: seq<real>, now: real | Forward(times + [now]) && !AnswerTo(s, times + [now]).accepted
        ensures AnswerTo(s, times + [now] + [now + 1.0]).accepted
      {
        hide Drip;
        var all := times + [now];
        assert Forward(all + [now + 1.0]) by {
          assert forall i :: 0 <= i < |all| ==> all[i] <= all[|all| - 1];
        }
        assert now + 1.0 - all[|all| - 1] == 1.0;
        PatienceIsRewarded(s, all, now + 1.0);
      }
    } else {
      RejectedTwice(s);
    }
  }
}
