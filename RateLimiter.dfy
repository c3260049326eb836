/** The two admission gates of `src/middleware/rateLimiter.ts`: the per-IP gate configured for
    express-rate-limit, and the global fixed-window counter `GlobalRateLimiter`. */
module RateLimiter {
  import opened Http

  /** `GlobalRateLimiter.REQUEST_LIMIT`. */
  const RequestLimit: nat := 15
  /** `GlobalRateLimiter.LIMIT_WINDOW_MS`: the period of the reset timer, which the model
      replaces by explicit `Reset` events. */
  const LimitWindowMs: nat := 60 * 1000

  /** The options given to express-rate-limit. Its counting is library code: the model keeps
      only the configuration and takes the gate's decision as an input. */
  datatype IpLimiterConfig = IpLimiterConfig(windowMs: nat, max: nat, message: string)

  const IpLimiter: IpLimiterConfig :=
    IpLimiterConfig(1 * 60 * 1000, 3, "Too many requests in a minute, You can make a maximum of 3 requests per minute")

  /** What the per-IP gate answers when it rejects: express-rate-limit's default status 429 with
      the configured `{message: ...}` object as the JSON body. */
  function IpRejection(config: IpLimiterConfig): (r: Reply)
    ensures r.code == 429 && r.body == MessageOnly(config.message)
  {
    Reply(429, MessageOnly(config.message))
  }

  /** The static field `GlobalRateLimiter.requestCount`: one cell that every limiter instance
      refers to. It is 0 when the class is loaded. */
  class SharedCount {
    var value: nat

    constructor ()
      ensures value == 0
    {
      value := 0;
    }
  }

  class GlobalRateLimiter {
    const shared: SharedCount

    /** Creating a limiter does not touch the shared count; the timer it starts is modelled by
        `Reset`. */
    constructor (shared: SharedCount)
      ensures this.shared == shared
    {
      this.shared := shared;
    }

    method IsLimitReached() returns (reached: bool)
      ensures reached <==> shared.value >= RequestLimit
    {
      reached := shared.value >= RequestLimit;
    }

    method IncrementCount()
      modifies shared
      ensures shared.value == old(shared.value) + 1
    {
      shared.value := shared.value + 1;
    }

    /** The `setInterval` callback, run every `LimitWindowMs`. */
    method Reset()
      modifies shared
      ensures shared.value == 0
    {
      shared.value := 0;
    }
  }

  /** `requestCount` is static: whatever the count, a slot taken through one limiter is seen
      through any other, and a reset through one clears the limit for the other. */
  method SharedAcrossInstances(first: GlobalRateLimiter, second: GlobalRateLimiter)
    returns (seen: nat, reachedAfterReset: bool)
    requires first.shared == second.shared
    modifies first.shared
    ensures seen == old(second.shared.value) + 1
    ensures !reachedAfterReset && second.shared.value == 0
  {
    first.IncrementCount();
    seen := second.shared.value;
    first.Reset();
    reachedAfterReset := second.IsLimitReached();
  }

  /** The controller's check-then-increment on a count: rejected at or above the limit (count
      unchanged), otherwise admitted with the count raised by one. */
  datatype Admission = Admission(admitted: bool, next: nat)

  function Admit(count: nat): (a: Admission)
    ensures a.admitted <==> count < RequestLimit
    ensures a.next == if a.admitted then count + 1 else count
    ensures count <= RequestLimit ==> a.next <= RequestLimit
  {
    if count >= RequestLimit then Admission(false, count) else Admission(true, count + 1)
  }

  /** What reaches the global gate: a request, or a tick of the reset timer. */
  datatype Event = Arrival | Tick

  function Step(count: nat, e: Event): Admission {
    match e
    case Arrival => Admit(count)
    case Tick => Admission(false, 0)
  }

  function CountAfter(count: nat, events: seq<Event>): nat
    decreases |events|
  {
    if events == [] then count else CountAfter(Step(count, events[0]).next, events[1..])
  }

  /** The gate's decision for each event in turn (a tick admits nothing). */
  function Decisions(count: nat, events: seq<Event>): (ds: seq<bool>)
    ensures |ds| == |events|
    decreases |events|
  {
    if events == [] then []
    else [Step(count, events[0]).admitted] + Decisions(Step(count, events[0]).next, events[1..])
  }

  function NumAdmitted(ds: seq<bool>): nat {
    if ds == [] then 0 else (if ds[0] then 1 else 0) + NumAdmitted(ds[1..])
  }

  function Min(a: nat, b: nat): nat {
    if a <= b then a else b
  }

  predicate NoTick(events: seq<Event>) {
    forall i :: 0 <= i < |events| ==> events[i] == Arrival
  }

  /** Within one window (no tick), starting from count `c` under the limit, the gate admits
      exactly the first `RequestLimit - c` arrivals and rejects every later one; the count then
      records the admitted requests. */
  lemma {:induction false} WindowAdmitsExactly(c: nat, events: seq<Event>)
    requires c <= RequestLimit && NoTick(events)
    ensures NumAdmitted(Decisions(c, events)) == Min(|events|, RequestLimit - c)
    ensures CountAfter(c, events) == c + Min(|events|, RequestLimit - c)
    decreases |events|
  {
    if events != [] {
      var ds := Decisions(c, events);
      assert ds[1..] == Decisions(Step(c, events[0]).next, events[1..]);
      WindowAdmitsExactly(Step(c, events[0]).next, events[1..]);
    }
  }

  /** Check-then-increment keeps the count at or below the limit, ticks or no ticks. */
  lemma {:induction false} CountNeverAboveLimit(c: nat, events: seq<Event>)
    requires c <= RequestLimit
    ensures CountAfter(c, events) <= RequestLimit
    decreases |events|
  {
    if events != [] {
      CountNeverAboveLimit(Step(c, events[0]).next, events[1..]);
    }
  }

  lemma {:induction false} DecisionsSplit(c: nat, events: seq<Event>, i: nat)
    requires i <= |events|
    ensures Decisions(c, events)[i..] == Decisions(CountAfter(c, events[..i]), events[i..])
    decreases i
  {
    if i > 0 {
      var n := Step(c, events[0]).next;
      DecisionsSplit(n, events[1..], i - 1);
      assert events[1..][..i - 1] == events[..i][1..];
      assert events[1..][i - 1..] == events[i..];
    }
  }

  /** Between two ticks of the reset timer, however many requests arrive, at most `RequestLimit`
      of them are admitted. */
  lemma WindowNeverAdmitsMoreThanLimit(events: seq<Event>, i: nat, j: nat)
    requires i <= j <= |events| && NoTick(events[i..j])
    ensures NumAdmitted(Decisions(0, events)[i..j]) <= RequestLimit
  {
    var c := CountAfter(0, events[..i]);
    CountNeverAboveLimit(0, events[..i]);
    DecisionsWindow(0, events, i, j);
    WindowAdmitsExactly(c, events[i..j]);
  }

  /** The decisions on a stretch of events are those taken from the count reached before it. */
  lemma DecisionsWindow(c: nat, events: seq<Event>, i: nat, j: nat)
    requires i <= j <= |events|
    ensures Decisions(c, events)[i..j] == Decisions(CountAfter(c, events[..i]), events[i..j])
  {
    var ds := Decisions(c, events);
    DecisionsSplit(c, events, i);
    DecisionsPrefix(CountAfter(c, events[..i]), events[i..], j - i);
    assert events[i..][..j - i] == events[i..j];
    assert ds[i..j] == ds[i..][..j - i];
  }

  lemma {:induction false} DecisionsPrefix(c: nat, events: seq<Event>, k: nat)
    requires k <= |events|
    ensures Decisions(c, events)[..k] == Decisions(c, events[..k])
    decreases k
  {
    if k > 0 {
      DecisionsPrefix(Step(c, events[0]).next, events[1..], k - 1);
      assert events[1..][..k - 1] == events[..k][1..];
    }
  }

  /** Once `RequestLimit` requests have been admitted in a window, every further arrival is
      rejected until the next tick, and immediately after a tick the gate admits again. */
  lemma RejectsUntilTick(events: seq<Event>)
    requires NoTick(events)
    ensures NumAdmitted(Decisions(RequestLimit, events)) == 0
    ensures CountAfter(RequestLimit, events + [Tick]) == 0
    ensures Admit(CountAfter(RequestLimit, events + [Tick])).admitted
  {
    WindowAdmitsExactly(RequestLimit, events);
    CountAfterTick(RequestLimit, events);
  }

  lemma {:induction false} CountAfterTick(c: nat, events: seq<Event>)
    ensures CountAfter(c, events + [Tick]) == 0
    decreases |events|
  {
    if events != [] {
      assert (events + [Tick])[1..] == events[1..] + [Tick];
      CountAfterTick(Step(c, events[0]).next, events[1..]);
    } else {
      assert events + [Tick] == [Tick];
    }
  }
}
