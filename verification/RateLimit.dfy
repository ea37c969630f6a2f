/** The fixed-window rate limiter: a Redis counter that expires one window after its first increment.
    Times are milliseconds; Redis still answers for a key in the millisecond of its expiry. */
module RateLimit {
  import opened Results

  /** The counter key: how often it was incremented and when it expires. */
  datatype Counter = Absent | Counting(count: nat, expiresAt: int)

  /** retryAfter is kept as the distance to the reset. */
  datatype State = State(allowed: bool, enforced: bool, limit: int, remaining: int, resetAt: int, retryAfter: int)

  /** int(window.Seconds()) in milliseconds. */
  function WholeSeconds(window: nat): nat {
    window / 1000 * 1000
  }

  function Live(c: Counter, now: int): Counter {
    if c.Counting? && now <= c.expiresAt then c else Absent
  }

  /** The atomic script: increment, and set the expiry on the first increment; a zero expiry deletes the key. */
  function Script(c: Counter, now: int, expiry: nat): (Counter, nat, int) {
    var live := Live(c, now);
    var count := if live.Counting? then live.count + 1 else 1;
    var after := if live.Counting? then Counting(count, live.expiresAt)
                 else if expiry == 0 then Absent
                 else Counting(count, now + expiry);
    (after, count, if after.Counting? then after.expiresAt - now else -2)
  }

  function Answer(count: nat, ttl: int, limit: int, window: nat, now: int): State {
    var wait := if ttl < 0 then window else ttl;
    State(count <= limit, true, limit, if count < limit then limit - count else 0, now + wait, wait)
  }

  /** One request: the counter afterwards and what the caller is told. */
  function Request(c: Counter, now: int, limit: int, window: nat): (Counter, State) {
    var (after, count, ttl) := Script(c, now, WholeSeconds(window));
    (after, Answer(count, ttl, limit, window, now))
  }

  /** Whether Redis runs and answers the script, cannot be reached, or runs it and the answer is lost or unreadable. */
  datatype Reply = Answers | Unreachable | AnswerLost

  datatype LimiterError = ScriptFailed

  class RateLimiter {
    /** Whether Redis is configured; without it everything is allowed. */
    const connected: bool
    var counters: map<string, Counter>

    constructor (connected: bool)
      ensures this.connected == connected && counters == map[]
    {
      this.connected := connected;
      counters := map[];
    }

    function CounterOf(key: string): Counter
      reads this
    {
      if key in counters then counters[key] else Absent
    }

    method AllowWithState(key: string, limit: int, window: nat, now: int, reply: Reply)
      returns (r: Result<State, LimiterError>)
      modifies this
      ensures !connected ==> counters == old(counters) && r == Ok(State(true, false, limit, limit, 0, 0))
      ensures connected && reply == Answers ==>
                r.Ok? && (CounterOf(key), r.value) == Request(old(CounterOf(key)), now, limit, window)
      ensures connected && reply == Unreachable ==> counters == old(counters) && r == Err(ScriptFailed)
      ensures connected && reply == AnswerLost ==>
                CounterOf(key) == Request(old(CounterOf(key)), now, limit, window).0 && r == Err(ScriptFailed)
      ensures forall other :: other != key ==> CounterOf(other) == old(CounterOf(other))
    {
      if !connected {
        return Ok(State(true, false, limit, limit, 0, 0));
      }
      if reply == Unreachable {
        return Err(ScriptFailed);
      }
      var seconds := window / 1000;
      var current := 1;
      var ttl := -2;
      var live := Live(CounterOf(key), now);
      if live.Counting? {
        current := live.count + 1;
        counters := counters[key := Counting(current, live.expiresAt)];
        ttl := live.expiresAt - now;
      } else if seconds > 0 {
        counters := counters[key := Counting(1, now + seconds * 1000)];
        ttl := seconds * 1000;
      } else {
        counters := counters - {key};
      }
      if reply == AnswerLost {
        return Err(ScriptFailed);
      }
      if ttl < 0 {
        ttl := window;
      }
      var remaining := 0;
      if current < limit {
        remaining := limit - current;
      }
      return Ok(State(current <= limit, true, limit, remaining, now + ttl, ttl));
    }
  }

  // ---------- A client's requests over time ----------

  predicate InOrder(times: seq<int>) {
    forall i, j :: 0 <= i < j < |times| ==> times[i] <= times[j]
  }

  /** The counter after the first n requests. */
  function CounterAfter(times: seq<int>, n: nat, limit: int, window: nat): Counter
    requires n <= |times|
  {
    if n == 0 then Absent else Request(CounterAfter(times, n - 1, limit, window), times[n - 1], limit, window).0
  }

  function StateAt(times: seq<int>, k: nat, limit: int, window: nat): State
    requires k < |times|
  {
    Request(CounterAfter(times, k, limit, window), times[k], limit, window).1
  }

  /** The request that opened the counter window request k falls in. */
  function Opener(times: seq<int>, k: nat, limit: int, window: nat): (o: nat)
    requires k < |times|
    ensures o <= k
  {
    if k > 0 && Live(CounterAfter(times, k, limit, window), times[k]).Counting? then Opener(times, k - 1, limit, window)
    else k
  }

  /** While a window is open its count is the number of requests since its opener, and it ends a window after it. */
  lemma {:induction false} CounterCountsItsWindow(times: seq<int>, k: nat, limit: int, window: nat)
    requires k < |times| && WholeSeconds(window) > 0 && InOrder(times)
    ensures var o := Opener(times, k, limit, window);
            CounterAfter(times, k + 1, limit, window) == Counting(k - o + 1, times[o] + WholeSeconds(window))
    ensures times[k] <= times[Opener(times, k, limit, window)] + WholeSeconds(window)
  {
    if k > 0 {
      CounterCountsItsWindow(times, k - 1, limit, window);
    }
  }

  /** Openers are more than a full window apart. */
  lemma OpenersAreApart(times: seq<int>, j: nat, k: nat, limit: int, window: nat)
    requires j < k < |times| && WholeSeconds(window) > 0 && InOrder(times)
    ensures var a, b := Opener(times, j, limit, window), Opener(times, k, limit, window);
            a == b || (j < b && times[a] + WholeSeconds(window) < times[b])
    decreases k - j
  {
    CounterCountsItsWindow(times, k - 1, limit, window);
    if j < k - 1 {
      OpenersAreApart(times, j, k - 1, limit, window);
    }
  }

  /** In every counter window exactly the first `limit` requests are allowed, and Remaining says how many
      more will be. */
  lemma {:induction false} WindowAdmitsFirstRequests(times: seq<int>, k: nat, limit: nat, window: nat)
    requires k < |times| && WholeSeconds(window) > 0 && InOrder(times)
    ensures var place := k - Opener(times, k, limit, window);
            && (StateAt(times, k, limit, window).allowed <==> place < limit)
            && StateAt(times, k, limit, window).remaining == (if place < limit then limit - 1 - place else 0)
            && StateAt(times, k, limit, window).resetAt == times[k - place] + (window - window % 1000)
            && StateAt(times, k, limit, window).retryAfter == StateAt(times, k, limit, window).resetAt - times[k]
            && StateAt(times, k, limit, window).enforced && StateAt(times, k, limit, window).limit == limit
  {
    CounterCountsItsWindow(times, k, limit, window);
    if k > 0 {
      CounterCountsItsWindow(times, k - 1, limit, window);
    }
  }

  // ---------- Any interval ----------

  /** How many of the requests lo, ..., hi - 1 are allowed. */
  function AllowedBetween(times: seq<int>, lo: nat, hi: nat, limit: int, window: nat): nat
    requires lo <= hi <= |times|
    decreases hi
  {
    if lo == hi then 0
    else AllowedBetween(times, lo, hi - 1, limit, window) + if StateAt(times, hi - 1, limit, window).allowed then 1 else 0
  }

  lemma {:induction false} AllowedSplits(times: seq<int>, lo: nat, mid: nat, hi: nat, limit: int, window: nat)
    requires lo <= mid <= hi <= |times|
    ensures AllowedBetween(times, lo, hi, limit, window)
            == AllowedBetween(times, lo, mid, limit, window) + AllowedBetween(times, mid, hi, limit, window)
  {
    if mid < hi {
      AllowedSplits(times, lo, mid, hi - 1, limit, window);
    }
  }

  /** Requests lo, ..., hi - 1 of one window: those before place `limit` are allowed. */
  lemma {:induction false} AllowedInOneWindow(times: seq<int>, lo: nat, hi: nat, opener: nat, limit: nat, window: nat)
    requires opener <= lo <= hi <= |times| && WholeSeconds(window) > 0 && InOrder(times)
    requires forall k :: lo <= k < hi ==> Opener(times, k, limit, window) == opener
    ensures AllowedBetween(times, lo, hi, limit, window) ==
            if hi <= opener + limit then hi - lo else if lo <= opener + limit then opener + limit - lo else 0
  {
    if lo < hi {
      AllowedInOneWindow(times, lo, hi - 1, opener, limit, window);
      WindowAdmitsFirstRequests(times, hi - 1, limit, window);
    }
  }

  /** Requests lo, ..., hi - 1 come in order and span no more than one window. */
  predicate SpansOneWindow(times: seq<int>, lo: nat, hi: nat, window: nat) {
    lo < hi <= |times| && WholeSeconds(window) > 0 && InOrder(times) && times[hi - 1] <= times[lo] + WholeSeconds(window)
  }

  /** A request between two others falls in the window of the one or of the other when they are at most a window
      apart. */
  lemma {:induction false} OpenerBetween(times: seq<int>, lo: nat, k: nat, last: nat, limit: nat, window: nat)
    requires SpansOneWindow(times, lo, last + 1, window) && lo <= k <= last
    ensures var a, b := Opener(times, lo, limit, window), Opener(times, last, limit, window);
            Opener(times, k, limit, window) == if k < b then a else b
  {
    var b := Opener(times, last, limit, window);
    if lo < k {
      OpenersAreApart(times, lo, k, limit, window);
    }
    if k < last {
      OpenersAreApart(times, k, last, limit, window);
    }
    if b < k {
      OpenersAreApart(times, b, k, limit, window);
    }
  }

  /** Consecutive requests spanning at most one window fall in at most two counter windows; the second starts
      at its own opener, and then the first one's opener is not among them. */
  lemma {:induction false} TwoWindows(times: seq<int>, lo: nat, hi: nat, limit: nat, window: nat)
    requires SpansOneWindow(times, lo, hi, window)
    ensures var a, b := Opener(times, lo, limit, window), Opener(times, hi - 1, limit, window);
            if a == b then forall k :: lo <= k < hi ==> Opener(times, k, limit, window) == a
            else a < lo < b < hi
                 && (forall k :: lo <= k < b ==> Opener(times, k, limit, window) == a)
                 && (forall k :: b <= k < hi ==> Opener(times, k, limit, window) == b)
  {
    var last := hi - 1;
    var a, b := Opener(times, lo, limit, window), Opener(times, last, limit, window);
    forall k | lo <= k < hi
      ensures Opener(times, k, limit, window) == (if k < b then a else b)
    {
      OpenerBetween(times, lo, k, last, limit, window);
    }
    if a != b {
      OpenersAreApart(times, lo, last, limit, window);
    }
  }

  /** Over any interval no longer than the window, wherever it starts, a client gets at most 2 * limit - 1 requests. */
  lemma {:induction false} IntervalBound(times: seq<int>, lo: nat, hi: nat, limit: nat, window: nat)
    requires SpansOneWindow(times, lo, hi, window) && limit > 0
    ensures AllowedBetween(times, lo, hi, limit, window) <= 2 * limit - 1
  {
    TwoWindows(times, lo, hi, limit, window);
    var a, b := Opener(times, lo, limit, window), Opener(times, hi - 1, limit, window);
    if a == b {
      AllowedInOneWindow(times, lo, hi, a, limit, window);
    } else {
      AllowedSplits(times, lo, b, hi, limit, window);
      AllowedInOneWindow(times, lo, b, a, limit, window);
      AllowedInOneWindow(times, b, hi, b, limit, window);
    }
  }

  // ---------- The bound is reached ----------

  /** One request opens a window, the rest of the quota waits for the millisecond of its expiry, and the next quota follows. */
  function Burst(limit: nat, window: nat): seq<int>
    requires limit > 0
  {
    seq(2 * limit, i => if i == 0 then 0 else if i < limit then WholeSeconds(window) else WholeSeconds(window) + 1)
  }

  lemma {:induction false} BurstOpeners(limit: nat, window: nat, k: nat)
    requires limit > 0 && WholeSeconds(window) > 0 && k < 2 * limit
    ensures InOrder(Burst(limit, window))
    ensures Opener(Burst(limit, window), k, limit, window) == if k < limit then 0 else limit
  {
    if k > 0 {
      BurstOpeners(limit, window, k - 1);
      CounterCountsItsWindow(Burst(limit, window), k - 1, limit, window);
    }
  }

  /** 2 * limit - 1 requests within one millisecond can all be allowed. */
  lemma {:induction false} BurstReachesBound(limit: nat, window: nat)
    requires limit > 0 && WholeSeconds(window) > 0
    ensures var times := Burst(limit, window);
            && InOrder(times)
            && times[2 * limit - 1] <= times[1] + 1
            && AllowedBetween(times, 1, 2 * limit, limit, window) == 2 * limit - 1
  {
    var times := Burst(limit, window);
    BurstOpeners(limit, window, 0);
    forall k | 0 <= k < 2 * limit
      ensures Opener(times, k, limit, window) == if k < limit then 0 else limit
    {
      BurstOpeners(limit, window, k);
    }
    AllowedSplits(times, 1, limit, 2 * limit, limit, window);
    AllowedInOneWindow(times, 1, limit, 0, limit, window);
    AllowedInOneWindow(times, limit, 2 * limit, limit, limit, window);
  }

  // ---------- Waiting ----------

  /** Retry-After in whole seconds, rounded up. */
  function RetryAfterSeconds(milliseconds: int): int {
    if milliseconds <= 0 then 0 else (milliseconds + 999) / 1000
  }

  /** After a refusal the next request succeeds exactly when it waits longer than retryAfter. Waiting out the rounded-up
      header to the millisecond is enough unless retryAfter is a whole number of seconds; one millisecond more always
      is. */
  lemma {:induction false} WaitingOutARefusal(times: seq<int>, k: nat, limit: nat, window: nat)
    requires k + 1 < |times| && WholeSeconds(window) > 0 && InOrder(times) && limit > 0
    requires !StateAt(times, k, limit, window).allowed
    ensures var wait := StateAt(times, k, limit, window).retryAfter;
            var header := 1000 * RetryAfterSeconds(wait);
            && wait >= 0
            && (StateAt(times, k + 1, limit, window).allowed <==> times[k + 1] > times[k] + wait)
            && (times[k + 1] > times[k] + header ==> StateAt(times, k + 1, limit, window).allowed)
            && (times[k + 1] == times[k] + header ==>
                  (StateAt(times, k + 1, limit, window).allowed <==> wait % 1000 != 0))
  {
    CounterCountsItsWindow(times, k, limit, window);
    WindowAdmitsFirstRequests(times, k, limit, window);
    if k > 0 {
      CounterCountsItsWindow(times, k - 1, limit, window);
    }
  }

  /** A window below one second is truncated to zero and never limits anybody. */
  lemma {:induction false} SubSecondWindowNeverLimits(times: seq<int>, k: nat, limit: int, window: nat)
    requires k < |times| && window < 1000
    ensures StateAt(times, k, limit, window).allowed <==> limit >= 1
    ensures CounterAfter(times, k + 1, limit, window) == Absent
  {
    if k > 0 {
      SubSecondWindowNeverLimits(times, k - 1, limit, window);
    }
  }
}
