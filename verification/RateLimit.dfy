/** The gateway's token buckets: one per connection and one per address. Clock readings are reals and
    are passed in. */
module RateLimits {
  import opened Ids

  function Earned(elapsed: real, rate: real): real {
    elapsed * rate
  }

  datatype Bucket = Bucket(tokens: real, last: real, rate: real, burst: real)
  {
    /** What the bucket holds when a call arrives at `now`. */
    function Refilled(now: real): real {
      var t := tokens + Earned(now - last, rate);
      if t > burst then burst else t
    }

    predicate Allows(now: real) {
      Refilled(now) >= 1.0
    }

    function After(now: real): Bucket {
      this.(last := now, tokens := if Allows(now) then Refilled(now) - 1.0 else Refilled(now))
    }

    predicate Valid() {
      rate >= 0.0 && 0.0 <= tokens <= burst
    }
  }

  /** A new bucket starts full. */
  function Full(rate: real, burst: real, now: real): Bucket {
    Bucket(burst, now, rate, burst)
  }

  predicate Ascending(from: real, times: seq<real>)
    decreases |times|
  {
    times == [] || (from <= times[0] && Ascending(times[0], times[1..]))
  }

  function RunCalls(b: Bucket, times: seq<real>): Bucket
    decreases |times|
  {
    if times == [] then b else RunCalls(b.After(times[0]), times[1..])
  }

  function Allowed(b: Bucket, times: seq<real>): nat
    decreases |times|
  {
    if times == [] then 0 else (if b.Allows(times[0]) then 1 else 0) + Allowed(b.After(times[0]), times[1..])
  }

  /** How a non-negative rate orders what is earned; all other arithmetic here is linear. */
  lemma MoreTimeEarnsMore(rate: real, less: real, more: real)
    requires rate >= 0.0 && less <= more
    ensures Earned(less, rate) <= Earned(more, rate) && Earned(0.0, rate) == 0.0
  {
    var d := more - less;
    assert d * rate >= 0.0;
    assert more * rate == less * rate + d * rate;
  }

  lemma EarnedInTwo(rate: real, a: real, b: real, c: real)
    ensures Earned(b - a, rate) + Earned(c - b, rate) == Earned(c - a, rate)
  {
    assert (b - a) * rate + (c - b) * rate == (c - a) * rate;
  }

  lemma AfterValid(b: Bucket, now: real)
    requires b.Valid() && b.last <= now
    ensures b.After(now).Valid()
  {
    MoreTimeEarnsMore(b.rate, 0.0, now - b.last);
  }

  /** Tokens stay within [0, burst] over every run of a clock that does not go back. */
  lemma {:induction false} TokensStayInRange(b: Bucket, times: seq<real>)
    requires b.Valid() && Ascending(b.last, times)
    ensures RunCalls(b, times).Valid() && RunCalls(b, times).burst == b.burst && RunCalls(b, times).rate == b.rate
    ensures times != [] ==> RunCalls(b, times).last == times[|times| - 1]
    decreases |times|
  {
    if times != [] {
      AfterValid(b, times[0]);
      TokensStayInRange(b.After(times[0]), times[1..]);
    }
  }

  /** What was spent and what is left came from the start and from the clock. */
  lemma {:induction false} Budget(b: Bucket, times: seq<real>)
    requires b.Valid() && Ascending(b.last, times)
    ensures Allowed(b, times) as real + RunCalls(b, times).tokens <= b.tokens + Earned(RunCalls(b, times).last - b.last, b.rate)
    decreases |times|
  {
    if times == [] {
      MoreTimeEarnsMore(b.rate, 0.0, 0.0);
    } else {
      AfterValid(b, times[0]);
      Budget(b.After(times[0]), times[1..]);
      EarnedInTwo(b.rate, b.last, times[0], RunCalls(b, times).last);
    }
  }

  lemma {:induction false} PassHeld(b: Bucket, now: real, n: nat)
    requires b.Valid() && b.last == now
    ensures Allowed(b, seq(n, _ => now)) == if n as real <= b.tokens then n else b.tokens.Floor
    decreases n
  {
    var times := seq(n, _ => now);
    if n > 0 {
      assert times[0] == now && times[1..] == seq(n - 1, _ => now);
      MoreTimeEarnsMore(b.rate, 0.0, 0.0);
      PassHeld(b.After(now), now, n - 1);
      assert (b.tokens - 1.0).Floor == b.tokens.Floor - 1;
    }
  }

  /** The exact number of calls that pass at one moment: the whole tokens the bucket then holds, which are
      those left over and those earned since, up to the burst. */
  lemma PassAtOnce(b: Bucket, now: real, n: nat, held: real)
    requires b.Valid() && b.last <= now && IsHeld(b, now, held)
    ensures Allowed(b, seq(n, _ => now)) == if n as real <= held then n else held.Floor
  {
    RefilledIsHeld(b, now, held);
    PassRefilled(b, now, n);
  }

  /** `held` is what was left and what has been earned since, up to the burst. */
  predicate IsHeld(b: Bucket, now: real, held: real) {
    var earned := b.tokens + (now - b.last) * b.rate;
    held == if earned > b.burst then b.burst else earned
  }

  lemma RefilledIsHeld(b: Bucket, now: real, held: real)
    requires IsHeld(b, now, held)
    ensures b.Refilled(now) == held
  {
  }

  lemma PassRefilled(b: Bucket, now: real, n: nat)
    requires b.Valid() && b.last <= now
    ensures Allowed(b, seq(n, _ => now)) == if n as real <= b.Refilled(now) then n else b.Refilled(now).Floor
  {
    var c := b.(tokens := b.Refilled(now), last := now);
    MoreTimeEarnsMore(b.rate, 0.0, now - b.last);
    PassHeld(c, now, n);
    if n > 0 {
      var times := seq(n, _ => now);
      assert c.Refilled(now) == b.Refilled(now) && times[0] == now;
    }
  }

  /** A new bucket passes its whole burst at once, and not one call more. */
  lemma NewBucketPassesItsBurst(rate: real, burst: real, now: real, n: nat)
    requires rate >= 0.0 && burst >= 0.0
    ensures Allowed(Full(rate, burst, now), seq(n, _ => now)) == if n as real <= burst then n else burst.Floor
  {
    PassHeld(Full(rate, burst, now), now, n);
  }

  lemma {:induction false} AscendingSplit(from: real, early: seq<real>, late: seq<real>)
    requires Ascending(from, early + late)
    ensures Ascending(from, early) && Ascending(if early == [] then from else early[|early| - 1], late)
    decreases |early|
  {
    if early == [] {
      assert early + late == late;
    } else {
      assert (early + late)[1..] == early[1..] + late;
      AscendingSplit(early[0], early[1..], late);
    }
  }

  lemma {:induction false} RunSplit(b: Bucket, early: seq<real>, late: seq<real>)
    ensures RunCalls(b, early + late) == RunCalls(RunCalls(b, early), late)
    ensures Allowed(b, early + late) == Allowed(b, early) + Allowed(RunCalls(b, early), late)
    decreases |early|
  {
    if early == [] {
      assert early + late == late;
    } else {
      assert (early + late)[1..] == early[1..] + late;
      RunSplit(b.After(early[0]), early[1..], late);
    }
  }

  lemma StretchBound(c: Bucket, window: seq<real>)
    requires c.Valid() && window != [] && Ascending(c.last, window)
    ensures Allowed(c, window) as real <= c.burst + Earned(window[|window| - 1] - window[0], c.rate)
  {
    AfterValid(c, window[0]);
    Budget(c.After(window[0]), window[1..]);
    TokensStayInRange(c.After(window[0]), window[1..]);
  }

  /** In any stretch of calls of any run, at most burst + rate * T are allowed, T being at least the
      time from the first to the last of them. */
  lemma WindowBound(b: Bucket, early: seq<real>, window: seq<real>, late: seq<real>, T: real)
    requires b.Valid() && Ascending(b.last, early + (window + late)) && T >= 0.0
    requires window != [] ==> window[|window| - 1] - window[0] <= T
    ensures Allowed(RunCalls(b, early), window) as real <= b.burst + Earned(T, b.rate)
    ensures Allowed(b, early + (window + late)) == Allowed(b, early) + Allowed(RunCalls(b, early), window) + Allowed(RunCalls(b, early + window), late)
  {
    var c := RunCalls(b, early);
    RunSplit(b, early, window + late);
    RunSplit(b, early, window);
    RunSplit(c, window, late);
    AscendingSplit(b.last, early, window + late);
    AscendingSplit(if early == [] then b.last else early[|early| - 1], window, late);
    TokensStayInRange(b, early);
    MoreTimeEarnsMore(b.rate, 0.0, T);
    if window != [] {
      MoreTimeEarnsMore(b.rate, window[|window| - 1] - window[0], T);
      StretchBound(c, window);
    }
  }

  /** A caller who waits 1/rate between calls is never refused. */
  lemma {:induction false} SpacedCallsPass(b: Bucket, times: seq<real>)
    requires b.Valid() && b.burst >= 1.0 && Ascending(b.last, times)
    requires times != [] ==> b.Allows(times[0])
    requires forall i :: 0 < i < |times| ==> Earned(times[i] - times[i - 1], b.rate) >= 1.0
    ensures Allowed(b, times) == |times|
    decreases |times|
  {
    if times != [] {
      AfterValid(b, times[0]);
      SpacedCallsPass(b.After(times[0]), times[1..]);
    }
  }

  class TokenBucket {
    var tokens: real
    const rate: real
    const burst: real
    var lastTime: real

    constructor (rate: real, burst: real, now: real)
      ensures View() == Full(rate, burst, now)
    {
      this.rate, this.burst := rate, burst;
      tokens, lastTime := burst, now;
    }

    ghost function View(): Bucket
      reads this
    {
      Bucket(tokens, lastTime, rate, burst)
    }

    method Allow(now: real) returns (ok: bool)
      modifies this
      ensures ok == old(View()).Allows(now) && View() == old(View()).After(now)
    {
      var elapsed := now - lastTime;
      lastTime := now;
      tokens := tokens + Earned(elapsed, rate);
      if tokens > burst { tokens := burst; }
      if tokens < 1.0 { return false; }
      tokens := tokens - 1.0;
      ok := true;
    }
  }

  class ConnectionLimiter {
    const bucket: TokenBucket
    var drops: nat
    ghost var times: seq<real>
    ghost var first: Bucket

    /** Every call is either allowed or counted as dropped, and the answers are the bucket's. */
    ghost predicate Accounts()
      reads this, bucket
    {
      bucket.View() == RunCalls(first, times) && |times| == Allowed(first, times) + drops
    }

    constructor (rate: real, burst: real, now: real)
      ensures Accounts() && times == [] && first == Full(rate, burst, now) && fresh(bucket)
    {
      bucket := new TokenBucket(rate, burst, now);
      drops, times, first := 0, [], Full(rate, burst, now);
    }

    method Allow(now: real) returns (ok: bool)
      requires Accounts()
      modifies this, bucket
      ensures Accounts() && times == old(times) + [now] && first == old(first)
      ensures ok == old(bucket.View()).Allows(now) && drops == old(drops) + if ok then 0 else 1
    {
      ok := bucket.Allow(now);
      if !ok { drops := drops + 1; }
      RunSplit(first, times, [now]);
      times := times + [now];
    }
  }

  // ---------- one bucket per address ----------

  /** A call from `ip`: the clock is read for a bucket that may be thrown away, then by the bucket
      that answers. */
  datatype Call = Call(ip: string, created: real, now: real)

  datatype Limiter = Limiter(buckets: map<string, Bucket>, drops: nat, rate: real, burst: real)
  {
    function BucketFor(c: Call): Bucket {
      if c.ip in buckets then buckets[c.ip] else Full(rate, burst, c.created)
    }

    predicate Allows(c: Call) {
      BucketFor(c).Allows(c.now)
    }

    function After(c: Call): Limiter {
      this.(buckets := buckets[c.ip := BucketFor(c).After(c.now)], drops := drops + if Allows(c) then 0 else 1)
    }
  }

  function RunLimiter(l: Limiter, calls: seq<Call>): Limiter
    decreases |calls|
  {
    if calls == [] then l else RunLimiter(l.After(calls[0]), calls[1..])
  }

  /** The allowed calls, all of them or those of one address. */
  function Passed(l: Limiter, calls: seq<Call>, from: Option<string>): nat
    decreases |calls|
  {
    if calls == [] then 0
    else (if l.Allows(calls[0]) && (from == None || from == Some(calls[0].ip)) then 1 else 0) + Passed(l.After(calls[0]), calls[1..], from)
  }

  /** One address's calls in a run. */
  function CallsOf(calls: seq<Call>, ip: string): seq<Call> {
    if calls == [] then [] else (if calls[0].ip == ip then [calls[0]] else []) + CallsOf(calls[1..], ip)
  }

  function Times(calls: seq<Call>): seq<real> {
    seq(|calls|, i requires 0 <= i < |calls| => calls[i].now)
  }

  /** The bucket that answers an address's calls, as it is before the first of them. */
  function BucketOf(l: Limiter, calls: seq<Call>, ip: string): Bucket {
    if ip in l.buckets then l.buckets[ip]
    else Full(l.rate, l.burst, if CallsOf(calls, ip) == [] then 0.0 else CallsOf(calls, ip)[0].created)
  }

  /** An address is answered exactly as if nobody else called: its bucket and the number of its calls
      allowed depend on its own calls alone. */
  lemma {:induction false} AddressesDoNotInterfere(l: Limiter, calls: seq<Call>, ip: string)
    ensures var mine := Times(CallsOf(calls, ip));
            && Passed(l, calls, Some(ip)) == Allowed(BucketOf(l, calls, ip), mine)
            && (ip in RunLimiter(l, calls).buckets <==> ip in l.buckets || mine != [])
            && (ip in RunLimiter(l, calls).buckets ==> RunLimiter(l, calls).buckets[ip] == RunCalls(BucketOf(l, calls, ip), mine))
    decreases |calls|
  {
    if calls != [] {
      var m := l.After(calls[0]);
      AddressesDoNotInterfere(m, calls[1..], ip);
      if calls[0].ip == ip {
        var rest := CallsOf(calls[1..], ip);
        assert CallsOf(calls, ip)[0] == calls[0];
        assert Times(CallsOf(calls, ip))[1..] == Times(rest);
      } else {
        assert CallsOf(calls, ip) == CallsOf(calls[1..], ip);
      }
    }
  }

  lemma {:induction false} CallsAreAllowedOrDropped(l: Limiter, calls: seq<Call>)
    ensures |calls| + l.drops == Passed(l, calls, None) + RunLimiter(l, calls).drops
    decreases |calls|
  {
    if calls != [] { CallsAreAllowedOrDropped(l.After(calls[0]), calls[1..]); }
  }

  /** The window bound, address by address, in any stretch of that address's calls to a new limiter
      and whatever the other addresses do. */
  lemma AddressWindowBound(l: Limiter, calls: seq<Call>, ip: string, early: seq<real>, window: seq<real>, late: seq<real>, T: real)
    requires l.rate >= 0.0 && l.burst >= 0.0 && T >= 0.0 && l.buckets == map[]
    requires Times(CallsOf(calls, ip)) == early + (window + late) && Ascending(BucketOf(l, calls, ip).last, early + (window + late))
    requires window != [] ==> window[|window| - 1] - window[0] <= T
    ensures var b := BucketOf(l, calls, ip);
            && Passed(l, calls, Some(ip)) == Allowed(b, early) + Allowed(RunCalls(b, early), window) + Allowed(RunCalls(b, early + window), late)
            && Allowed(RunCalls(b, early), window) as real <= l.burst + Earned(T, l.rate)
  {
    AddressesDoNotInterfere(l, calls, ip);
    WindowBound(BucketOf(l, calls, ip), early, window, late, T);
  }

  class IpLimiter {
    var buckets: map<string, TokenBucket>
    const rate: real
    const burst: real
    var drops: nat

    constructor (rate: real, burst: real)
      ensures Valid() && View() == Limiter(map[], 0, rate, burst)
    {
      this.rate, this.burst := rate, burst;
      buckets, drops := map[], 0;
    }

    /** No two addresses share a bucket object. */
    ghost predicate Valid()
      reads this
    {
      forall a, b :: a in buckets && b in buckets && a != b ==> buckets[a] != buckets[b]
    }

    ghost function View(): Limiter
      reads this, buckets.Values
    {
      Limiter(map ip | ip in buckets :: buckets[ip].View(), drops, rate, burst)
    }

    method Allow(ip: string, created: real, now: real) returns (ok: bool)
      requires Valid()
      modifies this, buckets.Values
      ensures Valid() && fresh(buckets.Values - old(buckets.Values))
      ensures ok == old(View()).Allows(Call(ip, created, now)) && View() == old(View()).After(Call(ip, created, now))
    {
      LoadOrStore(ip, created);
      ok := Ask(ip, now);
    }

    /** The address has a bucket from here on: its own, or a new one made at `created`. */
    method LoadOrStore(ip: string, created: real)
      requires Valid()
      modifies this`buckets
      ensures Valid() && ip in buckets && fresh(buckets.Values - old(buckets.Values))
      ensures View() == old(View()).(buckets := old(View()).buckets[ip := old(View()).BucketFor(Call(ip, created, created))])
    {
      var spare := new TokenBucket(rate, burst, created);
      if ip !in buckets { buckets := buckets[ip := spare]; }
    }

    method Ask(ip: string, now: real) returns (ok: bool)
      requires Valid() && ip in buckets
      modifies this`drops, buckets[ip]
      ensures ok == old(View()).buckets[ip].Allows(now)
      ensures View() == old(View()).(buckets := old(View()).buckets[ip := old(View()).buckets[ip].After(now)], drops := old(drops) + if ok then 0 else 1)
    {
      ok := buckets[ip].Allow(now);
      if !ok { drops := drops + 1; }
    }
  }
}
