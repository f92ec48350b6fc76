/** The two token buckets that pace calls to Google (app/ledger/async_google.py:32-68,
    app/sync/google_calendar.py:57-101), over real time. */
module RateLimits {
  import opened Base

  function Max(a: real, b: real): real {
    if a >= b then a else b
  }

  function Min(a: real, b: real): real {
    if a <= b then a else b
  }

  // ---------------------------------------------------------------------------
  // What a history of grants says about windows
  // ---------------------------------------------------------------------------

  /** `stamps[k]` is when the k-th call was let through, in tokens (seconds times the rate), and
      `levels[k]` what the bucket held right after.  Between two grants the bucket gains at most the
      tokens of the time between them, and a grant costs one. */
  ghost predicate Paced(stamps: seq<real>, levels: seq<real>, size: real) {
    && |levels| == |stamps|
    && (forall k :: 0 <= k < |stamps| ==> 0.0 <= levels[k] <= size - 1.0)
    && (forall k :: 0 < k < |stamps| ==>
          stamps[k - 1] <= stamps[k] && levels[k] + 1.0 <= levels[k - 1] + stamps[k] - stamps[k - 1])
  }

  lemma {:induction false} GrantsBetween(stamps: seq<real>, levels: seq<real>, size: real, i: nat, j: nat)
    requires Paced(stamps, levels, size) && i <= j < |stamps|
    ensures (j - i) as real + levels[j] <= levels[i] + stamps[j] - stamps[i]
    decreases j - i
  {
    if i < j {
      GrantsBetween(stamps, levels, size, i, j - 1);
    }
  }

  lemma OneMoreGrant(stamps: seq<real>, levels: seq<real>, size: real, stamp: real, level: real)
    requires Paced(stamps, levels, size) && 0.0 <= level <= size - 1.0
    requires stamps != [] ==>
      stamps[|stamps| - 1] <= stamp && level + 1.0 <= levels[|levels| - 1] + stamp - stamps[|stamps| - 1]
    ensures Paced(stamps + [stamp], levels + [level], size)
  {
  }

  /** How many grants fall into a window. */
  ghost function CountIn(grants: seq<real>, from: real, to: real): nat {
    if grants == [] then 0
    else
      var last := grants[|grants| - 1];
      CountIn(grants[..|grants| - 1], from, to) + if from <= last <= to then 1 else 0
  }

  /** The grants in a window lie between its first and its last one. */
  lemma {:induction false} CountIsSpanned(grants: seq<real>, from: real, to: real) returns (i: nat, j: nat)
    requires CountIn(grants, from, to) > 0
    ensures i <= j < |grants| && CountIn(grants, from, to) <= j - i + 1
    ensures from <= grants[j] <= to && from <= grants[i] <= to
    decreases |grants|
  {
    var n := |grants| - 1;
    if CountIn(grants[..n], from, to) == 0 {
      i, j := n, n;
    } else {
      i, j := CountIsSpanned(grants[..n], from, to);
      if from <= grants[n] <= to { j := n; }
    }
  }

  ghost predicate Stamped(grants: seq<real>, stamps: seq<real>, rate: real) {
    |stamps| == |grants| && forall k :: 0 <= k < |grants| ==> stamps[k] == Tokens(rate, grants[k])
  }

  /** What a bucket gains in a time. */
  function Tokens(rate: real, seconds: real): real {
    seconds * rate
  }

  lemma TokensAddUp(rate: real, a: real, b: real)
    ensures Tokens(rate, b) == Tokens(rate, a) + Tokens(rate, b - a)
  {
  }

  lemma TokensGrow(rate: real, a: real, b: real)
    requires rate > 0.0 && a <= b
    ensures Tokens(rate, a) <= Tokens(rate, b) && Tokens(rate, b - a) >= 0.0
  {
    assert (b - a) * rate >= 0.0;
  }

  /** Any window of length T contains at most size + rate * T grants. */
  lemma WindowBound(grants: seq<real>, stamps: seq<real>, levels: seq<real>, rate: real, size: real, from: real, T: real)
    requires Stamped(grants, stamps, rate) && Paced(stamps, levels, size) && rate > 0.0 && T >= 0.0 && size >= 0.0
    ensures CountIn(grants, from, from + T) as real <= size + Tokens(rate, T)
  {
    TokensGrow(rate, 0.0, T);
    if CountIn(grants, from, from + T) > 0 {
      var i, j := CountIsSpanned(grants, from, from + T);
      GrantsBetween(stamps, levels, size, i, j);
      TokensAddUp(rate, grants[i], grants[j]);
      TokensGrow(rate, grants[j] - grants[i], T);
    }
  }

  // ---------------------------------------------------------------------------
  // The asynchronous limiter
  // ---------------------------------------------------------------------------

  class AsyncRateLimiter {
    const rate: real
    const capacity: real
    var tokens: real
    var updated: real
    ghost var grants: seq<real>
    ghost var stamps: seq<real>
    ghost var levels: seq<real>

    constructor (ratePerSec: real, burst: Option<real>, now: real)
      ensures Valid() && grants == [] && updated == now
      ensures rate == Max(0.0, ratePerSec) && capacity == if burst.Some? then burst.value else Max(1.0, rate)
    {
      var r := Max(0.0, ratePerSec);
      rate := r;
      var c := if burst.Some? then burst.value else Max(1.0, r);
      capacity := c;
      tokens := c;
      updated := now;
      grants, stamps, levels := [], [], [];
    }

    /** The bucket right after its last grant. */
    ghost predicate Valid()
      reads this
    {
      && Stamped(grants, stamps, rate) && Paced(stamps, levels, Max(1.0, capacity))
      && tokens <= Max(0.0, capacity)
      && (grants != [] ==> tokens == levels[|levels| - 1] && updated == grants[|grants| - 1])
    }

    /** Whatever the calls so far, a window of length T holds at most capacity + rate * T grants. */
    lemma AnyWindow(from: real, T: real)
      requires Valid() && rate > 0.0 && T >= 0.0
      ensures CountIn(grants, from, from + T) as real <= Max(1.0, capacity) + Tokens(rate, T)
      ensures tokens <= Max(0.0, capacity) && (grants != [] ==> tokens >= 0.0)
    {
      WindowBound(grants, stamps, levels, rate, Max(1.0, capacity), from, T);
    }

    /** Under the lock: `now` is the clock on entry, `wake` the clock after the sleep, if there is one;
        a sleep lasts at least as long as asked.  With a rate of zero the limiter is off. */
    method Acquire(now: real, wake: real)
      requires Valid() && now >= updated
      requires rate > 0.0 ==> var t := Refilled(now); t < 1.0 ==> wake >= now + Delay(rate, t)
      modifies this
      ensures Valid()
      ensures rate <= 0.0 ==> grants == old(grants) && tokens == old(tokens) && updated == old(updated)
      ensures rate > 0.0 ==> updated == (if old(Refilled(now)) < 1.0 then wake else now) && grants == old(grants) + [updated]
      ensures rate > 0.0 ==> tokens == if old(Refilled(now)) < 1.0 then 0.0 else old(Refilled(now)) - 1.0
    {
      if rate <= 0.0 {
        return;
      }
      var full := Refilled(now);
      ghost var at, left := if full < 1.0 then wake else now, if full < 1.0 then 0.0 else full - 1.0;
      AsyncStep(rate, capacity, tokens, updated, now, wake, full, at, left);
      AsyncGrantKeeps(rate, Max(1.0, capacity), tokens, updated, grants, stamps, levels, at, left);
      Spend(full, now, wake, Tokens(rate, at));
    }

    /** The bucket is refilled to `full`; a missing part of a token is slept for, and one token is spent.
        `stamp` is the time of the grant, in tokens. */
    method Spend(full: real, now: real, wake: real, ghost stamp: real)
      requires var at, left := if full < 1.0 then wake else now, if full < 1.0 then 0.0 else full - 1.0;
               && left <= Max(0.0, capacity)
               && Stamped(grants + [at], stamps + [stamp], rate) && Paced(stamps + [stamp], levels + [left], Max(1.0, capacity))
      modifies this
      ensures Valid() && updated == (if full < 1.0 then wake else now) && grants == old(grants) + [updated]
      ensures tokens == if full < 1.0 then 0.0 else full - 1.0
    {
      tokens := full;
      updated := now;
      if tokens < 1.0 {
        tokens := 1.0;
        updated := wake;
      }
      tokens := tokens - 1.0;
      grants, stamps, levels := grants + [updated], stamps + [stamp], levels + [tokens];
    }

    function Refilled(now: real): real
      reads this
    {
      Min(capacity, tokens + Tokens(rate, now - updated))
    }

    /** A call is let through at once exactly if the missing part of its token was earned since the last
        one, and the bucket can hold a whole token. */
    lemma EarnedTokenIsThere(now: real)
      requires rate > 0.0
      ensures Refilled(now) >= 1.0 <==> capacity >= 1.0 && now >= updated + Delay(rate, tokens)
    {
      DelayIsLeast(rate, tokens, now - updated);
    }
  }

  /** How long until a whole token is there. */
  function Delay(rate: real, tokens: real): real
    requires rate > 0.0
  {
    (1.0 - tokens) / rate
  }

  /** The delay is the least time in which the missing part of a token comes in. */
  lemma DelayIsLeast(rate: real, tokens: real, seconds: real)
    requires rate > 0.0
    ensures tokens + Tokens(rate, seconds) >= 1.0 <==> seconds >= Delay(rate, tokens)
  {
    var need := Delay(rate, tokens);
    assert need * rate == 1.0 - tokens;
    if seconds >= need { TokensGrow(rate, need, seconds); }
    else { assert (need - seconds) * rate > 0.0; }
  }

  /** One call: when it is let through, and what it leaves in the bucket. */
  lemma AsyncStep(rate: real, capacity: real, tokens: real, updated: real, now: real, wake: real, full: real, at: real, left: real)
    requires rate > 0.0 && now >= updated && full == Min(capacity, tokens + Tokens(rate, now - updated))
    requires full < 1.0 ==> wake >= now + Delay(rate, full) && at == wake && left == 0.0
    requires full >= 1.0 ==> at == now && left == full - 1.0
    ensures 0.0 <= left <= Max(1.0, capacity) - 1.0 && left <= Max(0.0, capacity)
    ensures Tokens(rate, at) >= Tokens(rate, updated) && left + 1.0 <= tokens + Tokens(rate, at) - Tokens(rate, updated)
  {
    TokensAddUp(rate, updated, now);
    TokensGrow(rate, updated, now);
    if full < 1.0 {
      SleepIsLongEnough(rate, full, now, wake);
      TokensAddUp(rate, now, wake);
    }
  }

  lemma AsyncGrantKeeps(rate: real, size: real, tokens: real, updated: real,
                        grants: seq<real>, stamps: seq<real>, levels: seq<real>, at: real, left: real)
    requires Stamped(grants, stamps, rate) && Paced(stamps, levels, size)
    requires grants != [] ==> tokens == levels[|levels| - 1] && updated == grants[|grants| - 1]
    requires 0.0 <= left <= size - 1.0
    requires Tokens(rate, at) >= Tokens(rate, updated) && left + 1.0 <= tokens + Tokens(rate, at) - Tokens(rate, updated)
    ensures Stamped(grants + [at], stamps + [Tokens(rate, at)], rate) && Paced(stamps + [Tokens(rate, at)], levels + [left], size)
  {
    OneMoreGrant(stamps, levels, size, Tokens(rate, at), left);
  }

  lemma SleepIsLongEnough(rate: real, tokens: real, now: real, wake: real)
    requires rate > 0.0 && tokens < 1.0 && wake >= now + Delay(rate, tokens)
    ensures Tokens(rate, wake - now) >= 1.0 - tokens && wake >= now
  {
    var need := Delay(rate, tokens);
    assert need * rate == 1.0 - tokens;
    TokensGrow(rate, need, wake - now);
    if need < 0.0 { TokensGrow(rate, need, 0.0); }
  }

  // ---------------------------------------------------------------------------
  // The thread-safe limiter
  // ---------------------------------------------------------------------------

  class RateLimiter {
    const rate: real
    const burst: int
    var tokens: real
    var lastRefill: real
    var backoffUntil: real
    ghost var clock: real
    ghost var grants: seq<real>
    ghost var stamps: seq<real>
    ghost var levels: seq<real>
    /** Backoffs imposed so far: until when, and how many grants had been given. */
    ghost var pauses: seq<(real, nat)>

    constructor (rate: real, burst: int, now: real)
      requires rate > 0.0 && burst >= 1
      ensures Valid() && grants == [] && pauses == [] && clock == now && this.rate == rate && this.burst == burst
    {
      this.rate := rate;
      this.burst := burst;
      tokens := burst as real;
      lastRefill := now;
      backoffUntil := 0.0;
      clock := now;
      grants, stamps, levels, pauses := [], [], [], [];
    }

    ghost predicate Valid()
      reads this
    {
      && burst >= 1 && lastRefill <= clock
      && BucketOk(rate, burst as real, tokens, lastRefill, grants, stamps, levels)
      && Respected(pauses, grants, backoffUntil)
    }

    /** Whatever the calls, threads and backoffs so far, a window of length T holds at most
        burst + rate * T grants, and no grant given after a backoff was asked for fell inside it. */
    lemma AnyWindow(from: real, T: real)
      requires Valid() && T >= 0.0
      ensures CountIn(grants, from, from + T) as real <= burst as real + Tokens(rate, T) && 0.0 <= tokens <= burst as real
      ensures forall p, k :: p in pauses && p.1 <= k < |grants| ==> grants[k] >= p.0
    {
      WindowBound(grants, stamps, levels, rate, burst as real, from, T);
    }

    /** What the bucket holds once refilled. */
    function Refilled(now: real): real
      reads this
    {
      Min(burst as real, tokens + Tokens(rate, now - lastRefill))
    }

    /** Outside a backoff a look is granted exactly if the missing part of a token was earned since the last
        look. */
    lemma EarnedTokenIsThere(now: real)
      requires Valid() && rate > 0.0
      ensures Refilled(now) >= 1.0 <==> now >= lastRefill + Delay(rate, tokens)
    {
      DelayIsLeast(rate, tokens, now - lastRefill);
    }

    /** The block under the lock.  `now` is read inside it, so it never runs backwards; `held` is what
        the bucket holds when it looks. */
    method Try(now: real) returns (granted: bool, wait: real, ghost held: real)
      requires Valid() && now >= clock
      modifies this
      ensures Valid() && clock == now && pauses == old(pauses) && backoffUntil == old(backoffUntil)
      ensures held == old(Refilled(now))
      ensures granted == (now >= backoffUntil && held >= 1.0)
      ensures grants == if granted then old(grants) + [now] else old(grants)
      ensures now < backoffUntil ==> now + wait == backoffUntil && tokens == old(tokens) && lastRefill == old(lastRefill)
      ensures now >= backoffUntil ==> lastRefill == now && tokens == if granted then held - 1.0 else held
      ensures now >= backoffUntil && !granted ==> wait == Delay(rate, tokens)
    {
      held := Refilled(now);
      if now < backoffUntil {
        clock := now;
        return false, backoffUntil - now, held;
      }
      var full := Refilled(now);
      RefillKeeps(rate, burst as real, tokens, lastRefill, grants, stamps, levels, now, full);
      granted := full >= 1.0;
      wait := if granted then 0.0 else Delay(rate, full);
      Refill(now, full);
      if granted {
        Take();
      }
    }

    method Refill(now: real, full: real)
      requires Valid() && clock <= now && BucketOk(rate, burst as real, full, now, grants, stamps, levels)
      modifies this`clock, this`tokens, this`lastRefill
      ensures Valid() && clock == lastRefill == now && tokens == full
    {
      clock, tokens, lastRefill := now, full, now;
    }

    method Take()
      requires Valid() && tokens >= 1.0 && clock == lastRefill >= backoffUntil
      modifies this`tokens, this`grants, this`stamps, this`levels
      ensures Valid() && tokens == old(tokens) - 1.0 && grants == old(grants) + [clock]
    {
      GrantKeeps(rate, burst as real, tokens, clock, grants, stamps, levels);
      GrantRespects(pauses, grants, backoffUntil, clock);
      tokens := tokens - 1.0;
      grants, stamps, levels := grants + [clock], stamps + [Tokens(rate, clock)], levels + [tokens];
    }

    /** A pause after a rate-limit response. */
    method Backoff(seconds: real, now: real)
      requires Valid() && now >= clock
      modifies this
      ensures Valid() && grants == old(grants) && tokens == old(tokens) && clock == now
      ensures backoffUntil == Max(old(backoffUntil), now + seconds) && pauses == old(pauses) + [(now + seconds, |grants|)]
    {
      clock := now;
      var target := now + seconds;
      if target > backoffUntil {
        backoffUntil := target;
      }
      pauses := pauses + [(target, |grants|)];
    }

    /** A whole token will be there at the next look. */
    ghost predicate Ripe(now: real)
      reads this
    {
      lastRefill <= now && tokens + Tokens(rate, now - lastRefill) >= 1.0
    }

    lemma RipeStays(earlier: real, later: real)
      requires rate > 0.0 && burst >= 1 && Ripe(earlier) && earlier <= later
      ensures Refilled(later) >= 1.0
    {
      TokensGrow(rate, earlier - lastRefill, later - lastRefill);
    }

    lemma SleepRipens(now: real, wake: real)
      requires rate > 0.0 && lastRefill == now && tokens < 1.0 && wake >= now + Delay(rate, tokens)
      ensures Ripe(wake)
    {
      SleepIsLongEnough(rate, tokens, now, wake);
    }

    /** One turn of the loop of `acquire`. */
    method Attempt(clocks: Clock) returns (granted: bool)
      requires Valid() && clocks.Valid() && clocks.now >= clock
      modifies this, clocks
      ensures Valid() && clocks.Valid() && clocks.now >= clock && clocks.now >= old(clocks.now)
      ensures pauses == old(pauses) && backoffUntil == old(backoffUntil)
      ensures if granted then grants == old(grants) + [clock] && clock >= backoffUntil else grants == old(grants)
      ensures !granted ==> clocks.now >= backoffUntil
      ensures old(clocks.now) >= backoffUntil && !granted ==> Ripe(clocks.now)
      ensures old(clocks.now >= backoffUntil && Ripe(clocks.now)) ==> granted
    {
      var now := clocks.Monotonic();
      if Ripe(old(clocks.now)) {
        RipeStays(old(clocks.now), now);
      }
      var wait;
      ghost var held;
      granted, wait, held := Try(now);
      if !granted {
        clocks.Sleep(wait);
        if now >= backoffUntil {
          SleepRipens(now, clocks.now);
        }
      }
    }

    /** `acquire` with nobody else about: it waits out a backoff, then for a token, and is let through
        by its third look at the clock. */
    method Acquire(clocks: Clock) returns (looks: nat)
      requires Valid() && clocks.Valid() && clocks.now >= clock
      modifies this, clocks
      ensures Valid() && clocks.Valid() && 1 <= looks <= 3 && clocks.now >= clock
      ensures grants == old(grants) + [clock] && clock >= backoffUntil && pauses == old(pauses)
    {
      looks := 0;
      var granted := false;
      while !granted
        invariant Valid() && clocks.Valid() && clocks.now >= clock && looks <= 3
        invariant pauses == old(pauses) && backoffUntil == old(backoffUntil)
        invariant if granted then looks >= 1 && grants == old(grants) + [clock] && clock >= backoffUntil else grants == old(grants)
        invariant !granted && looks >= 1 ==> clocks.now >= backoffUntil
        invariant !granted && looks >= 2 ==> Ripe(clocks.now)
        invariant looks == 3 ==> granted
        decreases 3 - looks
      {
        granted := Attempt(clocks);
        looks := looks + 1;
      }
    }
  }

  // What the bucket owes its history.
  ghost predicate BucketOk(rate: real, size: real, tokens: real, since: real,
                           grants: seq<real>, stamps: seq<real>, levels: seq<real>) {
    && rate > 0.0 && 0.0 <= tokens <= size
    && Stamped(grants, stamps, rate) && Paced(stamps, levels, size)
    && (stamps != [] ==>
          stamps[|stamps| - 1] <= Tokens(rate, since) &&
          tokens <= levels[|levels| - 1] + Tokens(rate, since) - stamps[|stamps| - 1])
  }

  lemma RefillKeeps(rate: real, size: real, tokens: real, since: real,
                    grants: seq<real>, stamps: seq<real>, levels: seq<real>, now: real, full: real)
    requires BucketOk(rate, size, tokens, since, grants, stamps, levels) && since <= now
    requires full == Min(size, tokens + Tokens(rate, now - since))
    ensures BucketOk(rate, size, full, now, grants, stamps, levels)
  {
    TokensAddUp(rate, since, now);
    TokensGrow(rate, since, now);
  }

  lemma GrantKeeps(rate: real, size: real, tokens: real, now: real,
                   grants: seq<real>, stamps: seq<real>, levels: seq<real>)
    requires BucketOk(rate, size, tokens, now, grants, stamps, levels) && tokens >= 1.0
    ensures BucketOk(rate, size, tokens - 1.0, now, grants + [now], stamps + [Tokens(rate, now)], levels + [tokens - 1.0])
  {
    OneMoreGrant(stamps, levels, size, Tokens(rate, now), tokens - 1.0);
  }

  /** No grant since a pause was asked for came before its end. */
  ghost predicate Respected(pauses: seq<(real, nat)>, grants: seq<real>, backoffUntil: real) {
    forall p :: p in pauses ==>
      p.0 <= backoffUntil && p.1 <= |grants| && forall k :: p.1 <= k < |grants| ==> grants[k] >= p.0
  }

  lemma GrantRespects(pauses: seq<(real, nat)>, grants: seq<real>, backoffUntil: real, now: real)
    requires Respected(pauses, grants, backoffUntil) && backoffUntil <= now
    ensures Respected(pauses, grants + [now], backoffUntil)
  {
  }

  /** The process clock: readings never run backwards, and a sleep lasts at least as long as asked. */
  class Clock {
    const drift: nat -> real
    var readings: nat
    var now: real

    constructor (drift: nat -> real, now: real)
      requires forall k :: drift(k) >= 0.0
      ensures Valid() && this.now == now
    {
      this.drift := drift;
      this.readings := 0;
      this.now := now;
    }

    ghost predicate Valid()
      reads this
    {
      forall k :: drift(k) >= 0.0
    }

    method Monotonic() returns (t: real)
      requires Valid()
      modifies this
      ensures Valid() && t == now >= old(now)
    {
      now := now + drift(readings);
      readings := readings + 1;
      t := now;
    }

    method Sleep(seconds: real)
      requires Valid()
      modifies this
      ensures Valid() && now >= old(now) + seconds
    {
      now := now + seconds + drift(readings);
      readings := readings + 1;
    }
  }
}
