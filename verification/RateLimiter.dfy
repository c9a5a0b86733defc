/** The Digi-Key rate limiter (`providers/digikey/rate_limit.rs`): a sliding one-minute window
    and a daily counter, under caps that headers may raise. Times are in nanoseconds. */
module RateLimiter {
  import opened Prelude

  const WINDOW: int := 60_000_000_000
  const SLACK: int := 10_000_000

  /** How many grants at the front are more than a minute old. */
  function ExpiredCount(minute: seq<int>, now: int): (k: nat)
    ensures k <= |minute|
    ensures forall i :: 0 <= i < k ==> now - minute[i] > WINDOW
    ensures k < |minute| ==> now - minute[k] <= WINDOW
  {
    if minute != [] && now - minute[0] > WINDOW then 1 + ExpiredCount(minute[1..], now) else 0
  }

  function DropExpired(minute: seq<int>, now: int): seq<int> { minute[ExpiredCount(minute, now)..] }

  /** How long to sleep when the live grants leave no room. */
  function WaitFor(live: seq<int>, now: int): int
    requires live != []
  {
    var age := now - live[0];
    (if age <= WINDOW then WINDOW - age else 0) + SLACK
  }

  /** One look at the window: the new window, and how long to sleep if there is no room. */
  function Attempt(minute: seq<int>, cap: nat, now: int): (seq<int>, Option<int>) {
    var live := DropExpired(minute, now);
    if |live| < cap || live == [] then (live + [now], None) else (live, Some(WaitFor(live, now)))
  }

  /** The sleeps that are enough when `n` grants are live. */
  function SleepsFor(n: nat, cap: nat): nat { if n < cap then 0 else n - cap + 1 }

  /** Charge one lookup to the day; false when the day's cap is used up. */
  function ChargeDay(dayKey: int, count: nat, key: int, cap: nat): (int, nat, bool) {
    var used := if dayKey == key then count else 0;
    if used >= cap then (key, used, false) else (key, used + 1, true)
  }

  function Raised(current: nat, observed: Option<nat>): nat {
    if observed.Some? && observed.value > current then observed.value else current
  }

  ghost predicate Ascending(xs: seq<int>) {
    forall i, j :: 0 <= i < j < |xs| ==> xs[i] <= xs[j]
  }

  class Limiter {
    var minute: seq<int>
    var dayKey: int
    var dayCount: nat
    var maxPerMinute: nat
    var maxPerDay: nat

    /** `with_limits`: a cap of zero counts as one. */
    constructor (perMinute: nat, perDay: nat)
      ensures minute == [] && dayKey == 0 && dayCount == 0
      ensures maxPerMinute == (if perMinute == 0 then 1 else perMinute)
      ensures maxPerDay == (if perDay == 0 then 1 else perDay)
    {
      minute, dayKey, dayCount := [], 0, 0;
      maxPerMinute := if perMinute == 0 then 1 else perMinute;
      maxPerDay := if perDay == 0 then 1 else perDay;
    }

    method ObserveLimits(burst: Option<nat>, daily: Option<nat>)
      modifies this`maxPerMinute, this`maxPerDay
      ensures maxPerMinute == Raised(old(maxPerMinute), burst)
      ensures maxPerDay == Raised(old(maxPerDay), daily)
    {
      if burst.Some? && burst.value > 0 {
        if burst.value > maxPerMinute {
          maxPerMinute := burst.value;
        }
      }
      if daily.Some? && daily.value > 0 {
        if daily.value > maxPerDay {
          maxPerDay := daily.value;
        }
      }
    }

    method Charge(key: int) returns (ok: bool)
      modifies this`dayKey, this`dayCount
      ensures (dayKey, dayCount, ok) == ChargeDay(old(dayKey), old(dayCount), key, maxPerDay)
    {
      if dayKey != key {
        dayKey, dayCount := key, 0;
      }
      if dayCount >= maxPerDay {
        return false;
      }
      dayCount := dayCount + 1;
      ok := true;
    }

    method PopExpired(now: int)
      modifies this`minute
      ensures minute == DropExpired(old(minute), now)
    {
      while minute != [] && now - minute[0] > WINDOW
        invariant DropExpired(minute, now) == DropExpired(old(minute), now)
        decreases |minute|
      {
        minute := minute[1..];
      }
    }

    /** The window part of `take_slot` for a caller no one interferes with. `wake` is the time
        at which a sleep until the given time really ends; `looks` are the times at which it
        looks at the window. */
    method TakeMinuteSlot(start: int, wake: int -> int) returns (granted: int, sleeps: nat, ghost looks: seq<int>)
      requires WakesLate(wake)
      modifies this`minute
      ensures IsLoneWait(old(minute), CapOf(maxPerMinute), looks, wake)
      ensures looks[0] == start && looks[|looks| - 1] == granted && sleeps == |looks| - 1
      ensures minute == DropExpired(old(minute), granted) + [granted]
      ensures |minute| <= CapOf(maxPerMinute)
    {
      var cap := CapOf(maxPerMinute);
      var now := start;
      sleeps, looks := 0, [start];
      ghost var found := minute;
      while true
        invariant sleeps == |looks| - 1 && looks[0] == start && looks[sleeps] == now
        invariant SameLater(minute, found, now) && Sleeps(found, cap, looks, wake)
        decreases |DropExpired(found, now)|
      {
        ghost var live := DropExpired(found, now);
        assert DropExpired(minute, now) == live;
        var room, until := Look(cap, now);
        if room {
          granted := now;
          return;
        }
        var woken := wake(until);
        NextSleep(found, cap, looks, wake, woken);
        now, sleeps, looks := woken, sleeps + 1, looks + [woken];
      }
    }

    /** One look under the window's lock. */
    method Look(cap: nat, now: int) returns (room: bool, until: int)
      requires cap >= 1
      modifies this`minute
      ensures var live := DropExpired(old(minute), now);
              && (room <==> |live| < cap)
              && minute == (if room then live + [now] else live)
              && (!room ==> until == now + WaitFor(live, now))
    {
      PopExpired(now);
      room, until := |minute| < cap, now;
      if room {
        minute := minute + [now];
      } else {
        until := now + WaitFor(minute, now);
      }
    }
  }

  // ----- a caller no one interferes with -----

  /** No sleep ends early. */
  ghost predicate WakesLate(wake: int -> int) { forall t :: wake(t) >= t }

  /** No room at `now`; the next look is when the sleep ends. */
  ghost predicate IsSleep(minute: seq<int>, cap: nat, now: int, next: int, wake: int -> int) {
    var live := DropExpired(minute, now);
    |live| >= cap && live != [] && next == wake(now + WaitFor(live, now))
  }

  ghost predicate Sleeps(minute: seq<int>, cap: nat, looks: seq<int>, wake: int -> int) {
    forall k :: 0 <= k < |looks| - 1 ==> IsSleep(minute, cap, looks[k], looks[k + 1], wake)
  }

  /** Looks at the window with sleeps between them, until there is room at the last. */
  ghost predicate IsLoneWait(minute: seq<int>, cap: nat, looks: seq<int>, wake: int -> int) {
    looks != [] && Sleeps(minute, cap, looks, wake) && |DropExpired(minute, looks[|looks| - 1])| < cap
  }

  lemma NextSleep(minute: seq<int>, cap: nat, looks: seq<int>, wake: int -> int, woken: int)
    requires WakesLate(wake) && looks != [] && Sleeps(minute, cap, looks, wake)
    requires IsSleep(minute, cap, looks[|looks| - 1], woken, wake)
    ensures Sleeps(minute, cap, looks + [woken], wake)
    ensures SameLater(DropExpired(minute, looks[|looks| - 1]), minute, woken)
    ensures |DropExpired(minute, woken)| < |DropExpired(minute, looks[|looks| - 1])|
  {
    var now := looks[|looks| - 1];
    FewerLive(minute, now, woken);
    LiveLater(minute, now, woken);
  }

  /** Each sleep costs the window a grant. */
  lemma {:induction false} SleepsExpire(minute: seq<int>, cap: nat, looks: seq<int>, wake: int -> int, k: nat)
    requires cap >= 1 && WakesLate(wake) && k < |looks| && Sleeps(minute, cap, looks, wake)
    ensures |DropExpired(minute, looks[k])| + k <= |DropExpired(minute, looks[0])|
  {
    if k > 0 {
      SleepsExpire(minute, cap, looks, wake, k - 1);
      assert IsSleep(minute, cap, looks[k - 1], looks[k - 1 + 1], wake);
      OldestExpires(DropExpired(minute, looks[k - 1]), looks[k - 1], looks[k]);
      ExpiredStays(minute, looks[k - 1], looks[k]);
    }
  }

  /** A lone caller sleeps at most once per live grant that has to go. */
  lemma LoneWaitBound(minute: seq<int>, cap: nat, looks: seq<int>, wake: int -> int)
    requires cap >= 1 && WakesLate(wake) && IsLoneWait(minute, cap, looks, wake)
    ensures |looks| - 1 <= SleepsFor(|DropExpired(minute, looks[0])|, cap)
  {
    if |looks| > 1 {
      var k := |looks| - 2;
      SleepsExpire(minute, cap, looks, wake, k);
      assert IsSleep(minute, cap, looks[k], looks[k + 1], wake);
    }
  }

  lemma SecondLook(minute: seq<int>, cap: nat, looks: seq<int>, wake: int -> int)
    requires IsLoneWait(minute, cap, looks, wake) && |looks| > 1
    ensures |looks| == 2 <==> |DropExpired(minute, looks[1])| < cap
  {
    if |looks| > 2 {
      assert IsSleep(minute, cap, looks[1], looks[1 + 1], wake);
    }
  }

  /** It sleeps at most once exactly when there is room at the first look, or when the grant
      `cap` places from the end is over a minute old at the second. */
  lemma AtMostOneSleepIff(minute: seq<int>, cap: nat, looks: seq<int>, wake: int -> int)
    requires cap >= 1 && WakesLate(wake) && Ascending(minute) && IsLoneWait(minute, cap, looks, wake)
    ensures var live := DropExpired(minute, looks[0]);
            |looks| - 1 <= 1 <==> |live| < cap || wake(looks[0] + WaitFor(live, looks[0])) - live[|live| - cap] > WINDOW
  {
    if |looks| > 1 {
      assert IsSleep(minute, cap, looks[0], looks[0 + 1], wake);
      SecondLook(minute, cap, looks, wake);
      RoomAfterSleep(minute, cap, looks[0], looks[1], wake);
    }
  }

  lemma RoomAfterSleep(minute: seq<int>, cap: nat, now: int, next: int, wake: int -> int)
    requires cap >= 1 && WakesLate(wake) && Ascending(minute) && IsSleep(minute, cap, now, next, wake)
    ensures var live := DropExpired(minute, now);
            |DropExpired(minute, next)| < cap <==> next - live[|live| - cap] > WINDOW
  {
    var live := DropExpired(minute, now);
    OldestExpires(live, now, next);
    ExpiredStays(minute, now, next);
    LiveAscends(minute, now);
    RoomIff(live, next, cap);
  }

  lemma LiveAscends(minute: seq<int>, now: int)
    requires Ascending(minute)
    ensures Ascending(DropExpired(minute, now))
  {}

  /** A stored cap of zero counts as one. */
  function CapOf(max: nat): nat { if max == 0 then 1 else max }

  /** After the sleep the oldest live grant is over a minute old, so fewer are live. */
  lemma OldestExpires(live: seq<int>, now: int, woken: int)
    requires live != [] && woken >= now + WaitFor(live, now)
    ensures woken >= now && |DropExpired(live, woken)| < |live|
  {}

  lemma FewerLive(minute: seq<int>, now: int, woken: int)
    requires DropExpired(minute, now) != [] && woken >= now + WaitFor(DropExpired(minute, now), now)
    ensures woken >= now && |DropExpired(minute, woken)| < |DropExpired(minute, now)|
  {
    OldestExpires(DropExpired(minute, now), now, woken);
    ExpiredStays(minute, now, woken);
  }

  /** From `clock` on the two windows drop to the same. */
  ghost predicate SameLater(a: seq<int>, b: seq<int>, clock: int) {
    forall later :: later >= clock ==> DropExpired(a, later) == DropExpired(b, later)
  }

  lemma LiveLater(minute: seq<int>, now: int, clock: int)
    requires now <= clock
    ensures SameLater(DropExpired(minute, now), minute, clock)
  {
    forall later | later >= clock ensures DropExpired(DropExpired(minute, now), later) == DropExpired(minute, later) {
      ExpiredStays(minute, now, later);
    }
  }

  /** A later look finds room exactly when the grant `cap` places from the end has expired. */
  lemma RoomIff(live: seq<int>, later: int, cap: nat)
    requires Ascending(live) && 1 <= cap <= |live|
    ensures |DropExpired(live, later)| < cap <==> later - live[|live| - cap] > WINDOW
  {
    var gone := ExpiredCount(live, later);
    if gone > |live| - cap {
      assert later - live[|live| - cap] > WINDOW;
    } else {
      assert later - live[gone] <= WINDOW;
      assert live[gone] <= live[|live| - cap];
    }
  }

  /** Dropping at two times is dropping at the later one. */
  lemma ExpiredStays(minute: seq<int>, now: int, later: int)
    requires now <= later
    ensures DropExpired(DropExpired(minute, now), later) == DropExpired(minute, later)
  {
    var k := ExpiredCount(minute, now);
    FirstLive(minute, ExpiredCount(minute[k..], later) + k, later);
  }

  /** The number of expired grants is the length of the longest expired prefix. */
  lemma FirstLive(minute: seq<int>, k: nat, later: int)
    requires k <= |minute| && forall i :: 0 <= i < k ==> later - minute[i] > WINDOW
    requires k < |minute| ==> later - minute[k] <= WINDOW
    ensures ExpiredCount(minute, later) == k
  {}
}
