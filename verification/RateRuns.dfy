/** The rate limiter under interleaved callers and header observations. A caller reads the
    day and the daily cap, charges the day under its lock, then repeatedly reads the minute
    cap and looks at the window under its lock. An observation reads a cap and stores the
    raised one in two steps, so that observations can race. Pauses only delay a caller. */
module RateRuns {
  import opened Prelude
  import opened RateLimiter

  datatype Caller =
    | ReadDay(key: int, cap: nat)
    | Waiting(until: int)
    | ReadMinuteCap(cap: nat)
    | SawMinuteCap(current: nat, observed: nat)
    | SawDayCap(current: nat, observed: nat)

  /** What the limiter holds, the clock, the tasks in progress, every grant, the day keys that
      reached the day's lock and those it charged, in order, and the largest caps ever stored. */
  datatype State = State(
    minute: seq<int>,
    dayKey: int,
    dayCount: nat,
    maxPerMinute: nat,
    maxPerDay: nat,
    clock: int,
    tasks: map<nat, Caller>,
    grants: seq<int>,
    reached: seq<int>,
    charges: seq<int>,
    peakMinute: nat,
    peakDay: nat
  )

  datatype Event =
    | Tick(elapsed: nat)
    | Arrive(task: nat, day: int)
    | Charge(task: nat)
    | LoadMinuteCap(task: nat)
    | TryGrant(task: nat)
    | LoadForMinute(task: nat, observed: nat)
    | LoadForDay(task: nat, observed: nat)
    | StoreRaised(task: nat)

  function Initial(perMinute: nat, perDay: nat, start: int): State
    requires perMinute >= 1 && perDay >= 1
  {
    State([], 0, 0, perMinute, perDay, start, map[], [], [], [], perMinute, perDay)
  }

  function Max(a: nat, b: nat): nat { if a < b then b else a }

  function Step(s: State, e: Event): Option<State> {
    match e
    case Tick(d) => Some(s.(clock := s.clock + d))
    case Arrive(t, day) =>
      if t in s.tasks then None else Some(s.(tasks := s.tasks[t := ReadDay(day, s.maxPerDay)]))
    case Charge(t) =>
      if t !in s.tasks || !s.tasks[t].ReadDay? then None
      else
        var r := ChargeDay(s.dayKey, s.dayCount, s.tasks[t].key, s.tasks[t].cap);
        Some(s.(dayKey := r.0, dayCount := r.1, reached := s.reached + [s.tasks[t].key],
                tasks := if r.2 then s.tasks[t := Waiting(s.clock)] else s.tasks - {t},
                charges := if r.2 then s.charges + [s.tasks[t].key] else s.charges))
    case LoadMinuteCap(t) =>
      if t !in s.tasks || !s.tasks[t].Waiting? || s.clock < s.tasks[t].until then None
      else Some(s.(tasks := s.tasks[t := ReadMinuteCap(CapOf(s.maxPerMinute))]))
    case TryGrant(t) =>
      if t !in s.tasks || !s.tasks[t].ReadMinuteCap? then None
      else
        var r := Attempt(s.minute, s.tasks[t].cap, s.clock);
        (match r.1
         case None => Some(s.(minute := r.0, tasks := s.tasks - {t}, grants := s.grants + [s.clock]))
         case Some(wait) => Some(s.(minute := r.0, tasks := s.tasks[t := Waiting(s.clock + wait)])))
    case LoadForMinute(t, observed) =>
      if t in s.tasks || observed == 0 then None
      else Some(s.(tasks := s.tasks[t := SawMinuteCap(s.maxPerMinute, observed)]))
    case LoadForDay(t, observed) =>
      if t in s.tasks || observed == 0 then None
      else Some(s.(tasks := s.tasks[t := SawDayCap(s.maxPerDay, observed)]))
    case StoreRaised(t) =>
      if t !in s.tasks then None
      else if s.tasks[t].SawMinuteCap? then
        var rest := s.(tasks := s.tasks - {t});
        if s.tasks[t].observed > s.tasks[t].current then
          Some(rest.(maxPerMinute := s.tasks[t].observed, peakMinute := Max(s.peakMinute, s.tasks[t].observed)))
        else Some(rest)
      else if s.tasks[t].SawDayCap? then
        var rest := s.(tasks := s.tasks - {t});
        if s.tasks[t].observed > s.tasks[t].current then
          Some(rest.(maxPerDay := s.tasks[t].observed, peakDay := Max(s.peakDay, s.tasks[t].observed)))
        else Some(rest)
      else None
  }

  function Run(start: State, events: seq<Event>): Option<State> {
    if events == [] then Some(start)
    else
      match Run(start, events[..|events| - 1])
      case None => None
      case Some(s) => Step(s, events[|events| - 1])
  }

  // ----- the window -----

  ghost predicate CapsOk(s: State) {
    && 1 <= s.maxPerMinute <= s.peakMinute && 1 <= s.maxPerDay <= s.peakDay
    && (forall t :: t in s.tasks && s.tasks[t].ReadMinuteCap? ==> 1 <= s.tasks[t].cap <= s.peakMinute)
    && (forall t :: t in s.tasks && s.tasks[t].ReadDay? ==> 1 <= s.tasks[t].cap <= s.peakDay)
  }

  /** The window is the tail of the grants; what it no longer holds is over a minute old. */
  ghost predicate IsWindow(minute: seq<int>, grants: seq<int>, clock: int) {
    && Ascending(grants)
    && (forall i :: 0 <= i < |grants| ==> grants[i] <= clock)
    && |minute| <= |grants| && minute == grants[|grants| - |minute|..]
    && (forall i :: 0 <= i < |grants| - |minute| ==> clock - grants[i] > WINDOW)
  }

  ghost predicate WindowOk(s: State) {
    IsWindow(s.minute, s.grants, s.clock) && |s.minute| <= s.peakMinute && Spaced(s.grants, s.peakMinute)
  }

  /** Any two grants `peak` places apart are more than a minute apart. */
  ghost predicate Spaced(grants: seq<int>, peak: nat) {
    forall i, j :: 0 <= i && i + peak <= j < |grants| ==> grants[j] - grants[i] > WINDOW
  }

  /** Charges of `day` so far, and the number of separate stretches they came in. */
  function ChargesOn(charges: seq<int>, day: int): nat {
    if charges == [] then 0
    else ChargesOn(charges[..|charges| - 1], day) + (if charges[|charges| - 1] == day then 1 else 0)
  }

  function Stretches(charges: seq<int>, day: int): nat {
    if charges == [] then 0
    else
      var last := |charges| - 1;
      Stretches(charges[..last], day)
      + (if charges[last] == day && (last == 0 || charges[last - 1] != day) then 1 else 0)
  }

  /** The counter counts the stretch in progress; finished stretches kept within the cap. */
  ghost predicate DaysOk(s: State) {
    && s.dayCount <= s.peakDay
    && (s.charges == [] ==> s.dayCount == 0)
    && (s.charges != [] ==> s.charges[|s.charges| - 1] == s.dayKey && s.dayCount >= 1)
    && (forall d :: d != s.dayKey || s.charges == [] ==> DayWithin(s.charges, d, s.peakDay))
    && (s.charges != [] ==>
          && Stretches(s.charges, s.dayKey) >= 1
          && ChargesOn(s.charges, s.dayKey) <= s.peakDay * (Stretches(s.charges, s.dayKey) - 1) + s.dayCount)
  }

  ghost predicate DayWithin(charges: seq<int>, day: int, cap: nat) {
    ChargesOn(charges, day) <= cap * Stretches(charges, day)
  }

  ghost predicate Inv(s: State) {
    CapsOk(s) && WindowOk(s) && DaysOk(s)
  }

  /** Dropping expired grants keeps the window the recent tail of the grants. */
  lemma DropKeepsWindow(minute: seq<int>, grants: seq<int>, clock: int)
    requires IsWindow(minute, grants, clock)
    ensures IsWindow(DropExpired(minute, clock), grants, clock)
  {
    var gone := ExpiredCount(minute, clock);
    var first := |grants| - |minute|;
    assert DropExpired(minute, clock) == grants[first + gone..];
    forall i | 0 <= i < first + gone ensures clock - grants[i] > WINDOW {
      if i >= first {
        assert grants[i] == minute[i - first];
      }
    }
  }

  /** A grant goes to the end of both. */
  lemma GrantKeepsWindow(live: seq<int>, grants: seq<int>, clock: int, peak: nat)
    requires IsWindow(live, grants, clock) && |live| < peak && Spaced(grants, peak)
    ensures IsWindow(live + [clock], grants + [clock], clock) && Spaced(grants + [clock], peak)
  {
    var grown := grants + [clock];
    assert live + [clock] == grown[|grants| - |live|..];
    forall i, j | 0 <= i && i + peak <= j < |grown| ensures grown[j] - grown[i] > WINDOW {
      if j == |grants| {
        assert i < |grants| - |live|;
      }
    }
  }

  lemma TryGrantKeeps(s: State, t: nat)
    requires Inv(s) && Step(s, TryGrant(t)).Some?
    ensures WindowOk(Step(s, TryGrant(t)).value)
  {
    DropKeepsWindow(s.minute, s.grants, s.clock);
    var live := DropExpired(s.minute, s.clock);
    if |live| < s.tasks[t].cap || live == [] {
      GrantKeepsWindow(live, s.grants, s.clock, s.peakMinute);
    }
  }

  lemma MulMonotone(a: nat, b: nat, n: nat)
    requires a <= b
    ensures a * n <= b * n
  {}

  lemma PeakDayRises(s: State, peak: nat)
    requires DaysOk(s) && s.peakDay <= peak
    ensures DaysOk(s.(peakDay := peak))
  {
    forall d | d != s.dayKey || s.charges == [] ensures DayWithin(s.charges, d, peak) {
      assert DayWithin(s.charges, d, s.peakDay);
      MulMonotone(s.peakDay, peak, Stretches(s.charges, d));
    }
    if s.charges != [] {
      MulMonotone(s.peakDay, peak, Stretches(s.charges, s.dayKey) - 1);
    }
  }

  lemma ChargeKeeps(s: State, t: nat)
    requires Inv(s) && Step(s, Charge(t)).Some?
    ensures DaysOk(Step(s, Charge(t)).value)
  {
    var s' := Step(s, Charge(t)).value;
    var key := s.tasks[t].key;
    if s'.charges != s.charges {
      var n := |s.charges|;
      assert s'.charges[..n] == s.charges;
      forall d ensures ChargesOn(s'.charges, d) == ChargesOn(s.charges, d) + (if d == key then 1 else 0) {}
      forall d | d != key ensures DayWithin(s'.charges, d, s.peakDay) {
        assert Stretches(s'.charges, d) == Stretches(s.charges, d);
        if d == s.dayKey && s.charges != [] {
          FinishedStretch(s.peakDay, Stretches(s.charges, d), s.dayCount);
        } else {
          assert DayWithin(s.charges, d, s.peakDay);
        }
      }
      if key != s.dayKey || s.charges == [] {
        assert DayWithin(s.charges, key, s.peakDay);
      }
    } else {
      assert key == s.dayKey;
    }
  }

  lemma FinishedStretch(peak: nat, stretches: nat, count: nat)
    requires stretches >= 1 && count <= peak
    ensures peak * (stretches - 1) + count <= peak * stretches
  {
    assert peak * (stretches - 1) + peak == peak * stretches;
  }

  lemma StepKeepsCaps(s: State, e: Event)
    requires CapsOk(s) && Step(s, e).Some?
    ensures CapsOk(Step(s, e).value)
  {}

  lemma StepKeepsWindow(s: State, e: Event)
    requires Inv(s) && Step(s, e).Some?
    ensures WindowOk(Step(s, e).value)
  {
    if e.TryGrant? {
      TryGrantKeeps(s, e.task);
    } else {
      LaterWindow(s.minute, s.grants, s.clock, Step(s, e).value.clock);
    }
  }

  lemma LaterWindow(minute: seq<int>, grants: seq<int>, clock: int, later: int)
    requires IsWindow(minute, grants, clock) && clock <= later
    ensures IsWindow(minute, grants, later)
  {}

  lemma StepKeepsDays(s: State, e: Event)
    requires Inv(s) && Step(s, e).Some?
    ensures DaysOk(Step(s, e).value)
  {
    if e.Charge? {
      ChargeKeeps(s, e.task);
    } else {
      PeakDayRises(s, Step(s, e).value.peakDay);
    }
  }

  lemma StepKeepsInv(s: State, e: Event)
    requires Inv(s) && Step(s, e).Some?
    ensures Inv(Step(s, e).value)
  {
    StepKeepsCaps(s, e);
    StepKeepsWindow(s, e);
    StepKeepsDays(s, e);
  }

  lemma {:induction false} RunKeepsInv(start: State, events: seq<Event>)
    requires Inv(start) && Run(start, events).Some?
    ensures Inv(Run(start, events).value)
    decreases |events|
  {
    if events != [] {
      RunKeepsInv(start, events[..|events| - 1]);
      StepKeepsInv(Run(start, events[..|events| - 1]).value, events[|events| - 1]);
    }
  }

  // ----- results -----

  /** Grants in the closed interval. */
  function GrantsIn(grants: seq<int>, from: int, to: int): nat {
    CountIf(grants, (g: int) => from <= g <= to)
  }

  lemma {:induction false} CountIfNone(xs: seq<int>, keep: int -> bool)
    requires forall i :: 0 <= i < |xs| ==> !keep(xs[i])
    ensures CountIf(xs, keep) == 0
  {
    if xs != [] {
      CountIfNone(xs[1..], keep);
    }
  }

  lemma {:induction false} CountIfAtMost(xs: seq<int>, keep: int -> bool)
    ensures CountIf(xs, keep) <= |xs|
  {
    if xs != [] {
      CountIfAtMost(xs[1..], keep);
    }
  }

  lemma {:induction false} SpacedBound(grants: seq<int>, peak: nat, from: int)
    requires Ascending(grants) && Spaced(grants, peak)
    ensures GrantsIn(grants, from, from + WINDOW) <= peak
  {
    var keep := (g: int) => from <= g <= from + WINDOW;
    if |grants| <= peak {
      CountIfAtMost(grants, keep);
    } else if keep(grants[0]) {
      var early, late := grants[..peak], grants[peak..];
      assert grants == early + late;
      CountIfConcat(early, late, keep);
      forall i | 0 <= i < |late| ensures !keep(late[i]) {
        assert late[i] == grants[i + peak];
        assert grants[i + peak] - grants[0] > WINDOW;
      }
      CountIfNone(late, keep);
      CountIfAtMost(early, keep);
    } else {
      var rest := grants[1..];
      assert forall i :: 0 <= i < |rest| ==> rest[i] == grants[i + 1];
      SpacedBound(rest, peak, from);
    }
  }

  /** In every run, every closed one-minute interval holds at most as many grants as the
      largest per-minute cap stored so far. */
  lemma RateBound(perMinute: nat, perDay: nat, start: int, events: seq<Event>, from: int)
    requires perMinute >= 1 && perDay >= 1
    requires Run(Initial(perMinute, perDay, start), events).Some?
    ensures var s := Run(Initial(perMinute, perDay, start), events).value;
            GrantsIn(s.grants, from, from + WINDOW) <= s.peakMinute
  {
    RunKeepsInv(Initial(perMinute, perDay, start), events);
    var s := Run(Initial(perMinute, perDay, start), events).value;
    SpacedBound(s.grants, s.peakMinute, from);
  }

  /** In every run, a day is charged at most the largest daily cap per stretch of consecutive
      charges for it. */
  lemma DailyBoundPerStretch(perMinute: nat, perDay: nat, start: int, events: seq<Event>, day: int)
    requires perMinute >= 1 && perDay >= 1
    requires Run(Initial(perMinute, perDay, start), events).Some?
    ensures var s := Run(Initial(perMinute, perDay, start), events).value;
            ChargesOn(s.charges, day) <= s.peakDay * Stretches(s.charges, day)
  {
    RunKeepsInv(Initial(perMinute, perDay, start), events);
    var s := Run(Initial(perMinute, perDay, start), events).value;
    if day == s.dayKey && s.charges != [] {
      FinishedStretch(s.peakDay, Stretches(s.charges, day), s.dayCount);
    } else {
      assert DayWithin(s.charges, day, s.peakDay);
    }
  }

  lemma {:induction false} AscendingStretches(charges: seq<int>, day: int)
    requires Ascending(charges)
    ensures Stretches(charges, day) <= 1
    ensures Stretches(charges, day) == 1 ==> charges != [] && charges[|charges| - 1] >= day
  {
    if charges != [] {
      AscendingStretches(charges[..|charges| - 1], day);
    }
  }

  /** So if day keys reach the lock in order, a day is charged at most the largest daily cap. */
  lemma DailyBound(perMinute: nat, perDay: nat, start: int, events: seq<Event>, day: int)
    requires perMinute >= 1 && perDay >= 1
    requires Run(Initial(perMinute, perDay, start), events).Some?
    requires Ascending(Run(Initial(perMinute, perDay, start), events).value.charges)
    ensures var s := Run(Initial(perMinute, perDay, start), events).value;
            ChargesOn(s.charges, day) <= s.peakDay
  {
    DailyBoundPerStretch(perMinute, perDay, start, events, day);
    var s := Run(Initial(perMinute, perDay, start), events).value;
    AscendingStretches(s.charges, day);
    if Stretches(s.charges, day) == 0 {
      assert s.peakDay * 0 == 0;
    } else {
      assert s.peakDay * 1 == s.peakDay;
    }
  }

  // ----- which orders of day keys are safe -----

  /** What the day's lock makes of a sequence of keys under one cap: key, count and charges. */
  function Charged(keys: seq<int>, cap: nat): (int, nat, seq<int>) {
    if keys == [] then (0, 0, [])
    else
      var key := keys[|keys| - 1];
      var before := Charged(keys[..|keys| - 1], cap);
      var r := ChargeDay(before.0, before.1, key, cap);
      (r.0, r.1, if r.2 then before.2 + [key] else before.2)
  }

  /** Caps never fall below the first one, and if none above it was stored the lock works
      through the keys under that cap. */
  ghost predicate FirstCapOk(s: State, perDay: nat) {
    && perDay <= s.maxPerDay <= s.peakDay
    && (forall t :: t in s.tasks && s.tasks[t].ReadDay? ==> perDay <= s.tasks[t].cap <= s.peakDay)
    && (forall t :: t in s.tasks && s.tasks[t].SawDayCap? ==> perDay <= s.tasks[t].current)
    && (s.peakDay == perDay ==> (s.dayKey, s.dayCount, s.charges) == Charged(s.reached, perDay))
  }

  lemma StepKeepsFirstCap(s: State, e: Event, perDay: nat)
    requires FirstCapOk(s, perDay) && Step(s, e).Some?
    ensures FirstCapOk(Step(s, e).value, perDay)
  {
    if e.Charge? {
      var key := s.tasks[e.task].key;
      assert (s.reached + [key])[..|s.reached|] == s.reached;
    }
  }

  lemma {:induction false} RunKeepsFirstCap(perMinute: nat, perDay: nat, start: int, events: seq<Event>)
    requires perMinute >= 1 && perDay >= 1 && Run(Initial(perMinute, perDay, start), events).Some?
    ensures FirstCapOk(Run(Initial(perMinute, perDay, start), events).value, perDay)
    decreases |events|
  {
    if events != [] {
      RunKeepsFirstCap(perMinute, perDay, start, events[..|events| - 1]);
      StepKeepsFirstCap(Run(Initial(perMinute, perDay, start), events[..|events| - 1]).value, events[|events| - 1], perDay);
    }
  }

  /** In every run in which no larger daily cap is stored, the charges are those of the keys in
      the order in which they reached the lock. */
  lemma ChargesFollowKeys(perMinute: nat, perDay: nat, start: int, events: seq<Event>)
    requires perMinute >= 1 && perDay >= 1 && Run(Initial(perMinute, perDay, start), events).Some?
    requires Run(Initial(perMinute, perDay, start), events).value.peakDay == perDay
    ensures var s := Run(Initial(perMinute, perDay, start), events).value;
            s.charges == Charged(s.reached, perDay).2
  {
    RunKeepsFirstCap(perMinute, perDay, start, events);
  }

  /** Of a day's keys: finished stretches were charged within the cap, and the count counts the
      one in progress. */
  ghost predicate StretchesWithin(keys: seq<int>, c: (int, nat, seq<int>), cap: nat, day: int) {
    if keys != [] && keys[|keys| - 1] == day
    then Stretches(keys, day) >= 1 && ChargesOn(c.2, day) <= cap * (Stretches(keys, day) - 1) + c.1
    else ChargesOn(c.2, day) <= cap * Stretches(keys, day)
  }

  lemma {:induction false} CountWithin(keys: seq<int>, cap: nat)
    ensures Charged(keys, cap).1 <= cap && (keys != [] ==> Charged(keys, cap).0 == keys[|keys| - 1])
    ensures keys == [] ==> Charged(keys, cap).1 == 0
    decreases |keys|
  {
    if keys != [] {
      CountWithin(keys[..|keys| - 1], cap);
    }
  }

  lemma {:induction false} ChargedWithin(keys: seq<int>, cap: nat, day: int)
    ensures StretchesWithin(keys, Charged(keys, cap), cap, day)
    decreases |keys|
  {
    if keys != [] {
      var n := |keys| - 1;
      var front, key := keys[..n], keys[n];
      var before := Charged(front, cap);
      ChargedWithin(front, cap, day);
      CountWithin(front, cap);
      ChargesOnAppend(before.2, key, day);
      StretchesAppend(front, key, day);
      assert keys == front + [key];
      if front != [] && front[n - 1] == day && key != day {
        FinishedStretch(cap, Stretches(front, day), before.1);
      }
    }
  }

  lemma StretchesAppend(keys: seq<int>, key: int, day: int)
    ensures Stretches(keys + [key], day)
            == Stretches(keys, day) + if key == day && (keys == [] || keys[|keys| - 1] != day) then 1 else 0
  {
    assert (keys + [key])[..|keys|] == keys;
  }

  /** Under a cap of one each stretch is charged exactly once. */
  lemma {:induction false} OnePerStretch(keys: seq<int>, day: int)
    ensures ChargesOn(Charged(keys, 1).2, day) == Stretches(keys, day)
    ensures keys != [] ==> Charged(keys, 1).0 == keys[|keys| - 1] && Charged(keys, 1).1 == 1
    decreases |keys|
  {
    if keys != [] {
      var n := |keys| - 1;
      var front := keys[..n];
      OnePerStretch(front, day);
      assert keys == front + [keys[n]];
      StretchesAppend(front, keys[n], day);
      ChargesOnAppend(Charged(front, 1).2, keys[n], day);
      OneMoreKey(Charged(front, 1), front, keys[n]);
    }
  }

  lemma OneMoreKey(before: (int, nat, seq<int>), front: seq<int>, key: int)
    requires before == Charged(front, 1)
    requires front != [] ==> before.0 == front[|front| - 1] && before.1 == 1
    ensures Charged(front + [key], 1)
            == (key, 1, if front != [] && front[|front| - 1] == key then before.2 else before.2 + [key])
  {
    assert (front + [key])[..|front|] == front;
  }

  ghost predicate WithinEveryCap(keys: seq<int>) {
    forall cap: nat, day :: cap >= 1 ==> ChargesOn(Charged(keys, cap).2, day) <= cap
  }

  ghost predicate OneStretchEach(keys: seq<int>) { forall day :: Stretches(keys, day) <= 1 }

  /** An order of day keys stays within every daily cap exactly when no day comes in two
      stretches. */
  lemma SafeOrderIff(keys: seq<int>)
    ensures WithinEveryCap(keys) <==> OneStretchEach(keys)
  {
    if OneStretchEach(keys) {
      forall cap: nat, day | cap >= 1 ensures ChargesOn(Charged(keys, cap).2, day) <= cap {
        ChargedWithin(keys, cap, day);
        CountWithin(keys, cap);
        OneStretch(cap, Stretches(keys, day));
      }
    }
    if WithinEveryCap(keys) {
      forall day ensures Stretches(keys, day) <= 1 {
        OnePerStretch(keys, day);
        WithinOne(keys, day);
      }
    }
  }

  lemma WithinOne(keys: seq<int>, day: int)
    requires WithinEveryCap(keys)
    ensures ChargesOn(Charged(keys, 1).2, day) <= 1
  {
    var one: nat := 1;
    assert ChargesOn(Charged(keys, one).2, day) <= one;
  }

  lemma OneStretch(cap: nat, stretches: nat)
    requires stretches <= 1
    ensures cap * stretches <= cap
    ensures stretches == 1 ==> cap * (stretches - 1) == 0
  {}

  lemma RunAppend(start: State, events: seq<Event>, e: Event)
    ensures Run(start, events + [e])
            == match Run(start, events) case None => None case Some(s) => Step(s, e)
  {
    assert (events + [e])[..|events|] == events;
  }

  lemma ChargesOnAppend(charges: seq<int>, key: int, day: int)
    ensures ChargesOn(charges + [key], day) == ChargesOn(charges, day) + (if key == day then 1 else 0)
  {
    assert (charges + [key])[..|charges|] == charges;
  }

  /** Three callers around midnight, one of them late at the lock. */
  function LateCaller(): seq<Event> {
    [Arrive(0, 1)] + [Arrive(1, 1)] + [Arrive(2, 2)] + [Charge(0)] + [Charge(2)] + [Charge(1)]
  }

  lemma LateCallerArrives()
    ensures Run(Initial(1, 1, 0), [Arrive(0, 1)] + [Arrive(1, 1)] + [Arrive(2, 2)])
            == Some(Initial(1, 1, 0).(tasks := map[0 := ReadDay(1, 1), 1 := ReadDay(1, 1), 2 := ReadDay(2, 1)]))
  {
    var start := Initial(1, 1, 0);
    var e1 := [Arrive(0, 1)];
    var e2 := e1 + [Arrive(1, 1)];
    RunAppend(start, [], Arrive(0, 1));
    assert [] + [Arrive(0, 1)] == e1;
    RunAppend(start, e1, Arrive(1, 1));
    RunAppend(start, e2, Arrive(2, 2));
  }

  /** The order matters: under a daily cap of one, the late caller charges day 1 again. */
  lemma LateCallerOvercharges()
    ensures var end := Run(Initial(1, 1, 0), LateCaller());
            end.Some? && end.value.peakDay == 1 && ChargesOn(end.value.charges, 1) == 2
  {
    var start := Initial(1, 1, 0);
    var e3 := [Arrive(0, 1)] + [Arrive(1, 1)] + [Arrive(2, 2)];
    LateCallerArrives();
    RunAppend(start, e3, Charge(0));
    RunAppend(start, e3 + [Charge(0)], Charge(2));
    RunAppend(start, e3 + [Charge(0)] + [Charge(2)], Charge(1));
    ChargesOnAppend([], 1, 1);
    ChargesOnAppend([] + [1], 2, 1);
    ChargesOnAppend([] + [1] + [2], 1, 1);
  }

  // ----- a caller no one interferes with -----

  /** The events lead from `s` to `end`, step by step. */
  ghost predicate Leads(s: State, events: seq<Event>, end: State) {
    exists states: seq<State> :: IsTrace(s, events, end, states)
  }

  ghost predicate IsTrace(s: State, events: seq<Event>, end: State, states: seq<State>) {
    && |states| == |events| + 1 && states[0] == s && states[|events|] == end
    && forall i :: 0 <= i < |events| ==> Steps(states[i], events[i], states[i + 1])
  }

  ghost predicate Steps(s: State, e: Event, s': State) { Step(s, e) == Some(s') }

  /** Which is to say that they are a run. */
  lemma {:induction false} LeadsIsRun(s: State, events: seq<Event>, end: State)
    requires Leads(s, events, end)
    ensures Run(s, events) == Some(end)
    decreases |events|
  {
    var states :| IsTrace(s, events, end, states);
    if events != [] {
      var n := |events| - 1;
      assert IsTrace(s, events[..n], states[n], states[..n + 1]);
      LeadsIsRun(s, events[..n], states[n]);
      assert Steps(states[n], events[n], states[n + 1]);
    }
  }

  lemma LeadsConcat(s: State, a: seq<Event>, mid: State, b: seq<Event>, end: State)
    requires Leads(s, a, mid) && Leads(mid, b, end)
    ensures Leads(s, a + b, end)
  {
    var first :| IsTrace(s, a, mid, first);
    var second :| IsTrace(mid, b, end, second);
    var states := first + second[1..];
    forall i | 0 <= i < |a + b| ensures Steps(states[i], (a + b)[i], states[i + 1]) {
      if i < |a| {
        assert Steps(first[i], a[i], first[i + 1]);
      } else {
        assert Steps(second[i - |a|], b[i - |a|], second[i - |a| + 1]);
      }
    }
    assert IsTrace(s, a + b, end, states);
  }

  lemma LeadsOne(s: State, e: Event, end: State)
    requires Steps(s, e, end)
    ensures Leads(s, [e], end)
  {
    assert IsTrace(s, [e], end, [s, end]);
  }

  function LookEvents(t: nat): seq<Event> { [LoadMinuteCap(t)] + [TryGrant(t)] }

  /** The steps of a lone caller that looks at the given times: each look, and the time that
      passes until the next. */
  function LoneEvents(t: nat, looks: seq<int>): seq<Event>
    requires looks != [] && forall k :: 0 <= k < |looks| - 1 ==> looks[k] <= looks[k + 1]
  {
    if |looks| == 1 then LookEvents(t) else (LookEvents(t) + [Tick(looks[1] - looks[0])]) + LoneEvents(t, looks[1..])
  }

  ghost predicate ReadyToLook(s: State, t: nat) {
    t in s.tasks && s.tasks[t].Waiting? && s.tasks[t].until <= s.clock
  }

  /** What a look does to the state. */
  function AfterLook(s: State, t: nat): State {
    var r := Attempt(s.minute, CapOf(s.maxPerMinute), s.clock);
    match r.1
    case None => s.(minute := r.0, tasks := s.tasks - {t}, grants := s.grants + [s.clock])
    case Some(wait) => s.(minute := r.0, tasks := s.tasks[t := Waiting(s.clock + wait)])
  }

  lemma LookIsSteps(s: State, t: nat)
    requires ReadyToLook(s, t)
    ensures Leads(s, LookEvents(t), AfterLook(s, t))
  {
    var mid := s.(tasks := s.tasks[t := ReadMinuteCap(CapOf(s.maxPerMinute))]);
    LeadsOne(s, LoadMinuteCap(t), mid);
    GrantOrSleep(s, mid, t);
    LeadsOne(mid, TryGrant(t), AfterLook(s, t));
    LeadsConcat(s, [LoadMinuteCap(t)], mid, [TryGrant(t)], AfterLook(s, t));
  }

  lemma GrantOrSleep(s: State, mid: State, t: nat)
    requires ReadyToLook(s, t) && mid == s.(tasks := s.tasks[t := ReadMinuteCap(CapOf(s.maxPerMinute))])
    ensures Steps(mid, TryGrant(t), AfterLook(s, t))
  {
    var r := Attempt(s.minute, CapOf(s.maxPerMinute), s.clock);
    assert mid.tasks - {t} == s.tasks - {t};
    if r.1.Some? {
      assert mid.tasks[t := Waiting(s.clock + r.1.value)] == s.tasks[t := Waiting(s.clock + r.1.value)];
    }
  }

  lemma LooksAscend(minute: seq<int>, cap: nat, looks: seq<int>, wake: int -> int)
    requires cap >= 1 && WakesLate(wake) && IsLoneWait(minute, cap, looks, wake)
    ensures forall k :: 0 <= k < |looks| - 1 ==> looks[k] <= looks[k + 1]
  {
    forall k | 0 <= k < |looks| - 1 ensures looks[k] <= looks[k + 1] {
      assert IsSleep(minute, cap, looks[k], looks[k + 1], wake);
      OldestExpires(DropExpired(minute, looks[k]), looks[k], looks[k + 1]);
    }
  }

  lemma {:induction false} Later(looks: seq<int>, k: nat)
    requires k < |looks| && forall j :: 0 <= j < |looks| - 1 ==> looks[j] <= looks[j + 1]
    ensures looks[0] <= looks[k]
  {
    if k > 0 {
      Later(looks, k - 1);
      assert looks[k - 1] <= looks[k - 1 + 1];
    }
  }

  /** A look from a window that earlier looks may have cut. */
  lemma LookAt(s: State, minute: seq<int>, t: nat)
    requires SameLater(s.minute, minute, s.clock)
    ensures var live := DropExpired(minute, s.clock);
            AfterLook(s, t)
            == if |live| < CapOf(s.maxPerMinute) then AfterWait(s, t, minute, s.clock)
               else s.(minute := live, tasks := s.tasks[t := Waiting(s.clock + WaitFor(live, s.clock))])
  {
    assert DropExpired(minute, s.clock) == DropExpired(s.minute, s.clock);
  }

  /** The caller's grant at `end`, in a window that was `minute`. */
  function AfterWait(s: State, t: nat, minute: seq<int>, end: int): State {
    s.(clock := end, minute := DropExpired(minute, end) + [end], tasks := s.tasks - {t}, grants := s.grants + [end])
  }

  /** Such a wait is a run: at its end the caller has its grant, and nothing else changed but
      the clock and the window. */
  lemma {:induction false} LoneWaitIsRun(s: State, t: nat, minute: seq<int>, looks: seq<int>, wake: int -> int)
    requires ReadyToLook(s, t) && SameLater(s.minute, minute, s.clock)
    requires WakesLate(wake) && IsLoneWait(minute, CapOf(s.maxPerMinute), looks, wake) && looks[0] == s.clock
    requires forall k :: 0 <= k < |looks| - 1 ==> looks[k] <= looks[k + 1]
    ensures Leads(s, LoneEvents(t, looks), AfterWait(s, t, minute, looks[|looks| - 1]))
    decreases |looks|
  {
    if |looks| == 1 {
      RoomAtOnce(s, t, minute);
    } else {
      var woken := FirstSleep(s, t, minute, looks, wake);
      RestOfWait(minute, CapOf(s.maxPerMinute), looks, wake);
      LoneWaitIsRun(woken, t, minute, looks[1..], wake);
      SleepThenRest(s, t, minute, looks, woken);
    }
  }

  lemma RoomAtOnce(s: State, t: nat, minute: seq<int>)
    requires ReadyToLook(s, t) && SameLater(s.minute, minute, s.clock)
    requires |DropExpired(minute, s.clock)| < CapOf(s.maxPerMinute)
    ensures Leads(s, LookEvents(t), AfterWait(s, t, minute, s.clock))
  {
    LookIsSteps(s, t);
    LookAt(s, minute, t);
  }

  lemma FirstSleep(s: State, t: nat, minute: seq<int>, looks: seq<int>, wake: int -> int) returns (woken: State)
    requires ReadyToLook(s, t) && SameLater(s.minute, minute, s.clock)
    requires WakesLate(wake) && IsLoneWait(minute, CapOf(s.maxPerMinute), looks, wake) && looks[0] == s.clock
    requires |looks| > 1 && looks[0] <= looks[1]
    ensures Leads(s, LookEvents(t) + [Tick(looks[1] - s.clock)], woken)
    ensures woken == s.(clock := looks[1], minute := woken.minute, tasks := woken.tasks)
    ensures woken.tasks - {t} == s.tasks - {t} && ReadyToLook(woken, t) && SameLater(woken.minute, minute, looks[1])
  {
    assert IsSleep(minute, CapOf(s.maxPerMinute), looks[0], looks[0 + 1], wake);
    woken := SleepIsSteps(s, t, minute, looks[1]);
    LiveLater(minute, s.clock, looks[1]);
    assert woken.tasks - {t} == s.tasks - {t};
  }

  lemma SleepThenRest(s: State, t: nat, minute: seq<int>, looks: seq<int>, woken: State)
    requires |looks| > 1 && looks[0] == s.clock && forall k :: 0 <= k < |looks| - 1 ==> looks[k] <= looks[k + 1]
    requires Leads(s, LookEvents(t) + [Tick(looks[1] - s.clock)], woken)
    requires woken == s.(clock := woken.clock, minute := woken.minute, tasks := woken.tasks) && woken.tasks - {t} == s.tasks - {t}
    requires Leads(woken, LoneEvents(t, looks[1..]), AfterWait(woken, t, minute, looks[|looks| - 1]))
    ensures Leads(s, LoneEvents(t, looks), AfterWait(s, t, minute, looks[|looks| - 1]))
  {
    var end := AfterWait(s, t, minute, looks[|looks| - 1]);
    assert AfterWait(woken, t, minute, looks[|looks| - 1]) == end;
    LeadsConcat(s, LookEvents(t) + [Tick(looks[1] - looks[0])], woken, LoneEvents(t, looks[1..]), end);
  }

  /** A look that finds no room, and the time until the next. */
  lemma SleepIsSteps(s: State, t: nat, minute: seq<int>, next: int) returns (woken: State)
    requires ReadyToLook(s, t) && SameLater(s.minute, minute, s.clock)
    requires var live := DropExpired(minute, s.clock);
             live != [] && |live| >= CapOf(s.maxPerMinute) && next >= s.clock + WaitFor(live, s.clock) && next >= s.clock
    ensures Leads(s, LookEvents(t) + [Tick(next - s.clock)], woken)
    ensures var live := DropExpired(minute, s.clock);
            woken == s.(clock := next, minute := live, tasks := s.tasks[t := Waiting(s.clock + WaitFor(live, s.clock))])
  {
    LookIsSteps(s, t);
    LookAt(s, minute, t);
    var looked := AfterLook(s, t);
    woken := looked.(clock := next);
    LeadsOne(looked, Tick(next - s.clock), woken);
    LeadsConcat(s, LookEvents(t), looked, [Tick(next - s.clock)], woken);
  }

  lemma RestOfWait(minute: seq<int>, cap: nat, looks: seq<int>, wake: int -> int)
    requires IsLoneWait(minute, cap, looks, wake) && |looks| > 1
    ensures IsLoneWait(minute, cap, looks[1..], wake)
  {
    var rest := looks[1..];
    forall k | 0 <= k < |rest| - 1 ensures IsSleep(minute, cap, rest[k], rest[k + 1], wake) {
      assert IsSleep(minute, cap, looks[k + 1], looks[k + 1 + 1], wake);
    }
  }

  /** However late its sleeps end, a lone caller has such a wait. */
  lemma {:induction false} LoneWaitExists(minute: seq<int>, cap: nat, now: int, wake: int -> int) returns (looks: seq<int>)
    requires cap >= 1 && WakesLate(wake)
    ensures IsLoneWait(minute, cap, looks, wake) && looks[0] == now
    decreases |DropExpired(minute, now)|
  {
    var live := DropExpired(minute, now);
    if |live| < cap {
      looks := [now];
    } else {
      var next := wake(now + WaitFor(live, now));
      OldestExpires(live, now, next);
      ExpiredStays(minute, now, next);
      var rest := LoneWaitExists(minute, cap, next, wake);
      looks := [now] + rest;
      WaitLonger(minute, cap, now, rest, wake);
    }
  }

  lemma WaitLonger(minute: seq<int>, cap: nat, now: int, rest: seq<int>, wake: int -> int)
    requires IsLoneWait(minute, cap, rest, wake) && IsSleep(minute, cap, now, rest[0], wake)
    ensures IsLoneWait(minute, cap, [now] + rest, wake)
  {
    var looks := [now] + rest;
    forall k | 0 <= k < |looks| - 1 ensures IsSleep(minute, cap, looks[k], looks[k + 1], wake) {
      if k > 0 {
        assert IsSleep(minute, cap, rest[k - 1], rest[k - 1 + 1], wake);
      }
    }
  }

  ghost predicate Reachable(s: State) {
    exists perMinute: nat, perDay: nat, start: int, events: seq<Event> ::
      perMinute >= 1 && perDay >= 1 && Run(Initial(perMinute, perDay, start), events) == Some(s)
  }

  lemma ReachableWindow(s: State)
    requires Reachable(s)
    ensures Ascending(s.minute) && (forall i :: 0 <= i < |s.minute| ==> s.minute[i] <= s.clock)
    ensures |s.minute| <= s.peakMinute && 1 <= s.maxPerMinute <= s.peakMinute
  {
    var perMinute: nat, perDay: nat, start: int, events: seq<Event> :|
      perMinute >= 1 && perDay >= 1 && Run(Initial(perMinute, perDay, start), events) == Some(s);
    RunKeepsInv(Initial(perMinute, perDay, start), events);
  }

  /** From every reachable state a caller that is left alone gets its grant by steps of its
      own, however late its sleeps end. */
  lemma LoneCallerIsGranted(s: State, t: nat, wake: int -> int) returns (looks: seq<int>)
    requires Reachable(s) && ReadyToLook(s, t) && WakesLate(wake)
    ensures IsLoneWait(s.minute, CapOf(s.maxPerMinute), looks, wake) && looks[0] == s.clock
    ensures forall k :: 0 <= k < |looks| - 1 ==> looks[k] <= looks[k + 1]
    ensures Leads(s, LoneEvents(t, looks), AfterWait(s, t, s.minute, looks[|looks| - 1]))
  {
    ReachableWindow(s);
    looks := LoneWaitExists(s.minute, CapOf(s.maxPerMinute), s.clock, wake);
    LooksAscend(s.minute, CapOf(s.maxPerMinute), looks, wake);
    LoneWaitIsRun(s, t, s.minute, looks, wake);
  }

  /** How often it sleeps: at most once for each grant in the window beyond the cap, and once
      more; and at most once exactly when the first look finds room, or the second finds the
      grant `cap` places from the end over a minute old. So once is enough while no store
      lowered the cap. */
  lemma LoneCallerSleeps(s: State, looks: seq<int>, wake: int -> int)
    requires Reachable(s) && WakesLate(wake)
    requires IsLoneWait(s.minute, s.maxPerMinute, looks, wake) && looks[0] == s.clock
    ensures var cap := s.maxPerMinute;
            var live := DropExpired(s.minute, s.clock);
            && |looks| - 1 <= SleepsFor(|live|, cap) && |live| <= s.peakMinute
            && (|looks| - 1 <= 1 <==> |live| < cap || wake(s.clock + WaitFor(live, s.clock)) - live[|live| - cap] > WINDOW)
            && (cap == s.peakMinute ==> |looks| - 1 <= 1)
  {
    ReachableWindow(s);
    LoneWaitBound(s.minute, s.maxPerMinute, looks, wake);
    AtMostOneSleepIff(s.minute, s.maxPerMinute, looks, wake);
  }

  // ----- a reachable state in which it sleeps twice -----

  const HALF: int := WINDOW / 2

  /** A caller that comes, is charged, finds room and gets its grant. */
  function GrantEvents(t: nat): seq<Event> { ([Arrive(t, 1)] + [Charge(t)]) + LookEvents(t) }

  /** The state after that. */
  function AfterGrant(s: State): State {
    s.(minute := s.minute + [s.clock], dayKey := 1, dayCount := (if s.dayKey == 1 then s.dayCount else 0) + 1,
       reached := s.reached + [1], charges := s.charges + [1], grants := s.grants + [s.clock])
  }

  lemma ArriveAndCharge(s: State, t: nat, charged: State)
    requires t !in s.tasks && s.maxPerDay > if s.dayKey == 1 then s.dayCount else 0
    requires charged == AfterGrant(s).(minute := s.minute, grants := s.grants, tasks := s.tasks[t := Waiting(s.clock)])
    ensures Leads(s, [Arrive(t, 1)] + [Charge(t)], charged)
  {
    var mid := s.(tasks := s.tasks[t := ReadDay(1, s.maxPerDay)]);
    LeadsOne(s, Arrive(t, 1), mid);
    assert mid.tasks[t := Waiting(s.clock)] == s.tasks[t := Waiting(s.clock)];
    LeadsOne(mid, Charge(t), charged);
    LeadsConcat(s, [Arrive(t, 1)], mid, [Charge(t)], charged);
  }

  lemma GrantHappens(s: State, t: nat)
    requires t !in s.tasks && s.maxPerDay > if s.dayKey == 1 then s.dayCount else 0
    requires s.maxPerMinute > |s.minute| && ExpiredCount(s.minute, s.clock) == 0
    ensures Leads(s, GrantEvents(t), AfterGrant(s))
  {
    var charged := AfterGrant(s).(minute := s.minute, grants := s.grants, tasks := s.tasks[t := Waiting(s.clock)]);
    ArriveAndCharge(s, t, charged);
    LookIsSteps(charged, t);
    assert AfterLook(charged, t) == AfterGrant(s) by {
      assert charged.tasks - {t} == s.tasks;
    }
    LeadsConcat(s, [Arrive(t, 1)] + [Charge(t)], charged, LookEvents(t), AfterGrant(s));
  }

  /** Two observations read a cap of one; three is stored at once, two only after three
      grants, one of them half a minute older than the others. Then a fourth caller comes. */
  function CrowdedEvents(): seq<Event> {
    ([LoadForMinute(0, 3)] + [LoadForMinute(1, 2)] + [StoreRaised(0)])
    + (GrantEvents(2) + [Tick(HALF)] + GrantEvents(2) + GrantEvents(2))
    + ([StoreRaised(1)] + [Arrive(3, 1)] + [Charge(3)])
  }

  function RaisedState(): State {
    Initial(1, 9, 0).(tasks := map[1 := SawMinuteCap(1, 2)], maxPerMinute := 3, peakMinute := 3)
  }

  /** The state after grants at the given times. */
  function Granted(grants: seq<int>, clock: int): State {
    RaisedState().(minute := grants, grants := grants, clock := clock, dayKey := 1, dayCount := |grants|,
                   reached := Ones(|grants|), charges := Ones(|grants|))
  }

  function Ones(n: nat): seq<int> { if n == 0 then [] else Ones(n - 1) + [1] }

  function Crowded(): State {
    Granted([0, HALF, HALF], HALF).(maxPerMinute := 2, tasks := map[3 := Waiting(HALF)], dayCount := 4,
                                    reached := Ones(4), charges := Ones(4))
  }

  lemma CrowdedRaises()
    ensures Leads(Initial(1, 9, 0), [LoadForMinute(0, 3)] + [LoadForMinute(1, 2)] + [StoreRaised(0)], RaisedState())
  {
    var start := Initial(1, 9, 0);
    var one := start.(tasks := map[0 := SawMinuteCap(1, 3)]);
    var both := start.(tasks := map[0 := SawMinuteCap(1, 3), 1 := SawMinuteCap(1, 2)]);
    LeadsOne(start, LoadForMinute(0, 3), one);
    LeadsOne(one, LoadForMinute(1, 2), both);
    assert both.tasks - {0} == map[1 := SawMinuteCap(1, 2)];
    LeadsOne(both, StoreRaised(0), RaisedState());
    LeadsConcat(start, [LoadForMinute(0, 3)], one, [LoadForMinute(1, 2)], both);
    LeadsConcat(start, [LoadForMinute(0, 3)] + [LoadForMinute(1, 2)], both, [StoreRaised(0)], RaisedState());
  }

  lemma GrantsOne(grants: seq<int>, clock: int)
    requires |grants| < 3 && ExpiredCount(grants, clock) == 0
    ensures Leads(Granted(grants, clock), GrantEvents(2), Granted(grants + [clock], clock))
  {
    GrantHappens(Granted(grants, clock), 2);
    assert Ones(|grants + [clock]|) == Ones(|grants|) + [1];
  }

  lemma FirstGrant()
    ensures Leads(RaisedState(), GrantEvents(2), Granted([0], 0))
  {
    GrantHappens(RaisedState(), 2);
    assert Ones(1) == [] + [1] && [] + [0] == [0];
  }

  lemma CrowdedGrants()
    ensures Leads(RaisedState(), GrantEvents(2) + [Tick(HALF)] + GrantEvents(2) + GrantEvents(2), Granted([0, HALF, HALF], HALF))
  {
    FirstGrant();
    LeadsOne(Granted([0], 0), Tick(HALF), Granted([0], HALF));
    LeadsConcat(RaisedState(), GrantEvents(2), Granted([0], 0), [Tick(HALF)], Granted([0], HALF));
    GrantsOne([0], HALF);
    assert [0] + [HALF] == [0, HALF];
    LeadsConcat(RaisedState(), GrantEvents(2) + [Tick(HALF)], Granted([0], HALF), GrantEvents(2), Granted([0, HALF], HALF));
    GrantsOne([0, HALF], HALF);
    assert [0, HALF] + [HALF] == [0, HALF, HALF];
    LeadsConcat(RaisedState(), GrantEvents(2) + [Tick(HALF)] + GrantEvents(2), Granted([0, HALF], HALF), GrantEvents(2),
                Granted([0, HALF, HALF], HALF));
  }

  lemma CrowdedEnds()
    ensures Leads(Granted([0, HALF, HALF], HALF), [StoreRaised(1)] + [Arrive(3, 1)] + [Charge(3)], Crowded())
  {
    var before := Granted([0, HALF, HALF], HALF);
    var lowered := before.(maxPerMinute := 2, tasks := map[]);
    var arrived := lowered.(tasks := map[3 := ReadDay(1, 9)]);
    assert before.tasks - {1} == map[];
    LeadsOne(before, StoreRaised(1), lowered);
    LeadsOne(lowered, Arrive(3, 1), arrived);
    assert arrived.tasks[3 := Waiting(HALF)] == map[3 := Waiting(HALF)];
    assert Ones(4) == Ones(3) + [1];
    LeadsOne(arrived, Charge(3), Crowded());
    LeadsConcat(before, [StoreRaised(1)], lowered, [Arrive(3, 1)], arrived);
    LeadsConcat(before, [StoreRaised(1)] + [Arrive(3, 1)], arrived, [Charge(3)], Crowded());
  }

  lemma CrowdedIsReachable()
    ensures Leads(Initial(1, 9, 0), CrowdedEvents(), Crowded()) && Reachable(Crowded())
  {
    CrowdedRaises();
    CrowdedGrants();
    CrowdedEnds();
    var raised := [LoadForMinute(0, 3)] + [LoadForMinute(1, 2)] + [StoreRaised(0)];
    var grants := GrantEvents(2) + [Tick(HALF)] + GrantEvents(2) + GrantEvents(2);
    var ending := [StoreRaised(1)] + [Arrive(3, 1)] + [Charge(3)];
    LeadsConcat(Initial(1, 9, 0), raised, RaisedState(), grants, Granted([0, HALF, HALF], HALF));
    LeadsConcat(Initial(1, 9, 0), raised + grants, Granted([0, HALF, HALF], HALF), ending, Crowded());
    LeadsIsRun(Initial(1, 9, 0), CrowdedEvents(), Crowded());
  }

  /** Left alone from there, and woken on time, the fourth caller sleeps twice. */
  lemma CrowdedCallerSleepsTwice(looks: seq<int>)
    requires IsLoneWait(Crowded().minute, 2, looks, (t: int) => t) && looks[0] == HALF
    ensures Reachable(Crowded()) && ReadyToLook(Crowded(), 3) && Crowded().maxPerMinute == 2
    ensures |looks| - 1 == 2
  {
    CrowdedIsReachable();
    CrowdedWindow();
    LoneWaitBound([0, HALF, HALF], 2, looks, (t: int) => t);
    AtMostOneSleepIff([0, HALF, HALF], 2, looks, (t: int) => t);
  }

  lemma CrowdedWindow()
    ensures Crowded().minute == [0, HALF, HALF] && DropExpired([0, HALF, HALF], HALF) == [0, HALF, HALF]
    ensures WaitFor([0, HALF, HALF], HALF) == WINDOW - HALF + SLACK
    ensures HALF + (WINDOW - HALF + SLACK) - HALF <= WINDOW
  {}

  // ----- how a cap falls -----

  /** The stores that lower the per-minute cap, exactly: those of an observation above the cap
      it had read and below the one stored since. */
  lemma CapFallsIff(s: State, e: Event)
    requires Step(s, e).Some?
    ensures Step(s, e).value.maxPerMinute < s.maxPerMinute
            <==> e.StoreRaised? && s.tasks[e.task].SawMinuteCap?
                 && s.tasks[e.task].current < s.tasks[e.task].observed < s.maxPerMinute
  {}

  /** A cap of one was never raised and cannot have fallen: a stored cap is larger than one
      that was read. */
  ghost predicate CapsRead(s: State, perMinute: nat) {
    && perMinute <= s.maxPerMinute
    && (forall t :: t in s.tasks && s.tasks[t].SawMinuteCap? ==> perMinute <= s.tasks[t].current)
    && (s.maxPerMinute == perMinute ==> s.peakMinute == perMinute)
  }

  lemma {:induction false} RunKeepsCapsRead(perMinute: nat, perDay: nat, start: int, events: seq<Event>)
    requires perMinute >= 1 && perDay >= 1 && Run(Initial(perMinute, perDay, start), events).Some?
    ensures CapsRead(Run(Initial(perMinute, perDay, start), events).value, perMinute)
    decreases |events|
  {
    if events != [] {
      RunKeepsCapsRead(perMinute, perDay, start, events[..|events| - 1]);
    }
  }

  /** So the cap never falls back to the first one, and while it is the first one a lone
      caller sleeps at most once. */
  lemma FirstCapStays(perMinute: nat, perDay: nat, start: int, events: seq<Event>)
    requires perMinute >= 1 && perDay >= 1 && Run(Initial(perMinute, perDay, start), events).Some?
    ensures var s := Run(Initial(perMinute, perDay, start), events).value;
            && perMinute <= s.maxPerMinute
            && (s.maxPerMinute == perMinute ==> s.peakMinute == perMinute && |s.minute| <= perMinute)
  {
    RunKeepsCapsRead(perMinute, perDay, start, events);
    RunKeepsInv(Initial(perMinute, perDay, start), events);
  }

  /** Two observations that race can lower the cap: both read one, three is stored, then two. */
  lemma RacingObservationsLowerCap()
    ensures var events := [LoadForMinute(0, 3)] + [LoadForMinute(1, 2)] + [StoreRaised(0)] + [StoreRaised(1)];
            var end := Run(Initial(1, 1, 0), events);
            end.Some? && end.value.maxPerMinute == 2 && end.value.peakMinute == 3
  {
    var start := Initial(1, 1, 0);
    var e1 := [LoadForMinute(0, 3)];
    var e2 := e1 + [LoadForMinute(1, 2)];
    var e3 := e2 + [StoreRaised(0)];
    RunAppend(start, [], LoadForMinute(0, 3));
    assert [] + [LoadForMinute(0, 3)] == e1;
    RunAppend(start, e1, LoadForMinute(1, 2));
    RunAppend(start, e2, StoreRaised(0));
    RunAppend(start, e3, StoreRaised(1));
  }
}
