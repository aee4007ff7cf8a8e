/**
  The hourly restart budget under any clock.  A ledger forgets a stamp when it is read at a time
  before the stamp, or an hour or more after it; if the clock then returns to within an hour of the
  stamp, the budget can be exceeded, and otherwise it cannot.
 */
module RestartBudget {
  import opened Recovery

  /** The times of the ticks of a run, in order. */
  function Clocks(events: seq<Event>): seq<real> {
    if events == [] then [] else
      var init := Clocks(events[..|events| - 1]);
      if events[|events| - 1].Tick? then init + [events[|events| - 1].now] else init
  }

  predicate Near(x: real, t: real) { x - HOUR < t < x + HOUR }

  predicate Fresh(x: real, t: real) { 0.0 <= t - x < HOUR }

  /** No tick comes within an hour of an earlier one that it, or a tick in between, cannot remember. */
  predicate Memorable(clock: seq<real>) {
    forall i, m, k | 0 <= i < m <= k < |clock| && Near(clock[i], clock[k]) :: Fresh(clock[i], clock[m])
  }

  predicate Within(xs: seq<real>, clock: seq<real>, n: nat)
    requires n <= |clock|
  {
    forall x | x in xs :: x in clock[..n]
  }

  // ---------------------------------------------------------------- what the clock allows

  lemma Remembered(clock: seq<real>, x: real, n: nat, k: nat)
    requires Memorable(clock) && n <= k < |clock| && x in clock[..n + 1] && Near(x, clock[k])
    ensures Fresh(x, clock[n])
  {
    var i :| 0 <= i < n + 1 && clock[i] == x;
    if i < n {
      assert Fresh(clock[i], clock[n]);
    }
  }

  lemma {:induction false} RecentSubset(stamps: seq<real>, now: real, x: real)
    requires x in Recent(stamps, now)
    ensures x in stamps && Fresh(x, now)
  {
    if x in Recent(stamps[..|stamps| - 1], now) {
      RecentSubset(stamps[..|stamps| - 1], now, x);
    }
  }

  /** Pruning at one time and reading at another sees what reading at once would see. */
  lemma {:induction false} PruneThenRead(stamps: seq<real>, now: real, t: real)
    requires forall x | x in stamps && Fresh(x, t) :: Fresh(x, now)
    ensures Recent(Recent(stamps, now), t) == Recent(stamps, t)
  {
    if stamps != [] {
      var init := stamps[..|stamps| - 1];
      assert forall x | x in init :: x in stamps;
      PruneThenRead(init, now, t);
      RecentSnoc(Recent(init, now), Last(stamps), t);
      assert Last(stamps) in stamps;
    }
  }

  /** What is fresh at `t`, close to `now`, was fresh at `now`. */
  lemma {:induction false} FewerThanNow(times: seq<real>, now: real, t: real)
    requires Fresh(now, t) && forall x | x in times && Near(x, now) :: Fresh(x, now)
    ensures |Recent(times, t)| <= |Recent(times, now)|
  {
    if times != [] {
      var init := times[..|times| - 1];
      assert forall x | x in init :: x in times;
      FewerThanNow(init, now, t);
      assert Last(times) in times;
    }
  }

  lemma {:induction false} NothingFresh(times: seq<real>, t: real)
    requires forall x | x in times :: !Fresh(x, t)
    ensures Recent(times, t) == []
  {
    if times != [] {
      var init := times[..|times| - 1];
      assert forall x | x in init :: x in times;
      NothingFresh(init, t);
      assert Last(times) in times;
    }
  }

  // ---------------------------------------------------------------- the invariant

  /** Stamps and performed restarts are ticks before `n`; at no later tick does the ledger count fewer than were performed. */
  ghost predicate Remembers(clock: seq<real>, n: nat, stamps: seq<real>, times: seq<real>, from: nat)
    requires n <= |clock|
  {
    && Within(stamps, clock, n) && Within(times, clock, n)
    && forall k | from <= k < |clock| :: |Recent(times, clock[k])| <= |Recent(stamps, clock[k])|
  }

  lemma PruningRemembers(clock: seq<real>, n: nat, stamps: seq<real>, times: seq<real>)
    requires Memorable(clock) && n < |clock| && Remembers(clock, n + 1, stamps, times, n)
    ensures Remembers(clock, n + 1, Recent(stamps, clock[n]), times, n)
  {
    forall k | n <= k < |clock|
      ensures Recent(Recent(stamps, clock[n]), clock[k]) == Recent(stamps, clock[k])
    {
      forall x | x in stamps && Fresh(x, clock[k])
        ensures Fresh(x, clock[n])
      {
        Remembered(clock, x, n, k);
      }
      PruneThenRead(stamps, clock[n], clock[k]);
    }
    forall x | x in Recent(stamps, clock[n])
      ensures x in clock[..n + 1]
    {
      RecentSubset(stamps, clock[n], x);
    }
  }

  lemma StampingRemembers(clock: seq<real>, n: nat, stamps: seq<real>, times: seq<real>)
    requires n < |clock| && Remembers(clock, n + 1, stamps, times, n)
    ensures Remembers(clock, n + 1, stamps + [clock[n]], times, n)
    ensures Remembers(clock, n + 1, stamps + [clock[n]], times + [clock[n]], n)
  {
    assert clock[n] == clock[..n + 1][n];
    forall k | n <= k < |clock|
      ensures |Recent(times + [clock[n]], clock[k])| <= |Recent(stamps + [clock[n]], clock[k])|
      ensures |Recent(times, clock[k])| <= |Recent(stamps + [clock[n]], clock[k])|
    {
      RecentSnoc(times, clock[n], clock[k]);
      RecentSnoc(stamps, clock[n], clock[k]);
    }
  }

  /** A restart that the ledger allows at a tick stays within the budget. */
  lemma RestartFits(clock: seq<real>, n: nat, p: Policy, stamps: seq<real>, times: seq<real>)
    requires Memorable(clock) && n < |clock| && Remembers(clock, n + 1, stamps, times, n) && WithinBudget(p, times)
    requires |Recent(stamps, clock[n])| < p.maxRestartsPerHour
    ensures WithinBudget(p, times + [clock[n]])
  {
    var now := clock[n];
    assert |Recent(times, now)| < p.maxRestartsPerHour;
    forall end: real
      ensures |Recent(times + [now], end)| <= Budget(p)
    {
      RecentSnoc(times, now, end);
      if Fresh(now, end) {
        forall x | x in times && Near(x, now)
          ensures Fresh(x, now)
        {
          Remembered(clock, x, n, n);
        }
        FewerThanNow(times, now, end);
      }
    }
  }

  lemma StillFresh(clock: seq<real>, x: real, n: nat, k: nat)
    requires Memorable(clock) && n <= k < |clock| && x in clock[..n + 1] && Fresh(x, clock[k])
    ensures Fresh(clock[n], clock[k])
  {
    Remembered(clock, x, n, k);
    assert Near(clock[n], clock[k]);
  }

  /** The ledger that replaces a damaged one remembers everything that still matters. */
  lemma RebuiltRemembers(clock: seq<real>, n: nat, p: Policy, times: seq<real>)
    requires Memorable(clock) && n < |clock| && Within(times, clock, n + 1) && WithinBudget(p, times)
    ensures Remembers(clock, n + 1, Repeat(clock[n], p.maxRestartsPerHour), times, n)
  {
    var now := clock[n];
    RepeatShape(now, p.maxRestartsPerHour);
    assert now == clock[..n + 1][n];
    forall k | n <= k < |clock|
      ensures |Recent(times, clock[k])| <= |Recent(Repeat(now, p.maxRestartsPerHour), clock[k])|
    {
      if Fresh(now, clock[k]) {
        RepeatRecent(now, p.maxRestartsPerHour, clock[k]);
      } else {
        forall x | x in times
          ensures !Fresh(x, clock[k])
        {
          if Fresh(x, clock[k]) {
            StillFresh(clock, x, n, k);
          }
        }
        NothingFresh(times, clock[k]);
      }
    }
  }

  // ---------------------------------------------------------------- one tick

  ghost predicate Kept(s: Settings, clock: seq<real>, n: nat, journal: seq<Entry>, c: Component, name: string, from: nat)
    requires n <= |clock|
  {
    Remembers(clock, n, c.restarts, Times(journal, name), from) && WithinBudget(s.policy, Times(journal, name))
  }

  lemma DecideStamps(p: Policy, c: Component, status: Status, now: real)
    ensures var (after, action) := Decide(p, c, status, now);
            && after.restarts == (if action == Restart then Recent(c.restarts, now) + [now] else Recent(c.restarts, now))
            && (action == Restart ==> |Recent(c.restarts, now)| < p.maxRestartsPerHour)
  {
  }

  lemma TreatKeeps(s: Settings, clock: seq<real>, n: nat, journal: seq<Entry>, c: Component, name: string, status: Status, i: nat)
    requires Memorable(clock) && n < |clock| && Kept(s, clock, n + 1, journal, c, name, n)
    ensures var (after, action) := Decide(s.policy, c, status, clock[n]);
            var noted := journal + [Noted(name, clock[n], status, c, after, action)];
            && Kept(s, clock, n + 1, noted, after, name, n)
            && (action == Restart ==>
                  Kept(s, clock, n + 1, noted + [Performed(i, name, clock[n], |Recent(c.restarts, clock[n])|)], after, name, n))
  {
    var now := clock[n];
    var (after, action) := Decide(s.policy, c, status, now);
    var noted := journal + [Noted(name, now, status, c, after, action)];
    var times := Times(journal, name);
    DecideStamps(s.policy, c, status, now);
    JournalSnoc(s.policy, journal, Noted(name, now, status, c, after, action), name);
    PruningRemembers(clock, n, c.restarts, times);
    if action == Restart {
      StampingRemembers(clock, n, Recent(c.restarts, now), times);
      RestartFits(clock, n, s.policy, c.restarts, times);
      JournalSnoc(s.policy, noted, Performed(i, name, now, |Recent(c.restarts, now)|), name);
    }
  }

  lemma OthersKept(s: Settings, clock: seq<real>, n: nat, journal: seq<Entry>, c: Component, e: Entry, name: string)
    requires n < |clock| && Kept(s, clock, n + 1, journal, c, name, n) && (e.Performed? ==> e.name != name)
    ensures Kept(s, clock, n + 1, journal + [e], c, name, n)
  {
    JournalSnoc(s.policy, journal, e, name);
  }

  lemma OwnStepKept(
    s: Settings, w: World, components: Components, lastTick: real, clock: seq<real>, n: nat, statuses: seq<Status>, i: nat, effects: nat)
    requires |statuses| == |s.names| && i < |s.names| && effects > 0
    requires Memorable(clock) && n < |clock| && Kept(s, clock, n + 1, w.journal, Lookup(components, s.names[i]), s.names[i], n)
    ensures var q := Step(s, w, components, lastTick, clock[n], statuses, i, effects);
            Kept(s, clock, n + 1, q.world.journal, Lookup(q.components, s.names[i]), s.names[i], n)
  {
    TreatKeeps(s, clock, n, w.journal, Lookup(components, s.names[i]), s.names[i], Observed(statuses, i), i);
  }

  lemma OtherStep(
    s: Settings, w: World, components: Components, lastTick: real, now: real, statuses: seq<Status>, i: nat, effects: nat, name: string,
    noted: seq<Entry>, act: Entry)
    requires |statuses| == |s.names| && i < |s.names| && effects > 0 && s.names[i] != name
    requires var before := Lookup(components, s.names[i]);
             var (after, action) := Decide(s.policy, before, Observed(statuses, i), now);
             && noted == w.journal + [Noted(s.names[i], now, Observed(statuses, i), before, after, action)]
             && act == Performed(i, s.names[i], now, |Recent(before.restarts, now)|)
    ensures var q := Step(s, w, components, lastTick, now, statuses, i, effects);
            (q.world.journal == noted || q.world.journal == noted + [act]) && Lookup(q.components, name) == Lookup(components, name)
  {
  }

  lemma OtherStepKept(
    s: Settings, w: World, components: Components, lastTick: real, clock: seq<real>, n: nat, statuses: seq<Status>, i: nat, effects: nat, name: string)
    requires |statuses| == |s.names| && i < |s.names| && effects > 0 && s.names[i] != name
    requires n < |clock| && Kept(s, clock, n + 1, w.journal, Lookup(components, name), name, n)
    ensures var q := Step(s, w, components, lastTick, clock[n], statuses, i, effects);
            Kept(s, clock, n + 1, q.world.journal, Lookup(q.components, name), name, n)
  {
    var other, now := s.names[i], clock[n];
    var before, c := Lookup(components, other), Lookup(components, name);
    var (after, action) := Decide(s.policy, before, Observed(statuses, i), now);
    var note := Noted(other, now, Observed(statuses, i), before, after, action);
    var act := Performed(i, other, now, |Recent(before.restarts, now)|);
    var noted := w.journal + [note];
    OthersKept(s, clock, n, w.journal, c, note, name);
    OthersKept(s, clock, n, noted, c, act, name);
    OtherStep(s, w, components, lastTick, now, statuses, i, effects, name, noted, act);
  }

  lemma StepKept(
    s: Settings, w: World, components: Components, lastTick: real, clock: seq<real>, n: nat, statuses: seq<Status>, i: nat, effects: nat, name: string)
    requires |statuses| == |s.names| && i < |s.names| && effects > 0
    requires Memorable(clock) && n < |clock| && Kept(s, clock, n + 1, w.journal, Lookup(components, name), name, n)
    ensures var q := Step(s, w, components, lastTick, clock[n], statuses, i, effects);
            && q.world.disk == Stored(Ledger(q.components, lastTick))
            && Kept(s, clock, n + 1, q.world.journal, Lookup(q.components, name), name, n)
  {
    if s.names[i] == name {
      OwnStepKept(s, w, components, lastTick, clock, n, statuses, i, effects);
    } else {
      OtherStepKept(s, w, components, lastTick, clock, n, statuses, i, effects, name);
    }
  }

  /** What holds of the disk between two effects of a tick, and between ticks. */
  ghost predicate Held(s: Settings, clock: seq<real>, n: nat, w: World, name: string, from: nat)
    requires n <= |clock|
  {
    && Within(Times(w.journal, name), clock, n) && WithinBudget(s.policy, Times(w.journal, name))
    && match w.disk
       case Missing => w.journal == []
       case Corrupt => true
       case Stored(ledger) => Kept(s, clock, n, w.journal, Lookup(ledger.components, name), name, from)
  }

  lemma {:induction false} SweepHeld(
    s: Settings, w: World, components: Components, lastTick: real, clock: seq<real>, n: nat, statuses: seq<Status>, i: nat, effects: nat, name: string)
    requires |statuses| == |s.names| && i <= |s.names|
    requires Memorable(clock) && n < |clock| && Held(s, clock, n + 1, w, name, n)
    requires Kept(s, clock, n + 1, w.journal, Lookup(components, name), name, n)
    ensures Held(s, clock, n + 1, Sweep(s, w, components, lastTick, clock[n], statuses, i, effects), name, n)
    decreases |s.names| - i
  {
    if effects > 0 && i < |s.names| {
      var q := Step(s, w, components, lastTick, clock[n], statuses, i, effects);
      StepKept(s, w, components, lastTick, clock, n, statuses, i, effects, name);
      if q.alive {
        SweepHeld(s, q.world, q.components, lastTick, clock, n, statuses, i + 1, q.left, name);
      }
    }
  }

  lemma TickHeld(s: Settings, w: World, clock: seq<real>, n: nat, statuses: seq<Status>, effects: nat, name: string)
    requires Memorable(clock) && n < |clock| && Held(s, clock, n + 1, w, name, n)
    requires name in s.names && |statuses| == |s.names|
    ensures Held(s, clock, n + 1, Ticked(s, w, clock[n], statuses, effects), name, n)
  {
    match w.disk
    case Missing => SweepHeld(s, w, map[], 0.0, clock, n, statuses, 0, effects, name);
    case Corrupt =>
      if effects > 0 {
        var rebuilt := Rebuilt(s, clock[n]);
        RebuiltRemembers(clock, n, s.policy, Times(w.journal, name));
        OthersKept(s, clock, n, w.journal, Lookup(rebuilt.components, name), Reset(clock[n]), name);
        SweepHeld(s, Recovered(s, w, clock[n]), rebuilt.components, clock[n], clock, n, statuses, 0, effects - 1, name);
      }
    case Stored(ledger) => SweepHeld(s, w, ledger.components, ledger.lastTick, clock, n, statuses, 0, effects, name);
  }

  lemma HeldNext(s: Settings, clock: seq<real>, n: nat, w: World, name: string)
    requires n < |clock| && Held(s, clock, n, w, name, n)
    ensures Held(s, clock, n + 1, w, name, n)
  {
    assert forall x | x in clock[..n] :: x in clock[..n + 1];
  }

  lemma HeldLater(s: Settings, clock: seq<real>, n: nat, w: World, name: string)
    requires n < |clock| && Held(s, clock, n + 1, w, name, n)
    ensures Held(s, clock, n + 1, w, name, n + 1)
  {
  }

  lemma {:induction false} PrefixHeld(s: Settings, events: seq<Event>, clock: seq<real>, name: string)
    requires name in s.names && Memorable(clock) && Clocks(events) <= clock
    ensures Held(s, clock, |Clocks(events)|, Run(s, events), name, |Clocks(events)|)
  {
    if events != [] {
      var init, e := events[..|events| - 1], events[|events| - 1];
      var n, w := |Clocks(init)|, Run(s, init);
      PrefixHeld(s, init, clock, name);
      match e
      case Tick(now, statuses, effects) =>
        assert now == Clocks(events)[n] == clock[n];
        HeldNext(s, clock, n, w, name);
        if |statuses| == |s.names| {
          TickHeld(s, w, clock, n, statuses, effects, name);
        }
        HeldLater(s, clock, n, Run(s, events), name);
      case Damage => JournalSnoc(s.policy, w.journal, Lost, name);
    }
  }

  // ---------------------------------------------------------------- no memorable clock breaks the budget

  /** The restarts of an hour are all fresh at the latest of them. */
  lemma {:induction false} HourEnds(times: seq<real>, from: real) returns (end: real)
    ensures from <= end < from + HOUR && InHour(times, from) <= |Recent(times, end)|
    ensures forall x | x in times && from <= x < from + HOUR :: x <= end
  {
    if times == [] {
      end := from;
    } else {
      var init, last := times[..|times| - 1], Last(times);
      var before := HourEnds(init, from);
      end := if from <= last < from + HOUR && before < last then last else before;
      AllFresh(init, from, end);
      assert forall x | x in times :: x in init || x == last;
    }
  }

  lemma {:induction false} AllFresh(times: seq<real>, from: real, end: real)
    requires from <= end < from + HOUR && forall x | x in times && from <= x < from + HOUR :: x <= end
    ensures InHour(times, from) <= |Recent(times, end)|
  {
    if times != [] {
      var init := times[..|times| - 1];
      assert forall x | x in init :: x in times;
      AllFresh(init, from, end);
      assert Last(times) in times;
    }
  }

  /**
    The restart budget.  For every run with a memorable clock, with crashes after any effect and
    detected damage at any moment, no window [from, from + 1 h) holds more performed restarts of a
    component than the budget allows.
   */
  lemma MemorableClockKeepsBudget(s: Settings, events: seq<Event>, name: string, from: real)
    requires name in s.names && Memorable(Clocks(events))
    ensures InHour(Times(Run(s, events).journal, name), from) <= Budget(s.policy)
  {
    PrefixHeld(s, events, Clocks(events), name);
    var end := HourEnds(Times(Run(s, events).journal, name), from);
  }

  /** A clock that does not step back is memorable. */
  lemma {:induction false} SteadyClock(events: seq<Event>, start: real)
    requires ClockNeverStepsBack(events, start)
    ensures Ascending(Clocks(events)) && Memorable(Clocks(events))
    ensures AtMost(Clocks(events), Clock(events, start))
  {
    if events != [] {
      SteadyClock(events[..|events| - 1], start);
    }
  }

  // ---------------------------------------------------------------- every other clock breaks it

  /**
    A run over a given clock with one component and a budget of one: the backend fails at ticks `i`
    and `k`, is healthy at tick `m` in between, and every other tick crashes before it writes.
   */
  function Forgetful(clock: seq<real>, i: nat, m: nat, k: nat, n: nat): seq<Event>
    requires n <= |clock|
  {
    if n == 0 then [] else Forgetful(clock, i, m, k, n - 1) + [ForgetfulTick(clock, i, m, k, n - 1)]
  }

  function ForgetfulTick(clock: seq<real>, i: nat, m: nat, k: nat, n: nat): Event
    requires n < |clock|
  {
    if n == i || n == k then Tick(clock[n], [BackendUnavailable], 2)
    else if n == m then Tick(clock[n], [Healthy], 1)
    else Tick(clock[n], [Healthy], 0)
  }

  lemma ClocksSnoc(events: seq<Event>, e: Event)
    requires e.Tick?
    ensures Clocks(events + [e]) == Clocks(events) + [e.now]
  {
    assert (events + [e])[..|events|] == events;
  }

  lemma TakeSnoc(clock: seq<real>, n: nat)
    requires 0 < n <= |clock|
    ensures clock[..n] == clock[..n - 1] + [clock[n - 1]]
  {
  }

  lemma {:induction false} ForgetfulClocks(clock: seq<real>, i: nat, m: nat, k: nat, n: nat)
    requires n <= |clock|
    ensures Clocks(Forgetful(clock, i, m, k, n)) == clock[..n]
  {
    if n > 0 {
      var init, e := Forgetful(clock, i, m, k, n - 1), ForgetfulTick(clock, i, m, k, n - 1);
      ForgetfulClocks(clock, i, m, k, n - 1);
      ClocksSnoc(init, e);
      TakeSnoc(clock, n);
      assert Forgetful(clock, i, m, k, n) == init + [e];
    }
  }

  lemma RunForgetful(clock: seq<real>, i: nat, m: nat, k: nat, n: nat)
    requires 0 < n <= |clock|
    ensures Run(ONE_RESTART, Forgetful(clock, i, m, k, n)) ==
            Next(ONE_RESTART, Run(ONE_RESTART, Forgetful(clock, i, m, k, n - 1)), ForgetfulTick(clock, i, m, k, n - 1))
  {
    var init := Forgetful(clock, i, m, k, n - 1);
    assert Forgetful(clock, i, m, k, n)[..|init|] == init;
  }

  /** The ledger without a stamp to count: the backend restarts. */
  lemma RestartTick(w: World, components: Components, now: real)
    requires w.disk == Stored(Ledger(components, 0.0)) || (w.disk == Missing && components == map[])
    requires now >= 0.0 && Recent(Lookup(components, "backend").restarts, now) == []
    requires Lookup(components, "backend").failureStreak == 0
    ensures var after := Next(ONE_RESTART, w, Tick(now, [BackendUnavailable], 2));
            && after.disk.Stored? && after.disk.ledger.lastTick == 0.0
            && Lookup(after.disk.ledger.components, "backend").restarts == [now]
            && Lookup(after.disk.ledger.components, "backend").failureStreak == 0
            && Times(after.journal, "backend") == Times(w.journal, "backend") + [now]
  {
    var s, before := ONE_RESTART, Lookup(components, "backend");
    var (after, action) := Decide(s.policy, before, BackendUnavailable, now);
    assert [] + [now] == [now] && action == Restart && after.restarts == [now];
    var note := Noted("backend", now, BackendUnavailable, before, after, action);
    var act := Performed(0, "backend", now, 0);
    var q := Step(s, w, components, 0.0, now, [BackendUnavailable], 0, 2);
    assert q.world.journal == w.journal + [note] + [act];
    JournalSnoc(s.policy, w.journal, note, "backend");
    JournalSnoc(s.policy, w.journal + [note], act, "backend");
    assert Next(s, w, Tick(now, [BackendUnavailable], 2)) == q.world;
  }

  /** A healthy observation at a time that cannot remember the stamp drops it from the ledger. */
  lemma HealthyTick(w: World, components: Components, now: real)
    requires w.disk == Stored(Ledger(components, 0.0)) && now >= 0.0
    requires Recent(Lookup(components, "backend").restarts, now) == []
    ensures var after := Next(ONE_RESTART, w, Tick(now, [Healthy], 1));
            && after.disk.Stored? && after.disk.ledger.lastTick == 0.0
            && Lookup(after.disk.ledger.components, "backend").restarts == []
            && Lookup(after.disk.ledger.components, "backend").failureStreak == 0
            && Times(after.journal, "backend") == Times(w.journal, "backend")
  {
    var s, before := ONE_RESTART, Lookup(components, "backend");
    var (after, action) := Decide(s.policy, before, Healthy, now);
    var note := Noted("backend", now, Healthy, before, after, action);
    var q := Step(s, w, components, 0.0, now, [Healthy], 0, 1);
    assert q.world == World(Stored(Ledger(components["backend" := after], 0.0)), w.journal + [note]);
    JournalSnoc(s.policy, w.journal, note, "backend");
    assert Next(s, w, Tick(now, [Healthy], 1)) == q.world;
  }

  lemma IdleTick(w: World, now: real)
    ensures w.disk.Stored? || w.disk.Missing? ==> Next(ONE_RESTART, w, Tick(now, [Healthy], 0)) == w
  {
  }

  function Stage(clock: seq<real>, i: nat, m: nat, k: nat, n: nat): World
    requires n <= |clock|
  {
    Run(ONE_RESTART, Forgetful(clock, i, m, k, n))
  }

  lemma {:induction false} UpToFirst(clock: seq<real>, i: nat, m: nat, k: nat, n: nat)
    requires n <= i < m <= k < |clock|
    ensures Stage(clock, i, m, k, n) == World(Missing, [])
  {
    if n > 0 {
      UpToFirst(clock, i, m, k, n - 1);
      RunForgetful(clock, i, m, k, n);
      IdleTick(World(Missing, []), clock[n - 1]);
    }
  }

  ghost predicate Stands(w: World, stamps: seq<real>, times: seq<real>) {
    && w.disk.Stored? && w.disk.ledger.lastTick == 0.0 && Times(w.journal, "backend") == times
    && Lookup(w.disk.ledger.components, "backend").restarts == stamps
    && Lookup(w.disk.ledger.components, "backend").failureStreak == 0
  }

  lemma OneIdleTick(clock: seq<real>, i: nat, m: nat, k: nat, n: nat, stamps: seq<real>, times: seq<real>)
    requires 0 < n <= |clock| && n - 1 != i && n - 1 != m && n - 1 != k
    requires Stands(Stage(clock, i, m, k, n - 1), stamps, times)
    ensures Stands(Stage(clock, i, m, k, n), stamps, times)
  {
    RunForgetful(clock, i, m, k, n);
    IdleTick(Stage(clock, i, m, k, n - 1), clock[n - 1]);
  }

  lemma {:induction false} BetweenTicks(clock: seq<real>, i: nat, m: nat, k: nat, from: nat, n: nat, stamps: seq<real>, times: seq<real>)
    requires i < m <= k < |clock| && from <= n <= |clock|
    requires !(from <= i < n) && !(from <= m < n) && !(from <= k < n)
    requires Stands(Stage(clock, i, m, k, from), stamps, times)
    ensures Stands(Stage(clock, i, m, k, n), stamps, times)
  {
    if n > from {
      BetweenTicks(clock, i, m, k, from, n - 1, stamps, times);
      OneIdleTick(clock, i, m, k, n, stamps, times);
    }
  }

  lemma AfterFirst(clock: seq<real>, i: nat, m: nat, k: nat)
    requires i < m <= k < |clock| && clock[i] >= 0.0
    ensures Stands(Stage(clock, i, m, k, i + 1), [clock[i]], [clock[i]])
  {
    UpToFirst(clock, i, m, k, i);
    RunForgetful(clock, i, m, k, i + 1);
    RestartTick(World(Missing, []), map[], clock[i]);
  }

  /** At tick `m` the stamp is dropped from the ledger. */
  lemma Forgotten(clock: seq<real>, i: nat, m: nat, k: nat, w: World)
    requires i < m < k < |clock| && clock[m] >= 0.0 && Recent([clock[i]], clock[m]) == []
    requires w == Stage(clock, i, m, k, m) && Stands(w, [clock[i]], [clock[i]])
    ensures Stands(Stage(clock, i, m, k, m + 1), [], [clock[i]])
  {
    RunForgetful(clock, i, m, k, m + 1);
    HealthyTick(w, w.disk.ledger.components, clock[m]);
  }

  /** By tick `k` the stamp is gone from the ledger, or is not counted there. */
  lemma BeforeLast(clock: seq<real>, i: nat, m: nat, k: nat) returns (stamps: seq<real>)
    requires i < m <= k < |clock| && !Fresh(clock[i], clock[m]) && forall n | 0 <= n < |clock| :: clock[n] >= 0.0
    ensures Stands(Stage(clock, i, m, k, k), stamps, [clock[i]]) && Recent(stamps, clock[k]) == []
  {
    AfterFirst(clock, i, m, k);
    BetweenTicks(clock, i, m, k, i + 1, m, [clock[i]], [clock[i]]);
    NothingFresh([clock[i]], clock[m]);
    if m == k {
      stamps := [clock[i]];
    } else {
      Forgotten(clock, i, m, k, Stage(clock, i, m, k, m));
      BetweenTicks(clock, i, m, k, m + 1, k, [], [clock[i]]);
      stamps := [];
    }
  }

  lemma SecondRestart(clock: seq<real>, i: nat, m: nat, k: nat, w: World, stamps: seq<real>)
    requires i < m <= k < |clock| && clock[k] >= 0.0 && Recent(stamps, clock[k]) == []
    requires w == Stage(clock, i, m, k, k) && Stands(w, stamps, [clock[i]])
    ensures Stands(Stage(clock, i, m, k, k + 1), [clock[k]], [clock[i]] + [clock[k]])
  {
    RunForgetful(clock, i, m, k, k + 1);
    var after := Next(ONE_RESTART, w, Tick(clock[k], [BackendUnavailable], 2));
    assert Stage(clock, i, m, k, k + 1) == after;
    RestartTick(w, w.disk.ledger.components, clock[k]);
  }

  /** From the second restart on nothing happens any more, so the run performs two. */
  lemma {:induction false} AfterLast(clock: seq<real>, i: nat, m: nat, k: nat, n: nat)
    requires i < m <= k < n <= |clock| && !Fresh(clock[i], clock[m]) && forall n | 0 <= n < |clock| :: clock[n] >= 0.0
    ensures Stands(Stage(clock, i, m, k, n), [clock[k]], [clock[i]] + [clock[k]])
  {
    if n == k + 1 {
      var stamps := BeforeLast(clock, i, m, k);
      SecondRestart(clock, i, m, k, Stage(clock, i, m, k, k), stamps);
    } else {
      AfterLast(clock, i, m, k, n - 1);
      OneIdleTick(clock, i, m, k, n, [clock[k]], [clock[i]] + [clock[k]]);
    }
  }

  /** Over any clock that is not memorable, some run exceeds its budget. */
  lemma ForgetfulClockBreaksBudget(clock: seq<real>, i: nat, m: nat, k: nat)
    requires i < m <= k < |clock| && forall n | 0 <= n < |clock| :: clock[n] >= 0.0
    requires Near(clock[i], clock[k]) && !Fresh(clock[i], clock[m])
    ensures Clocks(Forgetful(clock, i, m, k, |clock|)) == clock
    ensures InHour(Times(Run(ONE_RESTART, Forgetful(clock, i, m, k, |clock|)).journal, "backend"), Earlier(clock[i], clock[k]))
            > Budget(ONE_RESTART.policy)
  {
    ForgetfulClocks(clock, i, m, k, |clock|);
    AfterLast(clock, i, m, k, |clock|);
    TwoInHour(clock[i], clock[k]);
  }

  function Earlier(x: real, y: real): real { if x <= y then x else y }

  lemma TwoInHour(x: real, y: real)
    requires Near(x, y)
    ensures InHour([x] + [y], Earlier(x, y)) == 2
  {
    var from := Earlier(x, y);
    assert [x][..0] == [] && InHour([], from) == 0;
    assert InHour([x], from) == 1;
    assert ([x] + [y])[..1] == [x] && ([x] + [y])[1] == y;
  }

  ghost predicate BudgetHolds(clock: seq<real>) {
    forall s: Settings, events: seq<Event>, name: string, from: real | name in s.names && Clocks(events) == clock ::
      InHour(Times(Run(s, events).journal, name), from) <= Budget(s.policy)
  }

  /**
    The restart budget, exactly.  Whatever the policy, the observations, the crashes and the damage,
    the budget holds over a clock if and only if that clock is memorable.
   */
  lemma BudgetIff(clock: seq<real>)
    requires forall n | 0 <= n < |clock| :: clock[n] >= 0.0
    ensures BudgetHolds(clock) <==> Memorable(clock)
  {
    if Memorable(clock) {
      forall s: Settings, events: seq<Event>, name: string, from: real | name in s.names && Clocks(events) == clock
        ensures InHour(Times(Run(s, events).journal, name), from) <= Budget(s.policy)
      {
        MemorableClockKeepsBudget(s, events, name, from);
      }
    } else {
      var i, m, k :| 0 <= i < m <= k < |clock| && Near(clock[i], clock[k]) && !Fresh(clock[i], clock[m]);
      ForgetfulClockBreaksBudget(clock, i, m, k);
      assert "backend" in ONE_RESTART.names;
    }
  }

  /** Neither a stamp from the future nor a step back beyond what a tick tolerates is needed: a pruned stamp is enough. */
  lemma PrunedStampBreaksBudget()
    ensures var clock := [0.0, 3600.0, 3599.0];
            var events := Forgetful(clock, 0, 1, 2, 3);
            && Clocks(events) == clock
            && InHour(Times(Run(ONE_RESTART, events).journal, "backend"), 0.0) > Budget(ONE_RESTART.policy)
  {
    var clock := [0.0, 3600.0, 3599.0];
    assert Earlier(clock[0], clock[2]) == 0.0 && |clock| == 3;
    ForgetfulClockBreaksBudget(clock, 0, 1, 2);
  }
}
