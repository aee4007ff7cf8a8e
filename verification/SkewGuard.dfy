/**
  The hourly budget when every tick runs to its end.  Such a tick leaves its time in the ledger, and
  a later tick that finds a time more than five seconds ahead of its own does nothing.
 */
module SkewGuard {
  import opened Wrappers
  import opened Recovery
  import opened RestartBudget

  /** The ticks that pass the guard. */
  function Taken(clock: seq<real>): seq<real> {
    if clock == [] then [] else
      var init, now := Taken(clock[..|clock| - 1]), clock[|clock| - 1];
      if Refused(init, now) then init else init + [now]
  }

  predicate Refused(taken: seq<real>, now: real) { taken != [] && taken[|taken| - 1] > now + 5.0 }

  /** A tick with an observation for every component and time for every effect. */
  predicate Completes(s: Settings, e: Event) {
    e.Tick? && |e.statuses| == |s.names| && e.effects > 2 * |s.names|
  }

  predicate AllComplete(s: Settings, events: seq<Event>) {
    forall n | 0 <= n < |events| :: Completes(s, events[n])
  }

  // ---------------------------------------------------------------- refused ticks do nothing

  lemma {:induction false} SweepCompletes(
    s: Settings, w: World, components: Components, lastTick: real, now: real, statuses: seq<Status>, i: nat, effects: nat)
    requires |statuses| == |s.names| && i <= |s.names| && effects > 2 * (|s.names| - i)
    ensures var after := Sweep(s, w, components, lastTick, now, statuses, i, effects);
            after.disk.Stored? && after.disk.ledger.lastTick == now
    decreases |s.names| - i
  {
    if i < |s.names| {
      var q := Step(s, w, components, lastTick, now, statuses, i, effects);
      SweepCompletes(s, q.world, q.components, lastTick, now, statuses, i + 1, q.left);
    }
  }

  /** The disk names the last tick taken. */
  predicate Marked(w: World, taken: seq<real>) {
    if taken == [] then w.disk.Missing? else w.disk.Stored? && w.disk.ledger.lastTick == taken[|taken| - 1]
  }

  lemma TickMarks(s: Settings, w: World, taken: seq<real>, e: Event)
    requires Marked(w, taken) && Completes(s, e)
    ensures Refused(taken, e.now) ==> Next(s, w, e) == w
    ensures !Refused(taken, e.now) ==> Marked(Next(s, w, e), taken + [e.now])
  {
    if w.disk.Missing? {
      SweepCompletes(s, w, map[], 0.0, e.now, e.statuses, 0, e.effects);
    } else if !Refused(taken, e.now) {
      SweepCompletes(s, w, w.disk.ledger.components, w.disk.ledger.lastTick, e.now, e.statuses, 0, e.effects);
    }
  }

  /** The run without its refused ticks. */
  function Accepted(events: seq<Event>): seq<Event> {
    if events == [] then [] else
      var init, e := events[..|events| - 1], events[|events| - 1];
      if e.Tick? && Refused(Taken(Clocks(init)), e.now) then Accepted(init) else Accepted(init) + [e]
  }

  lemma {:induction false} RefusedTicksDoNothing(s: Settings, events: seq<Event>)
    requires AllComplete(s, events)
    ensures Run(s, Accepted(events)) == Run(s, events) && Clocks(Accepted(events)) == Taken(Clocks(events))
    ensures Marked(Run(s, events), Taken(Clocks(events)))
  {
    if events != [] {
      var init, e := events[..|events| - 1], events[|events| - 1];
      RefusedTicksDoNothing(s, init);
      TickMarks(s, Run(s, init), Taken(Clocks(init)), e);
      assert Clocks(events)[..|Clocks(init)|] == Clocks(init);
      var accepted := Accepted(init);
      assert (accepted + [e])[..|accepted|] == accepted;
    }
  }

  // ---------------------------------------------------------------- a run of completed ticks

  /** The backend fails at the `i`-th and `k`-th tick that is taken, and is healthy at every other. */
  function LastTick(clock: seq<real>, i: nat, k: nat): Event
    requires clock != []
  {
    var n := |Taken(clock[..|clock| - 1])|;
    Tick(clock[|clock| - 1], [if n == i || n == k then BackendUnavailable else Healthy], 3)
  }

  function Outages(clock: seq<real>, i: nat, k: nat): seq<Event> {
    if clock == [] then [] else Outages(clock[..|clock| - 1], i, k) + [LastTick(clock, i, k)]
  }

  lemma RunFailing(s: Settings, clock: seq<real>, i: nat, k: nat)
    requires clock != []
    ensures Run(s, Outages(clock, i, k)) == Next(s, Run(s, Outages(clock[..|clock| - 1], i, k)), LastTick(clock, i, k))
  {
    var init := Outages(clock[..|clock| - 1], i, k);
    var events := init + [LastTick(clock, i, k)];
    assert events[..|init|] == init;
  }

  lemma {:induction false} FailingClocks(clock: seq<real>, i: nat, k: nat)
    ensures Clocks(Outages(clock, i, k)) == clock
  {
    if clock != [] {
      FailingClocks(clock[..|clock| - 1], i, k);
      ClocksSnoc(Outages(clock[..|clock| - 1], i, k), LastTick(clock, i, k));
    }
  }

  lemma {:induction false} FailingCompletes(clock: seq<real>, i: nat, k: nat)
    ensures AllComplete(ONE_RESTART, Outages(clock, i, k))
  {
    if clock != [] {
      FailingCompletes(clock[..|clock| - 1], i, k);
    }
  }

  /** Where the run stands after these ticks were taken; a tick that cannot remember the first stamp drops it. */
  ghost predicate Reached(w: World, t: seq<real>, i: nat, m: nat, k: nat)
    requires i < m <= k
  {
    if t == [] then w == World(Missing, []) else
      && w.disk.Stored? && w.disk.ledger.lastTick == t[|t| - 1]
      && var c := Lookup(w.disk.ledger.components, "backend");
      && c.failureStreak == 0
      && Times(w.journal, "backend") == (if |t| <= i then [] else if |t| <= k then [t[i]] else [t[i]] + [t[k]])
      && (|t| <= i ==> c.restarts == [])
      && (i < |t| <= k ==> c.restarts == [] || (c.restarts == [t[i]] && |t| <= m))
  }

  function Held(w: World): Components {
    if w.disk.Stored? then w.disk.ledger.components else map[]
  }

  /** One completed tick of the backend alone. */
  lemma BackendTick(w: World, now: real, status: Status)
    requires !w.disk.Corrupt? && (w.disk.Stored? ==> w.disk.ledger.lastTick <= now + 5.0)
    ensures var before := Lookup(Held(w), "backend");
            var (after, action) := Decide(ONE_RESTART.policy, before, status, now);
            var next := Next(ONE_RESTART, w, Tick(now, [status], 3));
            && next.disk == Stored(Ledger(Held(w)["backend" := after], now))
            && Times(next.journal, "backend") == if action == Restart then Times(w.journal, "backend") + [now] else Times(w.journal, "backend")
  {
    var s, before := ONE_RESTART, Lookup(Held(w), "backend");
    var (after, action) := Decide(s.policy, before, status, now);
    var note := Noted("backend", now, status, before, after, action);
    var act := Performed(0, "backend", now, |Recent(before.restarts, now)|);
    JournalSnoc(s.policy, w.journal, note, "backend");
    JournalSnoc(s.policy, w.journal + [note], act, "backend");
  }

  lemma CalmTick(w: World, t: seq<real>, now: real, i: nat, m: nat, k: nat)
    requires i < m <= k && Reached(w, t, i, m, k) && !Refused(t, now) && |t| != i && |t| != k
    requires |t| == m ==> !Fresh(t[i], now)
    ensures Reached(Next(ONE_RESTART, w, Tick(now, [Healthy], 3)), t + [now], i, m, k)
  {
    BackendTick(w, now, Healthy);
    var stamps := Lookup(Held(w), "backend").restarts;
    if i < |t| <= k && stamps != [] {
      RecentOfOne(t[i], now);
    }
    assert Recent([], now) == [];
  }

  /** With no stamp that counts, the backend restarts. */
  lemma DownRestarts(before: Component, now: real)
    requires before.failureStreak == 0 && Recent(before.restarts, now) == []
    ensures var (after, action) := Decide(ONE_RESTART.policy, before, BackendUnavailable, now);
            action == Restart && after.restarts == [now] && after.failureStreak == 0
  {
    assert [] + [now] == [now];
  }

  lemma FirstDownTick(w: World, t: seq<real>, now: real, i: nat, m: nat, k: nat)
    requires i < m <= k && Reached(w, t, i, m, k) && !Refused(t, now) && |t| == i
    ensures Reached(Next(ONE_RESTART, w, Tick(now, [BackendUnavailable], 3)), t + [now], i, m, k)
  {
    BackendTick(w, now, BackendUnavailable);
    DownRestarts(Lookup(Held(w), "backend"), now);
    assert [] + [now] == [now];
  }

  lemma SecondDownTick(w: World, t: seq<real>, now: real, i: nat, m: nat, k: nat)
    requires i < m <= k && Reached(w, t, i, m, k) && !Refused(t, now) && |t| == k
    requires |t| == m ==> !Fresh(t[i], now)
    ensures Reached(Next(ONE_RESTART, w, Tick(now, [BackendUnavailable], 3)), t + [now], i, m, k)
  {
    BackendTick(w, now, BackendUnavailable);
    var before := Lookup(Held(w), "backend");
    if before.restarts != [] {
      RecentOfOne(t[i], now);
    }
    DownRestarts(before, now);
  }

  lemma RecentOfOne(x: real, now: real)
    ensures Recent([x], now) == if Fresh(x, now) then [x] else []
  {
    assert [x][..0] == [];
  }

  lemma TakenTickStage(w: World, t: seq<real>, now: real, full: seq<real>, i: nat, m: nat, k: nat)
    requires i < m <= k < |full| && t + [now] <= full && !Fresh(full[i], full[m])
    requires Reached(w, t, i, m, k) && !Refused(t, now)
    ensures var status := if |t| == i || |t| == k then BackendUnavailable else Healthy;
            Reached(Next(ONE_RESTART, w, Tick(now, [status], 3)), t + [now], i, m, k)
  {
    assert (t + [now])[|t|] == now == full[|t|];
    assert |t| == m ==> t[i] == (t + [now])[i] == full[i];
    if |t| == i {
      FirstDownTick(w, t, now, i, m, k);
    } else if |t| == k {
      SecondDownTick(w, t, now, i, m, k);
    } else {
      CalmTick(w, t, now, i, m, k);
    }
  }

  lemma LastTickStage(w: World, clock: seq<real>, full: seq<real>, i: nat, m: nat, k: nat)
    requires clock != [] && i < m <= k < |full| && Taken(clock) <= full && !Fresh(full[i], full[m])
    requires var t := Taken(clock[..|clock| - 1]); Reached(w, t, i, m, k) && Marked(w, t)
    ensures Reached(Next(ONE_RESTART, w, LastTick(clock, i, k)), Taken(clock), i, m, k)
  {
    var t, now := Taken(clock[..|clock| - 1]), clock[|clock| - 1];
    if Refused(t, now) {
      TickMarks(ONE_RESTART, w, t, LastTick(clock, i, k));
    } else {
      assert Taken(clock) == t + [now];
      TakenTickStage(w, t, now, full, i, m, k);
    }
  }

  lemma {:induction false} FailingStage(clock: seq<real>, full: seq<real>, i: nat, m: nat, k: nat)
    requires i < m <= k < |full| && Taken(clock) <= full && !Fresh(full[i], full[m])
    ensures Reached(Run(ONE_RESTART, Outages(clock, i, k)), Taken(clock), i, m, k)
  {
    if clock != [] {
      var init := clock[..|clock| - 1];
      assert Taken(init) <= Taken(clock);
      FailingStage(init, full, i, m, k);
      FailingClocks(init, i, k);
      FailingCompletes(init, i, k);
      RefusedTicksDoNothing(ONE_RESTART, Outages(init, i, k));
      RunFailing(ONE_RESTART, clock, i, k);
      LastTickStage(Run(ONE_RESTART, Outages(init, i, k)), clock, full, i, m, k);
    }
  }

  lemma FailingBreaksBudget(clock: seq<real>, i: nat, m: nat, k: nat)
    requires i < m <= k < |Taken(clock)| && !Fresh(Taken(clock)[i], Taken(clock)[m])
    requires Near(Taken(clock)[i], Taken(clock)[k])
    ensures var events, t := Outages(clock, i, k), Taken(clock);
            && Clocks(events) == clock && AllComplete(ONE_RESTART, events)
            && InHour(Times(Run(ONE_RESTART, events).journal, "backend"), Earlier(t[i], t[k])) > Budget(ONE_RESTART.policy)
  {
    FailingClocks(clock, i, k);
    FailingCompletes(clock, i, k);
    FailingStage(clock, Taken(clock), i, m, k);
    TwoInHour(Taken(clock)[i], Taken(clock)[k]);
  }

  // ---------------------------------------------------------------- the exact condition

  ghost predicate BudgetHolds(clock: seq<real>) {
    forall s: Settings, events: seq<Event>, name: string, from: real | name in s.names && AllComplete(s, events) && Clocks(events) == clock ::
      InHour(Times(Run(s, events).journal, name), from) <= Budget(s.policy)
  }

  /**
    The restart budget when every tick completes and the ledger stays undamaged, exactly: it holds
    over a clock if and only if the ticks that pass the guard form a memorable clock.
   */
  lemma CompletedBudgetIff(clock: seq<real>)
    ensures BudgetHolds(clock) <==> Memorable(Taken(clock))
  {
    if Memorable(Taken(clock)) {
      forall s: Settings, events: seq<Event>, name: string, from: real | name in s.names && AllComplete(s, events) && Clocks(events) == clock
        ensures InHour(Times(Run(s, events).journal, name), from) <= Budget(s.policy)
      {
        RefusedTicksDoNothing(s, events);
        MemorableClockKeepsBudget(s, Accepted(events), name, from);
      }
    } else {
      var t := Taken(clock);
      var i, m, k :| 0 <= i < m <= k < |t| && Near(t[i], t[k]) && !Fresh(t[i], t[m]);
      FailingBreaksBudget(clock, i, m, k);
      assert "backend" in ONE_RESTART.names;
    }
  }
}
