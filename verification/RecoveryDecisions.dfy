/**
  What the recovery controller decides, exactly, said by the journal of what was observed and done;
  and what a tick leaves in that journal.
 */
module RecoveryDecisions {
  import opened Wrappers
  import opened Recovery

  // ---------------------------------------------------------------- what the journal says

  /** Observations that count as failures, and those that a restart can help. */
  predicate Trouble(status: Status) { status !in {Healthy, Overloaded, Starting, DependencyUnavailable} }

  predicate Curable(status: Status) { status in {BackendUnavailable, TunnelUnavailable, TunnelStale, MetricsUnavailable} }

  /** Consecutive failures at the end of the journal; a restart, a lost ledger and any other observation end them. */
  function Failures(journal: seq<Entry>, name: string): nat {
    if journal == [] then 0 else
      var init, e := journal[..|journal| - 1], journal[|journal| - 1];
      if e.Lost? then 0
      else if e.Recorded? && e.name == name then
        if Trouble(e.status) && e.action != Restart then Failures(init, name) + 1 else 0
      else Failures(init, name)
  }

  /** The time stamps less than an hour old. */
  function LastHour(stamps: seq<real>, now: real): seq<real> {
    if stamps == [] then [] else
      (if 0.0 <= now - stamps[0] < 3600.0 then [stamps[0]] else []) + LastHour(stamps[1..], now)
  }

  function Copies(x: real, n: int): seq<real> { if n <= 0 then [] else [x] + Copies(x, n - 1) }

  /**
    The restart stamps that are remembered: those of decided restarts that were less than an hour old
    at every decision since; a ledger that was replaced holds the whole budget from that time.
   */
  function Stamps(s: Settings, journal: seq<Entry>, name: string): seq<real> {
    if journal == [] then [] else
      var init, e := journal[..|journal| - 1], journal[|journal| - 1];
      match e
      case Lost => []
      case Reset(at) => if name in s.names then Copies(at, s.policy.maxRestartsPerHour) else []
      case Recorded(other, at, _, action, _, _) =>
        if other != name then Stamps(s, init, name)
        else LastHour(Stamps(s, init, name), at) + if action == Restart then [at] else []
      case Performed(_, _, _, _) => Stamps(s, init, name)
  }

  function Doubled(x: real, n: nat): real { if n == 0 then x else 2.0 * Doubled(x, n - 1) }

  /** The wait after the `n`-th remembered restart: the cooldown, doubled for each one before, at most a quarter of an hour. */
  function Wait(p: Policy, n: nat): real
    requires n > 0
  {
    var wait := Doubled(p.cooldownSeconds, n - 1);
    if wait < 900.0 then wait else 900.0
  }

  /** A restart is due: it can help, the budget has room, and the last one is long enough ago. */
  predicate Due(s: Settings, before: seq<Entry>, e: Entry)
    requires e.Recorded?
  {
    var kept := LastHour(Stamps(s, before, e.name), e.at);
    && Curable(e.status) && |kept| < s.policy.maxRestartsPerHour
    && (kept == [] || e.at - kept[|kept| - 1] >= Wait(s.policy, |kept|))
  }

  /** The observations have been healthy for the stability period, this one included. */
  predicate Stable(s: Settings, before: seq<Entry>, e: Entry)
    requires e.Recorded?
  {
    var since := CalmSince(before, e.name);
    e.at - (if since.Some? then since.value else e.at) >= s.policy.stableSeconds
  }

  /** What is decided, in every case. */
  predicate Exact(s: Settings, before: seq<Entry>, e: Entry)
    requires e.Recorded?
  {
    && e.openBefore == IncidentOpen(before, e.name)
    && if e.status.Healthy? then
         && e.openAfter == (e.openBefore && !Stable(s, before, e))
         && e.action == (if e.openBefore && !e.openAfter then Resolved else NoAction)
       else if !Trouble(e.status) || Failures(before, e.name) + 1 < s.policy.confirmations then
         e.openAfter == e.openBefore && e.action == NoAction
       else
         && e.openAfter
         && e.action == (if Due(s, before, e) then Restart else if e.openBefore then NoAction else Incident)
  }

  // ---------------------------------------------------------------- the ledger is what the journal says

  predicate Mirrors(s: Settings, c: Component, journal: seq<Entry>, name: string) {
    && c.failureStreak == Failures(journal, name)
    && c.incidentOpen == IncidentOpen(journal, name)
    && c.healthySince == CalmSince(journal, name)
    && c.restarts == Stamps(s, journal, name)
  }

  lemma {:induction false} LastHourSnoc(stamps: seq<real>, x: real, now: real)
    ensures LastHour(stamps + [x], now) == LastHour(stamps, now) + if 0.0 <= now - x < 3600.0 then [x] else []
  {
    if stamps == [] {
      assert [] + [x] == [x] && [x][1..] == [];
    } else {
      LastHourSnoc(stamps[1..], x, now);
      assert (stamps + [x])[1..] == stamps[1..] + [x];
    }
  }

  lemma {:induction false} LastHourIsRecent(stamps: seq<real>, now: real)
    ensures Recent(stamps, now) == LastHour(stamps, now)
  {
    if stamps != [] {
      var init, last := stamps[..|stamps| - 1], stamps[|stamps| - 1];
      LastHourIsRecent(init, now);
      LastHourSnoc(init, last, now);
      assert stamps == init + [last];
    }
  }

  lemma {:induction false} CopiesIsRepeat(x: real, n: int)
    ensures Repeat(x, n) == Copies(x, n)
    decreases if n > 0 then n else 0
  {
    if n > 1 {
      CopiesIsRepeat(x, n - 1);
      CopiesIsRepeat(x, n - 2);
      assert Copies(x, n - 1) == [x] + Copies(x, n - 2);
      assert Repeat(x, n) == [x] + Repeat(x, n - 2) + [x];
    } else if n == 1 {
      assert Repeat(x, 0) == [] && Copies(x, 0) == [];
    }
  }

  lemma {:induction false} DoubledIsPower(x: real, n: nat)
    ensures Doubled(x, n) == x * (Pow2(n) as real)
  {
    if n > 0 {
      DoubledIsPower(x, n - 1);
      var half := Pow2(n - 1) as real;
      assert Pow2(n) as real == 2.0 * half && 2.0 * (x * half) == x * (2.0 * half);
    }
  }

  lemma WaitIsCooldown(p: Policy, n: nat)
    requires n > 0
    ensures Wait(p, n) == Cooldown(p, n)
  {
    DoubledIsPower(p.cooldownSeconds, n - 1);
  }

  lemma JournalMirrored(s: Settings, journal: seq<Entry>, e: Entry, name: string)
    ensures var own := e.Recorded? && e.name == name;
            && Failures(journal + [e], name) ==
               (if e.Lost? then 0 else if !own then Failures(journal, name)
                else if Trouble(e.status) && e.action != Restart then Failures(journal, name) + 1 else 0)
            && Stamps(s, journal + [e], name) ==
               (if e.Lost? then []
                else if e.Reset? then if name in s.names then Copies(e.at, s.policy.maxRestartsPerHour) else []
                else if !own then Stamps(s, journal, name)
                else LastHour(Stamps(s, journal, name), e.at) + if e.action == Restart then [e.at] else [])
  {
    assert (journal + [e])[..|journal|] == journal;
  }

  lemma CurableIsRestartable(status: Status)
    ensures Curable(status) <==> Restartable(status)
    ensures Trouble(status) <==> Failing(status)
  {
  }

  /** The decision on an observation is the exact one. */
  lemma DecisionExact(s: Settings, journal: seq<Entry>, c: Component, name: string, status: Status, now: real)
    requires Mirrors(s, c, journal, name)
    ensures var (after, action) := Decide(s.policy, c, status, now);
            Exact(s, journal, Noted(name, now, status, c, after, action))
  {
    var kept := LastHour(c.restarts, now);
    LastHourIsRecent(c.restarts, now);
    CurableIsRestartable(status);
    if kept != [] {
      WaitIsCooldown(s.policy, |kept|);
    }
  }

  /** So is the phase that is reported with it. */
  lemma PhaseFollows(s: Settings, journal: seq<Entry>, c: Component, name: string, status: Status, now: real)
    requires Mirrors(s, c, journal, name)
    ensures var (after, action) := Decide(s.policy, c, status, now);
            var e := Noted(name, now, status, c, after, action);
            after.phase == Some(
              if status.Healthy? then if Stable(s, journal, e) then HealthyPhase else Verifying
              else if !Trouble(status) then Degraded
              else if Failures(journal, name) + 1 < s.policy.confirmations then Suspect
              else if !Curable(status) then RequiresAttention
              else if |LastHour(Stamps(s, journal, name), now)| >= s.policy.maxRestartsPerHour then CircuitOpen
              else if Due(s, journal, e) then Recovering else Cooling)
  {
    var kept := LastHour(c.restarts, now);
    LastHourIsRecent(c.restarts, now);
    CurableIsRestartable(status);
    if kept != [] {
      WaitIsCooldown(s.policy, |kept|);
    }
  }

  lemma DecisionStamps(p: Policy, c: Component, status: Status, now: real)
    ensures var (after, action) := Decide(p, c, status, now);
            && after.restarts == LastHour(c.restarts, now) + (if action == Restart then [now] else [])
            && after.failureStreak == (if Trouble(status) && action != Restart then c.failureStreak + 1 else 0)
  {
    LastHourIsRecent(c.restarts, now);
    CurableIsRestartable(status);
  }

  lemma DecisionCalm(p: Policy, journal: seq<Entry>, c: Component, name: string, status: Status, now: real)
    requires c.incidentOpen == IncidentOpen(journal, name) && c.healthySince == CalmSince(journal, name)
    ensures var (after, action) := Decide(p, c, status, now);
            var all := journal + [Noted(name, now, status, c, after, action)];
            after.incidentOpen == IncidentOpen(all, name) && after.healthySince == CalmSince(all, name)
  {
    var (after, action) := Decide(p, c, status, now);
    JournalSnoc(p, journal, Noted(name, now, status, c, after, action), name);
  }

  lemma DecisionMirrored(s: Settings, journal: seq<Entry>, c: Component, name: string, status: Status, now: real)
    requires Mirrors(s, c, journal, name)
    ensures var (after, action) := Decide(s.policy, c, status, now);
            Mirrors(s, after, journal + [Noted(name, now, status, c, after, action)], name)
  {
    var (after, action) := Decide(s.policy, c, status, now);
    DecisionStamps(s.policy, c, status, now);
    DecisionCalm(s.policy, journal, c, name, status, now);
    JournalMirrored(s, journal, Noted(name, now, status, c, after, action), name);
  }

  lemma OthersMirrored(s: Settings, journal: seq<Entry>, c: Component, e: Entry, name: string)
    requires Mirrors(s, c, journal, name) && (e.Performed? || (e.Recorded? && e.name != name))
    ensures Mirrors(s, c, journal + [e], name)
  {
    JournalMirrored(s, journal, e, name);
    JournalSnoc(s.policy, journal, e, name);
  }

  // ---------------------------------------------------------------- over a run

  /** Every recorded decision about the component is the exact one. */
  predicate AllExact(s: Settings, journal: seq<Entry>, name: string) {
    journal == [] ||
    (var init, e := journal[..|journal| - 1], journal[|journal| - 1];
     AllExact(s, init, name) && (e.Recorded? && e.name == name ==> Exact(s, init, e)))
  }

  lemma AllExactSnoc(s: Settings, journal: seq<Entry>, e: Entry, name: string)
    ensures AllExact(s, journal + [e], name) <==> AllExact(s, journal, name) && (e.Recorded? && e.name == name ==> Exact(s, journal, e))
  {
    assert (journal + [e])[..|journal|] == journal;
  }

  predicate Reflects(s: Settings, w: World, name: string) {
    && AllExact(s, w.journal, name)
    && match w.disk
       case Missing => w.journal == []
       case Corrupt => !IncidentOpen(w.journal, name) && CalmSince(w.journal, name).None? && Failures(w.journal, name) == 0
       case Stored(ledger) => Mirrors(s, Lookup(ledger.components, name), w.journal, name)
  }

  lemma OwnStepExact(
    s: Settings, w: World, components: Components, lastTick: real, now: real, statuses: seq<Status>, i: nat, effects: nat)
    requires |statuses| == |s.names| && i < |s.names| && effects > 0
    requires AllExact(s, w.journal, s.names[i]) && Mirrors(s, Lookup(components, s.names[i]), w.journal, s.names[i])
    ensures var q := Step(s, w, components, lastTick, now, statuses, i, effects);
            AllExact(s, q.world.journal, s.names[i]) && Mirrors(s, Lookup(q.components, s.names[i]), q.world.journal, s.names[i])
  {
    var name, status := s.names[i], Observed(statuses, i);
    var before := Lookup(components, name);
    var (after, action) := Decide(s.policy, before, status, now);
    var note := Noted(name, now, status, before, after, action);
    var act := Performed(i, name, now, |Recent(before.restarts, now)|);
    DecisionExact(s, w.journal, before, name, status, now);
    DecisionMirrored(s, w.journal, before, name, status, now);
    AllExactSnoc(s, w.journal, note, name);
    AllExactSnoc(s, w.journal + [note], act, name);
    OthersMirrored(s, w.journal + [note], after, act, name);
  }

  lemma OtherStepExact(
    s: Settings, w: World, components: Components, lastTick: real, now: real, statuses: seq<Status>, i: nat, effects: nat, name: string)
    requires |statuses| == |s.names| && i < |s.names| && effects > 0 && s.names[i] != name
    requires AllExact(s, w.journal, name) && Mirrors(s, Lookup(components, name), w.journal, name)
    ensures var q := Step(s, w, components, lastTick, now, statuses, i, effects);
            AllExact(s, q.world.journal, name) && Mirrors(s, Lookup(q.components, name), q.world.journal, name)
  {
    var other, status, c := s.names[i], Observed(statuses, i), Lookup(components, name);
    var before := Lookup(components, other);
    var (after, action) := Decide(s.policy, before, status, now);
    var note := Noted(other, now, status, before, after, action);
    var act := Performed(i, other, now, |Recent(before.restarts, now)|);
    AllExactSnoc(s, w.journal, note, name);
    AllExactSnoc(s, w.journal + [note], act, name);
    OthersMirrored(s, w.journal, c, note, name);
    OthersMirrored(s, w.journal + [note], c, act, name);
  }

  lemma {:induction false} SweepExact(
    s: Settings, w: World, components: Components, lastTick: real, now: real, statuses: seq<Status>, i: nat, effects: nat, name: string)
    requires |statuses| == |s.names| && i <= |s.names|
    requires Reflects(s, w, name) && Mirrors(s, Lookup(components, name), w.journal, name)
    ensures Reflects(s, Sweep(s, w, components, lastTick, now, statuses, i, effects), name)
    decreases |s.names| - i
  {
    if effects > 0 && i < |s.names| {
      var q := Step(s, w, components, lastTick, now, statuses, i, effects);
      if s.names[i] == name {
        OwnStepExact(s, w, components, lastTick, now, statuses, i, effects);
      } else {
        OtherStepExact(s, w, components, lastTick, now, statuses, i, effects, name);
      }
      if q.alive {
        SweepExact(s, q.world, q.components, lastTick, now, statuses, i + 1, q.left, name);
      }
    }
  }

  lemma ResetMirrored(s: Settings, w: World, now: real, name: string)
    requires Reflects(s, w, name) && w.disk.Corrupt?
    ensures Reflects(s, Recovered(s, w, now), name)
    ensures Mirrors(s, Lookup(Rebuilt(s, now).components, name), Recovered(s, w, now).journal, name)
  {
    CopiesIsRepeat(now, s.policy.maxRestartsPerHour);
    JournalMirrored(s, w.journal, Reset(now), name);
    JournalSnoc(s.policy, w.journal, Reset(now), name);
    AllExactSnoc(s, w.journal, Reset(now), name);
  }

  lemma TickExact(s: Settings, w: World, name: string, now: real, statuses: seq<Status>, effects: nat)
    requires Reflects(s, w, name) && |statuses| == |s.names|
    ensures Reflects(s, Ticked(s, w, now, statuses, effects), name)
  {
    match w.disk
    case Missing => SweepExact(s, w, map[], 0.0, now, statuses, 0, effects, name);
    case Corrupt =>
      if effects > 0 {
        ResetMirrored(s, w, now, name);
        SweepExact(s, Recovered(s, w, now), Rebuilt(s, now).components, now, now, statuses, 0, effects - 1, name);
      }
    case Stored(ledger) => SweepExact(s, w, ledger.components, ledger.lastTick, now, statuses, 0, effects, name);
  }

  lemma {:induction false} EveryRunExact(s: Settings, events: seq<Event>, name: string)
    ensures Reflects(s, Run(s, events), name)
  {
    if events != [] {
      var init, e := events[..|events| - 1], events[|events| - 1];
      EveryRunExact(s, init, name);
      match e
      case Tick(now, statuses, effects) =>
        if |statuses| == |s.names| {
          TickExact(s, Run(s, init), name, now, statuses, effects);
        }
      case Damage =>
        JournalMirrored(s, Run(s, init).journal, Lost, name);
        JournalSnoc(s.policy, Run(s, init).journal, Lost, name);
        AllExactSnoc(s, Run(s, init).journal, Lost, name);
    }
  }

  lemma {:induction false} ExactAt(s: Settings, journal: seq<Entry>, name: string, k: nat)
    requires AllExact(s, journal, name) && k < |journal| && journal[k].Recorded? && journal[k].name == name
    ensures Exact(s, journal[..k], journal[k])
  {
    var init := journal[..|journal| - 1];
    if k < |journal| - 1 {
      assert init[..k] == journal[..k];
      ExactAt(s, init, name, k);
    }
  }

  /**
    The decisions, exactly.  In every run, over any clock, with crashes and damage: an open incident is
    resolved by a healthy observation if and only if the observations have been healthy for the
    stability period; a confirmed failure leaves an incident open, and reports it if it was not;
    it is answered by a restart if and only if that can help, the budget has room and the cooldown is
    over; and no other observation changes or does anything.
   */
  lemma DecisionsAreExact(s: Settings, events: seq<Event>, k: nat)
    requires k < |Run(s, events).journal| && Run(s, events).journal[k].Recorded?
    ensures var journal := Run(s, events).journal; Exact(s, journal[..k], journal[k])
  {
    var journal := Run(s, events).journal;
    EveryRunExact(s, events, journal[k].name);
    ExactAt(s, journal, journal[k].name, k);
  }

  // ---------------------------------------------------------------- what a tick records

  /** A backend that is neither healthy nor overloaded hides the tunnels behind it. */
  function Judged(statuses: seq<Status>, i: nat): Status
    requires i < |statuses|
  {
    if i > 0 && statuses[0] !in {Healthy, Overloaded} then DependencyUnavailable else statuses[i]
  }

  /** From component `i` on, each one is decided about in turn, and a restart that is decided is performed next. */
  predicate InTurn(s: Settings, now: real, statuses: seq<Status>, i: nat, entries: seq<Entry>)
    requires |statuses| == |s.names| && i <= |s.names|
    decreases |s.names| - i
  {
    if i == |s.names| then entries == [] else
      && entries != [] && entries[0].Recorded?
      && entries[0].name == s.names[i] && entries[0].at == now && entries[0].status == Judged(statuses, i)
      && if entries[0].action != Restart then InTurn(s, now, statuses, i + 1, entries[1..])
         else
           && |entries| > 1 && entries[1].Performed?
           && entries[1].index == i && entries[1].name == s.names[i] && entries[1].at == now
           && InTurn(s, now, statuses, i + 1, entries[2..])
  }

  function Least(a: nat, b: nat): nat { if a <= b then a else b }

  lemma FirstOf(first: seq<Entry>, rest: seq<Entry>, effects: nat)
    ensures (first + rest)[..Least(effects, |first + rest|)] ==
            if effects >= |first| then first + rest[..Least(effects - |first|, |rest|)] else first[..effects]
  {
  }

  /** What one component adds to the journal when nothing interrupts it. */
  function Entries(s: Settings, components: Components, now: real, statuses: seq<Status>, i: nat): seq<Entry>
    requires |statuses| == |s.names| && i < |s.names|
  {
    var name, status := s.names[i], Observed(statuses, i);
    var before := Lookup(components, name);
    var (after, action) := Decide(s.policy, before, status, now);
    [Noted(name, now, status, before, after, action)] +
    if action == Restart then [Performed(i, name, now, |Recent(before.restarts, now)|)] else []
  }

  lemma StepEntries(
    s: Settings, w: World, components: Components, lastTick: real, now: real, statuses: seq<Status>, i: nat, effects: nat)
    requires |statuses| == |s.names| && i < |s.names| && effects > 0
    ensures var q, first := Step(s, w, components, lastTick, now, statuses, i, effects), Entries(s, components, now, statuses, i);
            && q.world.journal == w.journal + first[..Least(effects, |first|)]
            && (q.alive <==> effects >= |first|) && (q.alive ==> q.left == effects - |first|)
  {
    var first := Entries(s, components, now, statuses, i);
    assert |first| == 2 ==> first[..1] == [first[0]] && w.journal + [first[0]] + [first[1]] == w.journal + first;
    assert first[..|first|] == first;
  }

  lemma InTurnCons(s: Settings, now: real, components: Components, statuses: seq<Status>, i: nat, rest: seq<Entry>)
    requires |statuses| == |s.names| && i < |s.names| && InTurn(s, now, statuses, i + 1, rest)
    ensures InTurn(s, now, statuses, i, Entries(s, components, now, statuses, i) + rest)
  {
    var first := Entries(s, components, now, statuses, i);
    var entries := first + rest;
    assert entries[|first|..] == rest;
  }

  /** The sweep writes these entries in this order, as many of them as it has effects before the crash. */
  lemma {:induction false} SweepRecords(
    s: Settings, w: World, components: Components, lastTick: real, now: real, statuses: seq<Status>, i: nat, effects: nat)
    returns (entries: seq<Entry>)
    requires |statuses| == |s.names| && i <= |s.names|
    ensures InTurn(s, now, statuses, i, entries)
    ensures Sweep(s, w, components, lastTick, now, statuses, i, effects).journal == w.journal + entries[..Least(effects, |entries|)]
    decreases |s.names| - i
  {
    if i == |s.names| {
      entries := [];
      assert w.journal + [] == w.journal;
    } else {
      var first := Entries(s, components, now, statuses, i);
      var enough := if effects >= |first| then effects else |first|;
      var q := Step(s, w, components, lastTick, now, statuses, i, enough);
      StepEntries(s, w, components, lastTick, now, statuses, i, enough);
      var rest := SweepRecords(s, q.world, q.components, lastTick, now, statuses, i + 1, q.left);
      entries := first + rest;
      InTurnCons(s, now, components, statuses, i, rest);
      FirstOf(first, rest, effects);
      if effects < |first| {
        SweepCut(s, w, components, lastTick, now, statuses, i, effects);
      } else {
        SweepOn(s, w, components, lastTick, now, statuses, i, effects, rest[..Least(q.left, |rest|)]);
      }
    }
  }

  /** No crash in this component. */
  lemma SweepOn(
    s: Settings, w: World, components: Components, lastTick: real, now: real, statuses: seq<Status>, i: nat, effects: nat, more: seq<Entry>)
    requires |statuses| == |s.names| && i < |s.names| && effects >= |Entries(s, components, now, statuses, i)|
    requires var q := Step(s, w, components, lastTick, now, statuses, i, effects);
             Sweep(s, q.world, q.components, lastTick, now, statuses, i + 1, q.left).journal == q.world.journal + more
    ensures Sweep(s, w, components, lastTick, now, statuses, i, effects).journal ==
            w.journal + (Entries(s, components, now, statuses, i) + more)
  {
    StepEntries(s, w, components, lastTick, now, statuses, i, effects);
    var first := Entries(s, components, now, statuses, i);
    assert first[..Least(effects, |first|)] == first && w.journal + first + more == w.journal + (first + more);
  }

  /** A crash between the entries of one component. */
  lemma SweepCut(
    s: Settings, w: World, components: Components, lastTick: real, now: real, statuses: seq<Status>, i: nat, effects: nat)
    requires |statuses| == |s.names| && i < |s.names| && effects < |Entries(s, components, now, statuses, i)|
    ensures Sweep(s, w, components, lastTick, now, statuses, i, effects).journal == w.journal + Entries(s, components, now, statuses, i)[..effects]
  {
    if effects > 0 {
      StepEntries(s, w, components, lastTick, now, statuses, i, effects);
    }
  }

  /**
    A tick.  Unless it is refused for its time, it decides about every component in turn, each once and
    on what was observed, records every decision before it acts on it, and performs every restart that
    it decides; a crash cuts this off at some point and leaves what has been written and done by then.
   */
  lemma TickRecords(s: Settings, w: World, now: real, statuses: seq<Status>, effects: nat) returns (entries: seq<Entry>)
    requires |statuses| == |s.names|
    ensures InTurn(s, now, statuses, 0, entries)
    ensures var after := Ticked(s, w, now, statuses, effects).journal;
            match w.disk
            case Missing => after == w.journal + entries[..Least(effects, |entries|)]
            case Corrupt =>
              after == if effects == 0 then w.journal else w.journal + [Reset(now)] + entries[..Least(effects - 1, |entries|)]
            case Stored(ledger) =>
              after == if ledger.lastTick > now + 5.0 then w.journal else w.journal + entries[..Least(effects, |entries|)]
  {
    match w.disk
    case Missing => entries := SweepRecords(s, w, map[], 0.0, now, statuses, 0, effects);
    case Corrupt =>
      var left := if effects > 0 then effects - 1 else 0;
      entries := SweepRecords(s, Recovered(s, w, now), Rebuilt(s, now).components, now, now, statuses, 0, left);
    case Stored(ledger) => entries := SweepRecords(s, w, ledger.components, ledger.lastTick, now, statuses, 0, effects);
  }
}
