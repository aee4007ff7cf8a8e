/**
  The recovery controller: a restart budget over a sliding hour, exponential cooldown, confirmed
  failures and incidents, kept in a ledger that survives crashes and detected corruption.

  A tick loads the ledger, and for every component decides, persists and only then acts.  A crash
  may strike after any number of those effects.  The journal records what was really persisted and
  really performed.
 */
module Recovery {
  import opened Wrappers

  datatype Status =
    | Healthy | Overloaded | Starting | DependencyUnavailable
    | BackendUnavailable | TunnelUnavailable | TunnelStale | MetricsUnavailable
    | OtherFailure(code: string)

  predicate Restartable(s: Status) { s.BackendUnavailable? || s.TunnelUnavailable? || s.TunnelStale? || s.MetricsUnavailable? }

  predicate Failing(s: Status) { !s.Healthy? && !s.Overloaded? && !s.Starting? && !s.DependencyUnavailable? }

  datatype Phase = HealthyPhase | Verifying | Degraded | Suspect | RequiresAttention | CircuitOpen | Cooling | Recovering

  datatype Action = NoAction | Resolved | Incident | Restart

  datatype Policy = Policy(confirmations: int, stableSeconds: real, cooldownSeconds: real, maxRestartsPerHour: int)

  /** One component of the ledger; `phase` is absent until the first decision. */
  datatype Component = Component(
    restarts: seq<real>, failureStreak: int, healthySince: Option<real>, incidentOpen: bool, phase: Option<Phase>)

  const HOUR: real := 3600.0

  const BLANK := Component([], 0, None, false, None)

  /** The stamps of the last hour; stamps in the future are dropped too. */
  function Recent(stamps: seq<real>, now: real): seq<real> {
    if stamps == [] then [] else
      var init := Recent(stamps[..|stamps| - 1], now);
      var last := stamps[|stamps| - 1];
      if 0.0 <= now - last < HOUR then init + [last] else init
  }

  function Pow2(n: nat): nat { if n == 0 then 1 else 2 * Pow2(n - 1) }

  function Cooldown(p: Policy, retained: nat): (c: real)
    ensures c <= 900.0
  {
    var c := p.cooldownSeconds * (Pow2(if retained > 0 then retained - 1 else 0) as real);
    if c < 900.0 then c else 900.0
  }

  /** The decision for one observation. */
  function Decide(p: Policy, previous: Component, status: Status, now: real): (Component, Action) {
    var restarts := Recent(previous.restarts, now);
    var base := previous.(restarts := restarts);
    if status.Healthy? then
      var since := if previous.healthySince.Some? then previous.healthySince.value else now;
      var calm := base.(failureStreak := 0, healthySince := Some(since));
      if now - since >= p.stableSeconds then
        (calm.(phase := Some(HealthyPhase), incidentOpen := false), if previous.incidentOpen then Resolved else NoAction)
      else (calm.(phase := Some(Verifying)), NoAction)
    else if !Failing(status) then
      (base.(healthySince := None, phase := Some(Degraded), failureStreak := 0), NoAction)
    else
      var streak := previous.failureStreak + 1;
      var suspect := base.(healthySince := None, failureStreak := streak, phase := Some(Suspect));
      if streak < p.confirmations then (suspect, NoAction) else
        var open := suspect.(incidentOpen := true);
        var report := if previous.incidentOpen then NoAction else Incident;
        if !Restartable(status) then (open.(phase := Some(RequiresAttention)), report)
        else if |restarts| >= p.maxRestartsPerHour then (open.(phase := Some(CircuitOpen)), report)
        else if restarts != [] && now - restarts[|restarts| - 1] < Cooldown(p, |restarts|) then (open.(phase := Some(Cooling)), report)
        else (open.(restarts := restarts + [now], failureStreak := 0, phase := Some(Recovering)), Restart)
  }

  // ---------------------------------------------------------------- the ledger and one tick

  type Components = map<string, Component>

  datatype Ledger = Ledger(components: Components, lastTick: real)

  datatype Disk = Missing | Corrupt | Stored(ledger: Ledger)

  /** Component names, the backend first; they do not change during a run. */
  datatype Settings = Settings(names: seq<string>, policy: Policy)

  /** What happened: a ledger was damaged or replaced, a decision was persisted, or a restart was performed. */
  datatype Entry =
    | Lost
    | Reset(at: real)
    | Recorded(name: string, at: real, status: Status, action: Action, openBefore: bool, openAfter: bool)
    | Performed(index: nat, name: string, at: real, retained: nat)

  datatype World = World(disk: Disk, journal: seq<Entry>)

  function Lookup(components: Components, name: string): Component {
    if name in components then components[name] else BLANK
  }

  function Repeat(x: real, n: int): seq<real> {
    if n <= 0 then [] else Repeat(x, n - 1) + [x]
  }

  /** The conservative ledger that replaces a damaged one: every budget is spent. */
  function Rebuilt(s: Settings, now: real): Ledger {
    Ledger(map name | name in s.names :: BLANK.(restarts := Repeat(now, s.policy.maxRestartsPerHour)), now)
  }

  /** The damaged ledger has been replaced. */
  function Recovered(s: Settings, w: World, now: real): World {
    World(Stored(Rebuilt(s, now)), w.journal + [Reset(now)])
  }

  /** A failing backend suppresses the tunnels that depend on it. */
  function Observed(statuses: seq<Status>, i: nat): Status
    requires i < |statuses|
  {
    if i > 0 && !statuses[0].Healthy? && !statuses[0].Overloaded? then DependencyUnavailable else statuses[i]
  }

  function Noted(name: string, now: real, status: Status, before: Component, after: Component, action: Action): Entry {
    Recorded(name, now, status, action, before.incidentOpen, after.incidentOpen)
  }

  /** A tick in progress; it is dead once the process has crashed. */
  datatype Progress = Progress(world: World, components: Components, left: nat, alive: bool)

  /** One component: decide, persist, act. */
  function Step(s: Settings, w: World, components: Components, lastTick: real, now: real, statuses: seq<Status>, i: nat, effects: nat): Progress
    requires |statuses| == |s.names| && i < |s.names| && effects > 0
  {
    var name, status := s.names[i], Observed(statuses, i);
    var before := Lookup(components, name);
    var (after, action) := Decide(s.policy, before, status, now);
    var next := components[name := after];
    var persisted := World(Stored(Ledger(next, lastTick)), w.journal + [Noted(name, now, status, before, after, action)]);
    if action != Restart then Progress(persisted, next, effects - 1, true)
    else if effects == 1 then Progress(persisted, next, 0, false)
    else
      var act := Performed(i, name, now, |Recent(before.restarts, now)|);
      Progress(persisted.(journal := persisted.journal + [act]), next, effects - 2, true)
  }

  /** The components from index `i` on; `effects` more writes or restarts complete before the crash. */
  function Sweep(s: Settings, w: World, components: Components, lastTick: real, now: real, statuses: seq<Status>, i: nat, effects: nat): World
    requires |statuses| == |s.names| && i <= |s.names|
    decreases |s.names| - i
  {
    if effects == 0 then w
    else if i == |s.names| then w.(disk := Stored(Ledger(components, now)))
    else
      var q := Step(s, w, components, lastTick, now, statuses, i, effects);
      if !q.alive then q.world else Sweep(s, q.world, q.components, lastTick, now, statuses, i + 1, q.left)
  }

  function Ticked(s: Settings, w: World, now: real, statuses: seq<Status>, effects: nat): World
    requires |statuses| == |s.names|
  {
    match w.disk
    case Missing => Sweep(s, w, map[], 0.0, now, statuses, 0, effects)
    case Corrupt =>
      if effects == 0 then w else
        Sweep(s, Recovered(s, w, now), Rebuilt(s, now).components, now, now, statuses, 0, effects - 1)
    case Stored(ledger) =>
      if ledger.lastTick > now + 5.0 then w else
        Sweep(s, w, ledger.components, ledger.lastTick, now, statuses, 0, effects)
  }

  datatype Event =
    | Tick(now: real, statuses: seq<Status>, effects: nat)
    | Damage

  function Next(s: Settings, w: World, e: Event): World {
    match e
    case Tick(now, statuses, effects) => if |statuses| == |s.names| then Ticked(s, w, now, statuses, effects) else w
    case Damage => if w.disk.Missing? then w else World(Corrupt, w.journal + [Lost])
  }

  function Run(s: Settings, events: seq<Event>): World {
    if events == [] then World(Missing, []) else Next(s, Run(s, events[..|events| - 1]), events[|events| - 1])
  }

  /** The clock of a run: the time of its last tick, or `start`. */
  function Clock(events: seq<Event>, start: real): real {
    if events == [] then start
    else if events[|events| - 1].Tick? then events[|events| - 1].now
    else Clock(events[..|events| - 1], start)
  }

  predicate ClockNeverStepsBack(events: seq<Event>, start: real) {
    events == [] ||
    (ClockNeverStepsBack(events[..|events| - 1], start) &&
     (events[|events| - 1].Tick? ==> Clock(events[..|events| - 1], start) <= events[|events| - 1].now))
  }

  // ---------------------------------------------------------------- reading the journal

  /** When restarts of one component were performed. */
  function Times(journal: seq<Entry>, name: string): seq<real> {
    if journal == [] then [] else
      var e := journal[|journal| - 1];
      var init := Times(journal[..|journal| - 1], name);
      if e.Performed? && e.name == name then init + [e.at] else init
  }

  /** Consecutive failing observations of one component at the end of the journal, since its last reset. */
  function Streak(journal: seq<Entry>, name: string): nat {
    if journal == [] then 0 else
      var e := journal[|journal| - 1];
      if e.Recorded? && e.name == name then
        if Failing(e.status) && e.action != Restart then 1 + Streak(journal[..|journal| - 1], name) else 0
      else Streak(journal[..|journal| - 1], name)
  }

  /** Since when every persisted observation of the component is healthy, a lost ledger forgetting it. */
  function CalmSince(journal: seq<Entry>, name: string): Option<real> {
    if journal == [] then None else
      var e := journal[|journal| - 1];
      if e.Lost? then None
      else if e.Recorded? && e.name == name then
        if !e.status.Healthy? then None else
          var since := CalmSince(journal[..|journal| - 1], name);
          if since.Some? then since else Some(e.at)
      else CalmSince(journal[..|journal| - 1], name)
  }

  /** Whether an incident of the component is open, a lost ledger closing it silently. */
  function IncidentOpen(journal: seq<Entry>, name: string): bool {
    if journal == [] then false else
      var e := journal[|journal| - 1];
      if e.Lost? then false
      else if e.Recorded? && e.name == name then e.openAfter
      else IncidentOpen(journal[..|journal| - 1], name)
  }

  // ---------------------------------------------------------------- sliding windows

  predicate AtMost(stamps: seq<real>, limit: real) { forall i | 0 <= i < |stamps| :: stamps[i] <= limit }

  predicate Ascending(stamps: seq<real>) { forall i, j | 0 <= i < j < |stamps| :: stamps[i] <= stamps[j] }

  function Last(stamps: seq<real>): real
    requires stamps != []
  {
    stamps[|stamps| - 1]
  }

  lemma RecentSnoc(stamps: seq<real>, x: real, now: real)
    ensures Recent(stamps + [x], now) == if 0.0 <= now - x < HOUR then Recent(stamps, now) + [x] else Recent(stamps, now)
  {
    assert (stamps + [x])[..|stamps|] == stamps;
  }

  lemma {:induction false} RecentKeepsOrder(stamps: seq<real>, now: real, limit: real)
    requires Ascending(stamps) && AtMost(stamps, limit)
    ensures Ascending(Recent(stamps, now)) && AtMost(Recent(stamps, now), limit)
  {
    if stamps != [] {
      var init := stamps[..|stamps| - 1];
      RecentKeepsOrder(init, now, limit);
      RecentKeepsOrder(init, now, Last(stamps));
    }
  }

  lemma {:induction false} RecentTwice(stamps: seq<real>, now: real, later: real)
    requires AtMost(stamps, now) && now <= later
    ensures Recent(Recent(stamps, now), later) == Recent(stamps, later)
  {
    if stamps != [] {
      var init := stamps[..|stamps| - 1];
      RecentTwice(init, now, later);
      RecentSnoc(Recent(init, now), Last(stamps), later);
    }
  }

  lemma {:induction false} RecentShrinks(stamps: seq<real>, now: real, later: real)
    requires AtMost(stamps, now) && now <= later
    ensures |Recent(stamps, later)| <= |Recent(stamps, now)|
    ensures later - now >= HOUR ==> Recent(stamps, later) == []
  {
    if stamps != [] {
      RecentShrinks(stamps[..|stamps| - 1], now, later);
    }
  }

  lemma {:induction false} RepeatShape(x: real, n: int)
    ensures |Repeat(x, n)| == (if n > 0 then n else 0)
    ensures forall i | 0 <= i < |Repeat(x, n)| :: Repeat(x, n)[i] == x
    decreases if n > 0 then n else 0
  {
    if n > 0 {
      RepeatShape(x, n - 1);
    }
  }

  lemma {:induction false} RepeatRecent(x: real, n: int, later: real)
    requires x <= later
    ensures Recent(Repeat(x, n), later) == if later - x < HOUR then Repeat(x, n) else []
    decreases if n > 0 then n else 0
  {
    if n > 0 {
      RepeatRecent(x, n - 1, later);
      RecentSnoc(Repeat(x, n - 1), x, later);
    }
  }

  // ---------------------------------------------------------------- the invariant

  function Budget(p: Policy): nat { if p.maxRestartsPerHour > 0 then p.maxRestartsPerHour else 0 }

  /** No hour contains more restarts than the budget. */
  ghost predicate WithinBudget(p: Policy, times: seq<real>) {
    forall end: real :: |Recent(times, end)| <= Budget(p)
  }

  /** Each restart keeps its distance from the one before; the more restarts are retained, the larger. */
  predicate Spaced(p: Policy, before: seq<real>, at: real, retained: nat) {
    before != [] ==> at - Last(before) >= if retained == 0 then HOUR else Cooldown(p, retained)
  }

  /** Every restart of the component keeps its distance. */
  predicate Paced(p: Policy, journal: seq<Entry>, name: string) {
    journal == [] ||
    (var init, e := journal[..|journal| - 1], journal[|journal| - 1];
     Paced(p, init, name) && (e.Performed? && e.name == name ==> Spaced(p, Times(init, name), e.at, e.retained)))
  }

  /** Every persisted decision about the component has its reasons. */
  predicate Reasoned(p: Policy, journal: seq<Entry>, name: string) {
    journal == [] ||
    (var init, e := journal[..|journal| - 1], journal[|journal| - 1];
     Reasoned(p, init, name) && (e.Recorded? && e.name == name ==> WellFounded(p, init, e)))
  }

  /** A persisted decision has its reasons in the observations before it. */
  predicate WellFounded(p: Policy, before: seq<Entry>, e: Entry)
    requires e.Recorded?
  {
    && e.openBefore == IncidentOpen(before, e.name)
    && (e.action == Restart ==> Restartable(e.status))
    && (e.action == Restart || (!e.openBefore && e.openAfter) ==> Failing(e.status) && Streak(before, e.name) + 1 >= p.confirmations)
    && (e.openBefore && !e.openAfter ==>
          && e.status.Healthy?
          && var since := CalmSince(before, e.name); e.at - (if since.Some? then since.value else e.at) >= p.stableSeconds)
  }

  /** The ledger covers what was performed: it never remembers less than it did. */
  ghost predicate Covers(c: Component, times: seq<real>, clock: real) {
    && AtMost(c.restarts, clock) && Ascending(c.restarts)
    && (forall later: real | clock <= later :: |Recent(times, later)| <= |Recent(c.restarts, later)|)
    && (times != [] && clock - Last(times) < HOUR ==> c.restarts != [] && Last(times) <= Last(c.restarts))
  }

  ghost predicate History(s: Settings, journal: seq<Entry>, name: string, clock: real) {
    && AtMost(Times(journal, name), clock) && Ascending(Times(journal, name))
    && WithinBudget(s.policy, Times(journal, name)) && Paced(s.policy, journal, name)
  }

  ghost predicate Safe(s: Settings, w: World, name: string, clock: real) {
    && History(s, w.journal, name, clock)
    && match w.disk
       case Missing => w.journal == []
       case Corrupt => true
       case Stored(ledger) => Covers(Lookup(ledger.components, name), Times(w.journal, name), clock)
  }

  /** The ledger agrees with the journal on failures, incidents and recoveries. */
  predicate Agrees(c: Component, journal: seq<Entry>, name: string) {
    && c.failureStreak <= Streak(journal, name)
    && c.incidentOpen == IncidentOpen(journal, name)
    && c.healthySince == CalmSince(journal, name)
  }

  predicate Justified(p: Policy, w: World, name: string) {
    && Reasoned(p, w.journal, name)
    && match w.disk
       case Missing => w.journal == []
       case Corrupt => !IncidentOpen(w.journal, name) && CalmSince(w.journal, name).None?
       case Stored(ledger) => Agrees(Lookup(ledger.components, name), w.journal, name)
  }

  lemma JournalSnoc(p: Policy, journal: seq<Entry>, e: Entry, name: string)
    ensures var after := journal + [e];
            && Times(after, name) == (if e.Performed? && e.name == name then Times(journal, name) + [e.at] else Times(journal, name))
            && Streak(after, name) == (if e.Recorded? && e.name == name then
                                         if Failing(e.status) && e.action != Restart then 1 + Streak(journal, name) else 0
                                       else Streak(journal, name))
            && IncidentOpen(after, name) == (if e.Lost? then false else if e.Recorded? && e.name == name then e.openAfter
                                             else IncidentOpen(journal, name))
            && Paced(p, after, name) ==
               (Paced(p, journal, name) && (e.Performed? && e.name == name ==> Spaced(p, Times(journal, name), e.at, e.retained)))
            && Reasoned(p, after, name) ==
               (Reasoned(p, journal, name) && (e.Recorded? && e.name == name ==> WellFounded(p, journal, e)))
            && CalmSince(after, name) == (if e.Lost? then None else if e.Recorded? && e.name == name then
                                            if !e.status.Healthy? then None
                                            else if CalmSince(journal, name).Some? then CalmSince(journal, name) else Some(e.at)
                                          else CalmSince(journal, name))
  {
    assert (journal + [e])[..|journal|] == journal;
  }

  /** Dropping the stamps older than an hour loses nothing. */
  lemma PruningCovers(c: Component, times: seq<real>, now: real)
    requires Covers(c, times, now)
    ensures Covers(c.(restarts := Recent(c.restarts, now)), times, now)
  {
    var kept := Recent(c.restarts, now);
    RecentKeepsOrder(c.restarts, now, now);
    forall later: real | now <= later
      ensures |Recent(times, later)| <= |Recent(kept, later)|
    {
      RecentTwice(c.restarts, now, later);
    }
    assert c.restarts != [] && 0.0 <= now - Last(c.restarts) < HOUR ==> kept != [] && Last(kept) == Last(c.restarts);
  }

  lemma StampingCovers(c: Component, times: seq<real>, now: real)
    requires Covers(c, times, now) && AtMost(times, now)
    ensures Covers(c.(restarts := c.restarts + [now]), times, now)
  {
    forall later: real | now <= later
      ensures |Recent(times, later)| <= |Recent(c.restarts + [now], later)|
    {
      RecentSnoc(c.restarts, now, later);
    }
  }

  lemma CoversFrame(c: Component, other: Component, times: seq<real>, now: real)
    requires Covers(c, times, now) && other.restarts == c.restarts
    ensures Covers(other, times, now)
  {
  }

  /** Recording a decision keeps the ledger faithful; a restart is covered before it is performed. */
  lemma DecisionCovers(p: Policy, c: Component, times: seq<real>, status: Status, now: real)
    requires Covers(c, times, now) && AtMost(times, now)
    ensures Covers(Decide(p, c, status, now).0, times, now)
  {
    var after := Decide(p, c, status, now).0;
    var pruned := c.(restarts := Recent(c.restarts, now));
    PruningCovers(c, times, now);
    if Decide(p, c, status, now).1 == Restart {
      StampingCovers(pruned, times, now);
      CoversFrame(pruned.(restarts := pruned.restarts + [now]), after, times, now);
    } else {
      CoversFrame(pruned, after, times, now);
    }
  }

  lemma RestartSpaced(p: Policy, c: Component, times: seq<real>, status: Status, now: real)
    requires Covers(c, times, now) && Decide(p, c, status, now).1 == Restart
    ensures Spaced(p, times, now, |Recent(c.restarts, now)|)
  {
    var kept := Recent(c.restarts, now);
    assert c.restarts != [] && 0.0 <= now - Last(c.restarts) < HOUR ==> kept != [] && Last(kept) == Last(c.restarts);
  }

  lemma RestartWithinBudget(p: Policy, c: Component, times: seq<real>, status: Status, now: real)
    requires Covers(c, times, now) && AtMost(times, now) && WithinBudget(p, times)
    requires Decide(p, c, status, now).1 == Restart
    ensures WithinBudget(p, times + [now])
  {
    assert |Recent(times, now)| <= |Recent(c.restarts, now)| < p.maxRestartsPerHour;
    forall end: real
      ensures |Recent(times + [now], end)| <= Budget(p)
    {
      RecentSnoc(times, now, end);
      if now <= end {
        RecentShrinks(times, now, end);
      }
    }
  }

  /** The stamp persisted before the restart covers the restart. */
  lemma RestartCovered(p: Policy, c: Component, times: seq<real>, status: Status, now: real)
    requires Covers(c, times, now) && AtMost(times, now)
    requires Decide(p, c, status, now).1 == Restart
    ensures Covers(Decide(p, c, status, now).0, times + [now], now)
  {
    var after := Decide(p, c, status, now).0;
    var kept := Recent(c.restarts, now);
    assert after.restarts == kept + [now];
    RecentKeepsOrder(c.restarts, now, now);
    forall later: real | now <= later
      ensures |Recent(times + [now], later)| <= |Recent(after.restarts, later)|
    {
      RecentSnoc(times, now, later);
      RecentTwice(c.restarts, now, later);
      RecentSnoc(kept, now, later);
    }
  }

  // ---------------------------------------------------------------- one tick

  /** Advancing the clock keeps every promise. */
  lemma LaterStillSafe(s: Settings, w: World, name: string, clock: real, now: real)
    requires Safe(s, w, name, clock) && clock <= now
    ensures Safe(s, w, name, now)
  {
  }

  lemma RecordOwn(s: Settings, journal: seq<Entry>, c: Component, name: string, status: Status, now: real)
    requires History(s, journal, name, now) && Covers(c, Times(journal, name), now)
    ensures var (after, action) := Decide(s.policy, c, status, now);
            var next := journal + [Noted(name, now, status, c, after, action)];
            Times(next, name) == Times(journal, name) && History(s, next, name, now) && Covers(after, Times(next, name), now)
  {
    var (after, action) := Decide(s.policy, c, status, now);
    JournalSnoc(s.policy, journal, Noted(name, now, status, c, after, action), name);
    DecisionCovers(s.policy, c, Times(journal, name), status, now);
  }

  /** Performing one restart, its decision being persisted. */
  lemma PerformHistory(s: Settings, journal: seq<Entry>, before: Component, name: string, status: Status, e: Entry)
    requires e.Performed? && e.name == name && e.retained == |Recent(before.restarts, e.at)|
    requires History(s, journal, name, e.at) && Covers(before, Times(journal, name), e.at)
    requires Decide(s.policy, before, status, e.at).1 == Restart
    ensures History(s, journal + [e], name, e.at)
  {
    JournalSnoc(s.policy, journal, e, name);
    RestartSpaced(s.policy, before, Times(journal, name), status, e.at);
    RestartWithinBudget(s.policy, before, Times(journal, name), status, e.at);
  }

  lemma PerformKeeps(s: Settings, journal: seq<Entry>, before: Component, name: string, status: Status, now: real, index: nat)
    requires History(s, journal, name, now) && Covers(before, Times(journal, name), now)
    requires Decide(s.policy, before, status, now).1 == Restart
    ensures var next := journal + [Performed(index, name, now, |Recent(before.restarts, now)|)];
            History(s, next, name, now) && Covers(Decide(s.policy, before, status, now).0, Times(next, name), now)
  {
    var e := Performed(index, name, now, |Recent(before.restarts, now)|);
    JournalSnoc(s.policy, journal, e, name);
    PerformHistory(s, journal, before, name, status, e);
    RestartCovered(s.policy, before, Times(journal, name), status, now);
  }

  lemma OthersKeep(s: Settings, journal: seq<Entry>, c: Component, e: Entry, name: string, now: real)
    requires History(s, journal, name, now) && Covers(c, Times(journal, name), now)
    requires e.Performed? ==> e.name != name
    ensures History(s, journal + [e], name, now) && Covers(c, Times(journal + [e], name), now)
  {
    JournalSnoc(s.policy, journal, e, name);
  }

  lemma StepSafe(
    s: Settings, w: World, components: Components, lastTick: real, now: real, statuses: seq<Status>, i: nat, effects: nat, name: string)
    requires |statuses| == |s.names| && i < |s.names| && effects > 0
    requires History(s, w.journal, name, now) && Covers(Lookup(components, name), Times(w.journal, name), now)
    ensures var q := Step(s, w, components, lastTick, now, statuses, i, effects);
            && q.world.disk == Stored(Ledger(q.components, lastTick))
            && History(s, q.world.journal, name, now) && Covers(Lookup(q.components, name), Times(q.world.journal, name), now)
  {
    var other, status := s.names[i], Observed(statuses, i);
    var before := Lookup(components, other);
    var (after, action) := Decide(s.policy, before, status, now);
    var note := Noted(other, now, status, before, after, action);
    var act := Performed(i, other, now, |Recent(before.restarts, now)|);
    if other == name {
      RecordOwn(s, w.journal, before, name, status, now);
      if action == Restart && effects > 1 {
        PerformKeeps(s, w.journal + [note], before, name, status, now, i);
      }
    } else {
      OthersKeep(s, w.journal, Lookup(components, name), note, name, now);
      OthersKeep(s, w.journal + [note], Lookup(components, name), act, name, now);
    }
  }

  /** A crash after any number of effects leaves a safe world. */
  lemma {:induction false} SweepSafe(
    s: Settings, w: World, components: Components, lastTick: real, now: real, statuses: seq<Status>, i: nat, effects: nat, name: string)
    requires |statuses| == |s.names| && i <= |s.names|
    requires Safe(s, w, name, now) && Covers(Lookup(components, name), Times(w.journal, name), now)
    ensures Safe(s, Sweep(s, w, components, lastTick, now, statuses, i, effects), name, now)
    decreases |s.names| - i
  {
    if effects > 0 && i < |s.names| {
      var q := Step(s, w, components, lastTick, now, statuses, i, effects);
      StepSafe(s, w, components, lastTick, now, statuses, i, effects, name);
      if q.alive {
        SweepSafe(s, q.world, q.components, lastTick, now, statuses, i + 1, q.left, name);
      }
    }
  }

  /** The conservative ledger covers everything performed so far. */
  lemma RebuiltCovers(s: Settings, times: seq<real>, now: real)
    requires AtMost(times, now) && Ascending(times) && WithinBudget(s.policy, times)
    ensures Covers(BLANK.(restarts := Repeat(now, s.policy.maxRestartsPerHour)), times, now)
  {
    var n := s.policy.maxRestartsPerHour;
    RepeatShape(now, n);
    forall later: real | now <= later
      ensures |Recent(times, later)| <= |Recent(Repeat(now, n), later)|
    {
      RepeatRecent(now, n, later);
      RecentShrinks(times, now, later);
    }
    if times != [] {
      assert |Recent(times, Last(times))| <= Budget(s.policy);
    }
  }

  lemma TickSafe(s: Settings, w: World, name: string, now: real, statuses: seq<Status>, effects: nat)
    requires Safe(s, w, name, now) && name in s.names && |statuses| == |s.names|
    ensures Safe(s, Ticked(s, w, now, statuses, effects), name, now)
  {
    match w.disk
    case Missing =>
      SweepSafe(s, w, map[], 0.0, now, statuses, 0, effects, name);
    case Corrupt =>
      RebuiltCovers(s, Times(w.journal, name), now);
      if effects > 0 {
        OthersKeep(s, w.journal, Lookup(Rebuilt(s, now).components, name), Reset(now), name, now);
        SweepSafe(s, Recovered(s, w, now), Rebuilt(s, now).components, now, now, statuses, 0, effects - 1, name);
      }
    case Stored(ledger) =>
      SweepSafe(s, w, ledger.components, ledger.lastTick, now, statuses, 0, effects, name);
  }

  /** Every run whose clock does not step back is safe for every component. */
  lemma {:induction false} EveryRunSafe(s: Settings, events: seq<Event>, name: string, start: real)
    requires name in s.names && ClockNeverStepsBack(events, start)
    ensures Safe(s, Run(s, events), name, Clock(events, start))
  {
    if events != [] {
      var init, e := events[..|events| - 1], events[|events| - 1];
      var w := Run(s, init);
      EveryRunSafe(s, init, name, start);
      match e
      case Tick(now, statuses, effects) =>
        LaterStillSafe(s, w, name, Clock(init, start), now);
        if |statuses| == |s.names| {
          TickSafe(s, w, name, now, statuses, effects);
        }
      case Damage =>
        JournalSnoc(s.policy, w.journal, Lost, name);
    }
  }

  // ---------------------------------------------------------------- main results

  /** Restarts of a component within the hour that starts at `from`. */
  function InHour(times: seq<real>, from: real): nat {
    if times == [] then 0 else
      InHour(times[..|times| - 1], from) + if from <= Last(times) < from + HOUR then 1 else 0
  }

  // ---------------------------------------------------------------- the reasons of a decision, under any clock

  /** The decision has its reasons, and the ledger goes on agreeing with the journal. */
  lemma DecisionReasons(p: Policy, journal: seq<Entry>, c: Component, name: string, status: Status, now: real)
    requires Agrees(c, journal, name)
    ensures var (after, action) := Decide(p, c, status, now);
            var note := Noted(name, now, status, c, after, action);
            WellFounded(p, journal, note) && Agrees(after, journal + [note], name)
  {
    var (after, action) := Decide(p, c, status, now);
    JournalSnoc(p, journal, Noted(name, now, status, c, after, action), name);
  }

  lemma OthersAgree(p: Policy, journal: seq<Entry>, c: Component, e: Entry, name: string)
    requires Reasoned(p, journal, name) && Agrees(c, journal, name) && !e.Lost? && (e.Recorded? ==> e.name != name)
    ensures Reasoned(p, journal + [e], name) && Agrees(c, journal + [e], name)
  {
    JournalSnoc(p, journal, e, name);
  }

  lemma StepReasoned(
    s: Settings, w: World, components: Components, lastTick: real, now: real, statuses: seq<Status>, i: nat, effects: nat, name: string)
    requires |statuses| == |s.names| && i < |s.names| && effects > 0
    requires Reasoned(s.policy, w.journal, name) && Agrees(Lookup(components, name), w.journal, name)
    ensures var q := Step(s, w, components, lastTick, now, statuses, i, effects);
            && q.world.disk == Stored(Ledger(q.components, lastTick))
            && Reasoned(s.policy, q.world.journal, name) && Agrees(Lookup(q.components, name), q.world.journal, name)
  {
    var other, status := s.names[i], Observed(statuses, i);
    var before := Lookup(components, other);
    var (after, action) := Decide(s.policy, before, status, now);
    var note := Noted(other, now, status, before, after, action);
    var act := Performed(i, other, now, |Recent(before.restarts, now)|);
    if other == name {
      DecisionReasons(s.policy, w.journal, before, name, status, now);
      JournalSnoc(s.policy, w.journal, note, name);
      OthersAgree(s.policy, w.journal + [note], after, act, name);
    } else {
      OthersAgree(s.policy, w.journal, Lookup(components, name), note, name);
      OthersAgree(s.policy, w.journal + [note], Lookup(components, name), act, name);
    }
  }

  lemma {:induction false} SweepReasoned(
    s: Settings, w: World, components: Components, lastTick: real, now: real, statuses: seq<Status>, i: nat, effects: nat, name: string)
    requires |statuses| == |s.names| && i <= |s.names|
    requires Justified(s.policy, w, name) && Agrees(Lookup(components, name), w.journal, name)
    ensures Justified(s.policy, Sweep(s, w, components, lastTick, now, statuses, i, effects), name)
    decreases |s.names| - i
  {
    if effects > 0 && i < |s.names| {
      var q := Step(s, w, components, lastTick, now, statuses, i, effects);
      StepReasoned(s, w, components, lastTick, now, statuses, i, effects, name);
      if q.alive {
        SweepReasoned(s, q.world, q.components, lastTick, now, statuses, i + 1, q.left, name);
      }
    }
  }

  lemma ResetReasoned(s: Settings, w: World, now: real, name: string)
    requires Justified(s.policy, w, name) && w.disk.Corrupt?
    ensures Justified(s.policy, Recovered(s, w, now), name)
    ensures Agrees(Lookup(Rebuilt(s, now).components, name), Recovered(s, w, now).journal, name)
  {
    JournalSnoc(s.policy, w.journal, Reset(now), name);
  }

  lemma TickReasoned(s: Settings, w: World, name: string, now: real, statuses: seq<Status>, effects: nat)
    requires Justified(s.policy, w, name) && |statuses| == |s.names|
    ensures Justified(s.policy, Ticked(s, w, now, statuses, effects), name)
  {
    match w.disk
    case Missing =>
      SweepReasoned(s, w, map[], 0.0, now, statuses, 0, effects, name);
    case Corrupt =>
      if effects > 0 {
        var recovered, components := Recovered(s, w, now), Rebuilt(s, now).components;
        ResetReasoned(s, w, now, name);
        SweepReasoned(s, recovered, components, now, now, statuses, 0, effects - 1, name);
      }
    case Stored(ledger) =>
      SweepReasoned(s, w, ledger.components, ledger.lastTick, now, statuses, 0, effects, name);
  }

  /** In every run, over any clock, every persisted decision about any component has its reasons. */
  lemma {:induction false} EveryRunJustified(s: Settings, events: seq<Event>, name: string)
    ensures Justified(s.policy, Run(s, events), name)
  {
    if events != [] {
      var init, e := events[..|events| - 1], events[|events| - 1];
      EveryRunJustified(s, init, name);
      match e
      case Tick(now, statuses, effects) =>
        if |statuses| == |s.names| {
          TickReasoned(s, Run(s, init), name, now, statuses, effects);
        }
      case Damage =>
        JournalSnoc(s.policy, Run(s, init).journal, Lost, name);
    }
  }

  lemma {:induction false} PacedAt(p: Policy, journal: seq<Entry>, name: string, k: nat)
    requires Paced(p, journal, name) && k < |journal| && journal[k].Performed? && journal[k].name == name
    ensures Spaced(p, Times(journal[..k], name), journal[k].at, journal[k].retained)
  {
    var init := journal[..|journal| - 1];
    if k < |journal| - 1 {
      assert init[..k] == journal[..k];
      PacedAt(p, init, name, k);
    }
  }

  lemma {:induction false} ReasonedAt(p: Policy, journal: seq<Entry>, name: string, k: nat)
    requires Reasoned(p, journal, name) && k < |journal| && journal[k].Recorded? && journal[k].name == name
    ensures WellFounded(p, journal[..k], journal[k])
  {
    var init := journal[..|journal| - 1];
    if k < |journal| - 1 {
      assert init[..k] == journal[..k];
      ReasonedAt(p, init, name, k);
    }
  }

  /**
    Recovery decisions, for every entry of the journal of every run over any clock: restarts and
    incident openings rest on enough consecutive failing observations; an incident is resolved only
    by healthy observations that span the stability period, and openings and resolutions alternate
    except where a lost ledger closed the incident.
   */
  lemma DecisionsHaveReasons(s: Settings, events: seq<Event>, k: nat)
    requires k < |Run(s, events).journal| && Run(s, events).journal[k].Recorded?
    ensures var journal := Run(s, events).journal; WellFounded(s.policy, journal[..k], journal[k])
  {
    var journal := Run(s, events).journal;
    EveryRunJustified(s, events, journal[k].name);
    ReasonedAt(s.policy, journal, journal[k].name, k);
  }

  /**
    Recovery timing: so it is with every decision, and over a clock that does not step back the
    restarts of a component keep the exponential cooldown that belongs to the number of retained stamps.
   */
  lemma RecoveryTiming(s: Settings, events: seq<Event>, name: string, start: real, k: nat)
    requires k < |Run(s, events).journal|
    ensures var journal := Run(s, events).journal;
            var e := journal[k];
            && (e.Recorded? ==> WellFounded(s.policy, journal[..k], e))
            && (name in s.names && ClockNeverStepsBack(events, start) && e.Performed? && e.name == name ==>
                  Spaced(s.policy, Times(journal[..k], name), e.at, e.retained))
  {
    var journal := Run(s, events).journal;
    if journal[k].Recorded? {
      DecisionsHaveReasons(s, events, k);
    } else if name in s.names && ClockNeverStepsBack(events, start) && journal[k].Performed? && journal[k].name == name {
      EveryRunSafe(s, events, name, start);
      PacedAt(s.policy, journal, name, k);
    }
  }

  /** Every restart in the journal from index `from` on is of an observed, restartable component. */
  predicate ActsObserved(s: Settings, statuses: seq<Status>, journal: seq<Entry>, from: nat)
    requires |statuses| == |s.names|
  {
    forall k | from <= k < |journal| && journal[k].Performed? ::
      journal[k].index < |s.names| && Restartable(Observed(statuses, journal[k].index))
  }

  lemma {:induction false} SweepActs(
    s: Settings, w: World, components: Components, lastTick: real, now: real, statuses: seq<Status>, i: nat, effects: nat, from: nat)
    requires |statuses| == |s.names| && i <= |s.names|
    requires from <= |w.journal| && ActsObserved(s, statuses, w.journal, from)
    ensures var after := Sweep(s, w, components, lastTick, now, statuses, i, effects).journal;
            w.journal <= after && ActsObserved(s, statuses, after, from)
    decreases |s.names| - i
  {
    if effects > 0 && i < |s.names| {
      var q := Step(s, w, components, lastTick, now, statuses, i, effects);
      if q.alive {
        SweepActs(s, q.world, q.components, lastTick, now, statuses, i + 1, q.left, from);
      }
    }
  }

  lemma RecoveredActs(s: Settings, w: World, now: real, statuses: seq<Status>, effects: nat)
    requires |statuses| == |s.names|
    ensures var after := Sweep(s, Recovered(s, w, now), Rebuilt(s, now).components, now, now, statuses, 0, effects).journal;
            w.journal <= after && ActsObserved(s, statuses, after, |w.journal|)
  {
    var recovered, components := Recovered(s, w, now), Rebuilt(s, now).components;
    SweepActs(s, recovered, components, now, now, statuses, 0, effects, |w.journal|);
  }

  lemma TickActs(s: Settings, w: World, now: real, statuses: seq<Status>, effects: nat)
    requires |statuses| == |s.names|
    ensures var after := Ticked(s, w, now, statuses, effects).journal;
            w.journal <= after && ActsObserved(s, statuses, after, |w.journal|)
  {
    match w.disk
    case Missing => SweepActs(s, w, map[], 0.0, now, statuses, 0, effects, |w.journal|);
    case Corrupt =>
      if effects > 0 {
        RecoveredActs(s, w, now, statuses, effects - 1);
      }
    case Stored(ledger) => SweepActs(s, w, ledger.components, ledger.lastTick, now, statuses, 0, effects, |w.journal|);
  }

  /** One tick never restarts both the backend and a tunnel. */
  lemma BackendOrTunnels(s: Settings, w: World, now: real, statuses: seq<Status>, effects: nat, j: nat, k: nat)
    requires |statuses| == |s.names|
    requires var after := Ticked(s, w, now, statuses, effects).journal;
             |w.journal| <= j < |after| && |w.journal| <= k < |after| && after[j].Performed? && after[k].Performed?
    ensures var after := Ticked(s, w, now, statuses, effects).journal; after[j].index == 0 <==> after[k].index == 0
  {
    TickActs(s, w, now, statuses, effects);
  }

  // ---------------------------------------------------------------- clock steps

  /** The stamps that are not yet an hour old, future stamps included. */
  function Young(stamps: seq<real>, now: real): seq<real> {
    if stamps == [] then [] else
      var init := Young(stamps[..|stamps| - 1], now);
      if now - Last(stamps) < HOUR then init + [Last(stamps)] else init
  }

  lemma {:induction false} RecentIsYoung(stamps: seq<real>, now: real)
    ensures |Recent(stamps, now)| <= |Young(stamps, now)|
    ensures |Recent(stamps, now)| == |Young(stamps, now)| <==> AtMost(stamps, now)
  {
    if stamps != [] {
      var init := stamps[..|stamps| - 1];
      RecentIsYoung(init, now);
      assert AtMost(stamps, now) <==> AtMost(init, now) && Last(stamps) <= now;
    }
  }

  /** Any decision, a restart included, forgets a stamp less than an hour old exactly when the ledger holds one from the future. */
  lemma ForgetsOnlyTheFuture(p: Policy, c: Component, status: Status, now: real)
    ensures var (after, action) := Decide(p, c, status, now);
            |after.restarts| - (if action == Restart then 1 else 0) < |Young(c.restarts, now)| <==> !AtMost(c.restarts, now)
  {
    RecentIsYoung(c.restarts, now);
  }

  const ONE_RESTART := Settings(["backend"], Policy(1, 120.0, 60.0, 1))

  /** The first failure at second 100 spends the budget of one. */
  lemma FirstRestart()
    ensures var c := Component([100.0], 0, None, true, Some(Recovering));
            Run(ONE_RESTART, [Tick(100.0, [BackendUnavailable], 9)]) ==
            World(Stored(Ledger(map["backend" := c], 100.0)),
                  [Recorded("backend", 100.0, BackendUnavailable, Restart, false, true), Performed(0, "backend", 100.0, 0)])
  {
    var s, down := ONE_RESTART, [BackendUnavailable];
    var c := Component([100.0], 0, None, true, Some(Recovering));
    assert Recent([], 100.0) + [100.0] == [100.0];
    assert Decide(s.policy, BLANK, BackendUnavailable, 100.0) == (c, Restart);
    var events := [Tick(100.0, down, 9)];
    assert events[..0] == [];
    assert Run(s, events) == Ticked(s, World(Missing, []), 100.0, down, 9);
  }

  /** A step back of two seconds, which a tick tolerates, buys a second restart on a budget of one. */
  lemma StepBackBreaksBudget()
    ensures var down := [BackendUnavailable];
            var events := [Tick(100.0, down, 9), Tick(98.0, down, 9)];
            Budget(ONE_RESTART.policy) == 1 && InHour(Times(Run(ONE_RESTART, events).journal, "backend"), 98.0) == 2
  {
    var s, down := ONE_RESTART, [BackendUnavailable];
    var c := Component([100.0], 0, None, true, Some(Recovering));
    var d := Component([98.0], 0, None, true, Some(Recovering));
    var w := Run(s, [Tick(100.0, down, 9)]);
    FirstRestart();
    assert Recent([100.0], 98.0) + [98.0] == [98.0] by { assert [100.0][..0] == []; }
    assert Decide(s.policy, c, BackendUnavailable, 98.0) == (d, Restart);
    var events := [Tick(100.0, down, 9), Tick(98.0, down, 9)];
    assert events[..1] == [Tick(100.0, down, 9)];
    var note, act := Recorded("backend", 98.0, BackendUnavailable, Restart, true, true), Performed(0, "backend", 98.0, 0);
    assert Step(s, w, map["backend" := c], 100.0, 98.0, down, 0, 9).world.journal == w.journal + [note] + [act];
    assert Run(s, events).journal == w.journal + [note] + [act];
    TwoTimes(w.journal, note, act);
  }

  lemma TwoTimes(journal: seq<Entry>, note: Entry, act: Entry)
    requires journal == [Recorded("backend", 100.0, BackendUnavailable, Restart, false, true), Performed(0, "backend", 100.0, 0)]
    requires note.Recorded? && act == Performed(0, "backend", 98.0, 0)
    ensures InHour(Times(journal + [note] + [act], "backend"), 98.0) == 2
  {
    var p := ONE_RESTART.policy;
    JournalSnoc(p, journal + [note], act, "backend");
    JournalSnoc(p, journal, note, "backend");
    JournalSnoc(p, [journal[0]], journal[1], "backend");
    JournalSnoc(p, [], journal[0], "backend");
    assert journal == [journal[0]] + [journal[1]] && [journal[0]] == [] + [journal[0]];
    assert [100.0, 98.0][..1] == [100.0] && [100.0][..0] == [];
  }

  // ---------------------------------------------------------------- the controller

  /** The lock holder: the ledger on disk, and the journal of what it really did. */
  class RecoveryOwner {
    const settings: Settings
    var disk: Disk
    ghost var journal: seq<Entry>

    ghost function State(): World
      reads this
    {
      World(disk, journal)
    }

    constructor (settings: Settings)
      ensures this.settings == settings && State() == World(Missing, [])
    {
      this.settings := settings;
      disk, journal := Missing, [];
    }

    /** Loads the ledger, replacing a damaged one; `None` ends the tick without looking further. */
    method Load(now: real, effects: nat) returns (ledger: Option<Ledger>, left: nat)
      modifies this
      ensures journal == if old(disk).Corrupt? && effects > 0 then old(journal) + [Reset(now)] else old(journal)
      ensures match old(disk)
              case Missing => ledger == Some(Ledger(map[], 0.0)) && disk == Missing && left == effects
              case Corrupt =>
                if effects == 0 then ledger.None? && disk == Corrupt
                else left == effects - 1 && ledger == Some(Rebuilt(settings, now)) && disk == Stored(Rebuilt(settings, now))
              case Stored(l) => disk == old(disk) && left == effects && ledger == if l.lastTick > now + 5.0 then None else Some(l)
    {
      match disk
      case Missing => return Some(Ledger(map[], 0.0)), effects;
      case Corrupt =>
        if effects == 0 {
          return None, 0;
        }
        disk := Stored(Rebuilt(settings, now));
        journal := journal + [Reset(now)];
        return Some(Rebuilt(settings, now)), effects - 1;
      case Stored(l) =>
        return if l.lastTick > now + 5.0 then None else Some(l), effects;
    }

    /** Decides for one component, persists, and only then acts. */
    method Treat(components: Components, lastTick: real, now: real, statuses: seq<Status>, i: nat, effects: nat)
      returns (next: Components, left: nat, alive: bool)
      requires |statuses| == |settings.names| && i < |settings.names| && effects > 0
      modifies this
      ensures Progress(State(), next, left, alive) == Step(settings, old(State()), components, lastTick, now, statuses, i, effects)
    {
      var name, status := settings.names[i], Observed(statuses, i);
      var before := Lookup(components, name);
      var (after, action) := Decide(settings.policy, before, status, now);
      next, left, alive := components[name := after], effects - 1, true;
      disk := Stored(Ledger(next, lastTick));
      journal := journal + [Noted(name, now, status, before, after, action)];
      if action == Restart {
        if left == 0 {
          alive := false;
          return;
        }
        left := left - 1;
        journal := journal + [Performed(i, name, now, |Recent(before.restarts, now)|)];
      }
    }

    /** One tick; the process dies after `effects` writes and restarts. */
    method Tick(now: real, statuses: seq<Status>, effects: nat)
      requires |statuses| == |settings.names|
      modifies this
      ensures State() == Ticked(settings, old(State()), now, statuses, effects)
    {
      var loaded, left := Load(now, effects);
      if loaded.None? {
        return;
      }
      var components, lastTick := loaded.value.components, loaded.value.lastTick;
      for i := 0 to |settings.names|
        invariant Sweep(settings, State(), components, lastTick, now, statuses, i, left)
               == Ticked(settings, old(State()), now, statuses, effects)
      {
        if left == 0 {
          return;
        }
        var alive;
        components, left, alive := Treat(components, lastTick, now, statuses, i, left);
        if !alive {
          return;
        }
      }
      if left > 0 {
        disk := Stored(Ledger(components, now));
      }
    }
  }
}
