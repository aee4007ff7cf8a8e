/**
  The limit on concurrent jobs, with the life of their workers: a worker may die at any moment, and
  a job whose worker is dead runs no more, whatever its record says.
 */
module LiveJobs {
  import opened Wrappers
  import L = Ledger

  /** `dead` are the jobs whose worker is gone for good. */
  datatype System = System(ledger: L.World, dead: set<L.Id>)

  datatype Event = Ledgers(step: L.Event) | Dies(id: L.Id)

  const EMPTY := System(L.EMPTY, {})

  /** A dead worker writes nothing. */
  predicate Posthumous(s: System, step: L.Event) { (step.Runs? || step.Ends?) && step.id in s.dead }

  /** A job that is recorded gets a new worker. */
  function Revived(s: System, step: L.Event): set<L.Id> {
    if step.Record? && s.ledger.op.Some? && s.ledger.op.value.Recording? then s.dead - {s.ledger.op.value.id} else s.dead
  }

  function Next(c: L.Config, s: System, e: Event): System {
    match e
    case Ledgers(step) => if Posthumous(s, step) then s else System(L.Next(c, s.ledger, step), Revived(s, step))
    case Dies(id) => s.(dead := s.dead + {id})
  }

  function Run(c: L.Config, events: seq<Event>): System {
    if events == [] then EMPTY else Next(c, Run(c, events[..|events| - 1]), events[|events| - 1])
  }

  /** What the ledger sees of a run. */
  function Written(c: L.Config, events: seq<Event>): seq<L.Event> {
    if events == [] then [] else
      var init, e := events[..|events| - 1], events[|events| - 1];
      if e.Ledgers? && !Posthumous(Run(c, init), e.step) then Written(c, init) + [e.step] else Written(c, init)
  }

  lemma {:induction false} RunsTheLedger(c: L.Config, events: seq<Event>)
    ensures Run(c, events).ledger == L.Run(c, Written(c, events))
  {
    if events != [] {
      var init, e := events[..|events| - 1], events[|events| - 1];
      RunsTheLedger(c, init);
      if e.Ledgers? {
        L.RunSnoc(c, Written(c, init), e.step);
      }
    }
  }

  // ---------------------------------------------------------------- the limit

  function Living(c: L.Config, s: System): nat { L.Sum(c, L.Alive(s.dead), s.ledger.jobs) }

  /** The jobs whose worker can still run, and the one that is being added, are within the limit. */
  predicate Few(c: L.Config, s: System) {
    Living(c, s) + (if s.ledger.op.Some? && !s.ledger.op.value.Expiring? then 1 else 0) <= c.maxConcurrent
  }

  predicate Admits(c: L.Config, w: L.World, e: L.Event) {
    && e.Count? && w.op.Some? && w.op.value.Expiring? && w.op.value.todo == []
    && L.Judge(c, w.jobs, e.at, e.gone).Admitted?
  }

  /** An admission although the workers that are alive fill the limit. */
  predicate Overcommits(c: L.Config, s: System, e: Event) {
    e.Ledgers? && Admits(c, s.ledger, e.step) && Living(c, s) >= c.maxConcurrent
  }

  lemma DeathOnlyFrees(c: L.Config, s: System, id: L.Id)
    ensures Living(c, s.(dead := s.dead + {id})) <= Living(c, s)
  {
    L.SumBelow(c, L.Alive(s.dead + {id}), L.Alive(s.dead), s.ledger.jobs);
  }

  lemma ExpiryFreesNobody(c: L.Config, s: System, now: int)
    requires L.Inv(c, s.ledger) && s.ledger.op.Some? && s.ledger.op.value.Expiring? && s.ledger.op.value.todo != []
    ensures L.Sum(c, L.Alive(s.dead), L.ExpireOne(c, s.ledger.jobs, s.ledger.op.value.todo[0], now)) == Living(c, s)
  {
    var r := s.ledger.op.value.todo[0];
    var found := L.Find(s.ledger.jobs, r.id);
    if found.Some? && r.state.Terminal() {
      assert s.ledger.jobs[found.value] == r;
      L.SumDrop(c, L.Alive(s.dead), s.ledger.jobs, found.value);
      L.SumUpdate(c, L.Alive(s.dead), s.ledger.jobs, found.value, r.(expired := true, resultBytes := Some(0)));
    }
  }

  /** The new job is the only one with its identifier, so reviving it revives no other. */
  lemma RecordAddsOne(c: L.Config, s: System, now: int)
    requires L.Inv(c, s.ledger) && s.ledger.op.Some? && s.ledger.op.value.Recording?
    ensures Living(c, Next(c, s, Ledgers(L.Record(now)))) == Living(c, s) + 1
  {
    var id := s.ledger.op.value.id;
    var dead, jobs := s.dead - {id}, s.ledger.jobs;
    assert forall i | 0 <= i < |jobs| :: jobs[i].id != id;
    L.SumBelow(c, L.Alive(dead), L.Alive(s.dead), jobs);
    L.SumBelow(c, L.Alive(s.dead), L.Alive(dead), jobs);
    L.SumAppend(c, L.Alive(dead), jobs, L.Job(id, s.ledger.op.value.hash, L.Starting, now, None, false));
  }

  lemma WorkerAddsNobody(c: L.Config, s: System, step: L.Event)
    requires step.Runs? || step.Ends?
    ensures Living(c, Next(c, s, Ledgers(step))) <= Living(c, s)
  {
    var jobs := s.ledger.jobs;
    var found := L.Find(jobs, step.id);
    if found.Some? && !Posthumous(s, step) {
      var j := jobs[found.value];
      var after := if step.Runs? then j.(state := L.Running, updatedAt := step.at)
                   else j.(state := step.outcome, updatedAt := step.at, resultBytes := Some(step.bytes));
      L.SumUpdate(c, L.Alive(s.dead), jobs, found.value, after);
    }
  }

  lemma NextFew(c: L.Config, s: System, e: Event)
    requires L.Inv(c, s.ledger) && Few(c, s)
    ensures Few(c, Next(c, s, e)) <==> !Overcommits(c, s, e)
  {
    match e
    case Dies(id) => DeathOnlyFrees(c, s, id);
    case Ledgers(step) =>
      if step.Expire? && s.ledger.op.Some? && s.ledger.op.value.Expiring? && s.ledger.op.value.todo != [] {
        ExpiryFreesNobody(c, s, step.at);
      } else if step.Record? && s.ledger.op.Some? && s.ledger.op.value.Recording? {
        RecordAddsOne(c, s, step.at);
      } else if step.Runs? || step.Ends? {
        WorkerAddsNobody(c, s, step);
      }
  }

  predicate AlwaysFew(c: L.Config, events: seq<Event>) {
    Few(c, Run(c, events)) && (events == [] || AlwaysFew(c, events[..|events| - 1]))
  }

  predicate NeverOvercommits(c: L.Config, events: seq<Event>) {
    events == [] ||
    (NeverOvercommits(c, events[..|events| - 1]) && !Overcommits(c, Run(c, events[..|events| - 1]), events[|events| - 1]))
  }

  /**
    The limit on concurrent jobs, exactly.  Throughout a run there are never more jobs with a living
    worker than the configured number if and only if every admission found fewer of them.
   */
  lemma {:induction false} ConcurrencyHolds(c: L.Config, events: seq<Event>)
    ensures AlwaysFew(c, events) <==> NeverOvercommits(c, events)
  {
    if events != [] {
      var init := events[..|events| - 1];
      ConcurrencyHolds(c, init);
      RunsTheLedger(c, init);
      L.EveryRunInv(c, Written(c, init));
      if Few(c, Run(c, init)) {
        NextFew(c, Run(c, init), events[|events| - 1]);
      }
    }
  }

  // ---------------------------------------------------------------- when admissions see every living worker

  /** No living worker is taken for gone, and those that have not announced themselves are within the grace. */
  predicate SeesLiving(s: System, e: Event) {
    e.Ledgers? && e.step.Count? ==>
      forall i | 0 <= i < |s.ledger.jobs| :: var j := s.ledger.jobs[i];
        !j.state.Terminal() && j.id !in s.dead ==> L.Shown(j, e.step.at, e.step.gone) == L.Known(j.state)
  }

  predicate AlwaysSeesLiving(c: L.Config, events: seq<Event>) {
    events == [] ||
    (AlwaysSeesLiving(c, events[..|events| - 1]) && SeesLiving(Run(c, events[..|events| - 1]), events[|events| - 1]))
  }

  lemma SeeingNeverOvercommits(c: L.Config, s: System, e: Event)
    requires L.Inv(c, s.ledger) && SeesLiving(s, e)
    ensures !Overcommits(c, s, e)
  {
    if e.Ledgers? && Admits(c, s.ledger, e.step) {
      L.SumBelow(c, L.Alive(s.dead), L.Active(e.step.at, e.step.gone), s.ledger.jobs);
    }
  }

  /** If every count shows every living worker, the limit holds throughout, however many workers have died. */
  lemma {:induction false} SeenWorkersKeepTheLimit(c: L.Config, events: seq<Event>)
    requires AlwaysSeesLiving(c, events)
    ensures NeverOvercommits(c, events) && AlwaysFew(c, events)
  {
    if events != [] {
      var init := events[..|events| - 1];
      SeenWorkersKeepTheLimit(c, init);
      RunsTheLedger(c, init);
      L.EveryRunInv(c, Written(c, init));
      SeeingNeverOvercommits(c, Run(c, init), events[|events| - 1]);
    }
    ConcurrencyHolds(c, events);
  }

  // ---------------------------------------------------------------- a run beyond the limit

  /** A run in which nobody dies. */
  function Lively(events: seq<L.Event>): seq<Event> {
    if events == [] then [] else Lively(events[..|events| - 1]) + [Ledgers(events[|events| - 1])]
  }

  lemma {:induction false} RunLively(c: L.Config, events: seq<L.Event>)
    ensures Run(c, Lively(events)) == System(L.Run(c, events), {})
  {
    if events != [] {
      var init := events[..|events| - 1];
      RunLively(c, init);
      assert Lively(events)[..|Lively(init)|] == Lively(init);
    }
  }

  /** A worker that announces itself after the launch grace is alive beside the job admitted in the meantime. */
  lemma SlowLaunchExceedsTheLimit()
    ensures exists events :: Living(L.ONE_AT_A_TIME, Run(L.ONE_AT_A_TIME, events)) > L.ONE_AT_A_TIME.maxConcurrent
  {
    var c := L.ONE_AT_A_TIME;
    L.SlowLaunchExceedsConcurrency();
    var events :| L.Sum(c, L.Unfinished, L.Run(c, events).jobs) == 2;
    RunLively(c, events);
    L.SumBelow(c, L.Unfinished, L.Alive({}), L.Run(c, events).jobs);
    assert Living(c, Run(c, Lively(events))) > c.maxConcurrent;
  }
}
