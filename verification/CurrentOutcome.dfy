/**
  Under orderly removal a terminal status does not only tell the truth about some worker: it tells it
  about one that claimed the directory after its latest reservation.
 */
module CurrentOutcome {
  import opened Wrappers
  import opened AtMostOnce
  import opened CarefulRemoval
  import opened JobOutcome

  /** The life of the directory that its latest reservation began. */
  function Began(events: seq<Event>): nat {
    if events == [] then 0 else
      var init := events[..|events| - 1];
      if |Run(events).entries| > |Run(init).entries| then Run(events).lives else Began(init)
  }

  /** The worker claimed the directory in that life or a later one. */
  predicate ClaimedSince(w: World, k: nat, life: nat) {
    k in w.workers && w.workers[k].life.Some? && w.workers[k].life.value >= life
  }

  predicate Reporter(w: World, k: nat, life: nat, outcome: Outcome) {
    ClaimedSince(w, k, life) && w.workers[k].reported == Some(outcome)
  }

  ghost predicate Reported(w: World, life: nat) {
    && life <= w.lives
    && (Complete(w.files) ==> exists k :: Reporter(w, k, life, w.files.status.value.progress.outcome))
  }

  lemma ReporterStays(w: World, k: nat, m: Worked, life: nat, j: nat, outcome: Outcome)
    requires k in w.workers && w.workers[k].Sound() && Honest(w.workers[k]) && Reporter(w, j, life, outcome)
    requires Legal(w.files, w.workers[k], w.lives, m) && Reports(w.files, w.workers[k], m)
    ensures Reporter(AfterWork(w, k, m), j, life, outcome)
  {
  }

  lemma WorkReported(w: World, todo: Option<set<Part>>, k: nat, m: Worked, life: nat)
    requires OneMaster(w, todo) && Reported(w, life) && k in w.workers && w.workers[k].Sound() && Honest(w.workers[k])
    requires Legal(w.files, w.workers[k], w.lives, m) && WritesStatus(w.files, w.workers[k], m) && Reports(w.files, w.workers[k], m)
    ensures Reported(AfterWork(w, k, m), life)
  {
    var after := AfterWork(w, k, m);
    if Complete(after.files) {
      var outcome := m.files.status.value.progress.outcome;
      if m.files.status == w.files.status {
        var j :| Reporter(w, j, life, outcome);
        ReporterStays(w, k, m, life, j, outcome);
      } else {
        assert w.workers[k].InFlight() && w.workers[k].life == Some(w.lives);
        assert Reporter(after, k, life, outcome);
      }
    }
  }

  /** The workers keep what they have reported, and the status file shows nothing new that is terminal. */
  lemma OthersReported(w: World, after: World, life: nat)
    requires Reported(w, life) && life <= after.lives
    requires after.files.status == w.files.status || !Complete(after.files)
    requires forall k | k in w.workers :: k in after.workers && after.workers[k] == w.workers[k]
    ensures Reported(after, life)
  {
    if Complete(after.files) {
      var j :| Reporter(w, j, life, w.files.status.value.progress.outcome);
      assert Reporter(after, j, life, after.files.status.value.progress.outcome);
    }
  }

  lemma StepReported(w: World, s: nat, a: StarterAction, life: nat)
    requires Reported(w, life)
    ensures var after := Next(w, Step(s, a));
            Reported(after, if |after.entries| > |w.entries| then after.lives else life)
  {
    if s in w.starters {
      var m := StarterMove(w.files, w.starters[s], |w.entries|, a);
      StartLegal(w.files, w.starters[s], |w.entries|, a);
      StepStatus(w.files, w.starters[s], |w.entries|, a);
      if !m.reserved {
        OthersReported(w, Next(w, Step(s, a)), life);
      }
    }
  }

  lemma WorkedReported(w: World, todo: Option<set<Part>>, e: Event, life: nat)
    requires Inv(w) && OneMaster(w, todo) && Truthful(w) && Reported(w, life) && (e.Work? || e.Handle?)
    ensures Reported(Next(w, e), life) && Next(w, e).entries == w.entries
  {
    if e.Work? && e.k in w.workers {
      MoveLegal(w.files, w.workers[e.k], w.lives, e.working);
      MoveStatus(w.files, w.workers[e.k], w.lives, e.working);
      MoveReports(w.files, w.workers[e.k], w.lives, e.working);
      WorkReported(w, todo, e.k, WorkerMove(w.files, w.workers[e.k], w.lives, e.working), life);
    } else if e.Handle? && e.k in w.workers {
      HandledLegal(w.files, w.workers[e.k], w.lives, e.handler);
      HandledStatus(w.files, w.workers[e.k], e.handler);
      HandledReports(w.files, w.workers[e.k], e.handler);
      WorkReported(w, todo, e.k, Worked(w.files, Handled(w.files, w.workers[e.k], e.handler), false), life);
    }
  }

  lemma RemainingReported(w: World, todo: Option<set<Part>>, e: Event, life: nat)
    requires Reported(w, life) && Orderly(w, todo, e) && !e.Work? && !e.Handle? && !e.Step?
    ensures Reported(Next(w, e), life) && Next(w, e).entries == w.entries
  {
    OthersReported(w, Next(w, e), life);
  }

  lemma NextReported(w: World, todo: Option<set<Part>>, e: Event, life: nat)
    requires Inv(w) && OneMaster(w, todo) && Truthful(w) && Reported(w, life) && Orderly(w, todo, e)
    ensures var after := Next(w, e);
            Reported(after, if |after.entries| > |w.entries| then after.lives else life)
  {
    if e.Work? || e.Handle? {
      WorkedReported(w, todo, e, life);
    } else if e.Step? {
      StepReported(w, e.s, e.starting, life);
    } else {
      RemainingReported(w, todo, e, life);
    }
  }

  lemma {:induction false} OrderlyRunReported(events: seq<Event>)
    requires OrderlyRun(events)
    ensures Reported(Run(events), Began(events))
  {
    if events != [] {
      var init := events[..|events| - 1];
      OrderlyRunReported(init);
      EveryRunInv(init);
      OrderlyRunTidy(init);
      EveryRunTruthful(init);
      NextReported(Run(init), Todo(init), events[|events| - 1], Began(init));
    }
  }

  /** It had reason to report what it did. */
  lemma ReporterVouches(w: World, k: nat, outcome: Outcome)
    requires Truthful(w) && k in w.workers && w.workers[k].reported == Some(outcome)
    ensures VouchedBy(w, k, outcome)
  {
    assert Honest(w.workers[k]);
  }

  ghost predicate VouchedSince(w: World, k: nat, life: nat, outcome: Outcome) {
    ClaimedSince(w, k, life) && VouchedBy(w, k, outcome)
  }

  lemma ReportedIsVouched(w: World, life: nat)
    requires Truthful(w) && Reported(w, life) && Complete(w.files)
    ensures exists k :: VouchedSince(w, k, life, w.files.status.value.progress.outcome)
  {
    var outcome := w.files.status.value.progress.outcome;
    var k :| Reporter(w, k, life, outcome);
    ReporterVouches(w, k, outcome);
    assert VouchedSince(w, k, life, outcome);
  }

  /**
    Under orderly removal a terminal status was reported, with reason, by a worker that claimed the
    directory since its latest reservation.
   */
  lemma OutcomeIsCurrent(events: seq<Event>)
    requires OrderlyRun(events) && Complete(Run(events).files)
    ensures exists k :: VouchedSince(Run(events), k, Began(events), Run(events).files.status.value.progress.outcome)
  {
    OrderlyRunReported(events);
    EveryRunTruthful(events);
    ReportedIsVouched(Run(events), Began(events));
  }
}
