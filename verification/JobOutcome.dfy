/** What a terminal status says is what became of some worker, in every run. */
module JobOutcome {
  import opened Wrappers
  import opened AtMostOnce

  ghost predicate HasRun(w: World, k: nat) {
    exists i | 0 <= i < |w.executed| :: w.executed[i].id == k
  }

  /** A worker that reports success has run the command and seen it succeed; one that reports a cancellation was aborted. */
  ghost predicate Honest(k: Worker) {
    && (k.reported == Some(Succeeded) ==> k.success)
    && (k.reported == Some(Cancelled) ==> k.abort)
    && (k.reported == Some(Failed) ==> !k.success)
    && (k.reported.Some? ==> k.Rank() >= 10)
    && (k.Rank() <= 8 ==> !k.success)
  }

  ghost predicate Truthful(w: World) {
    && (forall k | k in w.workers :: Honest(w.workers[k]))
    && (forall k | k in w.workers && (w.workers[k].stage.Executing? || w.workers[k].success) :: HasRun(w, k))
    && (w.files.status.Some? && w.files.status.value.progress.Done? ==>
          exists k | k in w.workers :: w.workers[k].reported == Some(w.files.status.value.progress.outcome))
  }

  // What one stretch of a worker may report.
  ghost predicate Reports(f: Files, k: Worker, m: Worked) {
    && Honest(m.worker)
    && (m.worker.reported == k.reported || k.reported.None?)
    && (m.worker.stage.Executing? || m.worker.success ==> m.ran || k.stage.Executing? || k.success)
    && (m.files.status == f.status || (m.files.status.Some? &&
          (m.files.status.value.progress.Done? ==> m.worker.reported == Some(m.files.status.value.progress.outcome))))
  }

  lemma ApproachReports(f: Files, k: Worker, life: nat, a: WorkerAction)
    requires Honest(k) && k.Rank() <= 4
    ensures Reports(f, k, Approach(f, k, life, a))
  {
  }

  lemma PerformReports(f: Files, k: Worker, a: WorkerAction)
    requires Honest(k) && k.Rank() > 4
    ensures Reports(f, k, Perform(f, k, a))
  {
  }

  lemma MoveReports(f: Files, k: Worker, life: nat, a: WorkerAction)
    requires Honest(k)
    ensures Reports(f, k, WorkerMove(f, k, life, a))
  {
    if !a.Fault? && k.Rank() <= 4 {
      ApproachReports(f, k, life, a);
    } else if !a.Fault? {
      PerformReports(f, k, a);
    }
  }

  lemma HandledReports(f: Files, k: Worker, h: Handler)
    requires Honest(k)
    ensures Reports(f, k, Worked(f, Handled(f, k, h), false))
  {
    HandledFrame(f, k, h);
  }

  lemma WorkTruthful(w: World, k: nat, m: Worked)
    requires Truthful(w) && k in w.workers && Reports(w.files, w.workers[k], m)
    ensures Truthful(AfterWork(w, k, m))
  {
    var after := AfterWork(w, k, m);
    forall j | j in w.workers && HasRun(w, j)
      ensures HasRun(after, j)
    {
      var i :| 0 <= i < |w.executed| && w.executed[i].id == j;
      assert after.executed[i].id == j;
    }
    if m.ran {
      assert after.executed[|w.executed|].id == k;
    }
    if m.files.status.Some? && m.files.status.value.progress.Done? {
      if m.worker.reported != Some(m.files.status.value.progress.outcome) {
        var j :| j in w.workers && w.workers[j].reported == Some(w.files.status.value.progress.outcome);
        assert j != k && after.workers[j] == w.workers[j];
      } else {
        assert after.workers[k].reported == Some(m.files.status.value.progress.outcome);
      }
    }
  }

  // The workers stay, the log stays, and the status file shows no new terminal state.
  lemma FilesTruthful(w: World, after: World)
    requires Truthful(w) && after.executed == w.executed
    requires after.files.status == w.files.status || (after.files.status.Some? ==> !after.files.status.value.progress.Done?)
    requires forall k | k in w.workers :: k in after.workers && after.workers[k] == w.workers[k]
    requires forall k | k in after.workers && k !in w.workers :: after.workers[k].stage.Fresh? && !after.workers[k].success && after.workers[k].reported.None?
    ensures Truthful(after)
  {
    forall k | k in w.workers && HasRun(w, k)
      ensures HasRun(after, k)
    {
    }
    if after.files.status.Some? && after.files.status.value.progress.Done? {
      var j :| j in w.workers && w.workers[j].reported == Some(w.files.status.value.progress.outcome);
      assert after.workers[j].reported == Some(after.files.status.value.progress.outcome);
    }
  }

  lemma RewriteTruthful(w: World, k: nat)
    requires Truthful(w)
    ensures Truthful(Next(w, Rewrite(k)))
  {
    var after := Next(w, Rewrite(k));
    forall j | j in w.workers && HasRun(w, j)
      ensures HasRun(after, j)
    {
    }
    if after.files != w.files {
      assert after.workers[k].reported == Some(after.files.status.value.progress.outcome);
    }
  }

  lemma StepStatus(f: Files, s: Starter, next: nat, a: StarterAction)
    ensures var status := StarterMove(f, s, next, a).files.status;
            status == f.status || (status.Some? ==> !status.value.progress.Done?)
  {
  }

  lemma NextTruthful(w: World, e: Event)
    requires Truthful(w)
    ensures Truthful(Next(w, e))
  {
    match e
    case Work(k, a) =>
      if k in w.workers {
        MoveReports(w.files, w.workers[k], w.lives, a);
        WorkTruthful(w, k, WorkerMove(w.files, w.workers[k], w.lives, a));
      }
    case Handle(k, h) =>
      if k in w.workers {
        HandledReports(w.files, w.workers[k], h);
        WorkTruthful(w, k, Worked(w.files, Handled(w.files, w.workers[k], h), false));
      }
    case Step(s, a) =>
      if s in w.starters {
        StepStatus(w.files, w.starters[s], |w.entries|, a);
        FilesTruthful(w, Next(w, e));
      }
    case Rewrite(k) => RewriteTruthful(w, k);
    case _ => FilesTruthful(w, Next(w, e));
  }

  lemma {:induction false} EveryRunTruthful(events: seq<Event>)
    ensures Truthful(Run(events))
  {
    if events != [] {
      EveryRunTruthful(events[..|events| - 1]);
      NextTruthful(Run(events[..|events| - 1]), events[|events| - 1]);
    }
  }

  /** The worker reported the outcome, and had reason to. */
  ghost predicate VouchedBy(w: World, k: nat, outcome: Outcome) {
    && k in w.workers && w.workers[k].reported == Some(outcome)
    && match outcome
       case Succeeded => w.workers[k].success && HasRun(w, k)
       case Cancelled => w.workers[k].abort
       case Failed => !w.workers[k].success
  }

  ghost predicate Vouched(w: World, outcome: Outcome) { exists k :: VouchedBy(w, k, outcome) }

  lemma TruthfulVouched(w: World)
    requires Truthful(w) && w.files.status.Some? && w.files.status.value.progress.Done?
    ensures Vouched(w, w.files.status.value.progress.outcome)
  {
    var k :| k in w.workers && w.workers[k].reported == Some(w.files.status.value.progress.outcome);
    assert Honest(w.workers[k]) && VouchedBy(w, k, w.files.status.value.progress.outcome);
  }

  /**
    In every run a terminal status was reported by some worker: success by one that executed the
    request and saw it succeed, a cancellation by one that was aborted, a failure by one that never
    saw it succeed.
   */
  lemma OutcomeIsTrue(events: seq<Event>)
    requires Run(events).files.status.Some? && Run(events).files.status.value.progress.Done?
    ensures Vouched(Run(events), Run(events).files.status.value.progress.outcome)
  {
    EveryRunTruthful(events);
    TruthfulVouched(Run(events));
  }
}
