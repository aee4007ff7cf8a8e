/**
  What a worker reports, by what has happened to it: in every run the outcome that it writes follows
  from the signals, the looks at the cancel file and the result of its one call of `execute`.
 */
module ReportedOutcome {
  import opened Wrappers
  import opened AtMostOnce

  /** The timer's latest look found the cancel file. */
  predicate Saw(events: seq<Event>, k: nat) {
    events != [] &&
    var init, last := events[..|events| - 1], events[|events| - 1];
    if last == Handle(k, TickLook) && k in Run(init).workers && Run(init).workers[k].timer.Asked?
    then Run(init).files.cancel else Saw(init, k)
  }

  /** A signal while the handlers are installed, or a look that found the cancel file and is over. */
  predicate Aborts(w: World, e: Event, k: nat, saw: bool) {
    k in w.workers &&
    match e
    case Handle(j, h) => j == k && if h.Signal? then w.workers[k].Watching() else h.TickDone? && w.workers[k].timer.Seen? && saw
    case Work(j, a) => j == k && a.LookNow? && w.workers[k].stage.Looking? && w.files.cancel
    case _ => false
  }

  predicate Aborted(events: seq<Event>, k: nat) {
    events != [] &&
    var init, last := events[..|events| - 1], events[|events| - 1];
    Aborted(init, k) || Aborts(Run(init), last, k, Saw(init, k))
  }

  /** `execute` returns, and the command has succeeded. */
  predicate Returns(w: World, e: Event, k: nat) {
    k in w.workers && e == Work(k, Return(true)) && w.workers[k].stage.Executing?
  }

  predicate Returned(events: seq<Event>, k: nat) {
    events != [] &&
    var init, last := events[..|events| - 1], events[|events| - 1];
    Returned(init, k) || Returns(Run(init), last, k)
  }

  // What one event makes of the two flags and the look.
  predicate Flags(before: Worker, after: Worker, aborting: bool, returning: bool, saw: bool) {
    && (after.timer.Seen? ==> after.timer.present == saw)
    && (after.abort <==> before.abort || aborting)
    && (after.success <==> before.success || returning)
    && (after.success ==> after.Rank() >= 9)
  }

  lemma ApproachFlags(f: Files, k: Worker, life: nat, a: WorkerAction, saw: bool)
    requires k.Rank() <= 4 && !k.success && (k.timer.Seen? ==> k.timer.present == saw)
    ensures Flags(k, Approach(f, k, life, a).worker, false, false, saw)
  {
  }

  lemma PerformFlags(f: Files, k: Worker, a: WorkerAction, saw: bool)
    requires (k.success ==> k.Rank() >= 9) && (k.timer.Seen? ==> k.timer.present == saw)
    ensures Flags(k, Perform(f, k, a).worker, a.LookNow? && k.stage.Looking? && f.cancel, a == Return(true) && k.stage.Executing?, saw)
  {
  }

  lemma MoveFlags(f: Files, k: Worker, life: nat, a: WorkerAction, saw: bool)
    requires (k.success ==> k.Rank() >= 9) && (k.timer.Seen? ==> k.timer.present == saw)
    ensures Flags(k, WorkerMove(f, k, life, a).worker, a.LookNow? && k.stage.Looking? && f.cancel,
                  a == Return(true) && k.stage.Executing?, saw)
  {
    if !a.Fault? && k.Rank() <= 4 {
      ApproachFlags(f, k, life, a, saw);
    } else if !a.Fault? {
      PerformFlags(f, k, a, saw);
    }
  }

  lemma HandledFlags(f: Files, k: Worker, h: Handler, saw: bool)
    requires (k.success ==> k.Rank() >= 9) && (k.timer.Seen? ==> k.timer.present == saw)
    ensures Flags(k, Handled(f, k, h), if h.Signal? then k.Watching() else h.TickDone? && k.timer.Seen? && saw, false,
                  if h.TickLook? && k.timer.Asked? then f.cancel else saw)
  {
  }

  lemma NextFlags(w: World, e: Event, k: nat, saw: bool)
    requires k in w.workers && (w.workers[k].success ==> w.workers[k].Rank() >= 9)
    requires w.workers[k].timer.Seen? ==> w.workers[k].timer.present == saw
    ensures k in Next(w, e).workers
    ensures Flags(w.workers[k], Next(w, e).workers[k], Aborts(w, e, k, saw), Returns(w, e, k),
                  if e == Handle(k, TickLook) && w.workers[k].timer.Asked? then w.files.cancel else saw)
  {
    match e
    case Work(j, a) =>
      if j == k {
        MoveFlags(w.files, w.workers[k], w.lives, a, saw);
      }
    case Handle(j, h) =>
      if j == k {
        HandledFlags(w.files, w.workers[k], h, saw);
      }
    case _ =>
  }

  lemma NewFlags(w: World, e: Event, k: nat)
    requires k !in w.workers && k in Next(w, e).workers
    ensures Next(w, e).workers[k] == NewWorker(Next(w, e).workers[k].parent)
  {
  }

  lemma {:induction false} NotYet(events: seq<Event>, k: nat)
    requires k !in Run(events).workers
    ensures !Aborted(events, k) && !Returned(events, k)
  {
    if events != [] {
      var init, e := events[..|events| - 1], events[|events| - 1];
      WorkersStay(Run(init), e, k);
      NotYet(init, k);
    }
  }

  lemma WorkersStay(w: World, e: Event, k: nat)
    ensures k in w.workers ==> k in Next(w, e).workers
  {
  }

  /** In every run a worker's flags say exactly what has happened to it. */
  lemma {:induction false} FlagsAreTrue(events: seq<Event>, k: nat)
    requires k in Run(events).workers
    ensures var me := Run(events).workers[k];
            && (me.abort <==> Aborted(events, k)) && (me.success <==> Returned(events, k))
            && (me.success ==> me.Rank() >= 9) && (me.timer.Seen? ==> me.timer.present == Saw(events, k))
  {
    if events != [] {
      var init, e := events[..|events| - 1], events[|events| - 1];
      var w := Run(init);
      if k in w.workers {
        FlagsAreTrue(init, k);
        NextFlags(w, e, k, Saw(init, k));
      } else {
        NotYet(init, k);
        NewFlags(w, e, k);
      }
    }
  }

  /**
    The report.  A worker that concludes writes `cancelled` if and only if a signal, or a look that
    found the cancel file, has reached it by then; otherwise `succeeded` if and only if its call of
    `execute` has returned a success; and `failed` in every other case.  If its directory is gone, it
    writes nothing.
   */
  lemma ReportFollows(events: seq<Event>, k: nat)
    requires k in Run(events).workers && Run(events).workers[k].stage.Ended?
    ensures var w, after := Run(events), Next(Run(events), Work(k, Conclude));
            if !w.files.present then
              after.files == w.files && after.workers[k] == w.workers[k].(stage := Gone)
            else
              var outcome := if Aborted(events, k) then Cancelled else if Returned(events, k) then Succeeded else Failed;
              && after.workers[k].reported == Some(outcome)
              && after.files == w.files.(status := Some(Status(w.workers[k].record.hash, Done(outcome))))
  {
    FlagsAreTrue(events, k);
  }

  /** After its report a worker takes away a request file that is still there, and is done. */
  lemma RequestIsSwept(events: seq<Event>, k: nat)
    requires k in Run(events).workers && Run(events).workers[k].stage.Finished?
    ensures var w := Run(events);
            Next(w, Work(k, Sweep)) ==
            w.(files := w.files.(request := None), workers := w.workers[k := w.workers[k].(stage := Gone)])
  {
  }

  /** At any time up to the result, one round of the timer notices a cancel file, and changes nothing else. */
  lemma TimerNotices(events: seq<Event>, k: nat)
    requires k in Run(events).workers && Run(events).workers[k].Watching() && !Run(events).workers[k].IsChecking()
    requires Run(events).files.cancel
    ensures var w := Run(events);
            Run(events + [Handle(k, Tick), Handle(k, TickLook), Handle(k, TickDone)]) ==
            w.(workers := w.workers[k := w.workers[k].(abort := true)])
  {
    var w := Run(events);
    RunFrom(events, [Handle(k, Tick), Handle(k, TickLook), Handle(k, TickDone)]);
    Three(w, Handle(k, Tick), Handle(k, TickLook), Handle(k, TickDone));
    assert Next(w, Handle(k, Tick)) == w.(workers := w.workers[k := w.workers[k].(timer := Asked)]);
  }

  // ---------------------------------------------------------------- what a start answers

  /** Why a start gives this denial. */
  predicate Denies(f: Files, s: Starter, a: StarterAction, denial: Denial) {
    match denial
    case Existing => s.Checking? && a.Look? && f.status.Some? && f.status.value.hash == s.hash
    case Conflict => s.Checking? && a.Look? && f.status.Some? && f.status.value.hash != s.hash
    case Refused => (s.Checking? || s.Admitting?) && a.Refuse?
    case AlreadyReserved => s.Admitting? && a.Reserve? && f.present
  }

  /** Why a start with a reservation ends with this reply. */
  predicate Replies(f: Files, s: Starter, a: StarterAction, reply: Reply) {
    match reply
    case Broken => ((s.Recording? && a.Record?) || (s.Requesting? && a.Submit?)) && !f.present
    case Acknowledged => s.Launching? && a == Confirm(true)
    case Unconfirmed => s.Launching? && a == Confirm(false)
  }

  /**
    The answer of a start, in every run: each answer is given exactly for its own reason, it never
    changes, and only a start that reserves changes what is reserved.
   */
  lemma AnswerFollows(events: seq<Event>, s: nat, a: StarterAction, denial: Denial, reply: Reply)
    requires s in Run(events).starters
    ensures var w, after := Run(events), Next(Run(events), Step(s, a));
            var me, later := w.starters[s], after.starters[s];
            && later.hash == me.hash
            && (later == Denied(me.hash, denial) <==> me == Denied(me.hash, denial) || Denies(w.files, me, a, denial))
            && (later.Replied? && later.reply == reply <==> (me.Replied? && me.reply == reply) || Replies(w.files, me, a, reply))
            && (after.entries == if me.Admitting? && a.Reserve? && !w.files.present
                                 then w.entries + [Reservation(s, me.hash)] else w.entries)
  {
  }

  // ---------------------------------------------------------------- a job that nothing disturbs

  /** The start up to the launch, and the worker up to the removal of its request. */
  function Prepares(s: nat, k: nat, h: Hash): seq<Event> { Starts(s, k, h) + Fetches(k) + Takes(k) }

  lemma Prepared(w: World, s: nat, k: nat, h: Hash)
    requires s !in w.starters && k !in w.workers && w.files == ABSENT
    ensures var after := From(w, Prepares(s, k, h));
            && k in after.workers && after.executed == w.executed && after.entries == w.entries + [Reservation(s, h)]
            && after.files == Files(true, Some(Status(h, Running)), None, true, false)
            && var me := after.workers[k];
               && me.stage.Consumed? && me.timer.Idle? && !me.abort && !me.cancelPresent
               && me.record == Status(h, Running) && me.consumed == Some(Request(|w.entries|, h))
  {
    StartSteps(w, s, k, h);
    var started := From(w, Starts(s, k, h));
    FetchSteps(started, k);
    var fetched := From(started, Fetches(k));
    TakeSteps(fetched, k);
    FromConcat(w, Starts(s, k, h), Fetches(k));
    FromConcat(w, Starts(s, k, h) + Fetches(k), Takes(k));
  }

  lemma Performed(w: World, k: nat)
    requires k in w.workers && w.files.present && !w.files.cancel
    requires var me := w.workers[k]; me.stage.Consumed? && me.timer.Idle? && !me.abort && !me.cancelPresent
    ensures var after := From(w, Executes(k) + Succeeds(k));
            && |after.executed| == |w.executed| + 1 && after.executed[..|w.executed|] == w.executed
            && after.executed[|w.executed|].id == k && after.executed[|w.executed|].worker.consumed == w.workers[k].consumed
            && after.entries == w.entries
            && after.files == w.files.(status := Some(w.workers[k].record.(progress := Done(Succeeded))))
  {
    ExecuteSteps(w, k);
    var running := From(w, Executes(k));
    SucceedSteps(running, k);
    FromConcat(w, Executes(k), Succeeds(k));
  }

  /**
    A job is done.  After any run that left no directory, a start and its worker whom nothing disturbs
    execute the command once, with the request that was just reserved, and leave the status
    `succeeded` under its hash, no request file and the claim mark.
   */
  lemma UndisturbedJobRuns(events: seq<Event>, s: nat, k: nat, h: Hash)
    requires s !in Run(events).starters && k !in Run(events).workers && Run(events).files == ABSENT
    ensures var w, after := Run(events), Run(events + Prepares(s, k, h) + (Executes(k) + Succeeds(k)));
            && |after.executed| == |w.executed| + 1 && after.executed[..|w.executed|] == w.executed
            && after.executed[|w.executed|].id == k && after.executed[|w.executed|].worker.consumed == Some(Request(|w.entries|, h))
            && after.entries == w.entries + [Reservation(s, h)]
            && after.files == Files(true, Some(Status(h, Done(Succeeded))), None, true, false)
  {
    var w := Run(events);
    var ready := From(w, Prepares(s, k, h));
    Prepared(w, s, k, h);
    Performed(ready, k);
    RunFrom(events, Prepares(s, k, h));
    RunFrom(events + Prepares(s, k, h), Executes(k) + Succeeds(k));
  }
}
