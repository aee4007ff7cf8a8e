/** The worker process itself: what `runJob` keeps in variables, and the directory it works on. */
module JobWorkers {
  import opened Wrappers
  import opened AtMostOnce

  class JobDirectory {
    var present: bool
    var status: Option<Status>
    var request: Option<Request>
    var claimed: bool
    var cancel: bool

    ghost function View(): Files
      reads this
    {
      Files(present, status, request, claimed, cancel)
    }

    constructor (f: Files)
      ensures View() == f
    {
      present, status, request, claimed, cancel := f.present, f.status, f.request, f.claimed, f.cancel;
    }

    /** Somebody else has changed the files. */
    method Become(f: Files)
      modifies this
      ensures View() == f
    {
      present, status, request, claimed, cancel := f.present, f.status, f.request, f.claimed, f.cancel;
    }
  }

  // ---------------------------------------------------------------- what a whole job is

  /** What happens while the worker awaits, and whether what it awaits then throws. */
  datatype Pause = Pause(meanwhile: seq<Event>, fault: bool)

  predicate Elsewhere(e: Event, k: nat) { !(e.Work? && e.k == k) }

  predicate AllElsewhere(events: seq<Event>, k: nat) {
    forall n | 0 <= n < |events| :: Elsewhere(events[n], k)
  }

  /** Inside the `try` block, with the timer and the signal handlers installed. */
  predicate InTry(stage: Stage) {
    match stage
    case Fresh | Claimed | Ended | Finished | Gone => false
    case _ => true
  }

  /** The stretch that is due at a stage; inside the `try` block anything may throw. */
  predicate Due(stage: Stage, a: WorkerAction) {
    match a
    case Claim => stage.Fresh?
    case Load => stage.Claimed?
    case Fetch => stage.Loaded?
    case Announce => stage.Fetched?
    case Consume => stage.Announced?
    case Check => stage.Consumed?
    case LookNow => stage.Looking?
    case Decide => stage.Checked?
    case Return(_) => stage.Executing?
    case Conclude => stage.Ended?
    case Sweep => stage.Finished?
    case Fault => InTry(stage)
  }

  /** The executions of one worker. */
  function Runs(executed: seq<Execution>, k: nat): nat {
    if executed == [] then 0
    else Runs(executed[..|executed| - 1], k) + if executed[|executed| - 1].id == k then 1 else 0
  }

  /** Every stretch of this worker is due when it is taken. */
  predicate AllDue(before: World, events: seq<Event>, k: nat) {
    events == [] ||
    var init, last := events[..|events| - 1], events[|events| - 1];
    && AllDue(before, init, k)
    && (Elsewhere(last, k) || (k in From(before, init).workers && Due(From(before, init).workers[k].stage, last.working)))
  }

  predicate Traced(before: World, events: seq<Event>, after: World, k: nat) {
    after == From(before, events) && AllDue(before, events, k)
  }

  lemma TracedStep(before: World, events: seq<Event>, w: World, k: nat, e: Event)
    requires Traced(before, events, w, k)
    requires Elsewhere(e, k) || (k in w.workers && Due(w.workers[k].stage, e.working))
    ensures Traced(before, events + [e], Next(w, e), k)
  {
    FromConcat(before, events, [e]);
    One(w, e);
    assert (events + [e])[..|events|] == events;
  }

  lemma RunsSnoc(executed: seq<Execution>, x: Execution, k: nat)
    ensures Runs(executed + [x], k) == Runs(executed, k) + if x.id == k then 1 else 0
  {
    assert (executed + [x])[..|executed|] == executed;
  }

  /** Where a stretch can lead. */
  predicate Leads(a: WorkerAction, stage: Stage) {
    match a
    case Claim => stage.Claimed? || stage.Gone?
    case Load => stage.Loaded? || stage.Gone?
    case Fetch => stage.Fetched? || stage.Ended?
    case Announce => stage.Announced? || stage.Ended?
    case Consume => stage.Consumed? || stage.Ended?
    case Check => stage.Looking? || stage.Checked?
    case LookNow => stage.Checked?
    case Decide => stage.Executing? || stage.Ended?
    case Return(_) => stage.Ended?
    case Conclude => stage.Finished? || stage.Gone?
    case Sweep => stage.Gone?
    case Fault => stage.Ended?
  }

  function OutcomeOf(abort: bool, success: bool): Outcome {
    if abort then Cancelled else if success then Succeeded else Failed
  }

  /** No stretch but the decision calls `execute`. */
  lemma OnlyDecideRuns(w: World, k: nat, a: WorkerAction)
    requires !a.Decide?
    ensures Next(w, Work(k, a)).executed == w.executed
  {
  }

  /** Whatever else happens, the worker is still there, is only watched over, and executes nothing. */
  lemma ElsewhereKeeps(w: World, e: Event, k: nat)
    requires k in w.workers && Elsewhere(e, k)
    ensures k in Next(w, e).workers
    ensures (e.Handle? && e.k == k) || Next(w, e).workers[k] == w.workers[k]
    ensures Runs(Next(w, e).executed, k) == Runs(w.executed, k)
  {
    if e.Work? && e.k in w.workers {
      var m := WorkerMove(w.files, w.workers[e.k], w.lives, e.working);
      if m.ran {
        RunsSnoc(w.executed, Execution(e.k, m.worker), k);
      }
    }
  }

  // ---------------------------------------------------------------- the worker

  class JobWorker {
    const dir: JobDirectory
    var stage: Stage
    var record: Status
    var data: Option<Request>
    var abort: bool
    var checking: bool
    var timer: Timer
    var success: bool
    ghost const parent: nat
    ghost var life: Option<nat>
    ghost var consumed: Option<Request>
    ghost var skipped: bool
    ghost var cancelPresent: bool
    ghost var reported: Option<Outcome>

    ghost function View(): Worker
      reads this
    {
      Worker(parent, stage, life, record, data, consumed, abort, timer, skipped, cancelPresent, success, reported)
    }

    /** The flag says exactly that a look at the cancel file is outstanding, and only one ever is. */
    ghost predicate Valid()
      reads this
    {
      checking == View().IsChecking() && !(stage.Looking? && !timer.Idle?)
    }

    /** It is worker `k` of the world, and its directory is the world's. */
    ghost predicate At(w: World, k: nat)
      reads this, dir
    {
      Valid() && k in w.workers && w.workers[k] == View() && w.files == dir.View()
    }

    /** It has got from `before` to this world by a run of the machine, its own stretches each when due. */
    ghost predicate Along(before: World, events: seq<Event>, w: World, k: nat)
      reads this, dir
    {
      At(w, k) && Traced(before, events, w, k)
    }

    constructor (dir: JobDirectory, starter: nat)
      ensures this.dir == dir && Valid() && View() == NewWorker(starter)
    {
      this.dir, parent := dir, starter;
      stage, record, data, abort, checking, timer, success := Fresh, Status("", Starting), None, false, false, Idle, false;
      life, consumed, skipped, cancelPresent, reported := None, None, false, false, None;
    }

    // -------------------------------------------------------------- its stretches

    method Claim(ghost w: World, ghost k: nat)
      requires At(w, k) && stage.Fresh?
      modifies this`stage, this`life, dir`claimed
      ensures At(Next(w, Work(k, WorkerAction.Claim)), k)
      ensures stage.Claimed? || stage.Gone?
    {
      if !dir.present || dir.claimed {
        stage := Gone;
      } else {
        dir.claimed := true;
        stage, life := Claimed, Some(w.lives);
      }
    }

    method Load(ghost w: World, ghost k: nat)
      requires At(w, k) && stage.Claimed?
      modifies this`stage, this`record
      ensures At(Next(w, Work(k, WorkerAction.Load)), k)
      ensures stage.Loaded? || stage.Gone?
    {
      match dir.status
      case None => stage := Gone;
      case Some(found) => stage, record := Loaded, found;
    }

    method Fetch(ghost w: World, ghost k: nat)
      requires At(w, k) && stage.Loaded?
      modifies this`stage, this`data
      ensures At(Next(w, Work(k, WorkerAction.Fetch)), k)
      ensures stage.Fetched? || stage.Ended?
    {
      if dir.request.None? {
        stage := Ended;
      } else {
        stage, data := Fetched, dir.request;
      }
    }

    method Announce(ghost w: World, ghost k: nat)
      requires At(w, k) && stage.Fetched?
      modifies this`stage, this`record, dir`status
      ensures At(Next(w, Work(k, WorkerAction.Announce)), k)
      ensures stage.Announced? || stage.Ended?
    {
      record := record.(progress := Running);
      if dir.present {
        dir.status := Some(record);
        stage := Announced;
      } else {
        stage := Ended;
      }
    }

    method Consume(ghost w: World, ghost k: nat)
      requires At(w, k) && stage.Announced?
      modifies this`stage, this`consumed, dir`request
      ensures At(Next(w, Work(k, WorkerAction.Consume)), k)
      ensures stage.Consumed? || stage.Ended?
    {
      if dir.request.None? {
        stage := Ended;
      } else {
        consumed := dir.request;
        dir.request := None;
        stage := Consumed;
      }
    }

    /** The explicit check; it returns at once when the timer's look is outstanding. */
    method Check(ghost w: World, ghost k: nat)
      requires At(w, k) && stage.Consumed?
      modifies this`stage, this`checking, this`skipped, this`cancelPresent
      ensures At(Next(w, Work(k, WorkerAction.Check)), k)
      ensures if old(checking) then stage.Checked? else stage.Looking?
    {
      if checking {
        skipped, cancelPresent := true, dir.cancel;
        stage := Checked;
      } else {
        checking := true;
        stage := Looking;
      }
    }

    method LookNow(ghost w: World, ghost k: nat)
      requires At(w, k) && stage.Looking?
      modifies this`stage, this`abort, this`checking, this`cancelPresent
      ensures At(Next(w, Work(k, WorkerAction.LookNow)), k)
      ensures stage.Checked?
    {
      abort := abort || dir.cancel;
      cancelPresent := dir.cancel;
      checking := false;
      stage := Checked;
    }

    /** `ran` says that `execute` is called. */
    method Decide(ghost w: World, ghost k: nat) returns (ran: bool)
      requires At(w, k) && stage.Checked?
      modifies this`stage
      ensures At(Next(w, Work(k, WorkerAction.Decide)), k)
      ensures ran == stage.Executing? && (!ran ==> stage.Ended?)
      ensures Runs(Next(w, Work(k, WorkerAction.Decide)).executed, k) == Runs(w.executed, k) + if ran then 1 else 0
    {
      ran := !abort;
      stage := if abort then Ended else Executing;
      RunsSnoc(w.executed, Execution(k, View()), k);
    }

    method Return(ghost w: World, ghost k: nat, succeeds: bool)
      requires At(w, k) && stage.Executing?
      modifies this`stage, this`success
      ensures At(Next(w, Work(k, WorkerAction.Return(succeeds))), k)
      ensures stage.Ended? && success == succeeds
    {
      stage, success := Ended, succeeds;
    }

    /** What is awaited throws, and the exception is caught. */
    method Fault(ghost w: World, ghost k: nat)
      requires At(w, k) && InTry(stage) && !stage.Looking?
      modifies this`stage
      ensures At(Next(w, Work(k, WorkerAction.Fault)), k)
      ensures stage.Ended?
    {
      stage := Ended;
    }

    method Conclude(ghost w: World, ghost k: nat)
      requires At(w, k) && stage.Ended?
      modifies this`stage, this`reported, dir`status
      ensures At(Next(w, Work(k, WorkerAction.Conclude)), k)
      ensures stage.Finished? || stage.Gone?
      ensures stage.Finished? ==> reported == Some(OutcomeOf(abort, success))
      ensures stage.Gone? ==> reported == old(reported)
    {
      if !dir.present {
        stage := Gone;
        return;
      }
      var outcome := OutcomeOf(abort, success);
      dir.status := Some(record.(progress := Done(outcome)));
      reported := Some(outcome);
      stage := Finished;
    }

    method Sweep(ghost w: World, ghost k: nat)
      requires At(w, k) && stage.Finished?
      modifies this`stage, dir`request
      ensures At(Next(w, Work(k, WorkerAction.Sweep)), k)
      ensures stage.Gone?
    {
      dir.request := None;
      stage := Gone;
    }

    // -------------------------------------------------------------- its callbacks

    /** The interval timer fires; a check that is outstanding makes it return at once. */
    method Tick(ghost w: World, ghost k: nat)
      requires At(w, k) && InTry(stage)
      modifies this`checking, this`timer
      ensures At(Next(w, Handle(k, Handler.Tick)), k)
    {
      if !checking {
        checking := true;
        timer := Asked;
      }
    }

    method TickLook(ghost w: World, ghost k: nat)
      requires At(w, k) && timer.Asked?
      modifies this`timer
      ensures At(Next(w, Handle(k, Handler.TickLook)), k)
    {
      timer := Seen(dir.cancel);
    }

    method TickDone(ghost w: World, ghost k: nat)
      requires At(w, k) && timer.Seen?
      modifies this`abort, this`checking, this`timer
      ensures At(Next(w, Handle(k, Handler.TickDone)), k) && (old(abort) ==> abort)
    {
      abort := abort || timer.present;
      timer := Idle;
      checking := false;
    }

    method Signal(ghost w: World, ghost k: nat)
      requires At(w, k) && InTry(stage)
      modifies this`abort
      ensures At(Next(w, Handle(k, Handler.Signal)), k) && abort
    {
      abort := true;
    }

    /** A callback that is not installed, or has no look in flight, does not come. */
    method Callback(ghost w: World, ghost k: nat, h: Handler)
      requires At(w, k)
      modifies this`abort, this`checking, this`timer
      ensures At(Next(w, Handle(k, h)), k) && (old(abort) ==> abort)
    {
      if h.Tick? && InTry(stage) {
        Tick(w, k);
      } else if h.TickLook? && timer.Asked? {
        TickLook(w, k);
      } else if h.TickDone? && timer.Seen? {
        TickDone(w, k);
      } else if h.Signal? && InTry(stage) {
        Signal(w, k);
      }
    }

    // -------------------------------------------------------------- the whole of `runJob`

    /** A stretch up to the removal of the request file, as a step of the machine. */
    method Advance(k: nat, ghost before: World, ghost past: seq<Event>, w: World, a: WorkerAction)
      returns (after: World, ghost events: seq<Event>)
      requires Along(before, past, w, k) && Due(stage, a)
      requires a.Claim? || a.Load? || a.Fetch? || a.Announce? || a.Consume? || (a.Fault? && !stage.Looking?)
      modifies this`stage, this`life, this`record, this`data, this`consumed, dir
      ensures Along(before, events, after, k) && Leads(a, stage)
      ensures Runs(after.executed, k) == Runs(w.executed, k)
    {
      TracedStep(before, past, w, k, Work(k, a));
      OnlyDecideRuns(w, k, a);
      match a {
        case Claim => Claim(w, k);
        case Load => Load(w, k);
        case Fetch => Fetch(w, k);
        case Announce => Announce(w, k);
        case Consume => Consume(w, k);
        case Fault => Fault(w, k);
      }
      after, events := Next(w, Work(k, a)), past + [Work(k, a)];
    }

    /** The explicit look at the cancel file. */
    method Look(k: nat, ghost before: World, ghost past: seq<Event>, w: World, meanwhile: seq<Event>)
      returns (after: World, ghost events: seq<Event>)
      requires Along(before, past, w, k) && stage.Consumed? && AllElsewhere(meanwhile, k)
      modifies this`stage, this`abort, this`checking, this`timer, this`skipped, this`cancelPresent, dir
      ensures Along(before, events, after, k) && stage.Checked?
      ensures Runs(after.executed, k) == Runs(w.executed, k)
    {
      TracedStep(before, past, w, k, Work(k, WorkerAction.Check));
      OnlyDecideRuns(w, k, WorkerAction.Check);
      Check(w, k);
      after, events := Next(w, Work(k, WorkerAction.Check)), past + [Work(k, WorkerAction.Check)];
      if stage.Looking? {
        // The look itself cannot throw: whatever it meets but a missing file aborts.
        after, events := Await(k, before, events, after, meanwhile);
        TracedStep(before, events, after, k, Work(k, WorkerAction.LookNow));
        OnlyDecideRuns(after, k, WorkerAction.LookNow);
        LookNow(after, k);
        after, events := Next(after, Work(k, WorkerAction.LookNow)), events + [Work(k, WorkerAction.LookNow)];
      }
    }

    /** The decision, and the call of `execute` that it may lead to. */
    method Execute(k: nat, ghost before: World, ghost past: seq<Event>, w: World, pause: Pause, succeeds: bool)
      returns (after: World, ran: bool, returned: bool, ghost events: seq<Event>)
      requires Along(before, past, w, k) && stage.Checked? && !success && AllElsewhere(pause.meanwhile, k)
      modifies this, dir
      ensures Along(before, events, after, k) && stage.Ended?
      ensures Runs(after.executed, k) == Runs(w.executed, k) + if ran then 1 else 0
      ensures (returned ==> ran) && (success <==> returned && succeeds) && reported == old(reported)
    {
      TracedStep(before, past, w, k, Work(k, WorkerAction.Decide));
      ran := Decide(w, k);
      after, events := Next(w, Work(k, WorkerAction.Decide)), past + [Work(k, WorkerAction.Decide)];
      returned := false;
      if ran {
        after, events := Trying(k, before, events, after, pause);
        if stage.Executing? {
          after, events := Finish(k, before, events, after, WorkerAction.Return(succeeds));
          returned := true;
        }
      }
    }

    /** A stretch after the call of `execute`, as a step of the machine. */
    method Finish(k: nat, ghost before: World, ghost past: seq<Event>, w: World, a: WorkerAction)
      returns (after: World, ghost events: seq<Event>)
      requires Along(before, past, w, k) && Due(stage, a)
      requires a.Return? || a.Conclude? || a.Sweep?
      modifies this`stage, this`success, this`reported, dir
      ensures Along(before, events, after, k) && Leads(a, stage)
      ensures Runs(after.executed, k) == Runs(w.executed, k)
      ensures success == if a.Return? then a.success else old(success)
      ensures reported == if a.Conclude? && stage.Finished? then Some(OutcomeOf(abort, success)) else old(reported)
    {
      TracedStep(before, past, w, k, Work(k, a));
      OnlyDecideRuns(w, k, a);
      match a {
        case Return(succeeds) => Return(w, k, succeeds);
        case Conclude => Conclude(w, k);
        case Sweep => Sweep(w, k);
      }
      after, events := Next(w, Work(k, a)), past + [Work(k, a)];
    }

    /** One await: the callbacks of this worker and the steps of everybody else; the stage stays. */
    method Await(k: nat, ghost before: World, ghost past: seq<Event>, w: World, meanwhile: seq<Event>)
      returns (after: World, ghost events: seq<Event>)
      requires Along(before, past, w, k) && AllElsewhere(meanwhile, k)
      modifies this`abort, this`checking, this`timer, dir
      ensures Along(before, events, after, k) && events == past + meanwhile
      ensures Runs(after.executed, k) == Runs(w.executed, k) && (old(abort) ==> abort)
    {
      after, events := w, past;
      for n := 0 to |meanwhile|
        invariant Along(before, events, after, k) && events == past + meanwhile[..n]
        invariant Runs(after.executed, k) == Runs(w.executed, k) && (old(abort) ==> abort)
      {
        var e := meanwhile[n];
        ElsewhereKeeps(after, e, k);
        TracedStep(before, events, after, k, e);
        if e.Handle? && e.k == k {
          Callback(after, k, e.handler);
        } else {
          dir.Become(Next(after, e).files);
        }
        after, events := Next(after, e), events + [e];
      }
    }

    /** One await inside the `try` block. */
    method Trying(k: nat, ghost before: World, ghost past: seq<Event>, w: World, pause: Pause)
      returns (after: World, ghost events: seq<Event>)
      requires Along(before, past, w, k) && AllElsewhere(pause.meanwhile, k)
      requires InTry(stage) && !stage.Looking?
      modifies this`stage, this`life, this`record, this`data, this`consumed, this`abort, this`checking, this`timer, dir
      ensures Along(before, events, after, k) && Runs(after.executed, k) == Runs(w.executed, k)
      ensures if pause.fault then stage.Ended? else stage == old(stage)
    {
      after, events := Await(k, before, past, w, pause.meanwhile);
      if pause.fault {
        after, events := Advance(k, before, events, after, WorkerAction.Fault);
      }
    }

    /** Before the `try` block: the claim and the record. */
    method Enter(k: nat, w: World, pauses: nat -> Pause)
      returns (after: World, ghost events: seq<Event>)
      requires At(w, k) && stage.Fresh?
      requires forall n :: AllElsewhere(pauses(n).meanwhile, k)
      modifies this`stage, this`life, this`record, this`data, this`consumed, this`abort, this`checking, this`timer, dir
      ensures Along(w, events, after, k) && Runs(after.executed, k) == Runs(w.executed, k)
      ensures stage.Loaded? || stage.Gone?
    {
      after, events := Await(k, w, [], w, pauses(0).meanwhile);
      after, events := Advance(k, w, events, after, WorkerAction.Claim);
      if stage.Claimed? {
        after, events := Await(k, w, events, after, pauses(1).meanwhile);
        after, events := Advance(k, w, events, after, WorkerAction.Load);
      }
    }

    /** The first half of the `try` block: up to the removal of the request file. */
    method Take(k: nat, ghost before: World, ghost past: seq<Event>, w: World, pauses: nat -> Pause)
      returns (after: World, ghost events: seq<Event>)
      requires Along(before, past, w, k) && stage.Loaded?
      requires forall n :: AllElsewhere(pauses(n).meanwhile, k)
      modifies this`stage, this`life, this`record, this`data, this`consumed, this`abort, this`checking, this`timer, dir
      ensures Along(before, events, after, k) && Runs(after.executed, k) == Runs(w.executed, k)
      ensures stage.Consumed? || stage.Ended?
    {
      after, events := w, past;
      after, events := Trying(k, before, events, after, pauses(2));
      if stage.Ended? {
        return;
      }
      after, events := Advance(k, before, events, after, WorkerAction.Fetch);
      if stage.Ended? {
        return;
      }
      after, events := Trying(k, before, events, after, pauses(3));
      if stage.Ended? {
        return;
      }
      after, events := Advance(k, before, events, after, WorkerAction.Announce);
      if stage.Ended? {
        return;
      }
      after, events := Trying(k, before, events, after, pauses(4));
      if stage.Ended? {
        return;
      }
      after, events := Advance(k, before, events, after, WorkerAction.Consume);
    }

    /** After the `finally` block: the outcome is reported if the directory is still there. */
    method Report(k: nat, ghost before: World, ghost past: seq<Event>, w: World, pauses: nat -> Pause)
      returns (after: World, ghost events: seq<Event>)
      requires Along(before, past, w, k) && stage.Ended? && reported.None?
      requires forall n :: AllElsewhere(pauses(n).meanwhile, k)
      modifies this, dir
      ensures Along(before, events, after, k) && Runs(after.executed, k) == Runs(w.executed, k) && stage.Gone?
      ensures reported == Some(Succeeded) ==> success
      ensures reported == Some(Failed) ==> !success
      ensures reported == Some(Cancelled) ==> abort
      ensures success == old(success)
    {
      after, events := w, past;
      after, events := Await(k, before, events, after, pauses(8).meanwhile);
      after, events := Finish(k, before, events, after, WorkerAction.Conclude);
      if stage.Gone? {
        return;
      }
      after, events := Await(k, before, events, after, pauses(9).meanwhile);
      after, events := Finish(k, before, events, after, WorkerAction.Sweep);
    }

    /**
      The whole of `runJob`, whatever happens at its awaits.  It is a run of the machine in which every
      stretch of this worker comes when it is due; it calls `execute` at most once; and it reports a
      success only if that call returned one, and a failure only if it did not.
     */
    method RunJob(k: nat, w: World, pauses: nat -> Pause, succeeds: bool)
      returns (after: World, ran: bool, returned: bool, ghost events: seq<Event>)
      requires At(w, k) && View() == NewWorker(parent)
      requires forall n :: AllElsewhere(pauses(n).meanwhile, k)
      modifies this, dir
      ensures Along(w, events, after, k) && stage.Gone?
      ensures Runs(after.executed, k) == Runs(w.executed, k) + if ran then 1 else 0
      ensures returned ==> ran
      ensures reported == Some(Succeeded) ==> returned && succeeds
      ensures reported == Some(Failed) ==> !(returned && succeeds)
      ensures reported == Some(Cancelled) ==> abort
    {
      ghost var before := w;
      ran, returned := false, false;
      after, events := Enter(k, w, pauses);
      if stage.Gone? {
        return;
      }
      after, events := Take(k, before, events, after, pauses);
      if stage.Consumed? {
        after, events := Trying(k, before, events, after, pauses(5));
      }
      if stage.Consumed? {
        after, events := Look(k, before, events, after, pauses(6).meanwhile);
        after, ran, returned, events := Execute(k, before, events, after, pauses(7), succeeds);
      }
      after, events := Report(k, before, events, after, pauses);
    }
  }
}
