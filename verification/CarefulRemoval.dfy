/**
  Removal of a finished job, file by file.  A removal is begun when the status file shows a terminal
  state, takes every part once and in any order while everybody else goes on, and ends with the
  directory itself, whether that can be removed or not.  Then no worker reads a request that another
  one holds, so no reservation is executed twice.  A terminal status stays as long as the claim mark
  is not taken before it.
 */
module CarefulRemoval {
  import opened Wrappers
  import opened AtMostOnce
  import opened ReadOnce

  predicate Complete(f: Files) { f.status.Some? && f.status.value.progress.Done? }

  const PARTS: set<Part> := {StatusFile, RequestFile, ClaimedMark, CancelFile, Directory}

  /** What the removal under way has still to take; none if there is no removal under way. */
  function Todo(events: seq<Event>): Option<set<Part>> {
    if events == [] then None else Left(Todo(events[..|events| - 1]), events[|events| - 1])
  }

  function Left(todo: Option<set<Part>>, e: Event): Option<set<Part>> {
    match e
    case Remove(part) => if part.Directory? then None else Some((if todo.Some? then todo.value else PARTS) - {part})
    case _ => todo
  }

  /** A removal begins at a terminal state and takes each part once, the directory last; a record is rewritten only as it stands. */
  predicate Orderly(w: World, todo: Option<set<Part>>, e: Event) {
    match e
    case Remove(part) =>
      if todo.None? then Complete(w.files) && !part.Directory?
      else part in todo.value && (part.Directory? ==> todo.value == {Directory})
    case RemoveAll => todo.None? && Complete(w.files)
    case Rewrite(k) => k in w.workers && w.workers[k].reported.Some? ==> w.files.status == Some(w.workers[k].Report())
    case _ => true
  }

  predicate OrderlyRun(events: seq<Event>) {
    events == [] ||
    (var init := events[..|events| - 1]; OrderlyRun(init) && Orderly(Run(init), Todo(init), events[|events| - 1]))
  }

  // ---------------------------------------------------------------- what one step does to the status file

  ghost predicate WritesStatus(f: Files, k: Worker, m: Worked) {
    && (m.files.status == f.status
        || (2 <= k.Rank() <= 9 && m.files.status.Some? && (Complete(m.files) ==> !m.worker.InFlight())))
    && (m.worker.InFlight() && m.worker.Rank() >= 2 && k.Rank() < 2 ==> f.status.Some?)
  }

  lemma ApproachStatus(f: Files, k: Worker, life: nat, a: WorkerAction)
    requires k.Rank() <= 4
    ensures WritesStatus(f, k, Approach(f, k, life, a))
  {
  }

  lemma PerformStatus(f: Files, k: Worker, a: WorkerAction)
    requires k.Rank() > 4
    ensures WritesStatus(f, k, Perform(f, k, a))
  {
  }

  lemma MoveStatus(f: Files, k: Worker, life: nat, a: WorkerAction)
    ensures WritesStatus(f, k, WorkerMove(f, k, life, a))
  {
    if !a.Fault? && k.Rank() <= 4 {
      ApproachStatus(f, k, life, a);
    } else if !a.Fault? {
      PerformStatus(f, k, a);
    }
  }

  lemma HandledStatus(f: Files, k: Worker, h: Handler)
    ensures WritesStatus(f, k, Worked(f, Handled(f, k, h), false))
  {
  }

  ghost predicate StartsStatus(f: Files, s: Starter, m: Started) {
    && (m.files.status == f.status || m.reserved || (s.Recording? && m.files.status.Some? && !Complete(m.files)))
    && (m.starter.Recording? && !m.reserved ==> m.starter == s && m.files == f)
  }

  lemma StartStatus(f: Files, s: Starter, next: nat, a: StarterAction)
    ensures StartsStatus(f, s, StarterMove(f, s, next, a))
  {
  }

  // ---------------------------------------------------------------- the directory has one master

  ghost predicate Idle(w: World) { forall k | k in w.workers :: !w.workers[k].InFlight() }

  /** The removal under way has taken the part. */
  predicate Taken(todo: Option<set<Part>>, part: Part) { todo.Some? && part !in todo.value }

  /**
    Whoever is in flight owns the directory as it stands.  A finished directory is claimed and has
    nobody in flight, unless a removal has taken the claim mark and left the status file.
   */
  ghost predicate OneMaster(w: World, todo: Option<set<Part>>) {
    && (forall k | k in w.workers && w.workers[k].InFlight() :: w.files.present && w.workers[k].life == Some(w.lives))
    && (todo.Some? ==> w.files.present && Directory in todo.value)
    && (todo.Some? && !Taken(todo, ClaimedMark) ==> w.files.claimed && Idle(w))
    && (Complete(w.files) && (Taken(todo, ClaimedMark) ==> Taken(todo, StatusFile)) ==> w.files.claimed && Idle(w))
    && (Taken(todo, StatusFile) && !Taken(todo, ClaimedMark) ==> w.files.status.None?)
  }

  ghost predicate Recorders(w: World, todo: Option<set<Part>>) {
    forall s | s in w.starters && w.starters[s].Recording? ::
      && todo.None? && w.files.present && w.starters[s].entry == |w.entries| - 1 && w.files.status.None?
      && forall k | k in w.workers && w.workers[k].InFlight() :: w.workers[k].Rank() < 2
  }

  ghost predicate Tidy(w: World, todo: Option<set<Part>>) {
    OneMaster(w, todo) && Recorders(w, todo)
  }

  lemma OnlyOneInFlight(w: World, todo: Option<set<Part>>, j: nat, k: nat)
    requires Claims(w) && OneMaster(w, todo) && j in w.workers && k in w.workers
    requires w.workers[j].InFlight() && w.workers[k].InFlight()
    ensures j == k
  {
    assert w.workers[j].life == w.workers[k].life == Some(w.lives);
  }

  // ---------------------------------------------------------------- a worker's step

  lemma WorkOneMaster(w: World, todo: Option<set<Part>>, k: nat, m: Worked)
    requires Inv(w) && OneMaster(w, todo) && k in w.workers
    requires Legal(w.files, w.workers[k], w.lives, m) && WritesStatus(w.files, w.workers[k], m)
    ensures OneMaster(AfterWork(w, k, m), todo)
  {
    if w.workers[k].InFlight() {
      forall j | j in w.workers && j != k
        ensures !w.workers[j].InFlight()
      {
        if w.workers[j].InFlight() {
          OnlyOneInFlight(w, todo, j, k);
        }
      }
      assert w.files.claimed;
    }
  }

  lemma WorkRecorders(w: World, todo: Option<set<Part>>, k: nat, m: Worked)
    requires Recorders(w, todo) && k in w.workers && w.workers[k].Sound()
    requires Legal(w.files, w.workers[k], w.lives, m) && WritesStatus(w.files, w.workers[k], m)
    ensures Recorders(AfterWork(w, k, m), todo)
  {
  }

  lemma MovedTidy(w: World, todo: Option<set<Part>>, k: nat, m: Worked)
    requires Inv(w) && Tidy(w, todo) && k in w.workers
    requires Legal(w.files, w.workers[k], w.lives, m) && WritesStatus(w.files, w.workers[k], m)
    ensures Tidy(AfterWork(w, k, m), todo)
  {
    WorkOneMaster(w, todo, k, m);
    WorkRecorders(w, todo, k, m);
  }

  lemma MovedStatus(w: World, k: nat, a: WorkerAction) returns (m: Worked)
    requires Inv(w) && k in w.workers
    ensures Next(w, Work(k, a)) == AfterWork(w, k, m)
    ensures Legal(w.files, w.workers[k], w.lives, m) && WritesStatus(w.files, w.workers[k], m)
  {
    MoveLegal(w.files, w.workers[k], w.lives, a);
    MoveStatus(w.files, w.workers[k], w.lives, a);
    m := WorkerMove(w.files, w.workers[k], w.lives, a);
  }

  lemma WorkTidy(w: World, todo: Option<set<Part>>, k: nat, a: WorkerAction)
    requires Inv(w) && Tidy(w, todo)
    ensures Tidy(Next(w, Work(k, a)), todo)
  {
    if k in w.workers {
      var m := MovedStatus(w, k, a);
      MovedTidy(w, todo, k, m);
    }
  }

  lemma HandleTidy(w: World, todo: Option<set<Part>>, k: nat, h: Handler)
    requires Inv(w) && Tidy(w, todo)
    ensures Tidy(Next(w, Handle(k, h)), todo)
  {
    if k in w.workers {
      HandledLegal(w.files, w.workers[k], w.lives, h);
      HandledStatus(w.files, w.workers[k], h);
      MovedTidy(w, todo, k, Worked(w.files, Handled(w.files, w.workers[k], h), false));
    }
  }

  // ---------------------------------------------------------------- a starter's step

  lemma StartOneMaster(w: World, todo: Option<set<Part>>, s: nat, m: Started)
    requires Inv(w) && OneMaster(w, todo) && Recorders(w, todo) && s in w.starters
    requires LegalStart(w.files, w.starters[s], |w.entries|, m) && StartsStatus(w.files, w.starters[s], m)
    ensures OneMaster(AfterStart(w, s, m), todo)
  {
  }

  lemma OnlyOneRecorder(w: World, todo: Option<set<Part>>, s: nat, other: nat)
    requires Owners(w) && Recorders(w, todo) && s in w.starters && other in w.starters
    requires w.starters[s].Recording? && w.starters[other].Recording?
    ensures s == other
  {
    assert w.entries[|w.entries| - 1] == Reservation(s, w.starters[s].hash);
  }

  lemma StartRecorders(w: World, todo: Option<set<Part>>, s: nat, m: Started)
    requires Inv(w) && OneMaster(w, todo) && Recorders(w, todo) && s in w.starters
    requires LegalStart(w.files, w.starters[s], |w.entries|, m) && StartsStatus(w.files, w.starters[s], m)
    ensures Recorders(AfterStart(w, s, m), todo)
  {
    var after := AfterStart(w, s, m);
    forall other | other in after.starters && after.starters[other].Recording? && other != s
      ensures !m.reserved && !w.starters[s].Recording?
    {
      if w.starters[s].Recording? {
        OnlyOneRecorder(w, todo, s, other);
      }
    }
  }

  lemma StepTidy(w: World, todo: Option<set<Part>>, s: nat, a: StarterAction)
    requires Inv(w) && Tidy(w, todo)
    ensures Tidy(Next(w, Step(s, a)), todo)
  {
    if s in w.starters {
      var m := StarterMove(w.files, w.starters[s], |w.entries|, a);
      StartLegal(w.files, w.starters[s], |w.entries|, a);
      StartStatus(w.files, w.starters[s], |w.entries|, a);
      StartOneMaster(w, todo, s, m);
      StartRecorders(w, todo, s, m);
    }
  }

  lemma CallTidy(w: World, todo: Option<set<Part>>, s: nat, hash: Hash)
    requires Tidy(w, todo)
    ensures Tidy(Next(w, Call(s, hash)), todo)
  {
  }

  lemma SpawnTidy(w: World, todo: Option<set<Part>>, s: nat, k: nat)
    requires Tidy(w, todo)
    ensures Tidy(Next(w, Spawn(s, k)), todo)
  {
  }

  // ---------------------------------------------------------------- a removal's step

  lemma RemoveOneMaster(w: World, todo: Option<set<Part>>, part: Part)
    requires Inv(w) && OneMaster(w, todo) && Orderly(w, todo, Remove(part))
    ensures OneMaster(Next(w, Remove(part)), Left(todo, Remove(part)))
  {
    assert Next(w, Remove(part)).workers == w.workers;
    if part.Directory? && w.files == RESERVED {
      forall k | k in w.workers
        ensures !w.workers[k].InFlight()
      {
      }
    }
  }

  lemma RemoveRecorders(w: World, todo: Option<set<Part>>, part: Part)
    requires Recorders(w, todo) && Orderly(w, todo, Remove(part))
    ensures Recorders(Next(w, Remove(part)), Left(todo, Remove(part)))
  {
  }

  lemma RemoveTidy(w: World, todo: Option<set<Part>>, part: Part)
    requires Inv(w) && Tidy(w, todo) && Orderly(w, todo, Remove(part))
    ensures Tidy(Next(w, Remove(part)), Left(todo, Remove(part)))
  {
    RemoveOneMaster(w, todo, part);
    RemoveRecorders(w, todo, part);
  }

  lemma RemoveAllTidy(w: World, todo: Option<set<Part>>)
    requires Inv(w) && Tidy(w, todo) && Orderly(w, todo, RemoveAll)
    ensures Tidy(Next(w, RemoveAll), todo)
  {
  }

  lemma NextTidy(w: World, todo: Option<set<Part>>, e: Event)
    requires Inv(w) && Tidy(w, todo) && Orderly(w, todo, e)
    ensures Tidy(Next(w, e), Left(todo, e))
  {
    match e
    case Step(s, a) => StepTidy(w, todo, s, a);
    case Work(k, a) => WorkTidy(w, todo, k, a);
    case Handle(k, h) => HandleTidy(w, todo, k, h);
    case Call(s, hash) => CallTidy(w, todo, s, hash);
    case Spawn(s, k) => SpawnTidy(w, todo, s, k);
    case Remove(part) => RemoveTidy(w, todo, part);
    case RemoveAll => RemoveAllTidy(w, todo);
    case PlaceCancel =>
    case Rewrite(_) =>
  }

  lemma {:induction false} OrderlyRunTidy(events: seq<Event>)
    requires OrderlyRun(events)
    ensures Tidy(Run(events), Todo(events))
  {
    if events != [] {
      var init := events[..|events| - 1];
      OrderlyRunTidy(init);
      EveryRunInv(init);
      NextTidy(Run(init), Todo(init), events[|events| - 1]);
    }
  }

  // ---------------------------------------------------------------- no reservation twice

  /** Whoever holds a request that is on disk is in flight, and only one worker is: a late one finds the request gone. */
  lemma OrderlyFetchesOnce(w: World, todo: Option<set<Part>>, e: Event)
    requires Claims(w) && OneMaster(w, todo) && Unspent(w)
    ensures !Refetches(w, e)
  {
    if Refetches(w, e) {
      var j :| j in w.workers && j != e.k && Holds(w, j, w.files.request.value.entry);
      OnlyOneInFlight(w, todo, j, e.k);
    }
  }

  lemma {:induction false} OrderlyNeverRefetches(events: seq<Event>)
    requires OrderlyRun(events)
    ensures NeverRefetches(events)
  {
    if events != [] {
      var init := events[..|events| - 1];
      OrderlyNeverRefetches(init);
      EveryRunInv(init);
      OrderlyRunTidy(init);
      OneHolderIff(init);
      OrderlyFetchesOnce(Run(init), Todo(init), events[|events| - 1]);
    }
  }

  /** Under orderly removal, however it is interleaved with late workers and stores, no reservation is executed twice. */
  lemma ReservationRunsOnce(events: seq<Event>, i: nat, j: nat)
    requires OrderlyRun(events) && i < j < |Run(events).executed|
    ensures Run(events).executed[i].worker.data.Some? && Run(events).executed[j].worker.data.Some?
    ensures Run(events).executed[i].worker.data.value.entry != Run(events).executed[j].worker.data.value.entry
  {
    OrderlyNeverRefetches(events);
    ReadOnce.ReservationRunsOnce(events, i, j);
  }

  /** In any run, a reservation that is executed twice is executed by a worker that took the file of another reservation. */
  lemma TwiceTakesAnotherFile(events: seq<Event>, i: nat, j: nat)
    requires i < j < |Run(events).executed|
    requires Run(events).executed[i].worker.data == Run(events).executed[j].worker.data
    ensures var a, b := Run(events).executed[i].worker, Run(events).executed[j].worker;
            a.consumed != a.data || b.consumed != b.data
  {
    NeverTwice(events, i, j);
  }

  // ---------------------------------------------------------------- terminal states

  /** The removal under way has taken the claim mark before the status file. */
  predicate Exposed(todo: Option<set<Part>>) { Taken(todo, ClaimedMark) && !Taken(todo, StatusFile) }

  lemma StatusKept(w: World, todo: Option<set<Part>>, e: Event)
    requires Inv(w) && Tidy(w, todo) && Complete(w.files) && Orderly(w, todo, e) && !e.Remove? && !e.RemoveAll?
    requires Exposed(todo) ==> Idle(w)
    ensures Next(w, e).files.status == w.files.status
  {
    match e
    case Step(s, a) =>
      if s in w.starters {
        StartLegal(w.files, w.starters[s], |w.entries|, a);
        StartStatus(w.files, w.starters[s], |w.entries|, a);
      }
    case Work(k, a) =>
      if k in w.workers {
        MoveStatus(w.files, w.workers[k], w.lives, a);
        assert !w.workers[k].InFlight();
      }
    case _ =>
  }

  /**
    A terminal status stays as it is until it is removed, whoever starts, launches, cancels or
    finishes late, as long as no removal takes the claim mark before it.
   */
  lemma TerminalIsFinal(events: seq<Event>, e: Event)
    requires OrderlyRun(events + [e]) && Complete(Run(events).files) && !e.Remove? && !e.RemoveAll?
    requires !Exposed(Todo(events))
    ensures Next(Run(events), e).files.status == Run(events).files.status
  {
    assert (events + [e])[..|events|] == events;
    EveryRunInv(events);
    OrderlyRunTidy(events);
    StatusKept(Run(events), Todo(events), e);
  }

  /** A worker that has not begun claims, loads the terminal record, finds no request, and reports a failure. */
  function Overtaken(w: World, k: nat): World {
    Next(Next(Next(Next(w, Work(k, Claim)), Work(k, Load)), Work(k, Fetch)), Work(k, Conclude))
  }

  /** Once the claim mark is gone, a worker launched late replaces the terminal state, unless it was a failure already. */
  lemma LateWorkerOvertakesIff(w: World, k: nat)
    requires Complete(w.files) && w.files.present && !w.files.claimed && w.files.request.None?
    requires k in w.workers && w.workers[k].stage.Fresh? && !w.workers[k].abort && !w.workers[k].success
    ensures Overtaken(w, k).files.status == w.files.status <==> w.files.status.value.progress.outcome.Failed?
    ensures Complete(Overtaken(w, k).files) && Overtaken(w, k).files.status.value.progress.outcome.Failed?
  {
    var claimed := Next(w, Work(k, Claim));
    assert claimed.files.status == w.files.status && claimed.workers[k].stage.Claimed?;
    var loaded := Next(claimed, Work(k, Load));
    assert loaded.workers[k].record == w.files.status.value;
    var ended := Next(loaded, Work(k, Fetch));
    assert ended.workers[k].stage.Ended? && ended.files == loaded.files;
  }

  // ---------------------------------------------------------------- repeated starts

  /** The status file, and whoever is going to rewrite it, speak of the current reservation. */
  ghost predicate Labelled(w: World) {
    && (w.files.status.Some? ==> w.entries != [] && w.files.status.value.hash == w.entries[|w.entries| - 1].hash)
    && (forall k | k in w.workers && w.workers[k].InFlight() && w.workers[k].Rank() >= 2 ::
          w.entries != [] && w.workers[k].record.hash == w.entries[|w.entries| - 1].hash)
  }

  ghost predicate CopiesHash(f: Files, k: Worker, m: Worked) {
    && (m.worker.record.hash == k.record.hash
        || (k.stage.Claimed? && f.status.Some? && m.worker.record.hash == f.status.value.hash))
    && (m.worker.InFlight() && m.worker.Rank() >= 2 && k.Rank() < 2 ==> f.status.Some? && m.worker.record.hash == f.status.value.hash)
    && (m.files.status == f.status || (m.files.status.Some? && m.files.status.value.hash == k.record.hash))
  }

  lemma ApproachCopies(f: Files, k: Worker, life: nat, a: WorkerAction)
    requires k.Rank() <= 4
    ensures CopiesHash(f, k, Approach(f, k, life, a))
  {
  }

  lemma PerformCopies(f: Files, k: Worker, a: WorkerAction)
    requires k.Rank() > 4
    ensures CopiesHash(f, k, Perform(f, k, a))
  {
  }

  lemma MoveCopies(f: Files, k: Worker, life: nat, a: WorkerAction)
    ensures CopiesHash(f, k, WorkerMove(f, k, life, a))
  {
    if !a.Fault? && k.Rank() <= 4 {
      ApproachCopies(f, k, life, a);
    } else if !a.Fault? {
      PerformCopies(f, k, a);
    }
  }

  lemma HandledCopies(f: Files, k: Worker, h: Handler)
    ensures CopiesHash(f, k, Worked(f, Handled(f, k, h), false))
  {
  }

  lemma WorkLabelled(w: World, k: nat, m: Worked)
    requires Labelled(w) && k in w.workers && CopiesHash(w.files, w.workers[k], m)
    requires Legal(w.files, w.workers[k], w.lives, m) && WritesStatus(w.files, w.workers[k], m)
    ensures Labelled(AfterWork(w, k, m))
  {
  }

  lemma StepHash(f: Files, s: Starter, next: nat, a: StarterAction)
    ensures var m := StarterMove(f, s, next, a);
            m.files.status == f.status || m.reserved || (s.Recording? && m.files.status == Some(Status(s.hash, Starting)))
  {
  }

  lemma StartLabelled(w: World, todo: Option<set<Part>>, s: nat, m: Started)
    requires Owners(w) && OneMaster(w, todo) && Recorders(w, todo) && Labelled(w) && s in w.starters
    requires LegalStart(w.files, w.starters[s], |w.entries|, m)
    requires m.files.status == w.files.status || m.reserved
             || (w.starters[s].Recording? && m.files.status == Some(Status(w.starters[s].hash, Starting)))
    ensures Labelled(AfterStart(w, s, m))
  {
  }

  lemma StepLabelled(w: World, todo: Option<set<Part>>, s: nat, a: StarterAction)
    requires Inv(w) && Tidy(w, todo) && Labelled(w)
    ensures Labelled(Next(w, Step(s, a)))
  {
    if s in w.starters {
      StartLegal(w.files, w.starters[s], |w.entries|, a);
      StepHash(w.files, w.starters[s], |w.entries|, a);
      StartLabelled(w, todo, s, StarterMove(w.files, w.starters[s], |w.entries|, a));
    }
  }

  lemma MoveLabelled(w: World, k: nat, a: WorkerAction)
    requires Inv(w) && Labelled(w)
    ensures Labelled(Next(w, Work(k, a)))
  {
    if k in w.workers {
      MoveLegal(w.files, w.workers[k], w.lives, a);
      MoveStatus(w.files, w.workers[k], w.lives, a);
      MoveCopies(w.files, w.workers[k], w.lives, a);
      WorkLabelled(w, k, WorkerMove(w.files, w.workers[k], w.lives, a));
    }
  }

  lemma HandleLabelled(w: World, k: nat, h: Handler)
    requires Inv(w) && Labelled(w)
    ensures Labelled(Next(w, Handle(k, h)))
  {
    if k in w.workers {
      HandledLegal(w.files, w.workers[k], w.lives, h);
      HandledStatus(w.files, w.workers[k], h);
      HandledCopies(w.files, w.workers[k], h);
      WorkLabelled(w, k, Worked(w.files, Handled(w.files, w.workers[k], h), false));
    }
  }

  lemma NextLabelled(w: World, todo: Option<set<Part>>, e: Event)
    requires Inv(w) && Tidy(w, todo) && Labelled(w) && Orderly(w, todo, e)
    ensures Labelled(Next(w, e))
  {
    match e
    case Step(s, a) => StepLabelled(w, todo, s, a);
    case Work(k, a) => MoveLabelled(w, k, a);
    case Handle(k, h) => HandleLabelled(w, k, h);
    case _ => OthersLabelled(w, todo, e);
  }

  lemma OthersLabelled(w: World, todo: Option<set<Part>>, e: Event)
    requires Labelled(w) && Orderly(w, todo, e) && !e.Step? && !e.Work? && !e.Handle?
    ensures Labelled(Next(w, e))
  {
    assert Next(w, e).entries == w.entries;
    assert Next(w, e).files.status == w.files.status || Next(w, e).files.status.None?;
  }

  lemma {:induction false} OrderlyRunLabelled(events: seq<Event>)
    requires OrderlyRun(events)
    ensures Labelled(Run(events))
  {
    if events != [] {
      OrderlyRunLabelled(events[..|events| - 1]);
      OrderlyRunTidy(events[..|events| - 1]);
      EveryRunInv(events[..|events| - 1]);
      NextLabelled(Run(events[..|events| - 1]), Todo(events[..|events| - 1]), events[|events| - 1]);
    }
  }

  /** A start that finds a status retrieves the job exactly when it asks for what was reserved, and conflicts otherwise. */
  lemma RepeatedStartRetrieves(events: seq<Event>, s: nat)
    requires OrderlyRun(events) && s in Run(events).starters && Run(events).starters[s].Checking?
    requires Run(events).files.status.Some?
    ensures var w := Run(events);
            var reserved, asked := w.entries, w.starters[s].hash;
            && reserved != []
            && Next(w, Step(s, Look)).starters[s] ==
               Denied(asked, if asked == reserved[|reserved| - 1].hash then Existing else Conflict)
  {
    OrderlyRunLabelled(events);
  }

  // ---------------------------------------------------------------- runs that go wrong

  predicate Removes(e: Event) { e.Remove? || e.RemoveAll? || e.Rewrite? }

  lemma {:induction false} QuietIsOrderly(events: seq<Event>)
    requires forall i | 0 <= i < |events| :: !Removes(events[i])
    ensures OrderlyRun(events) && Todo(events).None?
  {
    if events != [] {
      QuietIsOrderly(events[..|events| - 1]);
    }
  }

  /** Two workers are launched; the first executes the request and reports its success, the second has not begun. */
  function OneOfTwo(): seq<Event> { Starts(0, 0, "h") + [Spawn(0, 1)] + Fetches(0) + Takes(0) + (Executes(0) + Succeeds(0)) }

  lemma OneOfTwoSteps()
    ensures var w := Run(OneOfTwo());
            && w.files == Files(true, Some(Status("h", Done(Succeeded))), None, true, false)
            && 1 in w.workers && w.workers[1] == NewWorker(0)
  {
    StartSteps(EMPTY, 0, 0, "h");
    var started := From(EMPTY, Starts(0, 0, "h"));
    One(started, Spawn(0, 1));
    var both := From(started, [Spawn(0, 1)]);
    assert both.workers == started.workers[1 := NewWorker(0)] && both.files == started.files;
    FetchSteps(both, 0);
    var fetched := From(both, Fetches(0));
    TakeSteps(fetched, 0);
    var taken := From(fetched, Takes(0));
    FinishSteps(taken, 0);
    RunPhases(Starts(0, 0, "h"), [Spawn(0, 1)], Fetches(0), Takes(0), Executes(0) + Succeeds(0));
  }

  lemma FinishSteps(w: World, k: nat)
    requires k in w.workers && w.workers[k].stage.Consumed? && w.workers[k].timer.Idle? && w.files.present
    requires !w.workers[k].abort && !w.workers[k].cancelPresent && !w.files.cancel
    ensures var after := From(w, Executes(k) + Succeeds(k));
            && after.files == w.files.(status := Some(w.workers[k].record.(progress := Done(Succeeded))))
            && after.executed == w.executed + [Execution(k, w.workers[k].(stage := Executing))]
            && after.workers.Keys == w.workers.Keys && after.starters == w.starters && after.entries == w.entries && after.lives == w.lives
            && forall j | j in w.workers && j != k :: after.workers[j] == w.workers[j]
  {
    FromConcat(w, Executes(k), Succeeds(k));
    ExecuteSteps(w, k);
    SucceedSteps(From(w, Executes(k)), k);
  }

  lemma OvertakenRecord(w: World, k: nat)
    requires Complete(w.files) && w.files.present && !w.files.claimed && w.files.request.None?
    requires k in w.workers && w.workers[k].stage.Fresh? && !w.workers[k].abort && !w.workers[k].success
    ensures Overtaken(w, k).files.status == Some(w.files.status.value.(progress := Done(Failed)))
  {
    var claimed := Next(w, Work(k, Claim));
    assert claimed.files.status == w.files.status && claimed.workers[k].stage.Claimed?;
    var loaded := Next(claimed, Work(k, Load));
    assert loaded.workers[k].record == w.files.status.value;
    var ended := Next(loaded, Work(k, Fetch));
    assert ended.workers[k].stage.Ended? && ended.files == loaded.files;
  }

  /** An orderly removal that takes the claim mark first; a worker launched late turns the success into a failure. */
  lemma LateWorkerTurnsSuccessIntoFailure()
    ensures var events := OneOfTwo() + [Remove(ClaimedMark)];
            && OrderlyRun(events) && Run(events).files.status == Some(Status("h", Done(Succeeded)))
            && Overtaken(Run(events), 1).files.status == Some(Status("h", Done(Failed)))
  {
    var before := OneOfTwo();
    var events := before + [Remove(ClaimedMark)];
    OneOfTwoSteps();
    QuietIsOrderly(before);
    assert events[..|before|] == before;
    assert Run(events) == Next(Run(before), Remove(ClaimedMark));
    OvertakenRecord(Run(events), 1);
  }

  /** Files are removed only while the status file shows a terminal state. */
  predicate Timely(w: World, events: seq<Event>)
    decreases |events|
  {
    events == [] || ((Removes(events[0]) ==> Complete(w.files)) && Timely(Next(w, events[0]), events[1..]))
  }

  lemma {:induction false} QuietIsTimely(w: World, events: seq<Event>)
    requires forall i | 0 <= i < |events| :: !Removes(events[i])
    ensures Timely(w, events)
    decreases |events|
  {
    if events != [] {
      QuietIsTimely(Next(w, events[0]), events[1..]);
    }
  }

  lemma {:induction false} TimelyConcat(w: World, a: seq<Event>, b: seq<Event>)
    requires Timely(w, a) && Timely(From(w, a), b)
    ensures Timely(w, a + b)
    decreases |a|
  {
    if a == [] {
      assert a + b == b;
    } else {
      assert (a + b)[1..] == a[1..] + b;
      TimelyConcat(Next(w, a[0]), a[1..], b);
    }
  }

  lemma Then(w: World, a: seq<Event>, mid: World, b: seq<Event>, end: World)
    requires From(w, a) == mid && From(mid, b) == end && Timely(w, a) && Timely(mid, b)
    ensures From(w, a + b) == end && Timely(w, a + b)
  {
    FromConcat(w, a, b);
    TimelyConcat(w, a, b);
  }

  /** The first worker fails after reading the request; its report leaves the request on disk. */
  function Fails(k: nat): seq<Event> { Fetches(k) + [Work(k, Fault), Work(k, Conclude)] }

  lemma FailSteps(w: World, k: nat)
    requires k in w.workers && w.workers[k].stage.Fresh? && !w.workers[k].abort && !w.workers[k].success
    requires w.files.present && !w.files.claimed && w.files.status.Some? && w.files.request.Some?
    ensures var after := From(w, Fails(k));
            && after.files == w.files.(claimed := true, status := Some(w.files.status.value.(progress := Done(Failed))))
            && after.workers.Keys == w.workers.Keys && after.starters == w.starters && after.entries == w.entries
            && after.executed == w.executed
            && forall j | j in w.workers && j != k :: after.workers[j] == w.workers[j]
    ensures Timely(w, Fails(k))
  {
    FromConcat(w, Fetches(k), [Work(k, Fault), Work(k, Conclude)]);
    FetchSteps(w, k);
    var fetched := From(w, Fetches(k));
    Two(fetched, Work(k, Fault), Work(k, Conclude));
    assert Next(fetched, Work(k, Fault)) == fetched.(workers := fetched.workers[k := fetched.workers[k].(stage := Ended)]);
    QuietIsTimely(w, Fails(k));
  }

  /** The claim mark is removed, and another worker reads the same request. */
  function Rereads(k: nat): seq<Event> { [Remove(ClaimedMark)] + Fetches(k) }

  lemma RereadSteps(w: World, k: nat)
    requires k in w.workers && w.workers[k].stage.Fresh? && Complete(w.files)
    requires w.files.present && w.files.claimed && w.files.request.Some?
    ensures var after := From(w, Rereads(k));
            && after.files == w.files && after.starters == w.starters && after.entries == w.entries && after.executed == w.executed
            && after.workers.Keys == w.workers.Keys
            && after.workers[k] == w.workers[k].(stage := Fetched, life := Some(w.lives + 1), record := w.files.status.value, data := w.files.request)
            && forall j | j in w.workers && j != k :: after.workers[j] == w.workers[j]
    ensures Timely(w, Rereads(k))
  {
    One(w, Remove(ClaimedMark));
    var open := Next(w, Remove(ClaimedMark));
    assert open == w.(files := w.files.(claimed := false), lives := w.lives + 1);
    FetchSteps(open, k);
    QuietIsTimely(open, Fetches(k));
    assert [Remove(ClaimedMark)][1..] == [] && Timely(open, []);
    Then(w, [Remove(ClaimedMark)], open, Fetches(k), From(open, Fetches(k)));
  }

  /** The whole directory is removed, and the identifier is started anew. */
  function Renews(s: nat, k: nat, h: Hash): seq<Event> { [RemoveAll] + Starts(s, k, h) }

  lemma RenewSteps(w: World, s: nat, k: nat, h: Hash)
    requires Complete(w.files) && s !in w.starters && k !in w.workers
    ensures var after := From(w, Renews(s, k, h));
            && after.files == Files(true, Some(Status(h, Starting)), Some(Request(|w.entries|, h)), false, false)
            && after.starters == w.starters[s := Launching(h, |w.entries|)] && after.workers == w.workers[k := NewWorker(s)]
            && after.entries == w.entries + [Reservation(s, h)] && after.executed == w.executed
    ensures Timely(w, Renews(s, k, h))
  {
    One(w, RemoveAll);
    var gone := Next(w, RemoveAll);
    StartSteps(gone, s, k, h);
    QuietIsTimely(gone, Starts(s, k, h));
    assert [RemoveAll][1..] == [] && Timely(gone, []);
    Then(w, [RemoveAll], gone, Starts(s, k, h), From(gone, Starts(s, k, h)));
  }

  /** A worker that holds an old request takes the file of the new one, and runs what it holds. */
  function Usurps(k: nat): seq<Event> { Takes(k) + (Executes(k) + Succeeds(k)) }

  lemma UsurpSteps(w: World, k: nat)
    requires k in w.workers && w.workers[k].stage.Fetched? && w.files.present && w.files.request.Some? && !w.files.cancel
    requires w.workers[k].timer.Idle? && !w.workers[k].abort && !w.workers[k].cancelPresent
    ensures var after := From(w, Usurps(k));
            && Complete(after.files) && after.workers.Keys == w.workers.Keys && after.starters == w.starters && after.entries == w.entries
            && |after.executed| == |w.executed| + 1 && after.executed[..|w.executed|] == w.executed
            && after.executed[|w.executed|].worker.data == w.workers[k].data
            && forall j | j in w.workers && j != k :: after.workers[j] == w.workers[j]
    ensures Timely(w, Usurps(k))
  {
    UsurpsIsQuiet(w, k);
    TakeSteps(w, k);
    var taken := From(w, Takes(k));
    FinishSteps(taken, k);
    FromConcat(w, Takes(k), Executes(k) + Succeeds(k));
  }

  lemma UsurpsIsQuiet(w: World, k: nat)
    ensures Timely(w, Usurps(k))
  {
    QuietIsTimely(w, Usurps(k));
  }

  /** Three workers of one reservation; the first fails, and the other two each read the request that is still there. */
  function TwoHolders(): seq<Event> { Starts(0, 0, "h") + [Spawn(0, 1), Spawn(0, 2)] + Fails(0) + (Rereads(1) + Rereads(2)) }

  lemma ThreeLaunchedSteps()
    ensures var launched := From(EMPTY, Starts(0, 0, "h") + [Spawn(0, 1), Spawn(0, 2)]);
            && launched.files == Files(true, Some(Status("h", Starting)), Some(Request(0, "h")), false, false)
            && launched.workers == map[0 := NewWorker(0), 1 := NewWorker(0), 2 := NewWorker(0)]
            && launched.starters.Keys == {0} && |launched.entries| == 1 && launched.executed == []
    ensures Timely(EMPTY, Starts(0, 0, "h") + [Spawn(0, 1), Spawn(0, 2)])
  {
    StartSteps(EMPTY, 0, 0, "h");
    var started := From(EMPTY, Starts(0, 0, "h"));
    Two(started, Spawn(0, 1), Spawn(0, 2));
    assert Next(Next(started, Spawn(0, 1)), Spawn(0, 2)) == started.(workers := started.workers[1 := NewWorker(0)][2 := NewWorker(0)]);
    FromConcat(EMPTY, Starts(0, 0, "h"), [Spawn(0, 1), Spawn(0, 2)]);
    QuietIsTimely(EMPTY, Starts(0, 0, "h") + [Spawn(0, 1), Spawn(0, 2)]);
  }

  lemma RereadTwice(w: World)
    requires 1 in w.workers && 2 in w.workers && w.workers[1] == NewWorker(0) && w.workers[2] == NewWorker(0)
    requires Complete(w.files) && w.files.present && w.files.claimed && w.files.request.Some?
    ensures var after := From(w, Rereads(1) + Rereads(2));
            && after.files == w.files && after.starters == w.starters && after.entries == w.entries && after.executed == w.executed
            && after.workers.Keys == w.workers.Keys && Waits(after, 1, w.files.request) && Waits(after, 2, w.files.request)
    ensures Timely(w, Rereads(1) + Rereads(2))
  {
    RereadSteps(w, 1);
    var once := From(w, Rereads(1));
    RereadSteps(once, 2);
    Then(w, Rereads(1), once, Rereads(2), From(once, Rereads(2)));
  }

  /** The worker holds a request and has not taken a file. */
  predicate Waits(w: World, k: nat, data: Option<Request>) {
    k in w.workers && w.workers[k].stage.Fetched? && w.workers[k].timer.Idle? && !w.workers[k].abort
    && !w.workers[k].cancelPresent && w.workers[k].data == data
  }

  lemma TwoHoldersSteps()
    ensures var w := From(EMPTY, TwoHolders());
            && Complete(w.files) && w.workers.Keys == {0, 1, 2} && w.starters.Keys == {0} && |w.entries| == 1 && w.executed == []
            && Waits(w, 1, Some(Request(0, "h"))) && Waits(w, 2, Some(Request(0, "h")))
    ensures Timely(EMPTY, TwoHolders())
  {
    ThreeLaunchedSteps();
    var launched := From(EMPTY, Starts(0, 0, "h") + [Spawn(0, 1), Spawn(0, 2)]);
    FailSteps(launched, 0);
    var failed := From(launched, Fails(0));
    Then(EMPTY, Starts(0, 0, "h") + [Spawn(0, 1), Spawn(0, 2)], launched, Fails(0), failed);
    RereadTwice(failed);
    Then(EMPTY, Starts(0, 0, "h") + [Spawn(0, 1), Spawn(0, 2)] + Fails(0), failed, Rereads(1) + Rereads(2),
         From(failed, Rereads(1) + Rereads(2)));
  }

  lemma RenewThenUsurp(w: World, s: nat, n: nat, k: nat, data: Option<Request>)
    requires Complete(w.files) && s !in w.starters && n !in w.workers && Waits(w, k, data)
    ensures var after := From(w, Renews(s, n, "h") + Usurps(k));
            && Complete(after.files) && after.starters.Keys == w.starters.Keys + {s} && after.workers.Keys == w.workers.Keys + {n}
            && |after.executed| == |w.executed| + 1 && after.executed[..|w.executed|] == w.executed
            && after.executed[|w.executed|].worker.data == data
            && forall j | j in w.workers && j != k :: after.workers[j] == w.workers[j]
    ensures Timely(w, Renews(s, n, "h") + Usurps(k))
  {
    RenewSteps(w, s, n, "h");
    var renewed := From(w, Renews(s, n, "h"));
    UsurpSteps(renewed, k);
    Then(w, Renews(s, n, "h"), renewed, Usurps(k), From(renewed, Usurps(k)));
  }

  /** Two new reservations, whose request files the two holders take. */
  function TwoUsurpers(): seq<Event> { (Renews(1, 3, "h") + Usurps(1)) + (Renews(2, 4, "h") + Usurps(2)) }

  lemma TwoUsurpersSteps(w: World, data: Option<Request>)
    requires Complete(w.files) && w.workers.Keys == {0, 1, 2} && w.starters.Keys == {0} && w.executed == []
    requires Waits(w, 1, data) && Waits(w, 2, data)
    ensures var after := From(w, TwoUsurpers());
            |after.executed| == 2 && after.executed[0].worker.data == after.executed[1].worker.data == data
    ensures Timely(w, TwoUsurpers())
  {
    RenewThenUsurp(w, 1, 3, 1, data);
    var once := From(w, Renews(1, 3, "h") + Usurps(1));
    RenewThenUsurp(once, 2, 4, 2, data);
    var twice := From(once, Renews(2, 4, "h") + Usurps(2));
    assert twice.executed[..1] == once.executed;
    Then(w, Renews(1, 3, "h") + Usurps(1), once, Renews(2, 4, "h") + Usurps(2), twice);
  }

  lemma Stretches(a: seq<Event>, mid: World, b: seq<Event>, end: World)
    requires From(EMPTY, a) == mid && From(mid, b) == end && Timely(EMPTY, a) && Timely(mid, b)
    ensures Run(a + b) == end && Timely(EMPTY, a + b)
  {
    Then(EMPTY, a, mid, b, end);
    assert [] + (a + b) == a + b && Run([]) == EMPTY;
    RunFrom([], a + b);
  }

  /**
    A removal that is interrupted and begun again, or that two stores perform at once: each of its
    steps happens at a terminal state, yet one reservation is executed twice and two others never.
   */
  lemma RestartedRemovalRunsAReservationTwice()
    ensures var w := Run(TwoHolders() + TwoUsurpers());
            |w.executed| == 2 && w.executed[0].worker.data == w.executed[1].worker.data == Some(Request(0, "h"))
    ensures Timely(EMPTY, TwoHolders() + TwoUsurpers())
  {
    TwoHoldersSteps();
    var held := From(EMPTY, TwoHolders());
    TwoUsurpersSteps(held, Some(Request(0, "h")));
    Stretches(TwoHolders(), held, TwoUsurpers(), From(held, TwoUsurpers()));
  }
}
