/**
  One operation identifier in the durable job ledger.  Any number of stores start it, any number
  of launched workers race for it, every one of them may stop for good between two steps, and the
  files of its directory may be removed by a store whose view of them is out of date.
 */
module AtMostOnce {
  import opened Wrappers

  type Hash = string

  // ---------------------------------------------------------------- what is on disk

  datatype Outcome = Succeeded | Failed | Cancelled

  /** The states a status file can hold.  `unknown` is not one: it is only computed on reading. */
  datatype Progress = Starting | Running | Done(outcome: Outcome)

  datatype Status = Status(hash: Hash, progress: Progress)

  /** A request file, tagged with the reservation (the successful `mkdir`) it was written for. */
  datatype Request = Request(entry: nat, hash: Hash)

  datatype Files = Files(
    present: bool, status: Option<Status>, request: Option<Request>, claimed: bool, cancel: bool)

  const ABSENT := Files(false, None, None, false, false)
  const RESERVED := Files(true, None, None, false, false)

  // ---------------------------------------------------------------- starting an operation

  /** Answers given without a reservation, and answers given after making one. */
  datatype Denial = Existing | Conflict | Refused | AlreadyReserved
  datatype Reply = Broken | Acknowledged | Unconfirmed

  datatype Starter =
    | Checking(hash: Hash)
    | Admitting(hash: Hash)
    | Recording(hash: Hash, entry: nat)
    | Requesting(hash: Hash, entry: nat)
    | Launching(hash: Hash, entry: nat)
    | Denied(hash: Hash, denial: Denial)
    | Replied(hash: Hash, entry: nat, reply: Reply)
  {
    function Entry(): Option<nat> {
      match this
      case Checking(_) => None
      case Admitting(_) => None
      case Recording(_, e) => Some(e)
      case Requesting(_, e) => Some(e)
      case Launching(_, e) => Some(e)
      case Denied(_, _) => None
      case Replied(_, e, _) => Some(e)
    }

    /** The request file of its reservation is still to be written. */
    predicate Owes() {
      Recording? || Requesting?
    }

    predicate MayLaunch() {
      Launching? || (Replied? && !reply.Broken?)
    }
  }

  datatype StarterAction = Look | Refuse | Reserve | Record | Submit | Confirm(confirmed: bool)

  datatype Started = Started(files: Files, starter: Starter, reserved: bool)

  /** One stretch of `start` between two awaits; `next` is the number a new reservation gets. */
  function StarterMove(f: Files, s: Starter, next: nat, a: StarterAction): Started {
    match (s, a)
    case (Checking(h), Look) =>
      if f.status.None? then Started(f, Admitting(h), false)
      else Started(f, Denied(h, if f.status.value.hash == h then Existing else Conflict), false)
    case (Checking(h), Refuse) => Started(f, Denied(h, Refused), false)
    case (Admitting(h), Refuse) => Started(f, Denied(h, Refused), false)
    case (Admitting(h), Reserve) =>
      if f.present then Started(f, Denied(h, AlreadyReserved), false)
      else Started(RESERVED, Recording(h, next), true)
    case (Recording(h, e), Record) =>
      if f.present then Started(f.(status := Some(Status(h, Starting))), Requesting(h, e), false)
      else Started(f, Replied(h, e, Broken), false)
    case (Requesting(h, e), Submit) =>
      if f.present then Started(f.(request := Some(Request(e, h))), Launching(h, e), false)
      else Started(f, Replied(h, e, Broken), false)
    case (Launching(h, e), Confirm(ok)) => Started(f, Replied(h, e, if ok then Acknowledged else Unconfirmed), false)
    case _ => Started(f, s, false)
  }

  // ---------------------------------------------------------------- running a worker

  datatype Stage = Fresh | Claimed | Loaded | Fetched | Announced | Consumed | Looking | Checked | Executing | Ended | Finished | Gone

  /** The look at the cancel file that the interval timer has in flight. */
  datatype Timer = Idle | Asked | Seen(present: bool)

  datatype Worker = Worker(
    parent: nat, stage: Stage, life: Option<nat>, record: Status, data: Option<Request>,
    consumed: Option<Request>, abort: bool, timer: Timer, skipped: bool, cancelPresent: bool, success: bool,
    reported: Option<Outcome>)
  {
    /** The `checking` flag: a look at the cancel file is outstanding. */
    predicate IsChecking() {
      !timer.Idle? || stage.Looking?
    }

    /** The interval timer and the signal handlers are installed. */
    predicate Watching() {
      2 <= Rank() <= 8
    }

    /** How far it has come: a worker never goes back. */
    function Rank(): nat {
      match stage
      case Fresh => 0
      case Claimed => 1
      case Loaded => 2
      case Fetched => 3
      case Announced => 4
      case Consumed => 5
      case Looking => 6
      case Checked => 7
      case Executing => 8
      case Ended => 9
      case Finished => 10
      case Gone => 11
    }

    /** The record with which it reported its outcome. */
    function Report(): Status
      requires reported.Some?
    {
      record.(progress := Done(reported.value))
    }

    /** Between the claim and the write of the outcome. */
    predicate InFlight() {
      1 <= Rank() <= 9
    }

    /** What a worker holds at each stage. */
    ghost predicate Sound() {
      && (Rank() == 0 ==> life.None?)
      && (1 <= Rank() <= 10 ==> life.Some?)
      && (Rank() <= 2 ==> data.None?)
      && (3 <= Rank() <= 8 ==> data.Some?)
      && (Rank() <= 4 ==> consumed.None?)
      && (5 <= Rank() <= 8 ==> consumed.Some?)
      && (stage.Checked? && cancelPresent && !skipped ==> abort)
    }
  }

  function NewWorker(parent: nat): Worker {
    Worker(parent, Fresh, None, Status("", Starting), None, None, false, Idle, false, false, false, None)
  }

  datatype WorkerAction =
    | Claim | Load | Fetch | Announce | Consume | Check | LookNow | Decide | Return(success: bool) | Conclude | Sweep
    | Fault

  datatype Worked = Worked(files: Files, worker: Worker, ran: bool)

  /** Up to the removal of the request file, the point of no return. */
  function Approach(f: Files, k: Worker, life: nat, a: WorkerAction): Worked {
    match (k.stage, a)
    case (Fresh, Claim) =>
      if !f.present || f.claimed then Worked(f, k.(stage := Gone), false)
      else Worked(f.(claimed := true), k.(stage := Claimed, life := Some(life)), false)
    case (Claimed, Load) =>
      if f.status.None? then Worked(f, k.(stage := Gone), false)
      else Worked(f, k.(stage := Loaded, record := f.status.value), false)
    case (Loaded, Fetch) =>
      if f.request.None? then Worked(f, k.(stage := Ended), false)
      else Worked(f, k.(stage := Fetched, data := f.request), false)
    case (Fetched, Announce) =>
      var running := k.record.(progress := Running);
      if !f.present then Worked(f, k.(stage := Ended, record := running), false)
      else Worked(f.(status := Some(running)), k.(stage := Announced, record := running), false)
    case (Announced, Consume) =>
      if f.request.None? then Worked(f, k.(stage := Ended), false)
      else Worked(f.(request := None), k.(stage := Consumed, consumed := f.request), false)
    case _ => Worked(f, k, false)
  }

  /** From the explicit look at the cancel file to the end. */
  function Perform(f: Files, k: Worker, a: WorkerAction): Worked {
    match (k.stage, a)
    case (Consumed, Check) =>
      if k.IsChecking() then Worked(f, k.(stage := Checked, skipped := true, cancelPresent := f.cancel), false)
      else Worked(f, k.(stage := Looking), false)
    case (Looking, LookNow) =>
      Worked(f, k.(stage := Checked, abort := k.abort || f.cancel, cancelPresent := f.cancel), false)
    case (Checked, Decide) =>
      if k.abort then Worked(f, k.(stage := Ended), false) else Worked(f, k.(stage := Executing), true)
    case (Executing, Return(success)) => Worked(f, k.(stage := Ended, success := success), false)
    case (Ended, Conclude) =>
      if !f.present then Worked(f, k.(stage := Gone), false) else
        var outcome := if k.abort then Cancelled else if k.success then Succeeded else Failed;
        Worked(f.(status := Some(k.record.(progress := Done(outcome)))), k.(stage := Finished, reported := Some(outcome)), false)
    case (Finished, Sweep) => Worked(f.(request := None), k.(stage := Gone), false)
    case _ => Worked(f, k, false)
  }

  /** One stretch of `runJob` between two awaits; a fault is any other exception it catches. */
  function WorkerMove(f: Files, k: Worker, life: nat, a: WorkerAction): Worked {
    if a.Fault? then Worked(f, if k.Watching() then k.(stage := Ended) else k, false)
    else if k.Rank() <= 4 then Approach(f, k, life, a)
    else Perform(f, k, a)
  }

  datatype Handler = Tick | TickLook | TickDone | Signal

  /** The interval timer's look at the cancel file, in its three steps, and the signal handlers. */
  function Handled(f: Files, k: Worker, h: Handler): Worker {
    match h
    case Tick => if k.Watching() && !k.IsChecking() then k.(timer := Asked) else k
    case TickLook => if k.timer.Asked? then k.(timer := Seen(f.cancel)) else k
    case TickDone => if k.timer.Seen? then k.(timer := Idle, abort := k.abort || k.timer.present) else k
    case Signal => if k.Watching() then k.(abort := true) else k
  }

  // ---------------------------------------------------------------- all of it together

  datatype Part = StatusFile | RequestFile | ClaimedMark | CancelFile | Directory

  datatype Reservation = Reservation(starter: nat, hash: Hash)

  /** The worker as it was when it called `execute`. */
  datatype Execution = Execution(id: nat, worker: Worker)

  /** `lives` numbers the stretches between two moments at which a claim is possible again. */
  datatype World = World(
    files: Files, lives: nat, entries: seq<Reservation>,
    starters: map<nat, Starter>, workers: map<nat, Worker>, executed: seq<Execution>)

  /** `Rewrite` is a store that expires the output of a job: it writes back the record that a worker reported some time ago. */
  datatype Event =
    | Call(s: nat, hash: Hash)
    | Step(s: nat, starting: StarterAction)
    | Spawn(s: nat, k: nat)
    | Work(k: nat, working: WorkerAction)
    | Handle(k: nat, handler: Handler)
    | PlaceCancel
    | Rewrite(k: nat)
    | Remove(part: Part)
    | RemoveAll

  const EMPTY := World(ABSENT, 0, [], map[], map[], [])

  function Removed(f: Files, part: Part): Files {
    match part
    case StatusFile => f.(status := None)
    case RequestFile => f.(request := None)
    case ClaimedMark => f.(claimed := false)
    case CancelFile => f.(cancel := false)
    case Directory => if f == RESERVED then ABSENT else f
  }

  function AfterStart(w: World, s: nat, m: Started): World
    requires s in w.starters
  {
    w.(files := m.files, starters := w.starters[s := m.starter],
       lives := if m.reserved then w.lives + 1 else w.lives,
       entries := if m.reserved then w.entries + [Reservation(s, m.starter.hash)] else w.entries)
  }

  function AfterWork(w: World, k: nat, m: Worked): World {
    w.(files := m.files, workers := w.workers[k := m.worker],
       executed := if m.ran then w.executed + [Execution(k, m.worker)] else w.executed)
  }

  function Next(w: World, e: Event): World {
    match e
    case Call(s, hash) => if s in w.starters then w else w.(starters := w.starters[s := Checking(hash)])
    case Step(s, a) => if s in w.starters then AfterStart(w, s, StarterMove(w.files, w.starters[s], |w.entries|, a)) else w
    case Spawn(s, k) =>
      if s in w.starters && w.starters[s].MayLaunch() && k !in w.workers
      then w.(workers := w.workers[k := NewWorker(s)]) else w
    case Work(k, a) => if k in w.workers then AfterWork(w, k, WorkerMove(w.files, w.workers[k], w.lives, a)) else w
    case Handle(k, h) =>
      if k in w.workers then w.(workers := w.workers[k := Handled(w.files, w.workers[k], h)]) else w
    case PlaceCancel => if w.files.present then w.(files := w.files.(cancel := true)) else w
    case Rewrite(k) =>
      if w.files.present && k in w.workers && w.workers[k].reported.Some?
      then w.(files := w.files.(status := Some(w.workers[k].Report()))) else w
    case Remove(part) =>
      w.(files := Removed(w.files, part),
         lives := if part.ClaimedMark? && w.files.claimed then w.lives + 1 else w.lives)
    case RemoveAll => w.(files := ABSENT, lives := if w.files.claimed then w.lives + 1 else w.lives)
  }

  function Run(events: seq<Event>): World {
    if events == [] then EMPTY else Next(Run(events[..|events| - 1]), events[|events| - 1])
  }

  // ---------------------------------------------------------------- what one step may change

  // What one stretch of a worker may change: the claim, the request it holds, and its progress.
  ghost predicate LegalClaim(f: Files, k: Worker, life: nat, m: Worked) {
    && m.files.present == f.present && m.files.cancel == f.cancel
    && (!f.present ==> m.files.status == f.status && m.files.claimed == f.claimed)
    && ((m.worker.life == k.life && m.files.claimed == f.claimed)
        || (m.worker.life == Some(life) && k.life.None? && f.present && !f.claimed && m.files.claimed))
  }

  ghost predicate LegalRequest(f: Files, k: Worker, m: Worked) {
    && (m.files.request == f.request || m.files.request.None?)
    && (m.worker.data == k.data
        || (k.stage.Loaded? && f.request.Some? && m.worker.data == f.request && m.worker.stage.Fetched?))
    && (m.worker.consumed == k.consumed
        || (k.stage.Announced? && f.request.Some? && m.worker.consumed == f.request && m.files.request.None?))
  }

  ghost predicate LegalProgress(k: Worker, m: Worked) {
    && m.worker.parent == k.parent && m.worker.Rank() >= k.Rank()
    && (k.Rank() >= 8 ==> m.worker.life == k.life && m.worker.data == k.data && m.worker.consumed == k.consumed)
    && (m.ran <==> k.stage.Checked? && m.worker.stage.Executing?)
    && (m.ran ==> !k.abort && !m.worker.abort && m.worker.skipped == k.skipped && m.worker.cancelPresent == k.cancelPresent)
  }

  ghost predicate Legal(f: Files, k: Worker, life: nat, m: Worked) {
    m.worker.Sound() && LegalClaim(f, k, life, m) && LegalRequest(f, k, m) && LegalProgress(k, m)
  }

  lemma ApproachClaim(f: Files, k: Worker, life: nat, a: WorkerAction)
    requires k.Sound() && k.Rank() <= 4
    ensures LegalClaim(f, k, life, Approach(f, k, life, a))
  {
  }

  lemma ApproachRequest(f: Files, k: Worker, life: nat, a: WorkerAction)
    requires k.Rank() <= 4
    ensures LegalRequest(f, k, Approach(f, k, life, a))
  {
  }

  lemma ApproachProgress(f: Files, k: Worker, life: nat, a: WorkerAction)
    requires k.Rank() <= 4
    ensures LegalProgress(k, Approach(f, k, life, a))
  {
  }

  lemma ApproachSound(f: Files, k: Worker, life: nat, a: WorkerAction)
    requires k.Sound() && k.Rank() <= 4
    ensures Approach(f, k, life, a).worker.Sound()
  {
  }

  lemma PerformClaim(f: Files, k: Worker, life: nat, a: WorkerAction)
    requires k.Rank() > 4
    ensures LegalClaim(f, k, life, Perform(f, k, a))
  {
  }

  lemma PerformRequest(f: Files, k: Worker, a: WorkerAction)
    requires k.Rank() > 4
    ensures LegalRequest(f, k, Perform(f, k, a))
  {
  }

  lemma PerformProgress(f: Files, k: Worker, a: WorkerAction)
    requires k.Rank() > 4
    ensures LegalProgress(k, Perform(f, k, a))
  {
  }

  lemma LookSound(f: Files, k: Worker, a: WorkerAction)
    requires k.Sound() && 4 < k.Rank() <= 7
    ensures Perform(f, k, a).worker.Sound()
  {
  }

  lemma FinishSound(f: Files, k: Worker, a: WorkerAction)
    requires k.Sound() && k.Rank() > 7
    ensures Perform(f, k, a).worker.Sound()
  {
  }

  lemma PerformSound(f: Files, k: Worker, a: WorkerAction)
    requires k.Sound() && k.Rank() > 4
    ensures Perform(f, k, a).worker.Sound()
  {
    if k.Rank() <= 7 {
      LookSound(f, k, a);
    } else {
      FinishSound(f, k, a);
    }
  }

  lemma MoveLegal(f: Files, k: Worker, life: nat, a: WorkerAction)
    requires k.Sound()
    ensures Legal(f, k, life, WorkerMove(f, k, life, a))
  {
    if a.Fault? {
    } else if k.Rank() <= 4 {
      ApproachClaim(f, k, life, a);
      ApproachRequest(f, k, life, a);
      ApproachProgress(f, k, life, a);
      ApproachSound(f, k, life, a);
    } else {
      PerformClaim(f, k, life, a);
      PerformRequest(f, k, a);
      PerformProgress(f, k, a);
      PerformSound(f, k, a);
    }
  }

  // A handler touches nothing but the timer and the abort flag.
  lemma HandledFrame(f: Files, k: Worker, h: Handler)
    ensures var m := Handled(f, k, h); m == k.(timer := m.timer, abort := m.abort) && (k.abort ==> m.abort)
  {
  }

  lemma HandledLegal(f: Files, k: Worker, life: nat, h: Handler)
    requires k.Sound()
    ensures Legal(f, k, life, Worked(f, Handled(f, k, h), false))
  {
    HandledFrame(f, k, h);
    FrameLegal(f, k, Handled(f, k, h), life);
  }

  lemma FrameLegal(f: Files, k: Worker, m: Worker, life: nat)
    requires k.Sound() && m == k.(timer := m.timer, abort := m.abort) && (k.abort ==> m.abort)
    ensures Legal(f, k, life, Worked(f, m, false))
  {
  }

  // A store reserves at most once, and writes the request file of its reservation at most once.
  ghost predicate LegalStart(f: Files, s: Starter, next: nat, m: Started) {
    && m.starter.hash == s.hash
    && (m.reserved ==> s.Entry().None? && !f.present && m.files == RESERVED && m.starter == Recording(s.hash, next))
    && (!m.reserved ==>
          && m.starter.Entry() == s.Entry() && (m.starter.Owes() ==> s.Owes())
          && m.files.present == f.present && m.files.claimed == f.claimed && m.files.cancel == f.cancel
          && (!f.present ==> m.files == f)
          && (m.files.request == f.request
              || (s.Requesting? && m.files.request == Some(Request(s.entry, s.hash)) && !m.starter.Owes())))
    && (s.MayLaunch() ==> m.starter.MayLaunch())
  }

  lemma StartLegal(f: Files, s: Starter, next: nat, a: StarterAction)
    ensures LegalStart(f, s, next, StarterMove(f, s, next, a))
  {
  }

  // ---------------------------------------------------------------- one claim per life

  ghost predicate Claims(w: World) {
    && (w.files.claimed ==> w.files.present)
    && (!w.files.present ==> w.files == ABSENT)
    && (forall k | k in w.workers && w.workers[k].life.Some? ::
          w.workers[k].life.value <= w.lives && (w.workers[k].life.value == w.lives ==> w.files.claimed))
    && (forall j, k | j in w.workers && k in w.workers && j != k && w.workers[j].life.Some? ::
          w.workers[j].life != w.workers[k].life)
  }

  lemma StartClaims(w: World, s: nat, m: Started)
    requires Claims(w) && s in w.starters && LegalStart(w.files, w.starters[s], |w.entries|, m)
    ensures Claims(AfterStart(w, s, m))
  {
  }

  lemma WorkClaims(w: World, k: nat, m: Worked)
    requires Claims(w) && k in w.workers && Legal(w.files, w.workers[k], w.lives, m)
    ensures Claims(AfterWork(w, k, m))
  {
  }

  // ---------------------------------------------------------------- who reserved what

  ghost predicate Known(w: World, r: Request) {
    r.entry < |w.entries| && w.entries[r.entry].hash == r.hash
  }

  /** Every reservation has exactly one starter. */
  ghost predicate Owners(w: World) {
    && (forall s | s in w.starters && w.starters[s].Entry().Some? ::
          var e := w.starters[s].Entry().value; e < |w.entries| && w.entries[e] == Reservation(s, w.starters[s].hash))
    && (forall e | 0 <= e < |w.entries| ::
          w.entries[e].starter in w.starters && w.starters[w.entries[e].starter].Entry() == Some(e))
  }

  /** Every worker was launched by a starter that holds a reservation. */
  ghost predicate Crew(w: World) {
    forall k | k in w.workers ::
      && w.workers[k].Sound() && w.workers[k].parent in w.starters
      && w.starters[w.workers[k].parent].MayLaunch()
  }

  lemma StartOwners(w: World, s: nat, m: Started)
    requires Owners(w) && s in w.starters && LegalStart(w.files, w.starters[s], |w.entries|, m)
    ensures Owners(AfterStart(w, s, m))
  {
    var after := AfterStart(w, s, m);
    forall e | 0 <= e < |after.entries|
      ensures after.entries[e].starter in after.starters
      ensures after.starters[after.entries[e].starter].Entry() == Some(e)
    {
      if e < |w.entries| {
        assert w.starters[w.entries[e].starter].Entry() == Some(e);
      }
    }
  }

  lemma StartCrew(w: World, s: nat, m: Started)
    requires Crew(w) && s in w.starters && LegalStart(w.files, w.starters[s], |w.entries|, m)
    ensures Crew(AfterStart(w, s, m))
  {
  }

  lemma WorkCrew(w: World, k: nat, m: Worked)
    requires Crew(w) && k in w.workers && Legal(w.files, w.workers[k], w.lives, m)
    ensures Crew(AfterWork(w, k, m))
  {
  }

  // ---------------------------------------------------------------- one consumption per reservation

  ghost predicate Genuine(w: World) {
    && (w.files.request.Some? ==> Known(w, w.files.request.value))
    && (forall k | k in w.workers && w.workers[k].data.Some? :: Known(w, w.workers[k].data.value))
    && (forall k | k in w.workers && w.workers[k].consumed.Some? :: Known(w, w.workers[k].consumed.value))
  }

  ghost predicate Unused(w: World, e: nat) {
    forall k | k in w.workers && w.workers[k].consumed.Some? :: w.workers[k].consumed.value.entry != e
  }

  /** A reservation's request is still owed, or on disk, or taken by one worker, or lost. */
  ghost predicate Tokens(w: World) {
    && (w.files.request.Some? ==> Unused(w, w.files.request.value.entry))
    && (forall s | s in w.starters && w.starters[s].Owes() :: Unused(w, w.starters[s].entry))
    && (forall s | s in w.starters && w.starters[s].Owes() && w.files.request.Some? ::
          w.files.request.value.entry != w.starters[s].entry)
    && (forall j, k | j in w.workers && k in w.workers && j != k && w.workers[j].consumed.Some? && w.workers[k].consumed.Some? ::
          w.workers[j].consumed.value.entry != w.workers[k].consumed.value.entry)
  }

  lemma StartGenuine(w: World, s: nat, m: Started)
    requires Owners(w) && Genuine(w) && s in w.starters && LegalStart(w.files, w.starters[s], |w.entries|, m)
    ensures Genuine(AfterStart(w, s, m))
  {
  }

  lemma StartTokens(w: World, s: nat, m: Started)
    requires Owners(w) && Genuine(w) && Tokens(w) && s in w.starters && LegalStart(w.files, w.starters[s], |w.entries|, m)
    ensures Tokens(AfterStart(w, s, m))
  {
    var after := AfterStart(w, s, m);
    assert Unused(w, |w.entries|);
    forall e | Unused(w, e)
      ensures Unused(after, e)
    {
    }
  }

  lemma WorkGenuine(w: World, k: nat, m: Worked)
    requires Genuine(w) && k in w.workers && Legal(w.files, w.workers[k], w.lives, m)
    ensures Genuine(AfterWork(w, k, m))
  {
  }

  lemma WorkTokens(w: World, k: nat, m: Worked)
    requires Tokens(w) && k in w.workers && Legal(w.files, w.workers[k], w.lives, m)
    ensures Tokens(AfterWork(w, k, m))
  {
  }

  // ---------------------------------------------------------------- the executions

  /** Every execution is that of a worker which took a request, and no worker executes twice. */
  ghost predicate Log(w: World) {
    && (forall i | 0 <= i < |w.executed| ::
          var x := w.executed[i];
          && x.id in w.workers && x.worker.Sound() && x.worker.stage.Executing?
          && w.workers[x.id].Rank() >= 8 && w.workers[x.id].parent == x.worker.parent
          && w.workers[x.id].life == x.worker.life && w.workers[x.id].data == x.worker.data
          && w.workers[x.id].consumed == x.worker.consumed
          && !x.worker.abort && (x.worker.cancelPresent ==> x.worker.skipped))
    && (forall i, j | 0 <= i < j < |w.executed| :: w.executed[i].id != w.executed[j].id)
  }

  lemma WorkLog(w: World, k: nat, m: Worked)
    requires Log(w) && k in w.workers && w.workers[k].Sound() && Legal(w.files, w.workers[k], w.lives, m)
    ensures Log(AfterWork(w, k, m))
  {
    var after := AfterWork(w, k, m);
    forall i | 0 <= i < |w.executed|
      ensures w.executed[i].id == k ==> w.workers[k].Rank() >= 8
    {
    }
    if w.workers[k].Rank() >= 8 {
      assert !m.ran;
    }
  }

  ghost predicate Inv(w: World) {
    Claims(w) && Owners(w) && Crew(w) && Genuine(w) && Tokens(w) && Log(w)
  }

  lemma StepInv(w: World, s: nat, a: StarterAction)
    requires Inv(w)
    ensures Inv(Next(w, Step(s, a)))
  {
    if s in w.starters {
      var m := StarterMove(w.files, w.starters[s], |w.entries|, a);
      StartLegal(w.files, w.starters[s], |w.entries|, a);
      StartClaims(w, s, m);
      StartOwners(w, s, m);
      StartCrew(w, s, m);
      StartGenuine(w, s, m);
      StartTokens(w, s, m);
    }
  }

  lemma MovedInv(w: World, k: nat, m: Worked)
    requires Inv(w) && k in w.workers && Legal(w.files, w.workers[k], w.lives, m)
    ensures Inv(AfterWork(w, k, m))
  {
    WorkClaims(w, k, m);
    WorkCrew(w, k, m);
    WorkGenuine(w, k, m);
    WorkTokens(w, k, m);
    WorkLog(w, k, m);
  }

  lemma WorkInv(w: World, k: nat, a: WorkerAction)
    requires Inv(w)
    ensures Inv(Next(w, Work(k, a)))
  {
    if k in w.workers {
      MoveLegal(w.files, w.workers[k], w.lives, a);
      MovedInv(w, k, WorkerMove(w.files, w.workers[k], w.lives, a));
    }
  }

  lemma HandleInv(w: World, k: nat, h: Handler)
    requires Inv(w)
    ensures Inv(Next(w, Handle(k, h)))
  {
    if k in w.workers {
      HandledLegal(w.files, w.workers[k], w.lives, h);
      MovedInv(w, k, Worked(w.files, Handled(w.files, w.workers[k], h), false));
    }
  }

  lemma CallInv(w: World, s: nat, hash: Hash)
    requires Inv(w)
    ensures Inv(Next(w, Call(s, hash)))
  {
    if s !in w.starters {
      var after := w.(starters := w.starters[s := Checking(hash)]);
      assert Claims(after) && Genuine(after) && Log(after);
      CallOwners(w, s, hash);
      CallTokens(w, s, hash);
    }
  }

  lemma CallOwners(w: World, s: nat, hash: Hash)
    requires Owners(w) && Crew(w) && s !in w.starters
    ensures Owners(w.(starters := w.starters[s := Checking(hash)])) && Crew(w.(starters := w.starters[s := Checking(hash)]))
  {
    var after := w.(starters := w.starters[s := Checking(hash)]);
    forall e | 0 <= e < |w.entries|
      ensures w.entries[e].starter in after.starters && after.starters[w.entries[e].starter].Entry() == Some(e)
    {
    }
  }

  lemma CallTokens(w: World, s: nat, hash: Hash)
    requires Tokens(w) && s !in w.starters
    ensures Tokens(w.(starters := w.starters[s := Checking(hash)]))
  {
    forall e | Unused(w, e)
      ensures Unused(w.(starters := w.starters[s := Checking(hash)]), e)
    {
    }
  }

  lemma JoinClaims(w: World, k: nat, novice: Worker)
    requires Claims(w) && Genuine(w) && k !in w.workers && novice.Sound() && novice.Rank() == 0
    ensures Claims(w.(workers := w.workers[k := novice])) && Genuine(w.(workers := w.workers[k := novice]))
  {
  }

  lemma JoinTokens(w: World, k: nat, novice: Worker)
    requires Tokens(w) && k !in w.workers && novice.Sound() && novice.Rank() == 0
    ensures Tokens(w.(workers := w.workers[k := novice]))
  {
    forall e | Unused(w, e)
      ensures Unused(w.(workers := w.workers[k := novice]), e)
    {
    }
  }

  lemma JoinLog(w: World, k: nat, novice: Worker)
    requires Log(w) && k !in w.workers
    ensures Log(w.(workers := w.workers[k := novice]))
  {
  }

  lemma SpawnInv(w: World, s: nat, k: nat)
    requires Inv(w)
    ensures Inv(Next(w, Spawn(s, k)))
  {
    if s in w.starters && w.starters[s].MayLaunch() && k !in w.workers {
      JoinClaims(w, k, NewWorker(s));
      JoinTokens(w, k, NewWorker(s));
      JoinLog(w, k, NewWorker(s));
    }
  }

  // Files change under everybody's feet, but no request appears and a claim that vanishes starts a new life.
  lemma FilesInv(w: World, f: Files, lives: nat)
    requires Inv(w) && (f.present ==> w.files.present) && (!f.present ==> f == ABSENT)
    requires f.request.Some? ==> f.request == w.files.request
    requires f.claimed ==> w.files.claimed && lives == w.lives
    requires w.files.claimed && !f.claimed ==> lives == w.lives + 1
    requires !w.files.claimed ==> lives == w.lives
    ensures Inv(w.(files := f, lives := lives))
  {
    var after := w.(files := f, lives := lives);
    forall e | Unused(w, e)
      ensures Unused(after, e)
    {
    }
  }

  lemma RemovalInv(w: World, e: Event)
    requires Inv(w) && (e.PlaceCancel? || e.Rewrite? || e.Remove? || e.RemoveAll?)
    ensures Inv(Next(w, e))
  {
    FilesInv(w, Next(w, e).files, Next(w, e).lives);
  }

  lemma NextInv(w: World, e: Event)
    requires Inv(w)
    ensures Inv(Next(w, e))
  {
    match e
    case Step(s, a) => StepInv(w, s, a);
    case Work(k, a) => WorkInv(w, k, a);
    case Handle(k, h) => HandleInv(w, k, h);
    case Call(s, hash) => CallInv(w, s, hash);
    case Spawn(s, k) => SpawnInv(w, s, k);
    case _ => RemovalInv(w, e);
  }

  lemma {:induction false} EveryRunInv(events: seq<Event>)
    ensures Inv(Run(events))
  {
    if events != [] {
      EveryRunInv(events[..|events| - 1]);
      NextInv(Run(events[..|events| - 1]), events[|events| - 1]);
    }
  }

  // ---------------------------------------------------------------- at most once

  function Removals(events: seq<Event>): nat {
    if events == [] then 0 else
      Removals(events[..|events| - 1]) + if events[|events| - 1] in {Remove(Directory), RemoveAll} then 1 else 0
  }

  /** Reservations that are no longer there. */
  function Lost(w: World): int {
    |w.entries| - if w.files.present then 1 else 0
  }

  lemma StepLost(w: World, s: nat, a: StarterAction)
    ensures Lost(Next(w, Step(s, a))) <= Lost(w)
  {
    if s in w.starters {
      StartLegal(w.files, w.starters[s], |w.entries|, a);
    }
  }

  lemma WorkLost(w: World, k: nat, a: WorkerAction)
    requires Inv(w)
    ensures Lost(Next(w, Work(k, a))) == Lost(w)
  {
    if k in w.workers {
      MoveLegal(w.files, w.workers[k], w.lives, a);
    }
  }

  lemma NextLost(w: World, e: Event)
    requires Inv(w)
    ensures Lost(Next(w, e)) <= Lost(w) + if e in {Remove(Directory), RemoveAll} then 1 else 0
  {
    match e
    case Step(s, a) => StepLost(w, s, a);
    case Work(k, a) => WorkLost(w, k, a);
    case _ =>
  }

  lemma {:induction false} ReservationsNeedRemovals(events: seq<Event>)
    ensures Lost(Run(events)) <= Removals(events)
  {
    if events != [] {
      ReservationsNeedRemovals(events[..|events| - 1]);
      EveryRunInv(events[..|events| - 1]);
      NextLost(Run(events[..|events| - 1]), events[|events| - 1]);
    }
  }

  lemma {:induction false} Pigeonhole(s: seq<nat>, n: nat)
    requires forall i | 0 <= i < |s| :: s[i] < n
    requires forall i, j | 0 <= i < j < |s| :: s[i] != s[j]
    ensures |s| <= n
  {
    if |s| == 0 {
    } else {
      assert s[0] < n;
      if i :| 0 <= i < |s| && s[i] == n - 1 {
        Pigeonhole(s[..i] + s[i + 1..], n - 1);
      } else {
        Pigeonhole(s, n - 1);
      }
    }
  }

  lemma LivesDiffer(w: World, i: nat, j: nat)
    requires Inv(w) && i < j < |w.executed|
    ensures w.executed[i].worker.life.Some? && w.executed[i].worker.life != w.executed[j].worker.life
  {
    var a, b := w.executed[i], w.executed[j];
    assert a.id in w.workers && b.id in w.workers && a.id != b.id;
    assert w.workers[a.id].life == a.worker.life && w.workers[b.id].life == b.worker.life;
  }

  lemma RequestsDiffer(w: World, i: nat, j: nat)
    requires Inv(w) && i < j < |w.executed|
    ensures w.executed[i].worker.consumed.Some? && w.executed[j].worker.consumed.Some?
    ensures w.executed[i].worker.consumed.value.entry != w.executed[j].worker.consumed.value.entry
  {
    var a, b := w.executed[i], w.executed[j];
    assert a.id in w.workers && b.id in w.workers && a.id != b.id;
    assert w.workers[a.id].consumed == a.worker.consumed && w.workers[b.id].consumed == b.worker.consumed;
  }

  lemma RequestKnown(w: World, i: nat)
    requires Inv(w) && i < |w.executed|
    ensures var x := w.executed[i].worker;
            x.consumed.Some? && Known(w, x.consumed.value) && x.data.Some? && Known(w, x.data.value)
  {
    var x := w.executed[i];
    assert x.id in w.workers && x.worker.Sound();
    assert w.workers[x.id].consumed == x.worker.consumed && w.workers[x.id].data == x.worker.data;
  }

  lemma NoMoreThanReserved(w: World)
    requires Inv(w)
    ensures |w.executed| <= |w.entries|
  {
    forall i | 0 <= i < |w.executed|
      ensures w.executed[i].worker.consumed.Some? && w.executed[i].worker.consumed.value.entry < |w.entries|
    {
      RequestKnown(w, i);
    }
    var used := seq(|w.executed|, i requires 0 <= i < |w.executed| => w.executed[i].worker.consumed.value.entry);
    forall i, j | 0 <= i < j < |used|
      ensures used[i] != used[j]
    {
      RequestsDiffer(w, i, j);
    }
    Pigeonhole(used, |w.entries|);
  }

  /** In every run there are at most as many executions as reservations, and at most one more than directory removals. */
  lemma AtMostOnce(events: seq<Event>)
    ensures |Run(events).executed| <= |Run(events).entries| <= 1 + Removals(events)
  {
    EveryRunInv(events);
    ReservationsNeedRemovals(events);
    NoMoreThanReserved(Run(events));
  }

  /**
    Two executions of a run belong to claims of different lives, so the claim marker or the directory
    went away between the claims, and each used up the request file of another reservation.
   */
  lemma NeverTwice(events: seq<Event>, i: nat, j: nat)
    requires i < j < |Run(events).executed|
    ensures var a, b := Run(events).executed[i].worker, Run(events).executed[j].worker;
            && a.life.Some? && a.life != b.life
            && a.consumed.Some? && b.consumed.Some? && a.consumed.value.entry != b.consumed.value.entry
  {
    EveryRunInv(events);
    LivesDiffer(Run(events), i, j);
    RequestsDiffer(Run(events), i, j);
  }

  /** What is executed is what its reservation was made for, and no denied start made that reservation. */
  lemma ExecutesWhatWasReserved(events: seq<Event>, i: nat)
    requires i < |Run(events).executed|
    ensures var w := Run(events);
            && w.executed[i].worker.data.Some? && Known(w, w.executed[i].worker.data.value)
            && var owner := w.entries[w.executed[i].worker.data.value.entry].starter;
            && owner in w.starters && !w.starters[owner].Denied?
            && w.starters[owner].hash == w.executed[i].worker.data.value.hash
  {
    var w := Run(events);
    EveryRunInv(events);
    RequestKnown(w, i);
    var e := w.executed[i].worker.data.value.entry;
    assert w.starters[w.entries[e].starter].Entry() == Some(e);
  }

  /** A start that conflicts, is refused or finds a reservation launches no worker and reserves nothing. */
  lemma DeniedNeverLaunches(events: seq<Event>, s: nat)
    requires s in Run(events).starters && Run(events).starters[s].Denied?
    ensures forall k | k in Run(events).workers :: Run(events).workers[k].parent != s
    ensures forall e | 0 <= e < |Run(events).entries| :: Run(events).entries[e].starter != s
  {
    var w := Run(events);
    EveryRunInv(events);
    forall e | 0 <= e < |w.entries|
      ensures w.entries[e].starter != s
    {
      assert w.starters[w.entries[e].starter].Entry() == Some(e);
    }
  }

  /** A denial is final. */
  lemma DenialIsFinal(w: World, s: nat, e: Event)
    requires s in w.starters && w.starters[s].Denied?
    ensures s in Next(w, e).starters && Next(w, e).starters[s] == w.starters[s]
  {
  }

  // ---------------------------------------------------------------- cancellation before the launch

  /** An execution with a cancel file in place is one whose explicit check returned without looking. */
  lemma CancelledOnlyIfSkipped(events: seq<Event>, i: nat)
    requires i < |Run(events).executed|
    ensures Run(events).executed[i].worker.cancelPresent ==> Run(events).executed[i].worker.skipped
    ensures !Run(events).executed[i].worker.abort
  {
    var w := Run(events);
    EveryRunInv(events);
    assert Log(w);
  }

  /** A worker whose request is gone and whose cancel file is in place goes straight to its decision. */
  function Resolve(w: World, k: nat): World {
    Next(Next(Next(w, Work(k, Check)), Work(k, LookNow)), Work(k, Decide))
  }

  /** Cancelling before the launch prevents it exactly when no timer look was outstanding, or it was aborted anyway. */
  lemma CancelPreventsIff(w: World, k: nat)
    requires k in w.workers && w.workers[k].stage.Consumed? && w.files.cancel
    ensures Resolve(w, k).executed == w.executed <==> w.workers[k].abort || w.workers[k].timer.Idle?
  {
    var looked := Next(w, Work(k, Check));
    if w.workers[k].timer.Idle? {
      assert looked.workers[k].stage.Looking?;
    } else {
      assert looked.workers[k] == w.workers[k].(stage := Checked, skipped := true, cancelPresent := true);
    }
  }

  // ---------------------------------------------------------------- following a run

  function From(w: World, events: seq<Event>): World
    decreases |events|
  {
    if events == [] then w else From(Next(w, events[0]), events[1..])
  }

  lemma {:induction false} FromConcat(w: World, a: seq<Event>, b: seq<Event>)
    ensures From(w, a + b) == From(From(w, a), b)
    decreases |a|
  {
    if a == [] {
      assert a + b == b;
    } else {
      assert (a + b)[1..] == a[1..] + b;
      FromConcat(Next(w, a[0]), a[1..], b);
    }
  }

  lemma RunSnoc(before: seq<Event>, e: Event)
    ensures Run(before + [e]) == Next(Run(before), e)
  {
    assert (before + [e])[..|before|] == before;
  }

  lemma {:induction false} RunFrom(before: seq<Event>, after: seq<Event>)
    ensures Run(before + after) == From(Run(before), after)
    decreases |after|
  {
    if after == [] {
      assert before + after == before;
    } else {
      var e, rest := after[0], after[1..];
      RunFrom(before + [e], rest);
      RunSnoc(before, e);
      assert before + after == before + [e] + rest;
    }
  }

  lemma One(w: World, a: Event)
    ensures From(w, [a]) == Next(w, a)
  {
    assert [a][1..] == [] && From(Next(w, a), []) == Next(w, a);
  }

  lemma Two(w: World, a: Event, b: Event)
    ensures From(w, [a, b]) == Next(Next(w, a), b)
  {
    assert [a, b][1..] == [b];
    One(Next(w, a), b);
  }

  lemma Three(w: World, a: Event, b: Event, c: Event)
    ensures From(w, [a, b, c]) == Next(Next(Next(w, a), b), c)
  {
    assert [a, b, c][1..] == [b, c];
    Two(Next(w, a), b, c);
  }

  /** A start up to its reservation. */
  function Reserves(s: nat, h: Hash): seq<Event> { [Call(s, h), Step(s, Look), Step(s, Reserve)] }

  lemma ReserveSteps(w: World, s: nat, h: Hash)
    requires s !in w.starters && !w.files.present && w.files.status.None?
    ensures From(w, Reserves(s, h)) ==
            w.(files := RESERVED, starters := w.starters[s := Recording(h, |w.entries|)],
               entries := w.entries + [Reservation(s, h)], lives := w.lives + 1)
  {
    Three(w, Call(s, h), Step(s, Look), Step(s, Reserve));
  }

  /** From there to the launch of a worker. */
  function Launches(s: nat, k: nat): seq<Event> { [Step(s, Record), Step(s, Submit), Spawn(s, k)] }

  lemma LaunchSteps(w: World, s: nat, k: nat, h: Hash, e: nat)
    requires s in w.starters && w.starters[s] == Recording(h, e) && w.files == RESERVED && k !in w.workers
    ensures From(w, Launches(s, k)) ==
            w.(files := Files(true, Some(Status(h, Starting)), Some(Request(e, h)), false, false),
               starters := w.starters[s := Launching(h, e)], workers := w.workers[k := NewWorker(s)])
  {
    Three(w, Step(s, Record), Step(s, Submit), Spawn(s, k));
  }

  /** A whole start and one worker. */
  function Starts(s: nat, k: nat, h: Hash): seq<Event> { Reserves(s, h) + Launches(s, k) }

  lemma StartSteps(w: World, s: nat, k: nat, h: Hash)
    requires s !in w.starters && k !in w.workers && !w.files.present && w.files.status.None?
    ensures From(w, Starts(s, k, h)) ==
            w.(files := Files(true, Some(Status(h, Starting)), Some(Request(|w.entries|, h)), false, false),
               starters := w.starters[s := Launching(h, |w.entries|)], workers := w.workers[k := NewWorker(s)],
               entries := w.entries + [Reservation(s, h)], lives := w.lives + 1)
  {
    FromConcat(w, Reserves(s, h), Launches(s, k));
    ReserveSteps(w, s, h);
    LaunchSteps(From(w, Reserves(s, h)), s, k, h, |w.entries|);
  }

  /** A worker that claims, reads its record and reads its request. */
  function Fetches(k: nat): seq<Event> { [Work(k, Claim), Work(k, Load), Work(k, Fetch)] }

  lemma FetchSteps(w: World, k: nat)
    requires k in w.workers && w.workers[k].stage.Fresh?
    requires w.files.present && !w.files.claimed && w.files.status.Some? && w.files.request.Some?
    ensures From(w, Fetches(k)) ==
            w.(files := w.files.(claimed := true),
               workers := w.workers[k := w.workers[k].(stage := Fetched, life := Some(w.lives),
                                                       record := w.files.status.value, data := w.files.request)])
  {
    Three(w, Work(k, Claim), Work(k, Load), Work(k, Fetch));
  }

  /** It announces itself and takes the request file that is there. */
  function Takes(k: nat): seq<Event> { [Work(k, Announce), Work(k, Consume)] }

  lemma TakeSteps(w: World, k: nat)
    requires k in w.workers && w.workers[k].stage.Fetched? && w.files.present && w.files.request.Some?
    ensures var running := w.workers[k].record.(progress := Running);
            From(w, Takes(k)) ==
            w.(files := w.files.(status := Some(running), request := None),
               workers := w.workers[k := w.workers[k].(stage := Consumed, record := running, consumed := w.files.request)])
  {
    Two(w, Work(k, Announce), Work(k, Consume));
  }

  /** It checks, and with nobody cancelling it executes. */
  function Executes(k: nat): seq<Event> { [Work(k, Check), Work(k, LookNow), Work(k, Decide)] }

  lemma CheckStep(w: World, k: nat)
    requires k in w.workers && w.workers[k].stage.Consumed? && w.workers[k].timer.Idle?
    ensures Next(w, Work(k, Check)) == w.(workers := w.workers[k := w.workers[k].(stage := Looking)])
  {
  }

  lemma LookStep(w: World, k: nat)
    requires k in w.workers && w.workers[k].stage.Looking?
    ensures Next(w, Work(k, LookNow)) ==
            w.(workers := w.workers[k := w.workers[k].(stage := Checked, abort := w.workers[k].abort || w.files.cancel, cancelPresent := w.files.cancel)])
  {
  }

  lemma DecideStep(w: World, k: nat)
    requires k in w.workers && w.workers[k].stage.Checked? && !w.workers[k].abort
    ensures var running := w.workers[k].(stage := Executing);
            Next(w, Work(k, Decide)) == w.(workers := w.workers[k := running], executed := w.executed + [Execution(k, running)])
  {
  }

  lemma ExecuteSteps(w: World, k: nat)
    requires k in w.workers && w.workers[k].stage.Consumed? && w.workers[k].timer.Idle?
    requires !w.workers[k].abort && !w.workers[k].cancelPresent && !w.files.cancel
    ensures var running := w.workers[k].(stage := Executing);
            From(w, Executes(k)) == w.(workers := w.workers[k := running], executed := w.executed + [Execution(k, running)])
  {
    var looking := w.(workers := w.workers[k := w.workers[k].(stage := Looking)]);
    var checked := w.(workers := w.workers[k := w.workers[k].(stage := Checked)]);
    CheckStep(w, k);
    LookStep(looking, k);
    DecideStep(checked, k);
    Three(w, Work(k, Check), Work(k, LookNow), Work(k, Decide));
  }

  /** It succeeds and says so. */
  function Succeeds(k: nat): seq<Event> { [Work(k, Return(true)), Work(k, Conclude)] }

  lemma ReturnStep(w: World, k: nat)
    requires k in w.workers && w.workers[k].stage.Executing?
    ensures Next(w, Work(k, Return(true))) == w.(workers := w.workers[k := w.workers[k].(stage := Ended, success := true)])
  {
  }

  lemma ConcludeStep(w: World, k: nat)
    requires k in w.workers && w.workers[k].stage.Ended? && w.workers[k].success && !w.workers[k].abort && w.files.present
    ensures Next(w, Work(k, Conclude)) ==
            w.(files := w.files.(status := Some(w.workers[k].record.(progress := Done(Succeeded)))),
               workers := w.workers[k := w.workers[k].(stage := Finished, reported := Some(Succeeded))])
  {
  }

  lemma SucceedSteps(w: World, k: nat)
    requires k in w.workers && w.workers[k].stage.Executing? && !w.workers[k].abort && w.files.present
    ensures From(w, Succeeds(k)) ==
            w.(files := w.files.(status := Some(w.workers[k].record.(progress := Done(Succeeded)))),
               workers := w.workers[k := w.workers[k].(stage := Finished, success := true, reported := Some(Succeeded))])
  {
    var ended := w.(workers := w.workers[k := w.workers[k].(stage := Ended, success := true)]);
    ReturnStep(w, k);
    ConcludeStep(ended, k);
    Two(w, Work(k, Return(true)), Work(k, Conclude));
  }

  /** The cancel file appears while a timer look that missed it is still outstanding; the explicit check is skipped. */
  function Skips(k: nat): seq<Event> { [Handle(k, Tick), Handle(k, TickLook), PlaceCancel] }

  lemma SkipSteps(w: World, k: nat)
    requires k in w.workers && w.files.present && !w.files.cancel
    requires w.workers[k].stage.Consumed? && w.workers[k].timer.Idle? && !w.workers[k].abort
    ensures From(w, Skips(k)) == w.(files := w.files.(cancel := true), workers := w.workers[k := w.workers[k].(timer := Seen(false))])
  {
    Three(w, Handle(k, Tick), Handle(k, TickLook), PlaceCancel);
    assert Next(w, Handle(k, Tick)) == w.(workers := w.workers[k := w.workers[k].(timer := Asked)]);
  }

  /** Skipping the look, it executes all the same. */
  lemma SkippedSteps(w: World, k: nat)
    requires k in w.workers && w.workers[k].stage.Consumed? && w.workers[k].timer.Seen? && !w.workers[k].abort && w.files.cancel
    ensures var after := From(w, [Work(k, Check), Work(k, Decide)]);
            |after.executed| == |w.executed| + 1 && after.executed[|w.executed|].worker.cancelPresent
  {
    var checked := w.(workers := w.workers[k := w.workers[k].(stage := Checked, skipped := true, cancelPresent := true)]);
    assert Next(w, Work(k, Check)) == checked;
    DecideStep(checked, k);
    Two(w, Work(k, Check), Work(k, Decide));
  }

  /** A cancel file that was there before the explicit check need not prevent the execution. */
  lemma CancelledJobStillRuns()
    ensures var w := Run(Starts(0, 0, "h") + Fetches(0) + Takes(0) + Skips(0) + [Work(0, Check), Work(0, Decide)]);
            |w.executed| == 1 && w.executed[0].worker.cancelPresent
  {
    StartSteps(EMPTY, 0, 0, "h");
    var started := From(EMPTY, Starts(0, 0, "h"));
    FetchSteps(started, 0);
    var fetched := From(started, Fetches(0));
    TakeSteps(fetched, 0);
    var taken := From(fetched, Takes(0));
    SkipSteps(taken, 0);
    var skipped := From(taken, Skips(0));
    SkippedSteps(skipped, 0);
    RunPhases(Starts(0, 0, "h"), Fetches(0), Takes(0), Skips(0), [Work(0, Check), Work(0, Decide)]);
  }

  lemma RunPhases(a: seq<Event>, b: seq<Event>, c: seq<Event>, d: seq<Event>, e: seq<Event>)
    ensures Run(a + b + c + d + e) == From(From(From(From(From(EMPTY, a), b), c), d), e)
  {
    assert [] + a == a && Run([]) == EMPTY;
    RunFrom([], a);
    RunFrom(a, b);
    RunFrom(a + b, c);
    RunFrom(a + b + c, d);
    RunFrom(a + b + c + d, e);
  }
}
