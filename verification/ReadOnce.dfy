/**
  When a reservation is executed at most once: exactly as long as no worker reads a request that
  another one already holds.  Nothing is assumed about removals; they may take any file at any time.
 */
module ReadOnce {
  import opened Wrappers
  import opened AtMostOnce

  /** A worker that holds the request of a reservation and has not failed before taking a request file. */
  predicate Holding(k: Worker) { k.data.Some? && (k.Rank() <= 4 || k.consumed.Some?) }

  predicate Holds(w: World, j: nat, entry: nat) {
    j in w.workers && Holding(w.workers[j]) && w.workers[j].data.value.entry == entry
  }

  /** A reservation has at most one holder. */
  ghost predicate OneHolder(w: World) {
    forall j, k | j in w.workers && k in w.workers && j != k && Holding(w.workers[j]) && Holding(w.workers[k]) ::
      w.workers[j].data.value.entry != w.workers[k].data.value.entry
  }

  /** As long as the request of a reservation is on disk or owed, its holder has not taken a file, or there is none. */
  ghost predicate Unspent(w: World) {
    && (forall k | k in w.workers && Holding(w.workers[k]) && w.files.request.Some? ::
          w.workers[k].data.value.entry == w.files.request.value.entry ==> 3 <= w.workers[k].Rank() <= 4)
    && (forall s, k | s in w.starters && w.starters[s].Owes() && k in w.workers && w.workers[k].data.Some? ::
          w.workers[k].data.value.entry != w.starters[s].entry)
  }

  /** The event is a worker's reading of a request that another worker holds. */
  predicate Refetches(w: World, e: Event) {
    && e.Work? && e.working.Fetch? && e.k in w.workers && w.workers[e.k].stage.Loaded? && w.files.request.Some?
    && exists j | j in w.workers :: j != e.k && Holds(w, j, w.files.request.value.entry)
  }

  // ---------------------------------------------------------------- a worker's step

  lemma KeepOneHolder(w: World, k: nat, m: Worked)
    requires OneHolder(w) && k in w.workers && m.worker.data == w.workers[k].data
    requires w.workers[k].Sound() && Legal(w.files, w.workers[k], w.lives, m)
    ensures OneHolder(AfterWork(w, k, m))
  {
    assert Holding(m.worker) ==> Holding(w.workers[k]);
  }

  lemma KeepUnspent(w: World, k: nat, m: Worked)
    requires Unspent(w) && k in w.workers && m.worker.data == w.workers[k].data
    requires w.workers[k].Sound() && Legal(w.files, w.workers[k], w.lives, m)
    ensures Unspent(AfterWork(w, k, m))
  {
    assert Holding(m.worker) ==> Holding(w.workers[k]);
    if m.worker.consumed != w.workers[k].consumed || (w.workers[k].Rank() <= 4 < m.worker.Rank() && Holding(m.worker)) {
      assert m.files.request.None? || m.worker.data.None?;
    }
  }

  /** A worker that reads the request becomes its holder, beside another one or not. */
  lemma FetchOneHolderIff(w: World, k: nat, m: Worked)
    requires OneHolder(w) && k in w.workers && w.workers[k].stage.Loaded? && w.workers[k].data.None?
    requires w.files.request.Some? && m.worker.data == w.files.request && Holding(m.worker)
    ensures OneHolder(AfterWork(w, k, m)) <==> forall j | j in w.workers && j != k :: !Holds(w, j, w.files.request.value.entry)
  {
    var after := AfterWork(w, k, m);
    if j :| j in w.workers && j != k && Holds(w, j, w.files.request.value.entry) {
      assert after.workers[j] == w.workers[j] && after.workers[k] == m.worker;
    }
  }

  lemma FetchUnspent(w: World, k: nat, m: Worked)
    requires Tokens(w) && Unspent(w) && k in w.workers && m.worker.stage.Fetched?
    requires w.files.request.Some? && m.worker.data == w.files.request && m.files == w.files
    ensures Unspent(AfterWork(w, k, m))
  {
  }

  /** A request is read by `Fetch` and in no other way. */
  ghost predicate Reads(f: Files, k: Worker, a: WorkerAction, m: Worked) {
    && (m.worker.data != k.data <==> a.Fetch? && k.stage.Loaded? && f.request.Some?)
    && (m.worker.data != k.data ==>
          k.data.None? && m.worker.data == f.request && m.worker.stage.Fetched? && m.files == f)
  }

  lemma ApproachReads(f: Files, k: Worker, life: nat, a: WorkerAction)
    requires k.Sound() && k.Rank() <= 4
    ensures Reads(f, k, a, Approach(f, k, life, a))
  {
  }

  lemma PerformReads(f: Files, k: Worker, a: WorkerAction)
    requires k.Rank() > 4
    ensures Reads(f, k, a, Perform(f, k, a))
  {
  }

  lemma MoveReads(f: Files, k: Worker, life: nat, a: WorkerAction)
    requires k.Sound()
    ensures Reads(f, k, a, WorkerMove(f, k, life, a))
  {
    if a.Fault? {
    } else if k.Rank() <= 4 {
      ApproachReads(f, k, life, a);
    } else {
      PerformReads(f, k, a);
    }
  }

  lemma Moved(w: World, k: nat, a: WorkerAction) returns (m: Worked)
    requires Inv(w) && k in w.workers
    ensures Next(w, Work(k, a)) == AfterWork(w, k, m) && w.workers[k].Sound()
    ensures Legal(w.files, w.workers[k], w.lives, m) && Reads(w.files, w.workers[k], a, m)
  {
    MoveLegal(w.files, w.workers[k], w.lives, a);
    MoveReads(w.files, w.workers[k], w.lives, a);
    m := WorkerMove(w.files, w.workers[k], w.lives, a);
  }

  lemma WorkReadsOnce(w: World, k: nat, a: WorkerAction)
    requires Inv(w) && OneHolder(w) && Unspent(w)
    ensures Unspent(Next(w, Work(k, a))) && (OneHolder(Next(w, Work(k, a))) <==> !Refetches(w, Work(k, a)))
  {
    if k in w.workers {
      var m := Moved(w, k, a);
      if m.worker.data == w.workers[k].data {
        KeepOneHolder(w, k, m);
        KeepUnspent(w, k, m);
      } else {
        FetchOneHolderIff(w, k, m);
        FetchUnspent(w, k, m);
      }
    }
  }

  lemma HandleReadsOnce(w: World, k: nat, h: Handler)
    requires Inv(w) && OneHolder(w) && Unspent(w)
    ensures OneHolder(Next(w, Handle(k, h))) && Unspent(Next(w, Handle(k, h)))
  {
    if k in w.workers {
      var m := Worked(w.files, Handled(w.files, w.workers[k], h), false);
      HandledLegal(w.files, w.workers[k], w.lives, h);
      HandledFrame(w.files, w.workers[k], h);
      KeepOneHolder(w, k, m);
      KeepUnspent(w, k, m);
    }
  }

  // ---------------------------------------------------------------- every other step

  lemma StartReadsOnce(w: World, s: nat, m: Started)
    requires Inv(w) && OneHolder(w) && Unspent(w) && s in w.starters
    requires LegalStart(w.files, w.starters[s], |w.entries|, m)
    ensures OneHolder(AfterStart(w, s, m)) && Unspent(AfterStart(w, s, m))
  {
  }

  lemma StepReadsOnce(w: World, s: nat, a: StarterAction)
    requires Inv(w) && OneHolder(w) && Unspent(w)
    ensures OneHolder(Next(w, Step(s, a))) && Unspent(Next(w, Step(s, a)))
  {
    if s in w.starters {
      StartLegal(w.files, w.starters[s], |w.entries|, a);
      StartReadsOnce(w, s, StarterMove(w.files, w.starters[s], |w.entries|, a));
    }
  }

  lemma OthersReadOnce(w: World, e: Event)
    requires OneHolder(w) && Unspent(w) && !e.Work? && !e.Handle? && !e.Step?
    ensures OneHolder(Next(w, e)) && Unspent(Next(w, e))
  {
  }

  /** A step out of a world in which every reservation has one holder keeps that, unless it reads a held request. */
  lemma NextReadsOnce(w: World, e: Event)
    requires Inv(w) && OneHolder(w) && Unspent(w)
    ensures Unspent(Next(w, e)) && (OneHolder(Next(w, e)) <==> !Refetches(w, e))
  {
    match e
    case Work(k, a) => WorkReadsOnce(w, k, a);
    case Handle(k, h) => HandleReadsOnce(w, k, h);
    case Step(s, a) => StepReadsOnce(w, s, a);
    case _ => OthersReadOnce(w, e);
  }

  // ---------------------------------------------------------------- over runs

  ghost predicate AlwaysOneHolder(events: seq<Event>) {
    OneHolder(Run(events)) && (events == [] || AlwaysOneHolder(events[..|events| - 1]))
  }

  predicate NeverRefetches(events: seq<Event>) {
    events == [] ||
    (NeverRefetches(events[..|events| - 1]) && !Refetches(Run(events[..|events| - 1]), events[|events| - 1]))
  }

  /**
    At every moment of a run each reservation has at most one holder if and only if no worker ever
    reads a request that another one holds.
   */
  lemma {:induction false} OneHolderIff(events: seq<Event>)
    ensures AlwaysOneHolder(events) <==> NeverRefetches(events)
    ensures NeverRefetches(events) ==> Unspent(Run(events))
  {
    if events != [] {
      var init := events[..|events| - 1];
      OneHolderIff(init);
      EveryRunInv(init);
      if NeverRefetches(init) {
        NextReadsOnce(Run(init), events[|events| - 1]);
      }
    }
  }

  /** Whatever is removed and when: in a run without such a reading no reservation is executed twice. */
  lemma ReservationRunsOnce(events: seq<Event>, i: nat, j: nat)
    requires NeverRefetches(events) && i < j < |Run(events).executed|
    ensures Run(events).executed[i].worker.data.Some? && Run(events).executed[j].worker.data.Some?
    ensures Run(events).executed[i].worker.data.value.entry != Run(events).executed[j].worker.data.value.entry
  {
    var w := Run(events);
    EveryRunInv(events);
    OneHolderIff(events);
    RequestKnown(w, i);
    RequestKnown(w, j);
    var a, b := w.executed[i], w.executed[j];
    assert a.id != b.id && w.workers[a.id].data == a.worker.data && w.workers[b.id].data == b.worker.data;
    assert Holding(w.workers[a.id]) && Holding(w.workers[b.id]);
  }
}
