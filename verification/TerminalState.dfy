/** When the terminal state of a job is final: exactly when its claim mark is there and no worker is in flight. */
module TerminalState {
  import opened Wrappers
  import opened AtMostOnce
  import opened CarefulRemoval
  import JobOutcome

  /** Anything but a removal; a record is rewritten only as it stands. */
  predicate Ordinary(w: World, e: Event) {
    !e.Remove? && !e.RemoveAll? && Orderly(w, None, e)
  }

  /** The event writes a status of its own. */
  predicate Writes(w: World, e: Event) {
    w.files.present &&
    match e
    case Step(s, a) => s in w.starters && w.starters[s].Recording? && a.Record?
    case Work(k, a) =>
      k in w.workers && ((w.workers[k].stage.Fetched? && a.Announce?) || (w.workers[k].stage.Ended? && a.Conclude?))
    case _ => false
  }

  predicate Ordinarily(w: World, events: seq<Event>)
    decreases |events|
  {
    events == [] || (Ordinary(w, events[0]) && Ordinarily(Next(w, events[0]), events[1..]))
  }

  predicate NeverWritten(w: World, events: seq<Event>)
    decreases |events|
  {
    events == [] || (!Writes(w, events[0]) && NeverWritten(Next(w, events[0]), events[1..]))
  }

  /** The directory is claimed, and whoever claimed it has come to its end. */
  ghost predicate Mastered(w: World) { w.files.claimed && CarefulRemoval.Idle(w) }

  // ---------------------------------------------------------------- a mastered directory stays as it is

  lemma WorkMastered(w: World, k: nat, m: Worked)
    requires Claims(w) && Mastered(w) && k in w.workers && w.workers[k].Sound() && Legal(w.files, w.workers[k], w.lives, m)
    ensures Mastered(AfterWork(w, k, m))
  {
    assert !w.workers[k].InFlight();
  }

  lemma NextMastered(w: World, e: Event)
    requires Inv(w) && Mastered(w) && !e.Remove? && !e.RemoveAll?
    ensures Mastered(Next(w, e))
  {
    match e
    case Work(k, a) =>
      if k in w.workers {
        MoveLegal(w.files, w.workers[k], w.lives, a);
        WorkMastered(w, k, WorkerMove(w.files, w.workers[k], w.lives, a));
      }
    case Handle(k, h) =>
      if k in w.workers {
        HandledLegal(w.files, w.workers[k], w.lives, h);
        WorkMastered(w, k, Worked(w.files, Handled(w.files, w.workers[k], h), false));
      }
    case Step(s, a) =>
      if s in w.starters {
        StartLegal(w.files, w.starters[s], |w.entries|, a);
      }
    case _ =>
  }

  lemma MasteredNotWritten(w: World, todo: Option<set<Part>>, e: Event)
    requires Tidy(w, todo) && Complete(w.files) && Mastered(w)
    ensures !Writes(w, e)
  {
    if e.Work? && e.k in w.workers {
      assert !w.workers[e.k].InFlight();
    }
  }

  /** A terminal state that is mastered stays, whoever starts, launches, cancels or finishes late. */
  lemma {:induction false} MasteredStays(w: World, todo: Option<set<Part>>, events: seq<Event>)
    requires Inv(w) && Tidy(w, todo) && Complete(w.files) && Mastered(w) && Ordinarily(w, events)
    ensures NeverWritten(w, events) && From(w, events).files.status == w.files.status
    decreases |events|
  {
    if events != [] {
      var e := events[0];
      MasteredNotWritten(w, todo, e);
      NextInv(w, e);
      NextTidy(w, todo, e);
      NextMastered(w, e);
      StatusKept(w, todo, e);
      MasteredStays(Next(w, e), todo, events[1..]);
    }
  }

  // ---------------------------------------------------------------- any other is written again

  lemma WrittenLater(w: World, e: Event, more: seq<Event>)
    requires Ordinary(w, e) && Ordinarily(Next(w, e), more) && !NeverWritten(Next(w, e), more)
    ensures Ordinarily(w, [e] + more) && !NeverWritten(w, [e] + more)
  {
    assert ([e] + more)[1..] == more;
  }

  lemma EndedWrites(w: World, k: nat) returns (more: seq<Event>)
    requires k in w.workers && w.workers[k].stage.Ended? && w.files.present
    ensures Ordinarily(w, more) && !NeverWritten(w, more)
  {
    more := [Work(k, Conclude)];
  }

  lemma WatchingWrites(w: World, k: nat) returns (more: seq<Event>)
    requires k in w.workers && w.workers[k].Watching() && w.files.present
    ensures Ordinarily(w, more) && !NeverWritten(w, more)
  {
    var e := Work(k, Fault);
    var rest := EndedWrites(Next(w, e), k);
    WrittenLater(w, e, rest);
    more := [e] + rest;
  }

  lemma ClaimedWrites(w: World, k: nat) returns (more: seq<Event>)
    requires k in w.workers && w.workers[k].stage.Claimed? && w.files.present && w.files.status.Some?
    ensures Ordinarily(w, more) && !NeverWritten(w, more)
  {
    var e := Work(k, Load);
    var rest := WatchingWrites(Next(w, e), k);
    WrittenLater(w, e, rest);
    more := [e] + rest;
  }

  /** A worker in flight can always come to its report. */
  lemma InFlightWrites(w: World, k: nat) returns (more: seq<Event>)
    requires k in w.workers && w.workers[k].InFlight() && w.files.present && w.files.status.Some?
    ensures Ordinarily(w, more) && !NeverWritten(w, more)
  {
    if w.workers[k].stage.Claimed? {
      more := ClaimedWrites(w, k);
    } else if w.workers[k].stage.Ended? {
      more := EndedWrites(w, k);
    } else {
      more := WatchingWrites(w, k);
    }
  }

  lemma LateWorkerWrites(w: World, s: nat, k: nat) returns (more: seq<Event>)
    requires s in w.starters && w.starters[s].MayLaunch() && k !in w.workers
    requires w.files.present && w.files.status.Some? && !w.files.claimed
    ensures Ordinarily(w, more) && !NeverWritten(w, more)
  {
    var launched := Next(w, Spawn(s, k));
    var claimed := Next(launched, Work(k, Claim));
    var rest := ClaimedWrites(claimed, k);
    WrittenLater(launched, Work(k, Claim), rest);
    WrittenLater(w, Spawn(s, k), [Work(k, Claim)] + rest);
    more := [Spawn(s, k)] + ([Work(k, Claim)] + rest);
  }

  lemma {:induction false} NewId(ids: set<nat>) returns (k: nat)
    ensures forall id | id in ids :: id < k
    decreases |ids|
  {
    if ids == {} {
      k := 0;
    } else {
      var id :| id in ids;
      var rest := NewId(ids - {id});
      k := if id < rest then rest else id + 1;
      forall x | x in ids
        ensures x < k
      {
        assert x == id || x in ids - {id};
      }
    }
  }

  lemma UnmasteredIsWritten(w: World, todo: Option<set<Part>>, j: nat) returns (more: seq<Event>)
    requires Inv(w) && Tidy(w, todo) && Complete(w.files) && !Mastered(w) && j in w.workers
    ensures Ordinarily(w, more) && !NeverWritten(w, more)
  {
    if CarefulRemoval.Idle(w) {
      var k := NewId(w.workers.Keys);
      assert k !in w.workers;
      more := LateWorkerWrites(w, w.workers[j].parent, k);
    } else {
      var k :| k in w.workers && w.workers[k].InFlight();
      more := InFlightWrites(w, k);
    }
  }

  /**
    After any orderly history, a removal possibly under way, a terminal state is written over in no
    continuation without further removals if and only if the claim mark is there and no worker is
    in flight.
   */
  lemma TerminalIsFinalIff(events: seq<Event>)
    requires OrderlyRun(events) && Complete(Run(events).files)
    ensures var w := Run(events);
            (forall more | Ordinarily(w, more) :: NeverWritten(w, more)) <==> w.files.claimed && CarefulRemoval.Idle(w)
  {
    var w := Run(events);
    EveryRunInv(events);
    OrderlyRunTidy(events);
    if Mastered(w) {
      forall more | Ordinarily(w, more)
        ensures NeverWritten(w, more)
      {
        MasteredStays(w, Todo(events), more);
      }
    } else {
      JobOutcome.EveryRunTruthful(events);
      var j :| j in w.workers;
      var more := UnmasteredIsWritten(w, Todo(events), j);
      assert Ordinarily(w, more) && !NeverWritten(w, more);
    }
  }

  /** That is so unless a removal has taken the claim mark and not yet the status file. */
  lemma UnexposedIsMastered(events: seq<Event>)
    requires OrderlyRun(events) && Complete(Run(events).files) && !Exposed(Todo(events))
    ensures Run(events).files.claimed && CarefulRemoval.Idle(Run(events))
  {
    OrderlyRunTidy(events);
  }

  /** And then the status file reads the same after every such continuation. */
  lemma TerminalStateStays(events: seq<Event>, more: seq<Event>)
    requires OrderlyRun(events) && Complete(Run(events).files) && Run(events).files.claimed && CarefulRemoval.Idle(Run(events))
    requires Ordinarily(Run(events), more)
    ensures From(Run(events), more).files.status == Run(events).files.status
  {
    EveryRunInv(events);
    OrderlyRunTidy(events);
    MasteredStays(Run(events), Todo(events), more);
  }
}
