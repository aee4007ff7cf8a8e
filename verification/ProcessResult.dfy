/**
  What the caller of a bounded process is told, said by the events of its run: whose exit code, and
  which failure for which reason.
 */
module ProcessResult {
  import opened Wrappers
  import opened BoundedProcess

  datatype Cause = Aborting | TimingOut | Exceeding | Spoiling | NotSpawning | StdinFailing | Settling(code: int)

  predicate Open(p: Process) { p.closed.None? }

  /** Output arrives that was written. */
  predicate Delivers(p: Process, a: Action) { Open(p) && a.Data? && p.output.received + a.bytes <= p.output.written }

  /** The event is a cause, in the state in which it comes. */
  predicate Causes(l: Limits, p: Process, a: Action, c: Cause) {
    match c
    case Aborting => Open(p) && a.Abort?
    case TimingOut => Open(p) && a.TimeoutFires?
    // More than the limit has arrived; nobody counts any more once the output cannot be written down.
    case Exceeding => Delivers(p, a) && !a.hookFails && !p.faults.spoolError && p.output.received + a.bytes > l.maxOutputBytes
    // Output cannot be written down, even after the settlement, or the hook refuses it.
    case Spoiling => a.SpoolFails? || (Delivers(p, a) && a.hookFails && !p.faults.outputExceeded)
    case NotSpawning => a.SpawnFails?
    case StdinFailing => a.StdinFails?
    // The process has exited and its pipes have been read to the end, or the pipe timer gives them up.
    case Settling(code) =>
      Open(p) && ((a == Close(code) && p.output.received >= p.output.written) || (a == PipeFires(code) && p.timers.pipe.Some?))
  }

  /** Some event of the run was this cause. */
  predicate Happened(l: Limits, start: Process, events: seq<Event>, c: Cause) {
    events != [] &&
    var init, last := events[..|events| - 1], events[|events| - 1];
    Happened(l, start, init, c) || Causes(l, Run(l, start, init), last.action, c)
  }

  predicate Has(p: Process, c: Cause) {
    match c
    case Aborting => p.faults.cancelled
    case TimingOut => p.faults.timedOut
    case Exceeding => p.faults.outputExceeded
    case Spoiling => p.faults.spoolError
    case NotSpawning => p.faults.spawnError
    case StdinFailing => p.faults.stdinError
    case Settling(code) => p.closed == Some(code)
  }

  /** Until something fails everything that arrived was counted, and until it fires the deadline is pending. */
  predicate Watched(p: Process) {
    && (!p.faults.outputExceeded && !p.faults.spoolError ==> p.output.counted == p.output.received)
    && (Open(p) ==> p.timers.timeout.Some? || p.faults.timedOut)
    && (!Open(p) ==> p.timers == NO_TIMERS)
  }

  lemma DataWatched(l: Limits, p: Process, a: Action)
    requires Watched(p) && a.Data?
    ensures Watched(Act(l, p, a))
  {
  }

  lemma ActWatched(l: Limits, p: Process, a: Action)
    requires Watched(p)
    ensures Watched(Act(l, p, a))
  {
    if a.Data? {
      DataWatched(l, p, a);
    }
  }

  lemma DataCauses(l: Limits, p: Process, a: Action, c: Cause)
    requires Watched(p) && a.Data?
    ensures Has(Act(l, p, a), c) <==> Has(p, c) || Causes(l, p, a, c)
  {
  }

  lemma SettlementCauses(l: Limits, p: Process, a: Action, c: Cause)
    requires Watched(p) && (a.Close? || a.PipeFires?)
    ensures Has(Act(l, p, a), c) <==> Has(p, c) || Causes(l, p, a, c)
  {
  }

  /** A fault is there as soon as its cause is, and for no other reason. */
  lemma ActCauses(l: Limits, p: Process, a: Action, c: Cause)
    requires Watched(p)
    ensures Has(Act(l, p, a), c) <==> Has(p, c) || Causes(l, p, a, c)
  {
    if a.Data? {
      DataCauses(l, p, a, c);
    } else if a.Close? || a.PipeFires? {
      SettlementCauses(l, p, a, c);
    }
  }

  lemma {:induction false} EveryRunWatched(l: Limits, at: int, spawned: bool, events: seq<Event>)
    ensures Watched(Run(l, Spawn(l, at, spawned), events))
  {
    if events != [] {
      var p, e := Run(l, Spawn(l, at, spawned), events[..|events| - 1]), events[|events| - 1];
      EveryRunWatched(l, at, spawned, events[..|events| - 1]);
      ActWatched(l, p.(now := e.at), e.action);
    }
  }

  /** In every run each fault is there, and the exit code settled with is this one, exactly if the cause has happened. */
  lemma {:induction false} FaultsHaveCauses(l: Limits, at: int, spawned: bool, events: seq<Event>, c: Cause)
    ensures Has(Run(l, Spawn(l, at, spawned), events), c) <==> Happened(l, Spawn(l, at, spawned), events, c)
  {
    if events != [] {
      var p, e := Run(l, Spawn(l, at, spawned), events[..|events| - 1]), events[|events| - 1];
      FaultsHaveCauses(l, at, spawned, events[..|events| - 1], c);
      EveryRunWatched(l, at, spawned, events[..|events| - 1]);
      ActCauses(l, p.(now := e.at), e.action, c);
    }
  }

  /** The causes of failures that have happened in the run. */
  function Reasons(l: Limits, start: Process, events: seq<Event>): Faults {
    Faults(Happened(l, start, events, Aborting), Happened(l, start, events, TimingOut), Happened(l, start, events, Exceeding),
           Happened(l, start, events, Spoiling), Happened(l, start, events, NotSpawning), Happened(l, start, events, StdinFailing))
  }

  lemma FaultsAreReasons(l: Limits, at: int, spawned: bool, events: seq<Event>)
    ensures Run(l, Spawn(l, at, spawned), events).faults == Reasons(l, Spawn(l, at, spawned), events)
  {
    FaultsHaveCauses(l, at, spawned, events, Aborting);
    FaultsHaveCauses(l, at, spawned, events, TimingOut);
    FaultsHaveCauses(l, at, spawned, events, Exceeding);
    FaultsHaveCauses(l, at, spawned, events, Spoiling);
    FaultsHaveCauses(l, at, spawned, events, NotSpawning);
    FaultsHaveCauses(l, at, spawned, events, StdinFailing);
  }

  /** The failure that the caller is told: the first of these reasons, in this order, that there is. */
  predicate Tells(r: Faults, code: int, f: Failure) {
    match f
    case Cancelled => r.cancelled
    case OutputLimit => !r.cancelled && r.outputExceeded
    case SpoolFailed => !r.cancelled && !r.outputExceeded && r.spoolError
    case SpawnFailed => !r.cancelled && !r.outputExceeded && !r.spoolError && r.spawnError
    case StdinFailed => !r.cancelled && !r.outputExceeded && !r.spoolError && !r.spawnError && r.stdinError && code == 0
  }

  lemma ResultIsTold(p: Process, code: int)
    ensures forall f :: ResultOf(p, code) == Failed(f) <==> Tells(p.faults, code, f)
    ensures ResultOf(p, code).Returned? ==> ResultOf(p, code) == Returned(code, p.faults.timedOut)
  {
  }

  /**
    The result.  The caller is told the first reason for a failure, in the order of the checks, that
    has happened.  If there is none, it gets the code of the event that settled the run, and is told
    whether the deadline had passed.
   */
  lemma ResultIsWhatHappened(l: Limits, at: int, spawned: bool, events: seq<Event>, code: int)
    requires Run(l, Spawn(l, at, spawned), events).closed == Some(code)
    ensures Happened(l, Spawn(l, at, spawned), events, Settling(code))
    ensures var start := Spawn(l, at, spawned);
            var result, reasons := ResultOf(Run(l, start, events), code), Reasons(l, start, events);
            && (forall f :: result == Failed(f) <==> Tells(reasons, code, f))
            && (result.Returned? ==> result == Returned(code, reasons.timedOut))
  {
    FaultsHaveCauses(l, at, spawned, events, Settling(code));
    FaultsAreReasons(l, at, spawned, events);
    ResultIsTold(Run(l, Spawn(l, at, spawned), events), code);
  }

  /** The code is that of the first settling event: from then on it stays. */
  lemma FirstSettlementCounts(l: Limits, at: int, spawned: bool, before: seq<Event>, e: Event, after: seq<Event>, code: int)
    requires Causes(l, Run(l, Spawn(l, at, spawned), before), e.action, Settling(code))
    ensures Run(l, Run(l, Spawn(l, at, spawned), before + [e]), after).closed == Some(code)
  {
    var p := Run(l, Spawn(l, at, spawned), before);
    assert (before + [e])[..|before|] == before;
    EveryRunWatched(l, at, spawned, before);
    ActCauses(l, p.(now := e.at), e.action, Settling(code));
    SettlesOnce(l, at, spawned, before + [e], after);
  }
}
