/**
  A child process with a deadline and an output limit: the handlers that terminate it, the timers
  that escalate, and the one settlement of its result.
 */
module BoundedProcess {
  import opened Wrappers

  const FORCE_KILL_DELAY_MS: int := 1_000
  const PIPE_CLOSE_GRACE_MS: int := 250

  datatype Signal = SIGTERM | SIGKILL

  datatype Sent = Sent(signal: Signal, at: int)

  datatype Limits = Limits(timeoutMs: nat, maxOutputBytes: nat)

  /** Why it did not end well. */
  datatype Faults = Faults(
    cancelled: bool, timedOut: bool, outputExceeded: bool, spoolError: bool, spawnError: bool, stdinError: bool)

  /** Output bytes written into the pipes, those delivered, those counted against the limit, and those kept. */
  datatype Output = Output(written: nat, received: nat, counted: nat, stored: nat)

  /** When each pending timer is due. */
  datatype Timers = Timers(timeout: Option<int>, force: Option<int>, pipe: Option<int>)

  /** `spawned` says that the child has a process id; `closed` holds the exit code it settled with. */
  datatype Process = Process(
    now: int, spawned: bool, closed: Option<int>, terminating: bool,
    faults: Faults, output: Output, timers: Timers, sent: seq<Sent>)

  datatype Action =
    | Writes(bytes: nat)
    | Data(bytes: nat, hookFails: bool)
    | SpoolFails
    | SpawnFails
    | StdinFails
    | Abort
    | TimeoutFires
    | ForceFires
    | PipeFires(code: int)
    | Close(code: int)

  datatype Event = Event(at: int, action: Action)

  const NO_TIMERS := Timers(None, None, None)
  const NO_FAULTS := Faults(false, false, false, false, false, false)

  function Spawn(l: Limits, at: int, spawned: bool): Process {
    Process(at, spawned, None, false, NO_FAULTS, Output(0, 0, 0, 0), NO_TIMERS.(timeout := Some(at + l.timeoutMs)), [])
  }

  function SignalTo(p: Process, s: Signal): Process {
    if p.closed.Some? || !p.spawned then p else p.(sent := p.sent + [Sent(s, p.now)])
  }

  function Terminated(p: Process): Process {
    if p.terminating || p.closed.Some? then p
    else SignalTo(p, SIGTERM).(terminating := true, timers := p.timers.(force := Some(p.now + FORCE_KILL_DELAY_MS)))
  }

  /** Settles with the exit code; the awaiting code clears the timers before any other event. */
  function Settle(p: Process, code: int): Process {
    if p.closed.Some? then p
    else (if p.terminating then SignalTo(p, SIGKILL) else p).(closed := Some(code), timers := NO_TIMERS)
  }

  function Collect(l: Limits, p: Process, bytes: nat, hookFails: bool): Process {
    var o := p.output.(received := p.output.received + bytes);
    if p.faults.outputExceeded || p.faults.spoolError then p.(output := o)
    else
      var counted := o.(counted := o.counted + bytes);
      if hookFails then Terminated(p.(output := counted, faults := p.faults.(spoolError := true)))
      else if counted.counted > l.maxOutputBytes
      then Terminated(p.(output := counted, faults := p.faults.(outputExceeded := true)))
      else p.(output := counted.(stored := o.stored + bytes))
  }

  /** The close event comes once the pipes have been read to their end; the pipe timer destroys what is left in them. */
  function Act(l: Limits, p: Process, a: Action): Process {
    match a
    case Writes(bytes) => if p.closed.Some? then p else p.(output := p.output.(written := p.output.written + bytes))
    case Data(bytes, hookFails) =>
      if p.closed.Some? || p.output.received + bytes > p.output.written then p else Collect(l, p, bytes, hookFails)
    case SpoolFails => Terminated(p.(faults := p.faults.(spoolError := true)))
    case SpawnFails => p.(faults := p.faults.(spawnError := true))
    case StdinFails => p.(faults := p.faults.(stdinError := true))
    case Abort => if p.closed.Some? then p else Terminated(p.(faults := p.faults.(cancelled := true)))
    case TimeoutFires =>
      if p.timers.timeout.None? then p
      else Terminated(p.(faults := p.faults.(timedOut := true), timers := p.timers.(timeout := None)))
    case ForceFires =>
      if p.timers.force.None? then p
      else SignalTo(p, SIGKILL).(timers := p.timers.(force := None, pipe := Some(p.now + PIPE_CLOSE_GRACE_MS)))
    case PipeFires(code) => if p.timers.pipe.None? then p else Settle(p, code)
    case Close(code) => if p.output.received < p.output.written then p else Settle(p, code)
  }

  function Next(l: Limits, p: Process, e: Event): Process {
    Act(l, p.(now := e.at), e.action)
  }

  function Run(l: Limits, start: Process, events: seq<Event>): Process {
    if events == [] then start else Next(l, Run(l, start, events[..|events| - 1]), events[|events| - 1])
  }

  // ---------------------------------------------------------------- what the caller gets

  datatype Failure = Cancelled | OutputLimit | SpoolFailed | SpawnFailed | StdinFailed

  datatype Result = Returned(code: int, timedOut: bool) | Failed(failure: Failure)

  /** Once closed and with the spool files finished, in the order of the checks. */
  function ResultOf(p: Process, code: int): Result {
    if p.faults.cancelled then Failed(Cancelled)
    else if p.faults.outputExceeded then Failed(OutputLimit)
    else if p.faults.spoolError then Failed(SpoolFailed)
    else if p.faults.spawnError then Failed(SpawnFailed)
    else if p.faults.stdinError && code == 0 then Failed(StdinFailed)
    else Returned(code, p.faults.timedOut)
  }

  // ---------------------------------------------------------------- output

  ghost predicate Accounted(l: Limits, p: Process) {
    && (!p.faults.outputExceeded && !p.faults.spoolError ==> p.output.stored == p.output.counted == p.output.received)
    && p.output.stored <= l.maxOutputBytes && p.output.received <= p.output.written
    && ((p.closed.Some? && p.output.received < p.output.written) || p.timers.pipe.Some? || p.timers.force.Some? ==> p.terminating)
  }

  lemma CollectAccounted(l: Limits, p: Process, bytes: nat, hookFails: bool)
    requires Accounted(l, p) && p.closed.None? && p.output.received + bytes <= p.output.written
    ensures Accounted(l, Collect(l, p, bytes, hookFails))
  {
  }

  lemma ActAccounted(l: Limits, p: Process, a: Action)
    requires Accounted(l, p)
    ensures Accounted(l, Act(l, p, a))
  {
    if a.Data? && p.closed.None? && p.output.received + a.bytes <= p.output.written {
      CollectAccounted(l, p, a.bytes, a.hookFails);
    }
  }

  lemma {:induction false} EveryRunAccounted(l: Limits, at: int, spawned: bool, events: seq<Event>)
    ensures Accounted(l, Run(l, Spawn(l, at, spawned), events))
  {
    if events != [] {
      var p, e := Run(l, Spawn(l, at, spawned), events[..|events| - 1]), events[|events| - 1];
      EveryRunAccounted(l, at, spawned, events[..|events| - 1]);
      ActAccounted(l, p.(now := e.at), e.action);
    }
  }

  // ---------------------------------------------------------------- signals

  /** Nothing before termination, then one SIGTERM, then only SIGKILLs; a terminated run is killed before it settles. */
  ghost predicate Escalates(p: Process) {
    && (!p.terminating || !p.spawned ==> p.sent == [])
    && (p.terminating && p.spawned ==>
          && |p.sent| >= 1 && p.sent[0].signal == SIGTERM
          && (forall i | 1 <= i < |p.sent| :: p.sent[i].signal == SIGKILL)
          && (p.closed.Some? ==> |p.sent| >= 2))
    && (p.timers.pipe.Some? && p.spawned ==> |p.sent| >= 2)
    && (p.timers.force.Some? || p.timers.pipe.Some? ==> p.terminating)
    && (p.timers.force.None? || p.timers.pipe.None?)
    && (p.timers.force.Some? ==> |p.sent| <= 1) && (p.closed.None? ==> |p.sent| <= 2) && |p.sent| <= 3
  }

  lemma {:induction false} EveryRunEscalates(l: Limits, at: int, spawned: bool, events: seq<Event>)
    ensures Escalates(Run(l, Spawn(l, at, spawned), events))
  {
    if events != [] {
      var p, e := Run(l, Spawn(l, at, spawned), events[..|events| - 1]), events[|events| - 1];
      EveryRunEscalates(l, at, spawned, events[..|events| - 1]);
      ActEscalates(l, p.(now := e.at), e.action);
    }
  }

  lemma ActEscalates(l: Limits, p: Process, a: Action)
    requires Escalates(p)
    ensures Escalates(Act(l, p, a))
  {
  }

  lemma {:induction false} SpawnedIsFixed(l: Limits, at: int, spawned: bool, events: seq<Event>)
    ensures Run(l, Spawn(l, at, spawned), events).spawned == spawned
  {
    if events != [] {
      SpawnedIsFixed(l, at, spawned, events[..|events| - 1]);
    }
  }

  /** In every run at most one SIGTERM is sent, first; a terminated run has sent SIGKILL by the time it settles. */
  lemma SignalsEscalate(l: Limits, at: int, events: seq<Event>)
    ensures var p := Run(l, Spawn(l, at, true), events);
            && (forall i | 0 <= i < |p.sent| :: p.sent[i].signal == (if i == 0 then SIGTERM else SIGKILL)) && |p.sent| <= 3
            && (p.terminating <==> p.sent != [])
            && (p.terminating && p.closed.Some? ==> |p.sent| >= 2)
  {
    EveryRunEscalates(l, at, true, events);
    SpawnedIsFixed(l, at, true, events);
  }

  /** Settled, with every timer cleared. */
  ghost predicate AtRest(p: Process) {
    p.closed.Some? && p.timers == NO_TIMERS
  }

  ghost predicate SameOutcome(p: Process, q: Process) {
    && q.closed == p.closed && q.sent == p.sent && q.terminating == p.terminating && q.output == p.output
    && q.faults.cancelled == p.faults.cancelled && q.faults.timedOut == p.faults.timedOut
    && q.faults.outputExceeded == p.faults.outputExceeded
  }

  lemma ActAtRest(l: Limits, p: Process, a: Action)
    requires AtRest(p)
    ensures AtRest(Act(l, p, a)) && SameOutcome(p, Act(l, p, a))
  {
  }

  /** Once settled, the exit code, the output and the reasons stay and no signal follows, whatever else happens. */
  lemma {:induction false} SettledOnce(l: Limits, p: Process, events: seq<Event>)
    requires AtRest(p)
    ensures AtRest(Run(l, p, events)) && SameOutcome(p, Run(l, p, events))
  {
    if events != [] {
      var q, e := Run(l, p, events[..|events| - 1]), events[|events| - 1];
      SettledOnce(l, p, events[..|events| - 1]);
      ActAtRest(l, q.(now := e.at), e.action);
    }
  }

  /** The first settlement of a run is the only one. */
  lemma SettlesOnce(l: Limits, at: int, spawned: bool, before: seq<Event>, after: seq<Event>)
    requires Run(l, Spawn(l, at, spawned), before).closed.Some?
    ensures SameOutcome(Run(l, Spawn(l, at, spawned), before), Run(l, Run(l, Spawn(l, at, spawned), before), after))
  {
    EveryRunReasoned(l, at, spawned, before);
    SettledOnce(l, Run(l, Spawn(l, at, spawned), before), after);
  }

  /** It is terminated exactly for a reason: deadline, cancellation, output or spool, before it settled. */
  ghost predicate Reasoned(p: Process) {
    && (p.terminating ==> p.faults.cancelled || p.faults.timedOut || p.faults.outputExceeded || p.faults.spoolError)
    && (p.faults.cancelled || p.faults.timedOut || p.faults.outputExceeded ==> p.terminating)
    && (p.faults.spoolError && p.closed.None? ==> p.terminating)
    && (p.closed.Some? ==> p.timers == NO_TIMERS)
  }

  lemma ActReasoned(l: Limits, p: Process, a: Action)
    requires Reasoned(p)
    ensures Reasoned(Act(l, p, a))
  {
  }

  lemma {:induction false} EveryRunReasoned(l: Limits, at: int, spawned: bool, events: seq<Event>)
    ensures Reasoned(Run(l, Spawn(l, at, spawned), events))
  {
    if events != [] {
      var p, e := Run(l, Spawn(l, at, spawned), events[..|events| - 1]), events[|events| - 1];
      EveryRunReasoned(l, at, spawned, events[..|events| - 1]);
      ActReasoned(l, p.(now := e.at), e.action);
    }
  }

  /**
    A returned result holds every byte that was delivered, within the limit; and every byte the
    process wrote before it settled, unless it was cut off at its deadline, and then it says so.
   */
  lemma ReturnedIsWhole(l: Limits, at: int, spawned: bool, events: seq<Event>)
    requires var p := Run(l, Spawn(l, at, spawned), events); p.closed.Some? && ResultOf(p, p.closed.value).Returned?
    ensures var p := Run(l, Spawn(l, at, spawned), events);
            && p.output.stored == p.output.received <= l.maxOutputBytes
            && (p.output.stored < p.output.written ==> ResultOf(p, p.closed.value).timedOut)
  {
    EveryRunAccounted(l, at, spawned, events);
    EveryRunReasoned(l, at, spawned, events);
  }

  // ---------------------------------------------------------------- the deadline

  /** Time does not go back, and no timer is later than `lag`: not one that fires, and not one still pending. */
  ghost predicate Prompt(p: Process, e: Event, lag: nat) {
    && p.now <= e.at
    && (p.timers.timeout.Some? ==> e.at <= p.timers.timeout.value + lag)
    && (p.timers.force.Some? ==> e.at <= p.timers.force.value + lag)
    && (p.timers.pipe.Some? ==> e.at <= p.timers.pipe.value + lag)
  }

  ghost predicate PromptRun(l: Limits, start: Process, events: seq<Event>, lag: nat) {
    events == [] ||
    (PromptRun(l, start, events[..|events| - 1], lag)
     && Prompt(Run(l, start, events[..|events| - 1]), events[|events| - 1], lag))
  }

  /** Whatever state an open run is in, one timer still drives it to its end. */
  ghost predicate Driven(l: Limits, at: int, p: Process, lag: nat) {
    p.closed.None? ==>
      && (p.timers.force.None? || p.timers.pipe.None?)
      && (!p.terminating ==> p.timers.force.None? && p.timers.pipe.None?)
      && (!p.terminating ==> p.timers.timeout == Some(at + l.timeoutMs) && p.now <= at + l.timeoutMs + lag)
      && (p.terminating ==>
            || (p.timers.force.Some? && p.timers.force.value <= at + l.timeoutMs + lag + FORCE_KILL_DELAY_MS && p.now <= p.timers.force.value + lag)
            || (p.timers.pipe.Some? && p.timers.pipe.value <= at + l.timeoutMs + 2 * lag + FORCE_KILL_DELAY_MS + PIPE_CLOSE_GRACE_MS
                && p.now <= p.timers.pipe.value + lag))
  }

  lemma NextDriven(l: Limits, at: int, p: Process, e: Event, lag: nat)
    requires Driven(l, at, p, lag) && Prompt(p, e, lag)
    ensures Driven(l, at, Next(l, p, e), lag)
  {
  }

  lemma {:induction false} PromptRunDriven(l: Limits, at: int, spawned: bool, events: seq<Event>, lag: nat)
    requires PromptRun(l, Spawn(l, at, spawned), events, lag)
    ensures Driven(l, at, Run(l, Spawn(l, at, spawned), events), lag)
  {
    if events != [] {
      var front := events[..|events| - 1];
      PromptRunDriven(l, at, spawned, front, lag);
      NextDriven(l, at, Run(l, Spawn(l, at, spawned), front), events[|events| - 1], lag);
    }
  }

  /** With timers at most `lag` late, a process has settled once its timeout plus 1250 ms is over, whatever it does. */
  lemma SettlesInTime(l: Limits, at: int, spawned: bool, events: seq<Event>, lag: nat)
    requires PromptRun(l, Spawn(l, at, spawned), events, lag)
    ensures var p := Run(l, Spawn(l, at, spawned), events);
            p.closed.None? ==> p.now <= at + l.timeoutMs + 1250 + 3 * lag
  {
    PromptRunDriven(l, at, spawned, events, lag);
  }

  /** The bound is attained: a process that ignores everything is open until exactly then. */
  lemma DeadlineIsAttained(l: Limits, at: int)
    ensures var t := at + l.timeoutMs;
            var events := [Event(t, TimeoutFires)] + [Event(t + 1000, ForceFires)] + [Event(t + 1250, Data(0, false))];
            PromptRun(l, Spawn(l, at, true), events, 0) && Run(l, Spawn(l, at, true), events).closed.None?
  {
    var t, start := at + l.timeoutMs, Spawn(l, at, true);
    var e1 := [Event(t, TimeoutFires)];
    var e2 := e1 + [Event(t + 1000, ForceFires)];
    var e3 := e2 + [Event(t + 1250, Data(0, false))];
    assert e1[..0] == [] && e2[..1] == e1 && e3[..2] == e2;
    assert Run(l, start, []) == start && PromptRun(l, start, [], 0);
    var p1, p2 := Next(l, start, e1[0]), Next(l, Next(l, start, e1[0]), e2[1]);
    assert Run(l, start, e1) == p1 && PromptRun(l, start, e1, 0);
    assert Run(l, start, e2) == p2 && PromptRun(l, start, e2, 0);
  }

  // ---------------------------------------------------------------- the handlers

  class BoundedRun {
    const l: Limits
    var now: int
    var spawned: bool
    var closed: Option<int>
    var terminating: bool
    var faults: Faults
    var output: Output
    var timers: Timers
    var sent: seq<Sent>

    ghost function View(): Process
      reads this
    {
      Process(now, spawned, closed, terminating, faults, output, timers, sent)
    }

    constructor (l: Limits, at: int, spawned: bool)
      ensures this.l == l && View() == Spawn(l, at, spawned)
    {
      this.l, now, this.spawned, closed, terminating := l, at, spawned, None, false;
      faults, output, timers, sent := NO_FAULTS, Output(0, 0, 0, 0), NO_TIMERS.(timeout := Some(at + l.timeoutMs)), [];
    }

    method SignalExecution(s: Signal)
      modifies this`sent
      ensures View() == SignalTo(old(View()), s)
    {
      if closed.None? && spawned {
        sent := sent + [Sent(s, now)];
      }
    }

    method Terminate()
      modifies this`terminating, this`timers, this`sent
      ensures View() == Terminated(old(View()))
    {
      if terminating || closed.Some? {
        return;
      }
      terminating := true;
      SignalExecution(SIGTERM);
      timers := timers.(force := Some(now + FORCE_KILL_DELAY_MS));
    }

    method SettleClose(code: int)
      modifies this`closed, this`timers, this`sent
      ensures View() == Settle(old(View()), code)
    {
      if closed.Some? {
        return;
      }
      if terminating {
        SignalExecution(SIGKILL);
      }
      closed, timers := Some(code), NO_TIMERS;
    }

    method Collect(bytes: nat, hookFails: bool)
      requires closed.None? && output.received + bytes <= output.written
      modifies this`output, this`faults, this`terminating, this`timers, this`sent
      ensures View() == Act(l, old(View()), Data(bytes, hookFails))
    {
      output := output.(received := output.received + bytes);
      if faults.outputExceeded || faults.spoolError {
        return;
      }
      output := output.(counted := output.counted + bytes);
      if hookFails {
        faults := faults.(spoolError := true);
        Terminate();
      } else if output.counted > l.maxOutputBytes {
        faults := faults.(outputExceeded := true);
        Terminate();
      } else {
        output := output.(stored := output.stored + bytes);
      }
    }

    method OnAbort()
      requires closed.None?
      modifies this`faults, this`terminating, this`timers, this`sent
      ensures View() == Act(l, old(View()), Abort)
    {
      faults := faults.(cancelled := true);
      Terminate();
    }

    method OnTimeout()
      requires timers.timeout.Some?
      modifies this`faults, this`terminating, this`timers, this`sent
      ensures View() == Act(l, old(View()), TimeoutFires)
    {
      timers := timers.(timeout := None);
      faults := faults.(timedOut := true);
      Terminate();
    }

    method OnForce()
      requires timers.force.Some?
      modifies this`timers, this`sent
      ensures View() == Act(l, old(View()), ForceFires)
    {
      SignalExecution(SIGKILL);
      timers := timers.(force := None, pipe := Some(now + PIPE_CLOSE_GRACE_MS));
    }
  }
}
