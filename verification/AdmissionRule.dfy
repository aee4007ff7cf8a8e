/**
  When a call starts, waits or is refused, said by counting the calls that run; and what becomes of
  every call when one of them times out, is cancelled or ends.
 */
module AdmissionRule {
  import opened Wrappers
  import opened Concurrency

  // ---------------------------------------------------------------- the caps

  /** How many running calls are of one of these classes. */
  function Of(running: seq<Call>, kinds: set<Kind>): nat {
    if running == [] then 0
    else Of(running[..|running| - 1], kinds) + if running[|running| - 1].kind in kinds then 1 else 0
  }

  const REGULAR: set<Kind> := {Normal, ShellLocal, ShellLocalLong, ShellRemote}
  const LOCAL: set<Kind> := {ShellLocal, ShellLocalLong}

  function Least(a: int, b: int): int { if a <= b then a else b }

  function Most(a: int, b: int): int { if a <= b then b else a }

  /** Local shells set aside for interactive use: as configured, or two, but never all of them. */
  function SetAside(c: Config): int {
    match c.reservedInteractive
    case Some(n) => n
    case None => Least(2, Most(0, c.shellMax - 1))
  }

  /** One of the caps that concern this class, and no other, is full. */
  predicate Full(c: Config, running: seq<Call>, k: Kind) {
    || |running| >= c.maxConcurrent
    || (k != Control && Of(running, REGULAR) >= c.maxConcurrent - c.reservedControl)
    || (k in LOCAL && Of(running, LOCAL) >= c.shellMax)
    || (k == ShellLocalLong && Of(running, {ShellLocalLong}) >= c.shellMax - SetAside(c))
    || (k == ShellRemote && Of(running, {ShellRemote}) >= c.remoteMax)
  }

  /** The load that the running calls add up to. */
  predicate Loads(l: Load, running: seq<Call>) {
    && l.active == |running| && l.nonControl == Of(running, REGULAR) && l.local == Of(running, LOCAL)
    && l.long == Of(running, {ShellLocalLong}) && l.remote == Of(running, {ShellRemote})
  }

  lemma {:induction false} TallyCounts(running: seq<Call>)
    ensures Loads(Tally(running), running)
  {
    if running != [] {
      TallyCounts(running[..|running| - 1]);
    }
  }

  lemma SameReserve(c: Config)
    ensures c.MaxLong() == c.shellMax - SetAside(c)
  {
  }

  lemma LoadDecides(c: Config, l: Load, running: seq<Call>, k: Kind)
    requires Loads(l, running) && c.MaxLong() == c.shellMax - SetAside(c)
    ensures CanStart(c, l, k) <==> !Full(c, running, k)
  {
  }

  lemma StartsIff(c: Config, b: Book, k: Kind)
    requires b.load == Tally(b.running)
    ensures CanStart(c, b.load, k) <==> !Full(c, b.running, k)
  {
    TallyCounts(b.running);
    SameReserve(c);
    LoadDecides(c, b.load, b.running, k);
  }

  /** Every waiting call has one of its own caps full, in every run. */
  lemma WaitingIsHeldByItsCaps(c: Config, events: seq<Event>, e: Entry)
    requires c.Valid() && (e in Run(c, events).control || e in Run(c, events).regular)
    ensures Full(c, Run(c, events).running, e.kind)
  {
    var b := Run(c, events);
    EveryRunAdmissible(c, events);
    StartsIff(c, b, e.kind);
    if e in b.control {
      var i :| 0 <= i < |b.control| && b.control[i] == e;
      assert !CanStart(c, b.load, b.control[i].kind);
    } else {
      var i :| 0 <= i < |b.regular| && b.regular[i] == e;
      assert !CanStart(c, b.load, b.regular[i].kind);
    }
  }

  /** Nothing changes but the counters of submissions. */
  predicate OnlyCounted(b: Book, after: Book) { after == b.(counters := after.counters) }

  lemma StartedAtOnce(c: Config, b: Book, kind: Kind)
    requires CanStart(c, b.load, kind)
    ensures var after := Next(c, b, Submit(kind, false));
            && after.log == b.log + [Entry(b.counters.submitted, kind)]
            && after.running == b.running + [Call(b.counters.submitted, kind, false)]
            && after.control == b.control && after.regular == b.regular
            && after.counters == b.counters.(submitted := b.counters.submitted + 1, accepted := b.counters.accepted + 1,
                                             started := b.counters.started + 1)
  {
    StartOne(b, Entry(b.counters.submitted, kind));
    assert Calls([Entry(b.counters.submitted, kind)]) == [Call(b.counters.submitted, kind, false)];
  }

  lemma MadeToWait(c: Config, b: Book, kind: Kind)
    requires Admissible(c, b) && !CanStart(c, b.load, kind) && Queued(b) < c.maxQueue
    ensures Next(c, b, Submit(kind, false)) == Enqueued(b, kind)
  {
    DrainIdle(c, Enqueued(b, kind));
  }

  /**
    Admission, exactly and in every run.  A call that is submitted starts at once if and only if none
    of its own caps is full; otherwise it is refused if the queues are full, and else waits at the end
    of its queue.  A call that is cancelled already is only counted.
   */
  lemma SubmissionIsDecidedByCaps(c: Config, events: seq<Event>, kind: Kind)
    requires c.Valid()
    ensures var b := Run(c, events);
            var after := Next(c, b, Submit(kind, false));
            var entry := Entry(b.counters.submitted, kind);
            if !Full(c, b.running, kind) then
              after.log == b.log + [entry] && after.running == b.running + [Call(entry.ticket, kind, false)]
              && after.control == b.control && after.regular == b.regular
              && after.counters.rejected == b.counters.rejected && after.counters.accepted == b.counters.accepted + 1
            else if |b.control| + |b.regular| >= c.maxQueue then
              OnlyCounted(b, after) && after.counters.rejected == b.counters.rejected + 1 && after.counters.accepted == b.counters.accepted
            else
              after.log == b.log && after.running == b.running
              && after.counters.rejected == b.counters.rejected && after.counters.accepted == b.counters.accepted + 1
              && after.control == (if kind == Control then b.control + [entry] else b.control)
              && after.regular == (if kind == Control then b.regular else b.regular + [entry])
    ensures var b := Run(c, events);
            var after := Next(c, b, Submit(kind, true));
            OnlyCounted(b, after) && after.counters.cancelled == b.counters.cancelled + 1 && after.counters.accepted == b.counters.accepted
  {
    var b := Run(c, events);
    EveryRunAdmissible(c, events);
    StartsIff(c, b, kind);
    if CanStart(c, b.load, kind) {
      StartedAtOnce(c, b, kind);
    } else if Queued(b) < c.maxQueue {
      MadeToWait(c, b, kind);
    }
  }

  // ---------------------------------------------------------------- everybody else

  predicate Waits(b: Book, e: Entry) { e in b.control || e in b.regular }

  ghost predicate IsWaiting(b: Book, ticket: nat) { exists e :: Waits(b, e) && e.ticket == ticket }

  lemma {:induction false} FindMember(s: seq<Entry>, e: Entry)
    requires e in s
    ensures Find(s, e.ticket) < |s|
  {
    var i :| 0 <= i < |s| && s[i] == e;
  }

  lemma WithoutMembers(s: seq<Entry>, i: nat)
    requires i < |s|
    ensures forall e | e in Without(s, i) :: e in s
    ensures forall e | e in s && e != s[i] :: e in Without(s, i)
  {
    forall e | e in s && e != s[i]
      ensures e in Without(s, i)
    {
      var k :| 0 <= k < |s| && s[k] == e;
      assert Without(s, i)[if k < i then k else k - 1] == e;
    }
  }

  /** One waiting call is taken out, and every other one stays. */
  lemma RemovedIsOne(b: Book, ticket: nat)
    ensures Removed(b, ticket).Some? <==> IsWaiting(b, ticket)
    ensures Removed(b, ticket).Some? ==>
              var r := Removed(b, ticket).value;
              && |r.control| + |r.regular| + 1 == |b.control| + |b.regular| && r == b.(control := r.control, regular := r.regular)
              && (forall e | Waits(r, e) :: Waits(b, e)) && (forall e | Waits(b, e) && e.ticket != ticket :: Waits(r, e))
  {
    var i, j := Find(b.control, ticket), Find(b.regular, ticket);
    if e :| Waits(b, e) && e.ticket == ticket {
      if e in b.control {
        FindMember(b.control, e);
      } else {
        FindMember(b.regular, e);
      }
    }
    if i < |b.control| {
      assert Waits(b, b.control[i]);
      WithoutMembers(b.control, i);
    } else if j < |b.regular| {
      assert Waits(b, b.regular[j]);
      WithoutMembers(b.regular, j);
    }
  }

  /** The queues lost the one call, and nothing else happened but that it was counted. */
  ghost predicate OneLess(b: Book, after: Book, ticket: nat) {
    && after == b.(control := after.control, regular := after.regular, counters := after.counters)
    && |after.control| + |after.regular| + 1 == |b.control| + |b.regular|
    && (forall e | Waits(after, e) :: Waits(b, e)) && (forall e | Waits(b, e) && e.ticket != ticket :: Waits(after, e))
  }

  lemma NothingStartsNow(c: Config, b: Book, ticket: nat)
    requires Admissible(c, b) && Removed(b, ticket).Some?
    ensures var r := Removed(b, ticket).value; Drained(c, TimedOut(r)) == TimedOut(r) && Drained(c, Cancelled(r)) == Cancelled(r)
  {
    var r := Removed(b, ticket).value;
    RemovedConsistent(c, b, ticket);
    DrainIdle(c, TimedOut(r));
    DrainIdle(c, Cancelled(r));
  }

  /** A time-out takes out the call if it still waits, counts it, and touches nothing else. */
  lemma TimeoutEndsOneWait(c: Config, events: seq<Event>, ticket: nat)
    requires c.Valid()
    ensures var b := Run(c, events);
            var after := Next(c, b, Event.Timeout(ticket));
            if IsWaiting(b, ticket) then OneLess(b, after, ticket) && after.counters == b.counters.(timedOut := b.counters.timedOut + 1)
            else after == b
  {
    EveryRunAdmissible(c, events);
    TimeoutOf(c, Run(c, events), ticket);
  }

  lemma TimeoutOf(c: Config, b: Book, ticket: nat)
    requires Admissible(c, b)
    ensures IsWaiting(b, ticket) ==>
              var after := Next(c, b, Event.Timeout(ticket));
              OneLess(b, after, ticket) && after.counters == b.counters.(timedOut := b.counters.timedOut + 1)
    ensures !IsWaiting(b, ticket) ==> Next(c, b, Event.Timeout(ticket)) == b
  {
    RemovedIsOne(b, ticket);
    if IsWaiting(b, ticket) {
      NothingStartsNow(c, b, ticket);
      OneLessFrame(b, Removed(b, ticket).value, TimedOut(Removed(b, ticket).value), ticket);
    }
  }

  lemma OneLessFrame(b: Book, r: Book, after: Book, ticket: nat)
    requires OneLess(b, r, ticket) && after == r.(counters := after.counters)
    ensures OneLess(b, after, ticket)
  {
    assert forall e :: Waits(after, e) <==> Waits(r, e);
  }

  /** A cancellation takes out the call if it waits; a running one goes on, and is counted the first time. */
  lemma AbortEndsOneWait(c: Config, events: seq<Event>, ticket: nat)
    requires c.Valid()
    ensures var b := Run(c, events);
            var after := Next(c, b, Event.Abort(ticket));
            var i := FindCall(b.running, ticket);
            if IsWaiting(b, ticket) then OneLess(b, after, ticket) && after.counters == b.counters.(cancelled := b.counters.cancelled + 1)
            else if i == |b.running| || b.running[i].cancelled then after == b
            else
              && after.running == b.running[i := Call(ticket, b.running[i].kind, true)]
              && after == b.(running := after.running, counters := after.counters)
              && after.counters.cancelled == b.counters.cancelled + 1
  {
    var b := Run(c, events);
    EveryRunAdmissible(c, events);
    RemovedIsOne(b, ticket);
    if IsWaiting(b, ticket) {
      NothingStartsNow(c, b, ticket);
    }
  }

  lemma {:induction false} FindRunning(running: seq<Call>, ticket: nat)
    ensures FindCall(running, ticket) < |running| <==> exists i :: 0 <= i < |running| && running[i].ticket == ticket
  {
    if running != [] && running[0].ticket != ticket {
      FindRunning(running[1..], ticket);
      if i :| 0 <= i < |running| && running[i].ticket == ticket {
        assert running[1..][i - 1].ticket == ticket;
      }
      if i :| 0 <= i < |running[1..]| && running[1..][i].ticket == ticket {
        assert running[i + 1].ticket == ticket;
      }
    }
  }

  /** A pass loses nobody. */
  lemma {:induction false} PassCovers(c: Config, l: Load, queue: seq<Entry>, e: Entry)
    ensures e in queue <==> e in Greedy(c, l, queue).taken || e in Greedy(c, l, queue).left
    decreases |queue|
  {
    if queue != [] {
      var k := queue[0].kind;
      assert queue == [queue[0]] + queue[1..];
      if CanStart(c, l, k) {
        PassCovers(c, Enter(l, k), queue[1..], e);
      } else {
        PassCovers(c, l, queue[1..], e);
      }
    }
  }

  /** The calls that a drain starts were waiting, and whoever waited has been started or waits on. */
  lemma DrainLosesNobody(c: Config, b: Book, e: Entry)
    ensures var taken := GreedySweep(c, b.load, b.control, b.regular).taken;
            Waits(b, e) <==> e in taken || Waits(Drained(c, b), e)
  {
    PassCovers(c, b.load, b.control, e);
    PassCovers(c, Greedy(c, b.load, b.control).load, b.regular, e);
  }

  /** The running calls less one, and then those that were started. */
  ghost predicate Replaced(b: Book, after: Book, i: nat, started: seq<Entry>)
    requires i < |b.running|
  {
    && after.running == b.running[..i] + b.running[i + 1..] + Calls(started) && after.log == b.log + started
    && (forall e | e in started :: Waits(b, e)) && (forall e | Waits(b, e) :: e in started || Waits(after, e))
    && (forall e | Waits(after, e) :: Waits(b, e))
    && after.counters == b.counters.(completed := b.counters.completed + 1, started := b.counters.started + |started|)
  }

  /** The end of a call frees its place; waiting calls start in it or go on waiting, and nobody is lost. */
  lemma FinishMakesRoom(c: Config, events: seq<Event>, ticket: nat) returns (started: seq<Entry>)
    requires c.Valid()
    ensures var b := Run(c, events);
            var after := Next(c, b, Event.Finish(ticket));
            var i := FindCall(b.running, ticket);
            if i == |b.running| then after == b else Replaced(b, after, i, started)
  {
    var b := Run(c, events);
    var i := FindCall(b.running, ticket);
    started := [];
    if i < |b.running| {
      var ended := Ended(b, i);
      started := GreedySweep(c, ended.load, ended.control, ended.regular).taken;
      forall e
        ensures Waits(b, e) <==> e in started || Waits(Drained(c, ended), e)
      {
        DrainLosesNobody(c, ended, e);
      }
    }
  }
}
