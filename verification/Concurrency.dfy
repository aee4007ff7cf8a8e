/**
  The admission controller: five classes of call, two queues, nested caps and two reservations.

  `Next` is the controller as a step function on an abstract book; `ConcurrencyController` is the
  object, with its counters and queues, proved to take exactly those steps.  `Admissible` is what
  every reachable book satisfies: the caps, the accounting, work conservation and arrival order.
 */
module Concurrency {
  import opened Wrappers

  datatype Kind = Control | Normal | ShellLocal | ShellLocalLong | ShellRemote

  /** The limits, as the configuration schema accepts them. */
  datatype Config = Config(
    maxConcurrent: nat, reservedControl: nat, shellMax: nat, reservedInteractive: Option<nat>,
    maxQueue: nat, remoteMax: nat)
  {
    predicate Valid() {
      && 2 <= maxConcurrent && reservedControl < maxConcurrent
      && 1 <= shellMax <= maxConcurrent - reservedControl
      && (reservedInteractive.Some? ==> reservedInteractive.value < shellMax)
      && 1 <= maxQueue && 1 <= remoteMax
    }

    function MaxNonControl(): int { maxConcurrent - reservedControl }

    function Interactive(): int {
      if reservedInteractive.Some? then reservedInteractive.value else if shellMax <= 1 then 0 else if shellMax == 2 then 1 else 2
    }

    function MaxLong(): int { shellMax - Interactive() }
  }

  /** The active counters. */
  datatype Load = Load(active: int, control: int, nonControl: int, local: int, long: int, remote: int)

  const IDLE := Load(0, 0, 0, 0, 0, 0)

  function Add(l: Load, k: Kind, n: int): Load {
    Load(l.active + n,
         if k == Control then l.control + n else l.control,
         if k != Control then l.nonControl + n else l.nonControl,
         if k == ShellLocal || k == ShellLocalLong then l.local + n else l.local,
         if k == ShellLocalLong then l.long + n else l.long,
         if k == ShellRemote then l.remote + n else l.remote)
  }

  function Enter(l: Load, k: Kind): Load { Add(l, k, 1) }

  function Leave(l: Load, k: Kind): Load { Add(l, k, -1) }

  predicate CanStart(c: Config, l: Load, k: Kind) {
    && l.active < c.maxConcurrent
    && (k == Control ||
        (&& l.nonControl < c.MaxNonControl()
         && (k == ShellLocal || k == ShellLocalLong ==> l.local < c.shellMax)
         && (k == ShellLocalLong ==> l.long < c.MaxLong())
         && (k == ShellRemote ==> l.remote < c.remoteMax)))
  }

  predicate WithinCaps(c: Config, l: Load) {
    && l.active <= c.maxConcurrent && l.nonControl <= c.MaxNonControl()
    && l.local <= c.shellMax && l.long <= c.MaxLong() && l.remote <= c.remoteMax
  }

  /** A call waiting in a queue, or one that has been started; tickets number submissions. */
  datatype Entry = Entry(ticket: nat, kind: Kind)

  /** A call being executed, and whether its cancellation has been counted. */
  datatype Call = Call(ticket: nat, kind: Kind, cancelled: bool)

  // ---------------------------------------------------------------- draining

  /** Result of scanning a queue once, left to right, starting whatever can start. */
  datatype Pass = Pass(load: Load, taken: seq<Entry>, left: seq<Entry>)

  function Greedy(c: Config, l: Load, queue: seq<Entry>): Pass
    decreases |queue|
  {
    if queue == [] then Pass(l, [], [])
    else if CanStart(c, l, queue[0].kind) then
      var rest := Greedy(c, Enter(l, queue[0].kind), queue[1..]);
      Pass(rest.load, [queue[0]] + rest.taken, rest.left)
    else
      var rest := Greedy(c, l, queue[1..]);
      Pass(rest.load, rest.taken, [queue[0]] + rest.left)
  }

  datatype Sweep = Sweep(load: Load, taken: seq<Entry>, control: seq<Entry>, regular: seq<Entry>)

  /** One greedy pass over the control queue, then one over the regular queue. */
  function GreedySweep(c: Config, l: Load, control: seq<Entry>, regular: seq<Entry>): Sweep {
    var first := Greedy(c, l, control);
    var second := Greedy(c, first.load, regular);
    Sweep(second.load, first.taken + second.taken, first.left, second.left)
  }

  function Without(s: seq<Entry>, i: nat): seq<Entry>
    requires i < |s|
  {
    s[..i] + s[i + 1..]
  }

  predicate NoneStartable(c: Config, l: Load, queue: seq<Entry>) {
    forall i | 0 <= i < |queue| :: !CanStart(c, l, queue[i].kind)
  }

  /** Starting work never makes another class startable. */
  lemma EnterOnlyBlocks(c: Config, l: Load, started: Kind, k: Kind)
    ensures CanStart(c, Enter(l, started), k) ==> CanStart(c, l, k)
  {
  }

  lemma {:induction false} NothingToTake(c: Config, l: Load, queue: seq<Entry>)
    requires NoneStartable(c, l, queue)
    ensures Greedy(c, l, queue) == Pass(l, [], queue)
    decreases |queue|
  {
    if queue != [] {
      NothingToTake(c, l, queue[1..]);
    }
  }

  /** Taking the first startable entry and starting over is one step of the single pass. */
  lemma {:induction false} TakeFirstThenPass(c: Config, l: Load, queue: seq<Entry>, i: nat)
    requires i < |queue| && CanStart(c, l, queue[i].kind)
    requires NoneStartable(c, l, queue[..i])
    ensures var rest := Greedy(c, Enter(l, queue[i].kind), Without(queue, i));
            Greedy(c, l, queue) == Pass(rest.load, [queue[i]] + rest.taken, rest.left)
    decreases |queue|
  {
    if i == 0 {
      assert Without(queue, 0) == queue[1..];
    } else {
      assert !CanStart(c, l, queue[..i][0].kind);
      assert queue[1..][..i - 1] == queue[..i][1..];
      TakeFirstThenPass(c, l, queue[1..], i - 1);
      assert Without(queue, i)[0] == queue[0];
      assert Without(queue, i)[1..] == Without(queue[1..], i - 1);
    }
  }

  predicate AllStartable(c: Config, l: Load, entries: seq<Entry>) {
    forall i | 0 <= i < |entries| :: CanStart(c, l, entries[i].kind)
  }

  /** Everything a pass takes could have started before the pass. */
  lemma {:induction false} TakenCouldStart(c: Config, l: Load, queue: seq<Entry>)
    ensures AllStartable(c, l, Greedy(c, l, queue).taken)
    decreases |queue|
  {
    if queue != [] {
      var k := queue[0].kind;
      if CanStart(c, l, k) {
        var rest := Greedy(c, Enter(l, k), queue[1..]).taken;
        TakenCouldStart(c, Enter(l, k), queue[1..]);
        forall i | 0 <= i < |rest|
          ensures CanStart(c, l, rest[i].kind)
        {
          assert CanStart(c, Enter(l, k), rest[i].kind);
          EnterOnlyBlocks(c, l, k, rest[i].kind);
        }
        assert Greedy(c, l, queue).taken == [queue[0]] + rest;
      } else {
        TakenCouldStart(c, l, queue[1..]);
      }
    }
  }

  /** A pass only blocks, keeps the caps, and leaves nothing that could start. */
  lemma {:induction false} PassIsMaximal(c: Config, l: Load, queue: seq<Entry>)
    requires WithinCaps(c, l)
    ensures var p := Greedy(c, l, queue);
            && WithinCaps(c, p.load)
            && (forall k :: CanStart(c, p.load, k) ==> CanStart(c, l, k))
            && NoneStartable(c, p.load, p.left)
            && |p.taken| + |p.left| == |queue|
    decreases |queue|
  {
    if queue != [] {
      if CanStart(c, l, queue[0].kind) {
        PassIsMaximal(c, Enter(l, queue[0].kind), queue[1..]);
      } else {
        PassIsMaximal(c, l, queue[1..]);
      }
    }
  }

  /** Tickets in strictly increasing order. */
  predicate Sorted(s: seq<Entry>) {
    forall i, j | 0 <= i < j < |s| :: s[i].ticket < s[j].ticket
  }

  /** No entry of `later` is older than an entry of `earlier` of its own class. */
  predicate Precede(earlier: seq<Entry>, later: seq<Entry>) {
    forall i, j | 0 <= i < |earlier| && 0 <= j < |later| :: earlier[i].kind == later[j].kind ==> earlier[i].ticket < later[j].ticket
  }

  predicate Within(part: seq<Entry>, whole: seq<Entry>) {
    forall e | e in part :: e in whole
  }

  lemma {:induction false} PassWithin(c: Config, l: Load, queue: seq<Entry>)
    ensures Within(Greedy(c, l, queue).taken, queue) && Within(Greedy(c, l, queue).left, queue)
    decreases |queue|
  {
    if queue != [] {
      PassWithin(c, Enter(l, queue[0].kind), queue[1..]);
      PassWithin(c, l, queue[1..]);
    }
  }

  lemma SortedCons(e: Entry, queue: seq<Entry>, part: seq<Entry>)
    requires Sorted([e] + queue) && Within(part, queue) && Sorted(part)
    ensures Sorted([e] + part)
    ensures forall i | 0 <= i < |part| :: e.ticket < part[i].ticket
  {
    forall i | 0 <= i < |part|
      ensures e.ticket < part[i].ticket
    {
      assert part[i] in part;
      var k :| 0 <= k < |queue| && queue[k] == part[i];
      assert ([e] + queue)[0].ticket < ([e] + queue)[k + 1].ticket;
    }
  }

  /** A pass starts calls of one class in the order of the queue. */
  lemma {:induction false} PassKeepsOrder(c: Config, l: Load, queue: seq<Entry>)
    requires Sorted(queue)
    ensures var p := Greedy(c, l, queue); Sorted(p.taken) && Sorted(p.left) && Precede(p.taken, p.left)
    decreases |queue|
  {
    if queue != [] {
      var e, tail := queue[0], queue[1..];
      assert queue == [e] + tail;
      if CanStart(c, l, e.kind) {
        var rest := Greedy(c, Enter(l, e.kind), tail);
        PassKeepsOrder(c, Enter(l, e.kind), tail);
        PassWithin(c, Enter(l, e.kind), tail);
        SortedCons(e, tail, rest.taken);
        SortedCons(e, tail, rest.left);
      } else {
        var rest := Greedy(c, l, tail);
        PassKeepsOrder(c, l, tail);
        PassWithin(c, l, tail);
        SortedCons(e, tail, rest.left);
        TakenCouldStart(c, l, tail);
      }
    }
  }

  // ---------------------------------------------------------------- the controller as a step function

  /** The lifetime counters; `cancelledRunning` counts cancellations recorded during execution. */
  datatype Counters = Counters(
    submitted: nat, accepted: nat, started: nat, completed: nat, rejected: nat, timedOut: nat, cancelled: nat,
    cancelledRunning: nat)

  datatype Book = Book(
    load: Load, control: seq<Entry>, regular: seq<Entry>, running: seq<Call>, counters: Counters,
    log: seq<Entry>)  // every call started, in order

  datatype Event =
    | Submit(kind: Kind, aborted: bool)
    | Timeout(ticket: nat)
    | Abort(ticket: nat)
    | Finish(ticket: nat)

  const EMPTY := Book(IDLE, [], [], [], Counters(0, 0, 0, 0, 0, 0, 0, 0), [])

  function Queued(b: Book): nat { |b.control| + |b.regular| }

  function EnterAll(l: Load, entries: seq<Entry>): Load
    decreases |entries|
  {
    if entries == [] then l else EnterAll(Enter(l, entries[0].kind), entries[1..])
  }

  function Calls(entries: seq<Entry>): seq<Call> {
    seq(|entries|, i requires 0 <= i < |entries| => Call(entries[i].ticket, entries[i].kind, false))
  }

  /** Starts the given calls, in order. */
  function StartAll(b: Book, entries: seq<Entry>): Book {
    b.(load := EnterAll(b.load, entries), running := b.running + Calls(entries),
       counters := b.counters.(started := b.counters.started + |entries|), log := b.log + entries)
  }

  lemma StartOne(b: Book, e: Entry)
    ensures StartAll(b, [e]) ==
            b.(load := Enter(b.load, e.kind), running := b.running + [Call(e.ticket, e.kind, false)],
               counters := b.counters.(started := b.counters.started + 1), log := b.log + [e])
  {
    assert Calls([e]) == [Call(e.ticket, e.kind, false)];
    assert EnterAll(Enter(b.load, e.kind), [e][1..]) == Enter(b.load, e.kind);
  }

  function Drained(c: Config, b: Book): Book {
    var s := GreedySweep(c, b.load, b.control, b.regular);
    StartAll(b.(control := s.control, regular := s.regular), s.taken)
  }

  function Find(s: seq<Entry>, ticket: nat): (i: nat)
    ensures i <= |s| && (i < |s| ==> s[i].ticket == ticket) && forall j | 0 <= j < i :: s[j].ticket != ticket
  {
    if s == [] || s[0].ticket == ticket then 0 else 1 + Find(s[1..], ticket)
  }

  function FindCall(s: seq<Call>, ticket: nat): (i: nat)
    ensures i <= |s| && (i < |s| ==> s[i].ticket == ticket)
  {
    if s == [] || s[0].ticket == ticket then 0 else 1 + FindCall(s[1..], ticket)
  }

  /** Takes a waiting entry out of whichever queue holds it. */
  function Removed(b: Book, ticket: nat): Option<Book> {
    var i := Find(b.control, ticket);
    if i < |b.control| then Some(b.(control := Without(b.control, i))) else
      var j := Find(b.regular, ticket);
      if j < |b.regular| then Some(b.(regular := Without(b.regular, j))) else None
  }

  /** The book with one more call waiting at the end of its queue. */
  function Enqueued(b: Book, kind: Kind): Book {
    var entry := Entry(b.counters.submitted, kind);
    var n := b.counters.(submitted := b.counters.submitted + 1, accepted := b.counters.accepted + 1);
    if kind == Control then b.(counters := n, control := b.control + [entry])
    else b.(counters := n, regular := b.regular + [entry])
  }

  function Counted(b: Book): Book { b.(counters := b.counters.(submitted := b.counters.submitted + 1)) }

  /** The book with one execution less. */
  function Ended(b: Book, i: nat): Book
    requires i < |b.running|
  {
    b.(load := Leave(b.load, b.running[i].kind), running := b.running[..i] + b.running[i + 1..],
       counters := b.counters.(completed := b.counters.completed + 1))
  }

  function Submitted(c: Config, b: Book, kind: Kind, aborted: bool): Book {
    var n := b.counters.(submitted := b.counters.submitted + 1);
    if aborted then b.(counters := n.(cancelled := n.cancelled + 1))
    else if CanStart(c, b.load, kind) then
      StartAll(b.(counters := n.(accepted := n.accepted + 1)), [Entry(b.counters.submitted, kind)])
    else if Queued(b) >= c.maxQueue then b.(counters := n.(rejected := n.rejected + 1))
    else Drained(c, Enqueued(b, kind))
  }

  function TimedOut(b: Book): Book { b.(counters := b.counters.(timedOut := b.counters.timedOut + 1)) }

  function Cancelled(b: Book): Book { b.(counters := b.counters.(cancelled := b.counters.cancelled + 1)) }

  /** The first cancellation of a running call is counted; the call goes on running. */
  function Marked(b: Book, i: nat): Book
    requires i < |b.running|
  {
    if b.running[i].cancelled then b else
      b.(running := b.running[i := b.running[i].(cancelled := true)],
         counters := b.counters.(cancelled := b.counters.cancelled + 1, cancelledRunning := b.counters.cancelledRunning + 1))
  }

  function Next(c: Config, b: Book, e: Event): Book {
    match e
    case Submit(kind, aborted) => Submitted(c, b, kind, aborted)
    case Timeout(ticket) =>
      var r := Removed(b, ticket);
      if r.None? then b else Drained(c, TimedOut(r.value))
    case Abort(ticket) =>
      var r := Removed(b, ticket);
      var i := FindCall(b.running, ticket);
      if r.Some? then Drained(c, Cancelled(r.value)) else if i < |b.running| then Marked(b, i) else b
    case Finish(ticket) =>
      var i := FindCall(b.running, ticket);
      if i < |b.running| then Drained(c, Ended(b, i)) else b
  }

  function Run(c: Config, events: seq<Event>): Book {
    if events == [] then EMPTY else Next(c, Run(c, events[..|events| - 1]), events[|events| - 1])
  }

  // ---------------------------------------------------------------- what every reachable book satisfies

  function Tally(running: seq<Call>): Load {
    if running == [] then IDLE else Enter(Tally(running[..|running| - 1]), running[|running| - 1].kind)
  }

  /** Every call is accounted for exactly once. */
  predicate Balanced(b: Book) {
    var n := b.counters;
    && n.submitted == n.rejected + n.timedOut + Queued(b) + b.load.active + n.completed + (n.cancelled - n.cancelledRunning)
    && n.started == b.load.active + n.completed
  }

  /** Calls of one class start in submission order, and every waiting call is younger than those. */
  predicate InArrivalOrder(b: Book) {
    && Sorted(b.control) && Sorted(b.regular)
    && (forall i | 0 <= i < |b.control| :: b.control[i].kind == Control && b.control[i].ticket < b.counters.submitted)
    && (forall i | 0 <= i < |b.regular| :: b.regular[i].kind != Control && b.regular[i].ticket < b.counters.submitted)
    && (forall i | 0 <= i < |b.log| :: b.log[i].ticket < b.counters.submitted)
    && (forall i, j | 0 <= i < j < |b.log| :: b.log[i].kind == b.log[j].kind ==> b.log[i].ticket < b.log[j].ticket)
    && Precede(b.log, b.control) && Precede(b.log, b.regular)
  }

  /** Invariant kept while a drain may still be due. */
  predicate Consistent(c: Config, b: Book) {
    && b.load == Tally(b.running) && WithinCaps(c, b.load) && Queued(b) <= c.maxQueue
    && Balanced(b) && InArrivalOrder(b)
  }

  predicate Admissible(c: Config, b: Book) {
    Consistent(c, b) && NoneStartable(c, b.load, b.control) && NoneStartable(c, b.load, b.regular)
  }

  lemma {:induction false} TallyFacts(running: seq<Call>)
    ensures var l := Tally(running);
            && l.active == |running| == l.control + l.nonControl
            && 0 <= l.control && 0 <= l.long <= l.local && 0 <= l.remote && l.local + l.remote <= l.nonControl
  {
    if running != [] {
      TallyFacts(running[..|running| - 1]);
    }
  }

  lemma TallySnoc(running: seq<Call>, call: Call)
    ensures Tally(running + [call]) == Enter(Tally(running), call.kind)
  {
    assert (running + [call])[..|running|] == running;
  }

  lemma LeaveEnter(l: Load, a: Kind, b: Kind)
    ensures Enter(Leave(l, a), b) == Leave(Enter(l, b), a)
  {
  }

  lemma {:induction false} TallyLeave(running: seq<Call>, i: nat)
    requires i < |running|
    ensures Tally(running[..i] + running[i + 1..]) == Leave(Tally(running), running[i].kind)
    decreases |running|
  {
    var init, last := running[..|running| - 1], running[|running| - 1];
    if i == |running| - 1 {
      assert running[..i] + running[i + 1..] == init;
    } else {
      var left := init[..i] + init[i + 1..];
      TallyLeave(init, i);
      assert running[i + 1..] == init[i + 1..] + [last];
      assert running[..i] + running[i + 1..] == left + [last];
      TallySnoc(left, last);
      LeaveEnter(Tally(init), running[i].kind, last.kind);
    }
  }

  lemma {:induction false} TallySameKind(running: seq<Call>, i: nat, call: Call)
    requires i < |running| && call.kind == running[i].kind
    ensures Tally(running[i := call]) == Tally(running)
    decreases |running|
  {
    var init, last := running[..|running| - 1], running[|running| - 1];
    if i == |running| - 1 {
      assert running[i := call] == init + [call];
      TallySnoc(init, call);
    } else {
      TallySameKind(init, i, call);
      assert running[i := call] == init[i := call] + [last];
      TallySnoc(init[i := call], last);
    }
  }

  lemma {:induction false} TallyStart(running: seq<Call>, entries: seq<Entry>)
    ensures Tally(running + Calls(entries)) == EnterAll(Tally(running), entries)
    ensures EnterAll(Tally(running), entries).active == Tally(running).active + |entries|
    decreases |entries|
  {
    if entries == [] {
      assert running + Calls(entries) == running;
    } else {
      var next := running + [Call(entries[0].ticket, entries[0].kind, false)];
      assert next[..|running|] == running;
      TallyStart(next, entries[1..]);
      assert running + Calls(entries) == next + Calls(entries[1..]);
    }
  }

  lemma {:induction false} PassLoad(c: Config, l: Load, queue: seq<Entry>)
    ensures var p := Greedy(c, l, queue); p.load == EnterAll(l, p.taken)
    decreases |queue|
  {
    if queue != [] {
      var k := queue[0].kind;
      PassLoad(c, Enter(l, k), queue[1..]);
      PassLoad(c, l, queue[1..]);
      if CanStart(c, l, k) {
        assert Greedy(c, l, queue).taken[1..] == Greedy(c, Enter(l, k), queue[1..]).taken;
      }
    }
  }

  lemma LogGrows(log: seq<Entry>, queue: seq<Entry>, taken: seq<Entry>, left: seq<Entry>)
    requires forall i, j | 0 <= i < j < |log| :: log[i].kind == log[j].kind ==> log[i].ticket < log[j].ticket
    requires Precede(log, queue) && Within(taken, queue) && Within(left, queue)
    requires Sorted(taken) && Precede(taken, left)
    ensures var after := log + taken;
            (forall i, j | 0 <= i < j < |after| :: after[i].kind == after[j].kind ==> after[i].ticket < after[j].ticket)
            && Precede(after, left)
  {
    assert forall j | 0 <= j < |taken| :: taken[j] in taken;
    assert forall j | 0 <= j < |left| :: left[j] in left;
  }

  /** The two halves of a drain. */
  function ControlDrained(c: Config, b: Book): Book {
    var p := Greedy(c, b.load, b.control);
    StartAll(b.(control := p.left), p.taken)
  }

  function RegularDrained(c: Config, b: Book): Book {
    var p := Greedy(c, b.load, b.regular);
    StartAll(b.(regular := p.left), p.taken)
  }

  lemma {:induction false} EnterAllConcat(l: Load, one: seq<Entry>, two: seq<Entry>)
    ensures EnterAll(EnterAll(l, one), two) == EnterAll(l, one + two)
    decreases |one|
  {
    if one == [] {
      assert one + two == two;
    } else {
      EnterAllConcat(Enter(l, one[0].kind), one[1..], two);
      assert (one + two)[1..] == one[1..] + two;
    }
  }

  lemma StartTwice(b: Book, one: seq<Entry>, two: seq<Entry>)
    ensures StartAll(StartAll(b, one), two) == StartAll(b, one + two)
  {
    EnterAllConcat(b.load, one, two);
    assert b.running + Calls(one) + Calls(two) == b.running + Calls(one + two);
    assert b.log + one + two == b.log + (one + two);
  }

  lemma DrainInHalves(c: Config, b: Book)
    ensures Drained(c, b) == RegularDrained(c, ControlDrained(c, b))
  {
    var first := Greedy(c, b.load, b.control);
    PassLoad(c, b.load, b.control);
    var second := Greedy(c, first.load, b.regular);
    StartTwice(b.(control := first.left, regular := second.left), first.taken, second.taken);
  }

  lemma StartKeepsBalance(c: Config, b: Book, control: seq<Entry>, regular: seq<Entry>, taken: seq<Entry>)
    requires b.load == Tally(b.running) && Balanced(b)
    requires Queued(b) == |control| + |regular| + |taken|
    ensures var after := StartAll(b.(control := control, regular := regular), taken);
            after.load == Tally(after.running) && Balanced(after)
  {
    TallyStart(b.running, taken);
  }

  /** Moving calls from their queue to the log keeps arrival order. */
  lemma StartKeepsOrder(c: Config, b: Book, l: Load, queue: seq<Entry>)
    requires InArrivalOrder(b) && (queue == b.control || queue == b.regular)
    ensures var p := Greedy(c, l, queue);
            && Sorted(p.left) && Precede(b.log + p.taken, p.left) && Within(p.taken, queue) && Within(p.left, queue)
            && (forall i, j | 0 <= i < j < |b.log + p.taken| ::
                  (b.log + p.taken)[i].kind == (b.log + p.taken)[j].kind ==> (b.log + p.taken)[i].ticket < (b.log + p.taken)[j].ticket)
  {
    PassKeepsOrder(c, l, queue);
    PassWithin(c, l, queue);
    LogGrows(b.log, queue, Greedy(c, l, queue).taken, Greedy(c, l, queue).left);
  }

  lemma ControlStartOrder(c: Config, b: Book)
    requires InArrivalOrder(b)
    ensures InArrivalOrder(ControlDrained(c, b))
  {
    var p := Greedy(c, b.load, b.control);
    StartKeepsOrder(c, b, b.load, b.control);
    assert forall j | 0 <= j < |p.taken| :: p.taken[j] in p.taken;
    assert forall j | 0 <= j < |p.left| :: p.left[j] in p.left;
  }

  lemma RegularStartOrder(c: Config, b: Book)
    requires InArrivalOrder(b)
    ensures InArrivalOrder(RegularDrained(c, b))
  {
    var p := Greedy(c, b.load, b.regular);
    StartKeepsOrder(c, b, b.load, b.regular);
    assert forall j | 0 <= j < |p.taken| :: p.taken[j] in p.taken;
    assert forall j | 0 <= j < |p.left| :: p.left[j] in p.left;
  }

  lemma ControlDrainConsistent(c: Config, b: Book)
    requires Consistent(c, b)
    ensures var after := ControlDrained(c, b); Consistent(c, after) && NoneStartable(c, after.load, after.control)
  {
    var p := Greedy(c, b.load, b.control);
    PassIsMaximal(c, b.load, b.control);
    PassLoad(c, b.load, b.control);
    StartKeepsBalance(c, b, p.left, b.regular, p.taken);
    ControlStartOrder(c, b);
  }

  lemma RegularDrainAdmissible(c: Config, b: Book)
    requires Consistent(c, b) && NoneStartable(c, b.load, b.control)
    ensures Admissible(c, RegularDrained(c, b))
  {
    var p := Greedy(c, b.load, b.regular);
    PassIsMaximal(c, b.load, b.regular);
    PassLoad(c, b.load, b.regular);
    StartKeepsBalance(c, b, b.control, p.left, p.taken);
    RegularStartOrder(c, b);
  }

  /** A drain of a consistent book leaves nothing that could start. */
  lemma DrainedAdmissible(c: Config, b: Book)
    requires Consistent(c, b)
    ensures Admissible(c, Drained(c, b))
  {
    DrainInHalves(c, b);
    ControlDrainConsistent(c, b);
    RegularDrainAdmissible(c, ControlDrained(c, b));
  }

  lemma WithoutKeepsOrder(log: seq<Entry>, queue: seq<Entry>, i: nat)
    requires i < |queue| && Sorted(queue) && Precede(log, queue)
    ensures Sorted(Without(queue, i)) && Precede(log, Without(queue, i)) && Within(Without(queue, i), queue)
  {
  }

  lemma RemovedConsistent(c: Config, b: Book, ticket: nat)
    requires Admissible(c, b) && Removed(b, ticket).Some?
    ensures var r := Removed(b, ticket).value;
            && r.(control := b.control, regular := b.regular) == b && Queued(r) == Queued(b) - 1
            && InArrivalOrder(r) && NoneStartable(c, r.load, r.control) && NoneStartable(c, r.load, r.regular)
  {
    var i, j := Find(b.control, ticket), Find(b.regular, ticket);
    if i < |b.control| {
      WithoutKeepsOrder(b.log, b.control, i);
    } else {
      WithoutKeepsOrder(b.log, b.regular, j);
    }
  }

  /** A drain of a book in which nothing can start changes nothing. */
  lemma DrainIdle(c: Config, b: Book)
    requires NoneStartable(c, b.load, b.control) && NoneStartable(c, b.load, b.regular)
    ensures Drained(c, b) == b
  {
    NothingToTake(c, b.load, b.control);
    NothingToTake(c, b.load, b.regular);
    assert StartAll(b, []) == b by {
      assert b.running + Calls([]) == b.running && b.log + [] == b.log;
    }
  }

  lemma StartNowConsistent(c: Config, b: Book, kind: Kind)
    requires Admissible(c, b) && CanStart(c, b.load, kind)
    ensures Consistent(c, Next(c, b, Submit(kind, false)))
    ensures Next(c, b, Submit(kind, false)).load == Enter(b.load, kind)
  {
    var entry := Entry(b.counters.submitted, kind);
    TallyStart(b.running, [entry]);
    assert [entry][1..] == [];
  }

  lemma StartNow(c: Config, b: Book, kind: Kind)
    requires Admissible(c, b) && CanStart(c, b.load, kind)
    ensures Admissible(c, Next(c, b, Submit(kind, false)))
  {
    StartNowConsistent(c, b, kind);
    forall k
      ensures CanStart(c, Enter(b.load, kind), k) ==> CanStart(c, b.load, k)
    {
      EnterOnlyBlocks(c, b.load, kind, k);
    }
  }

  lemma EnqueueThenDrain(c: Config, b: Book, kind: Kind)
    requires Admissible(c, b) && Queued(b) < c.maxQueue
    ensures Admissible(c, Drained(c, Enqueued(b, kind)))
  {
    assert InArrivalOrder(Enqueued(b, kind));
    DrainedAdmissible(c, Enqueued(b, kind));
  }

  lemma RemoveAdmissible(c: Config, b: Book, ticket: nat)
    requires Admissible(c, b) && Removed(b, ticket).Some?
    ensures var r := Removed(b, ticket).value;
            Admissible(c, Drained(c, TimedOut(r))) && Admissible(c, Drained(c, Cancelled(r)))
  {
    var r := Removed(b, ticket).value;
    RemovedConsistent(c, b, ticket);
    DrainIdle(c, TimedOut(r));
    DrainIdle(c, Cancelled(r));
  }

  lemma MarkAdmissible(c: Config, b: Book, i: nat)
    requires Admissible(c, b) && i < |b.running|
    ensures Admissible(c, Marked(b, i))
  {
    TallySameKind(b.running, i, b.running[i].(cancelled := true));
  }

  lemma OrderFrame(b: Book, other: Book)
    requires InArrivalOrder(b) && other.control == b.control && other.regular == b.regular && other.log == b.log
    requires other.counters.submitted == b.counters.submitted
    ensures InArrivalOrder(other)
  {
  }

  lemma EndConsistent(c: Config, b: Book, i: nat)
    requires Consistent(c, b) && i < |b.running|
    ensures Consistent(c, Ended(b, i))
  {
    TallyLeave(b.running, i);
    OrderFrame(b, Ended(b, i));
    assert WithinCaps(c, Leave(b.load, b.running[i].kind));
  }

  lemma EndAdmissible(c: Config, b: Book, i: nat)
    requires Admissible(c, b) && i < |b.running|
    ensures Admissible(c, Drained(c, Ended(b, i)))
  {
    EndConsistent(c, b, i);
    DrainedAdmissible(c, Ended(b, i));
  }

  /** Every step keeps the caps, the accounting, work conservation and arrival order. */
  lemma NextAdmissible(c: Config, b: Book, e: Event)
    requires Admissible(c, b)
    ensures Admissible(c, Next(c, b, e))
  {
    match e
    case Submit(kind, aborted) =>
      if !aborted {
        if CanStart(c, b.load, kind) {
          StartNow(c, b, kind);
        } else if Queued(b) < c.maxQueue {
          EnqueueThenDrain(c, b, kind);
        }
      }
    case Timeout(ticket) =>
      if Removed(b, ticket).Some? {
        RemoveAdmissible(c, b, ticket);
      }
    case Abort(ticket) =>
      var i := FindCall(b.running, ticket);
      if Removed(b, ticket).Some? {
        RemoveAdmissible(c, b, ticket);
      } else if i < |b.running| {
        MarkAdmissible(c, b, i);
      }
    case Finish(ticket) =>
      var i := FindCall(b.running, ticket);
      if i < |b.running| {
        EndAdmissible(c, b, i);
      }
  }

  /**
    Every reachable book is admissible, and waiting calls always have an active call whose end
    will look at them again.
   */
  lemma {:induction false} EveryRunAdmissible(c: Config, events: seq<Event>)
    requires c.Valid()
    ensures var b := Run(c, events); Admissible(c, b) && (Queued(b) > 0 ==> b.load.active > 0)
  {
    if events != [] {
      EveryRunAdmissible(c, events[..|events| - 1]);
      NextAdmissible(c, Run(c, events[..|events| - 1]), events[|events| - 1]);
    }
    var b := Run(c, events);
    TallyFacts(b.running);
    if Queued(b) > 0 && b.load.active == 0 {
      var waiting := if b.control != [] then b.control[0] else b.regular[0];
      assert CanStart(c, b.load, waiting.kind);
    }
  }

  /** A newcomer that starts at once overtakes no waiting call of its class. */
  lemma NewcomerNeverOvertakes(c: Config, events: seq<Event>, kind: Kind)
    requires c.Valid() && CanStart(c, Run(c, events).load, kind)
    ensures var b := Run(c, events);
            && (forall i | 0 <= i < |b.control| :: b.control[i].kind != kind)
            && (forall i | 0 <= i < |b.regular| :: b.regular[i].kind != kind)
            && Next(c, b, Submit(kind, false)).log == b.log + [Entry(b.counters.submitted, kind)]
  {
    EveryRunAdmissible(c, events);
  }

  lemma WaitingControl(c: Config, b: Book)
    requires Admissible(c, b) && b.control != []
    ensures !CanStart(c, b.load, Control)
  {
    assert b.control[0].kind == Control;
  }

  /** While a reserved control slot is free, no control call waits and the next one starts at once. */
  lemma ControlNeverWaits(c: Config, events: seq<Event>)
    requires c.Valid() && Run(c, events).load.control < c.reservedControl
    ensures var b := Run(c, events);
            b.control == [] && Next(c, b, Submit(Control, false)).log == b.log + [Entry(b.counters.submitted, Control)]
  {
    var b := Run(c, events);
    EveryRunAdmissible(c, events);
    TallyFacts(b.running);
    if b.control != [] {
      WaitingControl(c, b);
    }
  }

  lemma InteractiveReserve(c: Config, l: Load)
    requires c.Valid() && WithinCaps(c, l) && l.local - l.long < c.Interactive()
    ensures l.local < c.shellMax && (CanStart(c, l, ShellLocal) <==> CanStart(c, l, Normal))
  {
  }

  /** While a reserved interactive slot is free, only a global cap can make an interactive shell wait. */
  lemma InteractiveShellReserve(c: Config, events: seq<Event>)
    requires c.Valid()
    ensures var l := Run(c, events).load;
            l.local - l.long < c.Interactive() ==>
              l.local < c.shellMax && (CanStart(c, l, ShellLocal) <==> CanStart(c, l, Normal))
  {
    var l := Run(c, events).load;
    EveryRunAdmissible(c, events);
    if l.local - l.long < c.Interactive() {
      InteractiveReserve(c, l);
    }
  }

  // ---------------------------------------------------------------- the controller object

  class ConcurrencyController {
    const config: Config
    var active: int
    var activeControl: int
    var activeNonControl: int
    var activeShellLocal: int
    var activeShellLocalLong: int
    var activeShellRemote: int
    var controlQueue: seq<Entry>
    var regularQueue: seq<Entry>
    var submitted: nat
    var accepted: nat
    var started: nat
    var completed: nat
    var rejected: nat
    var timedOut: nat
    var cancelled: nat
    /** The executions in progress: what each pending `execute` call holds in its closure. */
    var running: seq<Call>
    ghost var cancelledRunning: nat
    ghost var log: seq<Entry>

    function Active(): Load
      reads this
    {
      Load(active, activeControl, activeNonControl, activeShellLocal, activeShellLocalLong, activeShellRemote)
    }

    ghost function State(): Book
      reads this
    {
      Book(Active(), controlQueue, regularQueue, running,
           Counters(submitted, accepted, started, completed, rejected, timedOut, cancelled, cancelledRunning), log)
    }

    constructor (config: Config)
      ensures this.config == config && State() == EMPTY
    {
      this.config := config;
      active, activeControl, activeNonControl := 0, 0, 0;
      activeShellLocal, activeShellLocalLong, activeShellRemote := 0, 0, 0;
      controlQueue, regularQueue, running, log := [], [], [], [];
      submitted, accepted, started, completed := 0, 0, 0, 0;
      rejected, timedOut, cancelled, cancelledRunning := 0, 0, 0, 0;
    }

    predicate Startable(kind: Kind)
      reads this
    {
      CanStart(config, Active(), kind)
    }

    /** Counts one more (`n == 1`) or one less (`n == -1`) execution of a class. */
    method Count(kind: Kind, n: int)
      modifies this`active, this`activeControl, this`activeNonControl, this`activeShellLocal, this`activeShellLocalLong, this`activeShellRemote
      ensures Active() == Add(old(Active()), kind, n)
    {
      active := active + n;
      if kind == Control { activeControl := activeControl + n; } else { activeNonControl := activeNonControl + n; }
      if kind == ShellLocal || kind == ShellLocalLong { activeShellLocal := activeShellLocal + n; }
      if kind == ShellLocalLong { activeShellLocalLong := activeShellLocalLong + n; }
      if kind == ShellRemote { activeShellRemote := activeShellRemote + n; }
    }

    /** The synchronous part of `execute`: counters and the call itself. */
    method Begin(e: Entry)
      modifies this
      ensures State() == StartAll(old(State()), [e])
    {
      Count(e.kind, 1);
      started := started + 1;
      running := running + [Call(e.ticket, e.kind, false)];
      log := log + [e];
      StartOne(old(State()), e);
    }

    /** The first startable entry of a queue, taken out of it. */
    method TakeStartable(queue: seq<Entry>) returns (found: Option<Entry>, left: seq<Entry>, ghost at: nat)
      ensures found.None? ==> left == queue && NoneStartable(config, Active(), queue)
      ensures found.Some? ==>
                && at < |queue| && found.value == queue[at] && left == Without(queue, at)
                && Startable(queue[at].kind) && NoneStartable(config, Active(), queue[..at])
    {
      var i := 0;
      while i < |queue|
        invariant i <= |queue| && NoneStartable(config, Active(), queue[..i])
      {
        if Startable(queue[i].kind) {
          return Some(queue[i]), Without(queue, i), i;
        }
        assert queue[..i + 1] == queue[..i] + [queue[i]];
        i := i + 1;
      }
      assert queue[..i] == queue;
      return None, queue, i;
    }

    /** Rescans both queues from the head after every start; the result is one greedy sweep. */
    method Drain()
      modifies this
      ensures State() == Drained(config, old(State()))
    {
      while true
        invariant Drained(config, State()) == Drained(config, old(State()))
        decreases |controlQueue| + |regularQueue|
      {
        ghost var before := State();
        var next, left, at := TakeStartable(controlQueue);
        if next.Some? {
          controlQueue := left;
          Begin(next.value);
          SweepStep(config, before, at, true);
        } else {
          next, left, at := TakeStartable(regularQueue);
          if next.None? {
            DrainIdle(config, State());
            return;
          }
          regularQueue := left;
          Begin(next.value);
          SweepStep(config, before, at, false);
        }
      }
    }

    /** Submission; the result says whether the call started, waits, or was refused. */
    method Submit(kind: Kind, aborted: bool)
      modifies this
      ensures State() == Next(config, old(State()), Event.Submit(kind, aborted))
    {
      var entry := Entry(submitted, kind);
      submitted := submitted + 1;
      if aborted {
        cancelled := cancelled + 1;
        return;
      }
      if Startable(kind) {
        accepted := accepted + 1;
        Begin(entry);
        return;
      }
      if |controlQueue| + |regularQueue| >= config.maxQueue {
        rejected := rejected + 1;
        return;
      }
      Queue(old(State()), entry);
      Drain();
    }

    method Queue(ghost before: Book, e: Entry)
      requires State() == Counted(before) && e.ticket == before.counters.submitted
      modifies this`accepted, this`controlQueue, this`regularQueue
      ensures State() == Enqueued(before, e.kind)
    {
      accepted := accepted + 1;
      if e.kind == Control { controlQueue := controlQueue + [e]; } else { regularQueue := regularQueue + [e]; }
    }

    /** Splices a waiting entry out of whichever queue holds it. */
    method RemoveQueued(ticket: nat) returns (found: bool)
      modifies this
      ensures found <==> Removed(old(State()), ticket).Some?
      ensures State() == if found then Removed(old(State()), ticket).value else old(State())
    {
      var i := Find(controlQueue, ticket);
      if i < |controlQueue| {
        controlQueue := Without(controlQueue, i);
        return true;
      }
      i := Find(regularQueue, ticket);
      if i < |regularQueue| {
        regularQueue := Without(regularQueue, i);
        return true;
      }
      return false;
    }

    method Timeout(ticket: nat)
      modifies this
      ensures State() == Next(config, old(State()), Event.Timeout(ticket))
    {
      var found := RemoveQueued(ticket);
      if found {
        timedOut := timedOut + 1;
        Drain();
      }
    }

    method Abort(ticket: nat)
      modifies this
      ensures State() == Next(config, old(State()), Event.Abort(ticket))
    {
      var found := RemoveQueued(ticket);
      if found {
        cancelled := cancelled + 1;
        Drain();
        return;
      }
      var i := FindCall(running, ticket);
      if i < |running| {
        Mark(i);
      }
    }

    /** The cancellation of a running call is counted once. */
    method Mark(i: nat)
      requires i < |running|
      modifies this
      ensures State() == Marked(old(State()), i)
    {
      if !running[i].cancelled {
        running := running[i := running[i].(cancelled := true)];
        cancelled := cancelled + 1;
        cancelledRunning := cancelledRunning + 1;
      }
    }

    /** The `finally` block of `execute`. */
    method Finish(ticket: nat)
      modifies this
      ensures State() == Next(config, old(State()), Event.Finish(ticket))
    {
      var i := FindCall(running, ticket);
      if i < |running| {
        End(i);
        Drain();
      }
    }

    /** An execution is over: its slots are free again. */
    method End(i: nat)
      requires i < |running|
      modifies this
      ensures State() == Ended(old(State()), i)
    {
      Count(running[i].kind, -1);
      running := running[..i] + running[i + 1..];
      completed := completed + 1;
    }
  }

  lemma ControlSweepStep(c: Config, b: Book, i: nat)
    requires i < |b.control| && CanStart(c, b.load, b.control[i].kind) && NoneStartable(c, b.load, b.control[..i])
    ensures Drained(c, b) == Drained(c, StartAll(b.(control := Without(b.control, i)), [b.control[i]]))
  {
    var e, left := b.control[i], Without(b.control, i);
    TakeFirstThenPass(c, b.load, b.control, i);
    StartOne(b, e);
    var s := GreedySweep(c, Enter(b.load, e.kind), left, b.regular);
    StartTwice(b.(control := s.control, regular := s.regular), [e], s.taken);
    assert GreedySweep(c, b.load, b.control, b.regular).taken == [e] + s.taken;
  }

  lemma RegularSweepStep(c: Config, b: Book, i: nat)
    requires i < |b.regular| && CanStart(c, b.load, b.regular[i].kind) && NoneStartable(c, b.load, b.regular[..i])
    requires NoneStartable(c, b.load, b.control)
    ensures Drained(c, b) == Drained(c, StartAll(b.(regular := Without(b.regular, i)), [b.regular[i]]))
  {
    var e, left := b.regular[i], Without(b.regular, i);
    var l := Enter(b.load, e.kind);
    TakeFirstThenPass(c, b.load, b.regular, i);
    StartOne(b, e);
    forall k
      ensures CanStart(c, l, k) ==> CanStart(c, b.load, k)
    {
      EnterOnlyBlocks(c, b.load, e.kind, k);
    }
    NothingToTake(c, b.load, b.control);
    NothingToTake(c, l, b.control);
    var s := GreedySweep(c, l, b.control, left);
    StartTwice(b.(control := s.control, regular := s.regular), [e], s.taken);
    assert GreedySweep(c, b.load, b.control, b.regular).taken == [e] + s.taken;
  }

  /** One iteration of the rescanning drain is one step of the greedy sweep. */
  lemma SweepStep(c: Config, b: Book, i: nat, fromControl: bool)
    requires var queue := if fromControl then b.control else b.regular;
             i < |queue| && CanStart(c, b.load, queue[i].kind) && NoneStartable(c, b.load, queue[..i])
    requires !fromControl ==> NoneStartable(c, b.load, b.control)
    ensures var queue := if fromControl then b.control else b.regular;
            var left := Without(queue, i);
            var taken := if fromControl then b.(control := left) else b.(regular := left);
            Drained(c, b) == Drained(c, StartAll(taken, [queue[i]]))
  {
    if fromControl {
      ControlSweepStep(c, b, i);
    } else {
      RegularSweepStep(c, b, i);
    }
  }
}
