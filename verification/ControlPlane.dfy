/**
  The router's control plane over a run: one serialised command at a time, registry in memory and
  on disk, backends that fence themselves on retirement, and requests admitted meanwhile.

  A command is cut at its awaits: `Begin` (compare the epoch, guard), `Answer` (the backend's reply),
  `Write` (the rename on disk, which may or may not land) and `Settle` (memory follows, or is
  reconciled with the disk).  Requests are admitted and released between any two of them.

  `Answer` is the moment at which the backend computes its reply.  The router resumes later, but what
  it then does depends on the reply and on registries that no other step may change meanwhile; that
  requests come and go in between makes no difference is `ReceiptCommutes`.  A stray retire request
  that lands in between lands after `Answer`, on a command whose registry is about to be written.
 */
module ControlPlane {
  import opened Wrappers
  import opened Registry

  datatype Stage = Asking | Writing(next: Registry) | Written(next: Registry, landed: bool)

  datatype Op = Op(command: Command, expected: nat, asked: Generation, stage: Stage)

  /** A registry that became visible on disk, and the epoch its requester expected. */
  datatype Commit = Commit(expected: nat, registry: Registry)

  datatype World = World(
    mem: Registry, disk: Registry,
    op: Option<Op>,
    blind: bool,            // the last write failed and could not be read back
    retiring: set<Id>,
    live: map<nat, Id>,     // requests in flight, and their owners
    fenced: set<Id>,        // incarnations that admit nothing any more
    stray: set<Id>,         // incarnations with an abandoned retire request still on its way
    commits: seq<Commit>)

  datatype Event =
    | Begin(command: Command, expected: nat)
    | FenceLands
    | Answer(good: bool, idle: bool, lost: bool)
    | Write(landed: bool)
    | Settle(acknowledged: bool, readable: bool)
    | Admit(request: nat, owner: Id)
    | Release(request: nat)
    | Crash
    | StrayLands(instance: Id)

  const START := World(EMPTY, EMPTY, None, false, {}, map[], {}, {}, [])

  const MAX_ADMITTED: nat := 256

  function Busy(live: map<nat, Id>): Id -> bool { id => id in live.Values }

  predicate Asked(w: World) { w.op.Some? && w.op.value.stage.Asking? }

  predicate AskedToRetire(w: World) { Asked(w) && w.op.value.command.Retire? }

  /** The command is over; a retirement releases its mark. */
  function Over(w: World): World {
    w.(op := None, retiring := Unmarked(w))
  }

  function Unmarked(w: World): set<Id> {
    if w.op.Some? && w.op.value.command.Retire? then w.retiring - {w.op.value.command.id} else w.retiring
  }

  /** Ends the command without a change; a retire request may be left on its way. */
  function Abandoned(w: World, lost: bool): World {
    var stray := if AskedToRetire(w) && lost then {w.op.value.asked.Instance()} - w.fenced else {};
    Over(w).(stray := w.stray + stray)
  }

  function Begun(w: World, c: Command, expected: nat): World {
    if w.op.Some? || expected != w.mem.epoch then w else
      match Guard(w.mem, Busy(w.live), c)
      case Ok(Some(asked)) =>
        w.(op := Some(Op(c, expected, asked, Asking)), retiring := if c.Retire? then w.retiring + {c.id} else w.retiring)
      case _ => w
  }

  /** A backend answers truthfully: a fenced incarnation confirms its fence and fails every probe. */
  predicate Truthful(w: World)
    requires Asked(w)
  {
    w.op.value.command.Retire? <==> w.op.value.asked.Instance() in w.fenced
  }

  function Answered(w: World, good: bool, idle: bool, lost: bool): World
    requires Asked(w)
  {
    if !good || !Truthful(w) then Abandoned(w, lost) else
      match Propose(w.mem, Busy(w.live), w.op.value.command, w.op.value.asked, idle)
      case Ok(Some(next)) => w.(op := Some(w.op.value.(stage := Writing(next))))
      case _ => Abandoned(w, false)
  }

  function Wrote(w: World, landed: bool): World
    requires w.op.Some? && w.op.value.stage.Writing?
  {
    var next := w.op.value.stage.next;
    var op := Some(w.op.value.(stage := Written(next, landed)));
    if landed then w.(op := op, disk := next, commits := w.commits + [Commit(w.op.value.expected, next)]) else w.(op := op)
  }

  /** Acknowledged writes are adopted; otherwise the disk is read back, and failing that nothing is active. */
  function Settled(w: World, acknowledged: bool, readable: bool): World
    requires w.op.Some? && w.op.value.stage.Written?
  {
    var done := Over(w);
    if acknowledged && w.op.value.stage.landed then done.(mem := w.op.value.stage.next, blind := false)
    else if readable then done.(mem := w.disk, blind := false)
    else done.(mem := w.mem.(active := None), blind := true)
  }

  function Next(w: World, e: Event): World {
    match e
    case Begin(c, expected) => Begun(w, c, expected)
    case FenceLands => if AskedToRetire(w) then w.(fenced := w.fenced + {w.op.value.asked.Instance()}) else w
    case Answer(good, idle, lost) => if Asked(w) then Answered(w, good, idle, lost) else w
    case Write(landed) => if w.op.Some? && w.op.value.stage.Writing? then Wrote(w, landed) else w
    case Settle(acknowledged, readable) =>
      if w.op.Some? && w.op.value.stage.Written? then Settled(w, acknowledged, readable) else w
    case Admit(request, owner) =>
      if request in w.live || !Known(w.mem, owner) || owner in w.retiring || |w.live| >= MAX_ADMITTED then w
      else w.(live := w.live[request := owner])
    case Release(request) => w.(live := w.live - {request})
    case Crash => Abandoned(w, true).(mem := w.disk, blind := false, retiring := {}, live := map[])
    case StrayLands(instance) =>
      if instance in w.stray then w.(fenced := w.fenced + {instance}, stray := w.stray - {instance}) else w
  }

  function Run(events: seq<Event>): World {
    if events == [] then START else Next(Run(events[..|events| - 1]), events[|events| - 1])
  }

  lemma RunConcat(before: seq<Event>, after: seq<Event>)
    requires after != []
    ensures Run(before + after) == Next(Run(before + after[..|after| - 1]), after[|after| - 1])
  {
    assert (before + after)[..|before + after| - 1] == before + after[..|after| - 1];
  }

  // ---------------------------------------------------------------- invariant of every run

  /** The retired generation disappears, and no other. */
  ghost predicate KeepsOwners(r: Registry, next: Registry, c: Command) {
    && (c.Retire? ==> !Known(next, c.id))
    && forall id | Known(r, id) :: c == Retire(id) || Known(next, id)
  }

  ghost predicate OpCoherent(w: World, o: Op) {
    && o.expected == w.mem.epoch
    && w.retiring == (if o.command.Retire? then {o.command.id} else {})
    && Guard(w.mem, NONE_BUSY, o.command) == Ok(Some(o.asked))
    && (o.command.Retire? ==> o.command.id !in w.live.Values)
    && (!o.stage.Asking? ==>
          WellFormed(o.stage.next) && o.stage.next.epoch == w.mem.epoch + 1 && KeepsOwners(w.mem, o.stage.next, o.command))
    && (o.stage.Written? && o.stage.landed ==> w.disk == o.stage.next)
  }

  /** Memory and disk are well formed; while blind nothing is active; a retiring generation is quiet. */
  ghost predicate Core(w: World) {
    && WellFormed(w.mem) && WellFormed(w.disk)
    && (w.blind ==> w.mem.active.None?)
    && (if w.op.Some? then OpCoherent(w, w.op.value) else w.retiring == {})
  }

  lemma ProposeKeepsOwners(r: Registry, busy: Id -> bool, c: Command, asked: Generation, idle: bool)
    requires WellFormed(r) && Guard(r, NONE_BUSY, c) == Ok(Some(asked))
    ensures var next := Propose(r, busy, c, asked, idle);
            next.Ok? && next.value.Some? ==> KeepsOwners(r, next.value.value, c)
  {
    forall id | Known(r, id) && c != Retire(id)
      ensures var next := Propose(r, busy, c, asked, idle);
              next.Ok? && next.value.Some? ==> Known(next.value.value, id)
    {
      ProposeKeepsOwner(r, busy, c, asked, idle, id);
    }
    if c.Retire? {
      DropFacts(r.generations, c.id);
    }
  }

  lemma AnsweredCore(w: World, good: bool, idle: bool, lost: bool)
    requires Core(w) && Asked(w)
    ensures Core(Answered(w, good, idle, lost))
  {
    ProposeWellFormed(w.mem, Busy(w.live), w.op.value.command, w.op.value.asked, idle);
    ProposeKeepsOwners(w.mem, Busy(w.live), w.op.value.command, w.op.value.asked, idle);
  }

  lemma BegunCore(w: World, c: Command, expected: nat)
    requires Core(w)
    ensures Core(Begun(w, c, expected))
  {
    var g := Guard(w.mem, Busy(w.live), c);
    if g.Ok? && g.value.Some? {
      GuardWhenQuiet(w.mem, Busy(w.live), c);
    }
  }

  lemma TrafficCore(w: World, e: Event)
    requires Core(w) && (e.Admit? || e.Release?)
    ensures Core(Next(w, e))
  {
    if e.Admit? {
      assert forall id | id in w.live[e.request := e.owner].Values :: id in w.live.Values || id == e.owner;
    } else {
      assert forall id | id in (w.live - {e.request}).Values :: id in w.live.Values;
    }
  }

  lemma NextCore(w: World, e: Event)
    requires Core(w)
    ensures Core(Next(w, e))
  {
    match e
    case Begin(c, expected) => BegunCore(w, c, expected);
    case Answer(good, idle, lost) =>
      if Asked(w) {
        AnsweredCore(w, good, idle, lost);
      }
    case Admit(_, _) => TrafficCore(w, e);
    case Release(_) => TrafficCore(w, e);
    case _ =>
  }

  lemma {:induction false} EveryRunCore(events: seq<Event>)
    ensures Core(Run(events))
  {
    if events != [] {
      EveryRunCore(events[..|events| - 1]);
      NextCore(Run(events[..|events| - 1]), events[|events| - 1]);
    }
  }

  /**
    A generation being retired has no request in flight, is neither active nor the rollback target,
    and the second in-flight check of the command can never refuse.
   */
  lemma RetiringIsQuiet(events: seq<Event>)
    requires Run(events).op.Some? && Run(events).op.value.command.Retire?
    ensures var w := Run(events);
            var id := w.op.value.command.id;
            && id !in w.live.Values && !Selected(w.mem, id) && id in w.retiring
            && Propose(w.mem, Busy(w.live), w.op.value.command, w.op.value.asked, true).Ok?
  {
    EveryRunCore(events);
  }

  predicate Quiet(c: Command, live: map<nat, Id>) { c.Retire? ==> c.id !in live.Values }

  lemma ProposeIgnoresTraffic(r: Registry, live: map<nat, Id>, other: map<nat, Id>, c: Command, asked: Generation, idle: bool)
    requires Quiet(c, live) && Quiet(c, other)
    ensures Propose(r, Busy(live), c, asked, idle) == Propose(r, Busy(other), c, asked, idle)
  {
  }

  /** What the router does on a reply does not depend on the requests in flight, nor touch them. */
  lemma AnsweredFrame(w: World, live: map<nat, Id>, good: bool, idle: bool, lost: bool)
    requires Asked(w) && Quiet(w.op.value.command, w.live) && Quiet(w.op.value.command, live)
    ensures Answered(w.(live := live), good, idle, lost) == Answered(w, good, idle, lost).(live := live)
  {
    ProposeIgnoresTraffic(w.mem, w.live, live, w.op.value.command, w.op.value.asked, idle);
  }

  /** A reply can end the retirement of a generation, and changes nothing else that admission looks at. */
  lemma AnsweredTraffic(w: World, good: bool, idle: bool, lost: bool)
    requires Asked(w)
    ensures var after := Answered(w, good, idle, lost);
            after.mem == w.mem && after.live == w.live && after.retiring <= w.retiring
  {
  }

  lemma TrafficFrame(w: World, v: World, e: Event)
    requires (e.Admit? || e.Release?) && !(e.Admit? && e.owner in w.retiring)
    requires v.mem == w.mem && v.live == w.live && v.retiring <= w.retiring
    ensures Next(w, e) == w.(live := Next(w, e).live) && Next(v, e) == v.(live := Next(w, e).live)
  {
  }

  lemma QuietStays(w: World, e: Event)
    requires Core(w) && Asked(w) && (e.Admit? || e.Release?)
    ensures Quiet(w.op.value.command, w.live) && Quiet(w.op.value.command, Next(w, e).live)
  {
    TrafficCore(w, e);
  }

  /**
    A request admitted or released between the backend's reply and its receipt might as well come
    after the receipt.  (One that is refused because its generation is retiring changes nothing.)
   */
  lemma ReceiptCommutes(w: World, good: bool, idle: bool, lost: bool, e: Event)
    requires Core(w) && Asked(w) && (e.Admit? || e.Release?) && !(e.Admit? && e.owner in w.retiring)
    ensures Answered(Next(w, e), good, idle, lost) == Next(Answered(w, good, idle, lost), e)
  {
    var live, after := Next(w, e).live, Answered(w, good, idle, lost);
    QuietStays(w, e);
    AnsweredTraffic(w, good, idle, lost);
    TrafficFrame(w, after, e);
    AnsweredFrame(w, live, good, idle, lost);
  }

  // ---------------------------------------------------------------- memory and disk

  lemma RunSnoc(events: seq<Event>, e: Event)
    ensures Run(events + [e]) == Next(Run(events), e)
  {
    assert (events + [e])[..|events|] == events;
  }

  predicate Landed(w: World) { w.op.Some? && w.op.value.stage.Written? && w.op.value.stage.landed }

  /** What is on disk is the last visible registry. */
  predicate Visible(w: World) {
    w.disk == if w.commits == [] then EMPTY else w.commits[|w.commits| - 1].registry
  }

  /** Memory is the disk, but for a landed write that is still to be adopted. */
  predicate Synced(w: World) {
    w.disk == if Landed(w) then w.op.value.stage.next else w.mem
  }

  // Only a write, its settlement and a crash touch the registries; only the last two end a landed write.
  lemma RegistriesKept(w: World, e: Event)
    requires !e.Write? && !e.Settle? && !e.Crash?
    ensures var after := Next(w, e);
            && after.mem == w.mem && after.disk == w.disk && after.commits == w.commits && after.blind == w.blind
            && (if Landed(w) then after.op == w.op else !Landed(after))
  {
  }

  lemma SettledSynced(w: World, acknowledged: bool, readable: bool)
    requires Core(w) && Visible(w) && w.op.Some? && w.op.value.stage.Written?
    ensures var after := Settled(w, acknowledged, readable); Visible(after) && (!after.blind ==> Synced(after))
  {
  }

  lemma NextSynced(w: World, e: Event)
    requires Core(w) && Visible(w) && (!w.blind ==> Synced(w))
    ensures Visible(Next(w, e)) && (!Next(w, e).blind ==> Synced(Next(w, e)))
  {
    match e
    case Write(_) =>
    case Settle(acknowledged, readable) =>
      if w.op.Some? && w.op.value.stage.Written? {
        SettledSynced(w, acknowledged, readable);
      }
    case Crash =>
    case _ => RegistriesKept(w, e);
  }

  /**
    Registry persistence, over every interleaving and whatever fails.  The disk holds the last
    visible registry.  Memory equals it between commands, unless the last write that failed could
    not be read back; then nothing is active.
   */
  lemma {:induction false} EveryRunInSync(events: seq<Event>)
    ensures var w := Run(events);
            Visible(w) && (if w.blind then w.mem.active.None? else Synced(w))
  {
    EveryRunCore(events);
    if events != [] {
      EveryRunCore(events[..|events| - 1]);
      EveryRunInSync(events[..|events| - 1]);
      NextSynced(Run(events[..|events| - 1]), events[|events| - 1]);
    }
  }

  /** The write failed, or its acknowledgement was lost, and the disk could not be read back either. */
  predicate ReadBackFails(w: World, e: Event) {
    e.Settle? && w.op.Some? && w.op.value.stage.Written? && !(e.acknowledged && w.op.value.stage.landed) && !e.readable
  }

  predicate ReadBacksSucceed(events: seq<Event>) {
    events == [] ||
    (ReadBacksSucceed(events[..|events| - 1]) && !ReadBackFails(Run(events[..|events| - 1]), events[|events| - 1]))
  }

  predicate OwnersKnown(w: World) { forall request | request in w.live :: Known(w.mem, w.live[request]) }

  lemma SettledOwners(w: World, acknowledged: bool, readable: bool)
    requires Core(w) && OwnersKnown(w) && Synced(w) && w.op.Some? && w.op.value.stage.Written?
    requires (acknowledged && w.op.value.stage.landed) || readable
    ensures OwnersKnown(Settled(w, acknowledged, readable))
  {
    forall request | request in w.live
      ensures Known(w.op.value.stage.next, w.live[request])
    {
      assert w.live[request] in w.live.Values;
    }
  }

  lemma NextOwners(w: World, e: Event)
    requires Core(w) && OwnersKnown(w) && Synced(w) && !w.blind && !ReadBackFails(w, e)
    ensures OwnersKnown(Next(w, e)) && !Next(w, e).blind
  {
    match e
    case Settle(acknowledged, readable) =>
      if w.op.Some? && w.op.value.stage.Written? {
        SettledOwners(w, acknowledged, readable);
      }
    case Write(_) =>
    case Crash =>
    case _ => RegistriesKept(w, e);
  }

  /** While failed writes are read back, memory never loses sight of the disk nor of the owner of a request in flight. */
  lemma {:induction false} OwnersStayRegistered(events: seq<Event>)
    requires ReadBacksSucceed(events)
    ensures !Run(events).blind && OwnersKnown(Run(events))
  {
    if events != [] {
      var init := events[..|events| - 1];
      var w := Run(init);
      OwnersStayRegistered(init);
      EveryRunCore(init);
      EveryRunInSync(init);
      NextOwners(w, events[|events| - 1]);
      assert Run(events) == Next(w, events[|events| - 1]);
    }
  }

  /** Whenever and in whatever state the router stops, reopening resumes the last visible registry, in memory and on disk. */
  lemma ReopenResumes(events: seq<Event>)
    ensures var w, reopened := Run(events), Run(events + [Crash]);
            && reopened.mem == reopened.disk == (if w.commits == [] then EMPTY else w.commits[|w.commits| - 1].registry)
            && reopened.commits == w.commits && reopened.op.None? && reopened.live == map[]
  {
    EveryRunInSync(events);
    RunSnoc(events, Crash);
  }

  // ---------------------------------------------------------------- compare and swap

  /** Visible registries form a chain: the n-th change was requested at epoch n and made epoch n + 1. */
  predicate Chain(commits: seq<Commit>) {
    forall i | 0 <= i < |commits| :: commits[i].expected == i && commits[i].registry.epoch == i + 1
  }

  /** No two visible changes were requested at one epoch. */
  predicate OneWinner(commits: seq<Commit>) {
    forall i, j | 0 <= i < j < |commits| :: commits[i].expected != commits[j].expected
  }

  /** A write that lands although memory has not caught up with the disk. */
  predicate LandsOutOfStep(w: World, e: Event) {
    e.Write? && e.landed && w.op.Some? && w.op.value.stage.Writing? && w.mem.epoch != w.disk.epoch
  }

  predicate InStep(events: seq<Event>) {
    events == [] ||
    (InStep(events[..|events| - 1]) && !LandsOutOfStep(Run(events[..|events| - 1]), events[|events| - 1]))
  }

  /** Memory is at most one epoch behind the disk, and the last visible change was requested one epoch before it. */
  predicate Behind(w: World) {
    && (w.disk.epoch == w.mem.epoch || w.disk.epoch == w.mem.epoch + 1)
    && (w.commits != [] ==> w.commits[|w.commits| - 1].expected + 1 == w.commits[|w.commits| - 1].registry.epoch)
  }

  lemma NextBehind(w: World, e: Event)
    requires Core(w) && Behind(w)
    ensures Behind(Next(w, e))
  {
    if !e.Write? && !e.Settle? && !e.Crash? {
      RegistriesKept(w, e);
    }
  }

  lemma {:induction false} EveryRunBehind(events: seq<Event>)
    ensures Behind(Run(events))
  {
    if events != [] {
      EveryRunCore(events[..|events| - 1]);
      EveryRunBehind(events[..|events| - 1]);
      NextBehind(Run(events[..|events| - 1]), events[|events| - 1]);
    }
  }

  lemma ChainSnoc(commits: seq<Commit>, c: Commit)
    ensures Chain(commits + [c]) <==> Chain(commits) && c.expected == |commits| && c.registry.epoch == |commits| + 1
  {
    assert forall i | 0 <= i < |commits| :: (commits + [c])[i] == commits[i];
    assert (commits + [c])[|commits|] == c;
  }

  lemma OneWinnerSnoc(commits: seq<Commit>, c: Commit)
    ensures OneWinner(commits + [c]) ==> OneWinner(commits)
    ensures OneWinner(commits + [c]) && commits != [] ==> commits[|commits| - 1].expected != c.expected
    ensures Chain(commits) ==> (OneWinner(commits + [c]) <==> c.expected >= |commits|)
  {
    var all := commits + [c];
    assert all[|commits|] == c && forall i | 0 <= i < |commits| :: all[i] == commits[i];
    if Chain(commits) && c.expected < |commits| {
      assert all[c.expected].expected == c.expected;
    }
  }

  // The change a landing write makes visible extends the chain in step, and repeats the last epoch out of step.
  lemma ChainStep(w: World, e: Event)
    requires Core(w) && Visible(w) && Behind(w)
    requires Chain(w.commits) <==> OneWinner(w.commits)
    ensures Chain(Next(w, e).commits) <==> Chain(w.commits) && !LandsOutOfStep(w, e)
    ensures Chain(Next(w, e).commits) <==> OneWinner(Next(w, e).commits)
  {
    if e.Write? && e.landed && w.op.Some? && w.op.value.stage.Writing? {
      var c := Commit(w.mem.epoch, w.op.value.stage.next);
      ChainSnoc(w.commits, c);
      OneWinnerSnoc(w.commits, c);
    } else if !e.Write? && !e.Settle? && !e.Crash? {
      RegistriesKept(w, e);
    }
  }

  /**
    Registry compare-and-swap, exactly.  In any run, the visible registries form a chain of epochs,
    and equivalently no two requests that expected one epoch both became visible, if and only if no
    write landed while memory was behind the disk.
   */
  lemma {:induction false} OneWinnerIff(events: seq<Event>)
    ensures Chain(Run(events).commits) <==> InStep(events)
    ensures OneWinner(Run(events).commits) <==> InStep(events)
  {
    if events != [] {
      var init := events[..|events| - 1];
      OneWinnerIff(init);
      EveryRunCore(init);
      EveryRunInSync(init);
      EveryRunBehind(init);
      ChainStep(Run(init), events[|events| - 1]);
    }
  }

  /** A write lands out of step only in a router whose last failed write could not be read back. */
  lemma OutOfStepIsBlind(events: seq<Event>, e: Event)
    requires LandsOutOfStep(Run(events), e)
    ensures Run(events).blind
  {
    EveryRunInSync(events);
  }

  /** So of all requests that expect one epoch at most one becomes visible, in every run that writes in step. */
  lemma OneWinnerPerEpoch(events: seq<Event>, i: nat, j: nat)
    requires InStep(events)
    requires i < |Run(events).commits| && j < |Run(events).commits|
    requires Run(events).commits[i].expected == Run(events).commits[j].expected
    ensures i == j
  {
    OneWinnerIff(events);
  }

  // ---------------------------------------------------------------- owners

  /** A generation to which handles resolve, now and after any way the current command may end. */
  ghost predicate Resolves(w: World, id: Id) {
    && Known(w.mem, id) && Known(w.disk, id)
    && (w.op.Some? ==> w.op.value.command != Retire(id) && (w.op.value.stage.Asking? || Known(w.op.value.stage.next, id)))
  }

  predicate NeverRetires(events: seq<Event>, id: Id) {
    forall i | 0 <= i < |events| && events[i].Begin? :: events[i].command != Retire(id)
  }

  lemma AnsweredResolves(w: World, good: bool, idle: bool, lost: bool, id: Id)
    requires Core(w) && Resolves(w, id) && Asked(w)
    ensures Resolves(Answered(w, good, idle, lost), id)
  {
    ProposeKeepsOwners(w.mem, Busy(w.live), w.op.value.command, w.op.value.asked, idle);
  }

  lemma NextResolves(w: World, e: Event, id: Id)
    requires Core(w) && Resolves(w, id) && (e.Begin? ==> e.command != Retire(id))
    ensures Resolves(Next(w, e), id)
  {
    if e.Answer? {
      if Asked(w) {
        AnsweredResolves(w, e.good, e.idle, e.lost, id);
      }
    } else {
      OthersResolve(w, e, id);
    }
  }

  lemma OthersResolve(w: World, e: Event, id: Id)
    requires Resolves(w, id) && (e.Begin? ==> e.command != Retire(id)) && !e.Answer?
    ensures Resolves(Next(w, e), id)
  {
  }

  /** An owner keeps resolving across every activation, rollback, rebind, failed write and reopen until it is retired. */
  lemma {:induction false} OwnerKeepsResolving(before: seq<Event>, after: seq<Event>, id: Id)
    requires Resolves(Run(before), id) && NeverRetires(after, id)
    ensures Resolves(Run(before + after), id)
    decreases |after|
  {
    if after == [] {
      assert before + after == before;
    } else {
      var init := after[..|after| - 1];
      OwnerKeepsResolving(before, init, id);
      EveryRunCore(before + init);
      RunConcat(before, after);
      NextResolves(Run(before + init), after[|after| - 1], id);
    }
  }

  /** While failed writes are read back, the owner of a request in flight resolves. */
  lemma LiveOwnerResolves(events: seq<Event>, request: nat)
    requires ReadBacksSucceed(events) && request in Run(events).live
    ensures Resolves(Run(events), Run(events).live[request])
  {
    var w := Run(events);
    EveryRunCore(events);
    EveryRunInSync(events);
    OwnersStayRegistered(events);
    assert w.live[request] in w.live.Values;
  }

  /** A generation that is gone, whichever way the current command may end. */
  ghost predicate Absent(w: World, id: Id) {
    && !Known(w.mem, id) && !Known(w.disk, id) && id !in w.live.Values
    && (w.op.Some? ==>
          && (w.op.value.command.Register? ==> w.op.value.command.item.id != id)
          && (w.op.value.stage.Asking? || !Known(w.op.value.stage.next, id)))
  }

  predicate NeverRegisters(events: seq<Event>, id: Id) {
    forall i | 0 <= i < |events| && events[i].Begin? && events[i].command.Register? :: events[i].command.item.id != id
  }

  lemma ProposeAdmitsNobody(r: Registry, busy: Id -> bool, c: Command, asked: Generation, idle: bool, id: Id)
    requires WellFormed(r) && Guard(r, NONE_BUSY, c) == Ok(Some(asked)) && !Known(r, id) && (c.Register? ==> c.item.id != id)
    ensures var next := Propose(r, busy, c, asked, idle);
            next.Ok? && next.value.Some? ==> !Known(next.value.value, id)
  {
    var next := Propose(r, busy, c, asked, idle);
    if next.Ok? && next.value.Some? {
      ProposedLookup(r, busy, c, asked, idle, id);
    }
  }

  lemma AnsweredAbsent(w: World, good: bool, idle: bool, lost: bool, id: Id)
    requires Core(w) && Absent(w, id) && Asked(w)
    ensures Absent(Answered(w, good, idle, lost), id)
  {
    ProposeAdmitsNobody(w.mem, Busy(w.live), w.op.value.command, w.op.value.asked, idle, id);
  }

  lemma TrafficAbsent(w: World, e: Event, id: Id)
    requires Absent(w, id) && (e.Admit? || e.Release?)
    ensures Absent(Next(w, e), id)
  {
    if e.Admit? {
      assert forall other | other in w.live[e.request := e.owner].Values :: other in w.live.Values || other == e.owner;
    } else {
      assert forall other | other in (w.live - {e.request}).Values :: other in w.live.Values;
    }
  }

  lemma NextAbsent(w: World, e: Event, id: Id)
    requires Core(w) && Absent(w, id) && (e.Begin? && e.command.Register? ==> e.command.item.id != id)
    ensures Absent(Next(w, e), id)
  {
    match e
    case Answer(good, idle, lost) =>
      if Asked(w) {
        AnsweredAbsent(w, good, idle, lost, id);
      }
    case Admit(_, _) => TrafficAbsent(w, e, id);
    case Release(_) => TrafficAbsent(w, e, id);
    case _ => OthersAbsent(w, e, id);
  }

  lemma OthersAbsent(w: World, e: Event, id: Id)
    requires Absent(w, id) && (e.Begin? && e.command.Register? ==> e.command.item.id != id)
    requires !e.Answer? && !e.Admit? && !e.Release?
    ensures Absent(Next(w, e), id)
  {
  }

  /** Nothing is ever dispatched again to a generation that is gone, unless it is registered anew. */
  lemma {:induction false} GoneIsSilent(before: seq<Event>, after: seq<Event>, id: Id)
    requires Absent(Run(before), id) && NeverRegisters(after, id)
    ensures Absent(Run(before + after), id)
    decreases |after|
  {
    if after == [] {
      assert before + after == before;
    } else {
      var init := after[..|after| - 1];
      GoneIsSilent(before, init, id);
      EveryRunCore(before + init);
      RunConcat(before, after);
      NextAbsent(Run(before + init), after[|after| - 1], id);
    }
  }

  /**
    A retirement that landed on disk makes its generation gone if and only if the write is
    acknowledged or can be read back; otherwise memory keeps the generation.
   */
  lemma RetirementIsFinal(w: World, acknowledged: bool, readable: bool)
    requires Core(w) && Landed(w) && w.op.value.command.Retire?
    ensures Absent(Next(w, Settle(acknowledged, readable)), w.op.value.command.id) <==> acknowledged || readable
  {
    var id := w.op.value.command.id;
    if !acknowledged && !readable {
      assert Known(Next(w, Settle(false, false)).mem, id);
    }
  }

  // ---------------------------------------------------------------- fences

  /** The selection names a generation that this incarnation answers for. */
  predicate Answers(r: Registry, selection: Option<Id>, instance: Id) {
    selection.Some? && Known(r, selection.value) && Lookup(r.generations, selection.value).value.Instance() == instance
  }

  predicate Serves(r: Registry, instance: Id) { Answers(r, r.active, instance) || Answers(r, r.previous, instance) }

  /** No active or rollback generation is answered by a fenced incarnation. */
  predicate Unfenced(r: Registry, fenced: set<Id>) { forall instance | instance in fenced :: !Serves(r, instance) }

  /** Neither in memory, nor on disk, nor in the registry about to be written is a selected generation fenced. */
  predicate Safe(w: World) {
    && Unfenced(w.mem, w.fenced) && Unfenced(w.disk, w.fenced)
    && (w.op.Some? && w.op.value.stage.Writing? ==> Unfenced(w.op.value.stage.next, w.fenced))
  }

  /** The incarnation that an event fences. */
  function Struck(w: World, e: Event): Option<Id> {
    match e
    case FenceLands => if AskedToRetire(w) then Some(w.op.value.asked.Instance()) else None
    case StrayLands(instance) => if instance in w.stray then Some(instance) else None
    case _ => None
  }

  /** The event fences an incarnation that is selected in memory, on disk, or in the registry about to be written. */
  predicate Hurts(w: World, e: Event) {
    var struck := Struck(w, e);
    struck.Some? &&
    (|| Serves(w.mem, struck.value) || Serves(w.disk, struck.value)
     || (w.op.Some? && w.op.value.stage.Writing? && Serves(w.op.value.stage.next, struck.value)))
  }

  ghost predicate Distinct(r: Registry) {
    forall g, h | g in r.generations && h in r.generations && g.Instance() == h.Instance() :: g.id == h.id
  }

  /** The command does not bring in an incarnation that another generation already names. */
  predicate Fresh(r: Registry, c: Command) {
    match c
    case Register(item) => forall g | g in r.generations && g.Instance() == item.Instance() :: g.id == item.id
    case Rebind(id, instance) => forall g | g in r.generations && g.Instance() == instance :: g.id == id
    case _ => true
  }

  lemma RegisterDistinct(r: Registry, item: Generation)
    requires Distinct(r) && Fresh(r, Register(item))
    ensures Distinct(r.(epoch := r.epoch + 1, generations := r.generations + [item],
                        legacyOwner := if item.legacy then Some(item.id) else r.legacyOwner))
  {
  }

  lemma RebindDistinct(r: Registry, item: Generation, asked: Generation)
    requires Distinct(r) && Lookup(r.generations, item.id) == Some(item) && asked.id == item.id
    requires forall g | g in r.generations && g.Instance() == asked.Instance() :: g.id == asked.id
    ensures Distinct(r.(epoch := r.epoch + 1, generations := Replace(r.generations, asked)))
  {
    ReplaceAt(r.generations, asked);
    var after := Replace(r.generations, asked);
    forall g | g in after
      ensures g == asked || (g in r.generations && g.id != asked.id)
    {
      var i :| 0 <= i < |after| && after[i] == g;
      assert r.generations[i] in r.generations;
    }
  }

  lemma RetireDistinct(r: Registry, id: Id)
    requires WellFormed(r) && Distinct(r)
    ensures Distinct(r.(epoch := r.epoch + 1, generations := Drop(r.generations, id)))
  {
    DropFacts(r.generations, id);
  }

  lemma ProposeDistinct(r: Registry, busy: Id -> bool, c: Command, asked: Generation, idle: bool)
    requires WellFormed(r) && Distinct(r) && Fresh(r, c) && Guard(r, NONE_BUSY, c) == Ok(Some(asked))
    ensures var next := Propose(r, busy, c, asked, idle);
            next.Ok? && next.value.Some? ==> Distinct(next.value.value)
  {
    match c
    case Register(item) => RegisterDistinct(r, item);
    case Rebind(id, instance) =>
      assert asked.Instance() == instance && asked.id == id;
      RebindDistinct(r, Lookup(r.generations, id).value, asked);
    case Activate(_) => SameGenerationsDistinct(r, Activated(r, asked.id));
    case Rollback => SameGenerationsDistinct(r, Activated(r, asked.id));
    case Retire(id) => RetireDistinct(r, id);
  }

  lemma SameGenerationsDistinct(r: Registry, next: Option<Registry>)
    requires Distinct(r) && (next.Some? ==> next.value.generations == r.generations)
    ensures next.Some? ==> Distinct(next.value)
  {
  }

  /** The generations change only where the command says. */
  lemma ProposedLookup(r: Registry, busy: Id -> bool, c: Command, asked: Generation, idle: bool, id: Id)
    requires WellFormed(r) && Guard(r, NONE_BUSY, c) == Ok(Some(asked))
    requires Propose(r, busy, c, asked, idle).Ok? && Propose(r, busy, c, asked, idle).value.Some?
    ensures var found := Lookup(Propose(r, busy, c, asked, idle).value.value.generations, id);
            found.None? || found == Lookup(r.generations, id) || (found == Some(asked) && asked.id == id)
  {
    match c
    case Register(item) => LookupAppend(r.generations, item, id);
    case Rebind(_, _) => ReplaceLookup(r.generations, asked, id);
    case Activate(_) =>
    case Rollback =>
    case Retire(other) => DropFacts(r.generations, other);
  }

  lemma ServesProposed(r: Registry, busy: Id -> bool, c: Command, asked: Generation, idle: bool, instance: Id)
    requires WellFormed(r) && Guard(r, NONE_BUSY, c) == Ok(Some(asked)) && !Serves(r, instance)
    requires if c.Retire? then !Selected(r, asked.id) else asked.Instance() != instance
    ensures var next := Propose(r, busy, c, asked, idle);
            next.Ok? && next.value.Some? ==> !Serves(next.value.value, instance)
  {
    var proposed := Propose(r, busy, c, asked, idle);
    if proposed.Ok? && proposed.value.Some? {
      var next := proposed.value.value;
      forall selection | (selection == next.active || selection == next.previous) && selection.Some?
        ensures !Answers(next, selection, instance)
      {
        ProposedLookup(r, busy, c, asked, idle, selection.value);
        assert Selected(r, selection.value) || (selection.value == asked.id && !c.Retire?);
      }
    }
  }

  lemma ProposeUnfenced(r: Registry, busy: Id -> bool, c: Command, asked: Generation, idle: bool, fenced: set<Id>)
    requires WellFormed(r) && Guard(r, NONE_BUSY, c) == Ok(Some(asked)) && Unfenced(r, fenced)
    requires if c.Retire? then !Selected(r, asked.id) else asked.Instance() !in fenced
    ensures var next := Propose(r, busy, c, asked, idle);
            next.Ok? && next.value.Some? ==> Unfenced(next.value.value, fenced)
  {
    forall instance | instance in fenced
      ensures var next := Propose(r, busy, c, asked, idle);
              next.Ok? && next.value.Some? ==> !Serves(next.value.value, instance)
    {
      ServesProposed(r, busy, c, asked, idle, instance);
    }
  }

  lemma AnsweredSafe(w: World, good: bool, idle: bool, lost: bool)
    requires Core(w) && Safe(w) && Asked(w)
    ensures Safe(Answered(w, good, idle, lost))
  {
    if good && Truthful(w) {
      ProposeUnfenced(w.mem, Busy(w.live), w.op.value.command, w.op.value.asked, idle, w.fenced);
    }
  }

  lemma StruckSafeIff(w: World, e: Event)
    requires Safe(w) && Struck(w, e).Some?
    ensures Safe(Next(w, e)) <==> !Hurts(w, e)
  {
    assert Next(w, e).fenced == w.fenced + {Struck(w, e).value};
  }

  lemma OthersSafe(w: World, e: Event)
    requires Core(w) && Safe(w) && Struck(w, e).None? && !e.Answer?
    ensures Safe(Next(w, e))
  {
  }

  /** A step out of a safe world is unsafe exactly when it fences an incarnation in use. */
  lemma StepSafeIff(w: World, e: Event)
    requires Core(w) && Safe(w)
    ensures Safe(Next(w, e)) <==> !Hurts(w, e)
  {
    if Struck(w, e).Some? {
      StruckSafeIff(w, e);
    } else if e.Answer? {
      if Asked(w) {
        AnsweredSafe(w, e.good, e.idle, e.lost);
      }
    } else {
      OthersSafe(w, e);
    }
  }

  predicate AlwaysSafe(events: seq<Event>) {
    Safe(Run(events)) && (events == [] || AlwaysSafe(events[..|events| - 1]))
  }

  predicate NeverHurts(events: seq<Event>) {
    events == [] || (NeverHurts(events[..|events| - 1]) && !Hurts(Run(events[..|events| - 1]), events[|events| - 1]))
  }

  /**
    Retirement safety, exactly and over all runs.  At every moment of a run no active or rollback
    generation, in memory, on disk or about to be written, is answered by a fenced incarnation, if
    and only if no retire request took effect on an incarnation that was in use there.
   */
  lemma {:induction false} SelectionNeverFenced(events: seq<Event>)
    ensures AlwaysSafe(events) <==> NeverHurts(events)
  {
    if events != [] {
      var init := events[..|events| - 1];
      SelectionNeverFenced(init);
      EveryRunCore(init);
      if AlwaysSafe(init) {
        StepSafeIff(Run(init), events[|events| - 1]);
      }
    }
  }

  /** The harm is real: a fenced generation is selected in memory or on disk at once, or once the pending write lands. */
  lemma HurtShows(w: World, e: Event)
    requires Hurts(w, e)
    ensures var after := Next(w, e);
            || !Unfenced(after.mem, after.fenced) || !Unfenced(after.disk, after.fenced)
            || !Unfenced(Next(after, Write(true)).disk, after.fenced)
  {
    assert Struck(w, e).value in Next(w, e).fenced;
  }

  // ---------------------------------------------------------------- runs that hurt nobody

  /** An event that leaves nothing uncertain: no write unread, no retire request abandoned, no incarnation named twice. */
  predicate Careful(w: World, e: Event) {
    && !ReadBackFails(w, e)
    && (e.Begin? ==> Fresh(w.mem, e.command))
    && (e.Answer? && AskedToRetire(w) ==> !e.lost)
    && (e.Crash? ==> !AskedToRetire(w))
  }

  predicate CarefulRun(events: seq<Event>) {
    events == [] || (CarefulRun(events[..|events| - 1]) && Careful(Run(events[..|events| - 1]), events[|events| - 1]))
  }

  ghost predicate Orderly(w: World) {
    && w.stray == {} && !w.blind && Distinct(w.mem)
    && (w.op.Some? ==> Fresh(w.mem, w.op.value.command) && (!w.op.value.stage.Asking? ==> Distinct(w.op.value.stage.next)))
  }

  lemma AnsweredOrderly(w: World, good: bool, idle: bool)
    requires Core(w) && Orderly(w) && Asked(w)
    ensures Orderly(Answered(w, good, idle, false))
  {
    ProposeDistinct(w.mem, Busy(w.live), w.op.value.command, w.op.value.asked, idle);
  }

  lemma NextOrderly(w: World, e: Event)
    requires Core(w) && Orderly(w) && Synced(w) && Careful(w, e)
    ensures Orderly(Next(w, e))
  {
    if e.Answer? {
      if Asked(w) {
        AnsweredOrderly(w, e.good, e.idle);
        assert e.lost ==> Answered(w, e.good, e.idle, e.lost) == Answered(w, e.good, e.idle, false);
      }
    } else {
      OthersOrderly(w, e);
    }
  }

  lemma OthersOrderly(w: World, e: Event)
    requires Core(w) && Orderly(w) && Synced(w) && Careful(w, e) && !e.Answer?
    ensures Orderly(Next(w, e))
  {
  }

  /** The fence of a retiring generation hits no selected one. */
  lemma OrderlyHurtsNobody(w: World, e: Event)
    requires Core(w) && Orderly(w) && Synced(w)
    ensures !Hurts(w, e)
  {
    if Struck(w, e).Some? {
      var target := w.op.value.asked;
      forall selection | (selection == w.mem.active || selection == w.mem.previous) && selection.Some? && Known(w.mem, selection.value)
        ensures !Answers(w.mem, selection, target.Instance())
      {
        assert Lookup(w.mem.generations, selection.value).value in w.mem.generations && target in w.mem.generations;
      }
    }
  }

  lemma {:induction false} CarefulRunOrderly(events: seq<Event>)
    requires CarefulRun(events)
    ensures Orderly(Run(events)) && Synced(Run(events)) && NeverHurts(events)
  {
    EveryRunInSync(events);
    if events != [] {
      var init := events[..|events| - 1];
      CarefulRunOrderly(init);
      EveryRunCore(init);
      NextOrderly(Run(init), events[|events| - 1]);
      OrderlyHurtsNobody(Run(init), events[|events| - 1]);
    }
  }

  /** A run that leaves nothing uncertain is safe throughout. */
  lemma CarefulRunIsSafe(events: seq<Event>)
    requires CarefulRun(events)
    ensures AlwaysSafe(events)
  {
    CarefulRunOrderly(events);
    SelectionNeverFenced(events);
  }

  // ---------------------------------------------------------------- what careless runs can do

  function Whole(c: Command, epoch: nat): seq<Event> {
    [Begin(c, epoch)] + [Answer(true, true, false)] + [Write(true)] + [Settle(true, true)]
  }

  /** Nothing stands in the way of the command: its guard, its backend and its proposal are all fine. */
  ghost predicate Unobstructed(w: World, c: Command, asked: Generation, next: Registry) {
    && w.op.None? && !c.Retire? && asked.Instance() !in w.fenced
    && Guard(w.mem, Busy(w.live), c) == Ok(Some(asked))
    && Propose(w.mem, Busy(w.live), c, asked, true) == Ok(Some(next))
  }

  lemma BeginAndAnswer(w: World, c: Command, asked: Generation, next: Registry)
    requires Unobstructed(w, c, asked, next)
    ensures Next(Next(w, Begin(c, w.mem.epoch)), Answer(true, true, false)) ==
            w.(op := Some(Op(c, w.mem.epoch, asked, Writing(next))))
  {
    assert Next(w, Begin(c, w.mem.epoch)) == w.(op := Some(Op(c, w.mem.epoch, asked, Asking)));
  }

  lemma WriteAndSettle(w: World, c: Command, expected: nat, asked: Generation, next: Registry)
    requires w.op == Some(Op(c, expected, asked, Writing(next))) && !c.Retire?
    ensures Next(Next(w, Write(true)), Settle(true, true)) ==
            w.(op := None, mem := next, disk := next, blind := false, commits := w.commits + [Commit(expected, next)])
  {
  }

  /** A command that meets no obstacle. */
  lemma Commanded(events: seq<Event>, c: Command, asked: Generation, next: Registry)
    requires Unobstructed(Run(events), c, asked, next)
    ensures var w := Run(events);
            Run(events + Whole(c, w.mem.epoch)) ==
            w.(mem := next, disk := next, blind := false, commits := w.commits + [Commit(w.mem.epoch, next)])
  {
    var w := Run(events);
    var e1 := events + [Begin(c, w.mem.epoch)];
    var e2 := e1 + [Answer(true, true, false)];
    var e3 := e2 + [Write(true)];
    assert events + Whole(c, w.mem.epoch) == e3 + [Settle(true, true)];
    RunFour(events, Begin(c, w.mem.epoch), Answer(true, true, false), Write(true), Settle(true, true));
    BeginAndAnswer(w, c, asked, next);
    WriteAndSettle(w.(op := Some(Op(c, w.mem.epoch, asked, Writing(next)))), c, w.mem.epoch, asked, next);
  }

  lemma RunFour(events: seq<Event>, a: Event, b: Event, c: Event, d: Event)
    ensures Run(events + [a] + [b] + [c] + [d]) == Next(Next(Next(Next(Run(events), a), b), c), d)
  {
    RunSnoc(events, a);
    RunSnoc(events + [a], b);
    RunSnoc(events + [a] + [b], c);
    RunSnoc(events + [a] + [b] + [c], d);
  }

  const A := Generation("a", None, "here", false)
  const B := Generation("b", None, "there", false)
  const TWIN := Generation("b", Some("a"), "here", false)

  const ONE := Registry(1, None, None, None, [A])

  lemma RegisterFirst()
    ensures Run(Whole(Register(A), 0)) == START.(mem := ONE, disk := ONE, commits := [Commit(0, ONE)])
  {
    assert Propose(EMPTY, Busy(map[]), Register(A), A, true) == Ok(Some(ONE)) by {
      assert [] + [A] == [A];
    }
    Commanded([], Register(A), A, ONE);
    assert [] + Whole(Register(A), 0) == Whole(Register(A), 0);
  }

  /** A write that landed and could not be read back lets a second request win at the same epoch. */
  lemma UnreadWriteForksTheEpoch()
    ensures var events := [Begin(Register(A), 0)] + [Answer(true, true, false)] + [Write(true)] + [Settle(false, false)] + Whole(Register(B), 0);
            var commits := Run(events).commits;
            |commits| == 2 && commits[0].expected == commits[1].expected && commits[0].registry != commits[1].registry
  {
    var e1 := [Begin(Register(A), 0)];
    var e2 := e1 + [Answer(true, true, false)];
    var e3 := e2 + [Write(true)];
    var e4 := e3 + [Settle(false, false)];
    assert [] + e1 == e1 && [] + [A] == [A] && [] + [B] == [B];
    RunSnoc([], Begin(Register(A), 0));
    RunSnoc(e1, Answer(true, true, false));
    RunSnoc(e2, Write(true));
    RunSnoc(e3, Settle(false, false));
    assert Run(e4) == START.(disk := ONE, blind := true, commits := [Commit(0, ONE)]);
    Commanded(e4, Register(B), B, Registry(1, None, None, None, [B]));
  }

  const ACTIVE := Registry(2, Some("a"), None, None, [A])

  lemma ActivateFirst()
    ensures Run(Whole(Register(A), 0) + Whole(Activate("a"), 1)) ==
            START.(mem := ACTIVE, disk := ACTIVE, commits := [Commit(0, ONE), Commit(1, ACTIVE)])
  {
    RegisterFirst();
    Commanded(Whole(Register(A), 0), Activate("a"), A, ACTIVE);
  }

  const BOTH := Registry(3, Some("a"), None, None, [A, TWIN])

  lemma RegisterTwin()
    ensures var w := Run(Whole(Register(A), 0) + Whole(Activate("a"), 1) + Whole(Register(TWIN), 2));
            w.mem == BOTH && w.op.None? && w.live == map[]
  {
    ActivateFirst();
    assert [A] + [TWIN] == [A, TWIN];
    Commanded(Whole(Register(A), 0) + Whole(Activate("a"), 1), Register(TWIN), TWIN, BOTH);
  }

  /** Retiring a second name of the active incarnation fences the active generation. */
  lemma SharedIncarnationIsFenced()
    ensures var events := Whole(Register(A), 0) + Whole(Activate("a"), 1) + Whole(Register(TWIN), 2)
                          + [Begin(Retire("b"), 3)] + [FenceLands];
            Run(events).mem.active == Some("a") && !Unfenced(Run(events).mem, Run(events).fenced)
  {
    var events := Whole(Register(A), 0) + Whole(Activate("a"), 1) + Whole(Register(TWIN), 2);
    RegisterTwin();
    assert [A, TWIN][1..] == [TWIN];
    assert Guard(BOTH, Busy(map[]), Retire("b")) == Ok(Some(TWIN));
    RunSnoc(events, Begin(Retire("b"), 3));
    RunSnoc(events + [Begin(Retire("b"), 3)], FenceLands);
    assert Answers(BOTH, BOTH.active, "a") && "a" in Run(events + [Begin(Retire("b"), 3)] + [FenceLands]).fenced;
  }

  lemma AbandonFirst()
    ensures var w := Run(Whole(Register(A), 0) + [Begin(Retire("a"), 1)] + [Answer(false, false, true)]);
            w.mem == ONE && w.op.None? && w.live == map[] && w.fenced == {} && w.stray == {"a"}
  {
    var e1 := Whole(Register(A), 0);
    var w := Run(e1);
    RegisterFirst();
    assert Guard(ONE, Busy(map[]), Retire("a")) == Ok(Some(A));
    RunSnoc(e1, Begin(Retire("a"), 1));
    RunSnoc(e1 + [Begin(Retire("a"), 1)], Answer(false, false, true));
    assert {} + ({"a"} - {}) == {"a"};
  }

  /** A retire request abandoned on its way and delivered late fences the generation activated meanwhile. */
  lemma LateRetireFencesTheActive()
    ensures var events := Whole(Register(A), 0) + [Begin(Retire("a"), 1)] + [Answer(false, false, true)]
                          + Whole(Activate("a"), 1) + [StrayLands("a")];
            Run(events).mem.active == Some("a") && !Unfenced(Run(events).mem, Run(events).fenced)
  {
    var events := Whole(Register(A), 0) + [Begin(Retire("a"), 1)] + [Answer(false, false, true)];
    AbandonFirst();
    Commanded(events, Activate("a"), A, ACTIVE);
    RunSnoc(events + Whole(Activate("a"), 1), StrayLands("a"));
    assert Answers(ACTIVE, ACTIVE.active, "a") && "a" in Run(events + Whole(Activate("a"), 1) + [StrayLands("a")]).fenced;
  }

  /** Retires the first generation; the write lands, but is neither acknowledged nor read back. */
  const UNREAD_RETIREMENT: seq<Event> := [FenceLands] + [Answer(true, true, false)] + [Write(true)] + [Settle(false, false)]

  const GONE := Registry(2, None, None, None, [])

  lemma BeginRetirement()
    ensures Run(Whole(Register(A), 0) + [Begin(Retire("a"), 1)]) ==
            START.(mem := ONE, disk := ONE, op := Some(Op(Retire("a"), 1, A, Asking)), retiring := {"a"}, commits := [Commit(0, ONE)])
  {
    RegisterFirst();
    assert Guard(ONE, Busy(map[]), Retire("a")) == Ok(Some(A)) && {} + {"a"} == {"a"};
    RunSnoc(Whole(Register(A), 0), Begin(Retire("a"), 1));
  }

  lemma ProposeRetirement(w: World)
    requires w == START.(mem := ONE, disk := ONE, op := Some(Op(Retire("a"), 1, A, Asking)), retiring := {"a"}, commits := [Commit(0, ONE)])
    ensures Next(Next(w, FenceLands), Answer(true, true, false)) ==
            w.(fenced := {"a"}, op := Some(Op(Retire("a"), 1, A, Writing(GONE))))
  {
    assert {} + {"a"} == {"a"};
    assert Drop([A], "a") == [] by { assert [A][1..] == []; }
    assert !Busy(w.live)("a");
    assert Propose(ONE, Busy(w.live), Retire("a"), A, true) == Ok(Some(GONE));
  }

  lemma LoseRetirement(w: World)
    requires w.op == Some(Op(Retire("a"), 1, A, Writing(GONE))) && w.mem == ONE && w.retiring == {"a"} && w.live == map[]
    ensures var after := Next(Next(w, Write(true)), Settle(false, false));
            after.mem == ONE && after.disk == GONE && after.retiring == {} && after.live == map[] && after.fenced == w.fenced
  {
    assert {"a"} - {"a"} == {};
  }

  /** A landed retirement that could not be read back: memory goes on dispatching to a generation that is gone from disk. */
  lemma UnreadRetirementKeepsServing()
    ensures var events := Whole(Register(A), 0) + [Begin(Retire("a"), 1)] + UNREAD_RETIREMENT + [Admit(0, "a")];
            var w := Run(events);
            0 in w.live && w.live[0] == "a" && "a" in w.fenced && !Known(w.disk, "a")
  {
    var begun := Whole(Register(A), 0) + [Begin(Retire("a"), 1)];
    BeginRetirement();
    ProposeRetirement(Run(begun));
    LoseRetirement(Next(Next(Run(begun), FenceLands), Answer(true, true, false)));
    assert begun + UNREAD_RETIREMENT == begun + [FenceLands] + [Answer(true, true, false)] + [Write(true)] + [Settle(false, false)];
    RunFour(begun, FenceLands, Answer(true, true, false), Write(true), Settle(false, false));
    RunSnoc(begun + UNREAD_RETIREMENT, Admit(0, "a"));
  }

  // ---------------------------------------------------------------- the router object

  /** The router's closure state; what lies outside the process is ghost. */
  class Router {
    var state: Registry
    var disk: Registry
    var pending: Option<Op>
    var retiring: set<Id>
    var live: map<nat, Id>
    ghost var blind: bool
    ghost var fenced: set<Id>
    ghost var stray: set<Id>
    ghost var commits: seq<Commit>

    ghost function View(): World
      reads this
    {
      World(state, disk, pending, blind, retiring, live, fenced, stray, commits)
    }

    constructor ()
      ensures View() == START
    {
      state, disk, pending, retiring, live := EMPTY, EMPTY, None, {}, map[];
      blind, fenced, stray, commits := false, {}, {}, [];
    }

    /** The synchronous head of a control command. */
    method Begin(c: Command, expected: nat) returns (asked: Option<Generation>)
      modifies this
      ensures View() == Next(old(View()), Event.Begin(c, expected))
    {
      if pending.Some? || expected != state.epoch {
        return None;
      }
      match Guard(state, Busy(live), c)
      case Ok(Some(g)) =>
        if c.Retire? {
          retiring := retiring + {c.id};
        }
        pending, asked := Some(Op(c, expected, g, Asking)), Some(g);
      case _ => asked := None;
    }

    /** The backend has answered, or will not: go on to the write, or give the command up. */
    method Answer(good: bool, idle: bool, ghost lost: bool)
      requires pending.Some? && pending.value.stage.Asking? && (good ==> Truthful(View()))
      modifies this
      ensures View() == Next(old(View()), Event.Answer(good, idle, lost))
    {
      var op := pending.value;
      if good {
        match Propose(state, Busy(live), op.command, op.asked, idle)
        case Ok(Some(next)) =>
          pending := Some(op.(stage := Writing(next)));
          return;
        case _ =>
      } else if op.command.Retire? {
        stray := stray + if lost then {op.asked.Instance()} - fenced else {};
      }
      End();
    }

    /** The `finally` of a command. */
    method End()
      requires pending.Some?
      modifies this`pending, this`retiring
      ensures View() == Over(old(View()))
    {
      if pending.value.command.Retire? {
        retiring := retiring - {pending.value.command.id};
      }
      pending := None;
    }

    /** The rename on disk lands or does not. */
    method Write(landed: bool)
      requires pending.Some? && pending.value.stage.Writing?
      modifies this
      ensures View() == Next(old(View()), Event.Write(landed))
    {
      var op := pending.value;
      if landed {
        disk := op.stage.next;
        commits := commits + [Commit(op.expected, op.stage.next)];
      }
      pending := Some(op.(stage := Written(op.stage.next, landed)));
    }

    /** After the write: adopt it, reconcile with the disk, or stop routing new work. */
    method Settle(acknowledged: bool, readable: bool)
      requires pending.Some? && pending.value.stage.Written? && (acknowledged ==> pending.value.stage.landed)
      modifies this
      ensures View() == Next(old(View()), Event.Settle(acknowledged, readable))
    {
      if acknowledged {
        state, blind := pending.value.stage.next, false;
      } else if readable {
        state, blind := disk, false;
      } else {
        state, blind := state.(active := None), true;
      }
      End();
    }

    method Admit(request: nat, owner: Id) returns (admitted: bool)
      modifies this
      ensures View() == Next(old(View()), Event.Admit(request, owner))
      ensures admitted <==> request !in old(live) && Known(state, owner) && owner !in retiring && |old(live)| < 256
      ensures live == if admitted then old(live)[request := owner] else old(live)
    {
      admitted := request !in live && Known(state, owner) && owner !in retiring && |live| < MAX_ADMITTED;
      if admitted {
        live := live[request := owner];
      }
    }

    method Release(request: nat)
      modifies this
      ensures View() == Next(old(View()), Event.Release(request))
    {
      live := live - {request};
    }
  }
}
