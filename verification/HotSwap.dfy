/**
  The router, with its control plane and its data plane, and its backends as one system.  A fence is
  set by a retire request that reaches a running backend and that the backend accepts, and requests
  are in flight because the data plane has given them to a generation, in no other way; everything
  the control plane is proved to do it does in this system too.
 */
module HotSwap {
  import opened Wrappers
  import opened Registry
  import Router = ControlPlane
  import Backend = BackendFence
  import Traffic = DataPlane

  /** The backends are the processes that have ever run, by incarnation. */
  datatype System = System(router: Router.World, traffic: Traffic.Traffic, backends: map<Id, Backend.Backend>)

  datatype Event =
    | Route(step: Router.Event)
    | RetireArrives
    | StrayArrives(instance: Id)
    | Serve(instance: Id, request: Backend.Event)
    | Boot(instance: Id, resources: Option<Backend.Resources>)
    | Carry(transfer: Traffic.Event)

  const START := System(Router.START, Traffic.QUIET, map[])

  /** The retire request that the router sends to an incarnation. */
  function RetireOf(instance: Id): Backend.Event { Backend.RetireRequest(Some(instance), true, true) }

  predicate Accepts(s: System, instance: Id) {
    instance in s.backends && Backend.Status(s.backends[instance], RetireOf(instance)) == 200
  }

  /** A backend that does not run answers nothing well; fences are not the router's to set, nor requests the control plane's. */
  function Feasible(s: System, e: Router.Event): Option<Router.Event> {
    match e
    case FenceLands => None
    case StrayLands(_) => None
    case Admit(_, _) => None
    case Release(_) => None
    case Answer(good, idle, lost) =>
      Some(Router.Answer(good && Router.Asked(s.router) && s.router.op.value.asked.Instance() in s.backends, idle, lost))
    case _ => Some(e)
  }

  /** What an event of the system is to the router alone. */
  function Seen(s: System, e: Event): Option<Router.Event> {
    match e
    case Route(step) => Feasible(s, step)
    case RetireArrives =>
      if Router.AskedToRetire(s.router) && Accepts(s, s.router.op.value.asked.Instance()) then Some(Router.FenceLands) else None
    case StrayArrives(instance) =>
      if instance in s.router.stray && Accepts(s, instance) then Some(Router.StrayLands(instance)) else None
    case Serve(_, _) => None
    case Boot(_, _) => None
    case Carry(transfer) => if Routable(s, transfer) then Shown(s.traffic, transfer) else None
  }

  /** A request is given only to a registered generation that is not retiring. */
  predicate Routable(s: System, transfer: Traffic.Event) {
    transfer.Dispatch? ==> Known(s.router.mem, transfer.owner) && transfer.owner !in s.router.retiring
  }

  /** What an event of the data plane is to the control plane. */
  function Shown(t: Traffic.Traffic, e: Traffic.Event): Option<Router.Event> {
    match e
    case Dispatch(r, owner, _, _) => if r in t.live && t.live[r].Reading? then Some(Router.Admit(r, owner)) else None
    case Finish(r) => Some(Router.Release(r))
    case _ => None
  }

  /** A crash of the router ends every request. */
  function Carried(s: System, e: Event): Traffic.Traffic {
    match e
    case Carry(transfer) => if Routable(s, transfer) then Traffic.Next(s.traffic, transfer) else s.traffic
    case Route(step) => if step.Crash? then Traffic.QUIET else s.traffic
    case _ => s.traffic
  }

  function ServedBy(s: System, e: Event): map<Id, Backend.Backend> {
    match e
    case Route(_) => s.backends
    case RetireArrives =>
      if Router.AskedToRetire(s.router) && Accepts(s, s.router.op.value.asked.Instance())
      then Received(s.backends, s.router.op.value.asked.Instance(), RetireOf(s.router.op.value.asked.Instance())) else s.backends
    case StrayArrives(instance) =>
      if instance in s.router.stray && Accepts(s, instance) then Received(s.backends, instance, RetireOf(instance)) else s.backends
    case Serve(instance, request) =>
      if instance in s.backends && !request.RetireRequest? then Received(s.backends, instance, request) else s.backends
    case Boot(instance, resources) =>
      if instance in s.backends then s.backends
      else s.backends[instance := Backend.Backend(instance, false, 0, 0, 0, resources)]
    case Carry(_) => s.backends
  }

  function Received(backends: map<Id, Backend.Backend>, instance: Id, e: Backend.Event): map<Id, Backend.Backend>
    requires instance in backends
  {
    backends[instance := Backend.Next(backends[instance], e)]
  }

  function Next(s: System, e: Event): System {
    var seen := Seen(s, e);
    System(if seen.Some? then Router.Next(s.router, seen.value) else s.router, Carried(s, e), ServedBy(s, e))
  }

  function Run(events: seq<Event>): System {
    if events == [] then START else Next(Run(events[..|events| - 1]), events[|events| - 1])
  }

  // ---------------------------------------------------------------- the router's part of a run

  function Routed(events: seq<Event>): seq<Router.Event> {
    if events == [] then [] else
      var init := events[..|events| - 1];
      match Seen(Run(init), events[|events| - 1])
      case None => Routed(init)
      case Some(e) => Routed(init) + [e]
  }

  /** What the system does to the router is a run of the control plane. */
  lemma {:induction false} RunsTheControlPlane(events: seq<Event>)
    ensures Run(events).router == Router.Run(Routed(events))
  {
    if events != [] {
      var init := events[..|events| - 1];
      RunsTheControlPlane(init);
      var seen := Seen(Run(init), events[|events| - 1]);
      if seen.Some? {
        Router.RunSnoc(Routed(init), seen.value);
      }
    }
  }

  // ---------------------------------------------------------------- one fence

  /** The router's fenced incarnations are the backends whose fence is set; those are idle and own nothing. */
  ghost predicate Agree(s: System) {
    && (forall instance :: instance in s.router.fenced <==> instance in s.backends && s.backends[instance].fenced)
    && (forall instance | instance in s.backends ::
          s.backends[instance].instance == instance && Backend.FenceHolds(s.backends[instance]))
  }

  lemma RouterKeepsFence(w: Router.World, e: Router.Event)
    requires !e.FenceLands? && !e.StrayLands?
    ensures Router.Next(w, e).fenced == w.fenced
  {
  }

  lemma RequestKeepsFence(b: Backend.Backend, e: Backend.Event)
    requires Backend.FenceHolds(b) && !e.RetireRequest?
    ensures var after := Backend.Next(b, e);
            after.fenced == b.fenced && after.instance == b.instance && Backend.FenceHolds(after)
  {
  }

  lemma StrikeAgrees(s: System, instance: Id)
    requires Agree(s) && Accepts(s, instance)
    ensures Agree(s.(router := s.router.(fenced := s.router.fenced + {instance}),
                     backends := Received(s.backends, instance, RetireOf(instance))))
  {
  }

  lemma AgreeFrame(s: System, router: Router.World, traffic: Traffic.Traffic)
    requires Agree(s) && router.fenced == s.router.fenced
    ensures Agree(System(router, traffic, s.backends))
  {
  }

  lemma RouteAgrees(s: System, e: Event)
    requires Agree(s) && (e.Route? || e.Carry?)
    ensures Agree(Next(s, e))
  {
    var seen := Seen(s, e);
    if seen.Some? {
      RouterKeepsFence(s.router, seen.value);
    }
    AgreeFrame(s, Next(s, e).router, Next(s, e).traffic);
  }

  lemma NextAgrees(s: System, e: Event)
    requires Agree(s)
    ensures Agree(Next(s, e))
  {
    match e
    case Route(_) => RouteAgrees(s, e);
    case Carry(_) => RouteAgrees(s, e);
    case RetireArrives =>
      if Seen(s, e).Some? {
        StrikeAgrees(s, s.router.op.value.asked.Instance());
      }
    case StrayArrives(instance) =>
      if Seen(s, e).Some? {
        StrikeAgrees(s, instance);
        var struck := s.router.(fenced := s.router.fenced + {instance});
        AgreeFrame(System(struck, s.traffic, ServedBy(s, e)), Next(s, e).router, s.traffic);
      }
    case Serve(instance, request) =>
      if instance in s.backends && !request.RetireRequest? {
        RequestKeepsFence(s.backends[instance], request);
      }
    case Boot(_, _) =>
  }

  lemma {:induction false} EveryRunAgrees(events: seq<Event>)
    ensures Agree(Run(events))
  {
    if events != [] {
      EveryRunAgrees(events[..|events| - 1]);
      NextAgrees(Run(events[..|events| - 1]), events[|events| - 1]);
    }
  }

  /**
    Retirement safety of the whole system.  In every run each fenced backend has no exchange, no
    call and no resource and admits nothing; and if no retire request was accepted by an incarnation
    in use, no active or rollback generation, in memory or on disk, is answered by a fenced backend.
   */
  lemma RetirementIsSafe(events: seq<Event>, instance: Id, e: Backend.Event)
    requires instance in Run(events).backends && Run(events).backends[instance].fenced
    ensures var s := Run(events);
            var b := s.backends[instance];
            && !Backend.IsBusy(b) && Backend.OwnsNothing(b) && (e.McpRequest? ==> Backend.Status(b, e) != 200)
            && (Router.NeverHurts(Routed(events)) ==>
                  !Router.Serves(s.router.mem, instance) && !Router.Serves(s.router.disk, instance))
  {
    EveryRunAgrees(events);
    RunsTheControlPlane(events);
    Router.SelectionNeverFenced(Routed(events));
  }

  // ---------------------------------------------------------------- whom a forwarded call reaches

  predicate OwnName(r: Registry, id: Id) { Known(r, id) ==> Lookup(r.generations, id).value.Instance() == id }

  /** Memory, disk and the command in progress name the generation's own incarnation. */
  predicate Unbound(w: Router.World, id: Id) {
    && OwnName(w.mem, id) && OwnName(w.disk, id)
    && (w.op.Some? ==>
          && (w.op.value.asked.id == id ==> w.op.value.asked.Instance() == id)
          && (w.op.value.stage.Asking? || OwnName(w.op.value.stage.next, id)))
  }

  /** The command gives the generation no other incarnation, neither at registration nor by a rebind. */
  predicate KeepsName(c: Command, id: Id) {
    match c
    case Register(item) => item.id == id ==> item.Instance() == id
    case Rebind(other, instance) => other == id ==> instance == id
    case _ => true
  }

  lemma ProposesOwnName(w: Router.World, idle: bool, id: Id)
    requires Router.Core(w) && Unbound(w, id) && Router.Asked(w)
    ensures var next := Propose(w.mem, Router.Busy(w.live), w.op.value.command, w.op.value.asked, idle);
            next.Ok? && next.value.Some? ==> OwnName(next.value.value, id)
  {
    var next := Propose(w.mem, Router.Busy(w.live), w.op.value.command, w.op.value.asked, idle);
    if next.Ok? && next.value.Some? {
      Router.ProposedLookup(w.mem, Router.Busy(w.live), w.op.value.command, w.op.value.asked, idle, id);
    }
  }

  lemma AnsweredUnbound(w: Router.World, good: bool, idle: bool, lost: bool, id: Id)
    requires Router.Core(w) && Unbound(w, id) && Router.Asked(w)
    ensures Unbound(Router.Answered(w, good, idle, lost), id)
  {
    ProposesOwnName(w, idle, id);
  }

  lemma BeginUnbound(w: Router.World, e: Router.Event, id: Id)
    requires Unbound(w, id) && e.Begin? && KeepsName(e.command, id)
    ensures Unbound(Router.Next(w, e), id)
  {
  }

  lemma OthersUnbound(w: Router.World, e: Router.Event, id: Id)
    requires Unbound(w, id) && !e.Begin? && !e.Answer?
    ensures Unbound(Router.Next(w, e), id)
  {
  }

  lemma NextUnbound(w: Router.World, e: Router.Event, id: Id)
    requires Router.Core(w) && Unbound(w, id) && (e.Begin? ==> KeepsName(e.command, id))
    ensures Unbound(Router.Next(w, e), id)
  {
    if e.Answer? {
      if Router.Asked(w) {
        AnsweredUnbound(w, e.good, e.idle, e.lost, id);
      }
    } else if e.Begin? {
      BeginUnbound(w, e, id);
    } else {
      OthersUnbound(w, e, id);
    }
  }

  /** A generation that was never given another incarnation is answered for by its own id, in every run. */
  lemma {:induction false} NeverReboundKeepsItsName(events: seq<Router.Event>, id: Id)
    requires forall n | 0 <= n < |events| && events[n].Begin? :: KeepsName(events[n].command, id)
    ensures Unbound(Router.Run(events), id)
  {
    if events != [] {
      var init := events[..|events| - 1];
      NeverReboundKeepsItsName(init, id);
      Router.EveryRunCore(init);
      NextUnbound(Router.Run(init), events[|events| - 1], id);
    }
  }

  /**
    A call forwarded to a registered generation is admitted by the incarnation that the router probes
    for it, fence aside, in every run that never gave the generation another incarnation.
   */
  lemma ForwardedCallArrives(events: seq<Router.Event>, id: Id, b: Backend.Backend)
    requires forall n | 0 <= n < |events| && events[n].Begin? :: KeepsName(events[n].command, id)
    requires Known(Router.Run(events).mem, id)
    requires b.instance == Lookup(Router.Run(events).mem.generations, id).value.Instance() && !b.fenced
    ensures Backend.Status(b, Backend.Forwarded(Lookup(Router.Run(events).mem.generations, id).value)) == 200
  {
    NeverReboundKeepsItsName(events, id);
    Backend.ForwardedCallReachesProbedIncarnation(Lookup(Router.Run(events).mem.generations, id).value, b);
  }

  const REBOUND := Generation("a", Some("z"), "here", false)

  /** A run that registers a generation and rebinds it: the incarnation it is now probed at refuses every forwarded call. */
  lemma ReboundRunIsRefused(b: Backend.Backend)
    requires b.instance == "z"
    ensures var w := Router.Run(Router.Whole(Register(Router.A), 0) + Router.Whole(Rebind("a", "z"), 1));
            && Lookup(w.mem.generations, "a") == Some(REBOUND) && REBOUND.Instance() == b.instance
            && Backend.Status(b, Backend.Forwarded(REBOUND)) == 409
  {
    var next := Registry(2, None, None, None, [REBOUND]);
    Router.RegisterFirst();
    var w := Router.Run(Router.Whole(Register(Router.A), 0));
    assert Lookup(w.mem.generations, "a") == Some(Router.A);
    assert Guard(w.mem, Router.Busy(w.live), Rebind("a", "z")) == Ok(Some(REBOUND));
    assert Replace([Router.A], REBOUND) == [REBOUND] by { assert [Router.A][1..] == [] && Replace([], REBOUND) == []; }
    Router.Commanded(Router.Whole(Register(Router.A), 0), Rebind("a", "z"), REBOUND, next);
  }

  // ---------------------------------------------------------------- one traffic

  /** The requests that the data plane has given to a generation. */
  function Owners(live: map<nat, Traffic.Request>): map<nat, Id> {
    map r | r in live && live[r].Owned? :: live[r].owner
  }

  lemma RoomForOneMore(t: Traffic.Traffic, r: nat)
    requires Traffic.Accurate(t) && r in t.live && t.live[r].Reading?
    ensures r !in Owners(t.live) && |Owners(t.live)| < Router.MAX_ADMITTED
  {
    var owned := Owners(t.live).Keys;
    assert owned <= t.live.Keys - {r};
    Traffic.SubsetSize(owned, t.live.Keys - {r});
  }

  lemma OwnersDispatched(live: map<nat, Traffic.Request>, r: nat, q: Traffic.Request)
    requires q.Owned?
    ensures Owners(live[r := q]) == Owners(live)[r := q.owner]
  {
  }

  lemma OwnersFinished(live: map<nat, Traffic.Request>, r: nat)
    ensures Owners(live - {r}) == Owners(live) - {r}
  {
  }

  lemma OwnersArrived(live: map<nat, Traffic.Request>, r: nat)
    requires r !in live
    ensures Owners(live[r := Traffic.Reading]) == Owners(live)
  {
  }

  lemma OwnersCancelled(live: map<nat, Traffic.Request>, targets: set<nat>)
    ensures Owners(Traffic.MarkCancelled(live, targets)) == Owners(live)
  {
  }

  lemma Admitted(w: Router.World, r: nat, owner: Id)
    requires r !in w.live && |w.live| < Router.MAX_ADMITTED && Known(w.mem, owner) && owner !in w.retiring
    ensures Router.Next(w, Router.Admit(r, owner)).live == w.live[r := owner]
  {
  }

  /** The control plane's view of the requests after an event of the data plane. */
  function Followed(t: Traffic.Traffic, w: Router.World, e: Traffic.Event): map<nat, Id> {
    match Shown(t, e)
    case Some(step) => Router.Next(w, step).live
    case None => w.live
  }

  lemma DispatchTraffic(t: Traffic.Traffic, w: Router.World, e: Traffic.Event)
    requires Traffic.Accurate(t) && w.live == Owners(t.live)
    requires e.Dispatch? && Known(w.mem, e.owner) && e.owner !in w.retiring
    ensures Owners(Traffic.Next(t, e).live) == Followed(t, w, e)
  {
    if e.request in t.live && t.live[e.request].Reading? {
      RoomForOneMore(t, e.request);
      OwnersDispatched(t.live, e.request, Traffic.Owned(e.owner, e.key, e.isOpen, false));
      Admitted(w, e.request, e.owner);
    }
  }

  lemma FinishTraffic(t: Traffic.Traffic, w: Router.World, e: Traffic.Event)
    requires w.live == Owners(t.live) && e.Finish?
    ensures Owners(Traffic.Next(t, e).live) == Followed(t, w, e)
  {
    OwnersFinished(t.live, e.request);
  }

  lemma HiddenTraffic(t: Traffic.Traffic, w: Router.World, e: Traffic.Event)
    requires w.live == Owners(t.live) && !e.Dispatch? && !e.Finish?
    ensures Owners(Traffic.Next(t, e).live) == Followed(t, w, e)
  {
    if e.Admit? && e.request !in t.live {
      OwnersArrived(t.live, e.request);
    } else if e.Cancel? {
      OwnersCancelled(t.live, Traffic.Matches(t, e.key));
    }
  }

  lemma CarriedTraffic(t: Traffic.Traffic, w: Router.World, e: Traffic.Event)
    requires Traffic.Accurate(t) && w.live == Owners(t.live)
    requires e.Dispatch? ==> Known(w.mem, e.owner) && e.owner !in w.retiring
    ensures Owners(Traffic.Next(t, e).live) == Followed(t, w, e)
  {
    if e.Dispatch? {
      DispatchTraffic(t, w, e);
    } else if e.Finish? {
      FinishTraffic(t, w, e);
    } else {
      HiddenTraffic(t, w, e);
    }
  }

  ghost predicate SameTraffic(s: System) { Traffic.Accurate(s.traffic) && s.router.live == Owners(s.traffic.live) }

  /** Commands, replies, writes and fences touch no request. */
  lemma RouterKeepsTraffic(w: Router.World, e: Router.Event)
    requires !e.Admit? && !e.Release? && !e.Crash?
    ensures Router.Next(w, e).live == w.live
  {
  }

  lemma NextSameTraffic(s: System, e: Event)
    requires SameTraffic(s)
    ensures SameTraffic(Next(s, e))
  {
    var seen := Seen(s, e);
    if e.Carry? {
      if Routable(s, e.transfer) {
        CarriedTraffic(s.traffic, s.router, e.transfer);
        Traffic.NextAccurate(s.traffic, e.transfer);
      }
    } else if e.Route? && e.step.Crash? {
      Traffic.EveryRunAccurate([]);
    } else if seen.Some? {
      RouterKeepsTraffic(s.router, seen.value);
    }
  }

  /**
    The two planes see the same requests, in every run of the system: those in flight for the control
    plane are those that the data plane has given to a generation, each under its owner.
   */
  lemma {:induction false} OneTraffic(events: seq<Event>)
    ensures SameTraffic(Run(events))
  {
    if events == [] {
      Traffic.EveryRunAccurate([]);
    } else {
      OneTraffic(events[..|events| - 1]);
      NextSameTraffic(Run(events[..|events| - 1]), events[|events| - 1]);
    }
  }

  /** So the in-flight count that the guards of control commands look at says whether a generation owns a request. */
  lemma InFlightIsBusy(events: seq<Event>, owner: Id)
    ensures var s := Run(events);
            Router.Busy(s.router.live)(owner) <==> Traffic.Get(s.traffic.inFlight, owner, 0) > 0
  {
    OneTraffic(events);
    var t := Run(events).traffic;
    var owned := Traffic.OwnedBy(t.live, owner);
    if owner in Owners(t.live).Values {
      var r :| r in Owners(t.live) && Owners(t.live)[r] == owner;
      assert r in owned;
    }
    if |owned| > 0 {
      var r :| r in owned;
      assert r in Owners(t.live) && Owners(t.live)[r] == owner;
    }
  }

  /** And a generation that is being retired owns none, in the data plane too. */
  lemma RetiringOwnsNothing(events: seq<Event>)
    requires Run(events).router.op.Some? && Run(events).router.op.value.command.Retire?
    ensures Traffic.OwnedBy(Run(events).traffic.live, Run(events).router.op.value.command.id) == {}
  {
    RunsTheControlPlane(events);
    Router.RetiringIsQuiet(Routed(events));
    var id := Run(events).router.op.value.command.id;
    InFlightIsBusy(events, id);
    OneTraffic(events);
  }
}
