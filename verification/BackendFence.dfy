/**
  The backend's side of a hot swap: requests that name an incarnation, and the retirement fence.

  The fence is set only while nothing is in progress and nothing is owned; afterwards nothing is
  admitted, so nothing can ever be in progress or owned again.
 */
module BackendFence {
  import opened Wrappers
  import opened Registry

  datatype Resources = Resources(applications: nat, recordings: nat)

  /** `resources` is absent for an adapter that cannot enumerate what it owns. */
  datatype Backend = Backend(
    instance: Id, fenced: bool, exchanges: nat, active: nat, queued: nat, resources: Option<Resources>)

  datatype Event =
    | RetireRequest(instance: Option<Id>, keyed: bool, post: bool)
    | McpRequest(instance: Option<Id>, keyed: bool, bearer: bool, hasMethod: bool)
    | ExchangeEnds
    | CallArrives(starts: bool)  // a tool call of an exchange in progress starts or is queued
    | QueuedStarts
    | QueuedLeaves
    | CallEnds
    | Acquires(recording: bool)  // an active call acquires a resource
    | Releases(recording: bool)

  predicate IsBusy(b: Backend) { b.exchanges > 0 || b.active > 0 || b.queued > 0 }

  predicate OwnsNothing(b: Backend) { b.resources == Some(Resources(0, 0)) }

  function Status(b: Backend, e: Event): nat
    requires e.RetireRequest? || e.McpRequest?
  {
    match e
    case RetireRequest(instance, keyed, post) =>
      if !keyed then 403 else if !post then 405
      else if instance != Some(b.instance) || IsBusy(b) || !OwnsNothing(b) then 409 else 200
    case McpRequest(instance, keyed, bearer, hasMethod) =>
      if instance.Some? && (instance.value != b.instance || !keyed) then 409
      else if b.fenced then 503 else if !bearer then 401 else if !hasMethod then 400 else 200
  }

  function Next(b: Backend, e: Event): Backend {
    match e
    case RetireRequest(_, _, _) => if Status(b, e) == 200 then b.(fenced := true) else b
    case McpRequest(_, _, _, _) => if Status(b, e) == 200 then b.(exchanges := b.exchanges + 1) else b
    case ExchangeEnds => if b.exchanges > 0 then b.(exchanges := b.exchanges - 1) else b
    case CallArrives(starts) =>
      if b.exchanges == 0 then b else if starts then b.(active := b.active + 1) else b.(queued := b.queued + 1)
    case QueuedStarts => if b.queued > 0 then b.(queued := b.queued - 1, active := b.active + 1) else b
    case QueuedLeaves => if b.queued > 0 then b.(queued := b.queued - 1) else b
    case CallEnds => if b.active > 0 then b.(active := b.active - 1) else b
    case Acquires(recording) =>
      if b.active == 0 || b.resources.None? then b
      else if recording then b.(resources := Some(b.resources.value.(recordings := b.resources.value.recordings + 1)))
      else b.(resources := Some(b.resources.value.(applications := b.resources.value.applications + 1)))
    case Releases(recording) =>
      if b.resources.None? then b
      else if recording && b.resources.value.recordings > 0 then
        b.(resources := Some(b.resources.value.(recordings := b.resources.value.recordings - 1)))
      else if !recording && b.resources.value.applications > 0 then
        b.(resources := Some(b.resources.value.(applications := b.resources.value.applications - 1)))
      else b
  }

  function Run(b: Backend, events: seq<Event>): Backend {
    if events == [] then b else Next(Run(b, events[..|events| - 1]), events[|events| - 1])
  }

  /** A fenced backend is idle and owns nothing. */
  predicate FenceHolds(b: Backend) { b.fenced ==> !IsBusy(b) && OwnsNothing(b) }

  /**
    The fence is final: from the moment it is set, through every later event, the backend stays
    fenced with no exchange, no call and no resource, and admits nothing.
   */
  lemma {:induction false} FencedForever(b: Backend, before: seq<Event>, after: seq<Event>, e: Event)
    requires !b.fenced && Run(b, before).fenced
    ensures var later := Run(b, before + after);
            later.fenced && !IsBusy(later) && OwnsNothing(later) && (e.McpRequest? ==> Status(later, e) != 200)
    decreases |after|
  {
    EveryRunFenceHolds(b, before + after);
    if after == [] {
      assert before + after == before;
    } else {
      FencedForever(b, before, after[..|after| - 1], e);
      assert (before + after)[..|before + after| - 1] == before + after[..|after| - 1];
    }
  }

  lemma {:induction false} EveryRunFenceHolds(b: Backend, events: seq<Event>)
    requires FenceHolds(b)
    ensures FenceHolds(Run(b, events))
  {
    if events != [] {
      EveryRunFenceHolds(b, events[..|events| - 1]);
    }
  }

  /** A keyed retire request that named the incarnation came while nothing was in progress and nothing owned. */
  predicate Retires(b: Backend, e: Event) {
    e == RetireRequest(Some(b.instance), true, true) && b.exchanges + b.active + b.queued == 0 && b.resources == Some(Resources(0, 0))
  }

  predicate WasRetired(b: Backend, events: seq<Event>) {
    events != [] &&
    (WasRetired(b, events[..|events| - 1]) || Retires(Run(b, events[..|events| - 1]), events[|events| - 1]))
  }

  /** The fence is set by such a request and by nothing else, in every run. */
  lemma {:induction false} FencedIff(b: Backend, events: seq<Event>)
    requires !b.fenced
    ensures Run(b, events).fenced <==> WasRetired(b, events)
    ensures Run(b, events).instance == b.instance
  {
    if events != [] {
      FencedIff(b, events[..|events| - 1]);
    }
  }

  /** The request addresses this incarnation: it names none, or this one with the router's key. */
  predicate Addressed(b: Backend, e: Event)
    requires e.McpRequest?
  {
    e.instance == None || (e.instance == Some(b.instance) && e.keyed)
  }

  /**
    Admission, in every run.  An addressed and authorised request is admitted, as one more exchange, if
    and only if the backend has not been retired; a retired one refuses it as retired.
   */
  lemma AdmittedIff(b: Backend, events: seq<Event>, e: Event)
    requires !b.fenced && e.McpRequest?
    ensures Status(Run(b, events), e) == 200 <==> Addressed(b, e) && e.bearer && e.hasMethod && !WasRetired(b, events)
    ensures Status(Run(b, events), e) == 503 <==> Addressed(b, e) && WasRetired(b, events)
    ensures Next(Run(b, events), e).exchanges == Run(b, events).exchanges + if Status(Run(b, events), e) == 200 then 1 else 0
  {
    FencedIff(b, events);
  }

  function One(holds: bool): int { if holds then 1 else 0 }

  /** What it holds of one kind; an adapter that cannot enumerate holds nothing that is known. */
  function Held(b: Backend, recording: bool): nat {
    if b.resources.None? then 0 else if recording then b.resources.value.recordings else b.resources.value.applications
  }

  /**
    The work that keeps a backend from being fenced, in every run: calls come from exchanges, resources
    from active calls, and each leaves by its own event, and no other event changes any of them.
   */
  lemma WorkFollows(b: Backend, events: seq<Event>, e: Event, recording: bool)
    ensures var w, after := Run(b, events), Next(Run(b, events), e);
            && after.exchanges == w.exchanges + One(e.McpRequest? && Status(w, e) == 200) - One(e == ExchangeEnds && w.exchanges > 0)
            && after.active + after.queued ==
               w.active + w.queued + One(e.CallArrives? && w.exchanges > 0)
               - One((e == CallEnds && w.active > 0) || (e == QueuedLeaves && w.queued > 0))
            && after.active ==
               w.active + One((e == CallArrives(true) && w.exchanges > 0) || (e == QueuedStarts && w.queued > 0))
               - One(e == CallEnds && w.active > 0)
            && after.resources.Some? == w.resources.Some?
            && Held(after, recording) ==
               Held(w, recording) + One(e == Acquires(recording) && w.active > 0 && w.resources.Some?)
               - One(e == Releases(recording) && Held(w, recording) > 0)
  {
  }

  // ---------------------------------------------------------------- the token of forwarded calls

  /** What the router sends: the id of the generation, not the incarnation it probes. */
  function Forwarded(g: Generation): Event { McpRequest(Some(g.id), true, true, true) }

  /**
    A forwarded call reaches the incarnation that the router probes for this generation exactly when
    that incarnation bears the generation's own id; otherwise it refuses the call.
   */
  lemma ForwardedCallReachesProbedIncarnation(g: Generation, b: Backend)
    requires b.instance == g.Instance() && !b.fenced
    ensures Status(b, Forwarded(g)) == 200 <==> g.Instance() == g.id
    ensures Status(b, Forwarded(g)) == 409 <==> g.Instance() != g.id
  {
  }

  /** After a rebind to a new incarnation that incarnation refuses every call forwarded to the generation. */
  lemma ReboundCallsAreRefused(r: Registry, busy: Id -> bool, id: Id, instance: Id, asked: Generation, b: Backend)
    requires WellFormed(r) && Guard(r, busy, Rebind(id, instance)) == Ok(Some(asked)) && instance != id
    requires b.instance == instance
    ensures var next := Propose(r, busy, Rebind(id, instance), asked, true).value.value;
            Lookup(next.generations, id) == Some(asked) && asked.Instance() == b.instance && Status(b, Forwarded(asked)) == 409
  {
    ReplaceLookup(r.generations, asked, id);
  }

  // ---------------------------------------------------------------- the server object

  /** The closure state of the backend's HTTP server; the work counters belong to its collaborators. */
  class Server {
    const instance: Id
    var fenced: bool
    var exchanges: nat
    var active: nat
    var queued: nat
    var resources: Option<Resources>

    ghost function View(): Backend
      reads this
    {
      Backend(instance, fenced, exchanges, active, queued, resources)
    }

    constructor (instance: Id, resources: Option<Resources>)
      ensures View() == Backend(instance, false, 0, 0, 0, resources)
    {
      this.instance, this.resources := instance, resources;
      fenced, exchanges, active, queued := false, 0, 0, 0;
    }

    method Retire(expected: Option<Id>, keyed: bool, post: bool) returns (status: nat)
      modifies this`fenced
      ensures status == Status(old(View()), RetireRequest(expected, keyed, post))
      ensures View() == Next(old(View()), RetireRequest(expected, keyed, post))
    {
      if !keyed {
        return 403;
      }
      var busy := exchanges > 0 || active > 0 || queued > 0;
      if !post {
        return 405;
      }
      if expected != Some(instance) || busy || resources.None? || resources.value.applications > 0 || resources.value.recordings > 0 {
        return 409;
      }
      fenced := true;
      return 200;
    }

    /** Admission of a request; an admitted one is an exchange until it ends. */
    method Mcp(expected: Option<Id>, keyed: bool, bearer: bool, hasMethod: bool) returns (status: nat)
      modifies this`exchanges
      ensures status == Status(old(View()), McpRequest(expected, keyed, bearer, hasMethod))
      ensures View() == Next(old(View()), McpRequest(expected, keyed, bearer, hasMethod))
    {
      if expected.Some? && (expected.value != instance || !keyed) {
        return 409;
      }
      if fenced {
        return 503;
      }
      if !bearer {
        return 401;
      }
      if !hasMethod {
        return 400;
      }
      exchanges := exchanges + 1;
      return 200;
    }

    method EndExchange()
      requires exchanges > 0
      modifies this`exchanges
      ensures View() == Next(old(View()), ExchangeEnds)
    {
      exchanges := exchanges - 1;
    }
  }
}
