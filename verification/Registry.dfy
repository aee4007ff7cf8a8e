/**
  The generation registry of the hot-swap router and its five control commands, as functions.

  A command first passes `Guard`, then the backend it names is asked, then `Propose` gives the
  next registry.  `WellFormed` is what every command keeps.
 */
module Registry {
  import opened Wrappers

  type Id = string

  /**
    A registered backend.  `place` stands for the url, revision, unit and policy of the descriptor;
    `instanceId` is present once the generation has been rebound to a restarted process.
   */
  datatype Generation = Generation(id: Id, instanceId: Option<Id>, place: string, legacy: bool)
  {
    /** The process incarnation that must answer for this generation. */
    function Instance(): Id { if instanceId.Some? then instanceId.value else id }
  }

  const MAX_GENERATIONS: nat := 128

  datatype Registry = Registry(
    epoch: nat, active: Option<Id>, previous: Option<Id>, legacyOwner: Option<Id>, generations: seq<Generation>)

  const EMPTY := Registry(0, None, None, None, [])

  datatype Command =
    | Register(item: Generation)
    | Rebind(id: Id, instance: Id)
    | Activate(id: Id)
    | Rollback
    | Retire(id: Id)

  datatype Refusal =
    | GenerationUnknown | LegacyRebindRefused | HasOwners | BackendRefused | AlreadyRegistered
    | GenerationLimit | LegacyOwnerRegistered | RebindRequiresIdle

  function Lookup(generations: seq<Generation>, id: Id): (r: Option<Generation>)
    ensures r.Some? ==> r.value in generations && r.value.id == id
    ensures r.None? ==> forall g | g in generations :: g.id != id
  {
    if generations == [] then None
    else if generations[0].id == id then Some(generations[0])
    else Lookup(generations[1..], id)
  }

  predicate Known(r: Registry, id: Id) { Lookup(r.generations, id).Some? }

  predicate Selected(r: Registry, id: Id) { r.active == Some(id) || r.previous == Some(id) }

  /** Checks made before the backend is asked; `Ok(None)` answers at once without a change. */
  function Guard(r: Registry, busy: Id -> bool, c: Command): Result<Option<Generation>, Refusal> {
    match c
    case Register(item) => Ok(Some(item))
    case Rebind(id, instance) =>
      var g := Lookup(r.generations, id);
      if g.None? then Err(GenerationUnknown)
      else if g.value.legacy then Err(LegacyRebindRefused)
      else if busy(id) then Err(HasOwners)
      else if instance == g.value.Instance() then Ok(None)
      else Ok(Some(g.value.(instanceId := Some(instance))))
    case Activate(id) =>
      var g := Lookup(r.generations, id);
      if g.None? then Err(GenerationUnknown) else Ok(g)
    case Rollback =>
      var g := if r.previous.Some? then Lookup(r.generations, r.previous.value) else None;
      if g.None? then Err(GenerationUnknown) else Ok(g)
    case Retire(id) =>
      var g := Lookup(r.generations, id);
      if g.None? then Err(GenerationUnknown)
      else if Selected(r, id) || g.value.legacy || busy(id) then Err(HasOwners)
      else Ok(g)
  }

  function Replace(generations: seq<Generation>, item: Generation): seq<Generation> {
    if generations == [] then [] else
      [if generations[0].id == item.id then item else generations[0]] + Replace(generations[1..], item)
  }

  function Drop(generations: seq<Generation>, id: Id): seq<Generation> {
    if generations == [] then []
    else if generations[0].id == id then Drop(generations[1..], id)
    else [generations[0]] + Drop(generations[1..], id)
  }

  /** The next registry once the backend `asked` has answered well; `Ok(None)` changes nothing. */
  function Propose(r: Registry, busy: Id -> bool, c: Command, asked: Generation, idle: bool): Result<Option<Registry>, Refusal> {
    match c
    case Register(item) =>
      var existing := Lookup(r.generations, item.id);
      if existing.Some? then if existing.value == item then Ok(None) else Err(AlreadyRegistered)
      else if |r.generations| >= MAX_GENERATIONS then Err(GenerationLimit)
      else if item.legacy && r.legacyOwner.Some? then Err(LegacyOwnerRegistered)
      else Ok(Some(r.(epoch := r.epoch + 1, generations := r.generations + [item],
                      legacyOwner := if item.legacy then Some(item.id) else r.legacyOwner)))
    case Rebind(_, _) =>
      if !idle then Err(RebindRequiresIdle)
      else Ok(Some(r.(epoch := r.epoch + 1, generations := Replace(r.generations, asked))))
    case Activate(_) => Ok(Activated(r, asked.id))
    case Rollback => Ok(Activated(r, asked.id))
    case Retire(id) =>
      if busy(id) then Err(HasOwners)
      else Ok(Some(r.(epoch := r.epoch + 1, generations := Drop(r.generations, id))))
  }

  function Activated(r: Registry, id: Id): Option<Registry> {
    if r.active == Some(id) then None else Some(r.(epoch := r.epoch + 1, previous := r.active, active := Some(id)))
  }

  // ---------------------------------------------------------------- what every registry satisfies

  ghost predicate UniqueIds(generations: seq<Generation>) {
    forall i, j | 0 <= i < j < |generations| :: generations[i].id != generations[j].id
  }

  /**
    Ids are unique and bounded, every reference names a registered generation, the legacy owner is
    exactly the legacy generation, and active and previous agree only when both are absent.
   */
  ghost predicate WellFormed(r: Registry) {
    && UniqueIds(r.generations) && |r.generations| <= MAX_GENERATIONS
    && (r.active.Some? ==> Known(r, r.active.value))
    && (r.previous.Some? ==> Known(r, r.previous.value))
    && (r.legacyOwner.Some? ==> Known(r, r.legacyOwner.value))
    && (forall g | g in r.generations :: g.legacy <==> r.legacyOwner == Some(g.id))
    && (r.active == r.previous ==> r.active.None?)
  }

  lemma {:induction false} ReplaceAt(generations: seq<Generation>, item: Generation)
    ensures |Replace(generations, item)| == |generations|
    ensures forall i | 0 <= i < |generations| ::
              Replace(generations, item)[i] == if generations[i].id == item.id then item else generations[i]
  {
    if generations != [] {
      ReplaceAt(generations[1..], item);
    }
  }

  lemma {:induction false} ReplaceLookup(generations: seq<Generation>, item: Generation, id: Id)
    ensures Lookup(Replace(generations, item), id) ==
            if id == item.id && Lookup(generations, id).Some? then Some(item) else Lookup(generations, id)
  {
    if generations != [] {
      ReplaceLookup(generations[1..], item, id);
    }
  }

  lemma {:induction false} DropFacts(generations: seq<Generation>, id: Id)
    requires UniqueIds(generations)
    ensures UniqueIds(Drop(generations, id)) && |Drop(generations, id)| <= |generations|
    ensures forall g :: g in Drop(generations, id) <==> g in generations && g.id != id
    ensures forall other :: Lookup(Drop(generations, id), other) == if other == id then None else Lookup(generations, other)
  {
    if generations != [] {
      DropFacts(generations[1..], id);
      assert generations == [generations[0]] + generations[1..];
      forall g | g in Drop(generations[1..], id)
        ensures g.id != generations[0].id
      {
        assert g in generations[1..];
      }
    }
  }

  lemma {:induction false} LookupAppend(generations: seq<Generation>, item: Generation, id: Id)
    ensures Lookup(generations + [item], id) ==
            if Lookup(generations, id).Some? then Lookup(generations, id) else if item.id == id then Some(item) else None
  {
    if generations != [] {
      assert (generations + [item])[1..] == generations[1..] + [item];
      LookupAppend(generations[1..], item, id);
    }
  }

  lemma {:induction false} LookupMember(generations: seq<Generation>, g: Generation)
    requires UniqueIds(generations) && g in generations
    ensures Lookup(generations, g.id) == Some(g)
  {
    if generations[0] != g {
      assert g in generations[1..];
      LookupMember(generations[1..], g);
    }
  }

  lemma RegisterWellFormed(r: Registry, busy: Id -> bool, item: Generation, idle: bool)
    requires WellFormed(r)
    ensures var next := Propose(r, busy, Register(item), item, idle);
            next.Ok? && next.value.Some? ==> WellFormed(next.value.value)
  {
    forall id
      ensures Lookup(r.generations + [item], id) ==
              if Lookup(r.generations, id).Some? then Lookup(r.generations, id) else if item.id == id then Some(item) else None
    {
      LookupAppend(r.generations, item, id);
    }
    assert Lookup(r.generations, item.id).None? ==> forall i | 0 <= i < |r.generations| :: r.generations[i] in r.generations;
  }

  lemma ReplaceMembers(r: Registry, item: Generation, asked: Generation)
    requires WellFormed(r) && Lookup(r.generations, item.id) == Some(item)
    requires asked == item.(instanceId := asked.instanceId)
    ensures UniqueIds(Replace(r.generations, asked))
    ensures forall g | g in Replace(r.generations, asked) :: g.legacy <==> r.legacyOwner == Some(g.id)
  {
    ReplaceAt(r.generations, asked);
    var after := Replace(r.generations, asked);
    forall g | g in after
      ensures g.legacy <==> r.legacyOwner == Some(g.id)
    {
      var i :| 0 <= i < |after| && after[i] == g;
      assert r.generations[i] in r.generations;
      assert item in r.generations;
    }
  }

  lemma ReplaceKnown(r: Registry, asked: Generation, id: Option<Id>)
    requires id.Some? ==> Known(r, id.value)
    ensures id.Some? ==> Known(r.(epoch := r.epoch + 1, generations := Replace(r.generations, asked)), id.value)
  {
    if id.Some? {
      ReplaceLookup(r.generations, asked, id.value);
    }
  }

  lemma RebindWellFormed(r: Registry, item: Generation, asked: Generation)
    requires WellFormed(r) && Lookup(r.generations, item.id) == Some(item)
    requires asked == item.(instanceId := asked.instanceId)
    ensures WellFormed(r.(epoch := r.epoch + 1, generations := Replace(r.generations, asked)))
  {
    ReplaceMembers(r, item, asked);
    ReplaceAt(r.generations, asked);
    ReplaceKnown(r, asked, r.active);
    ReplaceKnown(r, asked, r.previous);
    ReplaceKnown(r, asked, r.legacyOwner);
  }

  lemma RetireWellFormed(r: Registry, id: Id)
    requires WellFormed(r) && !Selected(r, id) && r.legacyOwner != Some(id)
    ensures WellFormed(r.(epoch := r.epoch + 1, generations := Drop(r.generations, id)))
  {
    DropFacts(r.generations, id);
  }

  const NONE_BUSY: Id -> bool := _ => false

  /** A guard passed with calls in flight is passed without them; only that weaker fact is stable. */
  lemma GuardWhenQuiet(r: Registry, busy: Id -> bool, c: Command)
    requires Guard(r, busy, c).Ok? && Guard(r, busy, c).value.Some?
    ensures Guard(r, NONE_BUSY, c) == Guard(r, busy, c)
  {
  }

  /** Every command keeps the registry well formed and moves the epoch by exactly one. */
  lemma ProposeWellFormed(r: Registry, busy: Id -> bool, c: Command, asked: Generation, idle: bool)
    requires WellFormed(r) && Guard(r, NONE_BUSY, c) == Ok(Some(asked))
    ensures var next := Propose(r, busy, c, asked, idle);
            next.Ok? && next.value.Some? ==> WellFormed(next.value.value) && next.value.value.epoch == r.epoch + 1
  {
    match c
    case Register(item) => RegisterWellFormed(r, busy, item, idle);
    case Rebind(id, instance) =>
      RebindWellFormed(r, Lookup(r.generations, id).value, asked);
    case Activate(_) =>
    case Rollback =>
    case Retire(id) =>
      assert asked in r.generations;
      RetireWellFormed(r, id);
  }

  /** Two successful rollbacks between present selections restore the selection. */
  lemma RollbackTwice(r: Registry, busy: Id -> bool, first: Generation, second: Generation, idle: bool)
    requires WellFormed(r) && r.active.Some? && r.previous.Some?
    requires Guard(r, busy, Rollback) == Ok(Some(first))
    requires var mid := Propose(r, busy, Rollback, first, idle);
             mid.Ok? && mid.value.Some? ==> Guard(mid.value.value, busy, Rollback) == Ok(Some(second))
    ensures var mid := Propose(r, busy, Rollback, first, idle);
            && mid.Ok? && mid.value.Some?
            && var end := Propose(mid.value.value, busy, Rollback, second, idle);
               end.Ok? && end.value == Some(r.(epoch := r.epoch + 2))
  {
  }

  /** A command other than retirement of `id` keeps `id` registered, under the same id. */
  lemma ProposeKeepsOwner(r: Registry, busy: Id -> bool, c: Command, asked: Generation, idle: bool, id: Id)
    requires WellFormed(r) && Guard(r, NONE_BUSY, c) == Ok(Some(asked)) && c != Retire(id) && Known(r, id)
    ensures var next := Propose(r, busy, c, asked, idle);
            next.Ok? && next.value.Some? ==> Known(next.value.value, id)
  {
    match c
    case Register(item) => LookupAppend(r.generations, item, id);
    case Rebind(_, _) => ReplaceLookup(r.generations, asked, id);
    case Activate(_) =>
    case Rollback =>
    case Retire(other) => DropFacts(r.generations, other);
  }
}
