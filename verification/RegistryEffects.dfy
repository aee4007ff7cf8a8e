/**
  What each control command does to the registry and when it is refused, said by looking generations
  up; and what a rollback therefore undoes in a run.
 */
module RegistryEffects {
  import opened Wrappers
  import opened Registry
  import opened ControlPlane

  /** Everything but the generations, the legacy owner and the epoch. */
  predicate SameSelection(r: Registry, next: Registry) { next.active == r.active && next.previous == r.previous }

  /** Generations other than `id` are what they were. */
  ghost predicate OthersSame(r: Registry, next: Registry, id: Id) {
    forall other | other != id :: Lookup(next.generations, other) == Lookup(r.generations, other)
  }

  /**
    Activation and rollback.  The generation asked is the one requested, or for a rollback the previous
    one; it becomes active, the one that was active becomes the previous one, and nothing else changes.
    There is no change exactly if it is active already.
   */
  lemma SelectionMoves(r: Registry, busy: Id -> bool, other: Id -> bool, c: Command, asked: Generation, idle: bool)
    requires (c.Activate? || c.Rollback?) && Guard(r, busy, c) == Ok(Some(asked))
    ensures c.Activate? ==> asked.id == c.id
    ensures c.Rollback? ==> r.previous == Some(asked.id)
    ensures Lookup(r.generations, asked.id) == Some(asked)
    ensures var next := Propose(r, other, c, asked, idle);
            && next.Ok? && (next.value.None? <==> r.active == Some(asked.id))
            && (next.value.Some? ==>
                  next.value.value == Registry(r.epoch + 1, Some(asked.id), r.active, r.legacyOwner, r.generations))
  {
  }

  /** They are refused exactly for a generation that is not registered; a rollback also if there is none to go back to. */
  lemma SelectionRefused(r: Registry, busy: Id -> bool, id: Id)
    ensures Guard(r, busy, Activate(id)).Err? <==> !Known(r, id)
    ensures Guard(r, busy, Rollback).Err? <==> r.previous.None? || !Known(r, r.previous.value)
  {
  }

  /** A new generation is added, and becomes the legacy owner if it is the legacy one; nothing else changes. */
  lemma RegistrationAdds(r: Registry, busy: Id -> bool, item: Generation, idle: bool)
    ensures Guard(r, busy, Register(item)) == Ok(Some(item))
    ensures var next := Propose(r, busy, Register(item), item, idle);
            && (next == Ok(None) <==> Lookup(r.generations, item.id) == Some(item))
            && (next.Ok? && next.value.Some? <==>
                  !Known(r, item.id) && |r.generations| < 128 && !(item.legacy && r.legacyOwner.Some?))
            && (next.Ok? && next.value.Some? ==>
                  var after := next.value.value;
                  && Lookup(after.generations, item.id) == Some(item) && OthersSame(r, after, item.id)
                  && |after.generations| == |r.generations| + 1 && SameSelection(r, after) && after.epoch == r.epoch + 1
                  && after.legacyOwner == if item.legacy then Some(item.id) else r.legacyOwner)
  {
    forall id
      ensures Lookup(r.generations + [item], id) ==
              if Lookup(r.generations, id).Some? then Lookup(r.generations, id) else if item.id == id then Some(item) else None
    {
      LookupAppend(r.generations, item, id);
    }
  }

  /** A rebind names another incarnation of an idle, regular generation, and changes nothing else. */
  lemma RebindRenames(r: Registry, busy: Id -> bool, id: Id, instance: Id)
    ensures var g := Lookup(r.generations, id);
            var guard := Guard(r, busy, Rebind(id, instance));
            && (guard.Err? <==> g.None? || g.value.legacy || busy(id))
            && (guard == Ok(None) <==> g.Some? && !g.value.legacy && !busy(id) && g.value.Instance() == instance)
            && (guard.Ok? && guard.value.Some? ==> guard.value.value == g.value.(instanceId := Some(instance)))
  {
  }

  lemma ReplacedOthers(generations: seq<Generation>, asked: Generation)
    ensures forall id :: Lookup(Replace(generations, asked), id) ==
                         if id == asked.id && Lookup(generations, id).Some? then Some(asked) else Lookup(generations, id)
    ensures |Replace(generations, asked)| == |generations|
  {
    forall id
      ensures Lookup(Replace(generations, asked), id) ==
              if id == asked.id && Lookup(generations, id).Some? then Some(asked) else Lookup(generations, id)
    {
      ReplaceLookup(generations, asked, id);
    }
    ReplaceAt(generations, asked);
  }

  lemma RebindEffect(r: Registry, busy: Id -> bool, other: Id -> bool, id: Id, instance: Id, asked: Generation, idle: bool)
    requires Guard(r, busy, Rebind(id, instance)) == Ok(Some(asked))
    ensures Propose(r, other, Rebind(id, instance), asked, idle).Err? <==> !idle
    ensures idle ==>
              var next := Propose(r, other, Rebind(id, instance), asked, idle).value;
              next.Some? &&
              var after := next.value;
              && Lookup(after.generations, id) == Some(asked) && OthersSame(r, after, id)
              && |after.generations| == |r.generations| && SameSelection(r, after) && after.legacyOwner == r.legacyOwner
              && after.epoch == r.epoch + 1
  {
    ReplacedOthers(r.generations, asked);
  }

  /** A retirement removes a generation that is neither selected nor the legacy one nor in use, and no other. */
  lemma RetirementRemoves(r: Registry, busy: Id -> bool, other: Id -> bool, id: Id, asked: Generation, idle: bool)
    requires WellFormed(r)
    ensures Guard(r, busy, Retire(id)).Ok? <==>
            Known(r, id) && r.active != Some(id) && r.previous != Some(id) && !Lookup(r.generations, id).value.legacy && !busy(id)
    ensures Guard(r, busy, Retire(id)).Ok? ==> Guard(r, busy, Retire(id)).value == Lookup(r.generations, id)
    ensures var next := Propose(r, other, Retire(id), asked, idle);
            && (next.Err? <==> other(id))
            && (next.Ok? ==>
                  next.value.Some? &&
                  var after := next.value.value;
                  && Lookup(after.generations, id).None? && OthersSame(r, after, id)
                  && SameSelection(r, after) && after.legacyOwner == r.legacyOwner && after.epoch == r.epoch + 1)
  {
    DropFacts(r.generations, id);
  }

  // ---------------------------------------------------------------- the selection over a run

  /** A change of the active generation keeps the one before as the previous one; any other change keeps both. */
  predicate Remembers(r: Registry, next: Registry) {
    if next.active == r.active then next.previous == r.previous else next.previous == r.active
  }

  lemma ProposeRemembers(r: Registry, busy: Id -> bool, c: Command, asked: Generation, idle: bool)
    requires Guard(r, NONE_BUSY, c) == Ok(Some(asked))
    ensures var next := Propose(r, busy, c, asked, idle); next.Ok? && next.value.Some? ==> Remembers(r, next.value.value)
  {
  }

  predicate OpRemembers(w: World) {
    w.op.Some? && !w.op.value.stage.Asking? ==> Remembers(w.mem, w.op.value.stage.next)
  }

  /** What was visible before the change `i`. */
  function Before(commits: seq<Commit>, i: nat): Registry
    requires i <= |commits|
  {
    if i == 0 then EMPTY else commits[i - 1].registry
  }

  ghost predicate History(commits: seq<Commit>) {
    forall i | 0 <= i < |commits| :: Remembers(Before(commits, i), commits[i].registry)
  }

  lemma AnsweredRemembers(w: World, good: bool, idle: bool, lost: bool)
    requires Core(w) && Asked(w)
    ensures OpRemembers(Answered(w, good, idle, lost))
  {
    ProposeRemembers(w.mem, Busy(w.live), w.op.value.command, w.op.value.asked, idle);
  }

  lemma OthersRemember(w: World, e: Event)
    requires OpRemembers(w) && !e.Answer?
    ensures OpRemembers(Next(w, e))
  {
  }

  lemma NextRemembers(w: World, e: Event)
    requires Core(w) && OpRemembers(w)
    ensures OpRemembers(Next(w, e))
  {
    if e.Answer? {
      if Asked(w) {
        AnsweredRemembers(w, e.good, e.idle, e.lost);
      }
    } else {
      OthersRemember(w, e);
    }
  }

  lemma CommitsKept(w: World, e: Event)
    requires !e.Write? || !(w.op.Some? && w.op.value.stage.Writing?) || !e.landed
    ensures Next(w, e).commits == w.commits
  {
  }

  lemma WriteRemembered(w: World)
    requires Visible(w) && Synced(w) && OpRemembers(w) && History(w.commits)
    requires w.op.Some? && w.op.value.stage.Writing?
    ensures History(Wrote(w, true).commits)
  {
    var commits, next := w.commits, Commit(w.op.value.expected, w.op.value.stage.next);
    assert Wrote(w, true).commits == commits + [next] && w.mem == w.disk;
    HistorySnoc(commits, next);
  }

  lemma HistorySnoc(commits: seq<Commit>, c: Commit)
    requires History(commits) && Remembers(Before(commits, |commits|), c.registry)
    ensures History(commits + [c])
  {
    var all := commits + [c];
    forall i | 0 <= i < |all|
      ensures Remembers(Before(all, i), all[i].registry)
    {
      assert Before(all, i) == Before(commits, i);
      if i < |commits| {
        assert Remembers(Before(commits, i), commits[i].registry);
      }
    }
  }

  /**
    In every run whose failed writes are read back, each visible registry remembers: where the active
    generation changed, the one before is the one to go back to.
   */
  lemma {:induction false} SelectionIsRemembered(events: seq<Event>)
    requires ReadBacksSucceed(events)
    ensures History(Run(events).commits) && OpRemembers(Run(events))
  {
    if events != [] {
      var init, e := events[..|events| - 1], events[|events| - 1];
      var w := Run(init);
      SelectionIsRemembered(init);
      EveryRunCore(init);
      EveryRunInSync(init);
      OwnersStayRegistered(init);
      NextRemembers(w, e);
      if e.Write? && e.landed && w.op.Some? && w.op.value.stage.Writing? {
        WriteRemembered(w);
      } else {
        CommitsKept(w, e);
      }
    }
  }

  /** A generation whose backend answers a probe. */
  ghost predicate Healthy(w: World, id: Id) {
    Known(w.mem, id) && Lookup(w.mem.generations, id).value.Instance() !in w.fenced
  }

  function Swapped(r: Registry, id: Id): Registry { r.(epoch := r.epoch + 1, active := Some(id), previous := r.active) }

  /** A command that selects a healthy generation that is not active takes effect. */
  lemma SelectionTakesEffect(events: seq<Event>, w: World, c: Command, id: Id)
    requires w == Run(events) && w.op.None? && Healthy(w, id) && w.mem.active != Some(id)
    requires c == Activate(id) || (c == Rollback && w.mem.previous == Some(id))
    ensures Run(events + Whole(c, w.mem.epoch)) ==
            w.(mem := Swapped(w.mem, id), disk := Swapped(w.mem, id), blind := false,
               commits := w.commits + [Commit(w.mem.epoch, Swapped(w.mem, id))])
  {
    var asked := Lookup(w.mem.generations, id).value;
    SelectionMoves(w.mem, Busy(w.live), Busy(w.live), c, asked, true);
    Commanded(events, c, asked, Swapped(w.mem, id));
  }

  lemma ActivatedWorld(before: seq<Event>, w: World, id: Id, after: seq<Event>) returns (mid: World)
    requires w == Run(before) && w.op.None? && Healthy(w, id) && w.mem.active != Some(id)
    requires after == before + Whole(Activate(id), w.mem.epoch)
    ensures mid == Run(after) && mid.op.None? && mid.mem == Swapped(w.mem, id) && mid.fenced == w.fenced
  {
    SelectionTakesEffect(before, w, Activate(id), id);
    mid := Run(after);
  }

  lemma RolledBackWorld(before: seq<Event>, w: World, id: Id, after: seq<Event>) returns (end: World)
    requires w == Run(before) && w.op.None? && Healthy(w, id) && w.mem.active != Some(id) && w.mem.previous == Some(id)
    requires after == before + Whole(Rollback, w.mem.epoch)
    ensures end == Run(after) && end.mem == end.disk == Swapped(w.mem, id)
  {
    SelectionTakesEffect(before, w, Rollback, id);
    end := Run(after);
  }

  /**
    A rollback undoes an activation.  In any run, between commands, activating a generation in place of
    the active one and then rolling back makes the replaced one active again, in memory and on disk,
    and the other one the previous one.
   */
  lemma RollbackRestores(events: seq<Event>, activated: seq<Event>, rolledBack: seq<Event>, id: Id)
    requires var w := Run(events);
             && w.op.None? && Healthy(w, id)
             && w.mem.active.Some? && w.mem.active != Some(id) && Healthy(w, w.mem.active.value)
    requires activated == events + Whole(Activate(id), Run(events).mem.epoch)
    requires rolledBack == activated + Whole(Rollback, Run(activated).mem.epoch)
    ensures var w, end := Run(events), Run(rolledBack);
            end.mem == end.disk == w.mem.(epoch := w.mem.epoch + 2, previous := Some(id))
  {
    var w := Run(events);
    var mid := ActivatedWorld(events, w, id, activated);
    var end := RolledBackWorld(activated, mid, w.mem.active.value, rolledBack);
  }

  // ---------------------------------------------------------------- the end of a write

  /**
    After a write, in every run: acknowledged or read back, memory is what is now on disk; otherwise
    memory keeps everything but the active generation, and the disk, new or old, is left as it is.
   */
  lemma SettlementFollows(events: seq<Event>, acknowledged: bool, readable: bool)
    requires Run(events).op.Some? && Run(events).op.value.stage.Written?
    ensures var w, after := Run(events), Next(Run(events), Settle(acknowledged, readable));
            && after.disk == w.disk && after.op.None? && after.live == w.live && after.commits == w.commits
            && after.mem == if (acknowledged && w.op.value.stage.landed) || readable then after.disk
                            else Registry(w.mem.epoch, None, w.mem.previous, w.mem.legacyOwner, w.mem.generations)
  {
    EveryRunCore(events);
  }

  /**
    Which incarnations are fenced, and which have a retire request on its way, in every run.  Only a
    retire request fences, when it arrives; one that is given up because the reply is lost, or the
    router stops, stays on its way until then.
   */
  lemma FencesFollow(events: seq<Event>, e: Event, instance: Id)
    ensures var w, after := Run(events), Next(Run(events), e);
            var asked := AskedToRetire(w) && w.op.value.asked.Instance() == instance;
            && (instance in after.fenced <==>
                  instance in w.fenced || (asked && e == FenceLands) || (instance in w.stray && e == StrayLands(instance)))
            && (instance in after.stray <==>
                  (instance in w.stray && e != StrayLands(instance))
                  || (asked && instance !in w.fenced && (e == Crash || (e.Answer? && e.lost))))
  {
  }
}
