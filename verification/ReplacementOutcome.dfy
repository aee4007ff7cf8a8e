/**
  What a caller of a file replacement is told: left alone, a replacement is a compare-and-swap; and in
  every run, whatever others do, it is told of success exactly if the file was replaced.
 */
module ReplacementOutcome {
  import opened Wrappers
  import opened AtomicFile

  // ---------------------------------------------------------------- a replacement that is left alone

  /** The steps of one task; a new file is linked by `Swap`, and `Rename` then finds nothing to do. */
  function Alone(c: Config, w: World, i: nat, now: int): World {
    var compared := Next(c, Next(c, Next(c, w, Step(i, Enter)), Step(i, Open)), Step(i, Compare));
    var swapped := Next(c, Next(c, compared, Step(i, Prepare)), Step(i, Swap(now)));
    Next(c, Next(c, swapped, Step(i, Rename(now))), Step(i, Finish))
  }

  /** The file is the expected one, and not too long to be compared. */
  predicate Matches(c: Config, w: World, t: Task) {
    if t.key in w.files then |w.files[t.key].content| <= c.maxReadBytes && t.expected == Some(c.sha(w.files[t.key].content))
    else t.expected == None
  }

  lemma ComparedAlone(c: Config, w: World, i: nat)
    requires i < |w.tasks| && w.tasks[i].stage.Waiting?
    requires w.tasks[i].prior.None? || (w.tasks[i].prior.value < |w.tasks| && w.tasks[w.tasks[i].prior.value].stage.Settled?)
    ensures var t := w.tasks[i];
            var file := if t.key in w.files then Some(w.files[t.key]) else None;
            Next(c, Next(c, Next(c, w, Step(i, Enter)), Step(i, Open)), Step(i, Compare)) ==
            Advance(w, i, if Matches(c, w, t) then Compared(file) else Settled(false))
  {
    var t := w.tasks[i];
    var file := if t.key in w.files then Some(w.files[t.key]) else None;
    var entered := Advance(w, i, Entered);
    assert Next(c, w, Step(i, Enter)) == entered;
    assert Next(c, entered, Step(i, Open)) == Advance(w, i, Opened(file)) by {
      assert w.tasks[i := t.(stage := Entered)][i := t.(stage := Opened(file))] == w.tasks[i := t.(stage := Opened(file))];
    }
    var stage := Comparison(c, w.files, t, file);
    assert w.tasks[i := t.(stage := Opened(file))][i := t.(stage := stage)] == w.tasks[i := t.(stage := stage)];
  }

  lemma SwappedAlone(c: Config, w: World, i: nat, now: int, original: Option<File>)
    requires i < |w.tasks| && w.tasks[i].stage == Compared(original)
    requires original == if w.tasks[i].key in w.files then Some(w.files[w.tasks[i].key]) else None
    ensures var swapped := Next(c, Next(c, w, Step(i, Prepare)), Step(i, Swap(now)));
            Next(c, Next(c, swapped, Step(i, Rename(now))), Step(i, Finish)) == Advance(Install(w, i, now), i, Settled(true))
  {
    var t := w.tasks[i];
    var staged := Advance(w, i, Staged(original));
    assert Next(c, w, Step(i, Prepare)) == staged;
    var installed := Install(w, i, now);
    var swapped := Next(c, staged, Step(i, Swap(now)));
    if original.None? {
      assert swapped == installed by {
        assert staged.tasks[i := t.(stage := Replaced)] == w.tasks[i := t.(stage := Replaced)];
      }
    } else {
      var rechecked := Advance(w, i, Rechecked(original.value));
      assert swapped == rechecked by {
        assert staged.tasks[i := t.(stage := Rechecked(original.value))] == w.tasks[i := t.(stage := Rechecked(original.value))];
      }
      assert rechecked.tasks[i := t.(stage := Replaced)] == w.tasks[i := t.(stage := Replaced)];
    }
    assert Next(c, swapped, Step(i, Rename(now))) == installed;
  }

  /**
    A compare-and-swap.  A replacement whose turn it is and that nobody disturbs succeeds if and only
    if the file has the expected digest, or is expected to be missing and is; then the path holds the
    new content, and otherwise nothing has changed.
   */
  lemma AloneIsCompareAndSwap(c: Config, w: World, i: nat, now: int)
    requires i < |w.tasks| && w.tasks[i].stage.Waiting?
    requires w.tasks[i].prior.None? || (w.tasks[i].prior.value < |w.tasks| && w.tasks[w.tasks[i].prior.value].stage.Settled?)
    ensures var t, after := w.tasks[i], Alone(c, w, i, now);
            && after.tasks == w.tasks[i := t.(stage := Settled(Matches(c, w, t)))] && after.locks == w.locks
            && (if Matches(c, w, t) then
                  && Content(after.files, t.key) == Some(t.content) && after.files == w.files[t.key := after.files[t.key]]
                  && after.log == w.log + [Write(t.key, t.expected, t.content)]
                else after.files == w.files && after.log == w.log)
  {
    var t := w.tasks[i];
    var file := if t.key in w.files then Some(w.files[t.key]) else None;
    ComparedAlone(c, w, i);
    if Matches(c, w, t) {
      var compared := Advance(w, i, Compared(file));
      SwappedAlone(c, compared, i, now, file);
      assert compared.tasks[i := t.(stage := Replaced)][i := t.(stage := Settled(true))] == w.tasks[i := t.(stage := Settled(true))];
    } else {
      RestIsIdle(c, Advance(w, i, Settled(false)), i, now);
    }
  }

  lemma RestIsIdle(c: Config, w: World, i: nat, now: int)
    requires i < |w.tasks| && w.tasks[i].stage.Settled?
    ensures var swapped := Next(c, Next(c, w, Step(i, Prepare)), Step(i, Swap(now)));
            Next(c, Next(c, swapped, Step(i, Rename(now))), Step(i, Finish)) == w
  {
  }

  /**
    Interference before the last check is caught.  With the new content staged, the replacement goes on
    if and only if the path is as it was opened: still missing, or the same file with the same time
    stamp and length.  Otherwise it is refused and nothing has changed.
   */
  lemma InterferenceIsCaught(c: Config, w: World, i: nat, now: int)
    requires i < |w.tasks| && w.tasks[i].stage.Staged?
    ensures var key, before, after := w.tasks[i].key, w.tasks[i].stage.original, Next(c, w, Step(i, Swap(now)));
            var current := if key in w.files then Some(w.files[key]) else None;
            && (after.tasks[i].stage.Settled? <==>
                  !(before == current == None
                    || (before.Some? && current.Some? && before.value.node == current.value.node && before.value.modified == current.value.modified
                        && |before.value.content| == |current.value.content|)))
            && (after.tasks[i].stage.Settled? ==> after == w.(tasks := w.tasks[i := w.tasks[i].(stage := Settled(false))]))
            && (after.tasks[i].stage.Settled? || before.Some? ==> after.files == w.files)
  {
  }

  // ---------------------------------------------------------------- in every run

  /** The event makes the task replace its file. */
  predicate Installs(c: Config, w: World, e: Event, i: nat) {
    e.Step? && e.task == i && i < |w.tasks| && StepTask(c, w, i, e.action).log != w.log
  }

  predicate Wrote(c: Config, start: World, events: seq<Event>, i: nat) {
    events != [] &&
    var init, last := events[..|events| - 1], events[|events| - 1];
    Wrote(c, start, init, i) || Installs(c, Run(c, start, init), last, i)
  }

  /** Something else that the task awaits throws. */
  predicate Faulted(events: seq<Event>, i: nat) { exists n :: 0 <= n < |events| && events[n] == Step(i, Fault) }

  /** What the caller may be told at this point. */
  predicate Honest(stage: Stage, wrote: bool) {
    && (wrote ==> stage == Replaced || stage == Settled(true))
    && (!wrote ==> stage != Replaced && stage != Settled(true))
  }

  lemma OwnStepHonest(c: Config, w: World, i: nat, a: Action, wrote: bool)
    requires i < |w.tasks| && a != Fault && Honest(w.tasks[i].stage, wrote)
    ensures Honest(StepTask(c, w, i, a).tasks[i].stage, wrote || StepTask(c, w, i, a).log != w.log)
  {
  }

  lemma OthersKeepStage(c: Config, w: World, e: Event, i: nat)
    requires i < |w.tasks| && !(e.Step? && e.task == i)
    ensures i < |Next(c, w, e).tasks| && Next(c, w, e).tasks[i] == w.tasks[i]
  {
  }

  lemma {:induction false} NoTaskWroteYet(c: Config, start: World, events: seq<Event>, i: nat)
    requires i >= |Run(c, start, events).tasks|
    ensures !Wrote(c, start, events, i)
  {
    if events != [] {
      TasksStay(c, Run(c, start, events[..|events| - 1]), events[|events| - 1]);
      NoTaskWroteYet(c, start, events[..|events| - 1], i);
    }
  }

  lemma TasksStay(c: Config, w: World, e: Event)
    ensures |w.tasks| <= |Next(c, w, e).tasks|
    ensures |w.tasks| < |Next(c, w, e).tasks| ==> Next(c, w, e).tasks[|w.tasks|].stage.Waiting? && |Next(c, w, e).tasks| == |w.tasks| + 1
  {
  }

  /** A new task has written nothing and waits. */
  lemma ArrivalWaits(c: Config, w: World, e: Event, i: nat)
    requires |w.tasks| <= i < |Next(c, w, e).tasks|
    ensures Next(c, w, e).tasks[i].stage.Waiting? && !Installs(c, w, e, i)
  {
    TasksStay(c, w, e);
  }

  lemma StepHonest(c: Config, start: World, init: seq<Event>, e: Event, i: nat)
    requires i < |Next(c, Run(c, start, init), e).tasks| && e != Step(i, Fault)
    requires i < |Run(c, start, init).tasks| ==> Honest(Run(c, start, init).tasks[i].stage, Wrote(c, start, init, i))
    ensures Honest(Next(c, Run(c, start, init), e).tasks[i].stage, Wrote(c, start, init, i) || Installs(c, Run(c, start, init), e, i))
  {
    var w := Run(c, start, init);
    if i >= |w.tasks| {
      ArrivalWaits(c, w, e, i);
      NoTaskWroteYet(c, start, init, i);
    } else if e.Step? && e.task == i {
      OwnStepHonest(c, w, i, e.action, Wrote(c, start, init, i));
    } else {
      OthersKeepStage(c, w, e, i);
    }
  }

  lemma {:induction false} EveryRunHonest(c: Config, files: map<Key, File>, nextNode: nat, events: seq<Event>, i: nat)
    requires i < |Run(c, Begin(files, nextNode), events).tasks| && !Faulted(events, i)
    ensures Honest(Run(c, Begin(files, nextNode), events).tasks[i].stage, Wrote(c, Begin(files, nextNode), events, i))
  {
    if events != [] {
      var start, init, e := Begin(files, nextNode), events[..|events| - 1], events[|events| - 1];
      assert Faulted(init, i) ==> Faulted(events, i);
      assert e == events[|events| - 1];
      if i < |Run(c, start, init).tasks| {
        EveryRunHonest(c, files, nextNode, init, i);
      }
      StepHonest(c, start, init, e, i);
    }
  }

  /**
    In every run, outside writers included, a replacement that met no other fault has settled with
    success if and only if it replaced its file.
   */
  lemma OutcomeIsTold(c: Config, files: map<Key, File>, nextNode: nat, events: seq<Event>, i: nat)
    requires i < |Run(c, Begin(files, nextNode), events).tasks| && !Faulted(events, i)
    requires Run(c, Begin(files, nextNode), events).tasks[i].stage.Settled?
    ensures Run(c, Begin(files, nextNode), events).tasks[i].stage.ok <==> Wrote(c, Begin(files, nextNode), events, i)
  {
    EveryRunHonest(c, files, nextNode, events, i);
  }

  // ---------------------------------------------------------------- the map of the chains

  /** There is a later replacement of the same path. */
  predicate Followed(tasks: seq<Task>, i: nat)
    requires i < |tasks|
  {
    exists j :: i < j < |tasks| && tasks[j].key == tasks[i].key
  }

  /**
    In every run the entry of a path is deleted when its newest replacement cleans up, and by no other
    one; and a call that finds no entry starts a new chain behind settled replacements only.
   */
  lemma EntryGoesWithTheNewest(c: Config, files: map<Key, File>, nextNode: nat, events: seq<Event>, i: nat)
    requires i < |Run(c, Begin(files, nextNode), events).tasks|
    ensures var w := Run(c, Begin(files, nextNode), events);
            && Next(c, w, Cleanup(i)) ==
               (if w.tasks[i].stage.Settled? && !Followed(w.tasks, i) then w.(locks := w.locks - {w.tasks[i].key}) else w)
            && (w.tasks[i].key !in w.locks ==> w.tasks[i].stage.Settled?)
  {
    var w := Run(c, Begin(files, nextNode), events);
    EveryRunInv(c, files, nextNode, events);
    var key := w.tasks[i].key;
    if key in w.locks {
      assert Followed(w.tasks, i) <== w.locks[key] != i by {
        assert w.tasks[w.locks[key]].key == key;
      }
    } else {
      assert w.locks - {key} == w.locks;
    }
  }
}
