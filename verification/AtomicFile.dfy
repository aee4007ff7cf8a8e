/**
  Compare-and-swap file replacement, serialised per path by a chain of promises whose map entry is
  deleted as soon as it is idle.  Writers outside the chain are not held off by it.
 */
module AtomicFile {
  import opened Wrappers

  type Key = string
  type Digest = string

  /** `modified` is the time stamp of the last change; the size is the length of the content. */
  datatype File = File(node: nat, content: string, modified: int)

  datatype Config = Config(maxReadBytes: nat, sha: string -> Digest)

  // ---------------------------------------------------------------- one replacement after the other

  datatype Stage =
    | Waiting
    | Entered
    | Opened(original: Option<File>)
    | Compared(original: Option<File>)
    | Staged(original: Option<File>)
    | Rechecked(current: File)
    | Replaced
    | Settled(ok: bool)

  datatype Task = Task(key: Key, content: string, expected: Option<Digest>, prior: Option<nat>, stage: Stage) {
    /** Between the settling of its predecessor and its own. */
    predicate Critical() {
      !stage.Waiting? && !stage.Settled?
    }
  }

  datatype Write = Write(key: Key, expected: Option<Digest>, content: string)

  datatype World = World(
    files: map<Key, File>, nextNode: nat, locks: map<Key, nat>, tasks: seq<Task>, log: seq<Write>)

  datatype Event =
    | Call(key: Key, content: string, expected: Option<Digest>)
    | Step(task: nat, action: Action)
    | Cleanup(task: nat)
    | Outside(key: Key, file: Option<File>)

  datatype Action = Enter | Open | Compare | Prepare | Swap(at: int) | Rename(at: int) | Finish | Fault

  function DigestOf(c: Config, content: Option<string>): Option<Digest> {
    match content
    case None => None
    case Some(s) => Some(c.sha(s))
  }

  function Content(files: map<Key, File>, key: Key): Option<string> {
    if key in files then Some(files[key].content) else None
  }

  /** What reading the opened file yields: an unlinked file keeps what it had. */
  function ReadBack(files: map<Key, File>, key: Key, original: File): string {
    if key in files && files[key].node == original.node then files[key].content else original.content
  }

  function Same(a: File, b: File): bool {
    a.node == b.node && a.modified == b.modified && |a.content| == |b.content|
  }

  /** The comparison against the expected digest, with both bounds on the size. */
  function Comparison(c: Config, files: map<Key, File>, t: Task, original: Option<File>): Stage {
    match original
    case None => if t.expected == None then Compared(None) else Settled(false)
    case Some(f) =>
      var seen := ReadBack(files, t.key, f);
      if |f.content| > c.maxReadBytes || |seen| > c.maxReadBytes then Settled(false)
      else if t.expected == Some(c.sha(seen)) then Compared(original) else Settled(false)
  }

  function Advance(w: World, i: nat, stage: Stage): World
    requires i < |w.tasks|
  {
    w.(tasks := w.tasks[i := w.tasks[i].(stage := stage)])
  }

  function Install(w: World, i: nat, now: int): World
    requires i < |w.tasks|
  {
    var t := w.tasks[i];
    Advance(w, i, Replaced).(files := w.files[t.key := File(w.nextNode, t.content, now)], nextNode := w.nextNode + 1,
                             log := w.log + [Write(t.key, t.expected, t.content)])
  }

  function StepTask(c: Config, w: World, i: nat, a: Action): World
    requires i < |w.tasks|
  {
    var t := w.tasks[i];
    match (t.stage, a)
    case (Waiting, Enter) =>
      if t.prior.None? || (t.prior.value < |w.tasks| && w.tasks[t.prior.value].stage.Settled?)
      then Advance(w, i, Entered) else w
    case (Entered, Open) => Advance(w, i, Opened(if t.key in w.files then Some(w.files[t.key]) else None))
    case (Opened(original), Compare) => Advance(w, i, Comparison(c, w.files, t, original))
    case (Compared(original), Prepare) => Advance(w, i, Staged(original))
    case (Staged(None), Swap(now)) => if t.key in w.files then Advance(w, i, Settled(false)) else Install(w, i, now)
    case (Staged(Some(f)), Swap(_)) =>
      Advance(w, i, if t.key in w.files && Same(w.files[t.key], f) then Rechecked(f) else Settled(false))
    case (Rechecked(_), Rename(now)) => Install(w, i, now)
    case (Replaced, Finish) => Advance(w, i, Settled(true))
    case (_, Fault) => if t.Critical() then Advance(w, i, Settled(false)) else w
    case _ => w
  }

  function Next(c: Config, w: World, e: Event): World {
    match e
    case Call(key, content, expected) =>
      var prior := if key in w.locks then Some(w.locks[key]) else None;
      w.(tasks := w.tasks + [Task(key, content, expected, prior, Waiting)], locks := w.locks[key := |w.tasks|])
    case Step(i, a) => if i < |w.tasks| then StepTask(c, w, i, a) else w
    case Cleanup(i) =>
      if i < |w.tasks| && w.tasks[i].stage.Settled? && w.tasks[i].key in w.locks && w.locks[w.tasks[i].key] == i
      then w.(locks := w.locks - {w.tasks[i].key}) else w
    case Outside(key, file) =>
      w.(files := match file { case None => w.files - {key} case Some(f) => w.files[key := f] })
  }

  function Begin(files: map<Key, File>, nextNode: nat): World {
    World(files, nextNode, map[], [], [])
  }

  function Run(c: Config, start: World, events: seq<Event>): World {
    if events == [] then start else Next(c, Run(c, start, events[..|events| - 1]), events[|events| - 1])
  }

  // ---------------------------------------------------------------- mutual exclusion

  /**
    Of the tasks on one path, everything before a task that has started is settled; a task without a
    predecessor was called when everything before it was settled; the map names the newest task, or
    has no entry and all are settled.
   */
  ghost predicate Ordered(w: World) {
    && (forall i, j | 0 <= i < j < |w.tasks| && w.tasks[i].key == w.tasks[j].key && !w.tasks[j].stage.Waiting? ::
          w.tasks[i].stage.Settled?)
    && (forall i, j | 0 <= i < j < |w.tasks| && w.tasks[i].key == w.tasks[j].key && w.tasks[j].prior.None? ::
          w.tasks[i].stage.Settled?)
  }

  ghost predicate Linked(w: World) {
    && (forall j | 0 <= j < |w.tasks| && w.tasks[j].prior.Some? ::
          w.tasks[j].prior.value < j && w.tasks[w.tasks[j].prior.value].key == w.tasks[j].key)
    && (forall i, j | 0 <= i < j < |w.tasks| && w.tasks[i].key == w.tasks[j].key && w.tasks[j].prior.Some? ::
          i <= w.tasks[j].prior.value)
  }

  ghost predicate Locked(w: World) {
    && (forall key | key in w.locks :: w.locks[key] < |w.tasks| && w.tasks[w.locks[key]].key == key)
    && (forall i | 0 <= i < |w.tasks| && w.tasks[i].key in w.locks :: i <= w.locks[w.tasks[i].key])
    && (forall i | 0 <= i < |w.tasks| && w.tasks[i].key !in w.locks :: w.tasks[i].stage.Settled?)
  }

  ghost predicate Inv(w: World) {
    Ordered(w) && Linked(w) && Locked(w)
  }

  // A step of one task: it starts only behind a settled predecessor, and a settled task stays settled.
  ghost predicate MayMove(w: World, i: nat, stage: Stage)
    requires i < |w.tasks|
  {
    && !w.tasks[i].stage.Settled? && !stage.Waiting?
    && (w.tasks[i].stage.Waiting? ==>
          w.tasks[i].prior.None?
          || (w.tasks[i].prior.value < |w.tasks| && w.tasks[w.tasks[i].prior.value].stage.Settled?))
  }

  ghost predicate Moved(w: World, i: nat, after: World) {
    && i < |w.tasks| && after.locks == w.locks && |after.tasks| == |w.tasks|
    && (forall j | 0 <= j < |w.tasks| && j != i :: after.tasks[j] == w.tasks[j])
    && after.tasks[i] == w.tasks[i].(stage := after.tasks[i].stage) && MayMove(w, i, after.tasks[i].stage)
  }

  lemma StepMoves(c: Config, w: World, i: nat, a: Action)
    requires i < |w.tasks|
    ensures StepTask(c, w, i, a) == w || Moved(w, i, StepTask(c, w, i, a))
  {
  }

  lemma MovedOrdered(w: World, i: nat, after: World)
    requires Ordered(w) && Linked(w) && Moved(w, i, after)
    ensures Ordered(after)
  {
    forall j | 0 <= j < i && w.tasks[j].key == w.tasks[i].key
      ensures w.tasks[j].stage.Settled?
    {
      if w.tasks[i].stage.Waiting? && w.tasks[i].prior.Some? {
        assert j <= w.tasks[i].prior.value;
      }
    }
  }

  lemma MovedLinked(w: World, i: nat, after: World)
    requires Linked(w) && Moved(w, i, after)
    ensures Linked(after)
  {
  }

  lemma MovedLocked(w: World, i: nat, after: World)
    requires Locked(w) && Moved(w, i, after)
    ensures Locked(after)
  {
  }

  lemma StepInv(c: Config, w: World, i: nat, a: Action)
    requires Inv(w) && i < |w.tasks|
    ensures Inv(StepTask(c, w, i, a))
  {
    var after := StepTask(c, w, i, a);
    StepMoves(c, w, i, a);
    if after != w {
      MovedOrdered(w, i, after);
      MovedLinked(w, i, after);
      MovedLocked(w, i, after);
    }
  }

  lemma CallOrdered(w: World, t: Task)
    requires Ordered(w) && Locked(w) && t.stage.Waiting? && (t.prior.None? <==> t.key !in w.locks)
    ensures Ordered(w.(tasks := w.tasks + [t], locks := w.locks[t.key := |w.tasks|]))
  {
  }

  lemma CallLinked(w: World, t: Task)
    requires Linked(w) && Locked(w)
    requires t.prior == if t.key in w.locks then Some(w.locks[t.key]) else None
    ensures Linked(w.(tasks := w.tasks + [t], locks := w.locks[t.key := |w.tasks|]))
  {
  }

  lemma CallLocked(w: World, t: Task)
    requires Locked(w)
    ensures Locked(w.(tasks := w.tasks + [t], locks := w.locks[t.key := |w.tasks|]))
  {
  }

  lemma CallInv(c: Config, w: World, key: Key, content: string, expected: Option<Digest>)
    requires Inv(w)
    ensures Inv(Next(c, w, Call(key, content, expected)))
  {
    var t := Task(key, content, expected, if key in w.locks then Some(w.locks[key]) else None, Waiting);
    CallOrdered(w, t);
    CallLinked(w, t);
    CallLocked(w, t);
  }

  lemma CleanupLocked(w: World, i: nat)
    requires Locked(w) && i < |w.tasks| && w.tasks[i].key in w.locks && w.locks[w.tasks[i].key] == i
    requires forall j | 0 <= j < i && w.tasks[j].key == w.tasks[i].key :: w.tasks[j].stage.Settled?
    requires w.tasks[i].stage.Settled?
    ensures Locked(w.(locks := w.locks - {w.tasks[i].key}))
  {
  }

  lemma CleanupInv(c: Config, w: World, i: nat)
    requires Inv(w)
    ensures Inv(Next(c, w, Cleanup(i)))
  {
    if Next(c, w, Cleanup(i)) != w {
      CleanupLocked(w, i);
    }
  }

  lemma {:induction false} EveryRunInv(c: Config, files: map<Key, File>, nextNode: nat, events: seq<Event>)
    ensures Inv(Run(c, Begin(files, nextNode), events))
  {
    if events != [] {
      var w := Run(c, Begin(files, nextNode), events[..|events| - 1]);
      EveryRunInv(c, files, nextNode, events[..|events| - 1]);
      match events[|events| - 1]
      case Call(key, content, expected) => CallInv(c, w, key, content, expected);
      case Step(i, a) => if i < |w.tasks| { StepInv(c, w, i, a); }
      case Cleanup(i) => CleanupInv(c, w, i);
      case Outside(_, _) =>
    }
  }

  /** In every run, with outside writers too, two replacements of one path are never under way at once. */
  lemma NeverOverlap(c: Config, files: map<Key, File>, nextNode: nat, events: seq<Event>, i: nat, j: nat)
    requires var w := Run(c, Begin(files, nextNode), events);
             i < j < |w.tasks| && w.tasks[i].key == w.tasks[j].key
    ensures var w := Run(c, Begin(files, nextNode), events);
            !(w.tasks[i].Critical() && w.tasks[j].Critical())
    ensures var w := Run(c, Begin(files, nextNode), events);
            w.tasks[j].Critical() ==> w.tasks[i].stage.Settled?
  {
    EveryRunInv(c, files, nextNode, events);
  }

  // ---------------------------------------------------------------- the chain of digests

  /** What the path holds after the writes of a log that starts from `files`. */
  function Left(files: map<Key, File>, log: seq<Write>, key: Key): Option<string> {
    if log == [] then Content(files, key)
    else if log[|log| - 1].key == key then Some(log[|log| - 1].content)
    else Left(files, log[..|log| - 1], key)
  }

  ghost predicate Cooperative(events: seq<Event>) {
    forall k | 0 <= k < |events| :: !events[k].Outside?
  }

  /** What was there before a write: its digest was expected, and it was not too long to be compared. */
  ghost predicate Replaces(c: Config, before: Option<string>, expected: Option<Digest>) {
    expected == DigestOf(c, before) && (before.Some? ==> |before.value| <= c.maxReadBytes)
  }

  ghost predicate Chained(c: Config, files: map<Key, File>, log: seq<Write>) {
    forall n | 0 <= n < |log| :: Replaces(c, Left(files, log[..n], log[n].key), log[n].expected)
  }

  function OriginalOf(s: Stage): Option<Option<File>> {
    match s
    case Opened(f) => Some(f)
    case Compared(f) => Some(f)
    case Staged(f) => Some(f)
    case Rechecked(f) => Some(Some(f))
    case _ => None
  }

  /** The file a task opened is still the file, and once compared it has the expected digest. */
  ghost predicate Stable(c: Config, w: World) {
    forall i | 0 <= i < |w.tasks| && OriginalOf(w.tasks[i].stage).Some? ::
      var t := w.tasks[i];
      && OriginalOf(t.stage).value == (if t.key in w.files then Some(w.files[t.key]) else None)
      && (!t.stage.Opened? ==> Replaces(c, Content(w.files, t.key), t.expected))
  }

  ghost predicate Faithful(c: Config, files: map<Key, File>, w: World) {
    Stable(c, w) && Chained(c, files, w.log) && forall key :: Left(files, w.log, key) == Content(w.files, key)
  }

  lemma AdvanceStable(c: Config, w: World, i: nat, stage: Stage)
    requires Stable(c, w) && i < |w.tasks|
    requires OriginalOf(stage).Some? ==>
               && OriginalOf(stage).value == (if w.tasks[i].key in w.files then Some(w.files[w.tasks[i].key]) else None)
               && (!stage.Opened? ==> Replaces(c, Content(w.files, w.tasks[i].key), w.tasks[i].expected))
    ensures Stable(c, Advance(w, i, stage))
  {
  }

  lemma Exclusive(w: World, i: nat, j: nat)
    requires Inv(w) && i < |w.tasks| && j < |w.tasks| && i != j && w.tasks[i].Critical() && w.tasks[j].Critical()
    ensures w.tasks[i].key != w.tasks[j].key
  {
  }

  lemma InstallStable(c: Config, w: World, i: nat, now: int)
    requires Inv(w) && Stable(c, w) && i < |w.tasks| && w.tasks[i].Critical()
    ensures Stable(c, Install(w, i, now))
  {
    var after := Install(w, i, now);
    forall j | 0 <= j < |w.tasks| && OriginalOf(after.tasks[j].stage).Some?
      ensures j != i && w.tasks[j].Critical() && w.tasks[j].key != w.tasks[i].key
    {
      if j != i {
        Exclusive(w, i, j);
      }
    }
  }

  lemma InstallChained(c: Config, files: map<Key, File>, w: World, write: Write)
    requires Chained(c, files, w.log) && Replaces(c, Left(files, w.log, write.key), write.expected)
    ensures Chained(c, files, w.log + [write])
  {
    var log := w.log + [write];
    forall n | 0 <= n < |log|
      ensures Replaces(c, Left(files, log[..n], log[n].key), log[n].expected)
    {
      assert log[..n] == w.log[..n];
    }
    assert w.log[..|w.log|] == w.log;
  }

  lemma InstallLeft(files: map<Key, File>, w: World, i: nat, now: int, key: Key)
    requires i < |w.tasks| && Left(files, w.log, key) == Content(w.files, key)
    ensures Left(files, Install(w, i, now).log, key) == Content(Install(w, i, now).files, key)
  {
    assert Install(w, i, now).log[..|w.log|] == w.log;
  }

  lemma InstallFaithful(c: Config, files: map<Key, File>, w: World, i: nat, now: int)
    requires Inv(w) && Faithful(c, files, w) && i < |w.tasks|
    requires OriginalOf(w.tasks[i].stage).Some? && !w.tasks[i].stage.Opened?
    ensures Faithful(c, files, Install(w, i, now))
  {
    InstallStable(c, w, i, now);
    InstallChained(c, files, w, Write(w.tasks[i].key, w.tasks[i].expected, w.tasks[i].content));
    forall key
      ensures Left(files, Install(w, i, now).log, key) == Content(Install(w, i, now).files, key)
    {
      InstallLeft(files, w, i, now, key);
    }
  }

  /** Short of installing, a step leaves the files alone and keeps what is known of the opened file. */
  lemma StepStable(c: Config, w: World, i: nat, a: Action)
    requires Stable(c, w) && i < |w.tasks| && StepTask(c, w, i, a).log == w.log
    ensures StepTask(c, w, i, a).files == w.files && Stable(c, StepTask(c, w, i, a))
  {
    var t := w.tasks[i];
    var after := StepTask(c, w, i, a);
    if after != w {
      assert after == Advance(w, i, after.tasks[i].stage);
      AdvanceStable(c, w, i, after.tasks[i].stage);
    }
  }

  lemma StepInstalls(c: Config, w: World, i: nat, a: Action)
    requires i < |w.tasks| && StepTask(c, w, i, a).log != w.log
    ensures (a.Swap? || a.Rename?) && StepTask(c, w, i, a) == Install(w, i, a.at)
    ensures OriginalOf(w.tasks[i].stage).Some? && !w.tasks[i].stage.Opened?
  {
  }

  lemma NextFaithful(c: Config, files: map<Key, File>, w: World, e: Event)
    requires Inv(w) && Faithful(c, files, w) && !e.Outside?
    ensures Faithful(c, files, Next(c, w, e))
  {
    match e
    case Step(i, a) =>
      if i < |w.tasks| {
        if StepTask(c, w, i, a).log == w.log {
          StepStable(c, w, i, a);
        } else {
          StepInstalls(c, w, i, a);
          InstallFaithful(c, files, w, i, a.at);
        }
      }
    case Call(_, _, _) => assert Stable(c, Next(c, w, e));
    case Cleanup(_) => assert Stable(c, Next(c, w, e));
  }

  lemma {:induction false} CooperativeRunFaithful(c: Config, files: map<Key, File>, nextNode: nat, events: seq<Event>)
    requires Cooperative(events)
    ensures Faithful(c, files, Run(c, Begin(files, nextNode), events))
  {
    if events != [] {
      var front := events[..|events| - 1];
      assert Cooperative(front);
      CooperativeRunFaithful(c, files, nextNode, front);
      EveryRunInv(c, files, nextNode, front);
      NextFaithful(c, files, Run(c, Begin(files, nextNode), front), events[|events| - 1]);
    }
  }

  /**
    Without outside writers every replacement expected the digest of what the replacement before it
    on that path left, starting from the initial file, and the file is what the last one left.
   */
  lemma DigestChain(c: Config, files: map<Key, File>, nextNode: nat, events: seq<Event>, key: Key)
    requires Cooperative(events)
    ensures var w := Run(c, Begin(files, nextNode), events);
            Chained(c, files, w.log) && Content(w.files, key) == Left(files, w.log, key)
  {
    CooperativeRunFaithful(c, files, nextNode, events);
  }

  lemma {:induction false} LastWriteLeft(files: map<Key, File>, log: seq<Write>, i: nat, n: nat) returns (m: nat)
    requires i < n <= |log|
    ensures i <= m < n && log[m].key == log[i].key && Left(files, log[..n], log[i].key) == Some(log[m].content)
  {
    assert log[..n][..n - 1] == log[..n - 1];
    if log[n - 1].key == log[i].key {
      m := n - 1;
    } else {
      m := LastWriteLeft(files, log, i, n - 1);
    }
  }

  /** Two replacements with one expectation both succeed only if a write in between left that digest again. */
  lemma SameExpectationNeedsRestore(c: Config, files: map<Key, File>, nextNode: nat, events: seq<Event>, i: nat, j: nat)
    requires Cooperative(events)
    requires var log := Run(c, Begin(files, nextNode), events).log;
             i < j < |log| && log[i].key == log[j].key && log[i].expected == log[j].expected
    ensures var log := Run(c, Begin(files, nextNode), events).log;
            exists m :: i <= m < j && log[m].key == log[i].key && log[i].expected == Some(c.sha(log[m].content))
  {
    var log := Run(c, Begin(files, nextNode), events).log;
    CooperativeRunFaithful(c, files, nextNode, events);
    var m := LastWriteLeft(files, log, i, j);
    assert Replaces(c, Left(files, log[..j], log[j].key), log[j].expected);
  }

  // ---------------------------------------------------------------- writers that do not cooperate

  ghost predicate Reachable(c: Config, start: World, w: World) {
    exists events :: Run(c, start, events) == w
  }

  lemma Go(c: Config, start: World, w: World, e: Event) returns (after: World)
    requires Reachable(c, start, w)
    ensures after == Next(c, w, e) && Reachable(c, start, after)
  {
    var events :| Run(c, start, events) == w;
    after := Next(c, w, e);
    assert (events + [e])[..|events|] == events;
    assert Run(c, start, events + [e]) == after;
  }

  /** The only task makes a step that does not install. */
  lemma GoAlone(c: Config, start: World, w: World, t: Task, a: Action, stage: Stage) returns (after: World)
    requires Reachable(c, start, w) && w.tasks == [t] && StepTask(c, w, 0, a) == Advance(w, 0, stage)
    ensures Reachable(c, start, after) && after == w.(tasks := [t.(stage := stage)])
  {
    after := Go(c, start, w, Step(0, a));
  }

  /** A task alone on a path, up to the comparison. */
  lemma GoOpen(c: Config, start: World, f: File, content: string) returns (w: World, t: Task)
    requires start == Begin(map["p" := f], f.node + 1)
    ensures Reachable(c, start, w) && t == Task("p", content, Some(c.sha(f.content)), None, Opened(Some(f)))
    ensures w.tasks == [t] && w.files == start.files && w.log == []
  {
    assert Run(c, start, []) == start;
    t := Task("p", content, Some(c.sha(f.content)), None, Waiting);
    w := Go(c, start, start, Call("p", content, Some(c.sha(f.content))));
    assert w.tasks == [t];
    w := GoAlone(c, start, w, t, Enter, Entered);
    w := GoAlone(c, start, w, t.(stage := Entered), Open, Opened(Some(f)));
    t := t.(stage := Opened(Some(f)));
  }

  /** And on to the recheck. */
  lemma GoRecheck(c: Config, start: World, f: File, content: string) returns (w: World)
    requires |f.content| <= c.maxReadBytes && start == Begin(map["p" := f], f.node + 1)
    ensures Reachable(c, start, w) && w.files == start.files && w.log == []
    ensures w.tasks == [Task("p", content, Some(c.sha(f.content)), None, Rechecked(f))]
  {
    var t;
    w, t := GoOpen(c, start, f, content);
    w := GoAlone(c, start, w, t, Compare, Compared(Some(f)));
    w := GoAlone(c, start, w, t.(stage := Compared(Some(f))), Prepare, Staged(Some(f)));
    w := GoAlone(c, start, w, t.(stage := Staged(Some(f))), Swap(0), Rechecked(f));
  }

  /** A write from outside between the recheck and the rename is overwritten unnoticed: not a kernel compare-and-swap. */
  lemma OutsideWriteIsLost(c: Config, f: File, theirs: File, content: string)
    requires |f.content| <= c.maxReadBytes
    ensures exists w :: && Reachable(c, Begin(map["p" := f], f.node + 1), w) && w.files == map["p" := theirs]
                        && Next(c, w, Step(0, Rename(0))).log == [Write("p", Some(c.sha(f.content)), content)]
  {
    var start := Begin(map["p" := f], f.node + 1);
    var w := GoRecheck(c, start, f, content);
    w := Go(c, start, w, Outside("p", Some(theirs)));
    assert w.files == map["p" := theirs];
    assert Next(c, w, Step(0, Rename(0))).log == [Write("p", Some(c.sha(f.content)), content)];
  }

  // ---------------------------------------------------------------- reading for the comparison

  function Least(a: nat, b: nat): nat {
    if a <= b then a else b
  }

  /**
    The read loop: each call may return fewer bytes than asked for, as `shorter` says, and none only
    at the end.  One byte of room beyond the limit tells a file that is too long.
   */
  method ReadAll(file: seq<bv8>, buffer: array<bv8>, shorter: nat -> nat) returns (bytes: nat)
    requires buffer.Length > 0
    modifies buffer
    ensures bytes == Least(|file|, buffer.Length) && buffer[..bytes] == file[..bytes]
    ensures bytes > buffer.Length - 1 <==> |file| > buffer.Length - 1
  {
    bytes := 0;
    while bytes < buffer.Length
      invariant bytes <= buffer.Length && bytes <= |file| && buffer[..bytes] == file[..bytes]
    {
      var ready := Least(|file| - bytes, buffer.Length - bytes);
      if ready == 0 {
        break;
      }
      var read := ready - Least(shorter(bytes), ready - 1);
      for k := 0 to read
        invariant buffer[..bytes + k] == file[..bytes + k]
      {
        buffer[bytes + k] := file[bytes + k];
      }
      bytes := bytes + read;
    }
  }

  // ---------------------------------------------------------------- the module's state

  class Replacements {
    const c: Config
    var files: map<Key, File>
    var nextNode: nat
    var locks: map<Key, nat>
    var tasks: seq<Task>
    ghost var log: seq<Write>

    ghost function View(): World
      reads this
    {
      World(files, nextNode, locks, tasks, log)
    }

    constructor (c: Config, files: map<Key, File>, nextNode: nat)
      ensures this.c == c && View() == Begin(files, nextNode)
    {
      this.c, this.files, this.nextNode := c, files, nextNode;
      locks, tasks, log := map[], [], [];
    }

    /** Chains a task behind the newest one on its path. */
    method Call(key: Key, content: string, expected: Option<Digest>) returns (task: nat)
      modifies this
      ensures View() == Next(c, old(View()), Event.Call(key, content, expected))
      ensures task == |old(tasks)|
    {
      task := |tasks|;
      var prior := None;
      if key in locks {
        prior := Some(locks[key]);
      }
      tasks := tasks + [Task(key, content, expected, prior, Waiting)];
      locks := locks[key := task];
    }

    method Compare(i: nat)
      requires i < |tasks| && tasks[i].stage.Opened?
      modifies this
      ensures View() == Next(c, old(View()), Step(i, Action.Compare))
    {
      var t := tasks[i];
      var digest: Option<Digest> := None;
      match t.stage.original {
        case None =>
        case Some(f) =>
          var seen := ReadBack(files, t.key, f);
          if |f.content| > c.maxReadBytes || |seen| > c.maxReadBytes {
            tasks := tasks[i := t.(stage := Settled(false))];
            return;
          }
          digest := Some(c.sha(seen));
      }
      tasks := tasks[i := t.(stage := if digest == t.expected then Compared(t.stage.original) else Settled(false))];
    }

    /** `link` for a new file, the recheck before `rename` for an existing one. */
    method Swap(i: nat, now: int)
      requires i < |tasks| && tasks[i].stage.Staged?
      modifies this
      ensures View() == Next(c, old(View()), Step(i, Action.Swap(now)))
    {
      var t := tasks[i];
      match t.stage.original
      case None =>
        if t.key in files {
          tasks := tasks[i := t.(stage := Settled(false))];
        } else {
          Put(i, now);
        }
      case Some(f) =>
        var same := t.key in files && Same(files[t.key], f);
        tasks := tasks[i := t.(stage := if same then Rechecked(f) else Settled(false))];
    }

    method Rename(i: nat, now: int)
      requires i < |tasks| && tasks[i].stage.Rechecked?
      modifies this
      ensures View() == Next(c, old(View()), Step(i, Action.Rename(now)))
    {
      Put(i, now);
    }

    method Put(i: nat, now: int)
      requires i < |tasks|
      modifies this
      ensures View() == Install(old(View()), i, now)
    {
      var t := tasks[i];
      files := files[t.key := File(nextNode, t.content, now)];
      nextNode := nextNode + 1;
      tasks := tasks[i := t.(stage := Replaced)];
      log := log + [Write(t.key, t.expected, t.content)];
    }

    /** Deletes the lock entry unless a newer task has taken it over. */
    method Cleanup(i: nat)
      requires i < |tasks| && tasks[i].stage.Settled?
      modifies this`locks
      ensures View() == Next(c, old(View()), Event.Cleanup(i))
    {
      var key := tasks[i].key;
      if key in locks && locks[key] == i {
        locks := locks - {key};
      }
    }
  }
}
