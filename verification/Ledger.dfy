/**
  Admission to the durable job ledger, as one store performs it while workers write their results:
  what the listing shows, what expires, and what a new job may still reserve.
 */
module Ledger {
  import opened Wrappers

  type Id = string

  datatype State = Starting | Running | Succeeded | Failed | Cancelled {
    predicate Terminal() {
      Succeeded? || Failed? || Cancelled?
    }
  }

  datatype Job = Job(id: Id, hash: string, state: State, updatedAt: int, resultBytes: Option<nat>, expired: bool)

  /** Times are in milliseconds, retentions in seconds. */
  datatype Config = Config(
    maxConcurrent: nat, maxStoredJobs: nat, maxStoredOutputBytes: nat, maxOutputBytes: nat,
    retentionSeconds: nat, outputRetentionSeconds: nat)

  // ---------------------------------------------------------------- reading

  datatype Seen = Known(state: State) | Unknown

  const LAUNCH_GRACE_MS: int := 30_000

  /** What a status call shows; `gone` holds the jobs whose worker process is no longer there. */
  function Shown(j: Job, now: int, gone: set<Id>): Seen {
    if j.state.Terminal() then Known(j.state)
    else if j.state.Running? then (if j.id in gone then Unknown else Known(Running))
    else if now - j.updatedAt > LAUNCH_GRACE_MS then Unknown
    else Known(Starting)
  }

  function List(jobs: seq<Job>, limit: nat): seq<Job> {
    if |jobs| <= limit then jobs else jobs[..limit]
  }

  function Charge(c: Config, j: Job): nat {
    match j.resultBytes
    case Some(n) => n
    case None => if j.state.Terminal() then 0 else c.maxOutputBytes
  }

  /** What the records are added up by; the store uses the jobs shown active and the output stored. */
  datatype Measure =
    | Active(now: int, gone: set<Id>)
    | Missing(now: int, gone: set<Id>)
    | Stored
    | Capped
    | Unfinished
    | Alive(dead: set<Id>)

  function Weight(c: Config, m: Measure, j: Job): nat {
    match m
    case Active(now, gone) => if Shown(j, now, gone) in {Known(Running), Known(Starting)} then 1 else 0
    case Missing(now, gone) => if Shown(j, now, gone).Unknown? then 1 else 0
    case Stored => Charge(c, j)
    case Capped => if Charge(c, j) <= c.maxOutputBytes then Charge(c, j) else c.maxOutputBytes
    case Unfinished => if j.state.Terminal() then 0 else 1
    case Alive(dead) => if j.state.Terminal() || j.id in dead then 0 else 1
  }

  function Sum(c: Config, m: Measure, jobs: seq<Job>): nat {
    if jobs == [] then 0 else Sum(c, m, jobs[..|jobs| - 1]) + Weight(c, m, jobs[|jobs| - 1])
  }

  // ---------------------------------------------------------------- changing

  function Find(jobs: seq<Job>, id: Id): (r: Option<nat>)
    ensures r.Some? ==> r.value < |jobs| && jobs[r.value].id == id
    ensures r.None? ==> forall i | 0 <= i < |jobs| :: jobs[i].id != id
  {
    if jobs == [] then None
    else if jobs[|jobs| - 1].id == id then Some(|jobs| - 1)
    else
      var r := Find(jobs[..|jobs| - 1], id);
      assert r.None? ==> forall i | 0 <= i < |jobs| - 1 :: jobs[i] == jobs[..|jobs| - 1][i];
      r
  }

  function Drop(jobs: seq<Job>, id: Id): seq<Job> {
    match Find(jobs, id)
    case None => jobs
    case Some(i) => jobs[..i] + jobs[i + 1..]
  }

  function Put(jobs: seq<Job>, j: Job): seq<Job> {
    match Find(jobs, j.id)
    case None => jobs
    case Some(i) => jobs[i := j]
  }

  /** Retention, then output retention, for one record of an earlier listing. */
  function ExpireOne(c: Config, jobs: seq<Job>, r: Job, now: int): seq<Job> {
    if !r.state.Terminal() then jobs
    else if now - r.updatedAt > c.retentionSeconds * 1000 then Drop(jobs, r.id)
    else if now - r.updatedAt > c.outputRetentionSeconds * 1000 && !r.expired
    then Put(jobs, r.(expired := true, resultBytes := Some(0)))
    else jobs
  }

  function ExpireAll(c: Config, jobs: seq<Job>, records: seq<Job>, now: int): seq<Job> {
    if records == [] then jobs
    else ExpireOne(c, ExpireAll(c, jobs, records[..|records| - 1], now), records[|records| - 1], now)
  }

  datatype Verdict = Admitted | Overloaded | LedgerFull | BudgetFull

  function Judge(c: Config, jobs: seq<Job>, now: int, gone: set<Id>): Verdict {
    var records := List(jobs, c.maxStoredJobs + 1);
    if Sum(c, Active(now, gone), records) >= c.maxConcurrent then Overloaded
    else if |records| >= c.maxStoredJobs then LedgerFull
    else if Sum(c, Stored, records) + c.maxOutputBytes > c.maxStoredOutputBytes then BudgetFull
    else Admitted
  }

  // ---------------------------------------------------------------- the store and the workers

  /** Where the one start in progress stands. */
  datatype Start =
    | Expiring(id: Id, hash: string, todo: seq<Job>)
    | Reserving(id: Id, hash: string)
    | Recording(id: Id, hash: string)

  /** `reserved` are the directories without a status file. */
  datatype World = World(jobs: seq<Job>, reserved: set<Id>, op: Option<Start>)

  datatype Event =
    | Begin(id: Id, hash: string)
    | Expire(at: int)
    | Count(at: int, gone: set<Id>)
    | Reserve
    | Record(at: int)
    | Crash
    | Runs(id: Id, at: int)
    | Ends(id: Id, at: int, outcome: State, bytes: nat)

  const EMPTY := World([], {}, None)

  function Next(c: Config, w: World, e: Event): World {
    match e
    case Begin(id, hash) =>
      if w.op.Some? || Find(w.jobs, id).Some? then w
      else w.(op := Some(Expiring(id, hash, List(w.jobs, c.maxStoredJobs + 1))))
    case Expire(now) =>
      (match w.op
       case Some(Expiring(id, hash, todo)) =>
         if todo == [] then w
         else w.(jobs := ExpireOne(c, w.jobs, todo[0], now), op := Some(Expiring(id, hash, todo[1..])))
       case _ => w)
    case Count(now, gone) =>
      (match w.op
       case Some(Expiring(id, hash, todo)) =>
         if todo != [] then w
         else if Judge(c, w.jobs, now, gone).Admitted? then w.(op := Some(Reserving(id, hash)))
         else w.(op := None)
       case _ => w)
    case Reserve =>
      (match w.op
       case Some(Reserving(id, hash)) =>
         if id in w.reserved || Find(w.jobs, id).Some? then w.(op := None)
         else w.(reserved := w.reserved + {id}, op := Some(Recording(id, hash)))
       case _ => w)
    case Record(now) =>
      (match w.op
       case Some(Recording(id, hash)) =>
         w.(jobs := w.jobs + [Job(id, hash, Starting, now, None, false)], reserved := w.reserved - {id}, op := None)
       case _ => w)
    case Crash => w.(op := None)
    case Runs(id, now) =>
      (match Find(w.jobs, id)
       case Some(i) =>
         if w.jobs[i].state.Starting?
         then w.(jobs := w.jobs[i := w.jobs[i].(state := Running, updatedAt := now)]) else w
       case None => w)
    case Ends(id, now, outcome, bytes) =>
      (match Find(w.jobs, id)
       case Some(i) =>
         if !w.jobs[i].state.Terminal() && outcome.Terminal()
         then w.(jobs := w.jobs[i := w.jobs[i].(state := outcome, updatedAt := now, resultBytes := Some(bytes))]) else w
       case None => w)
  }

  function Run(c: Config, events: seq<Event>): World {
    if events == [] then EMPTY else Next(c, Run(c, events[..|events| - 1]), events[|events| - 1])
  }

  // ---------------------------------------------------------------- sums and positions

  ghost predicate Unique(jobs: seq<Job>) {
    forall i, j | 0 <= i < j < |jobs| :: jobs[i].id != jobs[j].id
  }

  lemma {:induction false} SumUpdate(c: Config, m: Measure, jobs: seq<Job>, i: nat, j: Job)
    requires i < |jobs|
    ensures Sum(c, m, jobs[i := j]) == Sum(c, m, jobs) - Weight(c, m, jobs[i]) + Weight(c, m, j)
  {
    var last := |jobs| - 1;
    if i == last {
      assert jobs[i := j][..last] == jobs[..last];
    } else {
      SumUpdate(c, m, jobs[..last], i, j);
      assert jobs[i := j][..last] == jobs[..last][i := j];
    }
  }

  lemma {:induction false} SumDrop(c: Config, m: Measure, jobs: seq<Job>, i: nat)
    requires i < |jobs|
    ensures Sum(c, m, jobs[..i] + jobs[i + 1..]) == Sum(c, m, jobs) - Weight(c, m, jobs[i])
  {
    var last := |jobs| - 1;
    if i == last {
      assert jobs[..i] + jobs[i + 1..] == jobs[..last];
    } else {
      SumDrop(c, m, jobs[..last], i);
      assert (jobs[..i] + jobs[i + 1..])[..last - 1] == jobs[..last][..i] + jobs[..last][i + 1..];
    }
  }

  lemma SumAppend(c: Config, m: Measure, jobs: seq<Job>, j: Job)
    ensures Sum(c, m, jobs + [j]) == Sum(c, m, jobs) + Weight(c, m, j)
  {
    assert (jobs + [j])[..|jobs|] == jobs;
  }

  lemma {:induction false} SumBelow(c: Config, m: Measure, n: Measure, jobs: seq<Job>)
    requires forall i | 0 <= i < |jobs| :: Weight(c, m, jobs[i]) <= Weight(c, n, jobs[i])
    ensures Sum(c, m, jobs) <= Sum(c, n, jobs)
  {
    if jobs != [] {
      var front := jobs[..|jobs| - 1];
      assert forall i | 0 <= i < |front| :: front[i] == jobs[i];
      SumBelow(c, m, n, front);
    }
  }

  // ---------------------------------------------------------------- the invariant

  ghost predicate Honest(j: Job) {
    !j.state.Terminal() ==> j.resultBytes.None?
  }

  /** The ledger is within its bounds, with room for the job that is being added. */
  ghost predicate Bounded(c: Config, w: World) {
    var coming := if w.op.Some? && !w.op.value.Expiring? then 1 else 0;
    && |w.jobs| + coming <= c.maxStoredJobs
    && Sum(c, Capped, w.jobs) + coming * c.maxOutputBytes <= c.maxStoredOutputBytes
  }

  ghost predicate Shaped(w: World) {
    && Unique(w.jobs)
    && (forall i | 0 <= i < |w.jobs| :: Honest(w.jobs[i]) && w.jobs[i].id !in w.reserved)
    && (w.op.Some? && w.op.value.Recording? ==> w.op.value.id in w.reserved)
  }

  /** The listing that is being worked through still shows every terminal job as it is. */
  ghost predicate Current(w: World) {
    w.op.Some? && w.op.value.Expiring? ==>
      var todo := w.op.value.todo;
      && Unique(todo)
      && (forall i, k | 0 <= i < |w.jobs| && 0 <= k < |todo| && w.jobs[i].id == todo[k].id && todo[k].state.Terminal() ::
            w.jobs[i] == todo[k])
  }

  ghost predicate Inv(c: Config, w: World) {
    Bounded(c, w) && Shaped(w) && Current(w)
  }

  // ---------------------------------------------------------------- every step keeps it

  ghost predicate Finer(c: Config, before: Job, after: Job) {
    before.id == after.id && Honest(after) && Weight(c, Capped, after) <= Weight(c, Capped, before)
  }

  lemma UpdateKeeps(c: Config, w: World, i: nat, j: Job, op: Option<Start>)
    requires Bounded(c, w) && Shaped(w) && i < |w.jobs| && Finer(c, w.jobs[i], j)
    requires op == w.op || (w.op.Some? && w.op.value.Expiring? && op.Some? && op.value.Expiring?)
    ensures Bounded(c, w.(jobs := w.jobs[i := j], op := op)) && Shaped(w.(jobs := w.jobs[i := j], op := op))
  {
    SumUpdate(c, Capped, w.jobs, i, j);
  }

  lemma DropKeeps(c: Config, w: World, i: nat, op: Option<Start>)
    requires Bounded(c, w) && Shaped(w) && i < |w.jobs|
    requires w.op.Some? && w.op.value.Expiring? && op.Some? && op.value.Expiring?
    ensures Bounded(c, w.(jobs := w.jobs[..i] + w.jobs[i + 1..], op := op)) && Shaped(w.(jobs := w.jobs[..i] + w.jobs[i + 1..], op := op))
  {
    SumDrop(c, Capped, w.jobs, i);
  }

  lemma ExpireKeeps(c: Config, w: World, now: int)
    requires Inv(c, w) && w.op.Some? && w.op.value.Expiring? && w.op.value.todo != []
    ensures Inv(c, Next(c, w, Expire(now)))
  {
    var start := w.op.value;
    var r, op := start.todo[0], Some(Expiring(start.id, start.hash, start.todo[1..]));
    var jobs := ExpireOne(c, w.jobs, r, now);
    if jobs != w.jobs {
      var i := Find(w.jobs, r.id).value;
      assert w.jobs[i] == r;
      if now - r.updatedAt > c.retentionSeconds * 1000 {
        DropKeeps(c, w, i, op);
      } else {
        UpdateKeeps(c, w, i, r.(expired := true, resultBytes := Some(0)), op);
      }
      ExpireCurrent(w, i, jobs, op);
    }
  }

  lemma ExpireCurrent(w: World, i: nat, jobs: seq<Job>, op: Option<Start>)
    requires Shaped(w) && Current(w) && w.op.Some? && w.op.value.Expiring? && w.op.value.todo != []
    requires i < |w.jobs| && w.jobs[i].id == w.op.value.todo[0].id
    requires jobs == w.jobs[..i] + w.jobs[i + 1..] || exists j: Job :: j.id == w.jobs[i].id && jobs == w.jobs[i := j]
    requires op == Some(Expiring(w.op.value.id, w.op.value.hash, w.op.value.todo[1..]))
    ensures Current(w.(jobs := jobs, op := op))
  {
    var todo, rest := w.op.value.todo, w.op.value.todo[1..];
    forall n, k | 0 <= n < |jobs| && 0 <= k < |rest| && jobs[n].id == rest[k].id && rest[k].state.Terminal()
      ensures jobs[n] == rest[k]
    {
      assert rest[k] == todo[k + 1] && todo[0].id != todo[k + 1].id;
      assert jobs[n] in w.jobs;
    }
  }

  lemma WorkerKeeps(c: Config, w: World, i: nat, j: Job)
    requires Inv(c, w) && i < |w.jobs| && Finer(c, w.jobs[i], j) && !w.jobs[i].state.Terminal()
    ensures Inv(c, w.(jobs := w.jobs[i := j]))
  {
    UpdateKeeps(c, w, i, j, w.op);
  }

  lemma CountKeeps(c: Config, w: World, now: int, gone: set<Id>)
    requires Inv(c, w)
    ensures Inv(c, Next(c, w, Count(now, gone)))
  {
    SumBelow(c, Capped, Stored, w.jobs);
  }

  lemma RecordShaped(w: World, j: Job)
    requires Shaped(w) && w.op.Some? && w.op.value.Recording? && j.id == w.op.value.id && Honest(j)
    ensures Shaped(World(w.jobs + [j], w.reserved - {j.id}, None))
  {
  }

  lemma RecordKeeps(c: Config, w: World, now: int)
    requires Inv(c, w)
    ensures Inv(c, Next(c, w, Record(now)))
  {
    if w.op.Some? && w.op.value.Recording? {
      var j := Job(w.op.value.id, w.op.value.hash, Starting, now, None, false);
      SumAppend(c, Capped, w.jobs, j);
      RecordShaped(w, j);
      assert Next(c, w, Record(now)) == World(w.jobs + [j], w.reserved - {j.id}, None);
    }
  }

  lemma NextInv(c: Config, w: World, e: Event)
    requires Inv(c, w)
    ensures Inv(c, Next(c, w, e))
  {
    match e
    case Begin(_, _) =>
    case Expire(now) =>
      if w.op.Some? && w.op.value.Expiring? && w.op.value.todo != [] {
        ExpireKeeps(c, w, now);
      }
    case Count(now, gone) => CountKeeps(c, w, now, gone);
    case Record(now) => RecordKeeps(c, w, now);
    case Runs(id, now) =>
      var r := Find(w.jobs, id);
      if r.Some? && w.jobs[r.value].state.Starting? {
        WorkerKeeps(c, w, r.value, w.jobs[r.value].(state := Running, updatedAt := now));
      }
    case Ends(id, now, outcome, bytes) =>
      var r := Find(w.jobs, id);
      if r.Some? && !w.jobs[r.value].state.Terminal() && outcome.Terminal() {
        WorkerKeeps(c, w, r.value, w.jobs[r.value].(state := outcome, updatedAt := now, resultBytes := Some(bytes)));
      }
    case _ =>
  }

  lemma {:induction false} EveryRunInv(c: Config, events: seq<Event>)
    ensures Inv(c, Run(c, events))
  {
    if events != [] {
      EveryRunInv(c, events[..|events| - 1]);
      NextInv(c, Run(c, events[..|events| - 1]), events[|events| - 1]);
    }
  }

  // ---------------------------------------------------------------- the results

  /** In every run the listing is never cut off, and identifiers are unique. */
  lemma ListIsComplete(c: Config, events: seq<Event>)
    ensures var jobs := Run(c, events).jobs;
            |jobs| <= c.maxStoredJobs && List(jobs, c.maxStoredJobs + 1) == jobs && Unique(jobs)
  {
    EveryRunInv(c, events);
  }

  /** In every run stored and reserved output, counting each result up to the limit, is within the budget. */
  lemma WithinBudget(c: Config, events: seq<Event>)
    ensures Sum(c, Capped, Run(c, events).jobs) <= c.maxStoredOutputBytes
    ensures var jobs := Run(c, events).jobs;
            (forall i | 0 <= i < |jobs| :: Charge(c, jobs[i]) <= c.maxOutputBytes) ==> Sum(c, Stored, jobs) <= c.maxStoredOutputBytes
  {
    var jobs := Run(c, events).jobs;
    EveryRunInv(c, events);
    if forall i | 0 <= i < |jobs| :: Charge(c, jobs[i]) <= c.maxOutputBytes {
      SumBelow(c, Stored, Capped, jobs);
    }
  }

  /** A job without a terminal state keeps its place, and a terminal state is never replaced by another. */
  lemma TerminalIsFinal(c: Config, events: seq<Event>, e: Event, id: Id)
    requires Find(Run(c, events).jobs, id).Some?
    ensures var w, after := Run(c, events), Next(c, Run(c, events), e);
            var j := w.jobs[Find(w.jobs, id).value];
            match Find(after.jobs, id) {
              case Some(i) =>
                && after.jobs[i].hash == j.hash
                && (j.state.Terminal() ==> after.jobs[i].state == j.state && after.jobs[i].updatedAt == j.updatedAt)
                && (after.jobs[i].resultBytes == j.resultBytes || !j.state.Terminal() || after.jobs[i].expired)
              case None =>
                e.Expire? && j.state.Terminal() && e.at - j.updatedAt > c.retentionSeconds * 1000
            }
  {
    var w := Run(c, events);
    EveryRunInv(c, events);
    StepKeepsJob(c, w, e, Find(w.jobs, id).value);
  }

  // `j` is the same job as `i` some time later.
  ghost predicate Grown(i: Job, j: Job) {
    && i.id == j.id && i.hash == j.hash
    && (i.state.Terminal() ==> j.state == i.state && j.updatedAt == i.updatedAt)
    && (i.resultBytes == j.resultBytes || !i.state.Terminal() || j.expired)
  }

  lemma FindAt(jobs: seq<Job>, i: nat)
    requires Unique(jobs) && i < |jobs|
    ensures Find(jobs, jobs[i].id) == Some(i)
  {
  }

  lemma UpdateFound(jobs: seq<Job>, i: nat, k: nat, j: Job)
    requires Unique(jobs) && i < |jobs| && k < |jobs| && Grown(jobs[k], j)
    ensures Find(jobs[k := j], jobs[i].id) == Some(i) && Grown(jobs[i], jobs[k := j][i])
  {
    FindAt(jobs[k := j], i);
  }

  lemma DropFound(jobs: seq<Job>, i: nat, k: nat)
    requires Unique(jobs) && i < |jobs| && k < |jobs|
    ensures var found := Find(jobs[..k] + jobs[k + 1..], jobs[i].id);
            if i == k then found.None? else found.Some? && (jobs[..k] + jobs[k + 1..])[found.value] == jobs[i]
  {
    var rest := jobs[..k] + jobs[k + 1..];
    if i != k {
      FindAt(rest, if i < k then i else i - 1);
    }
  }

  lemma StepKeepsJob(c: Config, w: World, e: Event, i: nat)
    requires Inv(c, w) && i < |w.jobs|
    ensures var after := Next(c, w, e).jobs;
            match Find(after, w.jobs[i].id) {
              case Some(n) => Grown(w.jobs[i], after[n])
              case None => e.Expire? && w.jobs[i].state.Terminal() && e.at - w.jobs[i].updatedAt > c.retentionSeconds * 1000
            }
  {
    FindAt(w.jobs, i);
    match e
    case Expire(now) =>
      if w.op.Some? && w.op.value.Expiring? && w.op.value.todo != [] {
        ExpireKeepsJob(c, w, now, i);
      }
    case Record(now) =>
      if w.op.Some? && w.op.value.Recording? {
        RecordKeeps(c, w, now);
        FindAt(Next(c, w, e).jobs, i);
      }
    case Runs(id, now) =>
      var r := Find(w.jobs, id);
      if r.Some? && w.jobs[r.value].state.Starting? {
        UpdateFound(w.jobs, i, r.value, w.jobs[r.value].(state := Running, updatedAt := now));
      }
    case Ends(id, now, outcome, bytes) =>
      var r := Find(w.jobs, id);
      if r.Some? && !w.jobs[r.value].state.Terminal() && outcome.Terminal() {
        UpdateFound(w.jobs, i, r.value, w.jobs[r.value].(state := outcome, updatedAt := now, resultBytes := Some(bytes)));
      }
    case _ =>
  }

  lemma ExpireKeepsJob(c: Config, w: World, now: int, i: nat)
    requires Inv(c, w) && i < |w.jobs| && w.op.Some? && w.op.value.Expiring? && w.op.value.todo != []
    ensures var after := ExpireOne(c, w.jobs, w.op.value.todo[0], now);
            match Find(after, w.jobs[i].id) {
              case Some(n) => Grown(w.jobs[i], after[n])
              case None => w.jobs[i].state.Terminal() && now - w.jobs[i].updatedAt > c.retentionSeconds * 1000
            }
  {
    var r := w.op.value.todo[0];
    FindAt(w.jobs, i);
    var found := Find(w.jobs, r.id);
    if found.Some? && r.state.Terminal() {
      var k := found.value;
      assert w.jobs[k] == r;
      if now - r.updatedAt > c.retentionSeconds * 1000 {
        DropFound(w.jobs, i, k);
      } else {
        UpdateFound(w.jobs, i, k, r.(expired := true, resultBytes := Some(0)));
      }
    }
  }

  // ---------------------------------------------------------------- what an expiry leaves

  predicate PastRetention(c: Config, j: Job, now: int) {
    j.state.Terminal() && now - j.updatedAt > c.retentionSeconds * 1000
  }

  /** Output that is kept no longer counts nothing. */
  function Kept(c: Config, j: Job, now: int): Job {
    if j.state.Terminal() && now - j.updatedAt > c.outputRetentionSeconds * 1000 && !j.expired
    then j.(expired := true, resultBytes := Some(0)) else j
  }

  // The expiry has treated the first `n` jobs of the listing and left the others alone.
  ghost predicate ExpiredUpTo(c: Config, jobs: seq<Job>, after: seq<Job>, n: nat, now: int) {
    && Unique(after)
    && forall i | 0 <= i < |jobs| ::
         if i < n && PastRetention(c, jobs[i], now) then Find(after, jobs[i].id).None?
         else Find(after, jobs[i].id).Some?
              && after[Find(after, jobs[i].id).value] == if i < n then Kept(c, jobs[i], now) else jobs[i]
  }

  lemma {:induction false} ExpirePrefix(c: Config, jobs: seq<Job>, n: nat, now: int)
    requires Unique(jobs) && n <= |jobs|
    ensures ExpiredUpTo(c, jobs, ExpireAll(c, jobs, jobs[..n], now), n, now)
  {
    if n == 0 {
      forall i | 0 <= i < |jobs|
        ensures Find(jobs, jobs[i].id) == Some(i)
      {
        FindAt(jobs, i);
      }
    } else {
      ExpirePrefix(c, jobs, n - 1, now);
      assert jobs[..n][..n - 1] == jobs[..n - 1];
      ExpireNext(c, jobs, ExpireAll(c, jobs, jobs[..n - 1], now), n - 1, now);
    }
  }

  lemma ExpireNext(c: Config, jobs: seq<Job>, mid: seq<Job>, n: nat, now: int)
    requires Unique(jobs) && n < |jobs| && ExpiredUpTo(c, jobs, mid, n, now)
    ensures ExpiredUpTo(c, jobs, ExpireOne(c, mid, jobs[n], now), n + 1, now)
  {
    var k := Find(mid, jobs[n].id).value;
    var after := ExpireOne(c, mid, jobs[n], now);
    assert Unique(after);
    forall i | 0 <= i < |jobs| && Find(mid, jobs[i].id).Some?
      ensures i == n && PastRetention(c, jobs[n], now) ==> Find(after, jobs[i].id).None?
      ensures i != n ==> Find(after, jobs[i].id).Some? && after[Find(after, jobs[i].id).value] == mid[Find(mid, jobs[i].id).value]
      ensures i == n && !PastRetention(c, jobs[n], now) ==>
                Find(after, jobs[n].id).Some? && after[Find(after, jobs[n].id).value] == Kept(c, jobs[n], now)
    {
      OneExpired(c, mid, k, Find(mid, jobs[i].id).value, now);
    }
    forall i | 0 <= i < |jobs| && Find(mid, jobs[i].id).None?
      ensures Find(after, jobs[i].id).None?
    {
      OneAddsNothing(c, mid, jobs[n], now, jobs[i].id);
    }
  }

  /** Expiring the record at `k` treats that one and leaves the one at `i` as it was. */
  lemma OneExpired(c: Config, jobs: seq<Job>, k: nat, i: nat, now: int)
    requires Unique(jobs) && k < |jobs| && i < |jobs|
    ensures var after := ExpireOne(c, jobs, jobs[k], now);
            match Find(after, jobs[i].id) {
              case None => i == k && PastRetention(c, jobs[k], now)
              case Some(n) => !(i == k && PastRetention(c, jobs[k], now)) && after[n] == if i == k then Kept(c, jobs[k], now) else jobs[i]
            }
  {
    FindAt(jobs, i);
    FindAt(jobs, k);
    DropFound(jobs, i, k);
    UpdateFound(jobs, i, k, Kept(c, jobs[k], now));
  }

  lemma OneAddsNothing(c: Config, jobs: seq<Job>, r: Job, now: int, id: Id)
    requires Find(jobs, id).None?
    ensures Find(ExpireOne(c, jobs, r, now), id).None?
  {
    var after := ExpireOne(c, jobs, r, now);
    var found := Find(jobs, r.id);
    forall i | 0 <= i < |after|
      ensures after[i].id != id
    {
      if |after| < |jobs| {
        assert after[i] == jobs[if i < found.value then i else i + 1];
      } else {
        assert after[i].id == jobs[i].id;
      }
    }
  }

  /** Expiring a whole listing removes exactly the terminal jobs past retention, and drops exactly the outputs past theirs. */
  lemma ExpiryIsExact(c: Config, jobs: seq<Job>, now: int, i: nat)
    requires Unique(jobs) && i < |jobs|
    ensures var after := ExpireAll(c, jobs, jobs, now);
            match Find(after, jobs[i].id) {
              case None => PastRetention(c, jobs[i], now)
              case Some(n) => !PastRetention(c, jobs[i], now) && after[n] == Kept(c, jobs[i], now)
            }
  {
    ExpirePrefix(c, jobs, |jobs|, now);
    assert jobs[..|jobs|] == jobs;
  }

  // ---------------------------------------------------------------- the limit on concurrent jobs

  /** An admission although the jobs shown active and those shown unknown fill the limit together. */
  predicate Overcommits(c: Config, w: World, e: Event) {
    && e.Count? && w.op.Some? && w.op.value.Expiring? && w.op.value.todo == [] && Judge(c, w.jobs, e.at, e.gone).Admitted?
    && Sum(c, Active(e.at, e.gone), w.jobs) + Sum(c, Missing(e.at, e.gone), w.jobs) >= c.maxConcurrent
  }

  /** The unfinished jobs, and the one that is being added, are within the limit. */
  predicate Few(c: Config, w: World) {
    Sum(c, Unfinished, w.jobs) + (if w.op.Some? && !w.op.value.Expiring? then 1 else 0) <= c.maxConcurrent
  }

  lemma {:induction false} ActiveOrMissing(c: Config, jobs: seq<Job>, now: int, gone: set<Id>)
    ensures Sum(c, Unfinished, jobs) == Sum(c, Active(now, gone), jobs) + Sum(c, Missing(now, gone), jobs)
  {
    if jobs != [] {
      ActiveOrMissing(c, jobs[..|jobs| - 1], now, gone);
    }
  }

  lemma CountFewIff(c: Config, w: World, now: int, gone: set<Id>)
    requires Inv(c, w) && Few(c, w)
    ensures Few(c, Next(c, w, Count(now, gone))) <==> !Overcommits(c, w, Count(now, gone))
  {
    ActiveOrMissing(c, w.jobs, now, gone);
  }

  lemma NextFew(c: Config, w: World, e: Event)
    requires Inv(c, w) && Few(c, w)
    ensures Few(c, Next(c, w, e)) <==> !Overcommits(c, w, e)
  {
    match e
    case Expire(now) =>
      if w.op.Some? && w.op.value.Expiring? && w.op.value.todo != [] {
        ExpireUnfinished(c, w, now);
      }
    case Count(now, gone) => CountFewIff(c, w, now, gone);
    case Record(now) =>
      if w.op.Some? && w.op.value.Recording? {
        SumAppend(c, Unfinished, w.jobs, Job(w.op.value.id, w.op.value.hash, Starting, now, None, false));
      }
    case Runs(id, now) =>
      var r := Find(w.jobs, id);
      if r.Some? {
        SumUpdate(c, Unfinished, w.jobs, r.value, w.jobs[r.value].(state := Running, updatedAt := now));
      }
    case Ends(id, now, outcome, bytes) =>
      var r := Find(w.jobs, id);
      if r.Some? {
        SumUpdate(c, Unfinished, w.jobs, r.value, w.jobs[r.value].(state := outcome, updatedAt := now, resultBytes := Some(bytes)));
      }
    case _ =>
  }

  lemma ExpireUnfinished(c: Config, w: World, now: int)
    requires Inv(c, w) && w.op.Some? && w.op.value.Expiring? && w.op.value.todo != []
    ensures Sum(c, Unfinished, ExpireOne(c, w.jobs, w.op.value.todo[0], now)) == Sum(c, Unfinished, w.jobs)
  {
    var r := w.op.value.todo[0];
    var found := Find(w.jobs, r.id);
    if found.Some? && r.state.Terminal() {
      assert w.jobs[found.value] == r;
      SumDrop(c, Unfinished, w.jobs, found.value);
      SumUpdate(c, Unfinished, w.jobs, found.value, r.(expired := true, resultBytes := Some(0)));
    }
  }

  predicate AlwaysFew(c: Config, events: seq<Event>) {
    Few(c, Run(c, events)) && (events == [] || AlwaysFew(c, events[..|events| - 1]))
  }

  predicate NeverOvercommits(c: Config, events: seq<Event>) {
    events == [] ||
    (NeverOvercommits(c, events[..|events| - 1]) && !Overcommits(c, Run(c, events[..|events| - 1]), events[|events| - 1]))
  }

  /**
    The limit on concurrent jobs, exactly.  Throughout a run there are never more unfinished jobs
    than the configured number if and only if every admission found room for one more besides the
    jobs shown active and those shown unknown.
   */
  lemma {:induction false} ConcurrencyHolds(c: Config, events: seq<Event>)
    ensures AlwaysFew(c, events) <==> NeverOvercommits(c, events)
  {
    if events != [] {
      var init := events[..|events| - 1];
      ConcurrencyHolds(c, init);
      EveryRunInv(c, init);
      if Few(c, Run(c, init)) {
        NextFew(c, Run(c, init), events[|events| - 1]);
      }
    }
  }

  lemma RunSnoc(c: Config, events: seq<Event>, e: Event)
    ensures Run(c, events + [e]) == Next(c, Run(c, events), e)
  {
    assert (events + [e])[..|events|] == events;
  }

  const ONE_AT_A_TIME := Config(1, 10, 1_000_000, 1000, 60, 60)

  /** A worker that announces itself after the launch grace runs beside the job admitted in the meantime. */
  lemma SlowLaunchExceedsConcurrency()
    ensures exists events :: Sum(ONE_AT_A_TIME, Unfinished, Run(ONE_AT_A_TIME, events).jobs) == 2
  {
    var c := ONE_AT_A_TIME;
    var first := Job("a", "h", Starting, 0, None, false);
    assert [] + [first] == [first];
    SumAppend(c, Unfinished, [], first);
    SumAppend(c, Active(30_001, {}), [], first);
    SumAppend(c, Stored, [], first);
    var e1 := Admission(c, [], EMPTY, "a", 0);
    var second := Job("b", "h", Starting, 30_001, None, false);
    SumAppend(c, Unfinished, [first], second);
    var e2 := Admission(c, e1, World([first], {}, None), "b", 30_001);
    assert Run(c, e2).jobs == [first] + [second];
  }

  /** An identifier that is not held, in a ledger with at most one job and nothing to expire. */
  lemma Listed(c: Config, events: seq<Event>, w: World, id: Id, now: int) returns (after: seq<Event>)
    requires Run(c, events) == w && w.op.None? && Find(w.jobs, id).None?
    requires |w.jobs| <= 1 <= c.maxStoredJobs && (w.jobs == [] || !w.jobs[0].state.Terminal())
    ensures Run(c, after) == w.(op := Some(Expiring(id, "h", [])))
  {
    after := events + [Begin(id, "h")];
    RunSnoc(c, events, Begin(id, "h"));
    assert Run(c, after) == w.(op := Some(Expiring(id, "h", w.jobs)));
    if w.jobs != [] {
      assert w.jobs[1..] == [];
      RunSnoc(c, after, Expire(now));
      after := after + [Expire(now)];
    }
  }

  /** With room for it, it is admitted and recorded. */
  lemma Admission(c: Config, events: seq<Event>, w: World, id: Id, now: int) returns (after: seq<Event>)
    requires Run(c, events) == w && w.op.None? && w.reserved == {} && Find(w.jobs, id).None?
    requires |w.jobs| <= 1 <= c.maxStoredJobs && (w.jobs == [] || !w.jobs[0].state.Terminal())
    requires Judge(c, w.jobs, now, {}).Admitted?
    ensures Run(c, after) == World(w.jobs + [Job(id, "h", Starting, now, None, false)], {}, None)
  {
    after := Listed(c, events, w, id, now);
    RunSnoc(c, after, Count(now, {}));
    after := after + [Count(now, {})];
    assert Run(c, after) == World(w.jobs, {}, Some(Reserving(id, "h")));
    RunSnoc(c, after, Reserve);
    after := after + [Reserve];
    assert Run(c, after) == World(w.jobs, {id}, Some(Recording(id, "h")));
    RunSnoc(c, after, Record(now));
    after := after + [Record(now)];
  }

  // ---------------------------------------------------------------- the store

  /** The steps of one start that nothing interrupts: a rejected one makes no further step. */
  function ExpireTimes(c: Config, w: World, n: nat, now: int): World
    decreases n
  {
    if n == 0 then w else ExpireTimes(c, Next(c, w, Expire(now)), n - 1, now)
  }

  function Uninterrupted(c: Config, w: World, id: Id, hash: string, now: int, gone: set<Id>): World {
    var begun := Next(c, w, Begin(id, hash));
    var expired := ExpireTimes(c, begun, |List(w.jobs, c.maxStoredJobs + 1)|, now);
    Next(c, Next(c, Next(c, expired, Count(now, gone)), Reserve), Record(now))
  }

  lemma {:induction false} ExpireTimesAll(c: Config, w: World, todo: seq<Job>, id: Id, hash: string, now: int)
    requires w.op == Some(Expiring(id, hash, todo))
    ensures ExpireTimes(c, w, |todo|, now) == w.(jobs := ExpireAll(c, w.jobs, todo, now), op := Some(Expiring(id, hash, [])))
    decreases |todo|
  {
    if todo != [] {
      ExpireTimesAll(c, Next(c, w, Expire(now)), todo[1..], id, hash, now);
      ExpireFirst(c, w.jobs, todo, now);
    }
  }

  lemma {:induction false} ExpireFirst(c: Config, jobs: seq<Job>, todo: seq<Job>, now: int)
    requires todo != []
    ensures ExpireAll(c, jobs, todo, now) == ExpireAll(c, ExpireOne(c, jobs, todo[0], now), todo[1..], now)
  {
    var last := |todo| - 1;
    if last == 0 {
      assert todo[..0] == [] && todo[1..] == [];
    } else {
      ExpireFirst(c, jobs, todo[..last], now);
      assert todo[..last][1..] == todo[1..][..last - 1];
    }
  }

  lemma {:induction false} IdleExpire(c: Config, w: World, n: nat, now: int)
    requires w.op.None?
    ensures ExpireTimes(c, w, n, now) == w
  {
    if n > 0 {
      IdleExpire(c, w, n - 1, now);
    }
  }

  lemma FinishStart(c: Config, w: World, id: Id, hash: string, now: int, gone: set<Id>)
    requires w.op == Some(Expiring(id, hash, [])) && Find(w.jobs, id).None?
    ensures Next(c, Next(c, Next(c, w, Count(now, gone)), Reserve), Record(now)) ==
            if Judge(c, w.jobs, now, gone) != Admitted || id in w.reserved then w.(op := None)
            else World(w.jobs + [Job(id, hash, Starting, now, None, false)], w.reserved + {id} - {id}, None)
  {
  }

  datatype Answer = Existing(job: Job) | Conflict | Refused(verdict: Verdict) | AlreadyReserved | Recorded

  class JobStore {
    const c: Config
    var jobs: seq<Job>
    var reserved: set<Id>

    ghost function View(): World
      reads this
    {
      World(jobs, reserved, None)
    }

    constructor (c: Config)
      ensures this.c == c && View() == EMPTY
    {
      this.c, jobs, reserved := c, [], {};
    }

    method ExpireRecords(records: seq<Job>, now: int)
      modifies this`jobs
      ensures jobs == ExpireAll(c, old(jobs), records, now)
    {
      for i := 0 to |records|
        invariant jobs == ExpireAll(c, old(jobs), records[..i], now)
      {
        var r := records[i];
        if r.state.Terminal() {
          if now - r.updatedAt > c.retentionSeconds * 1000 {
            jobs := Drop(jobs, r.id);
          } else if now - r.updatedAt > c.outputRetentionSeconds * 1000 && !r.expired {
            jobs := Put(jobs, r.(expired := true, resultBytes := Some(0)));
          }
        }
        assert records[..i + 1][..i] == records[..i];
      }
      assert records[..|records|] == records;
    }

    method Tally(records: seq<Job>, now: int, gone: set<Id>) returns (active: nat, bytes: nat)
      ensures active == Sum(c, Active(now, gone), records) && bytes == Sum(c, Stored, records)
    {
      active, bytes := 0, 0;
      for i := 0 to |records|
        invariant active == Sum(c, Active(now, gone), records[..i]) && bytes == Sum(c, Stored, records[..i])
      {
        SumAppend(c, Active(now, gone), records[..i], records[i]);
        SumAppend(c, Stored, records[..i], records[i]);
        assert records[..i + 1] == records[..i] + [records[i]];
        if Shown(records[i], now, gone) in {Known(Running), Known(Starting)} {
          active := active + 1;
        }
        bytes := bytes + Charge(c, records[i]);
      }
      assert records[..|records|] == records;
    }

    method Count(now: int, gone: set<Id>) returns (verdict: Verdict)
      ensures verdict == Judge(c, jobs, now, gone)
    {
      var records := List(jobs, c.maxStoredJobs + 1);
      var active, bytes := Tally(records, now, gone);
      if active >= c.maxConcurrent {
        verdict := Overloaded;
      } else if |records| >= c.maxStoredJobs {
        verdict := LedgerFull;
      } else if bytes + c.maxOutputBytes > c.maxStoredOutputBytes {
        verdict := BudgetFull;
      } else {
        verdict := Admitted;
      }
    }

    /** A start that nothing interrupts is a run of the machine. */
    method Start(id: Id, hash: string, now: int, gone: set<Id>) returns (answer: Answer)
      modifies this
      ensures View() == Uninterrupted(c, old(View()), id, hash, now, gone)
      ensures Find(old(jobs), id).Some? <==> answer.Existing? || answer.Conflict?
      ensures answer.Existing? ==> answer.job == old(jobs)[Find(old(jobs), id).value] && answer.job.hash == hash
      ensures answer.Conflict? ==> old(jobs)[Find(old(jobs), id).value].hash != hash
      ensures answer.Refused? ==> answer.verdict == Judge(c, jobs, now, gone) != Admitted
      ensures answer.AlreadyReserved? ==> id in old(reserved) && Judge(c, jobs, now, gone) == Admitted
      ensures answer.Recorded? <==> Find(old(jobs), id).None? && Find(jobs, id).Some?
    {
      ghost var before := View();
      ghost var limit := c.maxStoredJobs + 1;
      var found := Find(jobs, id);
      if found.Some? {
        IdleExpire(c, before, |List(jobs, limit)|, now);
        return if jobs[found.value].hash == hash then Existing(jobs[found.value]) else Conflict;
      }
      var records := List(jobs, c.maxStoredJobs + 1);
      ExpireTimesAll(c, Next(c, before, Begin(id, hash)), records, id, hash, now);
      ExpireRecords(records, now);
      ExpireAddsNothing(c, before.jobs, records, now, id);
      FinishStart(c, World(jobs, reserved, Some(Expiring(id, hash, []))), id, hash, now, gone);
      var verdict := Count(now, gone);
      if verdict != Admitted {
        return Refused(verdict);
      }
      if id in reserved {
        return AlreadyReserved;
      }
      reserved := reserved + {id};
      jobs, reserved := jobs + [Job(id, hash, Starting, now, None, false)], reserved - {id};
      answer := Recorded;
    }
  }

  lemma {:induction false} ExpireAddsNothing(c: Config, jobs: seq<Job>, records: seq<Job>, now: int, id: Id)
    requires Find(jobs, id).None?
    ensures Find(ExpireAll(c, jobs, records, now), id).None?
    decreases |records|
  {
    if records != [] {
      var front := records[..|records| - 1];
      ExpireAddsNothing(c, jobs, front, now, id);
      OneAddsNothing(c, ExpireAll(c, jobs, front, now), records[|records| - 1], now, id);
    }
  }
}
