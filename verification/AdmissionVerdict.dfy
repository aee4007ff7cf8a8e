/**
  When the ledger takes a new job: what an expiry leaves, what counts against each limit, and what a
  start therefore does to the ledger, in every run.
 */
module AdmissionVerdict {
  import opened Wrappers
  import opened Ledger

  // ---------------------------------------------------------------- what counts

  /** It runs in a process that is still there, or was launched at most half a minute ago. */
  predicate Busy(j: Job, now: int, gone: set<Id>) {
    (j.state == Running && j.id !in gone) || (j.state == Starting && now <= j.updatedAt + 30_000)
  }

  /** The places of the busy jobs. */
  function BusyJobs(jobs: seq<Job>, now: int, gone: set<Id>): set<nat> {
    set i: nat | i < |jobs| && Busy(jobs[i], now, gone)
  }

  /** A reported result takes what it takes; one that is still to come takes the most that it may. */
  function Bytes(c: Config, jobs: seq<Job>): nat {
    if jobs == [] then 0
    else
      var j := jobs[0];
      var own := if j.resultBytes.Some? then j.resultBytes.value else if j.state in {Starting, Running} then c.maxOutputBytes else 0;
      own + Bytes(c, jobs[1..])
  }

  /** There is room for one more job. */
  predicate Room(c: Config, jobs: seq<Job>, now: int, gone: set<Id>) {
    && |BusyJobs(jobs, now, gone)| < c.maxConcurrent
    && |jobs| < c.maxStoredJobs
    && Bytes(c, jobs) + c.maxOutputBytes <= c.maxStoredOutputBytes
  }

  lemma {:induction false} BusyCounted(c: Config, jobs: seq<Job>, now: int, gone: set<Id>)
    ensures |BusyJobs(jobs, now, gone)| == Sum(c, Active(now, gone), jobs)
  {
    if jobs != [] {
      var last := |jobs| - 1;
      var front := jobs[..last];
      BusyCounted(c, front, now, gone);
      assert BusyJobs(jobs, now, gone) == BusyJobs(front, now, gone) + if Busy(jobs[last], now, gone) then {last} else {};
    } else {
      assert BusyJobs(jobs, now, gone) == {};
    }
  }

  lemma {:induction false} BytesCounted(c: Config, jobs: seq<Job>)
    ensures Bytes(c, jobs) == Sum(c, Stored, jobs)
  {
    if jobs != [] {
      BytesCounted(c, jobs[1..]);
      SumFirst(c, jobs);
    }
  }

  lemma {:induction false} SumFirst(c: Config, jobs: seq<Job>)
    requires jobs != []
    ensures Sum(c, Stored, jobs) == Weight(c, Stored, jobs[0]) + Sum(c, Stored, jobs[1..])
  {
    var last := |jobs| - 1;
    if last > 0 {
      SumFirst(c, jobs[..last]);
      assert jobs[..last][1..] == jobs[1..][..last - 1];
    }
  }

  /**
    The verdict.  A start is admitted if and only if fewer jobs are busy than may run at once, fewer
    are stored than may be stored, and the output stored and expected leaves room for one more; and a
    refusal names the first of these limits that is reached.
   */
  lemma VerdictIff(c: Config, jobs: seq<Job>, now: int, gone: set<Id>)
    requires |jobs| <= c.maxStoredJobs
    ensures var busy, verdict := |BusyJobs(jobs, now, gone)|, Judge(c, jobs, now, gone);
            && (verdict == Admitted <==> Room(c, jobs, now, gone))
            && (verdict == Overloaded <==> busy >= c.maxConcurrent)
            && (verdict == LedgerFull <==> busy < c.maxConcurrent && |jobs| == c.maxStoredJobs)
            && (verdict == BudgetFull <==>
                  busy < c.maxConcurrent && |jobs| < c.maxStoredJobs && Bytes(c, jobs) + c.maxOutputBytes > c.maxStoredOutputBytes)
  {
    BusyCounted(c, jobs, now, gone);
    BytesCounted(c, jobs);
  }

  // ---------------------------------------------------------------- what an expiry leaves

  /** Without the jobs past retention, and without the output past its own. */
  function Survivors(c: Config, jobs: seq<Job>, now: int): seq<Job> {
    if jobs == [] then []
    else
      var front, j := Survivors(c, jobs[..|jobs| - 1], now), jobs[|jobs| - 1];
      if PastRetention(c, j, now) then front else front + [Kept(c, j, now)]
  }

  lemma {:induction false} SurvivorsWereThere(c: Config, jobs: seq<Job>, now: int, i: nat)
    requires i < |Survivors(c, jobs, now)|
    ensures exists k :: 0 <= k < |jobs| && jobs[k].id == Survivors(c, jobs, now)[i].id
  {
    var last := |jobs| - 1;
    var front := jobs[..last];
    if i < |Survivors(c, front, now)| {
      SurvivorsWereThere(c, front, now, i);
      var k :| 0 <= k < |front| && front[k].id == Survivors(c, front, now)[i].id;
      assert jobs[k].id == front[k].id;
    } else {
      assert jobs[last].id == Survivors(c, jobs, now)[i].id;
    }
  }

  lemma ListedOnce(c: Config, jobs: seq<Job>, now: int, n: nat)
    requires Unique(jobs) && n < |jobs|
    ensures var before := Survivors(c, jobs[..n], now);
            Find(before + jobs[n..], jobs[n].id) == Some(|before|)
  {
    var before := Survivors(c, jobs[..n], now);
    var all := before + jobs[n..];
    forall i | 0 <= i < |all| && i != |before|
      ensures all[i].id != jobs[n].id
    {
      if i < |before| {
        SurvivorsWereThere(c, jobs[..n], now, i);
      }
    }
    assert all[|before|] == jobs[n];
  }

  lemma ExpireAt(c: Config, before: seq<Job>, j: Job, rest: seq<Job>, now: int)
    requires Find(before + [j] + rest, j.id) == Some(|before|)
    ensures ExpireOne(c, before + [j] + rest, j, now) ==
            if PastRetention(c, j, now) then before + rest else before + [Kept(c, j, now)] + rest
  {
    var all := before + [j] + rest;
    assert all[..|before|] + all[|before| + 1..] == before + rest;
    assert all[|before| := Kept(c, j, now)] == before + [Kept(c, j, now)] + rest;
    assert all[|before| := j] == all;
  }

  lemma OneMore(c: Config, jobs: seq<Job>, now: int, n: nat)
    requires Unique(jobs) && n < |jobs|
    ensures ExpireOne(c, Survivors(c, jobs[..n], now) + jobs[n..], jobs[n], now) == Survivors(c, jobs[..n + 1], now) + jobs[n + 1..]
  {
    var before := Survivors(c, jobs[..n], now);
    ListedOnce(c, jobs, now, n);
    assert before + jobs[n..] == before + [jobs[n]] + jobs[n + 1..];
    ExpireAt(c, before, jobs[n], jobs[n + 1..], now);
    assert jobs[..n + 1][..n] == jobs[..n];
  }

  lemma {:induction false} ExpiryPrefix(c: Config, jobs: seq<Job>, now: int, n: nat)
    requires Unique(jobs) && n <= |jobs|
    ensures ExpireAll(c, jobs, jobs[..n], now) == Survivors(c, jobs[..n], now) + jobs[n..]
  {
    if n > 0 {
      ExpiryPrefix(c, jobs, now, n - 1);
      assert jobs[..n][..n - 1] == jobs[..n - 1];
      OneMore(c, jobs, now, n - 1);
    }
  }

  /** The store's expiry, which looks up each record of its listing, leaves the survivors in their order. */
  lemma ExpiryLeavesSurvivors(c: Config, jobs: seq<Job>, now: int)
    requires Unique(jobs)
    ensures ExpireAll(c, jobs, jobs, now) == Survivors(c, jobs, now)
  {
    ExpiryPrefix(c, jobs, now, |jobs|);
    assert jobs[..|jobs|] == jobs && jobs[|jobs|..] == [];
  }

  lemma {:induction false} NoMoreThanBefore(c: Config, jobs: seq<Job>, now: int)
    ensures |Survivors(c, jobs, now)| <= |jobs|
  {
    if jobs != [] {
      NoMoreThanBefore(c, jobs[..|jobs| - 1], now);
    }
  }

  // ---------------------------------------------------------------- what a start does

  predicate Held(jobs: seq<Job>, id: Id) { exists i :: 0 <= i < |jobs| && jobs[i].id == id }

  /** The new job beside those that are left, if there is room for it and nobody has reserved its directory. */
  function Decided(c: Config, w: World, left: seq<Job>, id: Id, hash: string, now: int, gone: set<Id>): World {
    if Room(c, left, now, gone) && id !in w.reserved then
      World(left + [Job(id, hash, Starting, now, None, false)], w.reserved, None)
    else World(left, w.reserved, None)
  }

  /**
    A start, in every run.  An identifier that is held changes nothing.  For any other, the expired
    jobs go, and the new one is added if and only if what survives leaves room for it and nobody has
    reserved its directory.
   */
  lemma StartIsDecided(c: Config, events: seq<Event>, id: Id, hash: string, now: int, gone: set<Id>)
    requires Run(c, events).op.None?
    ensures var w := Run(c, events);
            Uninterrupted(c, w, id, hash, now, gone) ==
              if Held(w.jobs, id) then w else Decided(c, w, Survivors(c, w.jobs, now), id, hash, now, gone)
  {
    var w := Run(c, events);
    ListIsComplete(c, events);
    if Find(w.jobs, id).Some? {
      IdleExpire(c, w, |List(w.jobs, c.maxStoredJobs + 1)|, now);
    } else {
      assert !Held(w.jobs, id);
      Unheld(c, w, id, hash, now, gone);
    }
  }

  lemma Unheld(c: Config, w: World, id: Id, hash: string, now: int, gone: set<Id>)
    requires w.op.None? && Find(w.jobs, id).None? && Unique(w.jobs) && |w.jobs| <= c.maxStoredJobs
    ensures Uninterrupted(c, w, id, hash, now, gone) == Decided(c, w, Survivors(c, w.jobs, now), id, hash, now, gone)
  {
    var left := Survivors(c, w.jobs, now);
    ExpireTimesAll(c, Next(c, w, Begin(id, hash)), w.jobs, id, hash, now);
    ExpiryLeavesSurvivors(c, w.jobs, now);
    ExpireAddsNothing(c, w.jobs, w.jobs, now, id);
    NoMoreThanBefore(c, w.jobs, now);
    Decides(c, World(left, w.reserved, Some(Expiring(id, hash, []))), id, hash, now, gone);
  }

  lemma Decides(c: Config, w: World, id: Id, hash: string, now: int, gone: set<Id>)
    requires w.op == Some(Expiring(id, hash, [])) && Find(w.jobs, id).None? && |w.jobs| <= c.maxStoredJobs
    ensures Next(c, Next(c, Next(c, w, Count(now, gone)), Reserve), Record(now)) == Decided(c, w, w.jobs, id, hash, now, gone)
  {
    VerdictIff(c, w.jobs, now, gone);
    FinishStart(c, w, id, hash, now, gone);
    assert id !in w.reserved ==> w.reserved + {id} - {id} == w.reserved;
  }

  // ---------------------------------------------------------------- what a worker reports

  /** The worker of an unfinished job announces itself, or ends it; nothing else in the ledger changes. */
  lemma ReportsAreRecorded(c: Config, events: seq<Event>, i: nat, e: Event)
    requires i < |Run(c, events).jobs| && (e.Runs? || e.Ends?) && e.id == Run(c, events).jobs[i].id
    ensures var w, after := Run(c, events), Next(c, Run(c, events), e);
            var j := w.jobs[i];
            && after == w.(jobs := w.jobs[i := after.jobs[i]])
            && after.jobs[i] ==
                 if e.Runs? && j.state == Starting then j.(state := Running, updatedAt := e.at)
                 else if e.Ends? && j.state in {Starting, Running} && e.outcome !in {Starting, Running} then
                   j.(state := e.outcome, updatedAt := e.at, resultBytes := Some(e.bytes))
                 else j
  {
    ListIsComplete(c, events);
    FindAt(Run(c, events).jobs, i);
  }
}
