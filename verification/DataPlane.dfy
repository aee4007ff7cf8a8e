/**
  The router's data plane: how many requests are admitted, how many each generation owns, and
  which exchanges a cancellation may reach.  The maps are exactly what the live requests say.
 */
module DataPlane {
  import opened Wrappers
  import opened Registry

  /** The digest that scopes a cancellation: credentials, session and typed request id. */
  type Key = string

  /** A live request, before and after it has been assigned to a generation. */
  datatype Request = Reading | Owned(owner: Id, key: Option<Key>, isOpen: bool, cancelled: bool)

  datatype Traffic = Traffic(
    shut: bool, admitted: int, inFlight: map<Id, int>, exchanges: map<Key, set<nat>>, live: map<nat, Request>)

  datatype Event =
    | Admit(request: nat)
    | Dispatch(request: nat, owner: Id, key: Option<Key>, isOpen: bool)
    | Cancel(key: Option<Key>)
    | Finish(request: nat)
    | Shut

  const MAX_ADMITTED: int := 256

  const QUIET := Traffic(false, 0, map[], map[], map[])

  function Get(inFlight: map<Id, int>, owner: Id, default: int): int {
    if owner in inFlight then inFlight[owner] else default
  }

  /** The exchanges a cancellation names. */
  function Matches(t: Traffic, key: Option<Key>): set<nat> {
    if key.Some? && key.value in t.exchanges then t.exchanges[key.value] else {}
  }

  function Opened(exchanges: map<Key, set<nat>>, key: Key, request: nat): map<Key, set<nat>> {
    exchanges[key := (if key in exchanges then exchanges[key] else {}) + {request}]
  }

  function Closed(exchanges: map<Key, set<nat>>, key: Key, request: nat): map<Key, set<nat>> {
    if key !in exchanges then exchanges
    else if exchanges[key] - {request} == {} then exchanges - {key}
    else exchanges[key := exchanges[key] - {request}]
  }

  function MarkCancelled(live: map<nat, Request>, targets: set<nat>): map<nat, Request> {
    map r | r in live :: if r in targets && live[r].Owned? then live[r].(cancelled := true) else live[r]
  }

  function Next(t: Traffic, e: Event): Traffic {
    match e
    case Admit(r) =>
      if r in t.live || t.admitted >= MAX_ADMITTED || t.shut then t else
        t.(admitted := t.admitted + 1, live := t.live[r := Reading])
    case Dispatch(r, owner, key, isOpen) =>
      if r !in t.live || t.live[r].Owned? then t else
        t.(inFlight := t.inFlight[owner := Get(t.inFlight, owner, 0) + 1],
           live := t.live[r := Owned(owner, key, isOpen, false)],
           exchanges := if isOpen && key.Some? then Opened(t.exchanges, key.value, r) else t.exchanges)
    case Cancel(key) =>
      if |Matches(t, key)| > 1 then t else t.(live := MarkCancelled(t.live, Matches(t, key)))
    case Finish(r) =>
      if r !in t.live then t else
        var q := t.live[r];
        var rest := t.(admitted := t.admitted - 1, live := t.live - {r});
        if q.Reading? then rest else
          var left := Get(t.inFlight, q.owner, 1) - 1;
          rest.(inFlight := t.inFlight[q.owner := if left > 0 then left else 0],
                exchanges := if q.isOpen && q.key.Some? then Closed(t.exchanges, q.key.value, r) else t.exchanges)
    case Shut => t.(shut := true)
  }

  function Run(events: seq<Event>): Traffic {
    if events == [] then QUIET else Next(Run(events[..|events| - 1]), events[|events| - 1])
  }

  // ---------------------------------------------------------------- what the maps stand for

  function OwnedBy(live: map<nat, Request>, owner: Id): set<nat> {
    set r | r in live && live[r].Owned? && live[r].owner == owner
  }

  function OpenUnder(live: map<nat, Request>, key: Key): set<nat> {
    set r | r in live && live[r].Owned? && live[r].isOpen && live[r].key == Some(key)
  }

  ghost predicate CountsOwners(t: Traffic) {
    forall owner :: Get(t.inFlight, owner, 0) == |OwnedBy(t.live, owner)|
  }

  ghost predicate GroupsExchanges(t: Traffic) {
    forall key :: if key in t.exchanges then t.exchanges[key] == OpenUnder(t.live, key) != {} else OpenUnder(t.live, key) == {}
  }

  ghost predicate Accurate(t: Traffic) {
    && t.admitted == |t.live| <= MAX_ADMITTED
    && CountsOwners(t) && GroupsExchanges(t)
  }

  lemma NewcomerUncounted(live: map<nat, Request>, r: nat, owner: Id, key: Key)
    requires r !in live
    ensures OwnedBy(live[r := Reading], owner) == OwnedBy(live, owner)
    ensures OpenUnder(live[r := Reading], key) == OpenUnder(live, key)
  {
  }

  lemma AdmitAccurate(t: Traffic, r: nat)
    requires Accurate(t)
    ensures Accurate(Next(t, Admit(r)))
  {
    var after := Next(t, Admit(r));
    if after != t {
      assert after.live.Keys == t.live.Keys + {r};
      AdmitCounts(t, after, r);
      AdmitGroups(t, after, r);
    }
  }

  lemma AdmitCounts(t: Traffic, after: Traffic, r: nat)
    requires CountsOwners(t) && r !in t.live && after.live == t.live[r := Reading] && after.inFlight == t.inFlight
    ensures CountsOwners(after)
  {
    forall owner
      ensures Get(after.inFlight, owner, 0) == |OwnedBy(after.live, owner)|
    {
      NewcomerUncounted(t.live, r, owner, "");
    }
  }

  lemma AdmitGroups(t: Traffic, after: Traffic, r: nat)
    requires GroupsExchanges(t) && r !in t.live && after.live == t.live[r := Reading] && after.exchanges == t.exchanges
    ensures GroupsExchanges(after)
  {
    forall key
      ensures OpenUnder(after.live, key) == OpenUnder(t.live, key)
    {
      NewcomerUncounted(t.live, r, "", key);
    }
  }

  lemma AssignedOwners(live: map<nat, Request>, r: nat, q: Request, owner: Id)
    requires r in live && live[r].Reading? && q.Owned?
    ensures q.owner == owner ==> |OwnedBy(live[r := q], owner)| == |OwnedBy(live, owner)| + 1
    ensures q.owner != owner ==> OwnedBy(live[r := q], owner) == OwnedBy(live, owner)
  {
    if q.owner == owner {
      assert OwnedBy(live[r := q], owner) == OwnedBy(live, owner) + {r};
    }
  }

  lemma DispatchCounts(t: Traffic, r: nat, owner: Id, key: Option<Key>, isOpen: bool)
    requires CountsOwners(t) && r in t.live && t.live[r].Reading?
    ensures CountsOwners(Next(t, Dispatch(r, owner, key, isOpen)))
  {
    var q := Owned(owner, key, isOpen, false);
    forall other
      ensures Get(Next(t, Dispatch(r, owner, key, isOpen)).inFlight, other, 0) == |OwnedBy(t.live[r := q], other)|
    {
      AssignedOwners(t.live, r, q, other);
    }
  }

  lemma DispatchGroups(t: Traffic, r: nat, owner: Id, key: Option<Key>, isOpen: bool)
    requires GroupsExchanges(t) && r in t.live && t.live[r].Reading?
    ensures GroupsExchanges(Next(t, Dispatch(r, owner, key, isOpen)))
  {
    var after := Next(t, Dispatch(r, owner, key, isOpen));
    forall k
      ensures OpenUnder(after.live, k) == OpenUnder(t.live, k) + if isOpen && key == Some(k) then {r} else {}
    {
    }
    if isOpen && key.Some? {
      assert r in OpenUnder(after.live, key.value);
    }
  }

  lemma DispatchAccurate(t: Traffic, r: nat, owner: Id, key: Option<Key>, isOpen: bool)
    requires Accurate(t)
    ensures Accurate(Next(t, Dispatch(r, owner, key, isOpen)))
  {
    if r in t.live && t.live[r].Reading? {
      DispatchCounts(t, r, owner, key, isOpen);
      DispatchGroups(t, r, owner, key, isOpen);
      assert Next(t, Dispatch(r, owner, key, isOpen)).live.Keys == t.live.Keys;
    }
  }

  lemma CancelAccurate(t: Traffic, key: Option<Key>)
    requires Accurate(t)
    ensures Accurate(Next(t, Cancel(key)))
  {
    var after := Next(t, Cancel(key));
    assert after.live.Keys == t.live.Keys;
    forall owner
      ensures OwnedBy(after.live, owner) == OwnedBy(t.live, owner)
    {
    }
    forall k
      ensures OpenUnder(after.live, k) == OpenUnder(t.live, k)
    {
    }
  }

  lemma FinishCounts(t: Traffic, r: nat)
    requires CountsOwners(t) && r in t.live
    ensures CountsOwners(Next(t, Finish(r)))
  {
    forall owner
      ensures Get(Next(t, Finish(r)).inFlight, owner, 0) == |OwnedBy(t.live - {r}, owner)|
    {
      assert OwnedBy(t.live - {r}, owner) == OwnedBy(t.live, owner) - {r};
      assert r in OwnedBy(t.live, owner) <==> t.live[r].Owned? && t.live[r].owner == owner;
    }
  }

  lemma FinishGroups(t: Traffic, r: nat)
    requires GroupsExchanges(t) && r in t.live
    ensures GroupsExchanges(Next(t, Finish(r)))
  {
    var q := t.live[r];
    forall key
      ensures OpenUnder(t.live - {r}, key) == OpenUnder(t.live, key) - {r}
      ensures r in OpenUnder(t.live, key) <==> q.Owned? && q.isOpen && q.key == Some(key)
    {
    }
  }

  lemma FinishAccurate(t: Traffic, r: nat)
    requires Accurate(t)
    ensures Accurate(Next(t, Finish(r)))
  {
    if r in t.live {
      FinishCounts(t, r);
      FinishGroups(t, r);
      assert Next(t, Finish(r)).live.Keys == t.live.Keys - {r};
    }
  }

  lemma NextAccurate(t: Traffic, e: Event)
    requires Accurate(t)
    ensures Accurate(Next(t, e))
  {
    match e
    case Admit(r) => AdmitAccurate(t, r);
    case Dispatch(r, owner, key, isOpen) => DispatchAccurate(t, r, owner, key, isOpen);
    case Cancel(key) => CancelAccurate(t, key);
    case Finish(r) => FinishAccurate(t, r);
    case Shut =>
  }

  /**
    In every run the admission count is the number of live requests and at most 256, the in-flight
    count of a generation is the number of requests it owns, and an exchange group is exactly the
    non-empty set of live exchanges under its key.
   */
  lemma {:induction false} EveryRunAccurate(events: seq<Event>)
    ensures Accurate(Run(events))
  {
    if events == [] {
      assert forall owner :: OwnedBy(map[], owner) == {};
      assert forall key :: OpenUnder(map[], key) == {};
    } else {
      EveryRunAccurate(events[..|events| - 1]);
      NextAccurate(Run(events[..|events| - 1]), events[|events| - 1]);
    }
  }

  /** The clamp at zero never binds: a request that ends was counted. */
  lemma ClampNeverBinds(events: seq<Event>, r: nat)
    requires var t := Run(events); r in t.live && t.live[r].Owned?
    ensures var t := Run(events); t.live[r].owner in t.inFlight && t.inFlight[t.live[r].owner] >= 1
  {
    var t := Run(events);
    EveryRunAccurate(events);
    assert r in OwnedBy(t.live, t.live[r].owner);
  }

  /** A cancellation reaches exactly the one live exchange under its key, or none at all. */
  lemma CancelReachesOneOrNone(events: seq<Event>, key: Option<Key>)
    ensures var t := Run(events);
            var after := Next(t, Cancel(key));
            var open := if key.Some? then OpenUnder(t.live, key.value) else {};
            && after.live.Keys == t.live.Keys
            && (|open| != 1 ==> after.live == t.live)
            && forall r | r in t.live :: after.live[r] == if |open| == 1 && r in open then t.live[r].(cancelled := true) else t.live[r]
  {
    var t := Run(events);
    EveryRunAccurate(events);
    var open := if key.Some? then OpenUnder(t.live, key.value) else {};
    assert Matches(t, key) == open;
  }

  /** Shutting down is never taken back. */
  lemma {:induction false} ShutIff(events: seq<Event>)
    ensures Run(events).shut <==> Shut in events
  {
    if events != [] {
      ShutIff(events[..|events| - 1]);
      assert events == events[..|events| - 1] + [events[|events| - 1]];
    }
  }

  /**
    The life of a request, in every run.  It is admitted exactly while fewer than 256 are live and the
    router has not been shut down; it ends exactly when it finishes; meanwhile it is assigned to an
    owner once, and is marked as cancelled exactly when it is the only live exchange under the key.
   */
  lemma RequestFollows(events: seq<Event>, e: Event, r: nat)
    ensures var live, after := Run(events).live, Next(Run(events), e).live;
            && (r in after <==> (r in live && e != Finish(r)) || (e == Admit(r) && |live| < 256 && Shut !in events))
            && (r in after ==>
                  after[r] ==
                    if r !in live then Reading
                    else if e.Dispatch? && e.request == r && live[r] == Reading then Owned(e.owner, e.key, e.isOpen, false)
                    else if e.Cancel? && e.key.Some? && OpenUnder(live, e.key.value) == {r} then live[r].(cancelled := true)
                    else live[r])
  {
    var t := Run(events);
    EveryRunAccurate(events);
    ShutIff(events);
    if e.Cancel? {
      CancelReachesOneOrNone(events, e.key);
      var open := if e.key.Some? then OpenUnder(t.live, e.key.value) else {};
      if |open| == 1 && r in open {
        OnlyMember(open, r);
      }
    }
  }

  lemma OnlyMember(s: set<nat>, r: nat)
    requires |s| == 1 && r in s
    ensures s == {r}
  {
    assert |s - {r}| == 0;
  }

  function Total(inFlight: map<Id, int>, owners: seq<Id>): int {
    if owners == [] then 0 else Get(inFlight, owners[0], 0) + Total(inFlight, owners[1..])
  }

  /** The in-flight counts of any distinct generations add up to at most the admission count. */
  lemma InFlightWithinAdmitted(events: seq<Event>, owners: seq<Id>)
    requires forall i, j | 0 <= i < j < |owners| :: owners[i] != owners[j]
    ensures Total(Run(events).inFlight, owners) <= Run(events).admitted
  {
    var t := Run(events);
    EveryRunAccurate(events);
    var all := TotalIsUnion(t, owners);
    SubsetSize(all, t.live.Keys);
  }

  lemma {:induction false} TotalIsUnion(t: Traffic, owners: seq<Id>) returns (all: set<nat>)
    requires CountsOwners(t) && forall i, j | 0 <= i < j < |owners| :: owners[i] != owners[j]
    ensures Total(t.inFlight, owners) == |all|
    ensures forall r | r in all :: r in t.live && t.live[r].Owned? && t.live[r].owner in owners
  {
    if owners == [] {
      all := {};
    } else {
      var rest := TotalIsUnion(t, owners[1..]);
      var mine := OwnedBy(t.live, owners[0]);
      assert mine !! rest;
      all := mine + rest;
    }
  }

  lemma {:induction false} SubsetSize(small: set<nat>, large: set<nat>)
    requires small <= large
    ensures |small| <= |large|
  {
    assert large == small + (large - small);
  }

  // ---------------------------------------------------------------- the bookkeeping object

  class Bookkeeping {
    var shut: bool
    var admitted: int
    var inFlight: map<Id, int>
    var exchanges: map<Key, set<nat>>
    var live: map<nat, Request>

    ghost function View(): Traffic
      reads this
    {
      Traffic(shut, admitted, inFlight, exchanges, live)
    }

    constructor ()
      ensures View() == QUIET
    {
      shut, admitted, inFlight, exchanges, live := false, 0, map[], map[], map[];
    }

    method Admit(r: nat) returns (ok: bool)
      requires r !in live
      modifies this
      ensures View() == Next(old(View()), Event.Admit(r))
      ensures ok <==> old(admitted) < MAX_ADMITTED && !shut
    {
      if admitted >= MAX_ADMITTED || shut {
        return false;
      }
      admitted := admitted + 1;
      live := live[r := Reading];
      return true;
    }

    /** From the choice of the owner to the opening of the exchange, without an await. */
    method Dispatch(r: nat, owner: Id, key: Option<Key>, isOpen: bool)
      requires r in live && live[r].Reading?
      modifies this
      ensures View() == Next(old(View()), Event.Dispatch(r, owner, key, isOpen))
    {
      inFlight := inFlight[owner := Get(inFlight, owner, 0) + 1];
      live := live[r := Owned(owner, key, isOpen, false)];
      if isOpen && key.Some? {
        var group := if key.value in exchanges then exchanges[key.value] else {};
        exchanges := exchanges[key.value := group + {r}];
      }
    }

    method Cancel(key: Option<Key>) returns (ambiguous: bool)
      modifies this
      ensures View() == Next(old(View()), Event.Cancel(key))
      ensures ambiguous <==> |Matches(old(View()), key)| > 1
    {
      var matches: set<nat> := if key.Some? && key.value in exchanges then exchanges[key.value] else {};
      ambiguous := |matches| > 1;
      if !ambiguous {
        live := MarkCancelled(live, matches);
      }
    }

    /** The `finally` block of a request. */
    method Finish(r: nat)
      requires r in live
      modifies this
      ensures View() == Next(old(View()), Event.Finish(r))
    {
      var q := live[r];
      admitted := admitted - 1;
      live := live - {r};
      if q.Owned? {
        var left := Get(inFlight, q.owner, 1) - 1;
        inFlight := inFlight[q.owner := if left > 0 then left else 0];
        if q.isOpen && q.key.Some? && q.key.value in exchanges {
          var group := exchanges[q.key.value] - {r};
          if group == {} {
            exchanges := exchanges - {q.key.value};
          } else {
            exchanges := exchanges[q.key.value := group];
          }
        }
      }
    }
  }
}
