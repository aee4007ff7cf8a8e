/**
  The exponential cooldown under any clock: the restarts of a component keep their distance in every
  run over a clock exactly when that clock never steps back at all.
 */
module RestartSpacing {
  import opened Recovery
  import opened RestartBudget

  /** Entry `k` of the run's journal is a performed restart of this component. */
  predicate Restarted(s: Settings, events: seq<Event>, name: string, k: nat) {
    && name in s.names && k < |Run(s, events).journal|
    && Run(s, events).journal[k].Performed? && Run(s, events).journal[k].name == name
  }

  /** It keeps its distance from the restart before. */
  predicate KeepsDistance(s: Settings, events: seq<Event>, name: string, k: nat)
    requires Restarted(s, events, name, k)
  {
    var journal := Run(s, events).journal;
    Spaced(s.policy, Times(journal[..k], name), journal[k].at, journal[k].retained)
  }

  ghost predicate SpacingHolds(clock: seq<real>) {
    forall s: Settings, events: seq<Event>, name: string, k: nat | Clocks(events) == clock && Restarted(s, events, name, k) ::
      KeepsDistance(s, events, name, k)
  }

  lemma {:induction false} AscendingNeverStepsBack(events: seq<Event>, start: real)
    requires Ascending(Clocks(events)) && forall x | x in Clocks(events) :: start <= x
    ensures ClockNeverStepsBack(events, start)
    ensures Clock(events, start) == if Clocks(events) == [] then start else Clocks(events)[|Clocks(events)| - 1]
  {
    if events != [] {
      var init := events[..|events| - 1];
      var n, clock := |Clocks(init)|, Clocks(events);
      assert Clocks(init) == clock[..n];
      assert forall x | x in clock[..n] :: x in clock;
      AscendingNeverStepsBack(init, start);
      if events[|events| - 1].Tick? {
        assert clock[n] == events[|events| - 1].now && clock[n] in clock;
      }
    }
  }

  lemma AscendingKeepsDistance(s: Settings, events: seq<Event>, name: string, k: nat)
    requires Ascending(Clocks(events)) && Restarted(s, events, name, k)
    ensures KeepsDistance(s, events, name, k)
  {
    var start := if Clocks(events) == [] then 0.0 else Clocks(events)[0];
    AscendingNeverStepsBack(events, start);
    RecoveryTiming(s, events, name, start, k);
  }

  // ---------------------------------------------------------------- a clock that steps back

  /** The last restart of a component, with those before it. */
  lemma {:induction false} LastRestart(journal: seq<Entry>, name: string) returns (k: nat)
    requires Times(journal, name) != []
    ensures k < |journal| && journal[k].Performed? && journal[k].name == name
    ensures Times(journal, name) == Times(journal[..k], name) + [journal[k].at]
  {
    var init, e := journal[..|journal| - 1], journal[|journal| - 1];
    if e.Performed? && e.name == name {
      k := |journal| - 1;
    } else {
      k := LastRestart(init, name);
      assert init[..k] == journal[..k];
    }
  }

  lemma CooldownIsPositive(retained: nat)
    ensures Cooldown(ONE_RESTART.policy, retained) >= 0.0
  {
    var factor := Pow2(if retained > 0 then retained - 1 else 0) as real;
    assert factor >= 0.0 && 60.0 * factor >= 0.0;
  }

  /** Two failures on either side of a step back: the second restart comes before the first. */
  lemma StepBackBreaksSpacing(clock: seq<real>, i: nat, k: nat) returns (n: nat)
    requires i < k < |clock| && clock[k] < clock[i] && forall n | 0 <= n < |clock| :: clock[n] >= 0.0
    ensures var events := Forgetful(clock, i, k, k, |clock|);
            && Clocks(events) == clock
            && Restarted(ONE_RESTART, events, "backend", n) && !KeepsDistance(ONE_RESTART, events, "backend", n)
  {
    var events := Forgetful(clock, i, k, k, |clock|);
    ForgetfulClocks(clock, i, k, k, |clock|);
    AfterLast(clock, i, k, k, |clock|);
    var journal := Run(ONE_RESTART, events).journal;
    n := LastRestart(journal, "backend");
    assert Times(journal[..n], "backend") == ([clock[i]] + [clock[k]])[..1] == [clock[i]];
    assert journal[n].at == ([clock[i]] + [clock[k]])[1];
    CooldownIsPositive(journal[n].retained);
  }

  /**
    The cooldown, exactly.  Whatever the policy, the observations, the crashes and the damage, every
    restart performed over a clock keeps its distance if and only if that clock never steps back.
   */
  lemma SpacingIff(clock: seq<real>)
    requires forall n | 0 <= n < |clock| :: clock[n] >= 0.0
    ensures SpacingHolds(clock) <==> Ascending(clock)
  {
    if Ascending(clock) {
      forall s: Settings, events: seq<Event>, name: string, k: nat | Clocks(events) == clock && Restarted(s, events, name, k)
        ensures KeepsDistance(s, events, name, k)
      {
        AscendingKeepsDistance(s, events, name, k);
      }
    } else {
      var i, k :| 0 <= i < k < |clock| && clock[i] > clock[k];
      var n := StepBackBreaksSpacing(clock, i, k);
      assert !SpacingHolds(clock);
    }
  }
}
