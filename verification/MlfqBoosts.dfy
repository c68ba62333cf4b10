/** When MLFQ boosts, and what a boost and a change of policy do to the processes they move. */
module MlfqBoosts {
  import opened Wrappers
  import opened Processes
  import opened SchedulerModel
  import opened SchedulerRuns
  import opened RoundRobinWait
  import opened MlfqRanks
  import opened MlfqFairness

  // ---------------------------------------------------------------------------------------------
  // The processes that are moved
  // ---------------------------------------------------------------------------------------------

  /** At the top with a full allotment and slice, and otherwise as it was. */
  predicate Lifted(p: Pcb, p': Pcb) {
    p' == p.(level := 0, allotment := 30, timeSlice := 5, remainingSlice := 5)
  }

  predicate AllLifted(q: seq<Pcb>, q': seq<Pcb>) {
    |q'| == |q| && forall i :: 0 <= i < |q| ==> Lifted(q[i], q'[i])
  }

  lemma RefreshLifts(q: seq<Pcb>)
    ensures AllLifted(q, RefreshAll(q))
  {
  }

  /** A boost keeps level 0 as it is, puts levels 1 and 2 behind it in their order, lifted, and notes the
      time; under other policies nothing happens. */
  lemma BoostLifts(s: Sys)
    ensures var s', n := Boost(s), |s.q0|;
      if !s.policy.Mlfq? then s' == s
      else
        && s'.q0[..n] == s.q0 && AllLifted(s.q1 + s.q2, s'.q0[n..]) && s'.q1 == [] && s'.q2 == []
        && s' == s.(q0 := s'.q0, q1 := [], q2 := [], lastBoost := s.now)
  {
    RefreshLifts(s.q1);
    RefreshLifts(s.q2);
    if s.policy.Mlfq? {
      assert Boost(s).q0 == s.q0 + (RefreshAll(s.q1) + RefreshAll(s.q2));
      assert Boost(s).q0[|s.q0|..] == RefreshAll(s.q1) + RefreshAll(s.q2);
    }
  }

  /** A change away from MLFQ joins the levels, highest first, and changes no process; a change to MLFQ
      lifts all queued ones and starts the time to the next boost; between other policies nothing moves. */
  lemma ChangeMoves(s: Sys, policy: Policy)
    requires Disciplined(s)
    ensures var s' := SetPolicy(s, policy);
      && s'.policy == policy && s'.cur == s.cur && s'.log == s.log && s'.now == s.now && s'.switches == s.switches
      && (s.policy.Mlfq? && !policy.Mlfq? ==> s'.ready == s.q0 + s.q1 + s.q2 && s'.lastBoost == s.lastBoost)
      && (!s.policy.Mlfq? && policy.Mlfq? ==> AllLifted(s.ready, s'.q0) && s'.lastBoost == s.now)
      && (s.policy.Mlfq? == policy.Mlfq? ==> s' == s.(policy := policy))
  {
    RefreshLifts(s.ready);
  }

  // ---------------------------------------------------------------------------------------------
  // The times of the boosts
  // ---------------------------------------------------------------------------------------------

  lemma SelectStays(s: Sys)
    ensures Select(s).rest.policy == s.policy
  {
  }

  lemma SwitchStays(s: Sys, c: Pcb)
    ensures Switch(s, c).policy == s.policy
  {
    hide Select;
    SelectStays(Enqueue(Vacated(s, c), Requeued(s.policy, c)));
  }

  /** A tick boosts exactly when 500 ticks have passed since the last boost. */
  lemma TickBoostsIff(s: Sys)
    requires s.policy.Mlfq? && s.lastBoost <= s.now < s.lastBoost + 500
    ensures var s' := TimerTick(s);
      && s'.now == s.now + 1 && s'.policy.Mlfq?
      && s'.lastBoost == if s.now + 1 == s.lastBoost + 500 then s.now + 1 else s.lastBoost
  {
    hide Switch, Select, RefreshAll;
    var b := BoostIfDue(s.(now := s.now + 1));
    SelectClock(b);
    if s.cur.Some? {
      SwitchClock(b, Demoted(Mlfq, Charged(Mlfq, s.cur.value)));
      SwitchStays(b, Demoted(Mlfq, Charged(Mlfq, s.cur.value)));
    }
    SelectStays(b);
  }

  lemma OthersKeepClock(w: World, e: Event)
    requires w.sys.policy.Mlfq? && !e.Timer? && !e.BoostAll? && (e.ChangePolicy? ==> e.policy.Mlfq?)
    ensures var s, s' := w.sys, Next(w, e).sys; s'.now == s.now && s'.lastBoost == s.lastBoost && s'.policy.Mlfq?
  {
  }

  predicate NoBoostCalls(es: seq<Event>) {
    forall e :: e in es ==> !e.BoostAll?
  }

  /** The latest whole number of periods of 500 ticks after one boost. */
  function LatestBoost(first: nat, now: nat): nat
    requires first <= now
  {
    first + (now - first) / 500 * 500
  }

  lemma LatestOfLater(first: nat, now: nat)
    ensures first + 500 <= now ==> LatestBoost(first + 500, now) == LatestBoost(first, now)
    ensures first <= now < first + 500 ==> LatestBoost(first, now) == first
  {
  }

  lemma TimerSteps(w: World)
    ensures Next(w, Timer).sys == TimerTick(w.sys)
  {
  }

  /** Over any run under MLFQ without explicit boosts, boosts come every 500 ticks of the timer and at no
      other time: the last one is the latest multiple of 500 ticks after the one before the run. */
  lemma {:induction false} BoostsEvery500(w: World, es: seq<Event>)
    requires w.sys.policy.Mlfq? && w.sys.lastBoost <= w.sys.now < w.sys.lastBoost + 500
    requires MlfqOnly(es) && NoBoostCalls(es)
    ensures var s, s' := w.sys, Run(w, es).sys;
      s'.now == s.now + Ticks(es) && s'.lastBoost == LatestBoost(s.lastBoost, s'.now)
    decreases |es|
  {
    hide LatestBoost, Next;
    LatestOfLater(w.sys.lastBoost, w.sys.now + Ticks(es));
    if es != [] {
      assert es[0] in es;
      if es[0].Timer? {
        TickBoostsIff(w.sys);
        assert Next(w, es[0]).sys == TimerTick(w.sys) by { TimerSteps(w); }
      } else {
        OthersKeepClock(w, es[0]);
      }
      BoostsEvery500(Next(w, es[0]), es[1..]);
    }
  }

  lemma ChangeClock(w: World)
    requires OnePlace(w) && !w.sys.policy.Mlfq?
    ensures var s' := Next(w, ChangePolicy(Mlfq)).sys;
      s'.policy.Mlfq? && s'.lastBoost == w.sys.now && s'.now == w.sys.now
  {
    ChangeMoves(w.sys, Mlfq);
  }

  /** After a change to MLFQ the first boost comes 500 ticks later, and then every 500 ticks. */
  lemma BoostsAfterChange(w: World, es: seq<Event>)
    requires OnePlace(w) && !w.sys.policy.Mlfq? && MlfqOnly(es) && NoBoostCalls(es)
    ensures Run(Next(w, ChangePolicy(Mlfq)), es).sys.lastBoost == w.sys.now + Ticks(es) / 500 * 500
  {
    hide OnePlace;
    ChangeClock(w);
    BoostsEvery500(Next(w, ChangePolicy(Mlfq)), es);
  }
}
