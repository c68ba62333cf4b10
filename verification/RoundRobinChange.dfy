/** A live change to round robin: who is served when, and when the slice of the process on the CPU,
    which the change does not touch, keeps everybody else waiting. */
module RoundRobinChange {
  import opened Words
  import opened Wrappers
  import opened Processes
  import opened SchedulerModel
  import opened SchedulerRuns
  import opened RoundRobinWait
  import opened MlfqRanks
  import opened MlfqFairness

  lemma WaitIsPositive(s: Sys, pid: nat)
    ensures Wait(s, pid) >= 1
  {
  }

  lemma {:induction false} CurrentOrWaits(w: World, es: seq<Event>, pid: nat)
    requires OnePlace(w) && Waits(w.sys, pid) && RoundRobinOnly(es)
    ensures GetsCpu(w, es, pid) <==> Ticks(es) >= Wait(w.sys, pid)
    decreases |es|
  {
    hide OnePlace, TimerTick, Wait;
    WaitIsPositive(w.sys, pid);
    if es != [] {
      var e, w' := es[0], Next(w, es[0]);
      assert e in es;
      NextKeepsOnePlace(w, e);
      if e.Timer? {
        TimerCountsDown(w.sys, pid);
        if Wait(w.sys, pid) > 1 {
          CurrentOrWaits(w', es[1..], pid);
        }
      } else {
        OtherEventsKeepWait(w, e, pid);
        CurrentOrWaits(w', es[1..], pid);
      }
    }
  }

  /** Under round robin the process at position k gets the CPU exactly if the ticks of the run cover the
      rest of the current slice and the slices of the k processes ahead. */
  lemma ServedIff(w: World, es: seq<Event>, k: nat)
    requires OnePlace(w) && w.sys.policy.RoundRobin? && k < |w.sys.ready| && RoundRobinOnly(es)
    ensures GetsCpu(w, es, w.sys.ready[k].pid) <==>
      Ticks(es) >= Handover(w.sys) + SlicesTicks(w.sys.ready[..k])
  {
    var pid := w.sys.ready[k].pid;
    assert Places(w, pid) <= 1;
    CountPositive(w.sys.ready, k);
    AheadIsPrefix(w.sys.ready, k);
    CurrentOrWaits(w, es, pid);
  }

  lemma SlicesBounded(q: seq<Pcb>)
    requires AllBounded(q)
    ensures SlicesTicks(q) <= Quantum(2) * |q|
  {
  }

  /** Every queued process gets the CPU within 20 ticks for itself and for each process ahead of it. */
  ghost predicate ServesInTurn(w: World) {
    forall es, k | 0 <= k < |w.sys.ready| && RoundRobinOnly(es) && Ticks(es) >= 20 * (k + 1) ::
      GetsCpu(w, es, w.sys.ready[k].pid)
  }

  lemma TickingIsRoundRobin(n: nat)
    ensures RoundRobinOnly(Ticking(n))
  {
  }

  lemma ShortSliceServes(w: World)
    requires OnePlace(w) && RanksKept(w) && w.sys.policy.RoundRobin? && Handover(w.sys) <= 20
    ensures ServesInTurn(w)
  {
    hide GetsCpu, OnePlace, Handover, RoundRobinOnly, SlicesTicks;
    forall es, k | 0 <= k < |w.sys.ready| && RoundRobinOnly(es) && Ticks(es) >= 20 * (k + 1)
      ensures GetsCpu(w, es, w.sys.ready[k].pid)
    {
      ServedIff(w, es, k);
      SlicesBounded(w.sys.ready[..k]);
    }
  }

  lemma LongSliceWithholds(w: World)
    requires OnePlace(w) && w.sys.policy.RoundRobin? && w.sys.ready != [] && Handover(w.sys) > 20
    ensures !ServesInTurn(w)
  {
    hide GetsCpu, OnePlace, Handover, RoundRobinOnly;
    TickingIsRoundRobin(20);
    ServedIff(w, Ticking(20), 0);
    assert !GetsCpu(w, Ticking(20), w.sys.ready[0].pid);
  }

  /** A live change to round robin serves everybody in turn exactly when the process on the CPU has at
      least 1 and at most 20 ticks of its slice left: a slice counted down to 0 under another policy
      wraps. */
  lemma ChangeServesInTurnIff(w: World)
    requires OnePlace(w) && RanksKept(w) && Next(w, ChangePolicy(RoundRobin)).sys.ready != []
    ensures ServesInTurn(Next(w, ChangePolicy(RoundRobin))) <==>
      w.sys.cur.None? || 1 <= w.sys.cur.value.remainingSlice <= 20
  {
    hide ServesInTurn, OnePlace;
    var w' := Next(w, ChangePolicy(RoundRobin));
    NextKeepsOnePlace(w, ChangePolicy(RoundRobin));
    NextKeepsRanks(w, ChangePolicy(RoundRobin));
    if Handover(w'.sys) <= 20 {
      ShortSliceServes(w');
    } else {
      LongSliceWithholds(w');
    }
  }

  /** Two processes under FCFS, the first of them on the CPU for ten ticks, then the change: the other
      one gets the CPU after 2^32 ticks, and not one earlier. */
  lemma WrappedSliceStarves()
    ensures var w := Next(Run(Run(Run(Start(Fcfs, 0), FIRST), SECOND), Ticking(10)), ChangePolicy(RoundRobin));
      && IsQueued(w.sys, 2) && !ServesInTurn(w)
      && forall es :: RoundRobinOnly(es) ==> (GetsCpu(w, es, 2) <==> Ticks(es) >= 0x1_0000_0000)
  {
    hide ServesInTurn, OnePlace, RanksKept, Run, GetsCpu, SparesCurrent, RoundRobinOnly;
    FirstRuns(Fcfs, 0);
    ReachableRanks(Fcfs, 0, FIRST);
    var first := Run(Start(Fcfs, 0), FIRST);
    SecondQueues(first);
    RunKeepsRanks(first, SECOND);
    var start := Run(first, SECOND);
    TickingSpares(start, 10);
    RunKeepsRanks(start, Ticking(10));
    FcfsCountsDown(start, 10);
    var before := Run(start, Ticking(10));
    ChangeServesInTurnIff(before);
    NextKeepsOnePlace(before, ChangePolicy(RoundRobin));
    var w := Next(before, ChangePolicy(RoundRobin));
    CountPositive(w.sys.ready, 0);
    CountQueued(w.sys, 2);
    forall es | RoundRobinOnly(es) ensures GetsCpu(w, es, 2) <==> Ticks(es) >= 0x1_0000_0000 {
      ServedIff(w, es, 0);
    }
  }
}
