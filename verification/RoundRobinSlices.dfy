/** Runs that never leave round robin: every turn is ten ticks, also when a process succeeds itself. */
module RoundRobinSlices {
  import opened Words
  import opened Wrappers
  import opened Processes
  import opened SchedulerModel
  import opened SchedulerRuns
  import opened RoundRobinWait

  predicate RoundRobinStays(es: seq<Event>) {
    forall e :: e in es ==> (e.ChangePolicy? ==> e.policy.RoundRobin?)
  }

  /** Queued with a slice of ten, used up or not begun. */
  predicate Tenfold(p: Pcb) {
    p.timeSlice == 10 && (p.remainingSlice == 0 || p.remainingSlice == 10)
  }

  /** The process on the CPU has got it a whole number of slices before its present one ends. */
  predicate InTens(s: Sys) {
    && s.policy.RoundRobin?
    && (forall i :: 0 <= i < |s.ready| ==> Tenfold(s.ready[i]))
    && (s.cur.Some? ==>
         var c := s.cur.value;
         && c.timeSlice == 10 && 1 <= c.remainingSlice <= 10 && c.startTick <= s.now
         && (s.now - c.startTick + c.remainingSlice) % 10 == 0)
  }

  lemma SwitchKeepsNow(s: Sys, c: Pcb)
    ensures Switch(s, c).now == s.now
  {
    hide Choice;
  }

  lemma SwitchInTens(s: Sys, c: Pcb)
    requires s.policy.RoundRobin? && s.ready != [] && c.timeSlice == 10 && c.remainingSlice == 0
    requires forall i :: 0 <= i < |s.ready| ==> Tenfold(s.ready[i])
    ensures InTens(Switch(s, c))
  {
    hide Switch;
    HandsToHead(s, c);
    SwitchKeepsNow(s, c);
  }

  lemma TimerInTens(s: Sys)
    requires InTens(s)
    ensures InTens(TimerTick(s))
  {
    hide Switch;
    var s1 := s.(now := s.now + 1);
    if s.cur.None? {
      ChoiceIsHead(s.policy, s.ready);
    } else if s.cur.value.remainingSlice == 1 && s.ready != [] {
      SwitchInTens(s1, Demoted(s.policy, Charged(s.policy, s.cur.value)));
    }
  }

  lemma {:induction false} RemovePidSubset(q: seq<Pcb>, pid: nat, p: Pcb)
    requires p in RemovePid(q, pid)
    ensures p in q
  {
    if q[0].pid != pid && p != q[0] {
      RemovePidSubset(q[1..], pid, p);
    }
  }

  lemma NextInTens(w: World, e: Event)
    requires OnePlace(w) && InTens(w.sys)
    requires (e.Block? ==> !IsCurrent(w.sys, e.pid)) && (e.ChangePolicy? ==> e.policy.RoundRobin?)
    ensures InTens(Next(w, e).sys)
  {
    hide TimerTick, RemovePid;
    match e
    case Timer => TimerInTens(w.sys);
    case Block(pid) =>
      var q := RemovePid(w.sys.ready, pid);
      forall i | 0 <= i < |q| ensures Tenfold(q[i]) {
        RemovePidSubset(w.sys.ready, pid, q[i]);
      }
    case _ =>
  }

  lemma {:induction false} RunInTens(w: World, es: seq<Event>)
    requires OnePlace(w) && InTens(w.sys) && SparesCurrent(w, es) && RoundRobinStays(es)
    ensures InTens(Run(w, es).sys)
    decreases |es|
  {
    hide OnePlace, InTens, Next;
    if es != [] {
      assert es[0] in es;
      NextKeepsOnePlace(w, es[0]);
      NextInTens(w, es[0]);
      RunInTens(Next(w, es[0]), es[1..]);
    }
  }

  /** From the boot of the kernel with round robin: every queued process has a slice of ten, and a process
      on the CPU is a whole number of slices from the end of its present one, counted from when it got it,
      so that each of its slices lasts ten ticks whether anybody waits or not. */
  lemma ReachableInTens(now: nat, es: seq<Event>)
    requires SparesCurrent(Start(RoundRobin, now), es) && RoundRobinStays(es)
    ensures InTens(Run(Start(RoundRobin, now), es).sys) && OnePlace(Run(Start(RoundRobin, now), es))
  {
    ReachableOnePlace(RoundRobin, now, es);
    RunInTens(Start(RoundRobin, now), es);
  }

  lemma {:induction false} TensAhead(q: seq<Pcb>)
    requires forall i :: 0 <= i < |q| ==> Tenfold(q[i])
    ensures SlicesTicks(q) == 10 * |q|
  {
    if q != [] {
      TensAhead(q[1..]);
    }
  }

  /** In such a run the process at position k of the queue waits for the rest of the current slice, at most
      ten ticks, and ten for each process ahead of it, to the tick. */
  lemma TenForEachAhead(now: nat, es: seq<Event>, later: seq<Event>, k: nat)
    requires SparesCurrent(Start(RoundRobin, now), es) && RoundRobinStays(es) && RoundRobinOnly(later)
    requires k < |Run(Start(RoundRobin, now), es).sys.ready|
    ensures var w := Run(Start(RoundRobin, now), es); var pid := w.sys.ready[k].pid;
      var rest := if w.sys.cur.None? then 1 else w.sys.cur.value.remainingSlice;
      && 1 <= rest <= 10
      && (Ticks(later) < rest + 10 * k ==> !IsCurrent(Run(w, later).sys, pid))
      && (Ticks(later) == rest + 10 * k ==> IsCurrent(Run(w, later).sys, pid))
  {
    hide OnePlace, Run;
    var w := Run(Start(RoundRobin, now), es);
    ReachableInTens(now, es);
    TensAhead(w.sys.ready[..k]);
    RoundRobinExactWait(w, later, k);
  }
}
