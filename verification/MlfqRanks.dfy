/** What levels and slices keep in every run, through any changes of policy. The kernel boots with
    round robin and enters MLFQ by a live change, with a process on the CPU whose slice is not one of
    MLFQ's: the discipline of module MlfqLevels does not cover those runs, this one does. */
module MlfqRanks {
  import opened Words
  import opened Wrappers
  import opened Processes
  import opened SchedulerModel
  import opened SchedulerRuns
  import opened RoundRobinWait

  /** The slice was set on admission or by a level of MLFQ. */
  predicate Bounded(p: Pcb) {
    p.level < MLFQ_LEVELS && (p.timeSlice == 5 || p.timeSlice == 10 || p.timeSlice == 20)
  }

  predicate AllBounded(q: seq<Pcb>) {
    forall i :: 0 <= i < |q| ==> Bounded(q[i])
  }

  /** Queued at a level of MLFQ. */
  predicate Ranked(p: Pcb, level: nat) {
    p.level == level && p.timeSlice == Quantum(level)
  }

  predicate AllRanked(q: seq<Pcb>, level: nat) {
    forall i :: 0 <= i < |q| ==> Ranked(q[i], level)
  }

  predicate Ranks(s: Sys) {
    && AllBounded(s.ready) && AllRanked(s.q0, 0) && AllRanked(s.q1, 1) && AllRanked(s.q2, 2)
    && (s.cur.Some? ==> Bounded(s.cur.value) && s.cur.value.remainingSlice < WORD)
    && s.lastBoost <= s.now
  }

  predicate RanksKept(w: World) {
    Ranks(w.sys) && forall pid :: pid in w.away ==> w.away[pid].level < MLFQ_LEVELS
  }

  lemma RemovePidRanks(q: seq<Pcb>, pid: nat, level: nat)
    ensures AllRanked(q, level) ==> AllRanked(RemovePid(q, pid), level)
    ensures AllBounded(q) ==> AllBounded(RemovePid(q, pid))
  {
  }

  lemma EnqueueRanks(s: Sys, p: Pcb)
    requires Ranks(s) && Bounded(p) && (s.policy.Mlfq? ==> Ranked(p, p.level))
    ensures Ranks(Enqueue(s, p)) && Enqueue(s, p).cur == s.cur
  {
  }

  lemma SelectRanks(s: Sys)
    requires Ranks(s) && HasWaiting(s)
    ensures var sel := Select(s); var p := sel.next.value;
      && Ranks(sel.rest) && sel.rest.cur == s.cur && Bounded(p) && (s.policy.Mlfq? ==> Ranked(p, p.level))
  {
    hide Choice;
  }

  lemma SwitchRanks(s: Sys, c: Pcb)
    requires Ranks(s) && HasWaiting(s) && Bounded(c)
    ensures Ranks(Switch(s, c)) && Handover(Switch(s, c)) <= Quantum(2)
  {
    hide Select;
    EnqueueRanks(Vacated(s, c), Requeued(s.policy, c));
    SelectRanks(Enqueue(Vacated(s, c), Requeued(s.policy, c)));
  }

  /** The two policies that end a slice. */
  predicate CountsSlices(policy: Policy) {
    policy.RoundRobin? || policy.Mlfq?
  }

  /** One tick of the slice has passed; after its last one the next slice is at most 20 ticks. */
  predicate Elapses(s: Sys, s': Sys) {
    Handover(s') == Handover(s) - 1 || (Handover(s) == 1 && Handover(s') <= Quantum(2))
  }

  /** Where the policy hands the CPU over, the next slice is at most 20 ticks. */
  lemma StepRanks(s: Sys)
    requires Ranks(s)
    ensures Ranks(Step(s))
    ensures CountsSlices(s.policy) ==> Elapses(s, Step(s))
  {
    hide Switch, Select;
    if s.cur.Some? {
      if HasWaiting(s) {
        SwitchRanks(s, Demoted(s.policy, Charged(s.policy, s.cur.value)));
      }
    } else if HasWaiting(s) {
      SelectRanks(s);
    }
  }

  lemma BoostRanks(s: Sys)
    requires Ranks(s)
    ensures Ranks(Boost(s)) && Handover(Boost(s)) == Handover(s)
  {
  }

  lemma TimerRanks(s: Sys)
    requires Ranks(s)
    ensures Ranks(TimerTick(s))
    ensures CountsSlices(s.policy) ==> Elapses(s, TimerTick(s))
  {
    hide Step;
    var s1 := s.(now := s.now + 1);
    BoostRanks(s1);
    StepRanks(BoostIfDue(s1));
  }

  lemma RemoveRanks(s: Sys, pid: nat)
    requires Ranks(s)
    ensures Ranks(RemoveProcess(s, pid))
  {
    RemovePidRanks(s.ready, pid, 0);
    RemovePidRanks(s.q0, pid, 0);
    RemovePidRanks(s.q1, pid, 1);
    RemovePidRanks(s.q2, pid, 2);
  }

  lemma SetPolicyRanks(s: Sys, policy: Policy)
    requires Ranks(s)
    ensures Ranks(SetPolicy(s, policy)) && Handover(SetPolicy(s, policy)) == Handover(s)
  {
  }

  lemma QueuedRanks(s: Sys, p: Pcb)
    requires Ranks(s) && p in Queued(s)
    ensures Bounded(p)
  {
  }

  lemma Discipline(w: World)
    requires OnePlace(w)
    ensures Disciplined(w.sys) && AwayOk(w.away)
  {
  }

  lemma AddRanks(w: World, pid: nat)
    requires Disciplined(w.sys) && AwayOk(w.away) && RanksKept(w)
    ensures RanksKept(AddPid(w, pid)) && AddPid(w, pid).sys.cur == w.sys.cur
  {
    if pid in w.away {
      EnqueueRanks(w.sys, Admitted(w.sys, w.away[pid]));
    }
  }

  lemma NextKeepsRanks(w: World, e: Event)
    requires OnePlace(w) && RanksKept(w)
    requires e.Block? ==> !IsCurrent(w.sys, e.pid)
    ensures RanksKept(Next(w, e))
    ensures !e.Timer? ==> Handover(Next(w, e).sys) == Handover(w.sys)
  {
    hide Ranks, RemovePid, SetPolicy, Boost, TimerTick, OnePlace, AllReady;
    Discipline(w);
    match e {
      case Create(_, _, _, _, _) =>
      case Add(pid) => AddRanks(w, pid);
      case Block(pid) =>
        if pid !in w.away {
          FindCorrect(Queued(w.sys), pid);
          RemoveRanks(w.sys, pid);
          if Find(Queued(w.sys), pid).Some? {
            QueuedRanks(w.sys, Find(Queued(w.sys), pid).value);
          }
        }
      case Unblock(pid) =>
        if pid in w.away && w.away[pid].state.Blocked? {
          AddRanks(w.(away := w.away[pid := w.away[pid].(blockReason := 0)]), pid);
        }
      case BoostAll => BoostRanks(w.sys);
      case ChangePolicy(policy) => SetPolicyRanks(w.sys, policy);
      case Timer => TimerRanks(w.sys);
    }
  }

  lemma {:induction false} RunKeepsRanks(w: World, es: seq<Event>)
    requires OnePlace(w) && RanksKept(w) && SparesCurrent(w, es)
    ensures OnePlace(Run(w, es)) && RanksKept(Run(w, es))
    decreases |es|
  {
    if es != [] {
      NextKeepsOnePlace(w, es[0]);
      NextKeepsRanks(w, es[0]);
      RunKeepsRanks(Next(w, es[0]), es[1..]);
    }
  }

  /** In every state reachable from scheduler_init, whatever the changes of policy: a process queued at
      level l of MLFQ has level l and the quantum of l as its time slice, and levels stay in 0 to 2. */
  lemma ReachableRanks(policy: Policy, now: nat, es: seq<Event>)
    requires SparesCurrent(Start(policy, now), es)
    ensures OnePlace(Run(Start(policy, now), es)) && RanksKept(Run(Start(policy, now), es))
  {
    RunKeepsRanks(Start(policy, now), es);
  }

  /** No event of the run leaves MLFQ. */
  predicate MlfqOnly(es: seq<Event>) {
    forall e :: e in es ==> (e.ChangePolicy? ==> e.policy.Mlfq?)
  }

  lemma StaysMlfq(w: World, e: Event)
    requires w.sys.policy.Mlfq? && (e.ChangePolicy? ==> e.policy.Mlfq?)
    ensures Next(w, e).sys.policy.Mlfq?
  {
  }

  // ---------------------------------------------------------------------------------------------
  // Runs under the two policies that count slices
  // ---------------------------------------------------------------------------------------------

  predicate SlicedOnly(es: seq<Event>) {
    forall e :: e in es ==> (e.ChangePolicy? ==> CountsSlices(e.policy))
  }

  lemma NextCountsSlices(w: World, e: Event)
    requires OnePlace(w) && RanksKept(w) && CountsSlices(w.sys.policy)
    requires e.Block? ==> !IsCurrent(w.sys, e.pid)
    requires e.ChangePolicy? ==> CountsSlices(e.policy)
    ensures CountsSlices(Next(w, e).sys.policy)
    ensures Handover(Next(w, e).sys) <= Handover(w.sys) || Handover(Next(w, e).sys) <= Quantum(2)
  {
    hide Ranks;
    NextKeepsRanks(w, e);
    if e.Timer? {
      TimerRanks(w.sys);
    }
  }

  lemma {:induction false} SlicedHandover(w: World, es: seq<Event>)
    requires OnePlace(w) && RanksKept(w) && SparesCurrent(w, es) && SlicedOnly(es)
    requires CountsSlices(w.sys.policy) && Handover(w.sys) <= Quantum(2)
    ensures CountsSlices(Run(w, es).sys.policy) && Handover(Run(w, es).sys) <= Quantum(2)
    decreases |es|
  {
    hide OnePlace, RanksKept;
    if es != [] {
      assert es[0] in es;
      NextKeepsOnePlace(w, es[0]);
      NextKeepsRanks(w, es[0]);
      NextCountsSlices(w, es[0]);
      SlicedHandover(Next(w, es[0]), es[1..]);
    }
  }

  /** From the boot of the kernel, as long as only round robin and MLFQ are chosen, the rest of the
      slice of the process on the CPU is at most 20 ticks. */
  lemma BootHandover(policy: Policy, now: nat, es: seq<Event>)
    requires CountsSlices(policy) && SparesCurrent(Start(policy, now), es) && SlicedOnly(es)
    ensures Handover(Run(Start(policy, now), es).sys) <= Quantum(2)
  {
    SlicedHandover(Start(policy, now), es);
  }
}
