/** The multi-level feedback queue when it is the policy from the start: what its levels, slices and
    allotments keep over whole runs, and what a live change to it breaks. */
module MlfqLevels {
  import opened Wrappers
  import opened Processes
  import opened SchedulerModel
  import opened SchedulerRuns
  import opened MlfqRanks

  predicate AtLevel(p: Pcb, level: nat) {
    Ranked(p, level) && p.allotment % 5 == 0
  }

  predicate LevelQueue(q: seq<Pcb>, level: nat) {
    forall i :: 0 <= i < |q| ==> AtLevel(q[i], level)
  }

  /** The current process: its slice may date from a higher level than the one it was demoted to. */
  predicate CurrentAtLevel(c: Pcb) {
    && c.level < MLFQ_LEVELS
    && (c.timeSlice == 5 || c.timeSlice == 10 || c.timeSlice == 20) && c.timeSlice <= Quantum(c.level)
    && 1 <= c.remainingSlice <= c.timeSlice
    && (c.allotment > 0 ==> (c.allotment - c.remainingSlice) % 5 == 0)
  }

  predicate Levels(s: Sys) {
    && s.policy.Mlfq?
    && LevelQueue(s.q0, 0) && LevelQueue(s.q1, 1) && LevelQueue(s.q2, 2)
    && (s.cur.Some? ==> CurrentAtLevel(s.cur.value))
    && s.lastBoost <= s.now
  }

  /** The level discipline, with what the processes outside the queues will bring back. */
  predicate LevelDiscipline(w: World) {
    && Levels(w.sys)
    && forall pid :: pid in w.away ==> w.away[pid].level < MLFQ_LEVELS && w.away[pid].allotment % 5 == 0
  }

  lemma RemovePidLevel(q: seq<Pcb>, pid: nat, level: nat)
    requires LevelQueue(q, level)
    ensures LevelQueue(RemovePid(q, pid), level)
  {
  }

  /** One charged tick that uses the slice up leaves an allotment that is again a multiple of 5. */
  lemma ChargedLevel(c: Pcb)
    requires CurrentAtLevel(c)
    ensures var d := Demoted(Mlfq, Charged(Mlfq, c));
      && (d.remainingSlice > 0 ==> CurrentAtLevel(d))
      && (d.remainingSlice == 0 ==> d.allotment % 5 == 0 && CurrentAtLevel(d.(remainingSlice := d.timeSlice)))
      && d.level < MLFQ_LEVELS
  {
  }

  lemma EnqueueLevels(s: Sys, p: Pcb)
    requires Levels(s) && p.level < MLFQ_LEVELS && AtLevel(p, p.level)
    ensures Levels(Enqueue(s, p)) && Enqueue(s, p).cur == s.cur
  {
  }

  lemma SelectLevels(s: Sys)
    requires Levels(s) && HasWaiting(s)
    ensures var sel := Select(s); var p := sel.next.value;
      && Levels(sel.rest) && sel.rest.cur == s.cur && sel.rest.now == s.now
      && p.level < MLFQ_LEVELS && AtLevel(p, p.level)
  {
  }

  lemma SwitchLevels(s: Sys, c: Pcb)
    requires Levels(s) && HasWaiting(s) && c.level < MLFQ_LEVELS && c.allotment % 5 == 0
    ensures Levels(Switch(s, c))
  {
    var s1 := Vacated(s, c);
    EnqueueLevels(s1, Requeued(s.policy, c));
    SelectLevels(Enqueue(s1, Requeued(s.policy, c)));
  }

  lemma StepLevels(s: Sys)
    requires Levels(s)
    ensures Levels(Step(s))
  {
    hide Switch, Select;
    if s.cur.Some? {
      var c := Demoted(Mlfq, Charged(Mlfq, s.cur.value));
      ChargedLevel(s.cur.value);
      if c.remainingSlice == 0 && HasWaiting(s) {
        SwitchLevels(s, c);
      }
    } else if HasWaiting(s) {
      SelectLevels(s);
    }
  }

  lemma BoostLevels(s: Sys)
    requires Levels(s)
    ensures Levels(Boost(s))
  {
  }

  lemma TimerLevels(s: Sys)
    requires Levels(s)
    ensures Levels(TimerTick(s))
  {
    hide Step;
    var s1 := s.(now := s.now + 1);
    BoostLevels(s1);
    StepLevels(BoostIfDue(s1));
  }

  lemma RemoveLevels(s: Sys, pid: nat)
    requires Levels(s)
    ensures Levels(RemoveProcess(s, pid))
  {
    RemovePidLevel(s.q0, pid, 0);
    RemovePidLevel(s.q1, pid, 1);
    RemovePidLevel(s.q2, pid, 2);
  }

  lemma QueuedLevels(s: Sys, p: Pcb)
    requires Levels(s) && s.ready == [] && p in Queued(s)
    ensures p.level < MLFQ_LEVELS && p.allotment % 5 == 0
  {
  }

  lemma NextKeepsLevels(w: World, e: Event)
    requires OnePlace(w) && LevelDiscipline(w)
    requires e.Block? ==> !IsCurrent(w.sys, e.pid)
    requires e.ChangePolicy? ==> e.policy.Mlfq?
    ensures LevelDiscipline(Next(w, e))
  {
    match e
    case Block(pid) =>
      if pid !in w.away {
        FindCorrect(Queued(w.sys), pid);
        RemoveLevels(w.sys, pid);
        if Find(Queued(w.sys), pid).Some? {
          QueuedLevels(w.sys, Find(Queued(w.sys), pid).value);
        }
      }
    case Add(pid) =>
      if pid in w.away {
        EnqueueLevels(w.sys, Admitted(w.sys, w.away[pid]));
      }
    case Unblock(pid) =>
      if pid in w.away {
        EnqueueLevels(w.sys, Admitted(w.sys, w.away[pid].(blockReason := 0)));
      }
    case BoostAll => BoostLevels(w.sys);
    case Timer => TimerLevels(w.sys);
    case _ =>
  }

  /** From an empty MLFQ scheduler, every reachable state keeps the level discipline. */
  lemma {:induction false} RunKeepsLevels(w: World, es: seq<Event>)
    requires OnePlace(w) && LevelDiscipline(w) && SparesCurrent(w, es) && MlfqOnly(es)
    ensures OnePlace(Run(w, es)) && LevelDiscipline(Run(w, es))
    decreases |es|
  {
    if es != [] {
      assert es[0] in es;
      NextKeepsOnePlace(w, es[0]);
      NextKeepsLevels(w, es[0]);
      RunKeepsLevels(Next(w, es[0]), es[1..]);
    }
  }

  /** In every state reachable from scheduler_init with MLFQ, without leaving MLFQ. */
  lemma ReachableLevels(now: nat, es: seq<Event>)
    requires SparesCurrent(Start(Mlfq, now), es) && MlfqOnly(es)
    ensures LevelDiscipline(Run(Start(Mlfq, now), es)) && OnePlace(Run(Start(Mlfq, now), es))
  {
    RunKeepsLevels(Start(Mlfq, now), es);
  }

  /** What a live change asks of the process on the CPU and of those outside the queues: every queued
      process starts afresh. */
  lemma ChangeKeepsLevelsIff(w: World)
    requires OnePlace(w) && RanksKept(w) && !w.sys.policy.Mlfq?
    ensures LevelDiscipline(Next(w, ChangePolicy(Mlfq))) <==>
      && (w.sys.cur.Some? ==> CurrentAtLevel(w.sys.cur.value))
      && forall pid :: pid in w.away ==> w.away[pid].allotment % 5 == 0
  {
    assert FULL_ALLOTMENT % 5 == 0;
  }

  /** Under round robin a process starts with a slice of 10, which is no slice of level 0: from the boot
      of the kernel, the change breaks the discipline as soon as a process runs. */
  lemma ChangeBreaksLevels(now: nat)
    ensures !LevelDiscipline(Next(Run(Start(RoundRobin, now), FIRST), ChangePolicy(Mlfq)))
  {
    FirstRuns(RoundRobin, now);
    ReachableRanks(RoundRobin, now, FIRST);
    ChangeKeepsLevelsIff(Run(Start(RoundRobin, now), FIRST));
  }
}
