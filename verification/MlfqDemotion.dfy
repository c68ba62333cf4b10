/** MLFQ demotion: when a process goes down a level. Only the account of that one process matters, so
    this holds in every run under MLFQ, however MLFQ was entered. */
module MlfqDemotion {
  import opened Words
  import opened Wrappers
  import opened Processes
  import opened SchedulerModel
  import opened SchedulerRuns
  import opened RoundRobinWait
  import opened MlfqRanks
  import opened ProcessFields

  // ---------------------------------------------------------------------------------------------
  // The account of one process over one event
  // ---------------------------------------------------------------------------------------------

  /** Whether x ticks are a whole number of slices. */
  predicate Whole(x: int, slice: nat) {
    if slice == 5 then x % 5 == 0 else if slice == 10 then x % 10 == 0 else x % 20 == 0
  }

  /** A process of level 0 whose allotment will be used up exactly at the end of a slice. */
  predicate Entitled(p: Pcb, onCpu: bool) {
    && p.level == 0 && p.allotment > 0
    && if onCpu then 1 <= p.remainingSlice <= p.allotment && Whole(p.allotment - p.remainingSlice, p.timeSlice)
       else p.allotment % 5 == 0
  }

  predicate SameAccount(p: Pcb, p': Pcb) {
    p'.level == p.level && p'.totalTicks == p.totalTicks && p'.allotment == p.allotment
  }

  /** A charged tick: the allotment goes down by one, and a used-up allotment may demote. */
  predicate Pays(p: Pcb, p': Pcb) {
    && p'.totalTicks == p.totalTicks + 1
    && if p'.level == p.level then p'.allotment == (if p.allotment > 0 then p.allotment - 1 else 0)
       else p'.level == p.level + 1 && p.allotment <= 1 && p'.allotment == FULL_ALLOTMENT
  }

  /** How one event can change the account of a process. */
  predicate Moves(p: Pcb, onCpu: bool, p': Pcb, onCpu': bool) {
    && p'.pid == p.pid
    && ( || SameAccount(p, p')
         || Pays(p, p')
         || (p.level > 0 && p'.level == 0 && p'.totalTicks == p.totalTicks))
    && (Entitled(p, onCpu) && p'.level == 0 ==> Entitled(p', onCpu'))
  }

  /** A queued process is selected, with a slice of its level, or stays queued as it is. */
  lemma SwitchMoves(s: Sys, c: Pcb, p: Pcb) returns (p': Pcb, onCpu': bool)
    requires s.policy.Mlfq? && HasWaiting(s) && (p in Queued(s) || p == Requeued(s.policy, c))
    ensures HeldAs(Switch(s, c), p', onCpu') && Moves(p, false, p', onCpu') && SameAccount(p, p')
  {
    var s1 := Vacated(s, c);
    EnqueueHolds(s1, Requeued(s.policy, c), p);
    var s2 := Enqueue(s1, Requeued(s.policy, c));
    SelectedOrStays(s2, p);
    onCpu' := Select(s2).next == Some(p);
    p' := if onCpu' then SwitchedIn(s.policy, p, s.now) else p;
  }

  lemma WholeSteps(x: nat, slice: nat)
    requires x > 0 && (slice == 5 || slice == 10 || slice == 20) && Whole(x, slice)
    ensures x >= slice && Whole(x - slice, slice) && x % 5 == 0
  {
    if slice == 20 {
      assert x == x / 20 * 20;
    } else if slice == 10 {
      assert x == x / 10 * 10;
    }
  }

  lemma ChargedEntitled(c: Pcb)
    requires Bounded(c) && Entitled(c, true)
    ensures var d := Demoted(Mlfq, Charged(Mlfq, c));
      && (d.remainingSlice > 0 ==> Entitled(Charged(Mlfq, c), true))
      && (d.remainingSlice == 0 && d.level == 0 ==>
           Entitled(d.(remainingSlice := d.timeSlice), true) && Entitled(Requeued(Mlfq, d), false))
  {
    if c.remainingSlice == 1 && c.allotment > 1 {
      WholeSteps(c.allotment - 1, c.timeSlice);
    }
    hide Whole;
  }

  /** A charged tick of the process on the CPU: demoted, off the CPU, or with a new slice. */
  lemma ChargedMoves(c: Pcb)
    requires Bounded(c)
    ensures var d := Demoted(Mlfq, Charged(Mlfq, c));
      && (d.remainingSlice > 0 ==> Moves(c, true, Charged(Mlfq, c), true))
      && (d.remainingSlice == 0 ==> Moves(c, true, d.(remainingSlice := d.timeSlice), true))
      && (d.remainingSlice == 0 ==> Moves(c, true, Requeued(Mlfq, d), false))
  {
    hide Entitled;
    if Entitled(c, true) {
      ChargedEntitled(c);
    }
  }

  lemma MovesTogether(p: Pcb, p1: Pcb, p2: Pcb, c: bool, c1: bool, c2: bool)
    requires Moves(p, c, p1, c1) && Moves(p1, c1, p2, c2) && SameAccount(p1, p2)
    ensures Moves(p, c, p2, c2)
  {
    hide Entitled;
  }

  lemma StaysMoves(p: Pcb)
    ensures forall c :: Moves(p, c, p, c)
  {
  }

  lemma DispatchMoves(s: Sys, p: Pcb) returns (p': Pcb, onCpu': bool)
    requires Ranks(s) && s.policy.Mlfq? && s.ready == [] && s.cur.None? && p in Queued(s)
    ensures HeldAs(Dispatch(s), p', onCpu') && Moves(p, false, p', onCpu') && SameAccount(p, p')
  {
    p', onCpu' := p, false;
    if HasWaiting(s) {
      SelectedOrStays(s, p);
      SelectRanks(s);
      onCpu' := Select(s).next == Some(p);
      p' := if onCpu' then Started(p, s.now) else p;
    }
  }

  lemma StepMoves(s: Sys, p: Pcb, onCpu: bool) returns (p': Pcb, onCpu': bool)
    requires Ranks(s) && s.policy.Mlfq? && s.ready == [] && HeldAs(s, p, onCpu)
    ensures HeldAs(Step(s), p', onCpu') && Moves(p, onCpu, p', onCpu')
    ensures onCpu || SameAccount(p, p')
  {
    hide Switch, Select, Entitled, Moves;
    p', onCpu' := p, onCpu;
    if s.cur.None? {
      p', onCpu' := DispatchMoves(s, p);
    } else {
      var c := s.cur.value;
      var d := Demoted(Mlfq, Charged(Mlfq, c));
      ChargedMoves(c);
      if d.remainingSlice > 0 || !HasWaiting(s) {
        if onCpu {
          p' := Step(s).cur.value;
        } else {
          StaysMoves(p);
        }
      } else if onCpu {
        p', onCpu' := SwitchMoves(s, d, Requeued(Mlfq, d));
        MovesTogether(p, Requeued(Mlfq, d), p', true, false, onCpu');
      } else {
        p', onCpu' := SwitchMoves(s, d, p);
      }
    }
  }

  lemma BoostMoves(s: Sys, p: Pcb, onCpu: bool) returns (p': Pcb)
    requires Ranks(s) && s.policy.Mlfq? && s.ready == [] && HeldAs(s, p, onCpu)
    ensures HeldAs(Boost(s), p', onCpu)
    ensures p' == p || (p.level > 0 && p' == Refreshed(p))
  {
    p' := p;
    if !onCpu && p in s.q1 {
      var k :| 0 <= k < |s.q1| && s.q1[k] == p;
      p' := RefreshAll(s.q1)[k];
    } else if !onCpu && p in s.q2 {
      var k :| 0 <= k < |s.q2| && s.q2[k] == p;
      p' := RefreshAll(s.q2)[k];
    }
  }

  lemma TimerMoves(s: Sys, p: Pcb, onCpu: bool) returns (p': Pcb, onCpu': bool)
    requires Ranks(s) && s.policy.Mlfq? && s.ready == [] && HeldAs(s, p, onCpu)
    ensures HeldAs(TimerTick(s), p', onCpu') && Moves(p, onCpu, p', onCpu')
  {
    hide Step;
    var s1 := s.(now := s.now + 1);
    BoostRanks(s1);
    if BoostDue(s1) {
      var q := BoostMoves(s1, p, onCpu);
      p', onCpu' := StepMoves(Boost(s1), q, onCpu);
    } else {
      p', onCpu' := StepMoves(s1, p, onCpu);
    }
  }

  lemma AddMoves(w: World, pid: nat, p: Pcb, onCpu: bool) returns (p': Pcb)
    requires OnePlace(w) && RanksKept(w) && w.sys.policy.Mlfq? && Holds(w, p, onCpu)
    ensures Holds(AddPid(w, pid), p', onCpu) && Moves(p, onCpu, p', onCpu)
  {
    p' := p;
    if pid in w.away {
      var x := Admitted(w.sys, w.away[pid]);
      if p in Queued(w.sys) {
        EnqueueHolds(w.sys, x, p);
      } else if p.pid == pid && !onCpu {
        EnqueueHolds(w.sys, x, x);
        p' := x;
      }
    }
  }

  lemma BlockMoves(w: World, pid: nat, p: Pcb, onCpu: bool) returns (p': Pcb)
    requires OnePlace(w) && w.sys.policy.Mlfq? && Holds(w, p, onCpu) && !IsCurrent(w.sys, pid)
    ensures Holds(BlockPid(w, pid), p', onCpu) && Moves(p, onCpu, p', onCpu)
  {
    p' := p;
    HoldsUnique(w, p, onCpu);
    if p.pid == pid {
      CountQueued(w.sys, pid);
      FindCorrect(Queued(w.sys), pid);
      p' := p.(state := Blocked);
    } else if pid !in w.away && p in Queued(w.sys) {
      RemoveHolds(w.sys, pid, p);
    }
  }

  lemma UnblockMoves(w: World, pid: nat, p: Pcb, onCpu: bool) returns (p': Pcb)
    requires OnePlace(w) && RanksKept(w) && w.sys.policy.Mlfq? && Holds(w, p, onCpu)
    ensures Holds(UnblockPid(w, pid), p', onCpu) && Moves(p, onCpu, p', onCpu)
  {
    hide AddPid, Count, Held, Queued;
    p' := p;
    if pid in w.away && w.away[pid].state.Blocked? {
      var w1 := w.(away := w.away[pid := w.away[pid].(blockReason := 0)]);
      assert forall x :: Places(w1, x) == Places(w, x);
      HoldsUnique(w, p, onCpu);
      var q := if p.pid == pid then w1.away[pid] else p;
      p' := AddMoves(w1, pid, q, onCpu);
    }
  }

  lemma EventMoves(w: World, e: Event, p: Pcb, onCpu: bool) returns (p': Pcb, onCpu': bool)
    requires OnePlace(w) && RanksKept(w) && w.sys.policy.Mlfq? && Holds(w, p, onCpu)
    requires e.Block? ==> !IsCurrent(w.sys, e.pid)
    requires e.ChangePolicy? ==> e.policy.Mlfq?
    ensures Holds(Next(w, e), p', onCpu') && Moves(p, onCpu, p', onCpu')
  {
    hide TimerTick, Boost, AddPid, BlockPid, UnblockPid;
    p', onCpu' := p, onCpu;
    match e {
      case Create(_, _, _, _, _) =>
      case Add(other) => p' := AddMoves(w, other, p, onCpu);
      case Block(other) => p' := BlockMoves(w, other, p, onCpu);
      case Unblock(other) => p' := UnblockMoves(w, other, p, onCpu);
      case BoostAll =>
        if HeldAs(w.sys, p, onCpu) {
          p' := BoostMoves(w.sys, p, onCpu);
        }
      case ChangePolicy(_) =>
      case Timer =>
        if HeldAs(w.sys, p, onCpu) {
          p', onCpu' := TimerMoves(w.sys, p, onCpu);
        }
    }
  }

  /** One event changes the account of a process only by a charged tick, which may demote it, by a boost
      or by a re-admission; and a process entitled to an exact demotion stays so. */
  lemma NextMoves(w: World, e: Event, pid: nat)
    requires OnePlace(w) && RanksKept(w) && w.sys.policy.Mlfq? && Known(w, pid)
    requires e.Block? ==> !IsCurrent(w.sys, e.pid)
    requires e.ChangePolicy? ==> e.policy.Mlfq?
    ensures OnePlace(Next(w, e)) && RanksKept(Next(w, e)) && Next(w, e).sys.policy.Mlfq? && Known(Next(w, e), pid)
    ensures Moves(PcbOf(w, pid), IsCurrent(w.sys, pid), PcbOf(Next(w, e), pid), IsCurrent(Next(w, e).sys, pid))
  {
    hide Next, OnePlace, RanksKept, Holds, Known, PcbOf;
    NextKeepsOnePlace(w, e);
    NextKeepsRanks(w, e);
    StaysMlfq(w, e);
    PcbOfHeld(w, pid);
    var p', onCpu' := EventMoves(w, e, PcbOf(w, pid), IsCurrent(w.sys, pid));
    HoldsUnique(Next(w, e), p', onCpu');
  }

  // ---------------------------------------------------------------------------------------------
  // Demotion over whole runs
  // ---------------------------------------------------------------------------------------------

  /** In every state of the run but perhaps the last, the process is at the given level. */
  predicate StaysAtLevel(w: World, es: seq<Event>, pid: nat, level: nat)
    decreases |es|
  {
    es == [] ||
    (Known(w, pid) && PcbOf(w, pid).level == level && StaysAtLevel(Next(w, es[0]), es[1..], pid, level))
  }

  /** Demotion comes exactly with the last tick of the allotment. */
  predicate DemotedExactly(p: Pcb, p': Pcb) {
    var charged := p'.totalTicks - p.totalTicks;
    if p'.level == 0 then charged < p.allotment && p'.allotment == p.allotment - charged
    else p'.level == 1 && charged == p.allotment
  }

  lemma EntitledHas(w: World, pid: nat)
    requires Known(w, pid)
    ensures Entitled(PcbOf(w, pid), IsCurrent(w.sys, pid)) ==> PcbOf(w, pid).level == 0 && PcbOf(w, pid).allotment > 0
  {
  }

  /** A process with allotment a that stays at its level is never demoted before a charged ticks. From
      level 0 it is demoted with exactly the a-th, whatever preemptions, blockings and arrivals come
      between, if its allotment ends with a slice. */
  lemma {:induction false} DemotionByAllotment(w: World, es: seq<Event>, pid: nat)
    requires OnePlace(w) && RanksKept(w) && w.sys.policy.Mlfq? && Known(w, pid)
    requires SparesCurrent(w, es) && MlfqOnly(es)
    requires StaysAtLevel(w, es, pid, PcbOf(w, pid).level)
    ensures Known(Run(w, es), pid)
    ensures var p, p' := PcbOf(w, pid), PcbOf(Run(w, es), pid); var charged := p'.totalTicks - p.totalTicks;
      && charged >= 0
      && (p'.level == p.level + 1 ==> charged >= p.allotment && p'.allotment == FULL_ALLOTMENT)
      && (p'.level == p.level ==> p'.allotment >= p.allotment - charged)
      && (Entitled(p, IsCurrent(w.sys, pid)) ==> DemotedExactly(p, p'))
    decreases |es|
  {
    hide OnePlace, RanksKept, Known, PcbOf, Entitled;
    EntitledHas(w, pid);
    if es != [] {
      var e, w' := es[0], Next(w, es[0]);
      assert e in es;
      NextMoves(w, e, pid);
      EntitledHas(w', pid);
      if PcbOf(w', pid).level == PcbOf(w, pid).level {
        DemotionByAllotment(w', es[1..], pid);
      }
    }
  }

  // ---------------------------------------------------------------------------------------------
  // When demotion is exact
  // ---------------------------------------------------------------------------------------------

  /** In every run at level 0 that spares the process on the CPU, demotion is exact. */
  ghost predicate AlwaysExact(w: World, pid: nat) {
    Known(w, pid) && forall es | SparesCurrent(w, es) && MlfqOnly(es) && StaysAtLevel(w, es, pid, 0) ::
      Known(Run(w, es), pid) && DemotedExactly(PcbOf(w, pid), PcbOf(Run(w, es), pid))
  }

  /** A run that charges the whole allotment and leaves the process at level 0. */
  predicate Overdue(w: World, es: seq<Event>, pid: nat) {
    && SparesCurrent(w, es) && MlfqOnly(es) && StaysAtLevel(w, es, pid, 0)
    && Known(w, pid) && Known(Run(w, es), pid)
    && PcbOf(Run(w, es), pid).level == 0
    && PcbOf(Run(w, es), pid).totalTicks >= PcbOf(w, pid).totalTicks + PcbOf(w, pid).allotment
  }

  lemma OverdueNext(w: World, e: Event, es: seq<Event>, pid: nat)
    requires !(e.Block? && IsCurrent(w.sys, e.pid)) && (e.ChangePolicy? ==> e.policy.Mlfq?)
    requires Known(w, pid) && PcbOf(w, pid).level == 0 && Overdue(Next(w, e), es, pid)
    requires PcbOf(Next(w, e), pid).totalTicks + PcbOf(Next(w, e), pid).allotment
          >= PcbOf(w, pid).totalTicks + PcbOf(w, pid).allotment
    ensures Overdue(w, [e] + es, pid)
  {
    hide Next, PcbOf, Known;
    assert ([e] + es)[1..] == es;
  }

  lemma RemovePidShortens(q: seq<Pcb>, pid: nat)
    ensures |RemovePid(q, pid)| == |q| - if Count(q, pid) > 0 then 1 else 0
  {
  }

  lemma BlockShortens(w: World, q: Pcb)
    requires OnePlace(w) && w.sys.policy.Mlfq? && q in Queued(w.sys)
    ensures var w' := Next(w, Block(q.pid));
      && w'.sys == RemoveProcess(w.sys, q.pid) && |Queued(w'.sys)| < |Queued(w.sys)|
      && !IsCurrent(w.sys, q.pid) && w'.away.Keys == w.away.Keys + {q.pid}
  {
    HoldsUnique(w, q, false);
    assert Places(w, q.pid) <= 1;
    CountQueued(w.sys, q.pid);
    FindOnly(Queued(w.sys), q);
    RemovePidShortens(w.sys.q0, q.pid);
    RemovePidShortens(w.sys.q1, q.pid);
    RemovePidShortens(w.sys.q2, q.pid);
  }

  lemma MlfqReady(w: World)
    requires OnePlace(w) && w.sys.policy.Mlfq?
    ensures w.sys.ready == []
  {
  }

  /** Blocking another queued process changes nothing for this one. */
  lemma BlockOther(w: World, q: Pcb, pid: nat)
    requires OnePlace(w) && RanksKept(w) && w.sys.policy.Mlfq? && q in Queued(w.sys) && q.pid != pid
    requires Known(w, pid) && pid !in w.away
    ensures var w' := Next(w, Block(q.pid));
      && OnePlace(w') && RanksKept(w') && w'.sys.policy.Mlfq? && w'.sys.cur == w.sys.cur && pid !in w'.away
      && |Queued(w'.sys)| < |Queued(w.sys)| && !IsCurrent(w.sys, q.pid)
      && Known(w', pid) && PcbOf(w', pid) == PcbOf(w, pid)
  {
    hide OnePlace, RanksKept, Next, Known, PcbOf, RemovePid, Queued;
    var p, onCpu := PcbOf(w, pid), IsCurrent(w.sys, pid);
    BlockShortens(w, q);
    PcbOfHeld(w, pid);
    NextKeepsOnePlace(w, Block(q.pid));
    NextKeepsRanks(w, Block(q.pid));
    if !onCpu {
      MlfqReady(w);
      RemoveHolds(w.sys, q.pid, p);
    }
    HoldsUnique(Next(w, Block(q.pid)), p, onCpu);
  }

  /** What a tick does when nothing is queued. */
  lemma AloneSteps(s: Sys)
    requires s.policy.Mlfq? && s.cur.Some? && s.ready == [] && s.q0 == [] && s.q1 == [] && s.q2 == []
    ensures var s' := TimerTick(s); var d := Demoted(Mlfq, Charged(Mlfq, s.cur.value));
      && s'.policy.Mlfq? && s'.ready == [] && s'.q0 == [] && s'.q1 == [] && s'.q2 == []
      && s'.cur == Some(if d.remainingSlice > 0 then d else d.(remainingSlice := d.timeSlice))
  {
    hide Switch, Select;
    var s1 := s.(now := s.now + 1);
    assert Boost(s1) == s1.(lastBoost := s1.now);
  }

  lemma AloneCharged(c: Pcb)
    requires Bounded(c) && c.level == 0 && 0 < c.allotment < WORD && !Entitled(c, true) && c.remainingSlice < WORD
    ensures var d := Demoted(Mlfq, Charged(Mlfq, c));
      var c' := if d.remainingSlice > 0 then d else d.(remainingSlice := d.timeSlice);
      && c'.pid == c.pid && c'.level == 0 && c'.allotment == c.allotment - 1 && c'.totalTicks == c.totalTicks + 1
      && (c'.allotment > 0 ==> !Entitled(c', true))
  {
  }

  /** One tick of a process alone at level 0 whose allotment does not end with a slice. */
  lemma AloneTicks(w: World, pid: nat)
    requires OnePlace(w) && RanksKept(w) && w.sys.policy.Mlfq? && IsCurrent(w.sys, pid) && Queued(w.sys) == []
    requires w.sys.cur.value.level == 0 && 0 < w.sys.cur.value.allotment < WORD && !Entitled(w.sys.cur.value, true)
    ensures var w' := Next(w, Timer); var c := w.sys.cur.value;
      && OnePlace(w') && RanksKept(w') && w'.sys.policy.Mlfq? && IsCurrent(w'.sys, pid) && Queued(w'.sys) == []
      && var c' := w'.sys.cur.value;
      && c'.level == 0 && c'.allotment == c.allotment - 1 && c'.totalTicks == c.totalTicks + 1
      && (c'.allotment > 0 ==> !Entitled(c', true))
  {
    hide OnePlace, TimerTick, Entitled, Demoted, Charged;
    NextKeepsOnePlace(w, Timer);
    NextKeepsRanks(w, Timer);
    AloneSteps(w.sys);
    AloneCharged(w.sys.cur.value);
  }

  lemma CurrentPcb(w: World, pid: nat)
    requires OnePlace(w) && IsCurrent(w.sys, pid)
    ensures Known(w, pid) && PcbOf(w, pid) == w.sys.cur.value && pid !in w.away
  {
    HoldsUnique(w, w.sys.cur.value, true);
    assert Places(w, pid) <= 1;
  }

  lemma NothingLeft(w: World, pid: nat)
    requires Known(w, pid) && PcbOf(w, pid).level == 0 && PcbOf(w, pid).allotment == 0
    ensures Overdue(w, [], pid)
  {
  }

  lemma OthersQueued(w: World, pid: nat)
    requires OnePlace(w) && IsCurrent(w.sys, pid)
    ensures forall q :: q in Queued(w.sys) ==> q.pid != pid
  {
    forall q | q in Queued(w.sys) ensures q.pid != pid {
      HoldsUnique(w, q, false);
    }
  }

  /** The others blocked, the process on the CPU is alone; its allotment then ends within a slice. */
  lemma {:induction false} OverdueCurrent(w: World, pid: nat) returns (es: seq<Event>)
    requires OnePlace(w) && RanksKept(w) && w.sys.policy.Mlfq? && IsCurrent(w.sys, pid)
    requires w.sys.cur.value.level == 0 && 0 < w.sys.cur.value.allotment < WORD && !Entitled(w.sys.cur.value, true)
    ensures Overdue(w, es, pid)
    decreases |Queued(w.sys)|, w.sys.cur.value.allotment
  {
    hide OnePlace, RanksKept, Next, Queued, Known, PcbOf, Entitled, Overdue;
    CurrentPcb(w, pid);
    var e: Event;
    if Queued(w.sys) != [] {
      var q := Queued(w.sys)[0];
      OthersQueued(w, pid);
      BlockOther(w, q, pid);
      e := Block(q.pid);
      es := OverdueCurrent(Next(w, e), pid);
      CurrentPcb(Next(w, e), pid);
    } else {
      AloneTicks(w, pid);
      e := Timer;
      CurrentPcb(Next(w, e), pid);
      if w.sys.cur.value.allotment > 1 {
        es := OverdueCurrent(Next(w, e), pid);
      } else {
        es := [];
        NothingLeft(Next(w, e), pid);
      }
    }
    OverdueNext(w, e, es, pid);
    es := [e] + es;
  }

  /** A process alone in the queue of level 0 takes the CPU when the slice there ends. */
  lemma OnlyQueuedSteps(s: Sys)
    requires s.policy.Mlfq? && s.ready == [] && |s.q0| == 1 && s.q1 == [] && s.q2 == [] && s.q0[0].timeSlice == 5
    requires s.q0[0].level == 0
    ensures var s' := Step(s); var p := s.q0[0];
      if Handover(s) > 1 then
        s'.q0 == s.q0 && s'.q1 == [] && s'.q2 == [] && s'.cur.Some? && s'.cur.value.pid == s.cur.value.pid
        && Handover(s') == Handover(s) - 1
      else
        s'.cur.Some? && s'.cur.value.pid == p.pid && SameAccount(p, s'.cur.value)
        && s'.cur.value.remainingSlice == s'.cur.value.timeSlice == 5
  {
    if s.cur.Some? {
      var d := Demoted(Mlfq, Charged(Mlfq, s.cur.value));
      assert (s.q0 + [Requeued(Mlfq, d)])[0] == s.q0[0];
    }
  }

  lemma OnlyQueuedTicks(w: World, pid: nat)
    requires OnePlace(w) && RanksKept(w) && w.sys.policy.Mlfq? && !IsCurrent(w.sys, pid)
    requires |w.sys.q0| == 1 && w.sys.q0[0].pid == pid && w.sys.q1 == [] && w.sys.q2 == []
    ensures var w' := Next(w, Timer); var p := w.sys.q0[0];
      && OnePlace(w') && RanksKept(w') && w'.sys.policy.Mlfq?
      && if Handover(w.sys) > 1 then
           w'.sys.q0 == [p] && w'.sys.q1 == [] && w'.sys.q2 == [] && !IsCurrent(w'.sys, pid)
           && Handover(w'.sys) == Handover(w.sys) - 1
         else
           IsCurrent(w'.sys, pid) && SameAccount(p, w'.sys.cur.value)
           && w'.sys.cur.value.remainingSlice == w'.sys.cur.value.timeSlice == 5
  {
    hide OnePlace, Step;
    NextKeepsOnePlace(w, Timer);
    NextKeepsRanks(w, Timer);
    StaysMlfq(w, Timer);
    MlfqReady(w);
    var s1 := w.sys.(now := w.sys.now + 1);
    OnlyQueuedSteps(s1);
    OnlyQueuedSteps(Boost(s1));
  }

  lemma OnlyQueued(w: World, pid: nat)
    requires OnePlace(w) && RanksKept(w) && w.sys.policy.Mlfq? && Known(w, pid) && pid !in w.away
    requires !IsCurrent(w.sys, pid) && PcbOf(w, pid).level == 0
    requires forall q :: q in Queued(w.sys) ==> q.pid == pid
    ensures |w.sys.q0| == 1 && w.sys.q0[0] == PcbOf(w, pid) && w.sys.q1 == [] && w.sys.q2 == []
    ensures PcbOf(w, pid).pid == pid
  {
    var p := PcbOf(w, pid);
    PcbOfHeld(w, pid);
    forall q | q in Queued(w.sys) ensures q == p {
      HoldsUnique(w, q, false);
    }
    assert forall q :: q in w.sys.q1 || q in w.sys.q2 ==> q in Queued(w.sys);
    CountQueued(w.sys, pid);
    assert Places(w, pid) <= 1;
  }

  lemma QueuedPcb(w: World, p: Pcb)
    requires OnePlace(w) && p in w.sys.q0 && !IsCurrent(w.sys, p.pid)
    ensures Known(w, p.pid) && PcbOf(w, p.pid) == p && p.pid !in w.away
  {
    HoldsUnique(w, p, false);
    assert Places(w, p.pid) <= 1;
    CountQueued(w.sys, p.pid);
  }

  lemma SameQueue(w: World, w': World)
    requires OnePlace(w) && OnePlace(w') && w.sys.policy.Mlfq? && w'.sys.policy.Mlfq?
    requires |w.sys.q0| == |w'.sys.q0| && w.sys.q1 == w'.sys.q1 && w.sys.q2 == w'.sys.q2
    ensures |Queued(w.sys)| == |Queued(w'.sys)|
  {
  }

  /** The others blocked, a queued process comes to the CPU with a slice of 5 and its account as it is. */
  lemma {:induction false} OverdueQueued(w: World, pid: nat) returns (es: seq<Event>)
    requires OnePlace(w) && RanksKept(w) && w.sys.policy.Mlfq? && Known(w, pid) && pid !in w.away
    requires !IsCurrent(w.sys, pid) && PcbOf(w, pid).level == 0
    requires 0 < PcbOf(w, pid).allotment < WORD && PcbOf(w, pid).allotment % 5 != 0
    ensures Overdue(w, es, pid)
    decreases |Queued(w.sys)|, Handover(w.sys)
  {
    hide OnePlace, RanksKept, Next, Queued, Known, PcbOf, Overdue, Handover;
    var e: Event;
    if q :| q in Queued(w.sys) && q.pid != pid {
      BlockOther(w, q, pid);
      e := Block(q.pid);
      es := OverdueQueued(Next(w, e), pid);
    } else {
      OnlyQueued(w, pid);
      OnlyQueuedTicks(w, pid);
      e := Timer;
      if Handover(w.sys) > 1 {
        QueuedPcb(Next(w, e), w.sys.q0[0]);
        SameQueue(w, Next(w, e));
        es := OverdueQueued(Next(w, e), pid);
      } else {
        CurrentPcb(Next(w, e), pid);
        es := OverdueCurrent(Next(w, e), pid);
      }
    }
    OverdueNext(w, e, es, pid);
    es := [e] + es;
  }

  lemma AwayPcb(w: World, pid: nat)
    requires OnePlace(w) && w.sys.policy.Mlfq? && pid in w.away
    ensures Known(w, pid) && PcbOf(w, pid) == w.away[pid] && w.away[pid].pid == pid && !IsCurrent(w.sys, pid)
    ensures !Schedulable(w.away[pid])
  {
    assert Places(w, pid) <= 1;
  }

  lemma OverdueAway(w: World, pid: nat) returns (es: seq<Event>)
    requires OnePlace(w) && RanksKept(w) && w.sys.policy.Mlfq? && pid in w.away && w.away[pid].level == 0
    requires 0 < w.away[pid].allotment < WORD && w.away[pid].allotment % 5 != 0
    ensures Overdue(w, es, pid)
  {
    hide OnePlace, RanksKept, Queued, Overdue, Known, PcbOf;
    var e := Add(pid);
    NextKeepsOnePlace(w, e);
    NextKeepsRanks(w, e);
    AwayPcb(w, pid);
    QueuedPcb(Next(w, e), Admitted(w.sys, w.away[pid]));
    es := OverdueQueued(Next(w, e), pid);
    OverdueNext(w, e, es, pid);
    es := [e] + es;
  }

  /** Demotion from level 0 is exact in every run exactly when the allotment is a whole number of slices
      away: counted from the end of the slice for the process on the CPU, in fives for any other. */
  lemma DemotionExactIff(w: World, pid: nat)
    requires OnePlace(w) && RanksKept(w) && w.sys.policy.Mlfq? && Known(w, pid)
    requires PcbOf(w, pid).level == 0 && 0 < PcbOf(w, pid).allotment < WORD
    ensures AlwaysExact(w, pid) <==> Entitled(PcbOf(w, pid), IsCurrent(w.sys, pid))
  {
    hide OnePlace, RanksKept, Queued, Known, PcbOf, Run, SparesCurrent, StaysAtLevel;
    if Entitled(PcbOf(w, pid), IsCurrent(w.sys, pid)) {
      forall es | SparesCurrent(w, es) && MlfqOnly(es) && StaysAtLevel(w, es, pid, 0)
        ensures Known(Run(w, es), pid) && DemotedExactly(PcbOf(w, pid), PcbOf(Run(w, es), pid))
      {
        DemotionByAllotment(w, es, pid);
      }
    } else {
      var es: seq<Event>;
      if IsCurrent(w.sys, pid) {
        CurrentPcb(w, pid);
        es := OverdueCurrent(w, pid);
      } else if pid in w.away {
        AwayPcb(w, pid);
        es := OverdueAway(w, pid);
      } else {
        es := OverdueQueued(w, pid);
      }
      assert !DemotedExactly(PcbOf(w, pid), PcbOf(Run(w, es), pid));
    }
  }

  /** From the boot of the kernel: a process charged one tick of its round-robin slice before the change
      to MLFQ is not demoted with its thirtieth tick in every run. */
  lemma ChangeDelaysDemotion(now: nat)
    ensures var w := Run(Run(Start(RoundRobin, now), FIRST), [Timer, ChangePolicy(Mlfq)]);
      OnePlace(w) && w.sys.policy.Mlfq? && IsCurrent(w.sys, 1) && w.sys.cur.value.allotment == 30 && !AlwaysExact(w, 1)
  {
    hide AlwaysExact, OnePlace, RanksKept;
    FirstRuns(RoundRobin, now);
    ReachableRanks(RoundRobin, now, FIRST);
    var first := Run(Start(RoundRobin, now), FIRST);
    var es := [Timer, ChangePolicy(Mlfq)];
    NoBlockSpares(first, es);
    RunKeepsRanks(first, es);
    RunTwo(first, Timer, ChangePolicy(Mlfq));
    var w := Run(first, es);
    CurrentPcb(w, 1);
    DemotionExactIff(w, 1);
  }
}
