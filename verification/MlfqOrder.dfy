/** MLFQ selection below the top level: the CPU always goes to the first process of the lowest-numbered
    level that is not empty, and nobody overtakes. */
module MlfqOrder {
  import opened Wrappers
  import opened Processes
  import opened SchedulerModel
  import opened SchedulerRuns
  import opened MlfqRanks
  import opened MlfqFairness

  /** The queued processes in the order in which they are to be served. */
  function Line(s: Sys): seq<Pcb> {
    s.q0 + s.q1 + s.q2
  }

  /** The line after a process has joined its level at the tail. */
  function LineWith(s: Sys, c: Pcb): seq<Pcb> {
    if c.level == 0 then s.q0 + [c] + s.q1 + s.q2
    else if c.level == 1 then s.q0 + s.q1 + [c] + s.q2
    else s.q0 + s.q1 + s.q2 + [c]
  }

  /** No process of the line has a level below this one. */
  predicate NoneAbove(line: seq<Pcb>, level: nat) {
    forall i :: 0 <= i < |line| ==> level <= line[i].level
  }

  /** The first of the line is on the CPU and has left the line. */
  predicate TakesFirst(line: seq<Pcb>, s': Sys) {
    && line != [] && s'.cur.Some? && s'.cur.value.pid == line[0].pid && s'.cur.value.level == line[0].level
    && Line(s') == line[1..] && NoneAbove(Line(s'), s'.cur.value.level)
  }

  lemma LineRanked(s: Sys)
    requires Ranks(s) && Line(s) != []
    ensures NoneAbove(Line(s)[1..], Line(s)[0].level)
  {
  }

  lemma SelectTakesFirst(s: Sys)
    requires s.policy.Mlfq?
    ensures HasWaiting(s) <==> Line(s) != []
    ensures HasWaiting(s) ==> Select(s).next == Some(Line(s)[0]) && Line(Select(s).rest) == Line(s)[1..]
  {
  }

  lemma EnqueueJoinsLevel(s: Sys, c: Pcb)
    requires s.policy.Mlfq?
    ensures Line(Enqueue(s, c)) == LineWith(s, c) && Enqueue(s, c).policy.Mlfq?
  {
  }

  lemma SameLevels(s: Sys, s': Sys, c: Pcb)
    requires s'.q0 == s.q0 && s'.q1 == s.q1 && s'.q2 == s.q2
    ensures LineWith(s', c) == LineWith(s, c) && Line(s') == Line(s)
  {
  }

  lemma SwitchTakesFirst(s: Sys, c: Pcb)
    requires s.policy.Mlfq? && Ranks(s) && HasWaiting(s) && Bounded(c)
    ensures TakesFirst(LineWith(s, Requeued(Mlfq, c)), Switch(s, c))
  {
    hide Select, Enqueue, LineWith;
    var s1 := Enqueue(Vacated(s, c), Requeued(Mlfq, c));
    EnqueueRanks(Vacated(s, c), Requeued(Mlfq, c));
    EnqueueJoinsLevel(Vacated(s, c), Requeued(Mlfq, c));
    SelectTakesFirst(s1);
    LineRanked(s1);
    SameLevels(s, Vacated(s, c), Requeued(Mlfq, c));
  }

  /** The process on the CPU as it goes back to its queue when its slice is used up. */
  function GoneBack(c: Pcb): Pcb {
    Requeued(Mlfq, Demoted(Mlfq, Charged(Mlfq, c)))
  }

  lemma GoesBack(c: Pcb)
    requires c.remainingSlice == 1
    ensures var c' := GoneBack(c);
      && c'.pid == c.pid && c'.totalTicks == c.totalTicks + 1
      && c'.level == if c.allotment <= 1 && c.level < 2 then c.level + 1 else c.level
  {
  }

  lemma BoundedBack(s: Sys)
    requires Ranks(s) && s.cur.Some?
    ensures Bounded(Demoted(Mlfq, Charged(Mlfq, s.cur.value)))
  {
  }

  lemma DispatchTakesFirst(s: Sys)
    requires s.policy.Mlfq? && Ranks(s) && s.cur.None? && HasWaiting(s)
    ensures TakesFirst(Line(s), Dispatch(s))
  {
    hide Select;
    SelectTakesFirst(s);
    LineRanked(s);
  }

  lemma StepServesFirst(s: Sys)
    requires s.policy.Mlfq? && Ranks(s)
    ensures s.cur.None? && Line(s) == [] ==> Step(s).cur.None? && Line(Step(s)) == []
    ensures s.cur.None? && Line(s) != [] ==> TakesFirst(Line(s), Step(s))
    ensures s.cur.Some? && (s.cur.value.remainingSlice != 1 || Line(s) == []) ==>
      IsCurrent(Step(s), s.cur.value.pid) && Line(Step(s)) == Line(s)
    ensures s.cur.Some? && s.cur.value.remainingSlice == 1 && Line(s) != [] ==>
      TakesFirst(LineWith(s, GoneBack(s.cur.value)), Step(s))
  {
    hide Switch, Select, Ranks, LineWith, TakesFirst;
    SelectTakesFirst(s);
    if s.cur.None? {
      if HasWaiting(s) {
        DispatchTakesFirst(s);
      }
    } else if s.cur.value.remainingSlice == 1 && HasWaiting(s) {
      BoundedBack(s);
      SwitchTakesFirst(s, Demoted(Mlfq, Charged(Mlfq, s.cur.value)));
    }
  }

  lemma LaterRanks(s: Sys)
    requires Ranks(s)
    ensures Ranks(s.(now := s.now + 1))
  {
  }

  /** One tick under MLFQ, after the boost that may be due. The process on the CPU keeps it until its slice
      is used up. Then it goes to the tail of its level, and the first process of the lowest-numbered level
      that is not empty takes the CPU; no queued process then has a smaller level, and all others keep
      their order. An idle CPU is taken the same way. */
  lemma TickServesFirst(s: Sys)
    requires s.policy.Mlfq? && Ranks(s)
    ensures var b, s' := BoostIfDue(s.(now := s.now + 1)), TimerTick(s);
      && (s.cur.None? && Line(b) == [] ==> s'.cur.None? && Line(s') == [])
      && (s.cur.None? && Line(b) != [] ==> TakesFirst(Line(b), s'))
      && (s.cur.Some? && (s.cur.value.remainingSlice != 1 || Line(b) == []) ==>
           IsCurrent(s', s.cur.value.pid) && Line(s') == Line(b))
      && (s.cur.Some? && s.cur.value.remainingSlice == 1 && Line(b) != [] ==>
           TakesFirst(LineWith(b, GoneBack(s.cur.value)), s'))
  {
    hide Step, Ranks, LineWith, TakesFirst, RefreshAll, Line;
    var s1 := s.(now := s.now + 1);
    LaterRanks(s);
    BoostRanks(s1);
    StepServesFirst(BoostIfDue(s1));
  }

  // ---------------------------------------------------------------------------------------------
  // Nobody overtakes
  // ---------------------------------------------------------------------------------------------

  predicate In(q: seq<Pcb>, pid: nat) {
    Count(q, pid) > 0
  }

  /** p comes before r in the sequence. */
  predicate Ahead(q: seq<Pcb>, p: nat, r: nat) {
    q != [] && ((q[0].pid == p && In(q[1..], r)) || Ahead(q[1..], p, r))
  }

  lemma AheadConcat(a: seq<Pcb>, b: seq<Pcb>, p: nat, r: nat)
    ensures Ahead(a + b, p, r) <==> Ahead(a, p, r) || Ahead(b, p, r) || (In(a, p) && In(b, r))
  {
    if a == [] {
      assert a + b == b;
    } else {
      assert (a + b)[1..] == a[1..] + b;
      CountConcat(a[1..], b, r);
      AheadConcat(a[1..], b, p, r);
    }
  }

  lemma AheadIn(q: seq<Pcb>, p: nat, r: nat)
    requires Ahead(q, p, r)
    ensures In(q, p) && In(q, r)
  {
  }

  lemma RemoveKeepsAhead(q: seq<Pcb>, other: nat, p: nat, r: nat)
    requires other != p && other != r
    ensures Ahead(RemovePid(q, other), p, r) == Ahead(q, p, r)
    ensures In(RemovePid(q, other), p) == In(q, p) && In(RemovePid(q, other), r) == In(q, r)
  {
    CountRemovePid(q, other, p);
    CountRemovePid(q, other, r);
    if q != [] && q[0].pid != other {
      RemoveKeepsAhead(q[1..], other, p, r);
    }
  }

  lemma RefreshKeepsAhead(q: seq<Pcb>, p: nat, r: nat)
    ensures Ahead(RefreshAll(q), p, r) == Ahead(q, p, r)
    ensures In(RefreshAll(q), p) == In(q, p) && In(RefreshAll(q), r) == In(q, r)
  {
    CountSamePids(q, RefreshAll(q), p);
    CountSamePids(q, RefreshAll(q), r);
    if q != [] {
      assert RefreshAll(q)[1..] == RefreshAll(q[1..]);
      RefreshKeepsAhead(q[1..], p, r);
    }
  }

  /** A process that joins somewhere does not change who is ahead of whom. */
  lemma JoinKeepsAhead(a: seq<Pcb>, x: Pcb, b: seq<Pcb>, p: nat, r: nat)
    requires Ahead(a + b, p, r)
    ensures Ahead(a + [x] + b, p, r)
  {
    AheadConcat(a, b, p, r);
    AheadConcat(a, [x], p, r);
    AheadConcat(a + [x], b, p, r);
    CountConcat(a, [x], p);
  }

  /** Who is ahead of whom over three levels. */
  lemma AheadOfThree(a: seq<Pcb>, b: seq<Pcb>, c: seq<Pcb>, p: nat, r: nat)
    ensures Ahead(a + b + c, p, r) <==>
      || Ahead(a, p, r) || Ahead(b, p, r) || Ahead(c, p, r)
      || (In(a, p) && In(b, r)) || (In(a, p) && In(c, r)) || (In(b, p) && In(c, r))
  {
    AheadConcat(a + b, c, p, r);
    AheadConcat(a, b, p, r);
    CountConcat(a, b, p);
  }

  lemma JoiningKeepsAhead(s: Sys, c: Pcb, p: nat, r: nat)
    requires Ahead(Line(s), p, r)
    ensures Ahead(LineWith(s, c), p, r)
  {
    hide Ahead;
    if c.level == 0 {
      assert s.q0 + (s.q1 + s.q2) == Line(s);
      JoinKeepsAhead(s.q0, c, s.q1 + s.q2, p, r);
      assert s.q0 + [c] + (s.q1 + s.q2) == s.q0 + [c] + s.q1 + s.q2;
    } else if c.level == 1 {
      JoinKeepsAhead(s.q0 + s.q1, c, s.q2, p, r);
    } else {
      assert Line(s) + [] == Line(s);
      JoinKeepsAhead(Line(s), c, [], p, r);
      assert Line(s) + [c] + [] == Line(s) + [c];
    }
  }

  lemma BoostKeepsAhead(s: Sys, p: nat, r: nat)
    requires s.policy.Mlfq? && Ahead(Line(s), p, r)
    ensures Ahead(Line(Boost(s)), p, r)
  {
    hide Ahead, RefreshAll, In;
    AheadOfThree(s.q0, s.q1, s.q2, p, r);
    AheadOfThree(s.q0, RefreshAll(s.q1), RefreshAll(s.q2), p, r);
    RefreshKeepsAhead(s.q1, p, r);
    RefreshKeepsAhead(s.q2, p, r);
    assert Line(Boost(s)) == s.q0 + RefreshAll(s.q1) + RefreshAll(s.q2);
  }

  lemma RemovingKeepsAhead(s: Sys, other: nat, p: nat, r: nat)
    requires s.policy.Mlfq? && other != p && other != r && Ahead(Line(s), p, r)
    ensures Ahead(Line(RemoveProcess(s, other)), p, r)
  {
    hide Ahead, RemovePid, In;
    AheadOfThree(s.q0, s.q1, s.q2, p, r);
    AheadOfThree(RemovePid(s.q0, other), RemovePid(s.q1, other), RemovePid(s.q2, other), p, r);
    RemoveKeepsAhead(s.q0, other, p, r);
    RemoveKeepsAhead(s.q1, other, p, r);
    RemoveKeepsAhead(s.q2, other, p, r);
  }

  /** Of two processes, p is the first to be on the CPU, if one of them ever is. */
  predicate ServedBefore(w: World, es: seq<Event>, p: nat, r: nat)
    decreases |es|
  {
    IsCurrent(w.sys, p) || (!IsCurrent(w.sys, r) && (es == [] || ServedBefore(Next(w, es[0]), es[1..], p, r)))
  }

  lemma CountLine(s: Sys, pid: nat)
    requires Disciplined(s) && s.policy.Mlfq?
    ensures Count(Line(s), pid) + (if IsCurrent(s, pid) then 1 else 0) == Held(s, pid)
  {
    CountConcat(s.q0 + s.q1, s.q2, pid);
    CountConcat(s.q0, s.q1, pid);
  }

  /** The first of the line leaves: it is p, or else p is still ahead. */
  lemma TakingKeepsAhead(line: seq<Pcb>, s': Sys, p: nat, r: nat)
    requires TakesFirst(line, s') && Ahead(line, p, r) && Count(line, r) <= 1
    ensures IsCurrent(s', p) || (!IsCurrent(s', r) && Ahead(Line(s'), p, r))
  {
    if line[0].pid != p {
      AheadIn(line[1..], p, r);
    }
  }

  lemma CountLineWith(s: Sys, c: Pcb, pid: nat)
    ensures Count(LineWith(s, c), pid) == Count(Line(s), pid) + if c.pid == pid then 1 else 0
  {
    if c.level == 0 {
      assert s.q0 + (s.q1 + s.q2) == Line(s) && s.q0 + ([c] + (s.q1 + s.q2)) == LineWith(s, c);
      CountConcat(s.q0, s.q1 + s.q2, pid);
      CountConcat(s.q0, [c] + (s.q1 + s.q2), pid);
      CountConcat([c], s.q1 + s.q2, pid);
    } else if c.level == 1 {
      assert s.q0 + s.q1 + ([c] + s.q2) == LineWith(s, c);
      CountConcat(s.q0 + s.q1, s.q2, pid);
      CountConcat(s.q0 + s.q1, [c] + s.q2, pid);
      CountConcat([c], s.q2, pid);
    } else {
      CountAppend(Line(s), c, pid);
    }
  }

  lemma BoostFrame(s: Sys)
    ensures BoostIfDue(s).cur == s.cur && BoostIfDue(s).policy == s.policy
  {
  }

  /** After the boost that may be due, p and r are queued once and not on the CPU. */
  lemma QueuedOnly(s: Sys, b: Sys, p: nat, r: nat)
    requires s.policy.Mlfq? && Disciplined(s) && Held(s, p) <= 1 && Held(s, r) <= 1
    requires b == BoostIfDue(s.(now := s.now + 1)) && Ahead(Line(b), p, r)
    ensures !IsCurrent(s, p) && !IsCurrent(s, r) && Count(Line(b), r) == 1 && Line(b) != []
  {
    hide Ahead, Line;
    var s1 := s.(now := s.now + 1);
    AheadIn(Line(b), p, r);
    BoostPlaces(s1, p);
    BoostPlaces(s1, r);
    CountLine(b, p);
    CountLine(b, r);
  }

  lemma TickKeepsAhead(s: Sys, p: nat, r: nat)
    requires s.policy.Mlfq? && Ranks(s) && Disciplined(s) && Held(s, p) <= 1 && Held(s, r) <= 1
    requires Ahead(Line(s), p, r)
    ensures IsCurrent(TimerTick(s), p) || (!IsCurrent(TimerTick(s), r) && Ahead(Line(TimerTick(s)), p, r))
  {
    hide TimerTick, Ranks, LineWith, TakesFirst, Ahead, Line, Boost, Disciplined, Held, GoneBack;
    var s1 := s.(now := s.now + 1);
    var b := BoostIfDue(s1);
    SameLevels(s, s1, FirstStarted(0));
    if BoostDue(s1) {
      BoostKeepsAhead(s1, p, r);
    }
    assert Ahead(Line(b), p, r) && b.policy.Mlfq? && b.cur == s.cur by { BoostFrame(s1); }
    QueuedOnly(s, b, p, r);
    TickServesFirst(s);
    AheadIn(Line(b), p, r);
    if s.cur.None? {
      TakingKeepsAhead(Line(b), TimerTick(s), p, r);
    } else if s.cur.value.remainingSlice == 1 {
      var back := GoneBack(s.cur.value);
      GoesBack(s.cur.value);
      JoiningKeepsAhead(b, back, p, r);
      CountLineWith(b, back, r);
      TakingKeepsAhead(LineWith(b, back), TimerTick(s), p, r);
    }
  }

  lemma BoostFrameNow(s: Sys)
    ensures Boost(s).cur == s.cur
  {
  }

  lemma OthersKeepAhead(w: World, e: Event, p: nat, r: nat)
    requires OnePlace(w) && w.sys.policy.Mlfq? && Ahead(Line(w.sys), p, r)
    requires !e.Timer? && (e.ChangePolicy? ==> e.policy.Mlfq?)
    requires e.Block? ==> e.pid != p && e.pid != r && !IsCurrent(w.sys, e.pid)
    ensures Ahead(Line(Next(w, e).sys), p, r) && Next(w, e).sys.cur == w.sys.cur
  {
    hide Ahead, Line, LineWith, RemoveProcess, Boost;
    match e
    case Add(other) =>
      if other in w.away && !Schedulable(w.away[other]) {
        JoiningKeepsAhead(w.sys, Admitted(w.sys, w.away[other]), p, r);
        EnqueueJoinsLevel(w.sys, Admitted(w.sys, w.away[other]));
      }
    case Unblock(other) =>
      if other in w.away && w.away[other].state.Blocked? {
        var x := w.away[other].(blockReason := 0);
        JoiningKeepsAhead(w.sys, Admitted(w.sys, x), p, r);
        EnqueueJoinsLevel(w.sys, Admitted(w.sys, x));
      }
    case Block(other) =>
      RemovingKeepsAhead(w.sys, other, p, r);
      RemoveKeepsDiscipline(w.sys, other);
    case BoostAll => BoostKeepsAhead(w.sys, p, r); BoostFrameNow(w.sys);
    case _ =>
  }

  lemma AheadIsQueued(w: World, p: nat, r: nat)
    requires OnePlace(w) && w.sys.policy.Mlfq? && Ahead(Line(w.sys), p, r)
    ensures !IsCurrent(w.sys, r) && Held(w.sys, p) <= 1 && Held(w.sys, r) <= 1
  {
    assert Places(w, p) <= 1 && Places(w, r) <= 1;
    AheadIn(Line(w.sys), p, r);
    CountLine(w.sys, r);
  }

  /** Nobody overtakes: under MLFQ a queued process that is ahead of another one, at a lower-numbered level
      or further ahead at the same level, gets the CPU before it in every run that blocks neither of
      them, whatever slices, boosts and arrivals come between. */
  lemma {:induction false} NoOvertaking(w: World, es: seq<Event>, p: nat, r: nat)
    requires OnePlace(w) && RanksKept(w) && w.sys.policy.Mlfq? && Ahead(Line(w.sys), p, r)
    requires SparesCurrent(w, es) && MlfqOnly(es) && StaysReady(es, p) && StaysReady(es, r)
    ensures ServedBefore(w, es, p, r)
    decreases |es|
  {
    hide Ahead, Line, Ranks, Held, Count, TimerTick;
    AheadIsQueued(w, p, r);
    if es != [] && !IsCurrent(w.sys, p) {
      var e := es[0];
      assert e in es;
      NextKeepsOnePlace(w, e);
      NextKeepsRanks(w, e);
      StaysMlfq(w, e);
      if e.Timer? {
        TickKeepsAhead(w.sys, p, r);
      } else {
        OthersKeepAhead(w, e, p, r);
      }
      if Ahead(Line(Next(w, e).sys), p, r) {
        NoOvertaking(Next(w, e), es[1..], p, r);
      }
    }
  }
}
