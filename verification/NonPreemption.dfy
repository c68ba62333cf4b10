/** The policies that never take the CPU away: FCFS and SJF. */
module NonPreemption {
  import opened Wrappers
  import opened Processes
  import opened SchedulerModel
  import opened SchedulerRuns
  import opened RoundRobinWait

  predicate RunsToEnd(policy: Policy) {
    policy.Fcfs? || policy.Sjf?
  }

  predicate KeepsPolicy(es: seq<Event>) {
    forall e :: e in es ==> !e.ChangePolicy?
  }

  /** The processes of a queue that the run does not block. */
  function Unblocked(q: seq<Pcb>, es: seq<Event>): seq<Pcb> {
    if q == [] then []
    else (if Event.Block(q[0].pid) in es then [] else [q[0]]) + Unblocked(q[1..], es)
  }

  lemma UnblockedConcat(a: seq<Pcb>, b: seq<Pcb>, es: seq<Event>)
    ensures Unblocked(a + b, es) == Unblocked(a, es) + Unblocked(b, es)
  {
    if a == [] {
      assert a + b == b;
    } else {
      assert (a + b)[1..] == a[1..] + b;
      UnblockedConcat(a[1..], b, es);
    }
  }

  /** Blocking first, then running on. */
  lemma {:induction false} UnblockedInTurn(q: seq<Pcb>, es: seq<Event>)
    requires es != []
    ensures Unblocked(q, es) == Unblocked(Unblocked(q, es[..1]), es[1..])
  {
    if q != [] {
      UnblockedInTurn(q[1..], es);
      assert es == es[..1] + es[1..];
      var first := if Event.Block(q[0].pid) in es[..1] then [] else [q[0]];
      UnblockedConcat(first, Unblocked(q[1..], es[..1]), es[1..]);
      assert Unblocked([q[0]], es[1..]) == if Event.Block(q[0].pid) in es[1..] then [] else [q[0]] by {
        assert [q[0]][1..] == [];
      }
    }
  }

  lemma NothingBlocked(q: seq<Pcb>, e: Event)
    requires !e.Block?
    ensures Unblocked(q, [e]) == q
  {
    if q != [] {
      assert Event.Block(q[0].pid) !in [e];
      NothingBlocked(q[1..], e);
    }
  }

  lemma NobodyBlocked(q: seq<Pcb>, pid: nat)
    requires Count(q, pid) == 0
    ensures Unblocked(q, [Event.Block(pid)]) == q
  {
    if q != [] {
      assert Event.Block(q[0].pid) !in [Event.Block(pid)];
      NobodyBlocked(q[1..], pid);
    }
  }

  lemma OneBlocked(q: seq<Pcb>, pid: nat)
    requires Count(q, pid) <= 1
    ensures Unblocked(q, [Event.Block(pid)]) == RemovePid(q, pid)
  {
    if q != [] {
      assert Event.Block(q[0].pid) in [Event.Block(pid)] <==> q[0].pid == pid;
      if q[0].pid == pid {
        NobodyBlocked(q[1..], pid);
      } else {
        OneBlocked(q[1..], pid);
      }
    }
  }

  /** The process on the CPU after n more ticks of it. */
  predicate StillRuns(c: Pcb, c': Pcb, n: nat) {
    && c'.pid == c.pid && c'.totalTicks == c.totalTicks + n && c'.startTick == c.startTick
    && c'.remainingTime == c.remainingTime && c'.priority == c.priority && c'.burstTime == c.burstTime
  }

  /** q' is what is left of q, in order, and behind it processes that the run adds. */
  predicate Grown(q: seq<Pcb>, q': seq<Pcb>, es: seq<Event>) {
    && Unblocked(q, es) <= q'
    && forall i :: |Unblocked(q, es)| <= i < |q'| ==>
         Event.Add(q'[i].pid) in es || Event.Unblock(q'[i].pid) in es
  }

  lemma AddGrows(w: World, e: Event, pid: nat)
    requires OnePlace(w) && !w.sys.policy.Mlfq? && (e == Event.Add(pid) || e == Event.Unblock(pid))
    ensures Grown(w.sys.ready, Next(w, e).sys.ready, [e])
  {
    assert e in [e];
    NothingBlocked(w.sys.ready, e);
  }

  lemma BlockGrows(w: World, pid: nat)
    requires OnePlace(w) && !w.sys.policy.Mlfq? && !IsCurrent(w.sys, pid)
    ensures Grown(w.sys.ready, Next(w, Event.Block(pid)).sys.ready, [Event.Block(pid)])
  {
    hide RemovePid;
    assert Places(w, pid) <= 1;
    FindCorrect(Queued(w.sys), pid);
    CountQueued(w.sys, pid);
    if Count(w.sys.ready, pid) == 0 {
      NobodyBlocked(w.sys.ready, pid);
    } else {
      OneBlocked(w.sys.ready, pid);
    }
  }

  lemma TimerKeepsCurrent(s: Sys)
    requires RunsToEnd(s.policy) && s.cur.Some?
    ensures var s' := TimerTick(s);
      && s'.policy == s.policy && s'.cur.Some? && StillRuns(s.cur.value, s'.cur.value, 1)
      && s'.ready == s.ready && s'.log == s.log && s'.switches == s.switches
  {
  }

  lemma SameGrown(q: seq<Pcb>, e: Event)
    requires !e.Block?
    ensures Grown(q, q, [e])
  {
    NothingBlocked(q, e);
  }

  lemma NextKeepsCurrent(w: World, e: Event)
    requires OnePlace(w) && RunsToEnd(w.sys.policy) && w.sys.cur.Some?
    requires !e.ChangePolicy? && (e.Block? ==> !IsCurrent(w.sys, e.pid))
    ensures var s, s' := w.sys, Next(w, e).sys;
      && s'.policy == s.policy && s'.cur.Some?
      && StillRuns(s.cur.value, s'.cur.value, if e.Timer? then 1 else 0)
      && Grown(s.ready, s'.ready, [e]) && s'.log == s.log && s'.switches == s.switches
  {
    hide Grown, TimerTick, RemovePid, Find;
    match e {
      case Add(pid) => AddGrows(w, e, pid);
      case Unblock(pid) => AddGrows(w, e, pid);
      case Block(pid) => BlockGrows(w, pid);
      case Timer => TimerKeepsCurrent(w.sys); SameGrown(w.sys.ready, e);
      case _ => SameGrown(w.sys.ready, e);
    }
  }

  lemma {:induction false} UnblockedFrom(q: seq<Pcb>, es: seq<Event>, i: nat)
    requires i < |Unblocked(q, es)|
    ensures Unblocked(q, es)[i] in q
  {
    var n := if Event.Block(q[0].pid) in es then 0 else 1;
    if i >= n {
      UnblockedFrom(q[1..], es, i - n);
    }
  }

  lemma GrownInTurn(q: seq<Pcb>, mid: seq<Pcb>, q': seq<Pcb>, es: seq<Event>)
    requires es != [] && Grown(q, mid, es[..1]) && Grown(mid, q', es[1..])
    ensures Grown(q, q', es)
  {
    var kept := Unblocked(q, es[..1]);
    UnblockedInTurn(q, es);
    UnblockedConcat(kept, mid[|kept|..], es[1..]);
    assert mid == kept + mid[|kept|..];
    assert es == es[..1] + es[1..];
    forall i | |Unblocked(q, es)| <= i < |q'|
      ensures Event.Add(q'[i].pid) in es || Event.Unblock(q'[i].pid) in es
    {
      if i < |Unblocked(mid, es[1..])| {
        UnblockedFrom(mid[|kept|..], es[1..], i - |Unblocked(q, es)|);
      }
    }
  }

  lemma NothingHappens(q: seq<Pcb>)
    ensures Grown(q, q, [])
  {
    if q != [] {
      NothingHappens(q[1..]);
    }
  }

  /** Under FCFS and SJF a process on the CPU keeps it, with every tick charged to it, in any run of events
      that neither changes the policy nor blocks the process on the CPU. The queue loses the processes that
      are blocked, keeps the others in order and grows at its tail only, and nothing is logged. */
  lemma {:induction false} NeverPreempted(w: World, es: seq<Event>)
    requires OnePlace(w) && RunsToEnd(w.sys.policy) && w.sys.cur.Some?
    requires SparesCurrent(w, es) && KeepsPolicy(es)
    ensures var s, s' := w.sys, Run(w, es).sys;
      && s'.cur.Some? && StillRuns(s.cur.value, s'.cur.value, Ticks(es))
      && Grown(s.ready, s'.ready, es) && s'.log == s.log && s'.switches == s.switches
    decreases |es|
  {
    hide OnePlace, Grown, Next;
    if es == [] {
      NothingHappens(w.sys.ready);
    } else {
      assert es[0] in es && es[..1] == [es[0]];
      NextKeepsOnePlace(w, es[0]);
      NextKeepsCurrent(w, es[0]);
      NeverPreempted(Next(w, es[0]), es[1..]);
      GrownInTurn(w.sys.ready, Next(w, es[0]).sys.ready, Run(w, es).sys.ready, es);
    }
  }

  // ---------------------------------------------------------------------------------------------
  // An idle CPU
  // ---------------------------------------------------------------------------------------------

  lemma IdleTakesChoice(s: Sys)
    requires s.cur.None? && !s.policy.Mlfq? && s.ready != []
    ensures var k := Choice(s.policy, s.ready); var s', p := TimerTick(s), s.ready[k];
      && s'.cur == Some(p.(state := Running, remainingSlice := p.timeSlice, startTick := s.now + 1))
      && s'.ready == s.ready[..k] + s.ready[k + 1..] && s'.log == s.log
  {
    hide Choice;
  }

  /** A tick on an idle CPU starts the earliest of the best processes, and the others keep their order. */
  lemma IdleTakesBest(s: Sys)
    requires s.cur.None? && !s.policy.Mlfq? && s.ready != []
    ensures exists k: nat | EarliestBest(s.policy, s.ready, k) ::
      var s', p := TimerTick(s), s.ready[k];
      && s'.cur == Some(p.(state := Running, remainingSlice := p.timeSlice, startTick := s.now + 1))
      && s'.ready == s.ready[..k] + s.ready[k + 1..] && s'.log == s.log
  {
    hide EarliestBest, TimerTick, Choice;
    ChoiceIsEarliestBest(s.policy, s.ready);
    IdleTakesChoice(s);
    assert EarliestBest(s.policy, s.ready, Choice(s.policy, s.ready));
  }

  lemma {:induction false} IdleUntilTick(w: World, es: seq<Event>)
    requires w.sys.cur.None? && Ticks(es) == 0
    ensures Run(w, es).sys.cur.None?
    decreases |es|
  {
    if es != [] {
      IdleUntilTick(Next(w, es[0]), es[1..]);
    }
  }

  lemma {:induction false} RunAppend(w: World, es: seq<Event>, e: Event)
    ensures Run(w, es + [e]) == Next(Run(w, es), e)
    decreases |es|
  {
    if es == [] {
      assert [] + [e] == [e];
      assert Run(Next(w, e), []) == Next(w, e);
    } else {
      assert (es + [e])[1..] == es[1..] + [e];
      RunAppend(Next(w, es[0]), es[1..], e);
    }
  }

  lemma {:induction false} SjfStays(w: World, es: seq<Event>)
    requires w.sys.policy.Sjf? && KeepsPolicy(es) && Ticks(es) == 0
    ensures Run(w, es).sys.policy.Sjf?
    decreases |es|
  {
    if es != [] {
      assert es[0] in es;
      SjfStays(Next(w, es[0]), es[1..]);
    }
  }

  /** Under SJF the first tick of a run starts the earliest process of least estimate among all that were
      added before it. */
  lemma FirstTickTakesShortest(w: World, es: seq<Event>)
    requires OnePlace(w) && w.sys.policy.Sjf? && w.sys.cur.None? && KeepsPolicy(es) && Ticks(es) == 0
    requires Run(w, es).sys.ready != []
    ensures var q, s := Run(w, es).sys.ready, Run(w, es + [Timer]).sys;
      exists k :: 0 <= k < |q| && s.cur.Some? && s.cur.value.pid == q[k].pid && s.ready == q[..k] + q[k + 1..]
        && (forall i :: 0 <= i < |q| ==> q[k].burstTime <= q[i].burstTime)
        && (forall i :: 0 <= i < k ==> q[k].burstTime < q[i].burstTime)
  {
    IdleUntilTick(w, es);
    SjfStays(w, es);
    RunAppend(w, es, Timer);
    IdleTakesBest(Run(w, es).sys);
  }
}
