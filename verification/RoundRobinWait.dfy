/** Round robin: how long a queued process waits, to the tick. */
module RoundRobinWait {
  import opened Words
  import opened Wrappers
  import opened Processes
  import opened SchedulerModel
  import opened SchedulerRuns

  function Ticks(es: seq<Event>): nat {
    if es == [] then 0 else (if es[0].Timer? then 1 else 0) + Ticks(es[1..])
  }

  /** Nothing is blocked and the policy stays round robin; processes may come at any moment. */
  predicate RoundRobinOnly(es: seq<Event>) {
    forall e :: e in es ==> !e.Block? && (e.ChangePolicy? ==> e.policy.RoundRobin?)
  }

  /** Ticks a slice lasts: the counter is decremented before it is compared with 0, so a slice
      of 0 wraps and lasts 2^32 ticks. */
  function SliceTicks(slice: nat): nat {
    if slice == 0 then WORD else slice
  }

  function SlicesTicks(q: seq<Pcb>): nat {
    if q == [] then 0 else SliceTicks(q[0].timeSlice) + SlicesTicks(q[1..])
  }

  /** Ticks until the CPU is next handed over. */
  function Handover(s: Sys): nat {
    if s.cur.None? then 1 else SliceTicks(s.cur.value.remainingSlice)
  }

  /** The slices of the processes queued before the first occurrence of pid. */
  function Ahead(q: seq<Pcb>, pid: nat): nat {
    if q == [] || q[0].pid == pid then 0 else SliceTicks(q[0].timeSlice) + Ahead(q[1..], pid)
  }

  lemma AheadAppend(q: seq<Pcb>, x: Pcb, pid: nat)
    requires Count(q, pid) > 0
    ensures Ahead(q + [x], pid) == Ahead(q, pid)
  {
    assert (q + [x])[1..] == q[1..] + [x];
    if q[0].pid != pid {
      AheadAppend(q[1..], x, pid);
    }
  }

  lemma AheadIsPrefix(q: seq<Pcb>, k: nat)
    requires k < |q| && Count(q, q[k].pid) <= 1
    ensures Ahead(q, q[k].pid) == SlicesTicks(q[..k])
  {
    if k > 0 {
      CountPositive(q[1..], k - 1);
      AheadIsPrefix(q[1..], k - 1);
      assert q[..k][1..] == q[1..][..k - 1];
    }
  }

  /** Waiting for the CPU under round robin. */
  predicate Waits(s: Sys, pid: nat) {
    s.policy.RoundRobin? && Count(s.ready, pid) > 0 && !IsCurrent(s, pid)
  }

  function Wait(s: Sys, pid: nat): nat {
    Handover(s) + Ahead(s.ready, pid)
  }

  /** The round-robin hand-over: the head of the queue runs next, the process it replaces is last. */
  lemma HandsToHead(s: Sys, c: Pcb)
    requires s.policy.RoundRobin? && |s.ready| > 0
    ensures var s' := Switch(s, c);
      && s'.policy == s.policy && s'.ready == s.ready[1..] + [Requeued(s.policy, c)]
      && s'.cur == Some(SwitchedIn(s.policy, s.ready[0], s.now))
  {
    var q := s.ready + [Requeued(s.policy, c)];
    ChoiceIsHead(s.policy, q);
    assert Without(q, 0) == s.ready[1..] + [Requeued(s.policy, c)];
  }

  lemma SwitchCountsDown(s: Sys, c: Pcb, pid: nat)
    requires s.policy.RoundRobin? && Count(s.ready, pid) > 0
    ensures s.ready[0].pid == pid ==> IsCurrent(Switch(s, c), pid)
    ensures s.ready[0].pid != pid ==>
      Waits(Switch(s, c), pid) && Wait(Switch(s, c), pid) == Ahead(s.ready, pid)
  {
    hide Switch;
    HandsToHead(s, c);
    if s.ready[0].pid != pid {
      AheadAppend(s.ready[1..], Requeued(s.policy, c), pid);
      CountAppend(s.ready[1..], Requeued(s.policy, c), pid);
    }
  }

  lemma TimerCountsDown(s: Sys, pid: nat)
    requires Waits(s, pid)
    ensures Wait(s, pid) == 1 ==> IsCurrent(TimerTick(s), pid)
    ensures Wait(s, pid) > 1 ==> Waits(TimerTick(s), pid) && Wait(TimerTick(s), pid) == Wait(s, pid) - 1
  {
    hide Switch;
    var s1 := s.(now := s.now + 1);
    if s.cur.None? {
      ChoiceIsHead(s.policy, s.ready);
      assert Without(s.ready, 0) == s.ready[1..];
    } else {
      SwitchCountsDown(s1, Demoted(s.policy, Charged(s.policy, s.cur.value)), pid);
    }
  }

  lemma OtherEventsKeepWait(w: World, e: Event, pid: nat)
    requires OnePlace(w) && Waits(w.sys, pid)
    requires RoundRobinOnly([e]) && !e.Timer?
    ensures Waits(Next(w, e).sys, pid) && Wait(Next(w, e).sys, pid) == Wait(w.sys, pid)
  {
    assert e in [e];
    if (e.Add? || e.Unblock?) && e.pid in w.away {
      var p := Admitted(w.sys, w.away[e.pid]);
      var p' := Admitted(w.sys, w.away[e.pid].(blockReason := 0));
      AheadAppend(w.sys.ready, p, pid);
      AheadAppend(w.sys.ready, p', pid);
      CountAppend(w.sys.ready, p, pid);
      CountAppend(w.sys.ready, p', pid);
    }
  }

  lemma CurrentUntilTimer(w: World, es: seq<Event>, pid: nat)
    requires OnePlace(w) && IsCurrent(w.sys, pid) && w.sys.policy.RoundRobin?
    requires RoundRobinOnly(es) && Ticks(es) == 0
    ensures IsCurrent(Run(w, es).sys, pid)
    decreases |es|
  {
    if es != [] {
      assert es[0] in es;
      NextKeepsOnePlace(w, es[0]);
      CurrentUntilTimer(Next(w, es[0]), es[1..], pid);
    }
  }

  lemma {:induction false} ExactWait(w: World, es: seq<Event>, pid: nat)
    requires OnePlace(w) && Waits(w.sys, pid) && RoundRobinOnly(es)
    ensures Ticks(es) < Wait(w.sys, pid) ==>
      Waits(Run(w, es).sys, pid) && Wait(Run(w, es).sys, pid) == Wait(w.sys, pid) - Ticks(es)
    ensures Ticks(es) == Wait(w.sys, pid) ==> IsCurrent(Run(w, es).sys, pid)
    decreases |es|
  {
    if es != [] {
      var e, w' := es[0], Next(w, es[0]);
      assert e in es;
      NextKeepsOnePlace(w, e);
      if e.Timer? {
        TimerCountsDown(w.sys, pid);
        if Wait(w.sys, pid) > 1 {
          ExactWait(w', es[1..], pid);
        } else if Ticks(es[1..]) == 0 {
          CurrentUntilTimer(w', es[1..], pid);
        }
      } else {
        OtherEventsKeepWait(w, e, pid);
        ExactWait(w', es[1..], pid);
      }
    }
  }

  /** The process at position k of the queue gets the CPU after exactly the rest of the current slice
      and the slices of the k processes ahead, not one tick earlier, whatever else is queued behind. */
  lemma {:induction false} RoundRobinExactWait(w: World, es: seq<Event>, k: nat)
    requires OnePlace(w) && w.sys.policy.RoundRobin? && k < |w.sys.ready| && RoundRobinOnly(es)
    ensures var pid := w.sys.ready[k].pid; var wait := Handover(w.sys) + SlicesTicks(w.sys.ready[..k]);
      && (Ticks(es) < wait ==> IsQueued(Run(w, es).sys, pid) && !IsCurrent(Run(w, es).sys, pid))
      && (Ticks(es) == wait ==> IsCurrent(Run(w, es).sys, pid))
  {
    var pid := w.sys.ready[k].pid;
    assert Places(w, pid) <= 1;
    CountPositive(w.sys.ready, k);
    AheadIsPrefix(w.sys.ready, k);
    ExactWait(w, es, pid);
    CountQueued(Run(w, es).sys, pid);
  }
}
