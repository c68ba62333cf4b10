/** The preemptive policies: after every tick the CPU holds a process that no queued one beats. */
module Preemption {
  import opened Wrappers
  import opened Processes
  import opened SchedulerModel

  predicate Preemptive(policy: Policy) {
    policy.Priority? || policy.Srtf?
  }

  /** A higher priority displaces under PRIORITY, less remaining time under SRTF. */
  predicate Displaces(policy: Policy, p: Pcb, c: Pcb) {
    || (policy.Priority? && p.priority > c.priority)
    || (policy.Srtf? && p.remainingTime < c.remainingTime)
  }

  /** Nothing in the queue has a higher priority, or less remaining time, than the current process, and the
      CPU is idle only when the queue is empty. */
  predicate Honoured(s: Sys) {
    if s.cur.None? then s.ready == [] else
      forall i :: 0 <= i < |s.ready| ==> !Displaces(s.policy, s.ready[i], s.cur.value)
  }

  lemma BetterDisplaces(policy: Policy, p: Pcb, c: Pcb)
    requires Preemptive(policy)
    ensures Displaces(policy, p, c) <==> Better(policy, p, c)
  {
  }

  /** A process that loses to the best one does not change the choice when it joins the queue. */
  lemma ChoiceAppendWorse(policy: Policy, q: seq<Pcb>, x: Pcb)
    requires Preemptive(policy) && |q| > 0 && Better(policy, q[Choice(policy, q)], x)
    ensures Choice(policy, q + [x]) == Choice(policy, q)
  {
    assert IsChoice(policy, q + [x], Choice(policy, q));
    ChoiceUnique(policy, q + [x], Choice(policy, q), Choice(policy, q + [x]));
  }

  lemma PreemptedSwitch(s: Sys, c: Pcb)
    requires Preemptive(s.policy) && |s.ready| > 0 && Better(s.policy, s.ready[Choice(s.policy, s.ready)], c)
    ensures var k := Choice(s.policy, s.ready); var s' := Switch(s, c);
      && s'.cur == Some(SwitchedIn(s.policy, s.ready[k], s.now))
      && s'.ready == Without(s.ready, k) + [c.(state := Ready)] && s'.policy == s.policy
  {
    var k := Choice(s.policy, s.ready);
    var prev := Requeued(s.policy, c);
    ChoiceAppendWorse(s.policy, s.ready, prev);
    assert Without(s.ready + [prev], k) == Without(s.ready, k) + [prev];
  }

  lemma StepHonoursPolicy(s: Sys)
    requires Preemptive(s.policy)
    ensures Honoured(Step(s)) && Step(s).policy == s.policy
    ensures s.cur.Some? ==> var c := Charged(s.policy, s.cur.value);
      if |s.ready| > 0 && Better(s.policy, s.ready[Choice(s.policy, s.ready)], c) then Step(s) == Switch(s, c)
      else Step(s) == s.(cur := Some(c))
  {
    hide Switch;
    if s.cur.Some? {
      var c := Charged(s.policy, s.cur.value);
      if |s.ready| > 0 && Better(s.policy, s.ready[Choice(s.policy, s.ready)], c) {
        PreemptedSwitch(s, c);
      }
    }
  }

  /** When the best process does not displace the current one, none does. */
  lemma NoneBetter(policy: Policy, q: seq<Pcb>, c: Pcb)
    requires Preemptive(policy) && |q| > 0 && !Better(policy, q[Choice(policy, q)], c)
    ensures forall i :: 0 <= i < |q| ==> !Better(policy, q[i], c)
  {
    var k := Choice(policy, q);
    assert forall i :: 0 <= i < |q| ==> !Better(policy, q[i], q[k]);
  }

  /** From any state whatever, one tick of PRIORITY or SRTF restores the policy. A process is
      displaced only by the earliest of the best queued ones, and then goes to the tail. */
  lemma TickHonoursPolicy(s: Sys)
    requires Preemptive(s.policy)
    ensures Honoured(TimerTick(s)) && TimerTick(s).policy == s.policy
    ensures s.cur.Some? ==>
      var c := Charged(s.policy, s.cur.value); var s' := TimerTick(s);
      if exists i :: 0 <= i < |s.ready| && Displaces(s.policy, s.ready[i], c) then
        exists k: nat :: EarliestBest(s.policy, s.ready, k)
          && s'.cur == Some(SwitchedIn(s.policy, s.ready[k], s.now + 1))
          && s'.ready == Without(s.ready, k) + [c.(state := Ready)]
      else s'.cur == Some(c) && s'.ready == s.ready
  {
    hide Step, Switch, Displaces, EarliestBest;
    var s1 := s.(now := s.now + 1);
    StepHonoursPolicy(s1);
    if s.cur.Some? && |s.ready| > 0 {
      var c := Charged(s.policy, s.cur.value);
      var k := Choice(s.policy, s.ready);
      forall i | 0 <= i < |s.ready| ensures Displaces(s.policy, s.ready[i], c) <==> Better(s.policy, s.ready[i], c) {
        BetterDisplaces(s.policy, s.ready[i], c);
      }
      if Better(s.policy, s.ready[k], c) {
        PreemptedSwitch(s1, c);
        ChoiceIsEarliestBest(s.policy, s.ready);
      } else {
        NoneBetter(s.policy, s.ready, c);
      }
    }
  }
}
