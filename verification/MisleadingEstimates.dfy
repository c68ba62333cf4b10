/** A run of the kernel whose estimates mislead SJF. */
module MisleadingEstimates {
  import opened Words
  import opened Wrappers
  import opened Processes
  import opened SchedulerModel
  import opened SchedulerRuns
  import opened Simulation
  import opened SjfOptimality

  /** A shorter process arrives when the first one has run a tick. */
  const SHORTER: seq<Event> := [Timer, Create(2, "b", 0, 10, 10), Add(2)]

  /** It preempts the first one, and a third process arrives. */
  const THIRD: seq<Event> := [Timer, Create(3, "c", 0, 49, 49), Add(3)]

  /** The PCB of the first process after n ticks. */
  function FirstAfter(n: nat): Pcb
    requires n <= 10
  {
    FirstStarted(0).(totalTicks := n, remainingTime := 50 - n, remainingSlice := 10 - n)
  }

  /** SRTF with the first process n ticks on the CPU and nobody queued. */
  predicate FirstAlone(w: World, n: nat) {
    && w.away == map[] && w.sys.policy.Srtf? && w.sys.now == n + 1 && n <= 10
    && w.sys.ready == [] && w.sys.q0 == [] && w.sys.q1 == [] && w.sys.q2 == []
    && w.sys.cur == Some(FirstAfter(n))
  }

  lemma ShorterArrives(w: World)
    requires FirstAlone(w, 0)
    ensures var w' := Run(w, SHORTER);
      && FirstAlone(w'.(sys := w'.sys.(ready := [])), 1) && w'.sys.ready == [Joined(2, "b", 0, 10, 2)]
  {
    hide Joined, Switch;
    RunThree(w, SHORTER[0], SHORTER[1], SHORTER[2]);
    ArrivalJoins(Next(w, Timer), 2, "b", 0, 10);
  }

  lemma ShorterPreempts(w: World)
    requires FirstAlone(w.(sys := w.sys.(ready := [])), 1) && w.sys.ready == [Joined(2, "b", 0, 10, 2)]
    ensures var w' := Next(w, Timer);
      && w'.away == map[] && w'.sys.policy.Srtf? && w'.sys.now == 3
      && w'.sys.ready == [FirstAfter(2).(state := Ready)]
      && w'.sys.q0 == [] && w'.sys.q1 == [] && w'.sys.q2 == [] && IsCurrent(w'.sys, 2) && Held(w'.sys, 3) == 0
  {
    var b, c := Joined(2, "b", 0, 10, 2), FirstAfter(2);
    assert Count([c.(state := Ready)][1..], 3) == 0;
    ChoiceOfOne(Srtf, w.sys.ready);
    var q := [b, Requeued(Srtf, c)];
    ChoiceUnique(Srtf, q, 0, Choice(Srtf, q));
    assert w.sys.ready + [Requeued(Srtf, c)] == q && Without(q, 0) == [Requeued(Srtf, c)];
  }

  lemma PolicyKeepsReady(w: World)
    requires !w.sys.policy.Mlfq?
    ensures Next(w, ChangePolicy(Sjf)).sys == w.sys.(policy := Sjf)
  {
  }

  lemma TotalWorkOfTwo(q: seq<Pcb>)
    requires |q| == 2
    ensures TotalWork(q) == Work(q[0]) + Work(q[1])
  {
    assert q == [q[0]] + [q[1]];
    TotalWorkConcat([q[0]], [q[1]]);
  }

  /** From scheduler_init with SRTF: a process of 50 ticks is preempted when it has 48 left, one of 49 is
      queued behind it, and the policy changes to SJF. The estimates then put the longer of the two first. */
  lemma SjfIsMisled(ticks: nat)
    requires ticks >= 97
    ensures var w := Next(Run(Run(Run(Start(Srtf, 0), FIRST), SHORTER), THIRD), ChangePolicy(Sjf));
      && w.sys.policy.Sjf? && |w.sys.ready| == 2
      && w.sys.ready[0].burstTime > w.sys.ready[1].burstTime && Work(w.sys.ready[0]) < Work(w.sys.ready[1])
      && !Optimal(w.sys, ticks)
  {
    hide Optimal, Next, Run, TotalWork;
    FirstRuns(Srtf, 0);
    var w1 := Run(Start(Srtf, 0), FIRST);
    ShorterArrives(w1);
    var w2 := Run(w1, SHORTER);
    ShorterPreempts(w2);
    var w3 := Next(w2, Timer);
    RunThree(w2, THIRD[0], THIRD[1], THIRD[2]);
    ArrivalJoins(w3, 3, "c", 0, 49);
    var w4 := Run(w2, THIRD);
    var w := Next(w4, ChangePolicy(Sjf));
    PolicyKeepsReady(w4);
    TotalWorkOfTwo(w.sys.ready);
    SjfOptimalIff(w.sys, ticks);
    assert Work(w.sys.ready[1]) > Work(w.sys.ready[0]);
  }
}
