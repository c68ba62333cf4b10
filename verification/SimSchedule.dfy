/** The batch simulator under the two policies that count slices: whose turn it is at every tick, against
    a schedule computed without simulating. */
module SimSchedule {
  import opened Wrappers
  import opened Processes
  import opened SchedulerModel
  import opened SchedulerRuns
  import opened Journal
  import opened Simulation

  // ---------------------------------------------------------------------------------------------
  // The schedule
  // ---------------------------------------------------------------------------------------------

  /** A process to be served: the ticks left of its slice, and of its work. */
  datatype Job = Job(pid: nat, level: nat, slice: nat, work: nat)

  /** One turn on the CPU: when it ends, and whether the process has ended with it. */
  datatype Turn = Turn(pid: nat, level: nat, end: nat, ended: bool)

  /** The length of a slice. */
  function Ration(policy: Policy, level: nat): (n: nat)
    ensures n > 0
  {
    if policy.RoundRobin? then 10 else if level == 0 then 5 else if level == 1 then 10 else 20
  }

  function TurnTicks(j: Job): nat {
    if j.work <= j.slice then j.work else j.slice
  }

  predicate Positive(line: seq<Job>) {
    forall i :: 0 <= i < |line| ==> line[i].slice > 0 && line[i].work > 0
  }

  function JobsWork(line: seq<Job>): nat {
    if line == [] then 0 else line[0].work + JobsWork(line[1..])
  }

  /** A job joins the line again behind all jobs of its own level or of a level before it. */
  function Rejoin(line: seq<Job>, j: Job): seq<Job> {
    if line == [] then [j]
    else if line[0].level > j.level then [j] + line
    else [line[0]] + Rejoin(line[1..], j)
  }

  lemma {:induction false} RejoinWork(line: seq<Job>, j: Job)
    requires Positive(line) && j.slice > 0 && j.work > 0
    ensures JobsWork(Rejoin(line, j)) == JobsWork(line) + j.work && Positive(Rejoin(line, j))
  {
    if line != [] && line[0].level <= j.level {
      RejoinWork(line[1..], j);
      assert ([line[0]] + Rejoin(line[1..], j))[1..] == Rejoin(line[1..], j);
    } else {
      assert ([j] + line)[1..] == line;
    }
  }

  /** The job at the end of a slice that was too short for it. */
  function Rest(policy: Policy, j: Job): Job
    requires j.work > j.slice
  {
    Job(j.pid, j.level, Ration(policy, j.level), j.work - j.slice)
  }

  /** The line after the turn of the first job. */
  function After(policy: Policy, line: seq<Job>): (r: seq<Job>)
    requires Positive(line) && line != []
    ensures Positive(r) && JobsWork(r) == JobsWork(line) - TurnTicks(line[0])
  {
    if line[0].work <= line[0].slice then line[1..]
    else
      RejoinWork(line[1..], Rest(policy, line[0]));
      Rejoin(line[1..], Rest(policy, line[0]))
  }

  /** The turns of a line of jobs served one after the other, each for a slice or to its end. */
  function Turns(policy: Policy, line: seq<Job>, at: nat): seq<Turn>
    requires Positive(line)
    decreases JobsWork(line)
  {
    if line == [] then [] else
      var j, n := line[0], TurnTicks(line[0]);
      [Turn(j.pid, j.level, at + n, j.work <= j.slice)] + Turns(policy, After(policy, line), at + n)
  }

  function FirstOf(line: seq<Job>, at: nat): Turn
    requires line != []
  {
    Turn(line[0].pid, line[0].level, at + TurnTicks(line[0]), line[0].work <= line[0].slice)
  }

  lemma TurnsStep(policy: Policy, line: seq<Job>, at: nat)
    requires Positive(line) && line != []
    ensures Turns(policy, line, at)
         == [FirstOf(line, at)] + Turns(policy, After(policy, line), at + TurnTicks(line[0]))
  {
    hide After;
  }

  // ---------------------------------------------------------------------------------------------
  // What the schedule promises
  // ---------------------------------------------------------------------------------------------

  /** The ticks of one turn for each of the jobs. */
  function TurnsTicks(line: seq<Job>): nat {
    if line == [] then 0 else TurnTicks(line[0]) + TurnsTicks(line[1..])
  }

  lemma {:induction false} RejoinBehind(a: seq<Job>, b: seq<Job>, j: Job)
    requires forall i :: 0 <= i < |a| ==> a[i].level <= j.level
    ensures Rejoin(a + b, j) == a + Rejoin(b, j)
  {
    if a == [] {
      assert a + b == b && [] + Rejoin(b, j) == Rejoin(b, j);
    } else {
      assert (a + b)[1..] == a[1..] + b;
      RejoinBehind(a[1..], b, j);
    }
  }

  lemma {:induction false} WorkConcat(a: seq<Job>, b: seq<Job>)
    ensures JobsWork(a + b) == JobsWork(a) + JobsWork(b)
  {
    if a == [] {
      assert a + b == b;
    } else {
      assert (a + b)[1..] == a[1..] + b;
      WorkConcat(a[1..], b);
    }
  }

  /** Jobs up to position k of one level move up by one when the first has had its turn. */
  lemma AfterMovesUp(policy: Policy, line: seq<Job>, k: nat)
    requires Positive(line) && 0 < k < |line| && forall i :: 0 <= i <= k ==> line[i].level == line[0].level
    ensures |After(policy, line)| >= k && After(policy, line)[..k] == line[1..k + 1]
  {
    var j := line[0];
    assert line[1..] == line[1..k + 1] + line[k + 1..];
    if j.work > j.slice {
      RejoinBehind(line[1..k + 1], line[k + 1..], Rest(policy, j));
    }
  }

  /** The first turn of the job at position k, when no job up to it is of another level, comes after one
      turn of each job ahead of it. */
  lemma {:induction false} FirstTurn(policy: Policy, line: seq<Job>, at: nat, k: nat)
    requires Positive(line) && k < |line| && forall i :: 0 <= i <= k ==> line[i].level == line[0].level
    ensures k < |Turns(policy, line, at)|
    ensures var t := Turns(policy, line, at)[k];
      t.pid == line[k].pid && t.end == at + TurnsTicks(line[..k]) + TurnTicks(line[k])
    decreases k
  {
    hide After, TurnTicks, Turns, Positive;
    TurnsStep(policy, line, at);
    if k > 0 {
      AfterMovesUp(policy, line, k);
      var line', n := After(policy, line), TurnTicks(line[0]);
      assert line'[..k - 1] == line[1..k] == line[..k][1..] && line'[k - 1] == line'[..k][k - 1] == line[k];
      assert forall i :: 0 <= i < k ==> line'[i] == line'[..k][i] == line[i + 1];
      FirstTurn(policy, line', at + n, k - 1);
    }
  }

  /** Every job starts its turns with a full slice. */
  predicate FullSlices(policy: Policy, line: seq<Job>) {
    forall i :: 0 <= i < |line| ==> line[i].slice == Ration(policy, line[i].level)
  }

  lemma {:induction false} RejoinFull(policy: Policy, line: seq<Job>, j: Job)
    requires FullSlices(policy, line) && j.slice == Ration(policy, j.level)
    ensures FullSlices(policy, Rejoin(line, j))
  {
    if line != [] && line[0].level <= j.level {
      RejoinFull(policy, line[1..], j);
    }
  }

  lemma AfterFull(policy: Policy, line: seq<Job>)
    requires Positive(line) && line != [] && FullSlices(policy, line)
    ensures FullSlices(policy, After(policy, line))
  {
    if line[0].work > line[0].slice {
      RejoinFull(policy, line[1..], Rest(policy, line[0]));
    }
  }

  lemma FirstIsSlice(policy: Policy, line: seq<Job>, at: nat)
    requires Positive(line) && FullSlices(policy, line) && line != []
    ensures var t := FirstOf(line, at);
      && t.end == at + TurnTicks(line[0])
      && if t.ended then 0 < TurnTicks(line[0]) <= Ration(policy, t.level)
         else TurnTicks(line[0]) == Ration(policy, t.level)
  {
    hide Ration;
  }

  /** A turn in which the process does not end is exactly a slice, and no turn is longer. */
  lemma {:induction false} TurnsAreSlices(policy: Policy, line: seq<Job>, at: nat, i: nat)
    requires Positive(line) && FullSlices(policy, line) && i < |Turns(policy, line, at)|
    ensures var turns := Turns(policy, line, at);
      var n := turns[i].end - (if i == 0 then at else turns[i - 1].end);
      if turns[i].ended then 0 < n <= Ration(policy, turns[i].level) else n == Ration(policy, turns[i].level)
    decreases i
  {
    assert line != [];
    hide After, Ration, Turns, FullSlices, Positive, FirstOf, TurnTicks;
    TurnsStep(policy, line, at);
    FirstIsSlice(policy, line, at);
    if i > 0 {
      var n := TurnTicks(line[0]);
      var later := Turns(policy, After(policy, line), at + n);
      AfterFull(policy, line);
      TurnsAreSlices(policy, After(policy, line), at + n, i - 1);
      assert Turns(policy, line, at)[i] == later[i - 1];
      assert i > 1 ==> Turns(policy, line, at)[i - 1] == later[i - 2];
    }
  }

  predicate Below(a: seq<Job>, b: seq<Job>) {
    forall i, k :: 0 <= i < |a| && 0 <= k < |b| ==> a[i].level < b[k].level
  }

  lemma {:induction false} RejoinConcat(a: seq<Job>, b: seq<Job>, j: Job)
    requires b != [] ==> j.level < b[0].level
    ensures Rejoin(a + b, j) == Rejoin(a, j) + b
  {
    if a == [] {
      assert a + b == b;
    } else {
      assert (a + b)[0] == a[0] && (a + b)[1..] == a[1..] + b;
      if a[0].level <= j.level {
        RejoinConcat(a[1..], b, j);
        assert [a[0]] + (Rejoin(a[1..], j) + b) == [a[0]] + Rejoin(a[1..], j) + b;
      } else {
        assert [j] + (a + b) == [j] + a + b;
      }
    }
  }

  lemma {:induction false} RejoinMembers(a: seq<Job>, j: Job)
    ensures forall x :: x in Rejoin(a, j) ==> x == j || x in a
  {
    if a != [] && a[0].level <= j.level {
      RejoinMembers(a[1..], j);
    }
  }

  lemma AfterConcat(policy: Policy, a: seq<Job>, b: seq<Job>)
    requires Positive(a) && Positive(b) && a != [] && Below(a, b)
    ensures Positive(a + b) && After(policy, a + b) == After(policy, a) + b && Below(After(policy, a), b)
  {
    var j := a[0];
    assert (a + b)[1..] == a[1..] + b;
    if j.work > j.slice {
      hide Rejoin;
      RejoinConcat(a[1..], b, Rest(policy, j));
      RejoinMembers(a[1..], Rest(policy, j));
      var r := Rejoin(a[1..], Rest(policy, j));
      forall i, k | 0 <= i < |r| && 0 <= k < |b| ensures r[i].level < b[k].level {
        assert r[i] in r;
      }
    }
  }

  lemma SameFirst(a: seq<Job>, b: seq<Job>, at: nat)
    requires a != [] && Positive(a)
    ensures FirstOf(a + b, at) == FirstOf(a, at) && (a + b)[0] == a[0] && TurnTicks(a[0]) > 0
  {
  }

  lemma NoTurns(policy: Policy, at: nat)
    ensures Positive([]) && JobsWork([]) == 0 && Turns(policy, [], at) == []
  {
  }

  /** Jobs of earlier levels all end before one of a later level has a turn. */
  lemma {:induction false} LevelsInTurn(policy: Policy, a: seq<Job>, b: seq<Job>, at: nat)
    requires Positive(a) && Positive(b) && Below(a, b)
    ensures Positive(a + b)
    ensures Turns(policy, a + b, at) == Turns(policy, a, at) + Turns(policy, b, at + JobsWork(a))
    decreases JobsWork(a)
  {
    hide After, Below, Turns, JobsWork, Positive, FirstOf, TurnTicks;
    if a == [] {
      assert a + b == b;
      NoTurns(policy, at);
      assert [] + Turns(policy, b, at) == Turns(policy, b, at);
    } else {
      AfterConcat(policy, a, b);
      TurnsStep(policy, a, at);
      TurnsStep(policy, a + b, at);
      SameFirst(a, b, at);
      LevelsInTurn(policy, After(policy, a), b, at + TurnTicks(a[0]));
      var first, later := [FirstOf(a, at)], Turns(policy, After(policy, a), at + TurnTicks(a[0]));
      assert first + (later + Turns(policy, b, at + JobsWork(a))) == first + later + Turns(policy, b, at + JobsWork(a));
    }
  }

  // ---------------------------------------------------------------------------------------------
  // The simulator follows the schedule
  // ---------------------------------------------------------------------------------------------

  /** The job of a process; a slice of 0 is renewed before it is used. */
  function JobOf(policy: Policy, p: Pcb): Job {
    Job(p.pid, if policy.Mlfq? then p.level else 0,
        if p.remainingSlice == 0 then Ration(policy, p.level) else p.remainingSlice,
        if p.remainingTime == 0 then 1 else p.remainingTime)
  }

  function Jobs(policy: Policy, q: seq<Pcb>): (r: seq<Job>)
    ensures |r| == |q| && forall i :: 0 <= i < |q| ==> r[i] == JobOf(policy, q[i])
    ensures Positive(r)
  {
    seq(|q|, i requires 0 <= i < |q| => JobOf(policy, q[i]))
  }

  /** The processes in the order in which they are to be served. */
  function Waiting(s: Sys): seq<Pcb> {
    if s.policy.Mlfq? then s.q0 + s.q1 + s.q2 else s.ready
  }

  predicate AllAt(q: seq<Pcb>, level: nat) {
    forall i :: 0 <= i < |q| ==> q[i].level == level
  }

  /** Under MLFQ each process is queued at its own level. */
  predicate LevelsRight(s: Sys) {
    s.policy.Mlfq? ==>
      AllAt(s.q0, 0) && AllAt(s.q1, 1) && AllAt(s.q2, 2) && (s.cur.Some? ==> s.cur.value.level <= 2)
  }

  lemma SelectsFirst(s: Sys)
    requires Sliced(s.policy) && LevelsRight(s)
    ensures HasWaiting(s) <==> Waiting(s) != []
    ensures HasWaiting(s) ==> var sel := Select(s);
      && sel.next == Some(Waiting(s)[0]) && Waiting(sel.rest) == Waiting(s)[1..]
      && LevelsRight(sel.rest) && (s.policy.Mlfq? ==> sel.next.value.level <= 2)
      && sel.rest == s.(ready := sel.rest.ready, q0 := sel.rest.q0, q1 := sel.rest.q1, q2 := sel.rest.q2)
  {
    if s.policy.RoundRobin? && s.ready != [] {
      ChoiceIsHead(s.policy, s.ready);
      assert Without(s.ready, 0) == s.ready[1..];
    }
  }

  lemma JobsConcat(policy: Policy, a: seq<Pcb>, b: seq<Pcb>)
    ensures Jobs(policy, a + b) == Jobs(policy, a) + Jobs(policy, b)
  {
  }

  lemma RejoinFront(b: seq<Job>, j: Job)
    requires b != [] ==> b[0].level > j.level
    ensures Rejoin(b, j) == [j] + b
  {
  }

  lemma JoinsBetween(policy: Policy, a: seq<Pcb>, p: Pcb, b: seq<Pcb>)
    requires forall i :: 0 <= i < |a| ==> JobOf(policy, a[i]).level <= JobOf(policy, p).level
    requires forall i :: 0 <= i < |b| ==> JobOf(policy, b[i]).level > JobOf(policy, p).level
    ensures Jobs(policy, a + [p] + b) == Rejoin(Jobs(policy, a + b), JobOf(policy, p))
  {
    hide Rejoin, JobOf;
    JobsConcat(policy, a, b);
    JobsConcat(policy, a + [p], b);
    JobsConcat(policy, a, [p]);
    RejoinBehind(Jobs(policy, a), Jobs(policy, b), JobOf(policy, p));
    RejoinFront(Jobs(policy, b), JobOf(policy, p));
  }

  /** A process that is queued joins the line behind those of its level. */
  lemma EnqueueRejoins(s: Sys, p: Pcb)
    requires Sliced(s.policy) && LevelsRight(s) && (s.policy.Mlfq? ==> p.level <= 2)
    ensures var s' := Enqueue(s, p);
      && Jobs(s.policy, Waiting(s')) == Rejoin(Jobs(s.policy, Waiting(s)), JobOf(s.policy, p))
      && LevelsRight(s') && s' == s.(ready := s'.ready, q0 := s'.q0, q1 := s'.q1, q2 := s'.q2)
  {
    hide Rejoin, Jobs;
    if s.policy.RoundRobin? {
      assert s.ready + [] == s.ready && s.ready + [p] + [] == s.ready + [p];
      JoinsBetween(s.policy, s.ready, p, []);
    } else if p.level == 0 {
      assert s.q0 + (s.q1 + s.q2) == Waiting(s) && s.q0 + [p] + (s.q1 + s.q2) == Waiting(Enqueue(s, p));
      JoinsBetween(s.policy, s.q0, p, s.q1 + s.q2);
    } else if p.level == 1 {
      assert s.q0 + s.q1 + [p] + s.q2 == Waiting(Enqueue(s, p));
      JoinsBetween(s.policy, s.q0 + s.q1, p, s.q2);
    } else {
      assert Waiting(s) + [] == Waiting(s) && Waiting(s) + [p] + [] == Waiting(Enqueue(s, p));
      JoinsBetween(s.policy, Waiting(s), p, []);
    }
  }

  /** The turns still to come. */
  function Pending(m: Sim): seq<Turn> {
    if m.sys.cur.None? then []
    else Turns(m.sys.policy, [JobOf(m.sys.policy, m.sys.cur.value)] + Jobs(m.sys.policy, Waiting(m.sys)), m.clock)
  }

  /** Between two ticks: the process on the CPU has some of its slice left, and an idle CPU has nobody to
      serve. */
  predicate InTurn(m: Sim) {
    && Sliced(m.sys.policy) && LevelsRight(m.sys)
    && (m.sys.cur.Some? ==> m.sys.cur.value.remainingSlice > 0)
    && (m.sys.cur.None? ==> Waiting(m.sys) == [])
  }

  lemma SucceedServesFirst(s: Sys, clock: nat)
    requires Sliced(s.policy) && LevelsRight(s)
    ensures var s' := Succeed(s, clock);
      && LevelsRight(s') && s'.policy == s.policy && s'.log == s.log
      && (Waiting(s) == [] ==> s'.cur.None? && Waiting(s') == [])
      && (Waiting(s) != [] ==>
           && s'.cur.Some? && Waiting(s') == Waiting(s)[1..] && s'.cur.value.remainingSlice > 0
           && JobOf(s.policy, s'.cur.value) == JobOf(s.policy, Waiting(s)[0]))
  {
    hide Select, HasWaiting;
    SelectsFirst(s);
  }

  /** A tick within a turn does not change when it ends, nor what comes after it. */
  lemma TurnGoesOn(policy: Policy, j: Job, rest: seq<Job>, at: nat)
    requires Positive(rest) && j.slice > 1 && j.work > 1
    ensures var j' := j.(slice := j.slice - 1, work := j.work - 1);
      && Positive([j] + rest) && Positive([j'] + rest)
      && Turns(policy, [j'] + rest, at + 1) == Turns(policy, [j] + rest, at)
  {
    hide Turns;
    var j' := j.(slice := j.slice - 1, work := j.work - 1);
    assert ([j] + rest)[1..] == rest && ([j'] + rest)[1..] == rest;
    TurnsStep(policy, [j] + rest, at);
    TurnsStep(policy, [j'] + rest, at + 1);
  }

  lemma WaitsTheSame(s: Sys, s': Sys)
    requires s'.policy == s.policy && s'.ready == s.ready && s'.q0 == s.q0 && s'.q1 == s.q1 && s'.q2 == s.q2
    ensures Waiting(s') == Waiting(s)
  {
  }

  lemma TickGoesOn(m: Sim)
    requires InTurn(m) && m.sys.cur.Some?
    requires m.sys.cur.value.remainingSlice > 1 && m.sys.cur.value.remainingTime > 1
    ensures var m', c := SimTick(m), m.sys.cur.value;
      && InTurn(m') && Pending(m') == Pending(m)
      && m' == m.(clock := m.clock + 1, sys := m.sys.(cur := m'.sys.cur)) && IsCurrent(m'.sys, c.pid)
  {
    hide Leave, Turns, Jobs, Waiting;
    var c := m.sys.cur.value;
    var m' := SimTick(m);
    TurnGoesOn(m.sys.policy, JobOf(m.sys.policy, c), Jobs(m.sys.policy, Waiting(m.sys)), m.clock);
    WaitsTheSame(m.sys, m'.sys);
  }

  /** The CPU handed on: the turns to come are those of the whole line. */
  lemma SucceedPending(s: Sys, clock: nat, done: seq<Completion>)
    requires Sliced(s.policy) && LevelsRight(s)
    ensures var m := Sim(Succeed(s, clock), clock, done);
      && InTurn(m) && m.sys.policy == s.policy && m.sys.log == s.log
      && Pending(m) == Turns(s.policy, Jobs(s.policy, Waiting(s)), clock)
  {
    hide Succeed, Turns, Waiting, LevelsRight;
    SucceedServesFirst(s, clock);
    if Waiting(s) == [] {
      NoTurns(s.policy, clock);
      assert Jobs(s.policy, []) == [];
    } else {
      var q := Waiting(s);
      assert Jobs(s.policy, q) == [JobOf(s.policy, q[0])] + Jobs(s.policy, q[1..]);
    }
  }

  /** The job of a process that goes back to its queue at the end of a slice. */
  lemma YieldedRest(policy: Policy, c: Pcb)
    requires Sliced(policy) && c.remainingSlice == 1 && c.remainingTime > 1 && (policy.Mlfq? ==> c.level <= 2)
    ensures JobOf(policy, Yielded(policy, Worked(policy, c))) == Rest(policy, JobOf(policy, c))
    ensures Yielded(policy, Worked(policy, c)).level == c.level
  {
  }

  /** The turns after a job has joined the line again. */
  function TurnsAfter(policy: Policy, line: seq<Job>, j: Job, at: nat): seq<Turn>
    requires Positive(line) && j.work > j.slice
  {
    RejoinWork(line, Rest(policy, j));
    Turns(policy, Rejoin(line, Rest(policy, j)), at)
  }

  lemma TurnEnds(m: Sim)
    requires InTurn(m) && m.sys.cur.Some?
    requires m.sys.cur.value.remainingSlice == 1 || m.sys.cur.value.remainingTime <= 1
    ensures Sliced(m.sys.policy) && (m.sys.policy.Mlfq? ==> m.sys.cur.value.level <= 2)
    ensures var c := m.sys.cur.value; c.remainingTime > 1 ==> c.remainingSlice == 1
    ensures var c, policy := m.sys.cur.value, m.sys.policy;
      var j, rest, now := JobOf(policy, c), Jobs(policy, Waiting(m.sys)), m.clock + 1;
      Pending(m) ==
        if c.remainingTime <= 1 then [Turn(c.pid, j.level, now, true)] + Turns(policy, rest, now)
        else
          assert j.work > j.slice;
          [Turn(c.pid, j.level, now, false)] + TurnsAfter(policy, rest, j, now)
  {
    hide Turns, Waiting;
    var policy := m.sys.policy;
    var j, rest := JobOf(policy, m.sys.cur.value), Jobs(policy, Waiting(m.sys));
    assert ([j] + rest)[1..] == rest;
    TurnsStep(policy, [j] + rest, m.clock);
  }

  lemma LoggedLevels(m: Sim, m1: Sim, c: Pcb)
    requires InTurn(m) && m1 == m.(clock := m1.clock)
    ensures LevelsRight(Logged(m1, c)) && Logged(m1, c).policy == m.sys.policy
  {
  }

  lemma LastTick(m: Sim)
    requires InTurn(m) && m.sys.cur.Some?
    requires m.sys.cur.value.remainingSlice == 1 || m.sys.cur.value.remainingTime <= 1
    ensures SimTick(m) == Leave(m.(clock := m.clock + 1), Worked(m.sys.policy, m.sys.cur.value))
  {
    hide Leave;
  }

  /** The last tick of a turn: it is logged, and the turns to come are the ones after it. */
  lemma TickEndsTurn(m: Sim)
    requires InTurn(m) && m.sys.cur.Some?
    requires m.sys.cur.value.remainingSlice == 1 || m.sys.cur.value.remainingTime <= 1
    ensures var m', c := SimTick(m), m.sys.cur.value; var now, ended := m.clock + 1, m.sys.cur.value.remainingTime <= 1;
      && InTurn(m') && m'.clock == now && m'.sys.policy == m.sys.policy
      && Pending(m) == [Turn(c.pid, JobOf(m.sys.policy, c).level, now, ended)] + Pending(m')
      && m'.done == m.done + (if ended then [Completion(c.pid, c.totalTicks + 1, now)] else [])
      && exists e :: m'.sys.log == m.sys.log + [e] && e.pid == c.pid && e.end == now
  {
    hide Turns, Jobs, Waiting, Enqueue, Succeed, LevelsRight, Pending, InTurn, Rejoin, Yielded, JobOf, Truncated;
    var c, policy := m.sys.cur.value, m.sys.policy;
    var m1, c1 := m.(clock := m.clock + 1), Worked(m.sys.policy, m.sys.cur.value);
    var l := Logged(m1, c1);
    TurnEnds(m);
    WaitsTheSame(m.sys, l);
    LoggedLevels(m, m1, c1);
    assert l.log == m.sys.log + [Entry(c1, c1.startTick, m1.clock)];
    if c.remainingTime <= 1 {
      SucceedPending(l, m1.clock, m.done + [Completion(c1.pid, c1.totalTicks, m1.clock)]);
    } else {
      YieldedRest(policy, c);
      EnqueueRejoins(l, Yielded(policy, c1));
      SucceedPending(Enqueue(l, Yielded(policy, c1)), m1.clock, m.done);
    }
    assert SimTick(m) == Leave(m1, c1) by { LastTick(m); }
  }

  /** The processes that have ended, and when, according to some turns. */
  function Ends(turns: seq<Turn>): seq<(nat, nat)> {
    if turns == [] then []
    else
      var last := turns[|turns| - 1];
      Ends(turns[..|turns| - 1]) + if last.ended then [(last.pid, last.end)] else []
  }

  /** The journal and the record of terminated processes follow these turns. */
  predicate Follows(log: seq<LogEntry>, done: seq<Completion>, turns: seq<Turn>) {
    && |log| == |turns|
    && (forall i :: 0 <= i < |log| ==> log[i].pid == turns[i].pid && log[i].end == turns[i].end)
    && |done| == |Ends(turns)|
    && (forall i :: 0 <= i < |done| ==> done[i].pid == Ends(turns)[i].0 && done[i].at == Ends(turns)[i].1)
  }

  lemma FollowsOn(log: seq<LogEntry>, done: seq<Completion>, turns: seq<Turn>, t: Turn, e: LogEntry, d: seq<Completion>)
    requires Follows(log, done, turns) && e.pid == t.pid && e.end == t.end
    requires if t.ended then |d| == 1 && d[0].pid == t.pid && d[0].at == t.end else d == []
    ensures Follows(log + [e], done + d, turns + [t])
  {
    assert (turns + [t])[..|turns|] == turns;
  }

  /** The simulator has followed a schedule up to some turn, and the turns after it are still to come. */
  predicate OnSchedule(m: Sim, turns: seq<Turn>) {
    && InTurn(m) && |m.sys.log| <= |turns|
    && Follows(m.sys.log, m.done, turns[..|m.sys.log|]) && Pending(m) == turns[|m.sys.log|..]
    && forall i :: 0 <= i < |m.sys.log| ==> turns[i].end <= m.clock
  }

  lemma BusyInTurn(m: Sim)
    requires InTurn(m) && m.sys.cur.Some?
    ensures m.sys.cur.value.remainingSlice > 0
  {
  }

  lemma IdleTick(m: Sim)
    requires InTurn(m) && m.sys.cur.None?
    ensures SimTick(m) == m.(clock := m.clock + 1) && InTurn(SimTick(m)) && Pending(SimTick(m)) == Pending(m)
  {
    hide Select;
    SelectsFirst(m.sys);
  }

  lemma TickStaysOnSchedule(m: Sim, turns: seq<Turn>)
    requires OnSchedule(m, turns)
    ensures OnSchedule(SimTick(m), turns) && SimTick(m).clock == m.clock + 1
  {
    hide InTurn, Pending, SimTick, Follows;
    var n := |m.sys.log|;
    TickClock(m);
    if m.sys.cur.None? {
      IdleTick(m);
    } else if m.sys.cur.value.remainingSlice > 1 && m.sys.cur.value.remainingTime > 1 {
      assert InTurn(m);
      TickGoesOn(m);
    } else {
      BusyInTurn(m);
      TickEndsTurn(m);
      var c, now := m.sys.cur.value, m.clock + 1;
      var t := Turn(c.pid, JobOf(m.sys.policy, c).level, now, c.remainingTime <= 1);
      var d := if t.ended then [Completion(c.pid, c.totalTicks + 1, now)] else [];
      var e :| SimTick(m).sys.log == m.sys.log + [e] && e.pid == c.pid && e.end == now;
      FollowsOn(m.sys.log, m.done, turns[..n], t, e, d);
      assert turns[n] == turns[n..][0] == t && turns[..n] + [t] == turns[..n + 1];
      assert turns[n + 1..] == turns[n..][1..] == Pending(SimTick(m));
    }
  }

  lemma {:induction false} RunStaysOnSchedule(m: Sim, turns: seq<Turn>, ticks: nat)
    requires OnSchedule(m, turns)
    ensures OnSchedule(SimRun(m, ticks), turns) && SimRun(m, ticks).clock == m.clock + ticks
    decreases ticks
  {
    hide OnSchedule, SimTick;
    if ticks > 0 {
      TickStaysOnSchedule(m, turns);
      RunStaysOnSchedule(SimTick(m), turns, ticks - 1);
    }
  }

  /** The turns of the queued processes, by the schedule. */
  function Schedule(s: Sys): seq<Turn> {
    Turns(s.policy, Jobs(s.policy, Waiting(s)), 0)
  }

  /** The state in which the first process has been loaded and not yet charged. */
  function Opened(s: Sys): Sim {
    LoadIfIdle(Begin(s).(clock := 1)).(clock := 0)
  }

  lemma SelectTicksCur(s: Sys)
    requires HasWaiting(s)
    ensures Select(s).next.Some?
  {
  }

  lemma OpenedRuns(s: Sys, ticks: nat)
    requires HasWaiting(s) && ticks > 0
    ensures Simulate(s, ticks) == SimRun(Opened(s), ticks)
  {
    hide ExecuteIfLoaded, Select;
    assert Opened(s).sys.cur.Some? ==> SimTick(Opened(s)) == SimTick(Begin(s));
    SelectTicksCur(Begin(s).sys);
    assert HasWaiting(Begin(s).sys);
    assert SimRun(Begin(s), ticks) == SimRun(SimTick(Begin(s)), ticks - 1);
    assert SimRun(Opened(s), ticks) == SimRun(SimTick(Opened(s)), ticks - 1);
  }

  lemma SameWaiting(s: Sys, s': Sys)
    requires s'.policy == s.policy && s'.ready == s.ready && s'.q0 == s.q0 && s'.q1 == s.q1 && s'.q2 == s.q2
    ensures HasWaiting(s') == HasWaiting(s)
  {
  }

  lemma OpenedOnSchedule(s: Sys)
    requires Sliced(s.policy) && HasWaiting(s) && LevelsRight(s)
    ensures OnSchedule(Opened(s), Schedule(s)) && Opened(s).clock == 0
  {
    hide Select, Turns, HasWaiting;
    var b := Begin(s).sys;
    WaitsTheSame(s, b);
    SameWaiting(s, b);
    SelectsFirst(b);
    var q := Waiting(s);
    assert Jobs(s.policy, q) == [JobOf(s.policy, q[0])] + Jobs(s.policy, q[1..]);
    WaitsTheSame(Select(b).rest, Opened(s).sys);
    assert Follows([], [], Schedule(s)[..0]);
  }

  lemma PendingHead(m: Sim)
    requires InTurn(m)
    ensures if m.sys.cur.None? then Pending(m) == [] && !HasWaiting(m.sys)
            else Pending(m) != [] && Pending(m)[0].pid == m.sys.cur.value.pid && Pending(m)[0].end > m.clock
  {
    hide After;
    SelectsFirst(m.sys);
  }

  /** Whose turn it is at every tick of a simulation under round robin and MLFQ: the journal holds exactly
      the turns of the schedule that have ended, the terminated processes are the ones that ended in them,
      and the process on the CPU is the one whose turn is next to end. */
  lemma SimulationOnSchedule(s: Sys, ticks: nat)
    requires Sliced(s.policy) && HasWaiting(s) && LevelsRight(s) && ticks > 0
    ensures var m, turns := Simulate(s, ticks), Schedule(s); var n := |m.sys.log|;
      && n <= |turns| && Follows(m.sys.log, m.done, turns[..n])
      && (forall i :: 0 <= i < n ==> turns[i].end <= ticks)
      && (n < |turns| ==> m.sys.cur.Some? && m.sys.cur.value.pid == turns[n].pid && turns[n].end > ticks)
      && (n == |turns| ==> m.sys.cur.None? && !HasWaiting(m.sys))
  {
    hide SimRun, Opened, Schedule, InTurn, Follows, HasWaiting;
    var m, turns := Simulate(s, ticks), Schedule(s);
    OpenedRuns(s, ticks);
    OpenedOnSchedule(s);
    RunStaysOnSchedule(Opened(s), turns, ticks);
    PendingHead(m);
    if |m.sys.log| < |turns| {
      assert turns[|m.sys.log|] == turns[|m.sys.log|..][0];
    }
  }

  // ---------------------------------------------------------------------------------------------
  // First turns, levels and slices
  // ---------------------------------------------------------------------------------------------

  /** One turn of each process of a queue, of ten ticks at most. */
  function TenEach(q: seq<Pcb>): nat {
    if q == [] then 0
    else (if q[0].remainingTime > 10 then 10 else Work(q[0])) + TenEach(q[1..])
  }

  /** No process has begun its slice. */
  predicate Fresh(q: seq<Pcb>) {
    forall i :: 0 <= i < |q| ==> q[i].remainingSlice == 0 || q[i].remainingSlice == 10
  }

  lemma {:induction false} TenEachIsTurns(q: seq<Pcb>)
    requires Fresh(q)
    ensures TurnsTicks(Jobs(RoundRobin, q)) == TenEach(q)
  {
    if q != [] {
      TenEachIsTurns(q[1..]);
      assert Jobs(RoundRobin, q)[1..] == Jobs(RoundRobin, q[1..]);
    } else {
      assert Jobs(RoundRobin, []) == [];
    }
  }

  lemma {:induction false} TenEachGrows(q: seq<Pcb>, i: nat, k: nat)
    requires i <= k <= |q|
    ensures TenEach(q[..i]) <= TenEach(q[..k]) && (k < |q| ==> TenEach(q[..k]) < TenEach(q[..k + 1]))
    decreases k
  {
    if k > 0 {
      assert q[..k][1..] == q[1..][..k - 1];
      if i > 0 {
        assert q[..i][1..] == q[1..][..i - 1];
      }
      TenEachGrows(q[1..], if i > 0 then i - 1 else 0, k - 1);
      if k < |q| {
        assert q[..k + 1][1..] == q[1..][..k];
      }
    }
  }

  lemma {:induction false} TurnsTicksLast(line: seq<Job>, k: nat)
    requires k < |line|
    ensures TurnsTicks(line[..k + 1]) == TurnsTicks(line[..k]) + TurnTicks(line[k])
  {
    if k > 0 {
      TurnsTicksLast(line[1..], k - 1);
      assert line[..k + 1][1..] == line[1..][..k] && line[..k][1..] == line[1..][..k - 1];
    } else {
      assert line[..1][1..] == [];
    }
  }

  /** The end of the first turn of the process at position k. */
  lemma FirstTurnEnds(s: Sys, k: nat)
    requires s.policy.RoundRobin? && Fresh(s.ready) && k < |s.ready|
    ensures k < |Schedule(s)| && Schedule(s)[k].pid == s.ready[k].pid
    ensures Schedule(s)[k].end == TenEach(s.ready[..k + 1])
  {
    hide Turns, TurnsTicks;
    var line := Jobs(RoundRobin, s.ready);
    FirstTurn(RoundRobin, line, 0, k);
    TenEachIsTurns(s.ready[..k]);
    TenEachIsTurns(s.ready[..k + 1]);
    assert line[..k] == Jobs(RoundRobin, s.ready[..k]);
    assert line[..k + 1] == Jobs(RoundRobin, s.ready[..k + 1]);
    TurnsTicksLast(line, k);
  }

  lemma TenEachOfNone(q: seq<Pcb>)
    ensures TenEach(q[..0]) == 0
  {
  }

  /** Simulating round robin with whole slices: the process at position k of the queue gets the CPU for the
      first time at exactly the tick that gives each process ahead of it one turn, of ten ticks or of its
      whole work; until then one of those is on the CPU, in the order of the queue. */
  lemma RoundRobinFirstTurn(s: Sys, k: nat, ticks: nat)
    requires s.policy.RoundRobin? && Fresh(s.ready) && 0 < k < |s.ready| && ticks > 0
    ensures var m, at := Simulate(s, ticks), TenEach(s.ready[..k]); var n := |m.sys.log|;
      && (ticks < at ==> n < k && IsCurrent(m.sys, s.ready[n].pid)
                         && TenEach(s.ready[..n]) <= ticks < TenEach(s.ready[..n + 1]))
      && (ticks == at ==> n == k && IsCurrent(m.sys, s.ready[k].pid))
  {
    hide Simulate, Schedule, TenEach;
    SimulationOnSchedule(s, ticks);
    var m, turns := Simulate(s, ticks), Schedule(s);
    var n := |m.sys.log|;
    FirstTurnEnds(s, k);
    TenEachGrows(s.ready, k, k);
    if n < k {
      FirstTurnEnds(s, n);
      TenEachGrows(s.ready, n + 1, k);
      if n > 0 {
        FirstTurnEnds(s, n - 1);
      } else {
        assert TenEach(s.ready[..0]) == 0 by { TenEachOfNone(s.ready); }
      }
    } else if ticks <= TenEach(s.ready[..k]) {
      FirstTurnEnds(s, k - 1);
    }
  }

  lemma JobsTotal(policy: Policy, q: seq<Pcb>)
    ensures JobsWork(Jobs(policy, q)) == TotalWork(q)
  {
    if q != [] {
      assert Jobs(policy, q)[1..] == Jobs(policy, q[1..]);
      JobsTotal(policy, q[1..]);
    }
  }

  /** Simulating MLFQ, where nothing is demoted or boosted: round robin over level 0 with slices of 5 until
      all its processes have ended, then over level 1 with slices of 10, then over level 2 with 20. */
  lemma MlfqSimulatesByLevel(s: Sys)
    requires s.policy.Mlfq? && LevelsRight(s)
    ensures Schedule(s)
         == Turns(Mlfq, Jobs(Mlfq, s.q0), 0)
            + Turns(Mlfq, Jobs(Mlfq, s.q1), TotalWork(s.q0))
            + Turns(Mlfq, Jobs(Mlfq, s.q2), TotalWork(s.q0) + TotalWork(s.q1))
    ensures Ration(Mlfq, 0) == 5 && Ration(Mlfq, 1) == 10 && Ration(Mlfq, 2) == 20
  {
    hide Turns, TotalWork;
    var a, b, c := Jobs(Mlfq, s.q0), Jobs(Mlfq, s.q1), Jobs(Mlfq, s.q2);
    JobsConcat(Mlfq, s.q0 + s.q1, s.q2);
    JobsConcat(Mlfq, s.q0, s.q1);
    LevelsInTurn(Mlfq, a, b, 0);
    LevelsInTurn(Mlfq, a + b, c, 0);
    WorkConcat(a, b);
    JobsTotal(Mlfq, s.q0);
    JobsTotal(Mlfq, s.q1);
  }

  lemma {:induction false} EndsHas(turns: seq<Turn>, i: nat)
    requires i < |turns| && turns[i].ended
    ensures exists k :: 0 <= k < |Ends(turns)| && Ends(turns)[k] == (turns[i].pid, turns[i].end)
  {
    var n := |turns| - 1;
    if i < n {
      EndsHas(turns[..n], i);
      var k :| 0 <= k < |Ends(turns[..n])| && Ends(turns[..n])[k] == (turns[i].pid, turns[i].end);
      assert Ends(turns)[k] == (turns[i].pid, turns[i].end);
    } else {
      assert Ends(turns)[|Ends(turns[..n])|] == (turns[i].pid, turns[i].end);
    }
  }

  /** In a simulation that starts with whole slices, a logged interval with which no process ends, other
      than the first, is exactly a slice, and none is longer. */
  lemma IntervalsAreSlices(s: Sys, ticks: nat, i: nat)
    requires Sliced(s.policy) && HasWaiting(s) && LevelsRight(s) && ticks > 0
    requires FullSlices(s.policy, Jobs(s.policy, Waiting(s)))
    requires 0 < i < |Simulate(s, ticks).sys.log|
    ensures i < |Schedule(s)|
    ensures var m := Simulate(s, ticks); var e := m.sys.log[i];
      var slice := Ration(s.policy, Schedule(s)[i].level);
      && 0 < e.end - e.start <= slice && e.pid == Schedule(s)[i].pid
      && ((forall d :: d in m.done ==> d.at != e.end) ==> e.end - e.start == slice)
  {
    hide SimRun, Turns, LevelsRight, HasWaiting, Ration, Waiting;
    SimulationOnSchedule(s, ticks);
    SimulationTiles(Begin(s), ticks);
    TurnsAreSlices(s.policy, Jobs(s.policy, Waiting(s)), 0, i);
    var m, turns := Simulate(s, ticks), Schedule(s);
    var n := |m.sys.log|;
    if turns[i].ended {
      EndsHas(turns[..n], i);
      var k :| 0 <= k < |Ends(turns[..n])| && Ends(turns[..n])[k] == (turns[i].pid, turns[i].end);
      assert m.done[k] in m.done && m.done[k].at == m.sys.log[i].end;
    }
  }
}
