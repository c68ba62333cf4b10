/** scheduler.c as steps over values: each queue is the sequence of the PCBs it holds. The heap
    version in module Scheduling is proved to take exactly these steps. */
module SchedulerModel {
  import opened Words
  import opened Wrappers
  import opened Processes

  datatype Policy = Fcfs | RoundRobin | Priority | Sjf | Srtf | Mlfq

  const DEFAULT_SLICE: nat := 10
  const DEFAULT_BURST: nat := 50
  const MLFQ_LEVELS: nat := 3
  const BOOST_INTERVAL: nat := 500
  const FULL_ALLOTMENT: nat := 30

  function Quantum(level: nat): nat {
    match level
    case 0 => 5
    case 1 => 10
    case _ => 20
  }

  datatype LogEntry = LogEntry(pid: nat, name: string, start: nat, end: nat, duration: nat)

  /** The globals of scheduler.c together with the timer count. `log` holds every entry logged since
      the journal was last reset; the 100-slot array that stores them is in module Journal. */
  datatype Sys = Sys(
    policy: Policy,
    now: nat,
    lastBoost: nat,
    ready: seq<Pcb>,
    q0: seq<Pcb>,
    q1: seq<Pcb>,
    q2: seq<Pcb>,
    cur: Option<Pcb>,
    log: seq<LogEntry>,
    switches: nat)

  function Init(policy: Policy, now: nat): Sys {
    Sys(policy, now, 0, [], [], [], [], None, [], 0)
  }

  function Queued(s: Sys): seq<Pcb> {
    s.ready + (s.q0 + (s.q1 + s.q2))
  }

  // ---------------------------------------------------------------------------------------------
  // Selection
  // ---------------------------------------------------------------------------------------------

  /** Whether the policy strictly prefers a to b. */
  predicate Better(policy: Policy, a: Pcb, b: Pcb) {
    match policy
    case Priority => a.priority > b.priority
    case Sjf => a.burstTime < b.burstTime
    case Srtf => a.remainingTime < b.remainingTime
    case _ => false
  }

  /** Position k holds a process that nothing in the queue beats, and it beats everything before it. */
  predicate IsChoice(policy: Policy, q: seq<Pcb>, k: nat) {
    && k < |q|
    && (forall i :: 0 <= i < |q| ==> !Better(policy, q[i], q[k]))
    && (forall i :: 0 <= i < k ==> Better(policy, q[k], q[i]))
  }

  function Choice(policy: Policy, q: seq<Pcb>): (k: nat)
    requires |q| > 0
    ensures IsChoice(policy, q, k)
  {
    var n := |q| - 1;
    if n == 0 then 0 else
      var best := Choice(policy, q[..n]);
      if Better(policy, q[n], q[best]) then n else best
  }

  lemma ChoiceUnique(policy: Policy, q: seq<Pcb>, i: nat, k: nat)
    requires IsChoice(policy, q, i) && IsChoice(policy, q, k)
    ensures i == k
  {
    var a, b := q[i], q[k];
  }

  lemma ChoiceOfOne(policy: Policy, q: seq<Pcb>)
    requires |q| > 0
    ensures IsChoice(policy, q[..1], 0)
  {
  }

  /** How a scan of the queue keeps the choice of the part it has seen. */
  lemma ChoiceExtends(policy: Policy, q: seq<Pcb>, i: nat, best: nat)
    requires 0 < i < |q| && IsChoice(policy, q[..i], best)
    ensures IsChoice(policy, q[..i + 1], if Better(policy, q[i], q[best]) then i else best)
  {
    assert forall j :: 0 <= j < i ==> q[..i][j] == q[..i + 1][j];
  }

  lemma ChoiceIsHead(policy: Policy, q: seq<Pcb>)
    requires policy.Fcfs? || policy.RoundRobin?
    ensures |q| > 0 ==> Choice(policy, q) == 0
  {
    if |q| > 0 {
      ChoiceUnique(policy, q, 0, Choice(policy, q));
    }
  }

  /** The earliest of the best processes of a queue: of the highest priority, the least estimate or the
      least remaining time; the head under the policies without a key. */
  predicate EarliestBest(policy: Policy, q: seq<Pcb>, k: nat) {
    k < |q| &&
    match policy
    case Priority =>
      && (forall i :: 0 <= i < |q| ==> q[i].priority <= q[k].priority)
      && (forall i :: 0 <= i < k ==> q[i].priority < q[k].priority)
    case Sjf =>
      && (forall i :: 0 <= i < |q| ==> q[k].burstTime <= q[i].burstTime)
      && (forall i :: 0 <= i < k ==> q[k].burstTime < q[i].burstTime)
    case Srtf =>
      && (forall i :: 0 <= i < |q| ==> q[k].remainingTime <= q[i].remainingTime)
      && (forall i :: 0 <= i < k ==> q[k].remainingTime < q[i].remainingTime)
    case _ => k == 0
  }

  lemma ChoiceIsEarliestBest(policy: Policy, q: seq<Pcb>)
    requires |q| > 0
    ensures EarliestBest(policy, q, Choice(policy, q))
  {
    var k := Choice(policy, q);
    if policy.Fcfs? || policy.RoundRobin? || policy.Mlfq? {
      ChoiceUnique(policy, q, 0, k);
    } else {
      assert forall i :: 0 <= i < |q| ==> !Better(policy, q[i], q[k]);
    }
  }

  predicate HasWaiting(s: Sys) {
    if s.policy.Mlfq? then |s.q0| > 0 || |s.q1| > 0 || |s.q2| > 0 else |s.ready| > 0
  }

  datatype Selection = Selection(next: Option<Pcb>, rest: Sys)

  /** select_next_process: the process taken out of the queues, and what remains. */
  function Select(s: Sys): (r: Selection)
    ensures r.next.Some? <==> HasWaiting(s)
    ensures r.next.None? ==> r.rest == s
  {
    if s.policy.Mlfq? then
      if |s.q0| > 0 then Selection(Some(s.q0[0]), s.(q0 := s.q0[1..]))
      else if |s.q1| > 0 then Selection(Some(s.q1[0]), s.(q1 := s.q1[1..]))
      else if |s.q2| > 0 then Selection(Some(s.q2[0]), s.(q2 := s.q2[1..]))
      else Selection(None, s)
    else if |s.ready| > 0 then
      var k := Choice(s.policy, s.ready);
      Selection(Some(s.ready[k]), s.(ready := Without(s.ready, k)))
    else Selection(None, s)
  }

  function EnqueueLevel(s: Sys, level: nat, p: Pcb): Sys {
    match level
    case 0 => s.(q0 := s.q0 + [p])
    case 1 => s.(q1 := s.q1 + [p])
    case _ => s.(q2 := s.q2 + [p])
  }

  function Enqueue(s: Sys, p: Pcb): (r: Sys)
    ensures HasWaiting(r)
  {
    if s.policy.Mlfq? then EnqueueLevel(s, p.level, p) else s.(ready := s.ready + [p])
  }

  // ---------------------------------------------------------------------------------------------
  // Adding, removing, boosting, changing policy
  // ---------------------------------------------------------------------------------------------

  predicate Schedulable(p: Pcb) {
    p.state.Ready? || p.state.Running?
  }

  /** The PCB as scheduler_add_process leaves it. */
  function Admitted(s: Sys, p: Pcb): Pcb {
    var burst := if p.burstTime == 0 then DEFAULT_BURST else p.burstTime;
    var remaining := if p.remainingTime == 0 then burst else p.remainingTime;
    var slice := if s.policy.Mlfq? then Quantum(0) else DEFAULT_SLICE;
    p.(state := Ready, burstTime := burst, remainingTime := remaining, arrivalTime := s.now % WORD,
       level := if s.policy.Mlfq? then 0 else p.level, timeSlice := slice, remainingSlice := slice)
  }

  function AddProcess(s: Sys, p: Pcb): Sys {
    if Schedulable(p) then s else Enqueue(s, Admitted(s, p))
  }

  function RemoveProcess(s: Sys, pid: nat): Sys {
    if s.policy.Mlfq? then
      s.(q0 := RemovePid(s.q0, pid), q1 := RemovePid(s.q1, pid), q2 := RemovePid(s.q2, pid))
    else s.(ready := RemovePid(s.ready, pid))
  }

  function Refreshed(p: Pcb): Pcb {
    p.(level := 0, allotment := FULL_ALLOTMENT, timeSlice := Quantum(0), remainingSlice := Quantum(0))
  }

  /** Every process of the queue sent back to the top level with a full allotment. */
  function RefreshAll(q: seq<Pcb>): (r: seq<Pcb>)
    ensures |r| == |q| && forall i :: 0 <= i < |q| ==> r[i] == Refreshed(q[i])
  {
    seq(|q|, i requires 0 <= i < |q| => Refreshed(q[i]))
  }

  lemma RefreshNone(q: seq<Pcb>)
    ensures RefreshAll(q[..0]) == []
  {
  }

  lemma RefreshNext(q: seq<Pcb>, k: nat)
    requires k < |q|
    ensures RefreshAll(q[..k + 1]) == RefreshAll(q[..k]) + [Refreshed(q[k])]
  {
  }

  function Boost(s: Sys): Sys {
    if s.policy.Mlfq? then
      s.(q0 := s.q0 + RefreshAll(s.q1) + RefreshAll(s.q2), q1 := [], q2 := [], lastBoost := s.now)
    else s
  }

  function SetPolicy(s: Sys, policy: Policy): Sys {
    if s.policy.Mlfq? && !policy.Mlfq? then
      s.(ready := s.ready + s.q0 + s.q1 + s.q2, q0 := [], q1 := [], q2 := [], policy := policy)
    else if !s.policy.Mlfq? && policy.Mlfq? then
      s.(q0 := s.q0 + RefreshAll(s.ready), ready := [], lastBoost := s.now, policy := policy)
    else s.(policy := policy)
  }

  // ---------------------------------------------------------------------------------------------
  // The timer step
  // ---------------------------------------------------------------------------------------------

  predicate BoostDue(s: Sys) {
    s.policy.Mlfq? && s.now - s.lastBoost >= BOOST_INTERVAL
  }

  function BoostIfDue(s: Sys): Sys {
    if BoostDue(s) then Boost(s) else s
  }

  /** The PCB put on the CPU when it was idle. */
  function Started(p: Pcb, now: nat): Pcb {
    p.(state := Running, remainingSlice := p.timeSlice, startTick := now)
  }

  function Dispatch(s: Sys): Sys {
    var sel := Select(s);
    if sel.next.Some? then sel.rest.(cur := Some(Started(sel.next.value, s.now))) else s
  }

  /** The current process charged one tick. */
  function Charged(policy: Policy, c: Pcb): Pcb {
    c.(totalTicks := c.totalTicks + 1,
       remainingSlice := Dec32(c.remainingSlice),
       remainingTime := if policy.Srtf? && c.remainingTime > 0 then c.remainingTime - 1 else c.remainingTime,
       allotment := if policy.Mlfq? && c.allotment > 0 then c.allotment - 1 else c.allotment)
  }

  predicate ShouldSwitch(s: Sys, c: Pcb) {
    match s.policy
    case RoundRobin => c.remainingSlice == 0
    case Mlfq => c.remainingSlice == 0
    case Priority => |s.ready| > 0 && Better(s.policy, s.ready[Choice(s.policy, s.ready)], c)
    case Srtf => |s.ready| > 0 && Better(s.policy, s.ready[Choice(s.policy, s.ready)], c)
    case _ => false
  }

  /** Demotion of an MLFQ process whose slice and allotment are both used up. */
  function Demoted(policy: Policy, c: Pcb): Pcb {
    if policy.Mlfq? && c.remainingSlice == 0 && c.allotment == 0 && c.level < MLFQ_LEVELS - 1 then
      c.(level := c.level + 1, allotment := FULL_ALLOTMENT)
    else c
  }

  function Truncated(name: string): string {
    if |name| <= 15 then name else name[..15]
  }

  function Entry(c: Pcb, start: nat, end: nat): LogEntry {
    LogEntry(c.pid, Truncated(c.name), start, end, (end - start) % WORD)
  }

  function Requeued(policy: Policy, c: Pcb): Pcb {
    c.(state := Ready, timeSlice := if policy.Mlfq? then Quantum(c.level) else c.timeSlice)
  }

  function SwitchedIn(policy: Policy, p: Pcb, now: nat): Pcb {
    var slice := if policy.Mlfq? then Quantum(p.level) else p.timeSlice;
    p.(state := Running, timeSlice := slice, remainingSlice := slice, startTick := now)
  }

  /** c's time on the CPU logged, and c off it. */
  function Vacated(s: Sys, c: Pcb): Sys {
    s.(cur := None, log := s.log + [Entry(c, c.startTick, s.now)])
  }

  /** The context switch away from c, another process being there to run. */
  function Switch(s: Sys, c: Pcb): Sys {
    var s1 := Enqueue(Vacated(s, c), Requeued(s.policy, c));
    var sel := Select(s1);
    sel.rest.(cur := Some(SwitchedIn(s.policy, sel.next.value, s.now)), switches := s.switches + 1)
  }

  /** scheduler_schedule after its boost check. */
  function Step(s: Sys): Sys {
    if s.cur.None? then Dispatch(s) else
      var charged := Charged(s.policy, s.cur.value);
      if !ShouldSwitch(s, charged) then s.(cur := Some(charged)) else
        var c := Demoted(s.policy, charged);
        if HasWaiting(s) then Switch(s, c) else s.(cur := Some(c.(remainingSlice := c.timeSlice)))
  }

  function Schedule(s: Sys): Sys {
    Step(BoostIfDue(s))
  }

  /** The timer interrupt with the scheduler enabled. */
  function TimerTick(s: Sys): Sys {
    Schedule(s.(now := s.now + 1))
  }

  lemma EnqueueForgetsCurrent(s: Sys, cur: Option<Pcb>, p: Pcb)
    ensures Enqueue(s.(cur := cur), p) == Enqueue(s, p).(cur := cur) && Enqueue(s, p).cur == s.cur
  {
  }

  /** The decision to switch, and the switch itself, take the process to switch from as they find it. */
  lemma SwitchForgetsCurrent(s: Sys, cur: Option<Pcb>, c: Pcb)
    ensures ShouldSwitch(s.(cur := cur), c) == ShouldSwitch(s, c)
    ensures HasWaiting(s.(cur := cur)) == HasWaiting(s)
    ensures Switch(s.(cur := cur), c) == Switch(s, c)
  {
    hide Select, Enqueue, Choice;
  }
}
