/** The PCBs and the intrusive singly linked queues of scheduler.c, on the heap. */
module ProcessQueues {
  import opened Words
  import opened Processes
  import opened SchedulerModel

  class Process {
    const pid: nat
    var name: string
    var state: State
    var priority: nat
    var totalTicks: nat
    var startTick: nat
    var timeSlice: nat
    var remainingSlice: nat
    var burstTime: nat
    var remainingTime: nat
    var arrivalTime: nat
    var level: nat
    var allotment: nat
    var blockReason: nat
    var next: Process?

    /** Everything but the link. */
    ghost function Value(): Pcb
      reads `name, `state, `priority, `totalTicks, `startTick, `timeSlice, `remainingSlice,
            `burstTime, `remainingTime, `arrivalTime, `level, `allotment, `blockReason
    {
      Pcb(pid, name, state, priority, totalTicks, startTick, timeSlice, remainingSlice,
          burstTime, remainingTime, arrivalTime, level, allotment, blockReason)
    }

    constructor (p: Pcb)
      ensures Value() == p && next == null
    {
      pid := p.pid;
      name, state, priority := p.name, p.state, p.priority;
      totalTicks, startTick := p.totalTicks, p.startTick;
      timeSlice, remainingSlice := p.timeSlice, p.remainingSlice;
      burstTime, remainingTime, arrivalTime := p.burstTime, p.remainingTime, p.arrivalTime;
      level, allotment, blockReason := p.level, p.allotment, p.blockReason;
      next := null;
    }
  }

  /** The assignments of scheduler_add_process to a PCB. */
  method AdmitProcess(p: Process, mlfq: bool, now: nat, ghost s: Sys)
    requires s.policy.Mlfq? == mlfq && s.now == now
    modifies p`next, p`state, p`burstTime, p`remainingTime, p`arrivalTime, p`level, p`timeSlice, p`remainingSlice
    ensures p.level <= old(p.level)
    ensures p.Value() == Admitted(s, old(p.Value()))
  {
    p.next := null;
    p.state := Ready;
    if p.burstTime == 0 {
      p.burstTime := DEFAULT_BURST;
    }
    if p.remainingTime == 0 {
      p.remainingTime := p.burstTime;
    }
    p.arrivalTime := now % WORD;
    if mlfq {
      p.level := 0;
      p.timeSlice := Quantum(0);
      p.remainingSlice := p.timeSlice;
    } else {
      p.timeSlice := DEFAULT_SLICE;
      p.remainingSlice := DEFAULT_SLICE;
    }
  }

  /** The fields of a PCB that the scheduler branches on. */
  lemma FieldsOf(p: Process)
    ensures var v := p.Value();
      && v.pid == p.pid && v.state == p.state && v.priority == p.priority
      && v.startTick == p.startTick && v.timeSlice == p.timeSlice && v.remainingSlice == p.remainingSlice
      && v.burstTime == p.burstTime && v.remainingTime == p.remainingTime
      && v.level == p.level && v.allotment == p.allotment
  {
  }

  /** The process at a position, NULL beyond either end. */
  ghost function At(ps: seq<Process>, i: int): Process? {
    if 0 <= i < |ps| then ps[i] else null
  }

  /** The process at position i has the given PCB and links to the one after it. */
  ghost predicate Linked(ps: seq<Process>, pcbs: seq<Pcb>, i: nat)
    requires i < |ps| == |pcbs|
    reads ps[i]
  {
    ps[i].next == At(ps, i + 1) && ps[i].Value() == pcbs[i]
  }

  lemma WithoutMembers(ps: seq<Process>, k: nat)
    requires k < |ps| && forall i, j :: 0 <= i < j < |ps| ==> ps[i] != ps[j]
    ensures forall x :: x in Without(ps, k) <==> x in ps && x != ps[k]
  {
    forall x | x in ps && x != ps[k] ensures x in Without(ps, k) {
      var i :| 0 <= i < |ps| && ps[i] == x;
      assert Without(ps, k)[if i < k then i else i - 1] == x;
    }
  }

  lemma WithoutAt<T>(q: seq<T>, k: nat)
    requires k < |q|
    ensures |Without(q, k)| == |q| - 1
    ensures forall j :: 0 <= j < |q| - 1 ==> Without(q, k)[j] == q[if j < k then j else j + 1]
  {
  }

  lemma HeadOnly<T>(q: seq<T>)
    requires q != []
    ensures Without(q, 0) == q[1..]
  {
  }

  ghost predicate DistinctPids(ps: set<Process>) {
    forall p, p' :: p in ps && p' in ps && p.pid == p'.pid ==> p == p'
  }

  /** The PCBs of these processes by pid. */
  ghost function ByPid(ps: set<Process>): map<nat, Pcb>
    requires DistinctPids(ps)
    reads ps
  {
    map p | p in ps :: p.pid := p.Value()
  }

  twostate lemma ByPidSame(ps: set<Process>)
    requires DistinctPids(ps) && forall p :: p in ps ==> p.Value() == old(p.Value())
    ensures ByPid(ps) == old(ByPid(ps))
  {
  }

  /** One process leaves. */
  twostate lemma ByPidWithout(ps: set<Process>, new p: Process)
    requires DistinctPids(ps) && p in ps && forall x :: x in ps && x != p ==> x.Value() == old(x.Value())
    ensures ByPid(ps - {p}) == old(ByPid(ps)) - {p.pid}
  {
  }

  /** One process joins, or is there and changes. */
  twostate lemma ByPidPut(ps: set<Process>, new p: Process)
    requires DistinctPids(ps + {p}) && forall x :: x in ps && x != p ==> x.Value() == old(x.Value())
    ensures ByPid(ps + {p}) == old(ByPid(ps))[p.pid := p.Value()]
  {
  }

  class Queue {
    var head: Process?
    var tail: Process?
    var count: nat
    ghost var Contents: seq<Process>
    ghost var View: seq<Pcb>

    /** head, tail, count and the links spell out the contents, each process once, and the view is
        the sequence of their PCBs. */
    ghost predicate Valid()
      reads this, Contents
    {
      && count == |Contents| == |View|
      && head == At(Contents, 0)
      && tail == At(Contents, |Contents| - 1)
      && (forall i :: 0 <= i < |Contents| ==> Linked(Contents, View, i))
      && (forall i, j :: 0 <= i < j < |Contents| ==> Contents[i] != Contents[j])
    }

    constructor ()
      ensures Valid() && Contents == [] && View == []
    {
      head, tail, count, Contents, View := null, null, 0, [], [];
    }

    method Enqueue(process: Process?)
      requires Valid() && (process != null ==> process !in Contents)
      modifies this, Contents`next, (if process == null then {} else {process})`next
      ensures Valid()
      ensures Contents == if process == null then old(Contents) else old(Contents) + [process]
      ensures View == if process == null then old(View) else old(View) + [process.Value()]
    {
      if process == null {
        return;
      }
      process.next := null;
      if tail == null {
        head := process;
        tail := process;
      } else {
        tail.next := process;
        tail := process;
      }
      count := count + 1;
      ghost var before := Contents;
      Contents, View := before + [process], View + [process.Value()];
      forall i | 0 <= i < |Contents| ensures Linked(Contents, View, i) {
        assert i < |before| ==> old(Linked(Contents, View, i));
      }
    }

    method Dequeue() returns (process: Process?)
      requires Valid()
      modifies this, Contents`next
      ensures Valid()
      ensures old(Contents) == [] ==> process == null && Contents == [] && View == []
      ensures old(Contents) != [] ==>
        && process == old(Contents)[0] && process.next == null && process.Value() == old(View)[0]
        && Contents == old(Contents)[1..] && View == old(View)[1..]
    {
      if head == null {
        return null;
      }
      assert Linked(Contents, View, 0);
      process := head;
      head := process.next;
      if head == null {
        tail := null;
      }
      process.next := null;
      count := count - 1;
      ghost var before := Contents;
      Contents, View := before[1..], View[1..];
      forall i | 0 <= i < |Contents| ensures Linked(Contents, View, i) {
        assert old(Linked(Contents, View, i + 1));
      }
    }

    /** The last part of queue_remove: the process after `current`, at position i, is bypassed. */
    method Unlink(current: Process, process: Process, ghost i: nat)
      requires Valid() && i + 1 < |Contents| && Contents[i] == current && Contents[i + 1] == process
      modifies this, Contents`next
      ensures Valid() && process.next == null
      ensures Contents == Without(old(Contents), i + 1) && View == Without(old(View), i + 1)
    {
      hide Process.Value, Without;
      WithoutAt(Contents, i + 1);
      WithoutAt(View, i + 1);
      assert Linked(Contents, View, i + 1);
      current.next := process.next;
      if tail == process {
        tail := current;
      }
      process.next := null;
      count := count - 1;
      Contents, View := Without(Contents, i + 1), Without(View, i + 1);
      forall j | 0 <= j < |Contents| ensures Linked(Contents, View, j) {
        assert old(Linked(Contents, View, if j <= i then j else j + 1));
      }
    }

    /** Takes a process out, keeping the order of the others; a process that is not there, or NULL,
        is ignored. */
    method Remove(process: Process?)
      requires Valid()
      modifies this, Contents`next
      ensures Valid()
      ensures process == null || process !in old(Contents) ==> Contents == old(Contents) && View == old(View)
      ensures process != null ==> forall k :: 0 <= k < |old(Contents)| && old(Contents)[k] == process ==>
        Contents == Without(old(Contents), k) && View == Without(old(View), k) && process.next == null
    {
      hide Process.Value, Without;
      if head == null || process == null {
        return;
      }
      if head == process {
        HeadOnly(Contents);
        HeadOnly(View);
        var _ := Dequeue();
        return;
      }
      var current := head;
      ghost var i := 0;
      while current.next != null && current.next != process
        invariant 0 <= i < |Contents| && current == Contents[i]
        invariant forall j :: 0 <= j <= i ==> Contents[j] != process
        decreases |Contents| - i
      {
        assert Linked(Contents, View, i);
        current := current.next;
        i := i + 1;
      }
      assert Linked(Contents, View, i);
      if current.next == process {
        Unlink(current, process, i);
      }
    }

    method Peek() returns (process: Process?)
      requires Valid()
      ensures process == At(Contents, 0)
    {
      process := head;
    }

    method IsEmpty() returns (empty: bool)
      requires Valid()
      ensures empty <==> Contents == []
    {
      empty := head == null;
    }
  }

  /** find_highest_priority: the earliest of the processes of greatest priority. */
  method FindHighestPriority(queue: Queue) returns (best: Process?)
    requires queue.Valid()
    ensures best == null <==> queue.Contents == []
    ensures best != null ==> var k := Choice(Priority, queue.View);
      best == queue.Contents[k] && best.Value() == queue.View[k]
  {
    hide Choice, IsChoice;
    if queue.head == null {
      return null;
    }
    best := queue.head;
    assert Linked(queue.Contents, queue.View, 0);
    var current := queue.head.next;
    ghost var q := queue.View;
    ghost var i, b := 1, 0;
    ChoiceOfOne(Priority, q);
    while current != null
      invariant 1 <= i <= |q| && 0 <= b < i && best == queue.Contents[b] && best.Value() == q[b]
      invariant current == At(queue.Contents, i)
      invariant IsChoice(Priority, q[..i], b)
      decreases |q| - i
    {
      ChoiceExtends(Priority, q, i, b);
      assert Linked(queue.Contents, queue.View, i);
      if current.priority > best.priority {
        best := current;
        b := i;
      }
      current := current.next;
      i := i + 1;
    }
    assert q[..i] == q;
    ChoiceUnique(Priority, q, b, Choice(Priority, q));
  }

  /** find_shortest_job: the earliest of the processes of least burst time. */
  method FindShortestJob(queue: Queue) returns (best: Process?)
    requires queue.Valid()
    ensures best == null <==> queue.Contents == []
    ensures best != null ==> var k := Choice(Sjf, queue.View);
      best == queue.Contents[k] && best.Value() == queue.View[k]
  {
    hide Choice, IsChoice;
    if queue.head == null {
      return null;
    }
    best := queue.head;
    assert Linked(queue.Contents, queue.View, 0);
    var current := queue.head.next;
    ghost var q := queue.View;
    ghost var i, b := 1, 0;
    ChoiceOfOne(Sjf, q);
    while current != null
      invariant 1 <= i <= |q| && 0 <= b < i && best == queue.Contents[b] && best.Value() == q[b]
      invariant current == At(queue.Contents, i)
      invariant IsChoice(Sjf, q[..i], b)
      decreases |q| - i
    {
      ChoiceExtends(Sjf, q, i, b);
      assert Linked(queue.Contents, queue.View, i);
      if current.burstTime < best.burstTime {
        best := current;
        b := i;
      }
      current := current.next;
      i := i + 1;
    }
    assert q[..i] == q;
    ChoiceUnique(Sjf, q, b, Choice(Sjf, q));
  }

  /** find_shortest_remaining: the earliest of the processes of least remaining time. */
  method FindShortestRemaining(queue: Queue) returns (best: Process?)
    requires queue.Valid()
    ensures best == null <==> queue.Contents == []
    ensures best != null ==> var k := Choice(Srtf, queue.View);
      best == queue.Contents[k] && best.Value() == queue.View[k]
  {
    hide Choice, IsChoice;
    if queue.head == null {
      return null;
    }
    best := queue.head;
    assert Linked(queue.Contents, queue.View, 0);
    var current := queue.head.next;
    ghost var q := queue.View;
    ghost var i, b := 1, 0;
    ChoiceOfOne(Srtf, q);
    while current != null
      invariant 1 <= i <= |q| && 0 <= b < i && best == queue.Contents[b] && best.Value() == q[b]
      invariant current == At(queue.Contents, i)
      invariant IsChoice(Srtf, q[..i], b)
      decreases |q| - i
    {
      ChoiceExtends(Srtf, q, i, b);
      assert Linked(queue.Contents, queue.View, i);
      if current.remainingTime < best.remainingTime {
        best := current;
        b := i;
      }
      current := current.next;
      i := i + 1;
    }
    assert q[..i] == q;
    ChoiceUnique(Srtf, q, b, Choice(Srtf, q));
  }
}
