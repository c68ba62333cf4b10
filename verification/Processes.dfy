/** Option values, standing for C pointers that may be NULL. */
module Wrappers {

  datatype Option<+T> = None | Some(value: T)
}

/** What the other modules ask of the scheduler. */
module Signals {

  const BLOCK_REASON_MUTEX: nat := 2
  const BLOCK_REASON_SEM: nat := 3
  const BLOCK_REASON_MBOX_FULL: nat := 4
  const BLOCK_REASON_MBOX_EMPTY: nat := 5

  /** A call of scheduler_block_process, after the process with this pid got its block_reason and
      block_resource (named by its identifier), or of scheduler_unblock_process. */
  datatype Signal = Block(pid: nat, reason: nat, resource: nat) | Unblock(pid: nat)

  function Unblocks(pids: seq<nat>): (s: seq<Signal>)
    ensures |s| == |pids| && forall i :: 0 <= i < |s| ==> s[i] == Unblock(pids[i])
  {
    seq(|pids|, i requires 0 <= i < |pids| => Unblock(pids[i]))
  }
}

/** The process control block of process.h, as a value. */
module Processes {

  datatype State = New | Ready | Running | Blocked | Terminated

  /** The fields of process_t that the scheduler reads or writes. The link `next` belongs to the
      queues (see module ProcessQueues). */
  datatype Pcb = Pcb(
    pid: nat,
    name: string,
    state: State,
    priority: nat,
    totalTicks: nat,
    startTick: nat,
    timeSlice: nat,
    remainingSlice: nat,
    burstTime: nat,
    remainingTime: nat,
    arrivalTime: nat,
    level: nat,
    allotment: nat,
    blockReason: nat)

  /** How many times a process is in a queue. */
  function Count(q: seq<Pcb>, pid: nat): nat {
    if q == [] then 0 else (if q[0].pid == pid then 1 else 0) + Count(q[1..], pid)
  }

  /** The queue without its element at position k. */
  function Without<T>(q: seq<T>, k: nat): seq<T>
    requires k < |q|
  {
    q[..k] + q[k + 1..]
  }

  lemma CountConcat(a: seq<Pcb>, b: seq<Pcb>, pid: nat)
    ensures Count(a + b, pid) == Count(a, pid) + Count(b, pid)
  {
    if a == [] {
      assert a + b == b;
    } else {
      assert (a + b)[1..] == a[1..] + b;
      CountConcat(a[1..], b, pid);
    }
  }

  lemma CountAppend(q: seq<Pcb>, p: Pcb, pid: nat)
    ensures Count(q + [p], pid) == Count(q, pid) + (if p.pid == pid then 1 else 0)
  {
    CountConcat(q, [p], pid);
  }

  /** Taking one process out of a queue takes exactly one occurrence of its pid out. */
  lemma CountWithout(q: seq<Pcb>, k: nat, pid: nat)
    requires k < |q|
    ensures Count(Without(q, k), pid) + (if q[k].pid == pid then 1 else 0) == Count(q, pid)
  {
    assert q == q[..k] + ([q[k]] + q[k + 1..]);
    CountConcat(q[..k], [q[k]] + q[k + 1..], pid);
    CountConcat(q[..k], q[k + 1..], pid);
    assert ([q[k]] + q[k + 1..])[1..] == q[k + 1..];
  }

  lemma CountPositive(q: seq<Pcb>, k: nat)
    requires k < |q|
    ensures Count(q, q[k].pid) > 0
  {
    if k > 0 {
      CountPositive(q[1..], k - 1);
    }
  }

  /** Queues that agree on the pids agree on the counts. */
  lemma CountSamePids(a: seq<Pcb>, b: seq<Pcb>, pid: nat)
    requires |a| == |b| && forall i :: 0 <= i < |a| ==> a[i].pid == b[i].pid
    ensures Count(a, pid) == Count(b, pid)
  {
    if a != [] {
      CountSamePids(a[1..], b[1..], pid);
    }
  }

  /** Removing by pid removes the first process that has it. */
  function RemovePid(q: seq<Pcb>, pid: nat): seq<Pcb> {
    if q == [] then []
    else if q[0].pid == pid then q[1..]
    else [q[0]] + RemovePid(q[1..], pid)
  }

  lemma WithoutHead<T>(q: seq<T>, k: nat)
    requires 0 < k < |q|
    ensures Without(q, k) == [q[0]] + Without(q[1..], k - 1)
  {
  }

  lemma {:induction false} RemovePidAt(q: seq<Pcb>, k: nat)
    requires k < |q| && forall i :: 0 <= i < k ==> q[i].pid != q[k].pid
    ensures RemovePid(q, q[k].pid) == Without(q, k)
  {
    if k == 0 {
      assert Without(q, 0) == q[1..];
    } else {
      var rest := q[1..];
      assert rest[k - 1] == q[k] && forall i :: 0 <= i < k - 1 ==> rest[i] == q[i + 1];
      RemovePidAt(rest, k - 1);
      WithoutHead(q, k);
    }
  }

  lemma RemovePidAbsent(q: seq<Pcb>, pid: nat)
    requires forall i :: 0 <= i < |q| ==> q[i].pid != pid
    ensures RemovePid(q, pid) == q
  {
  }
}
