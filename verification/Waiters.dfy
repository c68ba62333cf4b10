/** The waiter arrays of sync.c. Mutexes and semaphores hold the same array and the same pair of
    functions on it. */
module Waiters {
  import opened Signals
  import opened Wrappers

  const MAX_WAITERS: nat := 8

  const SUCCESS: int := 0
  const ERROR_BUSY: int := -1
  const ERROR_NOTFOUND: int := -2
  const ERROR_NOSLOT: int := -4
  const ERROR_PARAM: int := -5
  const ERROR_EXISTS: int := -6
  const ERROR_WOULDBLOCK: int := -7

  /** Result code of an operation on a found mutex or semaphore, what it makes of it, and the calls it
      makes to the scheduler, in order. */
  datatype Outcome<T> = Outcome(code: int, body: T, signals: seq<Signal>)

  /** A process is dropped when the array is full. */
  function Added(waiters: seq<nat>, p: nat): seq<nat> {
    if |waiters| < MAX_WAITERS then waiters + [p] else waiters
  }

  /** The processes 1 to n. */
  function UpTo(n: nat): (s: seq<nat>)
    ensures |s| == n && forall i :: 0 <= i < n ==> s[i] == i + 1
  {
    seq(n, i requires 0 <= i => i + 1)
  }

  function Min(a: nat, b: nat): nat {
    if a < b then a else b
  }

  class WaiterArray {
    const slots: array<nat>
    var count: nat

    ghost predicate Valid()
      reads this
    {
      slots.Length == MAX_WAITERS && count <= MAX_WAITERS
    }

    /** The waiting processes, first come first. */
    ghost function View(): (s: seq<nat>)
      requires Valid()
      reads this, slots
    {
      slots[..count]
    }

    constructor ()
      ensures Valid() && fresh(slots) && View() == []
    {
      slots := new nat[MAX_WAITERS](_ => 0);
      count := 0;
    }

    method Add(p: nat)
      requires Valid()
      modifies this, slots
      ensures Valid() && View() == Added(old(View()), p)
    {
      if count < MAX_WAITERS {
        slots[count] := p;
        count := count + 1;
      }
    }

    /** Takes the first waiter out and moves the others one place down. */
    method Remove() returns (p: Option<nat>)
      requires Valid()
      modifies this, slots
      ensures Valid()
      ensures if old(View()) == [] then p == None && View() == []
              else p == Some(old(View())[0]) && View() == old(View())[1..]
    {
      if count == 0 {
        return None;
      }
      p := Some(slots[0]);
      for i := 0 to count - 1
        invariant count == old(count)
        invariant forall j :: 0 <= j < i ==> slots[j] == old(slots[j + 1])
        invariant forall j :: i <= j < slots.Length ==> slots[j] == old(slots[j])
      {
        slots[i] := slots[i + 1];
      }
      count := count - 1;
    }

    /** The loop of the two destroy functions: wakes the waiters, first come first. */
    method WakeAll() returns (signals: seq<Signal>)
      requires Valid()
      modifies this, slots
      ensures Valid() && View() == [] && signals == Unblocks(old(View()))
    {
      signals := [];
      while count > 0
        invariant Valid()
        invariant |signals| + count == old(count) && View() == old(View())[|signals|..]
        invariant forall i :: 0 <= i < |signals| ==> signals[i] == Unblock(old(View())[i])
      {
        var p := Remove();
        if p.Some? {
          signals := signals + [Unblock(p.value)];
        }
      }
    }
  }
}
