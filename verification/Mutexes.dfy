/** The mutexes of sync.c. Blocking is literal: a lock that finds the mutex taken registers its caller,
    blocks it and reports success at once. */
module Mutexes {
  import opened Signals
  import opened SyncTables
  import opened Waiters
  import opened Words
  import opened Wrappers

  /** The fields of mutex_t besides its identifier, name and active flag. */
  datatype Mutex = Mutex(locked: bool, owner: nat, waiters: seq<nat>, lockCount: nat, contentionCount: nat)

  /** What mutex_create writes into a free slot. */
  const CREATED: Mutex := Mutex(false, 0, [], 0, 0)

  /** The pid of the current process, 0 when there is none. */
  function PidOf(current: Option<nat>): nat {
    if current.Some? then current.value else 0
  }

  function Taken(m: Mutex, current: Option<nat>): Mutex {
    m.(locked := true, owner := PidOf(current), lockCount := Inc32(m.lockCount))
  }

  /** mutex_lock on the mutex with this identifier. */
  function Lock(m: Mutex, id: nat, current: Option<nat>): Outcome<Mutex> {
    if !m.locked then Outcome(SUCCESS, Taken(m, current), [])
    else
      var m := m.(contentionCount := Inc32(m.contentionCount));
      if current.None? then Outcome(ERROR_BUSY, m, [])
      else
        var queued := m.(waiters := Added(m.waiters, current.value), lockCount := Inc32(m.lockCount));
        Outcome(SUCCESS, queued, [Block(current.value, BLOCK_REASON_MUTEX, id)])
  }

  function TryLock(m: Mutex, current: Option<nat>): Outcome<Mutex> {
    if m.locked then Outcome(ERROR_BUSY, m, [])
    else Outcome(SUCCESS, Taken(m, current), [])
  }

  /** Anybody may unlock: an unlock by another process than the owner only prints a warning. */
  function Unlock(m: Mutex): Outcome<Mutex> {
    if m.waiters == [] then Outcome(SUCCESS, m.(locked := false, owner := 0), [])
    else Outcome(SUCCESS, m.(owner := m.waiters[0], waiters := m.waiters[1..]), [Unblock(m.waiters[0])])
  }

  /** What mutex_destroy does before it frees the slot. */
  function WakeAll(m: Mutex): Outcome<Mutex> {
    Outcome(SUCCESS, m.(waiters := []), Unblocks(m.waiters))
  }

  /** What the codes of lock, trylock and unlock say, and that a refusal blocks and wakes nobody. */
  lemma CodesOfLocking(m: Mutex, id: nat, current: Option<nat>)
    ensures var o := Lock(m, id, current);
      && o.code == (if m.locked && current.None? then -1 else 0) && (current.None? || !m.locked ==> o.signals == [])
    ensures var o := TryLock(m, current);
      && o.code == (if m.locked then -1 else 0) && o.signals == [] && (m.locked ==> o.body == m)
      && (!m.locked ==> o == Lock(m, id, current) && o.body.locked && o.body.owner == PidOf(current))
    ensures Unlock(m).code == 0
  {
  }

  // ---------------------------------------------------------------------------------------------
  // Runs of one mutex, from its creation
  // ---------------------------------------------------------------------------------------------

  datatype Call = DoLock(current: Option<nat>) | DoTryLock(current: Option<nat>) | DoUnlock

  function Apply(m: Mutex, id: nat, c: Call): Outcome<Mutex> {
    match c
    case DoLock(current) => Lock(m, id, current)
    case DoTryLock(current) => TryLock(m, current)
    case DoUnlock => Unlock(m)
  }

  /** The mutex with the requests it accepted, in order, and the successive owners; and the numbers of
      unlocks of a locked mutex, of locks that queued their caller, that dropped it and that failed. */
  datatype History = History(
    id: nat,
    mutex: Mutex,
    accepted: seq<nat>,
    owners: seq<nat>,
    releases: nat,
    queued: nat,
    dropped: nat,
    refused: nat)

  function Start(id: nat): History {
    History(id, CREATED, [], [], 0, 0, 0, 0)
  }

  function Next(h: History, c: Call): History {
    var o := Apply(h.mutex, h.id, c);
    var h' := h.(mutex := o.body);
    if o.code != SUCCESS then
      if c.DoLock? && o.code == ERROR_BUSY then h'.(refused := h.refused + 1) else h'
    else if c.DoUnlock? then
      if o.signals == [] then h'.(releases := h.releases + if h.mutex.locked then 1 else 0)
      else h'.(releases := h.releases + 1, owners := h.owners + [o.signals[0].pid])
    else if o.signals == [] then
      h'.(accepted := h.accepted + [PidOf(c.current)], owners := h.owners + [PidOf(c.current)])
    else if |o.body.waiters| > |h.mutex.waiters| then
      h'.(accepted := h.accepted + [PidOf(c.current)], queued := h.queued + 1)
    else
      h'.(dropped := h.dropped + 1)
  }

  function Run(h: History, calls: seq<Call>): History
    decreases |calls|
  {
    if calls == [] then h else Run(Next(h, calls[0]), calls[1..])
  }

  /** Hand-off is FIFO: the owners so far followed by the waiters are the accepted requests in order.
      Mutual exclusion: each owner but the present one has been released. */
  ghost predicate HandsOff(h: History) {
    && |h.mutex.waiters| <= MAX_WAITERS
    && h.accepted == h.owners + h.mutex.waiters
    && (h.mutex.waiters != [] ==> h.mutex.locked)
    && |h.owners| == h.releases + (if h.mutex.locked then 1 else 0)
    && (if h.mutex.locked then |h.owners| > 0 && h.mutex.owner == h.owners[|h.owners| - 1] else h.mutex.owner == 0)
    && h.mutex.lockCount == Wrapped(|h.accepted| + h.dropped)
    && h.mutex.contentionCount == Wrapped(h.queued + h.dropped + h.refused)
  }

  lemma GrantHandsOff(h: History, c: Call)
    requires HandsOff(h) && !h.mutex.locked && !c.DoUnlock?
    ensures HandsOff(Next(h, c))
  {
    hide Inc32, Wrapped;
    IncWrapped(|h.accepted| + h.dropped);
    assert Next(h, c) == History(h.id, Taken(h.mutex, c.current), h.accepted + [PidOf(c.current)],
                                 h.owners + [PidOf(c.current)], h.releases, h.queued, h.dropped, h.refused);
  }

  lemma ContentionHandsOff(h: History, current: Option<nat>)
    requires HandsOff(h) && h.mutex.locked
    ensures HandsOff(Next(h, DoLock(current)))
  {
    hide Inc32, Wrapped;
    IncWrapped(|h.accepted| + h.dropped);
    IncWrapped(h.queued + h.dropped + h.refused);
    if current.Some? {
      var w, p := h.mutex.waiters, current.value;
      assert h.owners + (w + [p]) == h.owners + w + [p];
    }
  }

  lemma RefusalChangesNothing(h: History, current: Option<nat>)
    requires HandsOff(h) && h.mutex.locked
    ensures Next(h, DoTryLock(current)) == h
  {
  }

  lemma LockHandsOff(h: History, current: Option<nat>)
    requires HandsOff(h)
    ensures HandsOff(Next(h, DoLock(current))) && HandsOff(Next(h, DoTryLock(current)))
  {
    hide HandsOff, Next;
    if h.mutex.locked {
      ContentionHandsOff(h, current);
      RefusalChangesNothing(h, current);
    } else {
      GrantHandsOff(h, DoLock(current));
      GrantHandsOff(h, DoTryLock(current));
    }
  }

  lemma UnlockHandsOff(h: History)
    requires HandsOff(h)
    ensures HandsOff(Next(h, DoUnlock))
  {
    var w := h.mutex.waiters;
    if w != [] {
      assert h.owners + [w[0]] + w[1..] == h.owners + w;
    }
  }

  lemma {:induction false} RunFromHandsOff(h: History, calls: seq<Call>)
    requires HandsOff(h)
    ensures HandsOff(Run(h, calls))
    decreases |calls|
  {
    if calls != [] {
      match calls[0] {
        case DoLock(current) => LockHandsOff(h, current);
        case DoTryLock(current) => LockHandsOff(h, current);
        case DoUnlock => UnlockHandsOff(h);
      }
      RunFromHandsOff(Next(h, calls[0]), calls[1..]);
    }
  }

  /** Over any run of lock, trylock and unlock on a new mutex. */
  lemma RunHandsOff(id: nat, calls: seq<Call>)
    ensures HandsOff(Run(Start(id), calls))
  {
    RunFromHandsOff(Start(id), calls);
  }

  /** A lock by a process reports success always, also when the process does not own the mutex; it is
      served or queued exactly when the mutex is free or fewer than eight processes wait, and owns the
      mutex afterwards exactly when it was free. */
  lemma LockAcceptedIff(h: History, current: nat)
    requires HandsOff(h)
    ensures var h' := Next(h, DoLock(Some(current)));
      && Lock(h.mutex, h.id, Some(current)).code == SUCCESS
      && (h'.accepted == h.accepted + [current] <==> !h.mutex.locked || |h.mutex.waiters| < MAX_WAITERS)
      && h'.mutex.locked && (h'.accepted == h.accepted + [current] || h'.accepted == h.accepted)
      && (h'.owners == h.owners + [current] <==> !h.mutex.locked)
      && Lock(h.mutex, h.id, Some(current)).signals
         == (if h.mutex.locked then [Block(current, BLOCK_REASON_MUTEX, h.id)] else [])
      && (h.mutex.locked ==> h'.mutex.owner == h.mutex.owner && h'.owners == h.owners)
  {
  }

  function Unlocks(calls: seq<Call>): nat {
    if calls == [] then 0 else (if calls[0].DoUnlock? then 1 else 0) + Unlocks(calls[1..])
  }

  /** A lock or trylock on a locked mutex leaves its owner, and its waiters in front of any new one. */
  lemma OthersQueueBehind(h: History, c: Call)
    requires HandsOff(h) && h.mutex.locked && !c.DoUnlock?
    ensures var h' := Next(h, c);
      HandsOff(h') && h'.mutex.locked && h'.mutex.owner == h.mutex.owner && h.mutex.waiters <= h'.mutex.waiters
  {
    match c {
      case DoLock(current) => LockHandsOff(h, current);
      case DoTryLock(current) => LockHandsOff(h, current);
    }
  }

  lemma {:induction false} OwnerStays(h: History, calls: seq<Call>)
    requires HandsOff(h) && h.mutex.locked && Unlocks(calls) == 0
    ensures Run(h, calls).mutex.locked && Run(h, calls).mutex.owner == h.mutex.owner
    decreases |calls|
  {
    hide HandsOff, Next;
    if calls != [] {
      OthersQueueBehind(h, calls[0]);
      OwnerStays(Next(h, calls[0]), calls[1..]);
    }
  }

  /** Bounded waiting: whatever locks and trylocks come between, a process with n others ahead of it in
      the queue moves up one place with each unlock, and owns the mutex after the one numbered n + 1,
      until the next unlock. */
  lemma {:induction false} WaiterOwnsAfter(h: History, calls: seq<Call>, n: nat)
    requires HandsOff(h) && n < |h.mutex.waiters| && Unlocks(calls) <= n + 1
    ensures var m, u := Run(h, calls).mutex, Unlocks(calls);
      if u <= n then n - u < |m.waiters| && m.waiters[n - u] == h.mutex.waiters[n]
      else m.locked && m.owner == h.mutex.waiters[n]
    decreases |calls|
  {
    if calls != [] {
      var h' := Next(h, calls[0]);
      if !calls[0].DoUnlock? {
        OthersQueueBehind(h, calls[0]);
        WaiterOwnsAfter(h', calls[1..], n);
      } else {
        UnlockHandsOff(h);
        if n == 0 {
          OwnerStays(h', calls[1..]);
        } else {
          WaiterOwnsAfter(h', calls[1..], n - 1);
        }
      }
    }
  }

  lemma {:induction false} RunConcat(h: History, a: seq<Call>, b: seq<Call>)
    ensures Run(h, a + b) == Run(Run(h, a), b)
    decreases |a|
  {
    if a == [] {
      assert a + b == b;
    } else {
      assert (a + b)[1..] == a[1..] + b;
      RunConcat(Next(h, a[0]), a[1..], b);
    }
  }

  lemma RunNone(h: History)
    ensures Run(h, []) == h
  {
  }

  lemma RunOne(h: History, c: Call)
    ensures Run(h, [c]) == Next(h, c)
  {
    assert Run(Next(h, c), []) == Next(h, c);
  }

  /** Processes 1 to n lock in this order. */
  function Locks(n: nat): seq<Call> {
    if n == 0 then [] else Locks(n - 1) + [DoLock(Some(n))]
  }

  function Releases(n: nat): seq<Call> {
    if n == 0 then [] else Releases(n - 1) + [DoUnlock]
  }

  /** After n locks: the first process owns the mutex, the next eight wait, the others are dropped. */
  ghost predicate Contended(h: History, n: nat) {
    && HandsOff(h) && (h.mutex.locked <==> n > 0)
    && h.owners == UpTo(Min(n, 1)) && h.accepted == UpTo(Min(n, MAX_WAITERS + 1))
  }

  lemma AcceptedLengths(h: History)
    requires HandsOff(h)
    ensures |h.accepted| == |h.owners| + |h.mutex.waiters|
  {
  }

  lemma LockContends(h: History, n: nat)
    requires Contended(h, n)
    ensures Contended(Next(h, DoLock(Some(n + 1))), n + 1)
  {
    LockHandsOff(h, Some(n + 1));
    LockAcceptedIff(h, n + 1);
    AcceptedLengths(h);
    hide Next, HandsOff;
  }

  lemma {:induction false} LocksContend(id: nat, n: nat)
    ensures Contended(Run(Start(id), Locks(n)), n)
  {
    hide Next, Run;
    if n == 0 {
      RunNone(Start(id));
    } else {
      hide Contended;
      LocksContend(id, n - 1);
      LockContends(Run(Start(id), Locks(n - 1)), n - 1);
      RunConcat(Start(id), Locks(n - 1), [DoLock(Some(n))]);
      RunOne(Run(Start(id), Locks(n - 1)), DoLock(Some(n)));
    }
  }

  /** Requests beyond the first have been served by n unlocks. */
  ghost predicate Served(h: History, accepted: seq<nat>, n: nat) {
    && HandsOff(h) && h.accepted == accepted && h.owners == accepted[..Min(n + 1, |accepted|)]
    && (h.mutex.locked <==> n < |accepted|)
  }

  lemma UnlockServes(h: History, accepted: seq<nat>, n: nat)
    requires Served(h, accepted, n)
    ensures Served(Next(h, DoUnlock), accepted, n + 1)
  {
    UnlockHandsOff(h);
  }

  lemma {:induction false} ReleasesServe(h: History, n: nat)
    requires Served(h, h.accepted, 0)
    ensures Served(Run(h, Releases(n)), h.accepted, n)
  {
    hide Next, Run, Served;
    if n == 0 {
      RunNone(h);
    } else {
      ReleasesServe(h, n - 1);
      UnlockServes(Run(h, Releases(n - 1)), h.accepted, n - 1);
      RunConcat(h, Releases(n - 1), [DoUnlock]);
      RunOne(Run(h, Releases(n - 1)), DoUnlock);
    }
  }

  /** When n processes lock a new mutex and n unlocks follow, the mutex is free and nobody waits any more,
      but only the first nine have owned it: the others stay blocked for ever. */
  lemma OnlyNineAreServed(id: nat, n: nat)
    ensures var h := Run(Start(id), Locks(n) + Releases(n));
      && !h.mutex.locked && h.mutex.waiters == [] && h.owners == UpTo(Min(n, MAX_WAITERS + 1))
      && (h.owners == UpTo(n) <==> n <= MAX_WAITERS + 1)
  {
    hide Next, Run, Locks, Releases, UpTo;
    assert |UpTo(n)| == n;
    var h := Run(Start(id), Locks(n));
    LocksContend(id, n);
    ReleasesServe(h, n);
    RunConcat(Start(id), Locks(n), Releases(n));
  }

  /** The second of two locks on a new mutex reports success while the first process owns it. */
  lemma LockSucceedsTooEarly(id: nat)
    ensures var first := Run(Start(id), [DoLock(Some(1))]);
      var both := Run(Start(id), [DoLock(Some(1)), DoLock(Some(2))]);
      && Lock(first.mutex, id, Some(2)).code == SUCCESS
      && both.mutex.owner == 1 && both.mutex.waiters == [2] && both.owners == [1]
  {
    var first := Next(Start(id), DoLock(Some(1)));
    assert [DoLock(Some(1)), DoLock(Some(2))] == [DoLock(Some(1))] + [DoLock(Some(2))];
    RunConcat(Start(id), [DoLock(Some(1))], [DoLock(Some(2))]);
    RunOne(Start(id), DoLock(Some(1)));
    RunOne(first, DoLock(Some(2)));
  }

  // ---------------------------------------------------------------------------------------------
  // In the table
  // ---------------------------------------------------------------------------------------------

  datatype TableCall = Make(name: Option<string>) | Use(id: nat, call: Call) | Close(id: nat)

  /** The call on the table of slots. */
  function Lower(c: TableCall): SyncTables.Call<Mutex> {
    match c
    case Make(name) => DoCreate(name, CREATED)
    case Use(id, call) => DoAct(id, (m: Mutex) => Apply(m, id, call))
    case Close(id) => DoDestroy(id, (m: Mutex) => WakeAll(m))
  }

  function LowerAll(calls: seq<TableCall>): (r: seq<SyncTables.Call<Mutex>>)
    ensures |r| == |calls| && forall i :: 0 <= i < |r| ==> r[i] == Lower(calls[i])
  {
    seq(|calls|, i requires 0 <= i < |calls| => Lower(calls[i]))
  }

  /** The calls of the run on this identifier. */
  function Calls(calls: seq<TableCall>, id: nat): seq<Call> {
    if calls == [] then []
    else (if calls[0].Use? && calls[0].id == id then [calls[0].call] else []) + Calls(calls[1..], id)
  }

  lemma NextApplies(h: History, c: TableCall)
    ensures c.Use? ==> Next(h, c.call).id == h.id && Next(h, c.call).mutex == Apply(h.mutex, h.id, c.call).body
  {
  }

  lemma {:induction false} ProjectedIsRun(h: History, calls: seq<TableCall>)
    ensures Projected(h.mutex, LowerAll(calls), h.id) == Run(h, Calls(calls, h.id)).mutex
    decreases |calls|
  {
    if calls != [] {
      hide Apply, Next;
      assert LowerAll(calls)[1..] == LowerAll(calls[1..]);
      NextApplies(h, calls[0]);
      if calls[0].Use? && calls[0].id == h.id {
        assert Calls(calls, h.id)[1..] == Calls(calls[1..], h.id);
        ProjectedIsRun(Next(h, calls[0].call), calls[1..]);
      } else {
        assert Calls(calls, h.id) == Calls(calls[1..], h.id);
        ProjectedIsRun(h, calls[1..]);
      }
    }
  }

  /** FIFO hand-off and mutual exclusion hold of every mutex in the table, whatever is done to the
      others: from its creation until it is destroyed. */
  lemma HandsOffInTable(t: Table<Mutex>, calls: seq<TableCall>, k: nat)
    requires TableOk(t) && k < MAX_SLOTS && t.entries[k].active && t.entries[k].body == CREATED
    requires forall c :: c in calls ==> !(c.Close? && c.id == t.entries[k].id)
    ensures var id := t.entries[k].id; var h := Run(Start(id), Calls(calls, id));
      && |SyncTables.Run(t, LowerAll(calls)).entries| == MAX_SLOTS
      && SyncTables.Run(t, LowerAll(calls)).entries[k] == t.entries[k].(body := h.mutex)
      && HandsOff(h)
  {
    hide HandsOff;
    var id := t.entries[k].id;
    RunHandsOff(id, Calls(calls, id));
    ProjectedIsRun(Start(id), calls);
    RunProjects(t, LowerAll(calls), k);
  }

  lemma AcceptedAreOwnersThenWaiters(h: History)
    requires HandsOff(h)
    ensures h.accepted == h.owners + h.mutex.waiters
  {
  }

  /** Over any run on the table that ends with its destruction, a mutex serves every request it accepted
      exactly once and in their order: some as owners, the rest woken by the destruction, which frees the
      slot. */
  lemma DestroyWakesTheRest(t: Table<Mutex>, calls: seq<TableCall>, k: nat)
    requires TableOk(t) && k < MAX_SLOTS && t.entries[k].active && t.entries[k].body == CREATED
    requires forall c :: c in calls ==> !(c.Close? && c.id == t.entries[k].id)
    ensures var id := t.entries[k].id; var h := Run(Start(id), Calls(calls, id));
      var a := SyncTables.Apply(SyncTables.Run(t, LowerAll(calls)), Lower(Close(id)));
      && a.code == SUCCESS && |a.table.entries| == MAX_SLOTS && !a.table.entries[k].active
      && |h.owners| + |a.signals| == |h.accepted| && h.owners <= h.accepted
      && forall i :: 0 <= i < |a.signals| ==> a.signals[i] == Unblock(h.accepted[|h.owners| + i])
  {
    hide HandsOff, Run, SyncTables.Run, Calls, LowerAll;
    var id := t.entries[k].id;
    HandsOffInTable(t, calls, k);
    RunKeepsTable(t, LowerAll(calls));
    FindIs(SyncTables.Run(t, LowerAll(calls)), k);
    AcceptedAreOwnersThenWaiters(Run(Start(id), Calls(calls, id)));
  }
}
