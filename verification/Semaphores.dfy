/** The semaphores of sync.c. Blocking is literal: scheduler_block_process changes a state and returns,
    so a wait that blocks goes on at once to decrement the value. */
module Semaphores {
  import opened Signals
  import opened SyncTables
  import opened Waiters
  import opened Words
  import opened Wrappers

  /** The fields of semaphore_t besides its identifier, name and active flag. */
  datatype Semaphore = Semaphore(
    value: int,
    initialValue: int,
    waiters: seq<nat>,
    waitCount: nat,
    postCount: nat)

  /** What sem_create writes into a free slot. */
  function Created(value: int): Semaphore {
    Semaphore(value, value, [], 0, 0)
  }

  /** sem_wait on the semaphore with this identifier. */
  function Wait(s: Semaphore, id: nat, current: Option<nat>): Outcome<Semaphore> {
    var s := s.(waitCount := Inc32(s.waitCount));
    if s.value > 0 then Outcome(SUCCESS, s.(value := s.value - 1), [])
    else if current.None? then Outcome(ERROR_WOULDBLOCK, s, [])
    else
      Outcome(SUCCESS, s.(waiters := Added(s.waiters, current.value), value := s.value - 1),
              [Block(current.value, BLOCK_REASON_SEM, id)])
  }

  function TryWait(s: Semaphore): Outcome<Semaphore> {
    if s.value <= 0 then Outcome(ERROR_WOULDBLOCK, s, [])
    else Outcome(SUCCESS, s.(value := s.value - 1, waitCount := Inc32(s.waitCount)), [])
  }

  function Post(s: Semaphore): Outcome<Semaphore> {
    var s := s.(postCount := Inc32(s.postCount), value := s.value + 1);
    if s.waiters == [] then Outcome(SUCCESS, s, [])
    else Outcome(SUCCESS, s.(waiters := s.waiters[1..]), [Unblock(s.waiters[0])])
  }

  /** What sem_destroy does before it frees the slot. */
  function WakeAll(s: Semaphore): Outcome<Semaphore> {
    Outcome(SUCCESS, s.(waiters := []), Unblocks(s.waiters))
  }

  /** What the codes of wait, trywait and post say, and that a refusal blocks and wakes nobody. */
  lemma CodesOfCounting(s: Semaphore, id: nat, current: Option<nat>)
    ensures var o := Wait(s, id, current);
      && o.code == (if s.value <= 0 && current.None? then -7 else 0)
      && (s.value > 0 || current.None? ==> o.signals == [])
    ensures var o := TryWait(s);
      && o.code == (if s.value <= 0 then -7 else 0) && o.signals == [] && (s.value <= 0 ==> o.body == s)
      && (s.value > 0 ==> o == Wait(s, id, current))
    ensures Post(s).code == 0
  {
  }

  // ---------------------------------------------------------------------------------------------
  // Runs of one semaphore, from its creation
  // ---------------------------------------------------------------------------------------------

  datatype Call = DoWait(current: Option<nat>) | DoTryWait | DoPost

  function Apply(s: Semaphore, id: nat, c: Call): Outcome<Semaphore> {
    match c
    case DoWait(current) => Wait(s, id, current)
    case DoTryWait => TryWait(s)
    case DoPost => Post(s)
  }

  /** The semaphore with what its callers saw: how many passed at once, how many waits were refused,
      which processes were queued and which were woken, how many were dropped for want of room, how
      many posts were made, and how many of them raised a negative value without waking anybody. */
  datatype History = History(
    id: nat,
    sem: Semaphore,
    passed: nat,
    refused: nat,
    queued: seq<nat>,
    woken: seq<nat>,
    dropped: nat,
    posts: nat,
    wastedPosts: nat)

  function Next(h: History, c: Call): History {
    var o := Apply(h.sem, h.id, c);
    var h' := h.(sem := o.body);
    if o.code != SUCCESS then
      if c.DoWait? && o.code == ERROR_WOULDBLOCK then h'.(refused := h.refused + 1) else h'
    else
      match c
      case DoWait(current) =>
        if o.signals == [] then h'.(passed := h.passed + 1)
        else if |o.body.waiters| > |h.sem.waiters| then h'.(queued := h.queued + [current.value])
        else h'.(dropped := h.dropped + 1)
      case DoTryWait => h'.(passed := h.passed + 1)
      case DoPost =>
        if o.signals == [] then
          h'.(posts := h.posts + 1, wastedPosts := h.wastedPosts + if h.sem.value < 0 then 1 else 0)
        else h'.(posts := h.posts + 1, woken := h.woken + [o.signals[0].pid])
  }

  function Run(h: History, calls: seq<Call>): History
    decreases |calls|
  {
    if calls == [] then h else Run(Next(h, calls[0]), calls[1..])
  }

  function Start(id: nat, value: int): History {
    History(id, Created(value), 0, 0, [], [], 0, 0, 0)
  }

  /** How far the value is below zero. */
  function Debt(value: int): nat {
    if value < 0 then -value else 0
  }

  /** Conservation. Every decrement is a process that passed, was queued or was dropped; the queue is
      FIFO; and the debt of the value is the waiters, the dropped processes and the initial debt, less
      the posts that paid off a debt without waking anybody. */
  ghost predicate Conserved(h: History, initial: int) {
    && |h.sem.waiters| <= MAX_WAITERS
    && h.sem.value == initial + h.posts - h.passed - |h.queued| - h.dropped
    && h.queued == h.woken + h.sem.waiters
    && Debt(h.sem.value) + h.wastedPosts == |h.sem.waiters| + h.dropped + Debt(initial)
    && |h.sem.waiters| <= Debt(h.sem.value)
    && h.sem.postCount == Wrapped(h.posts) && h.sem.initialValue == initial
    && h.sem.waitCount == Wrapped(h.passed + h.refused + |h.queued| + h.dropped)
  }

  lemma WaitConserves(h: History, current: Option<nat>, initial: int)
    requires Conserved(h, initial)
    ensures Conserved(Next(h, DoWait(current)), initial) && Conserved(Next(h, DoTryWait), initial)
  {
    hide Inc32, Wrapped;
    IncWrapped(h.passed + h.refused + |h.queued| + h.dropped);
  }

  lemma PostConserves(h: History, initial: int)
    requires Conserved(h, initial)
    ensures Conserved(Next(h, DoPost), initial)
  {
    hide Inc32, Wrapped;
    IncWrapped(h.posts);
    if h.sem.waiters != [] {
      assert h.woken + [h.sem.waiters[0]] + h.sem.waiters[1..] == h.woken + h.sem.waiters;
    }
  }

  lemma NextConserves(h: History, c: Call, initial: int)
    requires Conserved(h, initial)
    ensures Conserved(Next(h, c), initial)
  {
    match c {
      case DoWait(current) => WaitConserves(h, current, initial);
      case DoTryWait => WaitConserves(h, None, initial);
      case DoPost => PostConserves(h, initial);
    }
  }

  lemma {:induction false} RunFromConserves(h: History, calls: seq<Call>, initial: int)
    requires Conserved(h, initial)
    ensures Conserved(Run(h, calls), initial)
    decreases |calls|
  {
    if calls != [] {
      NextConserves(h, calls[0], initial);
      RunFromConserves(Next(h, calls[0]), calls[1..], initial);
    }
  }

  /** The counting invariant, in every reachable state: there are never more waiters than the debt of
      the value, and exactly as many if the initial value was not negative and nobody was dropped. */
  lemma RunConserves(id: nat, initial: int, calls: seq<Call>)
    ensures var h := Run(Start(id, initial), calls);
      && Conserved(h, initial)
      && (initial >= 0 && h.dropped == 0 ==> |h.sem.waiters| == Debt(h.sem.value) && h.wastedPosts == 0)
  {
    RunFromConserves(Start(id, initial), calls, initial);
  }

  /** Safety: no more processes get past a semaphore than its initial value and the posts allow, and
      as long as no process was dropped nothing is lost either. */
  lemma PassesAreBounded(id: nat, initial: nat, calls: seq<Call>)
    ensures var h := Run(Start(id, initial), calls);
      && h.passed + |h.woken| <= initial + h.posts
      && (h.dropped == 0 ==>
           h.passed + |h.woken| + (if h.sem.value > 0 then h.sem.value else 0) == initial + h.posts)
  {
    RunFromConserves(Start(id, initial), calls, initial);
  }

  /** A wait that blocks its caller reports success, and its caller is queued, again if it waits already,
      exactly when there was room; otherwise no later post can wake it for this wait. */
  lemma BlockedCallerQueuedIff(s: Semaphore, id: nat, current: nat)
    requires s.value <= 0 && |s.waiters| <= MAX_WAITERS
    ensures var o := Wait(s, id, Some(current));
      && o.code == SUCCESS && o.signals == [Block(current, BLOCK_REASON_SEM, id)]
      && (o.body.waiters == s.waiters + [current] <==> |s.waiters| < MAX_WAITERS)
  {
  }

  /** Processes 1 to n wait in this order. */
  function Waits(n: nat): seq<Call> {
    if n == 0 then [] else Waits(n - 1) + [DoWait(Some(n))]
  }

  function Posts(n: nat): seq<Call> {
    if n == 0 then [] else Posts(n - 1) + [DoPost]
  }

  lemma {:induction false} RunConcat(h: History, a: seq<Call>, b: seq<Call>)
    ensures Run(h, a + b) == Run(Run(h, a), b)
    decreases |a|
  {
    if a == [] {
      assert a + b == b;
    } else {
      assert (a + b)[1..] == a[1..] + b;
      RunConcat(Next(h, a[0]), a[1..], b);
    }
  }

  lemma RunOne(h: History, c: Call)
    ensures Run(h, [c]) == Next(h, c)
  {
    assert Run(Next(h, c), []) == Next(h, c);
  }

  lemma RunNone(h: History)
    ensures Run(h, []) == h
  {
  }

  /** After n waits: the first eight processes are queued, the others dropped. */
  ghost predicate Filled(h: History, n: nat) {
    var k := Min(n, MAX_WAITERS);
    && h.sem.value + n == 0 && h.sem.waiters == UpTo(k)
    && h.queued == UpTo(k) && h.woken == [] && h.dropped == n - k
  }

  lemma WaitFillsOne(h: History, n: nat)
    requires Filled(h, n)
    ensures Filled(Next(h, DoWait(Some(n + 1))), n + 1)
  {
  }

  lemma {:induction false} WaitsFill(id: nat, n: nat)
    ensures Filled(Run(Start(id, 0), Waits(n)), n)
  {
    hide Next, Run;
    if n == 0 {
      RunNone(Start(id, 0));
    } else {
      hide Filled;
      WaitsFill(id, n - 1);
      WaitFillsOne(Run(Start(id, 0), Waits(n - 1)), n - 1);
      RunConcat(Start(id, 0), Waits(n - 1), [DoWait(Some(n))]);
      RunOne(Run(Start(id, 0), Waits(n - 1)), DoWait(Some(n)));
    }
  }

  /** n posts have woken the first n waiters. */
  ghost predicate Drained(h: History, h': History, n: nat) {
    var k := Min(n, |h.sem.waiters|);
    && h'.sem.value == h.sem.value + n && h'.sem.waiters == h.sem.waiters[k..]
    && h'.woken == h.woken + h.sem.waiters[..k]
  }

  lemma PostDrainsOne(h: History, mid: History, n: nat)
    requires Drained(h, mid, n)
    ensures Drained(h, Next(mid, DoPost), n + 1)
  {
    var w := h.sem.waiters;
    if n < |w| {
      assert w[..n] + [w[n]] == w[..n + 1];
    }
  }

  lemma {:induction false} PostsDrain(h: History, n: nat)
    ensures Drained(h, Run(h, Posts(n)), n)
  {
    hide Next, Run;
    if n == 0 {
      RunNone(h);
    } else {
      hide Drained;
      PostsDrain(h, n - 1);
      PostDrainsOne(h, Run(h, Posts(n - 1)), n - 1);
      RunConcat(h, Posts(n - 1), [DoPost]);
      RunOne(Run(h, Posts(n - 1)), DoPost);
    }
  }

  /** When n processes wait on a semaphore of value 0 and n posts follow, the value is back to 0 and
      nobody waits any more, but only the first eight were woken: the others stay blocked for ever. */
  lemma OnlyEightAreWoken(id: nat, n: nat)
    ensures var h := Run(Start(id, 0), Waits(n) + Posts(n));
      && h.sem.value == 0 && h.sem.waiters == [] && h.woken == UpTo(Min(n, MAX_WAITERS))
      && (h.woken == UpTo(n) <==> n <= MAX_WAITERS)
  {
    hide Run, Waits, Posts, UpTo;
    assert |UpTo(n)| == n;
    WaitsFill(id, n);
    RunConcat(Start(id, 0), Waits(n), Posts(n));
    PostsDrain(Run(Start(id, 0), Waits(n)), n);
  }

  // ---------------------------------------------------------------------------------------------
  // In the table
  // ---------------------------------------------------------------------------------------------

  datatype TableCall = Make(name: Option<string>, value: int) | Use(id: nat, call: Call) | Close(id: nat)

  /** The call on the table of slots. */
  function Lower(c: TableCall): SyncTables.Call<Semaphore> {
    match c
    case Make(name, value) => DoCreate(name, Created(value))
    case Use(id, call) => DoAct(id, (s: Semaphore) => Apply(s, id, call))
    case Close(id) => DoDestroy(id, (s: Semaphore) => WakeAll(s))
  }

  function LowerAll(calls: seq<TableCall>): (r: seq<SyncTables.Call<Semaphore>>)
    ensures |r| == |calls| && forall i :: 0 <= i < |r| ==> r[i] == Lower(calls[i])
  {
    seq(|calls|, i requires 0 <= i < |calls| => Lower(calls[i]))
  }

  /** The calls of the run on this identifier. */
  function Calls(calls: seq<TableCall>, id: nat): seq<Call> {
    if calls == [] then []
    else (if calls[0].Use? && calls[0].id == id then [calls[0].call] else []) + Calls(calls[1..], id)
  }

  lemma NextApplies(h: History, c: TableCall)
    ensures c.Use? ==> Next(h, c.call).id == h.id && Next(h, c.call).sem == Apply(h.sem, h.id, c.call).body
  {
  }

  lemma {:induction false} ProjectedIsRun(h: History, calls: seq<TableCall>)
    ensures Projected(h.sem, LowerAll(calls), h.id) == Run(h, Calls(calls, h.id)).sem
    decreases |calls|
  {
    if calls != [] {
      hide Apply, Next;
      assert LowerAll(calls)[1..] == LowerAll(calls[1..]);
      NextApplies(h, calls[0]);
      if calls[0].Use? && calls[0].id == h.id {
        assert Calls(calls, h.id)[1..] == Calls(calls[1..], h.id);
        ProjectedIsRun(Next(h, calls[0].call), calls[1..]);
      } else {
        assert Calls(calls, h.id) == Calls(calls[1..], h.id);
        ProjectedIsRun(h, calls[1..]);
      }
    }
  }

  /** The counting invariant holds of every semaphore in the table, whatever is done to the others: from
      its creation until it is destroyed. */
  lemma ConservedInTable(t: Table<Semaphore>, calls: seq<TableCall>, k: nat, initial: int)
    requires TableOk(t) && k < MAX_SLOTS && t.entries[k].active && t.entries[k].body == Created(initial)
    requires forall c :: c in calls ==> !(c.Close? && c.id == t.entries[k].id)
    ensures var id := t.entries[k].id; var h := Run(Start(id, initial), Calls(calls, id));
      && |SyncTables.Run(t, LowerAll(calls)).entries| == MAX_SLOTS
      && SyncTables.Run(t, LowerAll(calls)).entries[k] == t.entries[k].(body := h.sem)
      && Conserved(h, initial)
  {
    hide Conserved;
    var id := t.entries[k].id;
    RunConserves(id, initial, Calls(calls, id));
    ProjectedIsRun(Start(id, initial), calls);
    RunProjects(t, LowerAll(calls), k);
  }

  lemma QueueIsWokenThenWaiters(h: History, initial: int)
    requires Conserved(h, initial)
    ensures h.queued == h.woken + h.sem.waiters
  {
  }

  /** Over any run on the table that ends with its destruction, a semaphore wakes every process it ever
      queued exactly once and in the order in which they were queued: some by posts, the rest by the
      destruction, which frees the slot. */
  lemma DestroyWakesTheRest(t: Table<Semaphore>, calls: seq<TableCall>, k: nat, initial: int)
    requires TableOk(t) && k < MAX_SLOTS && t.entries[k].active && t.entries[k].body == Created(initial)
    requires forall c :: c in calls ==> !(c.Close? && c.id == t.entries[k].id)
    ensures var id := t.entries[k].id; var h := Run(Start(id, initial), Calls(calls, id));
      var a := SyncTables.Apply(SyncTables.Run(t, LowerAll(calls)), Lower(Close(id)));
      && a.code == SUCCESS && |a.table.entries| == MAX_SLOTS && !a.table.entries[k].active
      && |h.woken| + |a.signals| == |h.queued| && h.woken <= h.queued
      && forall i :: 0 <= i < |a.signals| ==> a.signals[i] == Unblock(h.queued[|h.woken| + i])
  {
    hide Conserved, Run, SyncTables.Run, Calls, LowerAll;
    var id := t.entries[k].id;
    ConservedInTable(t, calls, k, initial);
    RunKeepsTable(t, LowerAll(calls));
    FindIs(SyncTables.Run(t, LowerAll(calls)), k);
    QueueIsWokenThenWaiters(Run(Start(id, initial), Calls(calls, id)), initial);
  }
}
