/** Who is woken by the calls on mailboxes: each keeps one waiting sender and one waiting receiver. */
module MailboxWaiting {
  import opened Signals
  import opened Wrappers
  import opened Mailboxes

  predicate WaitsIn(b: Mailbox, p: nat) {
    b.active && (b.waitingSend == Some(p) || b.waitingRecv == Some(p))
  }

  predicate Registered(t: Table, p: nat) {
    exists i :: 0 <= i < |t.boxes| && WaitsIn(t.boxes[i], p)
  }

  /** The call may block this process. */
  predicate MayBlock(c: Call, p: nat) {
    (c.DoSend? || c.DoRecv?) && c.blocking && c.current == Some(p)
  }

  /** The calls to the scheduler that a run makes, in order. */
  ghost function Signalled(h: History, calls: seq<Call>): seq<Signal>
    requires AllFifo(h)
    decreases |calls|
  {
    if calls == [] then []
    else
      NextKeepsFifo(h, calls[0]);
      Apply(h.table, calls[0]).signals + Signalled(Next(h, calls[0]), calls[1..])
  }

  // ---------------------------------------------------------------------------------------------
  // Only registered processes are woken
  // ---------------------------------------------------------------------------------------------

  lemma RegisterOther(t: Table, k: nat, current: nat, p: nat)
    requires !Registered(t, p) && k < |t.boxes| && current != p
    ensures !Registered(WaitingToSend(t, k, current), p) && !Registered(WaitingToRecv(t, k, current), p)
  {
    assert !WaitsIn(t.boxes[k], p);
  }

  lemma PlainCallsWakeRegistered(t: Table, c: Call, p: nat)
    requires TableOk(t) && !Registered(t, p) && ((c.DoSend? || c.DoRecv?) ==> !c.blocking)
    ensures !Registered(Apply(t, c).table, p) && Unblock(p) !in Apply(t, c).signals
  {
    hide BoxOk, NameTaken, StoredName, Place;
    if !c.DoCreate? && FindFrom(t.boxes, c.id, 0) < |t.boxes| {
      assert !WaitsIn(t.boxes[FindFrom(t.boxes, c.id, 0)], p);
    }
  }

  lemma CallsWakeRegistered(t: Table, c: Call, p: nat)
    requires TableOk(t) && !Registered(t, p) && !MayBlock(c, p)
    ensures !Registered(Apply(t, c).table, p) && Unblock(p) !in Apply(t, c).signals
  {
    hide TableOk, Registered, Push, Pop;
    if (c.DoSend? || c.DoRecv?) && c.blocking {
      PlainCallsWakeRegistered(t, c.(blocking := false), p);
      if c.current.Some? {
        var data := if c.DoSend? then c.data else None;
        var buffer, max := c.DoRecv? && c.buffer, if c.DoRecv? then c.max else 0;
        BlockingCallsStillFail(t, c.id, data, buffer, max, c.current.value);
        if FindFrom(t.boxes, c.id, 0) < |t.boxes| {
          RegisterOther(t, FindFrom(t.boxes, c.id, 0), c.current.value, p);
        }
      }
    } else {
      PlainCallsWakeRegistered(t, c, p);
    }
  }

  /** A process that no mailbox has registered and that makes no blocking call is never woken. */
  lemma {:induction false} UnregisteredNeverWoken(h: History, calls: seq<Call>, p: nat)
    requires AllFifo(h) && !Registered(h.table, p) && forall c :: c in calls ==> !MayBlock(c, p)
    ensures Unblock(p) !in Signalled(h, calls)
    decreases |calls|
  {
    hide Apply, BoxFifo, Unused, Registered, BoxOk;
    if calls != [] {
      assert calls[0] in calls;
      NextKeepsFifo(h, calls[0]);
      CallsWakeRegistered(h.table, calls[0], p);
      UnregisteredNeverWoken(Next(h, calls[0]), calls[1..], p);
    }
  }

  // ---------------------------------------------------------------------------------------------
  // The second waiter replaces the first
  // ---------------------------------------------------------------------------------------------

  lemma RunTwo(h: History, a: Call, b: Call)
    requires AllFifo(h)
    ensures AllFifo(Next(h, a)) && AllFifo(Next(Next(h, a), b)) && Run(h, [a, b]) == Next(Next(h, a), b)
  {
    hide BoxFifo, Unused, TableOk, Next;
    NextKeepsFifo(h, a);
    NextKeepsFifo(Next(h, a), b);
    assert [a, b][1..] == [b] && [b][1..] == [];
    assert Run(Next(h, a), [b]) == Run(Next(Next(h, a), b), []);
  }

  /** Processes a and b wait for a message, one after the other. */
  function TwoReceivers(id: nat, max: nat, a: nat, b: nat): seq<Call> {
    [DoRecv(id, true, max, Some(a), true), DoRecv(id, true, max, Some(b), true)]
  }

  /** Processes a and b wait for room, one after the other. */
  function TwoSenders(id: nat, data: seq<Byte>, a: nat, b: nat): seq<Call> {
    [DoSend(id, Some(data), Some(a), true), DoSend(id, Some(data), Some(b), true)]
  }

  lemma ReceiverRegisters(h: History, id: nat, max: nat, p: nat)
    requires AllFifo(h) && max > 0
    requires var k := FindFrom(h.table.boxes, id, 0); k < |h.table.boxes| && h.table.boxes[k].count == 0
    ensures var k := FindFrom(h.table.boxes, id, 0); var t := WaitingToRecv(h.table, k, p);
      && Next(h, DoRecv(id, true, max, Some(p), true)) == h.(table := t)
      && FindFrom(t.boxes, id, 0) == k
  {
    hide BoxFifo, Unused, BoxOk;
    BlockingCallsStillFail(h.table, id, None, true, max, p);
    var k := FindFrom(h.table.boxes, id, 0);
    SameFind(h.table.boxes, WaitingToRecv(h.table, k, p).boxes, id, 0);
  }

  lemma SenderRegisters(h: History, id: nat, data: seq<Byte>, p: nat)
    requires AllFifo(h) && data != []
    requires var k := FindFrom(h.table.boxes, id, 0); k < |h.table.boxes| && h.table.boxes[k].count == CAPACITY
    ensures var k := FindFrom(h.table.boxes, id, 0); var t := WaitingToSend(h.table, k, p);
      && Next(h, DoSend(id, Some(data), Some(p), true)) == h.(table := t)
      && FindFrom(t.boxes, id, 0) == k
  {
    hide BoxFifo, Unused, BoxOk;
    BlockingCallsStillFail(h.table, id, Some(data), true, 1, p);
    var k := FindFrom(h.table.boxes, id, 0);
    SameFind(h.table.boxes, WaitingToSend(h.table, k, p).boxes, id, 0);
  }

  lemma RegisteredLast(t: Table, k: nat, a: nat, b: nat)
    requires k < |t.boxes| && t.boxes[k].active && !Registered(t, a)
    ensures Registered(WaitingToRecv(WaitingToRecv(t, k, a), k, b), a) <==> a == b
    ensures Registered(WaitingToSend(WaitingToSend(t, k, a), k, b), a) <==> a == b
  {
    assert !WaitsIn(t.boxes[k], a);
    var r, s := WaitingToRecv(WaitingToRecv(t, k, a), k, b), WaitingToSend(WaitingToSend(t, k, a), k, b);
    assert forall i :: 0 <= i < |t.boxes| && i != k ==> r.boxes[i] == t.boxes[i] && s.boxes[i] == t.boxes[i];
    assert WaitsIn(r.boxes[k], b) && WaitsIn(s.boxes[k], b);
  }

  /** A mailbox without messages remembers one receiver only: after a second one has blocked on it the
      first is still registered exactly when it is the same process, and the next message wakes the
      second one alone. */
  lemma SecondReceiverReplacesFirst(h: History, id: nat, max: nat, a: nat, b: nat, data: seq<Byte>)
    requires AllFifo(h) && max > 0 && data != [] && !Registered(h.table, a)
    requires var k := FindFrom(h.table.boxes, id, 0); k < |h.table.boxes| && h.table.boxes[k].count == 0
    ensures var h' := Run(h, TwoReceivers(id, max, a, b));
      && AllFifo(h') && (Registered(h'.table, a) <==> a == b)
      && Send(h'.table, id, Some(data), None).code == SUCCESS
      && Send(h'.table, id, Some(data), None).signals == [Unblock(b)]
  {
    hide BoxFifo, Unused, TableOk, Registered, Next, Push;
    var k := FindFrom(h.table.boxes, id, 0);
    var c, d := TwoReceivers(id, max, a, b)[0], TwoReceivers(id, max, a, b)[1];
    RunTwo(h, c, d);
    ReceiverRegisters(h, id, max, a);
    ReceiverRegisters(Next(h, c), id, max, b);
    RegisteredLast(h.table, k, a, b);
  }

  /** The same of the processes that wait for room in a full mailbox. */
  lemma SecondSenderReplacesFirst(h: History, id: nat, data: seq<Byte>, a: nat, b: nat)
    requires AllFifo(h) && data != [] && !Registered(h.table, a)
    requires var k := FindFrom(h.table.boxes, id, 0); k < |h.table.boxes| && h.table.boxes[k].count == CAPACITY
    ensures var h' := Run(h, TwoSenders(id, data, a, b));
      && AllFifo(h') && (Registered(h'.table, a) <==> a == b)
      && Recv(h'.table, id, true, MESSAGE_MAX).outcome.code == SUCCESS
      && Recv(h'.table, id, true, MESSAGE_MAX).outcome.signals == [Unblock(b)]
  {
    hide BoxFifo, Unused, TableOk, Registered, Next, Pop;
    var k := FindFrom(h.table.boxes, id, 0);
    var c, d := TwoSenders(id, data, a, b)[0], TwoSenders(id, data, a, b)[1];
    RunTwo(h, c, d);
    SenderRegisters(h, id, data, a);
    SenderRegisters(Next(h, c), id, data, b);
    RegisteredLast(h.table, k, a, b);
  }

  /** The first of two receivers is lost: unless it makes another blocking call itself, no later call on
      any mailbox wakes it, neither a message nor the destruction of the mailbox. */
  lemma FirstReceiverIsLost(h: History, id: nat, max: nat, a: nat, b: nat, calls: seq<Call>)
    requires AllFifo(h) && max > 0 && !Registered(h.table, a) && a != b
    requires var k := FindFrom(h.table.boxes, id, 0); k < |h.table.boxes| && h.table.boxes[k].count == 0
    requires forall c :: c in calls ==> !MayBlock(c, a)
    ensures var h' := Run(h, TwoReceivers(id, max, a, b)); AllFifo(h') && Unblock(a) !in Signalled(h', calls)
  {
    hide BoxFifo, Unused, Registered, Run, Signalled;
    SecondReceiverReplacesFirst(h, id, max, a, b, [0]);
    UnregisteredNeverWoken(Run(h, TwoReceivers(id, max, a, b)), calls, a);
  }

  // ---------------------------------------------------------------------------------------------
  // Runs from ipc_init
  // ---------------------------------------------------------------------------------------------

  const CREATE_FIRST: Call := DoCreate(Some("m"))

  /** After the first mailbox was created it is empty, and nobody waits. */
  lemma FirstMailbox(t: Table)
    requires Initial(t)
    ensures AllFifo(History(t, [], []))
    ensures var h := Run(History(t, [], []), [CREATE_FIRST]);
      && AllFifo(h) && FindFrom(h.table.boxes, 1, 0) == 0 && h.table.boxes[0].count == 0
      && h.table.boxes[0].active && forall p :: !Registered(h.table, p)
  {
    hide BoxFifo, Unused, BoxOk;
    var h0 := History(t, [], []);
    InitialIsFifo(t);
    NextKeepsFifo(h0, CREATE_FIRST);
    assert forall i :: 0 <= i < MAX_MAILBOXES ==> Cleared(t.boxes[i]);
    assert FreeFrom(t.boxes, 0) == 0 && !NameTaken(t.boxes, "m");
    assert Run(Next(h0, CREATE_FIRST), []) == Next(h0, CREATE_FIRST);
    assert [CREATE_FIRST][1..] == [];
  }

  /** From ipc_init: a mailbox is created, processes 1 and 2 block on it, a message wakes process 2, and
      nothing ever wakes process 1. */
  lemma LostReceiverIsReachable(t: Table, calls: seq<Call>)
    requires Initial(t) && forall c :: c in calls ==> !MayBlock(c, 1)
    ensures AllFifo(History(t, [], [])) && AllFifo(Run(History(t, [], []), [CREATE_FIRST]))
    ensures var h := Run(Run(History(t, [], []), [CREATE_FIRST]), TwoReceivers(1, MESSAGE_MAX, 1, 2));
      && AllFifo(h) && Send(h.table, 1, Some([0]), None).signals == [Unblock(2)]
      && Unblock(1) !in Signalled(h, calls)
  {
    hide BoxFifo, Unused, Run, Registered, Signalled;
    FirstMailbox(t);
    var h := Run(History(t, [], []), [CREATE_FIRST]);
    SecondReceiverReplacesFirst(h, 1, MESSAGE_MAX, 1, 2, [0]);
    FirstReceiverIsLost(h, 1, MESSAGE_MAX, 1, 2, calls);
  }

  /** n messages sent to one mailbox, none received. */
  function Sends(id: nat, data: seq<Byte>, n: nat): seq<Call> {
    if n == 0 then [] else [DoSend(id, Some(data), None, false)] + Sends(id, data, n - 1)
  }

  lemma CountBounded(t: Table, k: nat)
    requires TableOk(t) && k < MAX_MAILBOXES
    ensures t.boxes[k].count <= CAPACITY
  {
  }

  lemma SendFillsOne(h: History, id: nat, data: seq<Byte>)
    requires AllFifo(h) && data != [] && FindFrom(h.table.boxes, id, 0) < |h.table.boxes|
    ensures var k := FindFrom(h.table.boxes, id, 0); var h' := Next(h, DoSend(id, Some(data), None, false));
      && AllFifo(h') && FindFrom(h'.table.boxes, id, 0) == k && k < |h'.table.boxes|
      && h'.table.boxes[k].count == if h.table.boxes[k].count == CAPACITY then CAPACITY else h.table.boxes[k].count + 1
  {
    hide BoxFifo, Unused, BoxOk;
    var h' := Next(h, DoSend(id, Some(data), None, false));
    CountBounded(h.table, FindFrom(h.table.boxes, id, 0));
    NextKeepsFifo(h, DoSend(id, Some(data), None, false));
    SameFind(h.table.boxes, h'.table.boxes, id, 0);
  }

  /** Messages fill a mailbox up to its capacity, and no further. */
  lemma {:induction false} SendsFill(h: History, id: nat, data: seq<Byte>, n: nat)
    requires AllFifo(h) && data != [] && FindFrom(h.table.boxes, id, 0) < |h.table.boxes|
    ensures var k := FindFrom(h.table.boxes, id, 0); var h' := Run(h, Sends(id, data, n));
      && AllFifo(h') && FindFrom(h'.table.boxes, id, 0) == k && k < |h'.table.boxes|
      && var room := CAPACITY - h.table.boxes[k].count;
        h'.table.boxes[k].count == h.table.boxes[k].count + if n < room then n else room
    decreases n
  {
    hide BoxFifo, Unused, Next, BoxOk;
    CountBounded(h.table, FindFrom(h.table.boxes, id, 0));
    if n > 0 {
      var c := DoSend(id, Some(data), None, false);
      assert Sends(id, data, n)[0] == c && Sends(id, data, n)[1..] == Sends(id, data, n - 1);
      SendFillsOne(h, id, data);
      SendsFill(Next(h, c), id, data, n - 1);
    }
  }

  /** From ipc_init: a mailbox is created and n messages are sent to it. A blocking send then blocks its
      caller and still fails exactly when n is 8 or more; a blocking receive exactly when n is 0. */
  lemma BlockingFailsIff(t: Table, data: seq<Byte>, n: nat, p: nat)
    requires Initial(t) && data != []
    ensures AllFifo(History(t, [], [])) && AllFifo(Run(History(t, [], []), [CREATE_FIRST]))
    ensures var h := Run(Run(History(t, [], []), [CREATE_FIRST]), Sends(1, data, n));
      AllFifo(h) &&
      var send, recv := SendBlocking(h.table, 1, Some(data), Some(p)),
                        RecvBlocking(h.table, 1, true, MESSAGE_MAX, Some(p)).outcome;
      && (n >= CAPACITY <==> send.code == ERROR_FULL)
      && (n >= CAPACITY <==> send.signals == [Block(p, BLOCK_REASON_MBOX_FULL, 1)])
      && (n == 0 <==> recv.code == ERROR_EMPTY)
      && (n == 0 <==> recv.signals == [Block(p, BLOCK_REASON_MBOX_EMPTY, 1)])
  {
    hide BoxFifo, Unused, Run, Registered, Push, Pop, BoxOk;
    FirstMailbox(t);
    SendsFill(Run(History(t, [], []), [CREATE_FIRST]), 1, data, n);
    var h := Run(Run(History(t, [], []), [CREATE_FIRST]), Sends(1, data, n));
    BlockingCallsStillFail(h.table, 1, Some(data), true, MESSAGE_MAX, p);
  }
}
