/** Every process that a mailbox call blocks is accounted for: it is woken once, still registered, or was
    forgotten when another call registered in its place. */
module MailboxBlocks {
  import opened Signals
  import opened Wrappers
  import opened Mailboxes
  import opened MailboxWaiting

  /** How many times a mailbox has a process registered. */
  function RegisteredIn(b: Mailbox, p: nat): nat {
    if !b.active then 0
    else (if b.waitingSend == Some(p) then 1 else 0) + (if b.waitingRecv == Some(p) then 1 else 0)
  }

  function Registrations(boxes: seq<Mailbox>, p: nat): nat {
    if boxes == [] then 0 else RegisteredIn(boxes[0], p) + Registrations(boxes[1..], p)
  }

  function Blocks(signals: seq<Signal>, p: nat): nat {
    if signals == [] then 0 else (if signals[0].Block? && signals[0].pid == p then 1 else 0) + Blocks(signals[1..], p)
  }

  function WakeUps(signals: seq<Signal>, p: nat): nat {
    if signals == [] then 0 else (if signals[0] == Unblock(p) then 1 else 0) + WakeUps(signals[1..], p)
  }

  lemma SignalsConcat(a: seq<Signal>, b: seq<Signal>, p: nat)
    ensures Blocks(a + b, p) == Blocks(a, p) + Blocks(b, p)
    ensures WakeUps(a + b, p) == WakeUps(a, p) + WakeUps(b, p)
  {
    if a == [] {
      assert a + b == b;
    } else {
      assert (a + b)[1..] == a[1..] + b;
      SignalsConcat(a[1..], b, p);
    }
  }

  lemma {:induction false} RegistrationsUpdate(boxes: seq<Mailbox>, k: nat, b: Mailbox, p: nat)
    requires k < |boxes|
    ensures Registrations(boxes[k := b], p) + RegisteredIn(boxes[k], p)
         == Registrations(boxes, p) + RegisteredIn(b, p)
  {
    if k == 0 {
      assert boxes[0 := b][1..] == boxes[1..];
    } else {
      assert boxes[k := b][1..] == boxes[1..][k - 1 := b];
      RegistrationsUpdate(boxes[1..], k - 1, b, p);
    }
  }

  /** The call blocks its caller, and the mailbox forgets a process that was registered there. */
  function Forgets(t: Table, c: Call, p: nat): nat
    requires TableOk(t)
  {
    if c.DoSend? && Apply(t, c).code == ERROR_FULL && c.blocking && c.current.Some?
       && t.boxes[FindFrom(t.boxes, c.id, 0)].waitingSend == Some(p) then 1
    else if c.DoRecv? && Apply(t, c).code == ERROR_EMPTY && c.blocking && c.current.Some?
       && t.boxes[FindFrom(t.boxes, c.id, 0)].waitingRecv == Some(p) then 1
    else 0
  }

  lemma WakeOnce(x: Option<nat>, p: nat)
    ensures WakeUps(Wake(x), p) == (if x == Some(p) then 1 else 0) && Blocks(Wake(x), p) == 0
  {
  }

  lemma NoSignals(p: nat)
    ensures WakeUps([], p) == 0 && Blocks([], p) == 0
  {
  }

  /** The calls that do not block only wake, and forget whom they wake. */
  lemma PlainBalances(t: Table, c: Call, p: nat)
    requires TableOk(t) && ((c.DoSend? || c.DoRecv?) ==> !c.blocking)
    ensures var o := Apply(t, c);
      Registrations(o.table.boxes, p) + WakeUps(o.signals, p) == Registrations(t.boxes, p) && Blocks(o.signals, p) == 0
  {
    hide BoxOk, NameTaken, StoredName, Place, Registrations, WakeUps, Blocks;
    assert WakeUps([], p) == 0 && Blocks([], p) == 0 by { NoSignals(p); }
    if c.DoCreate? {
      var k := FreeFrom(t.boxes, 0);
      if k < |t.boxes| && c.name.Some? {
        RegistrationsUpdate(t.boxes, k, Fresh(t.boxes[k], t.nextId, c.name.value), p);
      }
    } else {
      var k := FindFrom(t.boxes, c.id, 0);
      if k < |t.boxes| {
        var b := t.boxes[k];
        WakeOnce(b.waitingSend, p);
        WakeOnce(b.waitingRecv, p);
        SignalsConcat(Wake(b.waitingSend), Wake(b.waitingRecv), p);
        RegistrationsUpdate(t.boxes, k, Apply(t, c).table.boxes[k], p);
      }
    }
  }

  lemma BlockingBalances(t: Table, c: Call, p: nat)
    requires TableOk(t) && (c.DoSend? || c.DoRecv?) && c.blocking
    ensures var o := Apply(t, c);
      Registrations(o.table.boxes, p) + WakeUps(o.signals, p) + Forgets(t, c, p)
      == Registrations(t.boxes, p) + Blocks(o.signals, p)
  {
    hide BoxOk, Push, Pop, Registrations, TableOk;
    PlainBalances(t, c.(blocking := false), p);
    if c.current.Some? {
      var data := if c.DoSend? then c.data else None;
      var buffer, max := c.DoRecv? && c.buffer, if c.DoRecv? then c.max else 0;
      var k, current := FindFrom(t.boxes, c.id, 0), c.current.value;
      BlockingCallsStillFail(t, c.id, data, buffer, max, current);
      if k < |t.boxes| {
        RegistrationsUpdate(t.boxes, k, WaitingToSend(t, k, current).boxes[k], p);
        RegistrationsUpdate(t.boxes, k, WaitingToRecv(t, k, current).boxes[k], p);
      }
    }
  }

  /** How often the run makes a mailbox forget a process. */
  ghost function Forgotten(h: History, calls: seq<Call>, p: nat): nat
    requires AllFifo(h)
    decreases |calls|
  {
    if calls == [] then 0
    else
      NextKeepsFifo(h, calls[0]);
      Forgets(h.table, calls[0], p) + Forgotten(Next(h, calls[0]), calls[1..], p)
  }

  lemma CallBalances(t: Table, c: Call, p: nat)
    requires TableOk(t)
    ensures var o := Apply(t, c);
      Registrations(o.table.boxes, p) + WakeUps(o.signals, p) + Forgets(t, c, p)
      == Registrations(t.boxes, p) + Blocks(o.signals, p)
  {
    hide TableOk, Apply, Registrations, WakeUps, Blocks;
    if (c.DoSend? || c.DoRecv?) && c.blocking {
      BlockingBalances(t, c, p);
    } else {
      PlainBalances(t, c, p);
    }
  }

  /** Over any run of calls on any mailboxes: the blocks of a process are its wake-ups, the registrations
      that are left and the ones that were forgotten, besides those there were at the start. */
  lemma {:induction false} BlocksAreAccountedFor(h: History, calls: seq<Call>, p: nat)
    requires AllFifo(h)
    ensures AllFifo(Run(h, calls))
    ensures WakeUps(Signalled(h, calls), p) + Registrations(Run(h, calls).table.boxes, p) + Forgotten(h, calls, p)
         == Registrations(h.table.boxes, p) + Blocks(Signalled(h, calls), p)
    decreases |calls|
  {
    hide BoxFifo, Unused, TableOk, Apply, Forgets, Registrations, WakeUps, Blocks;
    if calls == [] {
      NoSignals(p);
    } else {
      NextKeepsFifo(h, calls[0]);
      CallBalances(h.table, calls[0], p);
      var later := Signalled(Next(h, calls[0]), calls[1..]);
      SignalsConcat(Apply(h.table, calls[0]).signals, later, p);
      BlocksAreAccountedFor(Next(h, calls[0]), calls[1..], p);
    }
  }

  lemma {:induction false} NobodyRegistered(boxes: seq<Mailbox>, p: nat)
    requires forall i :: 0 <= i < |boxes| ==> !boxes[i].active
    ensures Registrations(boxes, p) == 0
  {
    if boxes != [] {
      NobodyRegistered(boxes[1..], p);
    }
  }

  /** From ipc_init no process is woken more often than it was blocked, and exactly as often when no mailbox
      has it registered or has forgotten it. */
  lemma ReachableWakeUps(t: Table, calls: seq<Call>, p: nat)
    requires Initial(t)
    ensures AllFifo(History(t, [], [])) && AllFifo(Run(History(t, [], []), calls))
    ensures var h := History(t, [], []); var signals := Signalled(h, calls);
      && WakeUps(signals, p) <= Blocks(signals, p)
      && (WakeUps(signals, p) == Blocks(signals, p) <==>
           Registrations(Run(h, calls).table.boxes, p) == 0 && Forgotten(h, calls, p) == 0)
  {
    hide BoxFifo, Unused, TableOk, Registrations, WakeUps, Blocks, Run, Signalled, Forgotten;
    InitialIsFifo(t);
    BlocksAreAccountedFor(History(t, [], []), calls, p);
    assert forall i :: 0 <= i < |t.boxes| ==> Cleared(t.boxes[i]);
    NobodyRegistered(t.boxes, p);
  }

  // ---------------------------------------------------------------------------------------------
  // Who can be waiting
  // ---------------------------------------------------------------------------------------------

  /** A sender is registered only while the mailbox is full, a receiver only while it is empty. */
  predicate WaitsForCause(b: Mailbox) {
    b.active ==> (b.waitingSend.Some? ==> b.count == CAPACITY) && (b.waitingRecv.Some? ==> b.count == 0)
  }

  predicate AllForCause(t: Table) {
    forall i :: 0 <= i < |t.boxes| ==> WaitsForCause(t.boxes[i])
  }

  lemma PlainKeepsCause(t: Table, c: Call)
    requires TableOk(t) && AllForCause(t) && ((c.DoSend? || c.DoRecv?) ==> !c.blocking)
    ensures AllForCause(Apply(t, c).table)
  {
    hide BoxOk, NameTaken, StoredName, Place;
    if !c.DoCreate? && FindFrom(t.boxes, c.id, 0) < |t.boxes| {
      assert WaitsForCause(t.boxes[FindFrom(t.boxes, c.id, 0)]);
    }
  }

  lemma CallKeepsCause(t: Table, c: Call)
    requires TableOk(t) && AllForCause(t)
    ensures AllForCause(Apply(t, c).table)
  {
    hide BoxOk, Push, Pop;
    if (c.DoSend? || c.DoRecv?) && c.blocking {
      PlainKeepsCause(t, c.(blocking := false));
      if c.current.Some? {
        var data := if c.DoSend? then c.data else None;
        var buffer, max := c.DoRecv? && c.buffer, if c.DoRecv? then c.max else 0;
        BlockingCallsStillFail(t, c.id, data, buffer, max, c.current.value);
        if FindFrom(t.boxes, c.id, 0) < |t.boxes| {
          CountBounded(t, FindFrom(t.boxes, c.id, 0));
          assert WaitsForCause(t.boxes[FindFrom(t.boxes, c.id, 0)]);
        }
      }
    } else {
      PlainKeepsCause(t, c);
    }
  }

  lemma {:induction false} RunKeepsCause(h: History, calls: seq<Call>)
    requires AllFifo(h) && AllForCause(h.table)
    ensures AllFifo(Run(h, calls)) && AllForCause(Run(h, calls).table)
    decreases |calls|
  {
    hide BoxFifo, Unused, TableOk, Apply, AllForCause;
    if calls != [] {
      NextKeepsFifo(h, calls[0]);
      CallKeepsCause(h.table, calls[0]);
      RunKeepsCause(Next(h, calls[0]), calls[1..]);
    }
  }

  /** In every state reachable from ipc_init a waiting sender means a full mailbox and a waiting receiver an
      empty one, so that the destruction of a mailbox wakes one process at most: the one registered. */
  lemma DestroyWakesTheWaiter(t: Table, calls: seq<Call>, id: nat)
    requires Initial(t)
    ensures AllFifo(History(t, [], [])) && AllFifo(Run(History(t, [], []), calls))
    ensures var t' := Run(History(t, [], []), calls).table; var k := FindFrom(t'.boxes, id, 0);
      && AllForCause(t')
      && (k < |t'.boxes| ==>
           var b, o := t'.boxes[k], Destroy(t', id);
           && o.code == SUCCESS && |o.table.boxes| == |t'.boxes| && !o.table.boxes[k].active
           && o.signals == (if b.waitingSend.Some? then [Unblock(b.waitingSend.value)]
                            else if b.waitingRecv.Some? then [Unblock(b.waitingRecv.value)] else []))
  {
    hide BoxFifo, Unused, BoxOk, Run;
    InitialIsFifo(t);
    assert forall i :: 0 <= i < |t.boxes| ==> Cleared(t.boxes[i]);
    RunKeepsCause(History(t, [], []), calls);
    var t' := Run(History(t, [], []), calls).table;
    var k := FindFrom(t'.boxes, id, 0);
    if k < |t'.boxes| {
      assert WaitsForCause(t'.boxes[k]);
    }
  }
}
