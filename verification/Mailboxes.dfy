/** The mailboxes of ipc.c: a table of 16 rings of 8 messages. */
module Mailboxes {
  import opened Signals
  import opened Words
  import opened Wrappers

  const MAX_MAILBOXES: nat := 16
  const NAME_LEN: nat := 16
  const CAPACITY: nat := 8
  const MESSAGE_MAX: nat := 64

  const SUCCESS: int := 0
  const ERROR_FULL: int := -1
  const ERROR_EMPTY: int := -2
  const ERROR_NOTFOUND: int := -3
  const ERROR_EXISTS: int := -4
  const ERROR_NOSLOT: int := -5
  const ERROR_PARAM: int := -6

  newtype Byte = x: int | 0 <= x < 256

  /** A message slot: only the first `size` bytes of its buffer belong to the message. */
  datatype Slot = Slot(sender: nat, size: nat, data: seq<Byte>)

  datatype Message = Message(sender: nat, data: seq<Byte>)

  datatype Mailbox = Mailbox(
    id: nat,
    name: string,
    active: bool,
    slots: seq<Slot>,
    head: nat,
    tail: nat,
    count: nat,
    waitingSend: Option<nat>,
    waitingRecv: Option<nat>,
    sent: nat,
    received: nat)

  datatype Table = Table(boxes: seq<Mailbox>, nextId: nat)

  // ---------------------------------------------------------------------------------------------
  // One mailbox
  // ---------------------------------------------------------------------------------------------

  predicate SlotOk(s: Slot) {
    s.size <= MESSAGE_MAX && |s.data| == MESSAGE_MAX
  }

  function Content(s: Slot): Message
    requires SlotOk(s)
  {
    Message(s.sender, s.data[..s.size])
  }

  /** The slot i places after a position of the ring. */
  function Place(position: nat, i: nat): (k: nat)
    requires position < CAPACITY && i <= CAPACITY
    ensures k == if position + i < CAPACITY then position + i else position + i - CAPACITY
  {
    (position + i) % CAPACITY
  }

  /** The ring is in order: the tail is `count` places after the head. */
  predicate BoxOk(b: Mailbox) {
    && |b.slots| == CAPACITY && (forall i :: 0 <= i < CAPACITY ==> SlotOk(b.slots[i]))
    && b.head < CAPACITY && b.count <= CAPACITY && b.tail == Place(b.head, b.count)
  }

  /** The messages held, oldest first. */
  function Contents(b: Mailbox): (ms: seq<Message>)
    requires BoxOk(b)
    ensures |ms| == b.count
    ensures forall i :: 0 <= i < b.count ==> ms[i] == Content(b.slots[Place(b.head, i)])
  {
    seq(b.count, i requires 0 <= i < b.count => Content(b.slots[Place(b.head, i)]))
  }

  /** mem_copy into a buffer. */
  function Copied(dest: seq<Byte>, src: seq<Byte>, n: nat): (r: seq<Byte>)
    requires n <= |src| && n <= |dest|
    ensures |r| == |dest| && forall i :: 0 <= i < |r| ==> r[i] == if i < n then src[i] else dest[i]
  {
    src[..n] + dest[n..]
  }

  /** The message written at the tail. */
  function Push(b: Mailbox, sender: nat, data: seq<Byte>): Mailbox
    requires BoxOk(b) && |data| <= MESSAGE_MAX && b.count < CAPACITY
  {
    b.(slots := b.slots[b.tail := Slot(sender, |data|, Copied(b.slots[b.tail].data, data, |data|))],
       tail := Place(b.tail, 1), count := b.count + 1, sent := Inc32(b.sent), waitingRecv := None)
  }

  /** The message at the head taken away. */
  function Pop(b: Mailbox): Mailbox
    requires BoxOk(b) && b.count > 0
  {
    b.(head := Place(b.head, 1), count := b.count - 1, received := Inc32(b.received), waitingSend := None)
  }

  lemma PushAppends(b: Mailbox, sender: nat, data: seq<Byte>)
    requires BoxOk(b) && |data| <= MESSAGE_MAX && b.count < CAPACITY
    ensures BoxOk(Push(b, sender, data))
    ensures Contents(Push(b, sender, data)) == Contents(b) + [Message(sender, data)]
  {
    hide Place;
    var b' := Push(b, sender, data);
    assert Place(b'.head, b.count) == b.tail;
    assert Content(b'.slots[b.tail]) == Message(sender, data);
    forall i | 0 <= i < b.count ensures Contents(b')[i] == Contents(b)[i] {
      assert Place(b.head, i) != b.tail;
    }
  }

  lemma PopDrops(b: Mailbox)
    requires BoxOk(b) && b.count > 0
    ensures BoxOk(Pop(b)) && Contents(b)[0] == Content(b.slots[b.head])
    ensures Contents(Pop(b)) == Contents(b)[1..]
  {
    hide Place;
    var b' := Pop(b);
    forall i | 0 <= i < b'.count ensures Contents(b')[i] == Contents(b)[1..][i] {
      assert Place(b'.head, i) == Place(b.head, i + 1);
    }
  }

  // ---------------------------------------------------------------------------------------------
  // The table
  // ---------------------------------------------------------------------------------------------

  predicate TableOk(t: Table) {
    && |t.boxes| == MAX_MAILBOXES
    && (forall i :: 0 <= i < MAX_MAILBOXES ==> BoxOk(t.boxes[i]))
    && (forall i :: 0 <= i < MAX_MAILBOXES && t.boxes[i].active ==> 0 < t.boxes[i].id < t.nextId)
    && (forall i, j :: 0 <= i < j < MAX_MAILBOXES && t.boxes[i].active && t.boxes[j].active ==>
         t.boxes[i].id != t.boxes[j].id)
    && t.nextId > 0
  }

  predicate IsBox(b: Mailbox, id: nat) {
    b.active && b.id == id
  }

  /** The first position from i on whose mailbox has this id, or the size of the table. */
  function FindFrom(boxes: seq<Mailbox>, id: nat, i: nat): (k: nat)
    requires i <= |boxes|
    ensures i <= k <= |boxes|
    ensures forall j :: i <= j < k ==> !IsBox(boxes[j], id)
    ensures k < |boxes| ==> IsBox(boxes[k], id)
    decreases |boxes| - i
  {
    if i == |boxes| || IsBox(boxes[i], id) then i else FindFrom(boxes, id, i + 1)
  }

  function FreeFrom(boxes: seq<Mailbox>, i: nat): (k: nat)
    requires i <= |boxes|
    ensures i <= k <= |boxes|
    ensures forall j :: i <= j < k ==> boxes[j].active
    ensures k < |boxes| ==> !boxes[k].active
    decreases |boxes| - i
  {
    if i == |boxes| || !boxes[i].active then i else FreeFrom(boxes, i + 1)
  }

  predicate NameTaken(boxes: seq<Mailbox>, name: string) {
    exists i :: 0 <= i < |boxes| && boxes[i].active && boxes[i].name == name
  }

  function StoredName(name: string): string {
    if |name| < NAME_LEN then name else name[..NAME_LEN - 1]
  }

  /** Result code, new table and the calls made to the scheduler, in order. */
  datatype Outcome = Outcome(code: int, table: Table, signals: seq<Signal>)

  function Wake(p: Option<nat>): seq<Signal> {
    if p.Some? then [Unblock(p.value)] else []
  }

  function Fresh(b: Mailbox, id: nat, name: string): Mailbox {
    b.(id := id, name := StoredName(name), active := true, head := 0, tail := 0, count := 0,
       waitingSend := None, waitingRecv := None, sent := 0, received := 0)
  }

  /** mbox_create. None stands for a NULL name. */
  function Create(t: Table, name: Option<string>): Outcome {
    if name.None? || name.value == "" then Outcome(ERROR_PARAM, t, [])
    else if NameTaken(t.boxes, name.value) then Outcome(ERROR_EXISTS, t, [])
    else
      var k := FreeFrom(t.boxes, 0);
      if k == |t.boxes| then Outcome(ERROR_NOSLOT, t, [])
      else Outcome(t.nextId, Table(t.boxes[k := Fresh(t.boxes[k], t.nextId, name.value)], t.nextId + 1), [])
  }

  /** mbox_destroy. */
  function Destroy(t: Table, id: nat): Outcome {
    var k := FindFrom(t.boxes, id, 0);
    if k == |t.boxes| then Outcome(ERROR_NOTFOUND, t, []) else
      var b := t.boxes[k];
      Outcome(SUCCESS, t.(boxes := t.boxes[k := b.(active := false, id := 0, name := "")]),
              Wake(b.waitingSend) + Wake(b.waitingRecv))
  }

  function Cut(data: seq<Byte>, max: nat): (r: seq<Byte>)
    ensures |r| == if |data| <= max then |data| else max
    ensures r <= data
  {
    if |data| <= max then data else data[..max]
  }

  /** The pid recorded as sender: 0 when no process is current. */
  function SenderOf(current: Option<nat>): nat {
    if current.Some? then current.value else 0
  }

  /** mbox_send of all of data, cut to 64 bytes; None stands for a NULL pointer. */
  function Send(t: Table, id: nat, data: Option<seq<Byte>>, current: Option<nat>): Outcome
    requires TableOk(t)
  {
    var k := FindFrom(t.boxes, id, 0);
    if k == |t.boxes| then Outcome(ERROR_NOTFOUND, t, [])
    else if data.None? || |data.value| == 0 then Outcome(ERROR_PARAM, t, [])
    else if t.boxes[k].count >= CAPACITY then Outcome(ERROR_FULL, t, [])
    else
      var b := t.boxes[k];
      var pushed := Push(b, SenderOf(current), Cut(data.value, MESSAGE_MAX));
      Outcome(SUCCESS, t.(boxes := t.boxes[k := pushed]), Wake(b.waitingRecv))
  }

  /** What mbox_recv hands over: the sender and the bytes that fit. */
  datatype Received = Received(outcome: Outcome, message: Option<Message>)

  /** mbox_recv into a buffer of max bytes, or none for NULL. */
  function Recv(t: Table, id: nat, buffer: bool, max: nat): Received
    requires TableOk(t)
  {
    var k := FindFrom(t.boxes, id, 0);
    if k == |t.boxes| then Received(Outcome(ERROR_NOTFOUND, t, []), None)
    else if !buffer || max == 0 then Received(Outcome(ERROR_PARAM, t, []), None)
    else if t.boxes[k].count == 0 then Received(Outcome(ERROR_EMPTY, t, []), None)
    else
      var b := t.boxes[k];
      var m := Content(b.slots[b.head]);
      Received(Outcome(SUCCESS, t.(boxes := t.boxes[k := Pop(b)]), Wake(b.waitingSend)),
               Some(Message(m.sender, Cut(m.data, max))))
  }

  /** The table with `current` registered as the process waiting to send to mailbox k. */
  function WaitingToSend(t: Table, k: nat, current: nat): Table
    requires k < |t.boxes|
  {
    t.(boxes := t.boxes[k := t.boxes[k].(waitingSend := Some(current))])
  }

  function WaitingToRecv(t: Table, k: nat, current: nat): Table
    requires k < |t.boxes|
  {
    t.(boxes := t.boxes[k := t.boxes[k].(waitingRecv := Some(current))])
  }

  /** mbox_send_blocking: scheduler_block_process returns at once, and the message is sent again. */
  function SendBlocking(t: Table, id: nat, data: Option<seq<Byte>>, current: Option<nat>): Outcome
    requires TableOk(t)
  {
    var first := Send(t, id, data, current);
    if first.code == ERROR_FULL && current.Some? then
      var again := Send(WaitingToSend(t, FindFrom(t.boxes, id, 0), current.value), id, data, current);
      again.(signals := [Block(current.value, BLOCK_REASON_MBOX_FULL, id)] + again.signals)
    else first
  }

  /** mbox_recv_blocking. */
  function RecvBlocking(t: Table, id: nat, buffer: bool, max: nat, current: Option<nat>): Received
    requires TableOk(t)
  {
    var first := Recv(t, id, buffer, max);
    if first.outcome.code == ERROR_EMPTY && current.Some? then
      var again := Recv(WaitingToRecv(t, FindFrom(t.boxes, id, 0), current.value), id, buffer, max);
      var blocked := [Block(current.value, BLOCK_REASON_MBOX_EMPTY, id)];
      again.(outcome := again.outcome.(signals := blocked + again.outcome.signals))
    else first
  }

  lemma WaitingKeepsTable(t: Table, k: nat, current: nat)
    requires TableOk(t) && k < MAX_MAILBOXES
    ensures TableOk(WaitingToSend(t, k, current)) && TableOk(WaitingToRecv(t, k, current))
    ensures Contents(WaitingToSend(t, k, current).boxes[k]) == Contents(t.boxes[k])
    ensures Contents(WaitingToRecv(t, k, current).boxes[k]) == Contents(t.boxes[k])
  {
    assert forall i :: 0 <= i < MAX_MAILBOXES ==> BoxOk(WaitingToSend(t, k, current).boxes[i]);
    assert forall i :: 0 <= i < MAX_MAILBOXES ==> BoxOk(WaitingToRecv(t, k, current).boxes[i]);
  }

  lemma {:induction false} SameFind(x: seq<Mailbox>, y: seq<Mailbox>, id: nat, i: nat)
    requires i <= |x| == |y| && forall j :: 0 <= j < |x| ==> IsBox(x[j], id) == IsBox(y[j], id)
    ensures FindFrom(x, id, i) == FindFrom(y, id, i)
    decreases |x| - i
  {
    if i < |x| && !IsBox(x[i], id) {
      SameFind(x, y, id, i + 1);
    }
  }

  /** A blocking call never completes: where the plain call fails for want of room or of a message,
      the blocking one registers its caller, blocks it and fails with the same code. */
  lemma BlockingCallsStillFail(t: Table, id: nat, data: Option<seq<Byte>>, buffer: bool, max: nat, current: nat)
    requires TableOk(t)
    ensures var plain := Send(t, id, data, Some(current));
      SendBlocking(t, id, data, Some(current)) ==
      if plain.code != ERROR_FULL then plain
      else Outcome(ERROR_FULL, WaitingToSend(t, FindFrom(t.boxes, id, 0), current),
                   [Block(current, BLOCK_REASON_MBOX_FULL, id)])
    ensures var plain := Recv(t, id, buffer, max);
      RecvBlocking(t, id, buffer, max, Some(current)) ==
      if plain.outcome.code != ERROR_EMPTY then plain
      else
        Received(Outcome(ERROR_EMPTY, WaitingToRecv(t, FindFrom(t.boxes, id, 0), current),
                         [Block(current, BLOCK_REASON_MBOX_EMPTY, id)]), None)
  {
    var k := FindFrom(t.boxes, id, 0);
    if k < |t.boxes| {
      WaitingKeepsTable(t, k, current);
      SameFind(t.boxes, WaitingToSend(t, k, current).boxes, id, 0);
      SameFind(t.boxes, WaitingToRecv(t, k, current).boxes, id, 0);
    }
  }

  lemma FullFound(t: Table, id: nat, data: Option<seq<Byte>>, current: Option<nat>)
    requires TableOk(t)
    ensures Send(t, id, data, current).code == ERROR_FULL ==>
      Send(t, id, data, current) == Outcome(ERROR_FULL, t, []) && FindFrom(t.boxes, id, 0) < |t.boxes|
  {
  }

  // ---------------------------------------------------------------------------------------------
  // Runs
  // ---------------------------------------------------------------------------------------------

  datatype Call =
    | DoCreate(name: Option<string>)
    | DoDestroy(id: nat)
    | DoSend(id: nat, data: Option<seq<Byte>>, current: Option<nat>, blocking: bool)
    | DoRecv(id: nat, buffer: bool, max: nat, current: Option<nat>, blocking: bool)

  function Receipt(t: Table, c: Call): Received
    requires TableOk(t) && c.DoRecv?
  {
    if c.blocking then RecvBlocking(t, c.id, c.buffer, c.max, c.current) else Recv(t, c.id, c.buffer, c.max)
  }

  function Apply(t: Table, c: Call): Outcome
    requires TableOk(t)
  {
    match c
    case DoCreate(name) => Create(t, name)
    case DoDestroy(id) => Destroy(t, id)
    case DoSend(id, data, current, blocking) =>
      if blocking then SendBlocking(t, id, data, current) else Send(t, id, data, current)
    case DoRecv(_, _, _, _, _) => Receipt(t, c).outcome
  }

  /** An operation on one id leaves every other mailbox exactly as it was. */
  lemma OthersUntouched(t: Table, c: Call, i: nat)
    requires TableOk(t) && !c.DoCreate? && i < MAX_MAILBOXES && !IsBox(t.boxes[i], c.id)
    ensures |Apply(t, c).table.boxes| == MAX_MAILBOXES && Apply(t, c).table.boxes[i] == t.boxes[i]
  {
    hide BoxOk;
  }

  /** What a caller sent, and what a caller was handed into a buffer of `max` bytes. */
  datatype Sent = Sent(sender: nat, data: seq<Byte>)

  datatype Taken = Taken(max: nat, message: Message)

  datatype Entry<T> = Entry(id: nat, item: T)

  /** The table with what callers saw: every message accepted and every message handed over. */
  datatype History = History(table: Table, accepted: seq<Entry<Sent>>, received: seq<Entry<Taken>>)

  function On<T>(log: seq<Entry<T>>, id: nat): seq<T> {
    if log == [] then []
    else
      var last := log[|log| - 1];
      On(log[..|log| - 1], id) + if last.id == id then [last.item] else []
  }

  lemma OnAppend<T>(log: seq<Entry<T>>, e: Entry<T>, id: nat)
    ensures On(log + [e], id) == On(log, id) + if e.id == id then [e.item] else []
  {
    assert (log + [e])[..|log|] == log;
  }

  function Next(h: History, c: Call): History
    requires TableOk(h.table)
  {
    var o := Apply(h.table, c);
    if c.DoSend? && o.code == SUCCESS then
      History(o.table, h.accepted + [Entry(c.id, Sent(SenderOf(c.current), c.data.value))], h.received)
    else if c.DoRecv? && o.code == SUCCESS then
      History(o.table, h.accepted, h.received + [Entry(c.id, Taken(c.max, Receipt(h.table, c).message.value))])
    else
      h.(table := o.table)
  }

  /** A message is cut to 64 bytes when it is sent and to the receiver's buffer when it is received. */
  function Stored(s: Sent): Message {
    Message(s.sender, Cut(s.data, MESSAGE_MAX))
  }

  function Delivered(s: Sent, max: nat): Message {
    Message(s.sender, Cut(Stored(s).data, max))
  }

  /** The i-th message handed over is the i-th one accepted, and the messages held are the rest. */
  ghost predicate Fifo(accepted: seq<Sent>, received: seq<Taken>, held: seq<Message>) {
    && |accepted| == |received| + |held|
    && (forall i :: 0 <= i < |received| ==> received[i].message == Delivered(accepted[i], received[i].max))
    && (forall i :: 0 <= i < |held| ==> held[i] == Stored(accepted[|received| + i]))
  }

  ghost predicate BoxFifo(h: History, b: Mailbox) {
    && BoxOk(b) && Fifo(On(h.accepted, b.id), On(h.received, b.id), Contents(b))
    && b.sent == Wrapped(|On(h.accepted, b.id)|) && b.received == Wrapped(|On(h.received, b.id)|)
  }

  ghost predicate Unused(h: History, id: nat) {
    On(h.accepted, id) == [] && On(h.received, id) == []
  }

  /** Every active mailbox is a FIFO since its creation; identifiers not yet given out have no history. */
  ghost predicate AllFifo(h: History) {
    && TableOk(h.table)
    && (forall i :: 0 <= i < MAX_MAILBOXES && h.table.boxes[i].active ==> BoxFifo(h, h.table.boxes[i]))
    && (forall id :: id >= h.table.nextId ==> Unused(h, id))
  }

  ghost predicate SameLogs(h: History, h': History, id: nat) {
    On(h'.accepted, id) == On(h.accepted, id) && On(h'.received, id) == On(h.received, id)
  }

  /** A step that changes one slot of the table and only the history of the mailbox in it. */
  lemma SlotChanged(h: History, h': History, k: nat)
    requires AllFifo(h) && k < MAX_MAILBOXES && TableOk(h'.table) && h'.table.nextId >= h.table.nextId
    requires forall i :: 0 <= i < MAX_MAILBOXES && i != k ==> h'.table.boxes[i] == h.table.boxes[i]
    requires h'.table.boxes[k].active ==> BoxFifo(h', h'.table.boxes[k])
    requires forall id: nat :: !IsBox(h.table.boxes[k], id) ==> SameLogs(h, h', id)
    ensures AllFifo(h')
  {
    hide BoxOk, Fifo, On, Contents;
    forall i | 0 <= i < MAX_MAILBOXES && h'.table.boxes[i].active ensures BoxFifo(h', h'.table.boxes[i]) {
      if i != k {
        assert BoxFifo(h, h.table.boxes[i]);
        assert SameLogs(h, h', h.table.boxes[i].id);
      }
    }
    forall id | id >= h'.table.nextId ensures Unused(h', id) {
      assert Unused(h, id) && !IsBox(h.table.boxes[k], id) && SameLogs(h, h', id);
    }
  }

  lemma CreateKeepsTable(t: Table, name: Option<string>)
    requires TableOk(t)
    ensures TableOk(Create(t, name).table)
  {
    hide NameTaken, StoredName, Contents;
    var t' := Create(t, name).table;
    assert forall i :: 0 <= i < MAX_MAILBOXES ==> BoxOk(t'.boxes[i]);
  }

  lemma CreateKeepsFifo(h: History, name: Option<string>)
    requires AllFifo(h)
    ensures AllFifo(Next(h, DoCreate(name)))
  {
    hide On, NameTaken, StoredName;
    var h' := Next(h, DoCreate(name));
    var k := FreeFrom(h.table.boxes, 0);
    if h'.table != h.table {
      assert Unused(h, h.table.nextId);
      CreateKeepsTable(h.table, name);
      SlotChanged(h, h', k);
    }
  }

  /** A new mailbox is empty, is the only one with its identifier, and takes a free slot: every other
      slot is as before. A failed creation changes nothing. */
  lemma CreateOpensEmpty(t: Table, name: Option<string>)
    requires TableOk(t)
    ensures var o := Create(t, name);
      if o.code > 0 then
        && name.Some? && name.value != "" && o.table.nextId == t.nextId + 1 && o.code == t.nextId
        && var k := FindFrom(o.table.boxes, o.code, 0);
        && k < MAX_MAILBOXES && !t.boxes[k].active && o.table.boxes == t.boxes[k := o.table.boxes[k]]
        && BoxOk(o.table.boxes[k]) && Contents(o.table.boxes[k]) == []
      else o.table == t && o.code < 0
  {
    hide NameTaken, StoredName;
    CreateKeepsTable(t, name);
    var o := Create(t, name);
    if o.code > 0 {
      assert IsBox(o.table.boxes[FreeFrom(t.boxes, 0)], t.nextId);
    }
  }

  lemma DestroyKeepsTable(t: Table, id: nat)
    requires TableOk(t)
    ensures TableOk(Destroy(t, id).table)
  {
    hide Contents;
    var t' := Destroy(t, id).table;
    assert forall i :: 0 <= i < MAX_MAILBOXES ==> BoxOk(t'.boxes[i]);
  }

  lemma DestroyKeepsFifo(h: History, id: nat)
    requires AllFifo(h)
    ensures AllFifo(Next(h, DoDestroy(id)))
  {
    hide On, Contents, Fifo, BoxOk;
    var h' := Next(h, DoDestroy(id));
    DestroyKeepsTable(h.table, id);
    if h'.table != h.table {
      SlotChanged(h, h', FindFrom(h.table.boxes, id, 0));
    }
  }

  lemma WaitingKeepsFifo(h: History, k: nat, current: nat)
    requires AllFifo(h) && k < MAX_MAILBOXES
    ensures AllFifo(h.(table := WaitingToSend(h.table, k, current)))
    ensures AllFifo(h.(table := WaitingToRecv(h.table, k, current)))
  {
    hide On, Contents, Fifo, BoxOk;
    WaitingKeepsTable(h.table, k, current);
    SlotChanged(h, h.(table := WaitingToSend(h.table, k, current)), k);
    SlotChanged(h, h.(table := WaitingToRecv(h.table, k, current)), k);
  }

  lemma UpdateKeepsTable(t: Table, k: nat, b: Mailbox)
    requires TableOk(t) && k < MAX_MAILBOXES && BoxOk(b)
    requires b.id == t.boxes[k].id && b.active == t.boxes[k].active
    ensures TableOk(t.(boxes := t.boxes[k := b]))
  {
    hide BoxOk;
    var boxes := t.boxes[k := b];
    assert forall i :: 0 <= i < MAX_MAILBOXES ==> BoxOk(boxes[i]);
  }

  lemma FifoPush(accepted: seq<Sent>, received: seq<Taken>, held: seq<Message>, s: Sent)
    requires Fifo(accepted, received, held)
    ensures Fifo(accepted + [s], received, held + [Stored(s)])
  {
    hide Cut;
  }

  lemma PushKeepsFifo(h: History, h': History, b: Mailbox, e: Entry<Sent>)
    requires BoxFifo(h, b) && b.count < CAPACITY && e.id == b.id
    requires h'.accepted == h.accepted + [e] && h'.received == h.received
    ensures BoxFifo(h', Push(b, e.item.sender, Cut(e.item.data, MESSAGE_MAX)))
    ensures forall id: nat :: id != b.id ==> SameLogs(h, h', id)
  {
    hide Contents, BoxOk, On, Cut, Fifo;
    IncWrapped(|On(h.accepted, b.id)|);
    PushAppends(b, e.item.sender, Cut(e.item.data, MESSAGE_MAX));
    FifoPush(On(h.accepted, b.id), On(h.received, b.id), Contents(b), e.item);
    forall id ensures On(h'.accepted, id) == On(h.accepted, id) + if id == b.id then [e.item] else [] {
      OnAppend(h.accepted, e, id);
    }
  }

  lemma PopKeepsFifo(h: History, h': History, b: Mailbox, e: Entry<Taken>)
    requires BoxFifo(h, b) && b.count > 0 && e.id == b.id
    requires e.item.message == Message(Contents(b)[0].sender, Cut(Contents(b)[0].data, e.item.max))
    requires h'.accepted == h.accepted && h'.received == h.received + [e]
    ensures BoxFifo(h', Pop(b))
    ensures forall id: nat :: id != b.id ==> SameLogs(h, h', id)
  {
    hide Contents, BoxOk, On, Cut;
    IncWrapped(|On(h.received, b.id)|);
    PopDrops(b);
    forall id ensures On(h'.received, id) == On(h.received, id) + if id == b.id then [e.item] else [] {
      OnAppend(h.received, e, id);
    }
  }

  lemma SendKeepsFifo(h: History, c: Call)
    requires AllFifo(h) && c.DoSend? && !c.blocking
    ensures AllFifo(Next(h, c))
  {
    hide Contents, BoxOk, On, Cut, Fifo, Place, SameLogs;
    var h' := Next(h, c);
    var k := FindFrom(h.table.boxes, c.id, 0);
    if Apply(h.table, c).code == SUCCESS {
      assert BoxFifo(h, h.table.boxes[k]);
      PushKeepsFifo(h, h', h.table.boxes[k], Entry(c.id, Sent(SenderOf(c.current), c.data.value)));
      UpdateKeepsTable(h.table, k, h'.table.boxes[k]);
      SlotChanged(h, h', k);
    }
  }

  lemma RecvKeepsFifo(h: History, c: Call)
    requires AllFifo(h) && c.DoRecv? && !c.blocking
    ensures AllFifo(Next(h, c))
  {
    hide Contents, BoxOk, On, Cut, Fifo, Place, SameLogs;
    var h' := Next(h, c);
    var k := FindFrom(h.table.boxes, c.id, 0);
    if Apply(h.table, c).code == SUCCESS {
      assert BoxFifo(h, h.table.boxes[k]);
      PopDrops(h.table.boxes[k]);
      PopKeepsFifo(h, h', h.table.boxes[k], Entry(c.id, Taken(c.max, Receipt(h.table, c).message.value)));
      UpdateKeepsTable(h.table, k, h'.table.boxes[k]);
      SlotChanged(h, h', k);
    }
  }

  /** A blocking call is the plain call, or only registers its caller. */
  lemma BlockingSendKeepsFifo(h: History, id: nat, data: Option<seq<Byte>>, current: Option<nat>)
    requires AllFifo(h)
    ensures AllFifo(Next(h, DoSend(id, data, current, true)))
  {
    hide BoxOk, BoxFifo, Unused, Push, WaitingToSend;
    SendKeepsFifo(h, DoSend(id, data, current, false));
    if current.Some? {
      BlockingCallsStillFail(h.table, id, data, false, 0, current.value);
      if FindFrom(h.table.boxes, id, 0) < |h.table.boxes| {
        WaitingKeepsFifo(h, FindFrom(h.table.boxes, id, 0), current.value);
      }
    }
  }

  lemma BlockingRecvKeepsFifo(h: History, id: nat, buffer: bool, max: nat, current: Option<nat>)
    requires AllFifo(h)
    ensures AllFifo(Next(h, DoRecv(id, buffer, max, current, true)))
  {
    hide BoxOk, BoxFifo, Unused, Pop, WaitingToRecv;
    RecvKeepsFifo(h, DoRecv(id, buffer, max, current, false));
    if current.Some? {
      BlockingCallsStillFail(h.table, id, None, buffer, max, current.value);
      if FindFrom(h.table.boxes, id, 0) < |h.table.boxes| {
        WaitingKeepsFifo(h, FindFrom(h.table.boxes, id, 0), current.value);
      }
    }
  }

  lemma NextKeepsFifo(h: History, c: Call)
    requires AllFifo(h)
    ensures AllFifo(Next(h, c))
  {
    hide TableOk, BoxOk, Apply;
    match c {
      case DoCreate(name) => CreateKeepsFifo(h, name);
      case DoDestroy(id) => DestroyKeepsFifo(h, id);
      case DoSend(id, data, current, blocking) =>
        if blocking {
          BlockingSendKeepsFifo(h, id, data, current);
        } else {
          SendKeepsFifo(h, c);
        }
      case DoRecv(id, buffer, max, current, blocking) =>
        if blocking {
          BlockingRecvKeepsFifo(h, id, buffer, max, current);
        } else {
          RecvKeepsFifo(h, c);
        }
    }
  }

  predicate Cleared(b: Mailbox) {
    && b.id == 0 && b.name == "" && !b.active && b.head == 0 && b.tail == 0 && b.count == 0
    && b.waitingSend == None && b.waitingRecv == None && b.sent == 0 && b.received == 0
    && |b.slots| == CAPACITY && forall i :: 0 <= i < CAPACITY ==> SlotOk(b.slots[i])
  }

  /** ipc_init. */
  predicate Initial(t: Table) {
    && |t.boxes| == MAX_MAILBOXES && t.nextId == 1
    && forall i :: 0 <= i < MAX_MAILBOXES ==> Cleared(t.boxes[i])
  }

  ghost function Run(h: History, calls: seq<Call>): History
    requires AllFifo(h)
    decreases |calls|
  {
    if calls == [] then h
    else
      NextKeepsFifo(h, calls[0]);
      Run(Next(h, calls[0]), calls[1..])
  }

  lemma {:induction false} RunKeepsFifo(h: History, calls: seq<Call>)
    requires AllFifo(h)
    ensures AllFifo(Run(h, calls))
    decreases |calls|
  {
    hide BoxFifo, BoxOk, Unused, Next;
    if calls != [] {
      NextKeepsFifo(h, calls[0]);
      RunKeepsFifo(Next(h, calls[0]), calls[1..]);
    }
  }

  lemma CountersDiffer(received: nat, held: nat)
    requires held < WORD
    ensures (Wrapped(received + held) - Wrapped(received)) % WORD == held
  {
    assert WORD == 0x1_0000_0000;
  }

  lemma InitialIsFifo(t: Table)
    requires Initial(t)
    ensures AllFifo(History(t, [], []))
  {
    assert forall i :: 0 <= i < MAX_MAILBOXES ==> Cleared(t.boxes[i]);
  }

  /** After any run of calls from ipc_init, every active mailbox is a FIFO since its creation. */
  lemma RunIsFifo(t: Table, calls: seq<Call>)
    requires Initial(t)
    ensures AllFifo(History(t, [], [])) && AllFifo(Run(History(t, [], []), calls))
    ensures forall i :: 0 <= i < MAX_MAILBOXES ==>
      var h := Run(History(t, [], []), calls);
      var b := h.table.boxes[i];
      && b.tail == (b.head + b.count) % CAPACITY && b.count <= CAPACITY
      && (b.active ==> Fifo(On(h.accepted, b.id), On(h.received, b.id), Contents(b)))
      && (b.active ==> (b.sent - b.received) % WORD == b.count)
  {
    hide Contents, On, Initial;
    InitialIsFifo(t);
    RunKeepsFifo(History(t, [], []), calls);
    var h := Run(History(t, [], []), calls);
    forall i | 0 <= i < MAX_MAILBOXES
      ensures var b := h.table.boxes[i]; b.active ==> BoxFifo(h, b) && (b.sent - b.received) % WORD == b.count
    {
      var b := h.table.boxes[i];
      if b.active {
        assert BoxFifo(h, b);
        CountersDiffer(|On(h.received, b.id)|, |Contents(b)|);
      }
    }
  }

  // ---------------------------------------------------------------------------------------------
  // Names
  // ---------------------------------------------------------------------------------------------

  /** Active mailboxes have different names, of fifteen characters at most. */
  predicate NamesOk(t: Table) {
    && (forall i :: 0 <= i < |t.boxes| && t.boxes[i].active ==> |t.boxes[i].name| <= 15)
    && (forall i, j :: 0 <= i < j < |t.boxes| && t.boxes[i].active && t.boxes[j].active ==>
         t.boxes[i].name != t.boxes[j].name)
  }

  predicate ShortName(c: Call) {
    c.DoCreate? && c.name.Some? ==> |c.name.value| <= 15
  }

  lemma SameNames(t: Table, t': Table, k: nat)
    requires NamesOk(t) && k < |t.boxes| == |t'.boxes| && t'.boxes == t.boxes[k := t'.boxes[k]]
    requires t'.boxes[k].active ==> t.boxes[k].active && t'.boxes[k].name == t.boxes[k].name
    ensures NamesOk(t')
  {
  }

  lemma CreateKeepsNames(t: Table, name: Option<string>)
    requires NamesOk(t) && (name.Some? ==> |name.value| <= 15)
    ensures NamesOk(Create(t, name).table)
  {
  }

  lemma CallKeepsNames(t: Table, c: Call)
    requires TableOk(t) && NamesOk(t) && ShortName(c)
    ensures NamesOk(Apply(t, c).table)
  {
    hide BoxOk, NamesOk, NameTaken, StoredName, Place;
    if c.DoCreate? {
      CreateKeepsNames(t, c.name);
    } else {
      var k, t' := FindFrom(t.boxes, c.id, 0), Apply(t, c).table;
      if k < |t.boxes| {
        if (c.DoSend? || c.DoRecv?) && c.blocking && c.current.Some? {
          var data := if c.DoSend? then c.data else None;
          var buffer, max := c.DoRecv? && c.buffer, if c.DoRecv? then c.max else 0;
          BlockingCallsStillFail(t, c.id, data, buffer, max, c.current.value);
        }
        SameNames(t, t', k);
      }
    }
  }

  /** Over any run that creates under names of fifteen characters at most, no two active mailboxes share a
      name. */
  lemma {:induction false} RunKeepsNames(h: History, calls: seq<Call>)
    requires AllFifo(h) && NamesOk(h.table) && forall c :: c in calls ==> ShortName(c)
    ensures NamesOk(Run(h, calls).table)
    decreases |calls|
  {
    hide BoxFifo, Unused, TableOk, NamesOk, Apply;
    if calls != [] {
      assert calls[0] in calls;
      NextKeepsFifo(h, calls[0]);
      CallKeepsNames(h.table, calls[0]);
      RunKeepsNames(Next(h, calls[0]), calls[1..]);
    }
  }

  /** A second creation under the same name is refused as such if and only if the name has fifteen
      characters at most: a longer one is cut when it is stored, but compared as it is. */
  lemma SecondCreateRefusedIff(t: Table, name: string)
    requires forall i :: 0 <= i < |t.boxes| && t.boxes[i].active ==> |t.boxes[i].name| <= 15
    requires Create(t, Some(name)).code == t.nextId && t.nextId > 0
    ensures Create(Create(t, Some(name)).table, Some(name)).code == ERROR_EXISTS <==> |name| <= 15
  {
    var k := FreeFrom(t.boxes, 0);
    var t' := Create(t, Some(name)).table;
    assert t'.boxes[k].active && t'.boxes[k].name == StoredName(name);
  }

  const LONG_NAME: string := "0123456789abcdef"

  /** From ipc_init: the same name of sixteen characters is created twice. */
  lemma LongNameTwice(t: Table)
    requires Initial(t)
    ensures var first := Create(t, Some(LONG_NAME)); var second := Create(first.table, Some(LONG_NAME));
      && first.code == 1 && second.code == 2 && |second.table.boxes| == MAX_MAILBOXES
      && second.table.boxes[0].active && second.table.boxes[1].active
      && second.table.boxes[0].name == second.table.boxes[1].name == LONG_NAME[..15]
  {
    assert forall i :: 0 <= i < MAX_MAILBOXES ==> Cleared(t.boxes[i]);
    assert |LONG_NAME| == 16;
    assert FreeFrom(t.boxes, 0) == 0;
    var t1 := Create(t, Some(LONG_NAME)).table;
    assert FreeFrom(t1.boxes, 0) == 1;
  }

  // ---------------------------------------------------------------------------------------------
  // Result codes
  // ---------------------------------------------------------------------------------------------

  predicate Exists(t: Table, id: nat) {
    exists i :: 0 <= i < |t.boxes| && t.boxes[i].active && t.boxes[i].id == id
  }

  /** What each code of a send and of a receive says about the mailbox and the arguments, and that only a
      success changes anything or wakes anybody. */
  lemma CodesOfMessages(t: Table, id: nat, data: Option<seq<Byte>>, current: Option<nat>, buffer: bool, max: nat)
    requires TableOk(t)
    ensures var o, k := Send(t, id, data, current), FindFrom(t.boxes, id, 0);
      && (o.code == -3 <==> !Exists(t, id))
      && (o.code == -6 <==> Exists(t, id) && (data.None? || data.value == []))
      && (o.code == -1 <==> k < MAX_MAILBOXES && data.Some? && data.value != [] && |Contents(t.boxes[k])| == 8)
      && (o.code == 0 <==> k < MAX_MAILBOXES && data.Some? && data.value != [] && |Contents(t.boxes[k])| < 8)
      && (o.code != 0 ==> o.table == t && o.signals == [])
    ensures var r, k := Recv(t, id, buffer, max), FindFrom(t.boxes, id, 0); var o := r.outcome;
      && (o.code == -3 <==> !Exists(t, id))
      && (o.code == -6 <==> Exists(t, id) && (!buffer || max == 0))
      && (o.code == -2 <==> k < MAX_MAILBOXES && buffer && max > 0 && Contents(t.boxes[k]) == [])
      && (o.code == 0 <==> k < MAX_MAILBOXES && buffer && max > 0 && Contents(t.boxes[k]) != [])
      && (o.code != 0 ==> o.table == t && o.signals == [] && r.message.None?)
  {
    hide Push, Pop, Content, Cut;
    var k := FindFrom(t.boxes, id, 0);
    if k < |t.boxes| {
      assert IsBox(t.boxes[k], id);
    } else {
      assert forall i :: 0 <= i < |t.boxes| ==> !IsBox(t.boxes[i], id);
    }
  }

  /** What each code of a creation says. */
  lemma CodesOfCreate(t: Table, name: Option<string>)
    requires TableOk(t)
    ensures var o := Create(t, name);
      var named := name.Some? && name.value != "";
      var taken := named && exists i :: 0 <= i < |t.boxes| && t.boxes[i].active && t.boxes[i].name == name.value;
      var room := exists i :: 0 <= i < |t.boxes| && !t.boxes[i].active;
      && (o.code == -6 <==> !named) && (o.code == -4 <==> taken)
      && (o.code == -5 <==> named && !taken && !room) && (o.code > 0 <==> named && !taken && room)
  {
    hide BoxOk, StoredName;
  }
}
