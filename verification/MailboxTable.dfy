/** The mailbox table of ipc.c as it lies in memory, updated in place. */
module MailboxTable {
  import opened Signals
  import opened Words
  import opened Wrappers
  import opened M = Mailboxes

  datatype Header = Header(sender: nat, size: nat)

  /** mem_copy, from position s of src to position d of dest. */
  method MemCopy(dest: array<Byte>, d: nat, src: array<Byte>, s: nat, size: nat)
    requires d + size <= dest.Length && s + size <= src.Length && dest != src
    modifies dest
    ensures forall i :: 0 <= i < dest.Length ==>
      dest[i] == if d <= i < d + size then src[s + i - d] else old(dest[i])
  {
    for i := 0 to size
      invariant forall j :: 0 <= j < dest.Length ==>
        dest[j] == if d <= j < d + i then src[s + j - d] else old(dest[j])
    {
      dest[d + i] := src[s + i];
    }
  }

  /** mailbox_t. The bytes of the eight messages lie one after the other. */
  class Box {
    var id: nat
    var name: string
    var active: bool
    const headers: array<Header>
    const bytes: array<Byte>
    var head: nat
    var tail: nat
    var count: nat
    var waitingSend: Option<nat>
    var waitingRecv: Option<nat>
    var sent: nat
    var received: nat

    ghost predicate Shape()
      reads headers, bytes
    {
      headers.Length == CAPACITY && bytes.Length == CAPACITY * MESSAGE_MAX
    }

    ghost function SlotAt(i: nat): Slot
      requires Shape() && i < CAPACITY
      reads headers, bytes
    {
      Slot(headers[i].sender, headers[i].size, bytes[i * MESSAGE_MAX..(i + 1) * MESSAGE_MAX])
    }

    ghost function Slots(): (s: seq<Slot>)
      requires Shape()
      reads headers, bytes
      ensures |s| == CAPACITY && forall i :: 0 <= i < CAPACITY ==> s[i] == SlotAt(i)
    {
      seq(CAPACITY, i requires 0 <= i < CAPACITY && Shape() reads headers, bytes => SlotAt(i))
    }

    ghost function View(): Mailbox
      requires Shape()
      reads this, headers, bytes
    {
      Mailbox(id, name, active, Slots(), head, tail, count, waitingSend, waitingRecv, sent, received)
    }

    constructor ()
      ensures Shape() && fresh(headers) && fresh(bytes) && BoxOk(View()) && Cleared(View())
    {
      id, name, active := 0, "", false;
      headers := new Header[CAPACITY](_ => Header(0, 0));
      bytes := new Byte[CAPACITY * MESSAGE_MAX](_ => 0);
      head, tail, count := 0, 0, 0;
      waitingSend, waitingRecv := None, None;
      sent, received := 0, 0;
    }

    method Open(newId: nat, newName: string)
      requires Shape()
      modifies this
      ensures View() == Fresh(old(View()), newId, newName)
    {
      hide Slots, SlotAt, StoredName, Shape;
      ghost var slots := Slots();
      id := newId;
      name := StoredName(newName);
      active := true;
      head, tail, count := 0, 0, 0;
      waitingSend, waitingRecv := None, None;
      sent, received := 0, 0;
      assert Slots() == slots;
    }

    /** Fills the slot at position i. */
    method Fill(i: nat, sender: nat, data: array<Byte>, size: nat)
      requires Shape() && i < CAPACITY && size <= MESSAGE_MAX && size <= data.Length && data != bytes
      modifies headers, bytes
      ensures Slots() == old(Slots())[i := Slot(sender, size, Copied(old(Slots()[i].data), old(data[..size]), size))]
    {
      ghost var was := SlotAt(i).data;
      ghost var written := data[..size];
      ghost var at := i * MESSAGE_MAX;
      headers[i] := Header(sender, size);
      MemCopy(bytes, i * MESSAGE_MAX, data, 0, size);
      forall k | 0 <= k < CAPACITY && k != i ensures Slots()[k] == old(Slots()[k]) {
        assert bytes[k * MESSAGE_MAX..(k + 1) * MESSAGE_MAX] == old(bytes[k * MESSAGE_MAX..(k + 1) * MESSAGE_MAX]);
      }
      assert SlotAt(i).data == Copied(was, written, size) by {
        forall j | 0 <= j < MESSAGE_MAX ensures SlotAt(i).data[j] == if j < size then written[j] else was[j] {
          assert SlotAt(i).data[j] == bytes[at + j] && was[j] == old(bytes[at + j]);
        }
      }
    }

    /** The part of mbox_send that stores the message. */
    method Put(sender: nat, data: array<Byte>, size: nat) returns (woken: Option<nat>)
      requires Shape() && BoxOk(View()) && count < CAPACITY
      requires size <= MESSAGE_MAX && size <= data.Length && data != bytes
      modifies this, headers, bytes
      ensures View() == Push(old(View()), sender, old(data[..size])) && woken == old(waitingRecv)
    {
      hide SlotOk;
      Fill(tail, sender, data, size);
      tail := (tail + 1) % CAPACITY;
      count := count + 1;
      sent := Inc32(sent);
      woken := waitingRecv;
      waitingRecv := None;
    }

    /** Copies the message at the head into the buffer, cut to max bytes. */
    method CopyOut(buffer: array<Byte>, max: nat) returns (size: nat, sender: nat)
      requires Shape() && head < CAPACITY && SlotOk(Slots()[head])
      requires max <= buffer.Length && buffer != bytes
      modifies buffer
      ensures size <= max && sender == SlotAt(head).sender
      ensures buffer[..size] == Cut(Content(Slots()[head]).data, max) && buffer[size..] == old(buffer[size..])
    {
      ghost var content := Content(Slots()[head]).data;
      ghost var at := head * MESSAGE_MAX;
      size := headers[head].size;
      if size > max {
        size := max;
      }
      MemCopy(buffer, 0, bytes, head * MESSAGE_MAX, size);
      sender := headers[head].sender;
      assert buffer[..size] == content[..size] by {
        forall j | 0 <= j < size ensures buffer[j] == content[j] {
          assert content[j] == bytes[at + j];
        }
      }
    }

    /** The part of mbox_recv that hands the message over. */
    method Get(buffer: array<Byte>, max: nat) returns (size: nat, sender: nat, woken: Option<nat>)
      requires Shape() && BoxOk(View()) && count > 0
      requires max <= buffer.Length && buffer != bytes
      modifies this, buffer
      ensures View() == Pop(old(View())) && woken == old(waitingSend)
      ensures size <= max && sender == Contents(old(View()))[0].sender
      ensures buffer[..size] == Cut(Contents(old(View()))[0].data, max) && buffer[size..] == old(buffer[size..])
    {
      hide Slots, SlotAt, SlotOk;
      assert Contents(View())[0] == Content(Slots()[head]);
      size, sender := CopyOut(buffer, max);
      head := (head + 1) % CAPACITY;
      count := count - 1;
      received := Inc32(received);
      woken := waitingSend;
      waitingSend := None;
    }
  }

  /** The table of ipc.c and its operations. */
  class BoxTable {
    const boxes: seq<Box>
    var nextId: nat

    /** The arrays and records of the table; `nextId` aside, they are all it updates. */
    ghost function Storage(): set<object> {
      (set b: Box | b in boxes :: b as object) + (set b: Box | b in boxes :: b.headers as object)
      + (set b: Box | b in boxes :: b.bytes as object)
    }

    ghost predicate Shape()
      reads this, Storage()
    {
      && |boxes| == MAX_MAILBOXES
      && (forall i :: 0 <= i < |boxes| ==> boxes[i].Shape())
      && (forall i, j :: 0 <= i < j < |boxes| ==>
           boxes[i] != boxes[j] && boxes[i].headers != boxes[j].headers && boxes[i].bytes != boxes[j].bytes)
    }

    ghost function View(): (t: Table)
      requires Shape()
      reads this, Storage()
      ensures |t.boxes| == |boxes| && t.nextId == nextId
      ensures forall i :: 0 <= i < |boxes| ==> t.boxes[i] == boxes[i].View()
    {
      Table(seq(|boxes|, i requires 0 <= i < |boxes| && Shape() reads this, Storage() => boxes[i].View()), nextId)
    }

    ghost predicate Valid()
      reads this, Storage()
    {
      Shape() && TableOk(View())
    }

    /** ipc_init. */
    constructor ()
      ensures Valid() && Initial(View()) && fresh(Storage())
    {
      var made: seq<Box> := [];
      for i := 0 to MAX_MAILBOXES
        invariant |made| == i
        invariant forall j :: 0 <= j < i ==>
          && fresh(made[j]) && fresh(made[j].headers) && fresh(made[j].bytes)
          && made[j].Shape() && Cleared(made[j].View())
        invariant forall j, k :: 0 <= j < k < i ==>
          made[j] != made[k] && made[j].headers != made[k].headers && made[j].bytes != made[k].bytes
      {
        var b := new Box();
        made := made + [b];
      }
      boxes := made;
      nextId := 1;
      new;
      InitialIsFifo(View());
    }

    /** The lookup by identifier; null when there is none. */
    method FindById(id: nat) returns (mbox: Box?, ghost k: nat)
      requires Shape()
      ensures k == FindFrom(View().boxes, id, 0) && (k < |boxes| ==> mbox in boxes)
      ensures mbox == if FindFrom(View().boxes, id, 0) < |boxes| then boxes[FindFrom(View().boxes, id, 0)] else null
    {
      for i := 0 to MAX_MAILBOXES
        invariant FindFrom(View().boxes, id, 0) == FindFrom(View().boxes, id, i)
      {
        if boxes[i].active && boxes[i].id == id {
          return boxes[i], i;
        }
      }
      return null, |boxes|;
    }

    method FindFreeSlot() returns (mbox: Box?, ghost k: nat)
      requires Shape()
      ensures k == FreeFrom(View().boxes, 0) && (k < |boxes| ==> mbox in boxes)
      ensures mbox == if FreeFrom(View().boxes, 0) < |boxes| then boxes[FreeFrom(View().boxes, 0)] else null
    {
      for i := 0 to MAX_MAILBOXES
        invariant FreeFrom(View().boxes, 0) == FreeFrom(View().boxes, i)
      {
        if !boxes[i].active {
          return boxes[i], i;
        }
      }
      return null, |boxes|;
    }

    method IsNameTaken(name: string) returns (taken: bool)
      requires Shape()
      ensures taken == NameTaken(View().boxes, name)
    {
      for i := 0 to MAX_MAILBOXES
        invariant forall j :: 0 <= j < i ==> !(boxes[j].active && boxes[j].name == name)
      {
        if boxes[i].active && boxes[i].name == name {
          assert View().boxes[i].name == name;
          return true;
        }
      }
      return false;
    }

    /** Only slot k changed. */
    twostate lemma SlotUpdated(k: nat)
      requires old(Shape()) && Shape() && k < |boxes|
      requires forall i :: 0 <= i < |boxes| && i != k ==> unchanged(boxes[i], boxes[i].headers, boxes[i].bytes)
      ensures View().boxes == old(View().boxes)[k := boxes[k].View()]
    {
      forall i | 0 <= i < |boxes| && i != k ensures boxes[i].View() == old(boxes[i].View()) {
      }
    }

    /** Opens the first free slot, if there is one. */
    method OpenFreeSlot(name: string) returns (code: int)
      requires Valid() && name != "" && !NameTaken(View().boxes, name)
      modifies `nextId, Storage()
      ensures Valid()
      ensures var k := FreeFrom(old(View().boxes), 0);
        if k == |boxes| then code == ERROR_NOSLOT && View() == old(View())
        else
          && code == old(nextId)
          && View() == Table(old(View().boxes)[k := Fresh(old(View().boxes[k]), old(nextId), name)], old(nextId) + 1)
    {
      hide StoredName, FreeFrom, TableOk;
      CreateKeepsTable(View(), Some(name));
      var mbox, k := FindFreeSlot();
      if mbox == null {
        return ERROR_NOSLOT;
      }
      mbox.Open(nextId, name);
      nextId := nextId + 1;
      SlotUpdated(k);
      code := mbox.id;
    }

    method Create(name: Option<string>) returns (code: int)
      requires Valid()
      modifies `nextId, Storage()
      ensures Valid()
      ensures Outcome(code, View(), []) == M.Create(old(View()), name)
    {
      hide TableOk, NameTaken, View, Shape, Fresh, FreeFrom;
      if name.None? || name.value == "" {
        return ERROR_PARAM;
      }
      var taken := IsNameTaken(name.value);
      if taken {
        return ERROR_EXISTS;
      }
      code := OpenFreeSlot(name.value);
    }

    method CloseSlot(mbox: Box, ghost k: nat)
      requires Shape() && k < |boxes| && mbox == boxes[k]
      modifies mbox
      ensures Shape()
      ensures View() ==
        old(View()).(boxes := old(View().boxes)[k := old(mbox.View()).(active := false, id := 0, name := "")])
    {
      mbox.active := false;
      mbox.id := 0;
      mbox.name := "";
      SlotUpdated(k);
    }

    method Destroy(id: nat) returns (code: int, signals: seq<Signal>)
      requires Valid()
      modifies Storage()
      ensures Valid()
      ensures Outcome(code, View(), signals) == M.Destroy(old(View()), id)
    {
      hide TableOk, View, Shape;
      DestroyKeepsTable(View(), id);
      var mbox, k := FindById(id);
      if mbox == null {
        return ERROR_NOTFOUND, [];
      }
      signals := [];
      if mbox.waitingSend.Some? {
        signals := signals + [Unblock(mbox.waitingSend.value)];
      }
      if mbox.waitingRecv.Some? {
        signals := signals + [Unblock(mbox.waitingRecv.value)];
      }
      CloseSlot(mbox, k);
      code := SUCCESS;
    }

    method PutSlot(mbox: Box, ghost k: nat, sender: nat, data: array<Byte>, size: nat) returns (woken: Option<nat>)
      requires Valid() && k < |boxes| && mbox == boxes[k] && mbox.count < CAPACITY
      requires size <= MESSAGE_MAX && size <= data.Length && data !in Storage()
      modifies mbox, mbox.headers, mbox.bytes
      ensures Valid() && woken == old(View().boxes[k].waitingRecv)
      ensures View() ==
        old(View()).(boxes := old(View().boxes)[k := Push(old(View().boxes[k]), sender, old(data[..size]))])
    {
      assert BoxOk(View().boxes[k]);
      hide TableOk, BoxOk;
      PushAppends(View().boxes[k], sender, data[..size]);
      UpdateKeepsTable(View(), k, Push(View().boxes[k], sender, data[..size]));
      woken := mbox.Put(sender, data, size);
      SlotUpdated(k);
    }

    /** mbox_send of the first `size` bytes of data. */
    method Send(id: nat, data: array?<Byte>, size: nat, current: Option<nat>) returns (code: int, signals: seq<Signal>)
      requires Valid() && (data != null ==> size <= data.Length && data !in Storage())
      modifies Storage()
      ensures Valid()
      ensures Outcome(code, View(), signals)
           == M.Send(old(View()), id, if data == null then None else Some(old(data[..size])), current)
    {
      hide TableOk, View, Shape, Push;
      var mbox, k := FindById(id);
      if mbox == null {
        return ERROR_NOTFOUND, [];
      }
      if data == null || size == 0 {
        return ERROR_PARAM, [];
      }
      var cut := size;
      if cut > MESSAGE_MAX {
        cut := MESSAGE_MAX;
      }
      if mbox.count >= CAPACITY {
        return ERROR_FULL, [];
      }
      assert Cut(old(data[..size]), MESSAGE_MAX) == old(data[..cut]);
      var woken := PutSlot(mbox, k, SenderOf(current), data, cut);
      signals := Wake(woken);
      code := SUCCESS;
    }

    method GetSlot(mbox: Box, ghost k: nat, buffer: array<Byte>, max: nat)
      returns (size: nat, sender: nat, woken: Option<nat>)
      requires Valid() && k < |boxes| && mbox == boxes[k] && mbox.count > 0
      requires max <= buffer.Length && buffer !in Storage()
      modifies mbox, buffer
      ensures Valid() && woken == old(View().boxes[k].waitingSend) && size <= max
      ensures View() == old(View()).(boxes := old(View().boxes)[k := Pop(old(View().boxes[k]))])
      ensures var b := old(View().boxes[k]);
        var m := Content(b.slots[b.head]);
        && Message(sender, buffer[..size]) == Message(m.sender, Cut(m.data, max))
        && buffer[size..] == old(buffer[size..])
    {
      assert BoxOk(View().boxes[k]);
      hide TableOk, BoxOk, Cut;
      PopDrops(View().boxes[k]);
      UpdateKeepsTable(View(), k, Pop(View().boxes[k]));
      size, sender, woken := mbox.Get(buffer, max);
      SlotUpdated(k);
    }

    /** mbox_recv into the first `max` bytes of buffer. */
    method Recv(id: nat, buffer: array?<Byte>, max: nat)
      returns (code: int, size: nat, sender: nat, signals: seq<Signal>)
      requires Valid() && (buffer != null ==> max <= buffer.Length && buffer !in Storage())
      modifies Storage(), buffer
      ensures Valid()
      ensures var r := M.Recv(old(View()), id, buffer != null, max);
        && Outcome(code, View(), signals) == r.outcome
        && if r.message.Some? then
             && size <= max && Message(sender, buffer[..size]) == r.message.value
             && buffer[size..] == old(buffer[size..])
           else buffer != null ==> buffer[..] == old(buffer[..])
    {
      hide TableOk, View, Shape, Pop, Cut, Contents;
      size, sender := 0, 0;
      var mbox, k := FindById(id);
      if mbox == null {
        return ERROR_NOTFOUND, 0, 0, [];
      }
      if buffer == null || max == 0 {
        return ERROR_PARAM, 0, 0, [];
      }
      if mbox.count == 0 {
        return ERROR_EMPTY, 0, 0, [];
      }
      var woken;
      size, sender, woken := GetSlot(mbox, k, buffer, max);
      signals := Wake(woken);
      code := SUCCESS;
    }

    /** Registers the current process with the mailbox, if both exist. */
    method WaitToSend(id: nat, current: Option<nat>) returns (waiting: bool)
      requires Valid()
      modifies Storage()
      ensures Valid() && waiting == (FindFrom(old(View().boxes), id, 0) < |boxes| && current.Some?)
      ensures View() ==
        if waiting then WaitingToSend(old(View()), FindFrom(old(View().boxes), id, 0), current.value) else old(View())
    {
      hide TableOk, FindFrom;
      var mbox, k := FindById(id);
      waiting := false;
      if mbox != null && current.Some? {
        WaitingKeepsTable(View(), k, current.value);
        mbox.waitingSend := Some(current.value);
        SlotUpdated(k);
        waiting := true;
      }
    }

    /** mbox_send_blocking. */
    method SendBlocking(id: nat, data: array?<Byte>, size: nat, current: Option<nat>)
      returns (code: int, signals: seq<Signal>)
      requires Valid() && (data != null ==> size <= data.Length && data !in Storage())
      modifies Storage()
      ensures Valid()
      ensures Outcome(code, View(), signals)
           == M.SendBlocking(old(View()), id, if data == null then None else Some(old(data[..size])), current)
    {
      hide TableOk, View, Shape, M.Send, WaitingToSend, Storage, FindFrom;
      ghost var sent := if data == null then None else Some(data[..size]);
      FullFound(View(), id, sent, current);
      code, signals := Send(id, data, size, current);
      if code == ERROR_FULL {
        var waiting := WaitToSend(id, current);
        if waiting {
          code, signals := Send(id, data, size, current);
          signals := [Block(current.value, BLOCK_REASON_MBOX_FULL, id)] + signals;
        }
      }
    }

    /** Registers the current process with the mailbox, if both exist. */
    method WaitToRecv(id: nat, current: Option<nat>) returns (waiting: bool)
      requires Valid()
      modifies Storage()
      ensures Valid() && waiting == (FindFrom(old(View().boxes), id, 0) < |boxes| && current.Some?)
      ensures View() ==
        if waiting then WaitingToRecv(old(View()), FindFrom(old(View().boxes), id, 0), current.value) else old(View())
    {
      hide TableOk, FindFrom;
      var mbox, k := FindById(id);
      waiting := false;
      if mbox != null && current.Some? {
        WaitingKeepsTable(View(), k, current.value);
        mbox.waitingRecv := Some(current.value);
        SlotUpdated(k);
        waiting := true;
      }
    }

    /** mbox_recv_blocking. */
    method RecvBlocking(id: nat, buffer: array?<Byte>, max: nat, current: Option<nat>)
      returns (code: int, size: nat, sender: nat, signals: seq<Signal>)
      requires Valid() && (buffer != null ==> max <= buffer.Length && buffer !in Storage())
      modifies Storage(), buffer
      ensures Valid()
      ensures var r := M.RecvBlocking(old(View()), id, buffer != null, max, current);
        && Outcome(code, View(), signals) == r.outcome
        && if r.message.Some? then
             && size <= max && Message(sender, buffer[..size]) == r.message.value
             && buffer[size..] == old(buffer[size..])
           else buffer != null ==> buffer[..] == old(buffer[..])
    {
      hide TableOk, View, Shape, Pop, WaitingToRecv, Storage, FindFrom;
      ghost var was := if buffer == null then [] else buffer[..];
      code, size, sender, signals := Recv(id, buffer, max);
      if code == ERROR_EMPTY {
        var waiting := WaitToRecv(id, current);
        if waiting {
          assert buffer != null ==> buffer[..] == was;
          code, size, sender, signals := Recv(id, buffer, max);
          assert buffer != null && size <= max ==>
            buffer[size..] == was[size..] && old(buffer[size..]) == was[size..];
          signals := [Block(current.value, BLOCK_REASON_MBOX_EMPTY, id)] + signals;
        }
      }
    }
  }
}
