/** The circular keyboard buffer of keyboard.c: an interrupt handler produces, a reader consumes,
    and the handler may run between any two statements of the reader. */
module KeyboardBuffer {

  const SIZE: nat := 256

  datatype Ring = Ring(slots: seq<char>, read: nat, write: nat)

  predicate RingOk(r: Ring) {
    |r.slots| == SIZE && r.read < SIZE && r.write < SIZE
  }

  /** The slot i places after a position. */
  function Slot(position: nat, i: nat): (k: nat)
    requires position < SIZE && i < SIZE
    ensures k == if position + i < SIZE then position + i else position + i - SIZE
  {
    (position + i) % SIZE
  }

  function Held(r: Ring): (n: nat)
    requires RingOk(r)
    ensures n == if r.write >= r.read then r.write - r.read else r.write + SIZE - r.read
  {
    (r.write - r.read) % SIZE
  }

  /** The characters written and not yet read, oldest first. */
  function Pending(r: Ring): (p: seq<char>)
    requires RingOk(r)
    ensures |p| == Held(r) && forall i :: 0 <= i < |p| ==> p[i] == r.slots[Slot(r.read, i)]
  {
    seq(Held(r), i requires 0 <= i < Held(r) => r.slots[Slot(r.read, i)])
  }

  predicate HasRoom(r: Ring)
    requires RingOk(r)
  {
    Slot(r.write, 1) != r.read
  }

  /** buffer_put: a full buffer drops the character. */
  function Put(r: Ring, c: char): Ring
    requires RingOk(r)
  {
    if HasRoom(r) then Ring(r.slots[r.write := c], r.read, Slot(r.write, 1)) else r
  }

  function Advance(r: Ring): Ring
    requires RingOk(r)
  {
    r.(read := Slot(r.read, 1))
  }

  /** There is room exactly for 255 characters. */
  lemma RoomIff(r: Ring)
    requires RingOk(r)
    ensures HasRoom(r) <==> |Pending(r)| < SIZE - 1
  {
  }

  lemma PutAppends(r: Ring, c: char)
    requires RingOk(r)
    ensures RingOk(Put(r, c))
    ensures Pending(Put(r, c)) == if |Pending(r)| < SIZE - 1 then Pending(r) + [c] else Pending(r)
  {
    hide Slot, Held;
    RoomIff(r);
    if HasRoom(r) {
      var r', n := Put(r, c), Held(r);
      assert Slot(r.read, n) == r.write;
      assert Pending(r') == Pending(r) + [c];
    }
  }

  lemma AdvanceDrops(r: Ring)
    requires RingOk(r) && r.read != r.write
    ensures RingOk(Advance(r)) && Pending(r) != [] && Pending(r)[0] == r.slots[r.read]
    ensures Pending(Advance(r)) == Pending(r)[1..]
  {
    hide Slot, Held;
    var r' := Advance(r);
    assert Held(r') == Held(r) - 1;
    forall i | 0 <= i < Held(r') ensures Pending(r')[i] == Pending(r)[1..][i] {
      assert Slot(r'.read, i) == Slot(r.read, i + 1);
    }
  }

  // ---------------------------------------------------------------------------------------------
  // The reader interrupted
  // ---------------------------------------------------------------------------------------------

  /** Where the reader stands in buffer_get: outside it, after its check, or with a character loaded
      and the read position not yet moved. */
  datatype Reader = Outside | Checked | Loaded(c: char)

  /** The buffer and the reader, with the characters the handler accepted and the reader returned. */
  datatype System = System(ring: Ring, reader: Reader, accepted: seq<char>, delivered: seq<char>)

  datatype Event = Key(c: char) | Statement

  function OnKey(s: System, c: char): System
    requires RingOk(s.ring)
  {
    s.(ring := Put(s.ring, c), accepted := if HasRoom(s.ring) then s.accepted + [c] else s.accepted)
  }

  /** The next statement of buffer_get; an empty buffer sends the reader away with 0. */
  function OnStatement(s: System): System
    requires RingOk(s.ring)
  {
    match s.reader
    case Outside => if s.ring.read == s.ring.write then s else s.(reader := Checked)
    case Checked => s.(reader := Loaded(s.ring.slots[s.ring.read]))
    case Loaded(c) => s.(ring := Advance(s.ring), reader := Outside, delivered := s.delivered + [c])
  }

  function Next(s: System, e: Event): System
    requires RingOk(s.ring)
  {
    match e
    case Key(c) => OnKey(s, c)
    case Statement => OnStatement(s)
  }

  /** What the reader returned, followed by what is buffered, is what was accepted, in order. */
  predicate Fifo(s: System) {
    && RingOk(s.ring)
    && s.accepted == s.delivered + Pending(s.ring)
    && (s.reader.Outside? || s.ring.read != s.ring.write)
    && (s.reader.Loaded? ==> s.reader.c == s.ring.slots[s.ring.read])
  }

  /** A key leaves the slot at the read position alone while something is unread there. */
  lemma UnreadKept(r: Ring, c: char)
    requires RingOk(r) && r.read != r.write
    ensures Put(r, c).read == r.read != Put(r, c).write && Put(r, c).slots[r.read] == r.slots[r.read]
  {
  }

  lemma PendingBound(r: Ring)
    requires RingOk(r)
    ensures |Pending(r)| <= SIZE - 1
  {
  }

  lemma KeyKeepsFifo(s: System, c: char)
    requires Fifo(s)
    ensures RingOk(s.ring) && Fifo(OnKey(s, c))
    ensures Pending(s.ring) <= Pending(OnKey(s, c).ring)
    ensures OnKey(s, c).accepted == s.accepted + [c] <==> |Pending(s.ring)| < SIZE - 1
    ensures |Pending(OnKey(s, c).ring)| <= SIZE - 1
  {
    hide Slot, Pending, HasRoom;
    PutAppends(s.ring, c);
    RoomIff(s.ring);
    assert |s.accepted| != |s.accepted + [c]|;
    PendingBound(OnKey(s, c).ring);
    if s.ring.read != s.ring.write {
      UnreadKept(s.ring, c);
    }
  }

  lemma StatementKeepsFifo(s: System)
    requires Fifo(s)
    ensures RingOk(s.ring) && Fifo(OnStatement(s)) && |Pending(OnStatement(s).ring)| <= SIZE - 1
  {
    hide Slot, Pending, Advance;
    if s.reader.Loaded? {
      AdvanceDrops(s.ring);
      assert s.delivered + Pending(s.ring) == s.delivered + [s.reader.c] + Pending(s.ring)[1..];
    }
    PendingBound(OnStatement(s).ring);
  }

  lemma NextKeepsFifo(s: System, e: Event)
    requires Fifo(s)
    ensures Fifo(Next(s, e))
    ensures e.Key? ==> Pending(s.ring) <= Pending(Next(s, e).ring)
    ensures e.Key? ==> (Next(s, e).accepted == s.accepted + [e.c] <==> |Pending(s.ring)| < SIZE - 1)
    ensures |Pending(Next(s, e).ring)| <= SIZE - 1
  {
    hide Fifo, Put, Pending, HasRoom;
    match e
    case Key(c) => KeyKeepsFifo(s, c);
    case Statement => StatementKeepsFifo(s);
  }

  function Run(s: System, es: seq<Event>): System
    requires Fifo(s)
    decreases |es|
  {
    if es == [] then s else
      NextKeepsFifo(s, es[0]);
      Run(Next(s, es[0]), es[1..])
  }

  /** The characters whose key events found room. */
  function Accepted(s: System, es: seq<Event>): seq<char>
    requires Fifo(s)
    decreases |es|
  {
    if es == [] then [] else
      NextKeepsFifo(s, es[0]);
      (if es[0].Key? && |Pending(s.ring)| < SIZE - 1 then [es[0].c] else [])
      + Accepted(Next(s, es[0]), es[1..])
  }

  lemma FifoBounds(s: System)
    requires Fifo(s)
    ensures RingOk(s.ring) && s.accepted == s.delivered + Pending(s.ring) && |Pending(s.ring)| <= SIZE - 1
  {
    hide Slot, Held;
  }

  lemma NextAccepts(s: System, e: Event)
    requires Fifo(s)
    ensures Next(s, e).accepted
      == s.accepted + if e.Key? && |Pending(s.ring)| < SIZE - 1 then [e.c] else []
  {
    RoomIff(s.ring);
  }

  /** However keys and statements interleave, nothing is lost, duplicated, reordered or overwritten:
      the run delivers the accepted characters in order, at most 255 of them being still buffered. */
  lemma {:induction false} InterruptedRunIsFifo(s: System, es: seq<Event>)
    requires Fifo(s)
    ensures var s' := Run(s, es);
      && Fifo(s') && |Pending(s'.ring)| <= SIZE - 1
      && s'.delivered + Pending(s'.ring) == s.delivered + Pending(s.ring) + Accepted(s, es)
    decreases |es|
  {
    hide Next, Fifo, Pending;
    FifoBounds(s);
    if es != [] {
      var e, s1 := es[0], Next(s, es[0]);
      NextKeepsFifo(s, e);
      InterruptedRunIsFifo(s1, es[1..]);
      FifoBounds(s1);
      NextAccepts(s, e);
      var one := if e.Key? && |Pending(s.ring)| < SIZE - 1 then [e.c] else [];
      var later := Accepted(s1, es[1..]);
      assert s1.accepted + later == s.accepted + (one + later);
    }
  }

  /** keyboard_init: both positions 0, whatever the slots hold, and nobody reading. */
  lemma InitIsFifo(slots: seq<char>)
    requires |slots| == SIZE
    ensures Fifo(System(Ring(slots, 0, 0), Outside, [], []))
  {
    assert Pending(Ring(slots, 0, 0)) == [];
  }

  /** From keyboard_init, what was delivered followed by what is buffered is what found room. */
  lemma ReachableFifo(slots: seq<char>, es: seq<Event>)
    requires |slots| == SIZE
    ensures Fifo(System(Ring(slots, 0, 0), Outside, [], []))
    ensures var s := System(Ring(slots, 0, 0), Outside, [], []);
      && RingOk(Run(s, es).ring)
      && Run(s, es).delivered + Pending(Run(s, es).ring) == Accepted(s, es)
      && |Pending(Run(s, es).ring)| <= SIZE - 1
  {
    hide Fifo;
    var s := System(Ring(slots, 0, 0), Outside, [], []);
    InitIsFifo(slots);
    assert Pending(s.ring) == [];
    InterruptedRunIsFifo(s, es);
    FifoBounds(Run(s, es));
  }

  // ---------------------------------------------------------------------------------------------
  // The buffer in memory
  // ---------------------------------------------------------------------------------------------

  class Keyboard {
    const buffer: array<char>
    var readPos: nat
    var writePos: nat

    ghost function View(): Ring
      reads this, buffer
    {
      Ring(buffer[..], readPos, writePos)
    }

    ghost predicate Valid()
      reads this, buffer
    {
      RingOk(View())
    }

    constructor ()
      ensures Valid() && Pending(View()) == [] && fresh(buffer)
    {
      buffer := new char[SIZE](_ => '\0');
      readPos, writePos := 0, 0;
    }

    /** buffer_put, run by the interrupt handler. */
    method BufferPut(c: char)
      requires Valid()
      modifies this, buffer
      ensures Valid() && View() == Put(old(View()), c)
      ensures Pending(View()) ==
        if |old(Pending(View()))| < SIZE - 1 then old(Pending(View())) + [c] else old(Pending(View()))
    {
      PutAppends(View(), c);
      var nextPos := (writePos + 1) % SIZE;
      if nextPos != readPos {
        buffer[writePos] := c;
        writePos := nextPos;
      }
    }

    method BufferHasData() returns (has: bool)
      requires Valid()
      ensures has <==> Pending(View()) != []
    {
      has := readPos != writePos;
    }

    /** buffer_get when no key comes in between: the oldest character, or 0. */
    method BufferGet() returns (c: char)
      requires Valid()
      modifies `readPos
      ensures Valid()
      ensures old(Pending(View())) == [] ==> c == '\0' && View() == old(View())
      ensures old(Pending(View())) != [] ==>
        c == old(Pending(View()))[0] && Pending(View()) == old(Pending(View()))[1..]
    {
      var has := BufferHasData();
      if !has {
        return '\0';
      }
      AdvanceDrops(View());
      c := buffer[readPos];
      readPos := (readPos + 1) % SIZE;
    }
  }
}
