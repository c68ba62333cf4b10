/** The semaphore table of sync.c as it lies in memory, updated in place. */
module SemaphoreTable {
  import opened M = Semaphores
  import opened Signals
  import opened SyncTables
  import opened Waiters
  import opened Words
  import opened Wrappers

  /** A slot of the table. */
  class Record {
    var id: nat
    var name: string
    var active: bool
    var value: int
    var initialValue: int
    var waitCount: nat
    var postCount: nat
    const waiters: WaiterArray

    ghost predicate Valid()
      reads waiters
    {
      waiters.Valid()
    }

    ghost function Body(): Semaphore
      requires Valid()
      reads this, waiters, waiters.slots
    {
      Semaphore(value, initialValue, waiters.View(), waitCount, postCount)
    }

    ghost function View(): Entry<Semaphore>
      requires Valid()
      reads this, waiters, waiters.slots
    {
      Entry(id, name, active, Body())
    }

    constructor ()
      ensures Valid() && fresh(waiters) && fresh(waiters.slots)
      ensures View() == Entry(0, "", false, Semaphore(0, 0, [], 0, 0))
    {
      id, name, active := 0, "", false;
      value, initialValue, waitCount, postCount := 0, 0, 0, 0;
      waiters := new WaiterArray();
    }

    method Open(newId: nat, newName: string, initial: int)
      requires Valid()
      modifies this, waiters
      ensures Valid() && View() == Entry(newId, StoredName(newName), true, Created(initial))
    {
      id := newId;
      name := StoredName(newName);
      active := true;
      value, initialValue := initial, initial;
      waitCount, postCount := 0, 0;
      waiters.count := 0;
    }

    /** Wakes every waiter, in order, and frees the slot. */
    method Close() returns (signals: seq<Signal>)
      requires Valid()
      modifies this, waiters, waiters.slots
      ensures Valid() && View() == Entry(0, "", false, M.WakeAll(old(Body())).body)
      ensures signals == M.WakeAll(old(Body())).signals
    {
      signals := waiters.WakeAll();
      active := false;
      id := 0;
      name := "";
    }

    method Wait(current: Option<nat>) returns (code: int, signals: seq<Signal>)
      requires Valid()
      modifies this, waiters, waiters.slots
      ensures Valid() && View() == old(View()).(body := Body())
      ensures Outcome(code, Body(), signals) == M.Wait(old(Body()), id, current)
    {
      waitCount := Inc32(waitCount);
      if value > 0 {
        value := value - 1;
        return SUCCESS, [];
      }
      if current.None? {
        return ERROR_WOULDBLOCK, [];
      }
      waiters.Add(current.value);
      signals := [Block(current.value, BLOCK_REASON_SEM, id)];
      value := value - 1;
      code := SUCCESS;
    }

    method TryWait() returns (code: int)
      requires Valid()
      modifies this
      ensures Valid() && View() == old(View()).(body := Body())
      ensures Outcome(code, Body(), []) == M.TryWait(old(Body()))
    {
      if value <= 0 {
        return ERROR_WOULDBLOCK;
      }
      value := value - 1;
      waitCount := Inc32(waitCount);
      code := SUCCESS;
    }

    method Post() returns (code: int, signals: seq<Signal>)
      requires Valid()
      modifies this, waiters, waiters.slots
      ensures Valid() && View() == old(View()).(body := Body())
      ensures Outcome(code, Body(), signals) == M.Post(old(Body()))
    {
      postCount := Inc32(postCount);
      var waiter := waiters.Remove();
      if waiter.Some? {
        value := value + 1;
        signals := [Unblock(waiter.value)];
      } else {
        value := value + 1;
        signals := [];
      }
      code := SUCCESS;
    }
  }

  /** The table and its operations. */
  class SemTable {
    const records: seq<Record>
    var nextId: nat

    ghost function Storage(): set<object> {
      (set r: Record | r in records :: r as object) + (set r: Record | r in records :: r.waiters as object)
      + (set r: Record | r in records :: r.waiters.slots as object)
    }

    ghost predicate Shape()
      reads this, Storage()
    {
      && |records| == MAX_SLOTS
      && (forall i :: 0 <= i < |records| ==> records[i].Valid())
      && (forall i, j :: 0 <= i < j < |records| ==>
           && records[i] != records[j] && records[i].waiters != records[j].waiters
           && records[i].waiters.slots != records[j].waiters.slots)
    }

    ghost function View(): (t: Table<Semaphore>)
      requires Shape()
      reads this, Storage()
      ensures |t.entries| == |records| && t.nextId == nextId
      ensures forall i :: 0 <= i < |records| ==> t.entries[i] == records[i].View()
    {
      Table(seq(|records|, i requires 0 <= i < |records| && Shape() reads this, Storage() =>
        assert records[i] in records;
        records[i].View()), nextId)
    }

    ghost predicate Valid()
      reads this, Storage()
    {
      Shape() && TableOk(View())
    }

    /** The part of sync_init for the semaphore table. */
    constructor ()
      ensures Valid() && fresh(Storage()) && View().nextId == 1
      ensures forall i :: 0 <= i < MAX_SLOTS ==> !View().entries[i].active
    {
      var made: seq<Record> := [];
      for i := 0 to MAX_SLOTS
        invariant |made| == i
        invariant forall j :: 0 <= j < i ==>
          && fresh(made[j]) && fresh(made[j].waiters) && fresh(made[j].waiters.slots)
          && made[j].Valid() && !made[j].active
        invariant forall j, k :: 0 <= j < k < i ==>
          && made[j] != made[k] && made[j].waiters != made[k].waiters
          && made[j].waiters.slots != made[k].waiters.slots
      {
        var r := new Record();
        made := made + [r];
      }
      records := made;
      nextId := 1;
    }

    /** The lookup by identifier; null when there is none. */
    method FindById(id: nat) returns (found: Record?, ghost k: nat)
      requires Shape()
      ensures k == FindFrom(View().entries, id, 0) && (k < |records| ==> found in records)
      ensures found ==
        if FindFrom(View().entries, id, 0) < |records| then records[FindFrom(View().entries, id, 0)] else null
    {
      for i := 0 to MAX_SLOTS
        invariant FindFrom(View().entries, id, 0) == FindFrom(View().entries, id, i)
      {
        if records[i].active && records[i].id == id {
          return records[i], i;
        }
      }
      return null, |records|;
    }

    method FindFree() returns (found: Record?, ghost k: nat)
      requires Shape()
      ensures k == FreeFrom(View().entries, 0) && (k < |records| ==> found in records)
      ensures found == if FreeFrom(View().entries, 0) < |records| then records[FreeFrom(View().entries, 0)] else null
    {
      for i := 0 to MAX_SLOTS
        invariant FreeFrom(View().entries, 0) == FreeFrom(View().entries, i)
      {
        if !records[i].active {
          return records[i], i;
        }
      }
      return null, |records|;
    }

    method IsNameTaken(name: string) returns (taken: bool)
      requires Shape()
      ensures taken == NameTaken(View().entries, name)
    {
      for i := 0 to MAX_SLOTS
        invariant forall j :: 0 <= j < i ==> !(records[j].active && records[j].name == name)
      {
        if records[i].active && records[i].name == name {
          assert View().entries[i].name == name;
          return true;
        }
      }
      return false;
    }

    /** Only slot k changed. */
    twostate lemma SlotUpdated(k: nat)
      requires old(Shape()) && Shape() && k < |records|
      requires forall i :: 0 <= i < |records| && i != k ==>
        unchanged(records[i], records[i].waiters, records[i].waiters.slots)
      ensures View().entries == old(View().entries)[k := records[k].View()]
    {
      forall i | 0 <= i < |records| && i != k ensures records[i].View() == old(records[i].View()) {
      }
    }

    /** Opens the first free slot, if there is one. */
    method OpenFreeSlot(name: string, initial: int) returns (code: int)
      requires Valid() && name != "" && !NameTaken(View().entries, name)
      modifies `nextId, Storage()
      ensures Valid()
      ensures Answer(code, View(), []) == SyncTables.Create(old(View()), Some(name), Created(initial))
    {
      hide StoredName, FreeFrom, TableOk, Record.Body, Record.View;
      ApplyKeepsTable(View(), DoCreate(Some(name), Created(initial)));
      var found, k := FindFree();
      if found == null {
        return ERROR_NOSLOT;
      }
      var newId := nextId;
      found.Open(newId, name, initial);
      nextId := nextId + 1;
      SlotUpdated(k);
      code := newId;
    }

    method Create(name: Option<string>, initial: int) returns (code: int)
      requires Valid()
      modifies `nextId, Storage()
      ensures Valid()
      ensures Answer(code, View(), []) == SyncTables.Create(old(View()), name, Created(initial))
    {
      hide TableOk, NameTaken, View, Shape, FreeFrom, StoredName;
      if name.None? || name.value == "" {
        return ERROR_PARAM;
      }
      var taken := IsNameTaken(name.value);
      if taken {
        return ERROR_EXISTS;
      }
      code := OpenFreeSlot(name.value, initial);
    }

    lemma AlwaysWakes(body: Semaphore)
      ensures M.WakeAll(body).code == SUCCESS
    {
    }

    method Destroy(id: nat) returns (code: int, signals: seq<Signal>)
      requires Valid()
      modifies Storage()
      ensures Valid()
      ensures Answer(code, View(), signals) == SyncTables.Destroy(old(View()), id, (s: Semaphore) => M.WakeAll(s))
    {
      hide FindFrom, TableOk, Record.Body, M.WakeAll;
      var found, k := FindById(id);
      if found == null {
        return ERROR_NOTFOUND, [];
      }
      signals := found.Close();
      CloseKeepsTable(old(View()), k, found.Body());
      SlotUpdated(k);
      AlwaysWakes(old(found.Body()));
      code := SUCCESS;
    }

    /** sem_wait. */
    method Wait(id: nat, current: Option<nat>) returns (code: int, signals: seq<Signal>)
      requires Valid()
      modifies Storage()
      ensures Valid()
      ensures Answer(code, View(), signals) == SyncTables.Act(old(View()), id, (s: Semaphore) => M.Wait(s, id, current))
    {
      hide FindFrom, TableOk, Record.Body, M.Wait;
      var found, k := FindById(id);
      if found == null {
        return ERROR_NOTFOUND, [];
      }
      code, signals := found.Wait(current);
      BodyKeepsTable(old(View()), k, found.Body());
      SlotUpdated(k);
    }

    /** sem_trywait. */
    method TryWait(id: nat) returns (code: int)
      requires Valid()
      modifies Storage()
      ensures Valid()
      ensures Answer(code, View(), []) == SyncTables.Act(old(View()), id, (s: Semaphore) => M.TryWait(s))
    {
      hide FindFrom, TableOk, Record.Body, M.TryWait;
      var found, k := FindById(id);
      if found == null {
        return ERROR_NOTFOUND;
      }
      code := found.TryWait();
      BodyKeepsTable(old(View()), k, found.Body());
      SlotUpdated(k);
    }

    /** sem_post. */
    method Post(id: nat) returns (code: int, signals: seq<Signal>)
      requires Valid()
      modifies Storage()
      ensures Valid()
      ensures Answer(code, View(), signals) == SyncTables.Act(old(View()), id, (s: Semaphore) => M.Post(s))
    {
      hide FindFrom, TableOk, Record.Body, M.Post;
      var found, k := FindById(id);
      if found == null {
        return ERROR_NOTFOUND, [];
      }
      code, signals := found.Post();
      BodyKeepsTable(old(View()), k, found.Body());
      SlotUpdated(k);
    }
  }
}
