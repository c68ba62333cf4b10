/** The mutex table of sync.c as it lies in memory, updated in place. */
module MutexTable {
  import opened M = Mutexes
  import opened Signals
  import opened SyncTables
  import opened Waiters
  import opened Words
  import opened Wrappers

  /** A slot of the table. */
  class Record {
    var id: nat
    var name: string
    var active: bool
    var locked: bool
    var owner: nat
    var lockCount: nat
    var contentionCount: nat
    const waiters: WaiterArray

    ghost predicate Valid()
      reads waiters
    {
      waiters.Valid()
    }

    ghost function Body(): Mutex
      requires Valid()
      reads this, waiters, waiters.slots
    {
      Mutex(locked, owner, waiters.View(), lockCount, contentionCount)
    }

    ghost function View(): Entry<Mutex>
      requires Valid()
      reads this, waiters, waiters.slots
    {
      Entry(id, name, active, Body())
    }

    constructor ()
      ensures Valid() && fresh(waiters) && fresh(waiters.slots)
      ensures View() == Entry(0, "", false, Mutex(false, 0, [], 0, 0))
    {
      id, name, active := 0, "", false;
      locked, owner, lockCount, contentionCount := false, 0, 0, 0;
      waiters := new WaiterArray();
    }

    method Open(newId: nat, newName: string)
      requires Valid()
      modifies this, waiters
      ensures Valid() && View() == Entry(newId, StoredName(newName), true, CREATED)
    {
      id := newId;
      name := StoredName(newName);
      active := true;
      locked, owner := false, 0;
      lockCount, contentionCount := 0, 0;
      waiters.count := 0;
    }

    /** Wakes every waiter, in order, and frees the slot. */
    method Close() returns (signals: seq<Signal>)
      requires Valid()
      modifies this, waiters, waiters.slots
      ensures Valid() && View() == Entry(0, "", false, M.WakeAll(old(Body())).body)
      ensures signals == M.WakeAll(old(Body())).signals
    {
      signals := waiters.WakeAll();
      active := false;
      id := 0;
      name := "";
    }

    method Lock(current: Option<nat>) returns (code: int, signals: seq<Signal>)
      requires Valid()
      modifies this, waiters, waiters.slots
      ensures Valid() && View() == old(View()).(body := Body())
      ensures Outcome(code, Body(), signals) == M.Lock(old(Body()), id, current)
    {
      var currentPid := if current.Some? then current.value else 0;
      if !locked {
        locked := true;
        owner := currentPid;
        lockCount := Inc32(lockCount);
        return SUCCESS, [];
      }
      contentionCount := Inc32(contentionCount);
      if current.None? {
        return ERROR_BUSY, [];
      }
      waiters.Add(current.value);
      signals := [Block(current.value, BLOCK_REASON_MUTEX, id)];
      lockCount := Inc32(lockCount);
      code := SUCCESS;
    }

    method TryLock(current: Option<nat>) returns (code: int)
      requires Valid()
      modifies this
      ensures Valid() && View() == old(View()).(body := Body())
      ensures Outcome(code, Body(), []) == M.TryLock(old(Body()), current)
    {
      if locked {
        return ERROR_BUSY;
      }
      locked := true;
      owner := if current.Some? then current.value else 0;
      lockCount := Inc32(lockCount);
      code := SUCCESS;
    }

    method Unlock() returns (code: int, signals: seq<Signal>)
      requires Valid()
      modifies this, waiters, waiters.slots
      ensures Valid() && View() == old(View()).(body := Body())
      ensures Outcome(code, Body(), signals) == M.Unlock(old(Body()))
    {
      var waiter := waiters.Remove();
      if waiter.Some? {
        owner := waiter.value;
        signals := [Unblock(waiter.value)];
      } else {
        locked := false;
        owner := 0;
        signals := [];
      }
      code := SUCCESS;
    }
  }

  /** The table and its operations. */
  class LockTable {
    const records: seq<Record>
    var nextId: nat

    ghost function Storage(): set<object> {
      (set r: Record | r in records :: r as object) + (set r: Record | r in records :: r.waiters as object)
      + (set r: Record | r in records :: r.waiters.slots as object)
    }

    ghost predicate Shape()
      reads this, Storage()
    {
      && |records| == MAX_SLOTS
      && (forall i :: 0 <= i < |records| ==> records[i].Valid())
      && (forall i, j :: 0 <= i < j < |records| ==>
           && records[i] != records[j] && records[i].waiters != records[j].waiters
           && records[i].waiters.slots != records[j].waiters.slots)
    }

    ghost function View(): (t: Table<Mutex>)
      requires Shape()
      reads this, Storage()
      ensures |t.entries| == |records| && t.nextId == nextId
      ensures forall i :: 0 <= i < |records| ==> t.entries[i] == records[i].View()
    {
      Table(seq(|records|, i requires 0 <= i < |records| && Shape() reads this, Storage() =>
        assert records[i] in records;
        records[i].View()), nextId)
    }

    ghost predicate Valid()
      reads this, Storage()
    {
      Shape() && TableOk(View())
    }

    /** The part of sync_init for the mutex table. */
    constructor ()
      ensures Valid() && fresh(Storage()) && View().nextId == 1
      ensures forall i :: 0 <= i < MAX_SLOTS ==> !View().entries[i].active
    {
      var made: seq<Record> := [];
      for i := 0 to MAX_SLOTS
        invariant |made| == i
        invariant forall j :: 0 <= j < i ==>
          && fresh(made[j]) && fresh(made[j].waiters) && fresh(made[j].waiters.slots)
          && made[j].Valid() && !made[j].active
        invariant forall j, k :: 0 <= j < k < i ==>
          && made[j] != made[k] && made[j].waiters != made[k].waiters
          && made[j].waiters.slots != made[k].waiters.slots
      {
        var r := new Record();
        made := made + [r];
      }
      records := made;
      nextId := 1;
    }

    /** The lookup by identifier; null when there is none. */
    method FindById(id: nat) returns (found: Record?, ghost k: nat)
      requires Shape()
      ensures k == FindFrom(View().entries, id, 0) && (k < |records| ==> found in records)
      ensures found ==
        if FindFrom(View().entries, id, 0) < |records| then records[FindFrom(View().entries, id, 0)] else null
    {
      for i := 0 to MAX_SLOTS
        invariant FindFrom(View().entries, id, 0) == FindFrom(View().entries, id, i)
      {
        if records[i].active && records[i].id == id {
          return records[i], i;
        }
      }
      return null, |records|;
    }

    method FindFree() returns (found: Record?, ghost k: nat)
      requires Shape()
      ensures k == FreeFrom(View().entries, 0) && (k < |records| ==> found in records)
      ensures found == if FreeFrom(View().entries, 0) < |records| then records[FreeFrom(View().entries, 0)] else null
    {
      for i := 0 to MAX_SLOTS
        invariant FreeFrom(View().entries, 0) == FreeFrom(View().entries, i)
      {
        if !records[i].active {
          return records[i], i;
        }
      }
      return null, |records|;
    }

    method IsNameTaken(name: string) returns (taken: bool)
      requires Shape()
      ensures taken == NameTaken(View().entries, name)
    {
      for i := 0 to MAX_SLOTS
        invariant forall j :: 0 <= j < i ==> !(records[j].active && records[j].name == name)
      {
        if records[i].active && records[i].name == name {
          assert View().entries[i].name == name;
          return true;
        }
      }
      return false;
    }

    /** Only slot k changed. */
    twostate lemma SlotUpdated(k: nat)
      requires old(Shape()) && Shape() && k < |records|
      requires forall i :: 0 <= i < |records| && i != k ==>
        unchanged(records[i], records[i].waiters, records[i].waiters.slots)
      ensures View().entries == old(View().entries)[k := records[k].View()]
    {
      forall i | 0 <= i < |records| && i != k ensures records[i].View() == old(records[i].View()) {
      }
    }

    /** Opens the first free slot, if there is one. */
    method OpenFreeSlot(name: string) returns (code: int)
      requires Valid() && name != "" && !NameTaken(View().entries, name)
      modifies `nextId, Storage()
      ensures Valid()
      ensures Answer(code, View(), []) == SyncTables.Create(old(View()), Some(name), CREATED)
    {
      hide StoredName, FreeFrom, TableOk, Record.Body, Record.View;
      ApplyKeepsTable(View(), DoCreate(Some(name), CREATED));
      var found, k := FindFree();
      if found == null {
        return ERROR_NOSLOT;
      }
      var newId := nextId;
      found.Open(newId, name);
      nextId := nextId + 1;
      SlotUpdated(k);
      code := newId;
    }

    method Create(name: Option<string>) returns (code: int)
      requires Valid()
      modifies `nextId, Storage()
      ensures Valid()
      ensures Answer(code, View(), []) == SyncTables.Create(old(View()), name, CREATED)
    {
      hide TableOk, NameTaken, View, Shape, FreeFrom, StoredName;
      if name.None? || name.value == "" {
        return ERROR_PARAM;
      }
      var taken := IsNameTaken(name.value);
      if taken {
        return ERROR_EXISTS;
      }
      code := OpenFreeSlot(name.value);
    }

    lemma AlwaysWakes(body: Mutex)
      ensures M.WakeAll(body).code == SUCCESS
    {
    }

    method Destroy(id: nat) returns (code: int, signals: seq<Signal>)
      requires Valid()
      modifies Storage()
      ensures Valid()
      ensures Answer(code, View(), signals) == SyncTables.Destroy(old(View()), id, (m: Mutex) => M.WakeAll(m))
    {
      hide FindFrom, TableOk, Record.Body, M.WakeAll;
      var found, k := FindById(id);
      if found == null {
        return ERROR_NOTFOUND, [];
      }
      signals := found.Close();
      CloseKeepsTable(old(View()), k, found.Body());
      SlotUpdated(k);
      AlwaysWakes(old(found.Body()));
      code := SUCCESS;
    }

    /** mutex_lock. */
    method Lock(id: nat, current: Option<nat>) returns (code: int, signals: seq<Signal>)
      requires Valid()
      modifies Storage()
      ensures Valid()
      ensures Answer(code, View(), signals) == SyncTables.Act(old(View()), id, (m: Mutex) => M.Lock(m, id, current))
    {
      hide FindFrom, TableOk, Record.Body, M.Lock;
      var found, k := FindById(id);
      if found == null {
        return ERROR_NOTFOUND, [];
      }
      code, signals := found.Lock(current);
      BodyKeepsTable(old(View()), k, found.Body());
      SlotUpdated(k);
    }

    /** mutex_trylock. */
    method TryLock(id: nat, current: Option<nat>) returns (code: int)
      requires Valid()
      modifies Storage()
      ensures Valid()
      ensures Answer(code, View(), []) == SyncTables.Act(old(View()), id, (m: Mutex) => M.TryLock(m, current))
    {
      hide FindFrom, TableOk, Record.Body, M.TryLock;
      var found, k := FindById(id);
      if found == null {
        return ERROR_NOTFOUND;
      }
      code := found.TryLock(current);
      BodyKeepsTable(old(View()), k, found.Body());
      SlotUpdated(k);
    }

    /** mutex_unlock. */
    method Unlock(id: nat) returns (code: int, signals: seq<Signal>)
      requires Valid()
      modifies Storage()
      ensures Valid()
      ensures Answer(code, View(), signals) == SyncTables.Act(old(View()), id, (m: Mutex) => M.Unlock(m))
    {
      hide FindFrom, TableOk, Record.Body, M.Unlock;
      var found, k := FindById(id);
      if found == null {
        return ERROR_NOTFOUND, [];
      }
      code, signals := found.Unlock();
      BodyKeepsTable(old(View()), k, found.Body());
      SlotUpdated(k);
    }
  }
}
