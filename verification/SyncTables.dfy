/** The tables of sync.c: sixteen slots of mutexes, sixteen of semaphores, found by identifier. What is
    said here holds of both. */
module SyncTables {
  import opened Signals
  import opened Waiters
  import opened Wrappers

  const MAX_SLOTS: nat := 16
  const NAME_LEN: nat := 16

  /** A slot of a table; the fields after the three common ones are its body. */
  datatype Entry<T> = Entry(id: nat, name: string, active: bool, body: T)

  datatype Table<T> = Table(entries: seq<Entry<T>>, nextId: nat)

  datatype Answer<T> = Answer(code: int, table: Table<T>, signals: seq<Signal>)

  predicate IsEntry<T>(e: Entry<T>, id: nat) {
    e.active && e.id == id
  }

  /** The first position from i on with this identifier, or the size of the table. */
  function FindFrom<T>(entries: seq<Entry<T>>, id: nat, i: nat): (k: nat)
    requires i <= |entries|
    ensures i <= k <= |entries|
    ensures forall j :: i <= j < k ==> !IsEntry(entries[j], id)
    ensures k < |entries| ==> IsEntry(entries[k], id)
    decreases |entries| - i
  {
    if i == |entries| || IsEntry(entries[i], id) then i else FindFrom(entries, id, i + 1)
  }

  function FreeFrom<T>(entries: seq<Entry<T>>, i: nat): (k: nat)
    requires i <= |entries|
    ensures i <= k <= |entries|
    ensures forall j :: i <= j < k ==> entries[j].active
    ensures k < |entries| ==> !entries[k].active
    decreases |entries| - i
  {
    if i == |entries| || !entries[i].active then i else FreeFrom(entries, i + 1)
  }

  predicate NameTaken<T>(entries: seq<Entry<T>>, name: string) {
    exists i :: 0 <= i < |entries| && entries[i].active && entries[i].name == name
  }

  function StoredName(name: string): string {
    if |name| < NAME_LEN then name else name[..NAME_LEN - 1]
  }

  /** mutex_create and sem_create: `body` is what they write into the slot. None stands for a NULL name. */
  function Create<T>(t: Table<T>, name: Option<string>, body: T): Answer<T> {
    if name.None? || name.value == "" then Answer(ERROR_PARAM, t, [])
    else if NameTaken(t.entries, name.value) then Answer(ERROR_EXISTS, t, [])
    else
      var k := FreeFrom(t.entries, 0);
      if k == |t.entries| then Answer(ERROR_NOSLOT, t, [])
      else
        var e := Entry(t.nextId, StoredName(name.value), true, body);
        Answer(t.nextId, Table(t.entries[k := e], t.nextId + 1), [])
  }

  /** An operation on the mutex or semaphore with this identifier. */
  function Act<T>(t: Table<T>, id: nat, act: T -> Outcome<T>): Answer<T> {
    var k := FindFrom(t.entries, id, 0);
    if k == |t.entries| then Answer(ERROR_NOTFOUND, t, [])
    else
      var o := act(t.entries[k].body);
      Answer(o.code, t.(entries := t.entries[k := t.entries[k].(body := o.body)]), o.signals)
  }

  /** mutex_destroy and sem_destroy: `act` wakes the waiters. */
  function Destroy<T>(t: Table<T>, id: nat, act: T -> Outcome<T>): Answer<T> {
    var k := FindFrom(t.entries, id, 0);
    if k == |t.entries| then Answer(ERROR_NOTFOUND, t, [])
    else
      var o := act(t.entries[k].body);
      Answer(o.code, t.(entries := t.entries[k := Entry(0, "", false, o.body)]), o.signals)
  }

  // ---------------------------------------------------------------------------------------------
  // Runs
  // ---------------------------------------------------------------------------------------------

  /** Identifiers are given out once: no two active slots share one. */
  ghost predicate TableOk<T(!new)>(t: Table<T>) {
    && |t.entries| == MAX_SLOTS && t.nextId > 0
    && (forall i :: 0 <= i < MAX_SLOTS && t.entries[i].active ==> 0 < t.entries[i].id < t.nextId)
    && (forall i, j :: 0 <= i < j < MAX_SLOTS && t.entries[i].active && t.entries[j].active ==>
         t.entries[i].id != t.entries[j].id)
  }

  datatype Call<!T> =
    | DoCreate(name: Option<string>, body: T)
    | DoAct(id: nat, act: T -> Outcome<T>)
    | DoDestroy(id: nat, act: T -> Outcome<T>)

  function Apply<T>(t: Table<T>, c: Call<T>): Answer<T> {
    match c
    case DoCreate(name, body) => Create(t, name, body)
    case DoAct(id, act) => Act(t, id, act)
    case DoDestroy(id, act) => Destroy(t, id, act)
  }

  lemma ApplyKeepsTable<T(!new)>(t: Table<T>, c: Call<T>)
    requires TableOk(t)
    ensures TableOk(Apply(t, c).table)
  {
    hide NameTaken, StoredName;
  }

  lemma BodyKeepsTable<T(!new)>(t: Table<T>, k: nat, body: T)
    requires TableOk(t) && k < MAX_SLOTS
    ensures TableOk(t.(entries := t.entries[k := t.entries[k].(body := body)]))
  {
  }

  lemma CloseKeepsTable<T(!new)>(t: Table<T>, k: nat, body: T)
    requires TableOk(t) && k < MAX_SLOTS
    ensures TableOk(t.(entries := t.entries[k := Entry(0, "", false, body)]))
  {
  }

  lemma FindIs<T(!new)>(t: Table<T>, k: nat)
    requires TableOk(t) && k < MAX_SLOTS && t.entries[k].active
    ensures FindFrom(t.entries, t.entries[k].id, 0) == k
  {
  }

  /** A call on one identifier leaves every other slot as it was, and a creation every active one. */
  lemma OthersUntouched<T(!new)>(t: Table<T>, c: Call<T>, k: nat)
    requires TableOk(t) && k < MAX_SLOTS && t.entries[k].active && (c.DoCreate? || c.id != t.entries[k].id)
    ensures |Apply(t, c).table.entries| == MAX_SLOTS && Apply(t, c).table.entries[k] == t.entries[k]
  {
    hide NameTaken, StoredName;
  }

  /** A new entry has a fresh identifier, is found by it, holds the given body, and takes a free slot; a
      failed creation changes nothing. */
  lemma CreateOpens<T(!new)>(t: Table<T>, name: Option<string>, body: T)
    requires TableOk(t)
    ensures var a := Create(t, name, body);
      if a.code > 0 then
        && name.Some? && name.value != "" && a.code == t.nextId && a.table.nextId == t.nextId + 1
        && var k := FindFrom(a.table.entries, a.code, 0);
        && k < MAX_SLOTS && !t.entries[k].active && a.table.entries[k].body == body
        && a.table.entries == t.entries[k := a.table.entries[k]]
      else a.table == t
  {
    hide NameTaken, StoredName;
    var a := Create(t, name, body);
    if a.code > 0 {
      assert IsEntry(a.table.entries[FreeFrom(t.entries, 0)], t.nextId);
    }
  }

  function Run<T>(t: Table<T>, calls: seq<Call<T>>): Table<T>
    decreases |calls|
  {
    if calls == [] then t else Run(Apply(t, calls[0]).table, calls[1..])
  }

  /** Over any run no two active slots share an identifier. */
  lemma {:induction false} RunKeepsTable<T(!new)>(t: Table<T>, calls: seq<Call<T>>)
    requires TableOk(t)
    ensures TableOk(Run(t, calls))
    decreases |calls|
  {
    hide TableOk, Apply;
    if calls != [] {
      ApplyKeepsTable(t, calls[0]);
      RunKeepsTable(Apply(t, calls[0]).table, calls[1..]);
    }
  }

  /** The operations of the run that name this identifier, one after the other on one body. */
  function Projected<T>(body: T, calls: seq<Call<T>>, id: nat): T
    decreases |calls|
  {
    if calls == [] then body
    else if calls[0].DoAct? && calls[0].id == id then Projected(calls[0].act(body).body, calls[1..], id)
    else Projected(body, calls[1..], id)
  }

  /** Whatever else happens to the table, as long as it is not destroyed a mutex or semaphore is what the
      operations with its own identifier, and no others, make of it. */
  lemma {:induction false} RunProjects<T(!new)>(t: Table<T>, calls: seq<Call<T>>, k: nat)
    requires TableOk(t) && k < MAX_SLOTS && t.entries[k].active
    requires forall c :: c in calls ==> !(c.DoDestroy? && c.id == t.entries[k].id)
    ensures |Run(t, calls).entries| == MAX_SLOTS
    ensures var e, e' := t.entries[k], Run(t, calls).entries[k];
      e' == e.(body := Projected(e.body, calls, e.id))
    decreases |calls|
  {
    if calls != [] {
      var c, t' := calls[0], Apply(t, calls[0]).table;
      assert c in calls;
      ApplyKeepsTable(t, c);
      if !c.DoCreate? && c.id == t.entries[k].id {
        FindIs(t, k);
      } else {
        OthersUntouched(t, c, k);
      }
      RunProjects(t', calls[1..], k);
    }
  }

  // ---------------------------------------------------------------------------------------------
  // Names
  // ---------------------------------------------------------------------------------------------

  /** Active slots have different names, of fifteen characters at most. */
  ghost predicate NamesOk<T(!new)>(t: Table<T>) {
    && (forall i :: 0 <= i < |t.entries| && t.entries[i].active ==> |t.entries[i].name| <= 15)
    && (forall i, j :: 0 <= i < j < |t.entries| && t.entries[i].active && t.entries[j].active ==>
         t.entries[i].name != t.entries[j].name)
  }

  predicate ShortName<T>(c: Call<T>) {
    c.DoCreate? && c.name.Some? ==> |c.name.value| <= 15
  }

  lemma ApplyKeepsNames<T(!new)>(t: Table<T>, c: Call<T>)
    requires NamesOk(t) && ShortName(c)
    ensures NamesOk(Apply(t, c).table)
  {
  }

  /** Over any run that creates under names of fifteen characters at most, no two active slots share a
      name. */
  lemma {:induction false} RunKeepsNames<T(!new)>(t: Table<T>, calls: seq<Call<T>>)
    requires NamesOk(t) && forall c :: c in calls ==> ShortName(c)
    ensures NamesOk(Run(t, calls))
    decreases |calls|
  {
    hide NamesOk, Apply;
    if calls != [] {
      assert calls[0] in calls;
      ApplyKeepsNames(t, calls[0]);
      RunKeepsNames(Apply(t, calls[0]).table, calls[1..]);
    }
  }

  /** A second creation under the same name is refused as such if and only if the name has fifteen
      characters at most: a longer one is cut when it is stored, but compared as it is. */
  lemma SecondCreateRefusedIff<T(!new)>(t: Table<T>, name: string, body: T)
    requires forall i :: 0 <= i < |t.entries| && t.entries[i].active ==> |t.entries[i].name| <= 15
    requires Create(t, Some(name), body).code == t.nextId && t.nextId > 0
    ensures Create(Create(t, Some(name), body).table, Some(name), body).code == ERROR_EXISTS <==> |name| <= 15
  {
    var k := FreeFrom(t.entries, 0);
    var t' := Create(t, Some(name), body).table;
    assert t'.entries[k].active && t'.entries[k].name == StoredName(name);
  }

  // ---------------------------------------------------------------------------------------------
  // Result codes
  // ---------------------------------------------------------------------------------------------

  /** What each code of a creation says. */
  lemma CodesOfCreate<T(!new)>(t: Table<T>, name: Option<string>, body: T)
    requires TableOk(t)
    ensures var o := Create(t, name, body);
      var named := name.Some? && name.value != "";
      var taken := named && exists i :: 0 <= i < |t.entries| && t.entries[i].active && t.entries[i].name == name.value;
      var room := exists i :: 0 <= i < |t.entries| && !t.entries[i].active;
      && (o.code == -5 <==> !named) && (o.code == -6 <==> taken)
      && (o.code == -4 <==> named && !taken && !room) && (o.code > 0 <==> named && !taken && room)
  {
    hide StoredName;
  }

  /** The call is done on this active slot, which has the identifier it names. */
  predicate DoneOn<T>(t: Table<T>, c: Call<T>, i: nat) {
    && !c.DoCreate? && i < |t.entries| && t.entries[i].active && t.entries[i].id == c.id
    && Apply(t, c).code == c.act(t.entries[i].body).code
    && Apply(t, c).signals == c.act(t.entries[i].body).signals
  }

  /** An operation on an identifier that no active slot has answers so and changes nothing; any other is done
      on that slot. */
  lemma NotFoundIff<T(!new)>(t: Table<T>, c: Call<T>)
    requires TableOk(t) && !c.DoCreate?
    ensures if exists i :: 0 <= i < |t.entries| && t.entries[i].active && t.entries[i].id == c.id
            then exists i :: DoneOn(t, c, i) else Apply(t, c) == Answer(-2, t, [])
  {
    var k := FindFrom(t.entries, c.id, 0);
    if k < |t.entries| {
      assert DoneOn(t, c, k);
    } else {
      assert forall i :: 0 <= i < |t.entries| ==> !IsEntry(t.entries[i], c.id);
    }
  }
}
