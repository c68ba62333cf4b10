/** The execution journal: logged intervals tile time, and the 100 slots keep the latest ones. */
module Journal {
  import opened Words
  import opened Wrappers
  import opened Processes
  import opened SchedulerModel
  import opened SchedulerRuns

  const LOG_SIZE: nat := 100

  /** Each interval starts where the one before ended. */
  predicate Chained(log: seq<LogEntry>) {
    && (forall i :: 0 <= i < |log| ==> log[i].duration == (log[i].end - log[i].start) % WORD)
    && (forall j :: 0 < j < |log| ==> log[j].start == log[j - 1].end)
  }

  /** The journal has no gaps up to the start of the current process, and one entry per switch. */
  predicate Tiled(s: Sys) {
    && Chained(s.log)
    && |s.log| == s.switches
    && (s.log != [] ==> s.cur.Some? && s.cur.value.startTick == s.log[|s.log| - 1].end)
  }

  lemma SelectFrame(s: Sys)
    ensures var r := Select(s).rest; r.log == s.log && r.switches == s.switches && r.cur == s.cur
  {
  }

  lemma SwitchLogs(s: Sys, c: Pcb)
    ensures var s' := Switch(s, c);
      && s'.log == s.log + [Entry(c, c.startTick, s.now)] && s'.switches == s.switches + 1
      && s'.cur.Some? && s'.cur.value.startTick == s.now
  {
    SelectFrame(Enqueue(Vacated(s, c), Requeued(s.policy, c)));
  }

  lemma StepTiles(s: Sys)
    requires Tiled(s)
    ensures Tiled(Step(s)) && s.log <= Step(s).log
  {
    hide Switch, Select;
    if s.cur.Some? {
      SwitchLogs(s, Demoted(s.policy, Charged(s.policy, s.cur.value)));
    } else {
      SelectFrame(s);
    }
  }

  lemma TimerTiles(s: Sys)
    requires Tiled(s)
    ensures Tiled(TimerTick(s)) && s.log <= TimerTick(s).log
  {
    hide Step;
    StepTiles(BoostIfDue(s.(now := s.now + 1)));
  }

  lemma AddTiles(w: World, pid: nat)
    requires Tiled(w.sys)
    ensures Tiled(AddPid(w, pid).sys) && AddPid(w, pid).sys.log == w.sys.log
  {
    hide Chained;
  }

  lemma UnblockTiles(w: World, pid: nat)
    requires Tiled(w.sys)
    ensures Tiled(UnblockPid(w, pid).sys) && UnblockPid(w, pid).sys.log == w.sys.log
  {
    hide Chained, AddPid;
    AddTiles(w.(away := if pid in w.away then w.away[pid := w.away[pid].(blockReason := 0)] else w.away), pid);
    if w.sys.cur.Some? {
      AddTiles(w.(sys := w.sys.(cur := Some(w.sys.cur.value.(blockReason := 0)))), pid);
    }
  }

  lemma OthersTile(w: World, e: Event)
    requires Tiled(w.sys) && !e.Timer? && !e.Add? && !e.Unblock?
    ensures Tiled(Next(w, e).sys) && Next(w, e).sys.log == w.sys.log
  {
    hide Chained;
  }

  lemma NextTiles(w: World, e: Event)
    requires Tiled(w.sys)
    ensures Tiled(Next(w, e).sys) && w.sys.log <= Next(w, e).sys.log
  {
    hide TimerTick, Tiled, AddPid, UnblockPid, Chained;
    match e
    case Timer => TimerTiles(w.sys);
    case Add(pid) => AddTiles(w, pid);
    case Unblock(pid) => UnblockTiles(w, pid);
    case _ => OthersTile(w, e);
  }

  /** Over any run of events of the value layer, the journal only grows, and its intervals follow each other
      without gap or overlap. */
  lemma {:induction false} RunTiles(w: World, es: seq<Event>)
    requires Tiled(w.sys)
    ensures Tiled(Run(w, es).sys) && w.sys.log <= Run(w, es).sys.log
    decreases |es|
  {
    if es != [] {
      NextTiles(w, es[0]);
      RunTiles(Next(w, es[0]), es[1..]);
    }
  }

  function TotalDuration(log: seq<LogEntry>): nat {
    if log == [] then 0 else TotalDuration(log[..|log| - 1]) + log[|log| - 1].duration
  }

  lemma ModStep(t: int, a: int, b: int)
    requires t % WORD == a % WORD
    ensures (t + b % WORD) % WORD == (a + b) % WORD
  {
    assert WORD == 0x1_0000_0000;
  }

  /** The durations of a tiled journal add up, modulo 2^32, to the time from its first start to its
      last end. */
  lemma {:induction false} DurationsTelescope(log: seq<LogEntry>)
    requires Chained(log) && log != []
    ensures TotalDuration(log) % WORD == (log[|log| - 1].end - log[0].start) % WORD
    decreases |log|
  {
    var n := |log| - 1;
    if n > 0 {
      DurationsTelescope(log[..n]);
      ModStep(TotalDuration(log[..n]), log[n - 1].end - log[0].start, log[n].end - log[n].start);
    } else {
      ModStep(TotalDuration(log[..n]), 0, log[n].end - log[n].start);
    }
  }

  // ---------------------------------------------------------------------------------------------
  // The slots
  // ---------------------------------------------------------------------------------------------

  /** exec_log_index after n entries. */
  function Index(n: nat): nat {
    if n == 0 then 0 else (n - 1) % LOG_SIZE + 1
  }

  /** Slot j mod 100 holds entry j, for the last 100 entries. */
  predicate Stores(slots: seq<LogEntry>, index: nat, log: seq<LogEntry>) {
    && |slots| == LOG_SIZE
    && index == Index(|log|)
    && forall j :: 0 <= j < |log| && |log| - LOG_SIZE <= j ==> slots[j % LOG_SIZE] == log[j]
  }

  /** Writing at the index, after wrapping it at 100, stores one more entry. */
  lemma WriteStores(slots: seq<LogEntry>, index: nat, log: seq<LogEntry>, e: LogEntry)
    requires Stores(slots, index, log)
    ensures var at := if index >= LOG_SIZE then 0 else index;
      at == |log| % LOG_SIZE && Stores(slots[at := e], at + 1, log + [e])
  {
    var n := |log|;
    var at := if index >= LOG_SIZE then 0 else index;
    assert at == n % LOG_SIZE;
    forall j | 0 <= j < n + 1 && n + 1 - LOG_SIZE <= j
      ensures slots[at := e][j % LOG_SIZE] == (log + [e])[j]
    {
      if j < n {
        assert j % LOG_SIZE != n % LOG_SIZE;
      }
    }
  }

  /** The slot before the index holds the latest entry. */
  lemma LatestSlot(slots: seq<LogEntry>, index: nat, log: seq<LogEntry>)
    requires Stores(slots, index, log) && log != []
    ensures 0 < index <= LOG_SIZE && slots[index - 1] == log[|log| - 1]
  {
  }

  /** In every state reachable from scheduler_init, whatever the events. */
  lemma ReachableTiled(policy: Policy, now: nat, es: seq<Event>)
    ensures Tiled(Run(Start(policy, now), es).sys)
  {
    RunTiles(Start(policy, now), es);
  }
}
