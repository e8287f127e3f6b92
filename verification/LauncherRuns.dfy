/** Whole runs of the launcher, from its start to the end of its main loop. */
module LauncherRuns {
  import opened Bytes
  import opened Messages
  import opened LauncherState
  import opened LauncherLifecycle

  /** At most one worker of a database has been started and not terminated. */
  lemma OneLiveWorkerPerDatabase(s: Launcher, e: WorkerEntry, f: WorkerEntry)
    requires Consistent(s)
    requires e in s.started && f in s.started && e.oid == f.oid && s.stopped[e] == 0 && s.stopped[f] == 0
    ensures e == f
  {
    assert ConservedAt(s, e) && ConservedAt(s, f);
  }

  /** No database is started twice at launch; a failed start does not count. */
  predicate NoRepeat(startups: seq<Startup>, taken: set<Oid>)
    decreases |startups|
  {
    startups != [] ==>
      var first := startups[0];
      if first.dbName.None? then NoRepeat(startups[1..], taken)
      else first.oid !in taken && NoRepeat(startups[1..], taken + {first.oid})
  }

  /** A worker nobody holds any more, and nobody terminated. */
  ghost predicate Lost(s: Launcher, e: WorkerEntry) {
    e in s.started && e.id < s.counter && !Holds(s.pending, e) && !Holds(s.workers, e) && s.stopped[e] == 0
  }

  lemma {:induction false} LostStaysLost(s: Launcher, startups: seq<Startup>, e: WorkerEntry)
    requires Lost(s, e)
    ensures !Consistent(StartAll(s, startups))
    decreases |startups|
  {
    if startups == [] {
      assert !ConservedAt(s, e);
    } else {
      LostStaysLost(Start(s, startups[0].oid, startups[0].dbName), startups[1..], e);
    }
  }

  lemma {:induction false} StartAllConsistentIff(s: Launcher, startups: seq<Startup>)
    requires Consistent(s) && s.workers == map[]
    ensures Consistent(StartAll(s, startups)) <==> NoRepeat(startups, s.pending.Keys)
    decreases |startups|
  {
    hide Consistent;
    if startups != [] {
      var Startup(oid, dbName) := startups[0];
      if dbName.None? {
        StartAllConsistentIff(s, startups[1..]);
      } else if oid !in s.pending {
        StartKeeps(s, oid, dbName);
        var s' := Start(s, oid, dbName);
        assert s'.pending.Keys == s.pending.Keys + {oid};
        StartAllConsistentIff(s', startups[1..]);
      } else {
        SecondStartLoses(s, oid, dbName.value);
        LostStaysLost(Start(s, oid, dbName), startups[1..], s.pending[oid]);
      }
    }
  }

  lemma SecondStartLoses(s: Launcher, oid: Oid, name: string)
    requires Consistent(s) && oid in s.pending
    ensures Lost(Start(s, oid, Some(name)), s.pending[oid])
  {
    var e := s.pending[oid];
    assert Holds(s.pending, e);
    RunningWasStarted(s, e);
    assert ConservedAt(s, e);
  }

  /**
    The launch keeps account of its workers exactly when no database is started twice: the insert
    into `pending` would drop the first one unterminated.
   */
  lemma LaunchConsistentIff(startups: seq<Startup>)
    ensures Consistent(StartAll(INITIAL, startups)) <==> NoRepeat(startups, {})
  {
    InitialConsistent();
    StartAllConsistentIff(INITIAL, startups);
    assert INITIAL.pending.Keys == {};
  }

  /** The state after any number of turns of the main loop. */
  lemma AlwaysConsistent(startups: seq<Startup>, turns: seq<seq<Item>>)
    requires NoRepeat(startups, {})
    ensures Consistent(Turns(StartAll(INITIAL, startups), turns))
  {
    LaunchConsistentIff(startups);
    TurnsKeep(StartAll(INITIAL, startups), turns);
  }

  /**
    At every point of every run of the launcher, in the middle of any turn, no database has two
    workers that were started and not terminated.
   */
  lemma OneLiveWorkerAlways(startups: seq<Startup>, turns: seq<seq<Item>>, items: seq<Item>,
                            e: WorkerEntry, f: WorkerEntry)
    requires NoRepeat(startups, {}) && e.oid == f.oid
    ensures var s := HandleItems(WaitAll(Turns(StartAll(INITIAL, startups), turns)), items);
            e in s.started && f in s.started && s.stopped[e] == 0 && s.stopped[f] == 0 ==> e == f
  {
    hide Consistent, Turns, StartAll, HandleItems, WaitAll;
    var s := Turns(StartAll(INITIAL, startups), turns);
    AlwaysConsistent(startups, turns);
    WaitAllKeeps(s);
    HandleItemsKeeps(WaitAll(s), items);
    var now := HandleItems(WaitAll(s), items);
    if e in now.started && f in now.started && now.stopped[e] == 0 && now.stopped[f] == 0 {
      OneLiveWorkerPerDatabase(now, e, f);
    }
  }

  lemma ShutdownAllKeepsAt(s: Launcher, e: WorkerEntry)
    requires Consistent(s)
    ensures ConservedAt(ShutdownAll(s), e)
    ensures AccountedAt(ShutdownAll(s), e)
  {
    ShutdownAllStopped(s, e);
    assert ConservedAt(s, e) && AccountedAt(s, e);
    ShutdownAllReplaced(s, e);
    if e.oid in Running(s) {
      RunningWasStarted(s, Running(s)[e.oid]);
    }
  }

  lemma ShutdownAllStopped(s: Launcher, e: WorkerEntry)
    requires MapsSound(s)
    ensures ShutdownAll(s).stopped[e] == s.stopped[e] + Count(Holds(s.workers, e)) + Count(Holds(s.pending, e))
  {
  }

  lemma ShutdownAllReplaced(s: Launcher, e: WorkerEntry)
    requires MapsSound(s)
    ensures ShutdownAll(s).terminated == s.terminated + Running(s)
    ensures ShutdownAll(s).replaced[e] == s.replaced[e] + Count(Holds(s.terminated, e) && e.oid in Running(s))
  {
    var both := s.terminated + s.workers;
    assert e in Overwritten(s.terminated, s.workers) <==> Holds(s.terminated, e) && e.oid in s.workers;
    assert e in Overwritten(both, s.pending) <==> Holds(s.terminated, e) && e.oid in s.pending;
    assert both + s.pending == s.terminated + Running(s);
  }

  lemma ShutdownAllStops(s: Launcher, f: WorkerEntry)
    requires Consistent(s) && (s.stopped[f] == 1 || Holds(Running(s), f))
    ensures ShutdownAll(s).stopped[f] == 1 && f in s.started
  {
    hide IdsUnique, LaterThanTerminated, Accounted, ReplacedAt;
    assert ConservedAt(s, f);
    ShutdownAllKeepsAt(s, f);
  }

  lemma ShutdownAllReplacesAt(s: Launcher, e: WorkerEntry)
    requires Consistent(s)
    ensures ReplacedAt(ShutdownAll(s), e)
  {
    var s' := ShutdownAll(s);
    assert ReplacedAt(s, e);
    if s.replaced[e] > 0 {
      var f :| Succeeds(s, f, e);
      ShutdownAllStops(s, f);
      assert Succeeds(s', f, e);
    } else if s'.replaced[e] > 0 {
      ShutdownAllReplaced(s, e);
      var f := Running(s)[e.oid];
      ShutdownAllStops(s, f);
      assert Succeeds(s', f, e);
    }
  }

  lemma ShutdownAllKeeps(s: Launcher)
    requires Consistent(s)
    ensures Consistent(ShutdownAll(s))
  {
    var s' := ShutdownAll(s);
    forall e ensures ConservedAt(s', e) && AccountedAt(s', e) && ReplacedAt(s', e) {
      ShutdownAllKeepsAt(s, e);
      ShutdownAllReplacesAt(s, e);
    }
    ShutdownAllKeepsMaps(s);
  }

  lemma ShutdownAllKeepsMaps(s: Launcher)
    requires MapsSound(s)
    ensures MapsSound(ShutdownAll(s)) && LaterThanTerminated(ShutdownAll(s))
  {
  }

  /** The whole of `background_worker_launcher_main`. */
  function LauncherMain(startups: seq<Startup>, turns: seq<seq<Item>>): Launcher {
    WaitAll(ShutdownAll(Turns(StartAll(INITIAL, startups), turns)))
  }

  /**
    At the end no worker is left: each one ever started was terminated once, and was waited for
    unless its terminated entry was replaced by that of a later worker of the same database.
   */
  lemma ShutdownCoversEveryone(startups: seq<Startup>, turns: seq<seq<Item>>, e: WorkerEntry)
    requires NoRepeat(startups, {})
    ensures var s := LauncherMain(startups, turns);
            && s.started == Turns(StartAll(INITIAL, startups), turns).started
            && s.pending == map[] && s.workers == map[] && s.terminated == map[]
            && s.stopped[e] == Count(e in s.started)
            && s.waited[e] + s.replaced[e] == s.stopped[e]
            && (s.replaced[e] > 0 ==> exists f :: Succeeds(s, f, e))
  {
    hide Consistent, Turns, StartAll;
    AlwaysConsistent(startups, turns);
    var s := Turns(StartAll(INITIAL, startups), turns);
    ShutdownAllKeeps(s);
    WaitAllKeeps(ShutdownAll(s));
    NoneLeft(LauncherMain(startups, turns), e);
  }

  lemma NoneLeft(s: Launcher, e: WorkerEntry)
    requires Consistent(s) && s.pending == map[] && s.workers == map[] && s.terminated == map[]
    ensures s.stopped[e] == Count(e in s.started)
    ensures s.waited[e] + s.replaced[e] == s.stopped[e]
    ensures s.replaced[e] > 0 ==> exists f :: Succeeds(s, f, e)
  {
    assert ConservedAt(s, e) && AccountedAt(s, e) && ReplacedAt(s, e);
  }

  /** A worker can go unwaited: two of one database are both gone within one drain of the bus. */
  lemma UnwaitedWitness(oid: Oid, config: Config, name: string)
    ensures var start := Item(Some(LauncherNewConfig(oid, config)), Env(Some(name), true));
            var exit := Item(Some(SubscriberExit(oid, None)), Env(None, true));
            var s := HandleItems(INITIAL, [start, exit, start, exit]);
            var first := WorkerEntry(0, oid, name);
            s.stopped[first] == 1 && s.replaced[first] == 1 && s.waited[first] == 0 && !Holds(s.terminated, first)
  {
    var start := Item(Some(LauncherNewConfig(oid, config)), Env(Some(name), true));
    var exit := Item(Some(SubscriberExit(oid, None)), Env(None, true));
    var s1 := HandleItem(INITIAL, start);
    var s2 := HandleItem(s1, exit);
    var s3 := HandleItem(s2, start);
    var s4 := HandleItem(s3, exit);
    assert s4.replaced == multiset{WorkerEntry(0, oid, name)};
    HandleFour(INITIAL, start, exit, start, exit);
  }

  lemma HandleFour(s: Launcher, a: Item, b: Item, c: Item, d: Item)
    ensures HandleItems(s, [a, b, c, d]) == HandleItem(HandleItem(HandleItem(HandleItem(s, a), b), c), d)
  {
    assert [a, b, c, d][1..] == [b, c, d] && [b, c, d][1..] == [c, d] && [c, d][1..] == [d];
    var s1 := HandleItem(s, a);
    var s2 := HandleItem(s1, b);
    var s3 := HandleItem(s2, c);
    assert HandleItems(s3, [d]) == HandleItem(s3, d);
    assert HandleItems(s2, [c, d]) == HandleItems(s3, [d]);
    assert HandleItems(s1, [b, c, d]) == HandleItems(s2, [c, d]);
  }

  /** Workers are numbered as they are started, from 0, without a gap and no number twice. */
  ghost predicate Numbered(s: Launcher) {
    IdsUnique(s) && |s.started| == s.counter
  }

  /** The worker that a message has started, if any: for settings of a database without one. */
  function StartedBy(s: Launcher, item: Item): set<WorkerEntry> {
    if item.m.Some? && item.m.value.LauncherNewConfig? && item.m.value.dbOid !in Running(s) && item.env.dbName.Some?
    then {WorkerEntry(s.counter, item.m.value.dbOid, item.env.dbName.value)} else {}
  }

  lemma StartNumbers(s: Launcher, oid: Oid, name: string)
    requires Numbered(s)
    ensures Numbered(Start(s, oid, Some(name)))
  {
    assert WorkerEntry(s.counter, oid, name) !in s.started;
  }

  lemma OthersStartNone(s: Launcher, oid: Oid)
    ensures Register(s, oid).started == s.started && Register(s, oid).counter == s.counter
    ensures Shutdown(s, oid).started == s.started && Shutdown(s, oid).counter == s.counter
    ensures forall msg, ok :: Send(s, oid, msg, ok).started == s.started && Send(s, oid, msg, ok).counter == s.counter
  {
  }

  lemma SameNumbers(s: Launcher, s': Launcher)
    requires Numbered(s) && s'.started == s.started && s'.counter == s.counter
    ensures Numbered(s')
  {
  }

  lemma HandleNumbers(s: Launcher, item: Item)
    requires Numbered(s)
    ensures Numbered(HandleItem(s, item)) && HandleItem(s, item).started == s.started + StartedBy(s, item)
  {
    hide Register, Shutdown, Send, Numbered;
    if item.m.Some? {
      OthersStartNone(s, item.m.value.dbOid);
    }
    if StartedBy(s, item) != {} {
      StartNumbers(s, item.m.value.dbOid, item.env.dbName.value);
    } else {
      SameNumbers(s, HandleItem(s, item));
    }
  }

  lemma {:induction false} ItemsNumber(s: Launcher, items: seq<Item>)
    requires Numbered(s)
    ensures Numbered(HandleItems(s, items))
    decreases |items|
  {
    hide HandleItem, Numbered;
    if items != [] {
      HandleNumbers(s, items[0]);
      ItemsNumber(HandleItem(s, items[0]), items[1..]);
    }
  }

  lemma {:induction false} TurnsNumber(s: Launcher, turns: seq<seq<Item>>)
    requires Numbered(s)
    ensures Numbered(Turns(s, turns))
    decreases |turns|
  {
    hide HandleItems;
    if turns != [] {
      ItemsNumber(WaitAll(s), turns[0]);
      TurnsNumber(HandleItems(WaitAll(s), turns[0]), turns[1..]);
    }
  }

  lemma {:induction false} StartsNumber(s: Launcher, startups: seq<Startup>)
    requires Numbered(s)
    ensures Numbered(StartAll(s, startups))
    decreases |startups|
  {
    hide Start, Numbered;
    if startups != [] {
      StartOneNumbers(s, startups[0].oid, startups[0].dbName);
      StartsNumber(Start(s, startups[0].oid, startups[0].dbName), startups[1..]);
    }
  }

  lemma StartOneNumbers(s: Launcher, oid: Oid, dbName: Option<string>)
    requires Numbered(s)
    ensures Numbered(Start(s, oid, dbName))
  {
    if dbName.Some? {
      StartNumbers(s, oid, dbName.value);
    }
  }

  /** In every run, whatever is started at launch: the process of a worker has a name of its own. */
  lemma RunsNumber(startups: seq<Startup>, turns: seq<seq<Item>>)
    ensures Numbered(LauncherMain(startups, turns))
  {
    StartsNumber(INITIAL, startups);
    TurnsNumber(StartAll(INITIAL, startups), turns);
  }
}
