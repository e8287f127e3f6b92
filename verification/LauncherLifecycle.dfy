/** What every message, in any order, keeps of the launcher's workers. */
module LauncherLifecycle {
  import opened Bytes
  import opened Messages
  import opened LauncherState

  lemma InitialConsistent()
    ensures Consistent(INITIAL)
  {
  }

  lemma RunningWasStarted(s: Launcher, e: WorkerEntry)
    requires Consistent(s) && (Holds(s.pending, e) || Holds(s.workers, e))
    ensures e in s.started && s.stopped[e] == 0 && !Holds(s.terminated, e)
  {
    assert ConservedAt(s, e);
    assert AccountedAt(s, e);
  }

  lemma TerminatedWasStarted(s: Launcher, e: WorkerEntry)
    requires Consistent(s) && Holds(s.terminated, e)
    ensures e in s.started && s.stopped[e] == 1
  {
    assert ConservedAt(s, e);
    assert AccountedAt(s, e);
  }

  lemma StartKeeps(s: Launcher, oid: Oid, dbName: Option<string>)
    requires Consistent(s) && oid !in s.pending && oid !in s.workers
    ensures Consistent(Start(s, oid, dbName))
  {
    if dbName.Some? {
      var s' := Start(s, oid, dbName);
      forall e ensures ConservedAt(s', e) && AccountedAt(s', e) && ReplacedAt(s', e) {
        StartKeepsAt(s, oid, dbName.value, e);
      }
      StartKeepsIds(s, oid, dbName.value);
      StartKeepsOrder(s, oid, dbName.value);
    }
  }

  lemma StartKeepsIds(s: Launcher, oid: Oid, name: string)
    requires Consistent(s) && oid !in s.pending && oid !in s.workers
    ensures IdsUnique(Start(s, oid, Some(name))) && MapsSound(Start(s, oid, Some(name)))
  {
  }

  lemma StartKeepsOrder(s: Launcher, oid: Oid, name: string)
    requires Consistent(s) && oid !in s.pending && oid !in s.workers
    ensures LaterThanTerminated(Start(s, oid, Some(name)))
  {
    var s' := Start(s, oid, Some(name));
    forall k | k in s'.terminated && k in s'.pending ensures s'.terminated[k].id < s'.pending[k].id {
      TerminatedWasStarted(s, s.terminated[k]);
    }
  }

  lemma StartKeepsAt(s: Launcher, oid: Oid, name: string, e: WorkerEntry)
    requires Consistent(s) && oid !in s.pending && oid !in s.workers
    ensures var s' := Start(s, oid, Some(name)); ConservedAt(s', e) && AccountedAt(s', e) && ReplacedAt(s', e)
  {
    assert ConservedAt(s, e) && AccountedAt(s, e) && ReplacedAt(s, e);
    if s.replaced[e] > 0 {
      var f :| Succeeds(s, f, e);
      assert Succeeds(Start(s, oid, Some(name)), f, e);
    }
  }

  lemma RegisterKeeps(s: Launcher, oid: Oid)
    requires Consistent(s)
    ensures Consistent(Register(s, oid))
  {
    var s' := Register(s, oid);
    forall e ensures ConservedAt(s', e) && AccountedAt(s', e) && ReplacedAt(s', e) {
      RegisterKeepsAt(s, oid, e);
    }
    RegisterKeepsMaps(s, oid);
  }

  lemma RegisterKeepsAt(s: Launcher, oid: Oid, e: WorkerEntry)
    requires Consistent(s)
    ensures var s' := Register(s, oid); ConservedAt(s', e) && AccountedAt(s', e) && ReplacedAt(s', e)
  {
    assert ConservedAt(s, e) && AccountedAt(s, e);
    SameReplaced(s, Register(s, oid), e);
  }

  lemma RegisterKeepsMaps(s: Launcher, oid: Oid)
    requires MapsSound(s) && LaterThanTerminated(s)
    ensures MapsSound(Register(s, oid)) && LaterThanTerminated(Register(s, oid))
  {
  }

  lemma SendKeeps(s: Launcher, oid: Oid, msg: SubscriberMessage, ok: bool)
    requires Consistent(s)
    ensures Consistent(Send(s, oid, msg, ok))
  {
    var s' := Send(s, oid, msg, ok);
    forall e ensures ConservedAt(s', e) && AccountedAt(s', e) && ReplacedAt(s', e) {
      assert ConservedAt(s, e) && AccountedAt(s, e);
      SameReplaced(s, s', e);
    }
  }

  lemma SameReplaced(s: Launcher, s': Launcher, e: WorkerEntry)
    requires ReplacedAt(s, e)
    requires s'.replaced == s.replaced && s'.started == s.started && s'.stopped == s.stopped
    ensures ReplacedAt(s', e)
  {
    if s.replaced[e] > 0 {
      var f :| Succeeds(s, f, e);
      assert Succeeds(s', f, e);
    }
  }

  /** The entry a shutdown terminates: a registered worker before a pending one. */
  function Victim(s: Launcher, oid: Oid): WorkerEntry
    requires oid in s.workers || oid in s.pending
  {
    if oid in s.workers then s.workers[oid] else s.pending[oid]
  }

  lemma ShutdownKeeps(s: Launcher, oid: Oid)
    requires Consistent(s)
    ensures Consistent(Shutdown(s, oid))
  {
    if oid in s.workers || oid in s.pending {
      var s' := Shutdown(s, oid);
      forall e ensures ConservedAt(s', e) && AccountedAt(s', e) && ReplacedAt(s', e) {
        ShutdownConservesAt(s, oid, e);
        ShutdownAccountsAt(s, oid, e);
        ShutdownReplacesAt(s, oid, e);
      }
      ShutdownKeepsMaps(s, oid);
    }
  }

  lemma ShutdownKeepsMaps(s: Launcher, oid: Oid)
    requires Consistent(s) && (oid in s.workers || oid in s.pending)
    ensures MapsSound(Shutdown(s, oid)) && LaterThanTerminated(Shutdown(s, oid))
  {
  }

  lemma ShutdownConservesAt(s: Launcher, oid: Oid, e: WorkerEntry)
    requires Consistent(s) && (oid in s.workers || oid in s.pending)
    ensures ConservedAt(Shutdown(s, oid), e)
  {
    assert ConservedAt(s, e);
  }

  lemma ShutdownAccountsAt(s: Launcher, oid: Oid, e: WorkerEntry)
    requires Consistent(s) && (oid in s.workers || oid in s.pending)
    ensures AccountedAt(Shutdown(s, oid), e)
  {
    RunningWasStarted(s, Victim(s, oid));
    assert AccountedAt(s, e);
  }

  lemma ShutdownReplacesAt(s: Launcher, oid: Oid, e: WorkerEntry)
    requires Consistent(s) && (oid in s.workers || oid in s.pending)
    ensures ReplacedAt(Shutdown(s, oid), e)
  {
    var s', victim := Shutdown(s, oid), Victim(s, oid);
    RunningWasStarted(s, victim);
    if s.replaced[e] > 0 {
      assert ReplacedAt(s, e);
      var f :| Succeeds(s, f, e);
      assert Succeeds(s', f, e);
    } else if s'.replaced[e] > 0 {
      assert e == s.terminated[oid];
      assert Succeeds(s', victim, e);
    }
  }

  lemma WaitAllKeeps(s: Launcher)
    requires Consistent(s)
    ensures Consistent(WaitAll(s))
  {
    var s' := WaitAll(s);
    forall e ensures ConservedAt(s', e) && AccountedAt(s', e) && ReplacedAt(s', e) {
      assert ConservedAt(s, e) && AccountedAt(s, e);
      assert Holds(s.terminated, e) <==> e in s.terminated.Values;
      SameReplaced(s, s', e);
    }
  }

  /** Whatever message comes, in whatever state, and whatever the world answers. */
  lemma HandleKeeps(s: Launcher, m: LauncherMessage, env: Env)
    requires Consistent(s)
    ensures Consistent(Handle(s, m, env))
  {
    hide Consistent, Register, Shutdown, Send, Start;
    match m
    case DbExtensionStatus(oid, status) => if status == Exist { RegisterKeeps(s, oid); } else { ShutdownKeeps(s, oid); }
    case LauncherNewConfig(oid, config) =>
      if oid in s.workers {
        SendKeeps(s, oid, NewConfig(config), env.sendOk);
      } else if oid !in s.pending {
        StartKeeps(s, oid, env.dbName);
      }
    case LauncherSubscribe(oid, subject, fnName) => SendKeeps(s, oid, Subscribe(subject, fnName), env.sendOk);
    case LauncherUnsubscribe(oid, subject, fnName) => SendKeeps(s, oid, Unsubscribe(subject, fnName), env.sendOk);
    case SubscriberExit(oid, _) => ShutdownKeeps(s, oid);
    case ForeignServerDropped(oid) => ShutdownKeeps(s, oid);
  }

  lemma {:induction false} HandleItemsKeeps(s: Launcher, items: seq<Item>)
    requires Consistent(s)
    ensures Consistent(HandleItems(s, items))
    decreases |items|
  {
    hide Consistent, Handle;
    if items != [] {
      if items[0].m.Some? {
        HandleKeeps(s, items[0].m.value, items[0].env);
      }
      HandleItemsKeeps(HandleItem(s, items[0]), items[1..]);
    }
  }

  lemma {:induction false} TurnsKeep(s: Launcher, turns: seq<seq<Item>>)
    requires Consistent(s)
    ensures Consistent(Turns(s, turns))
    decreases |turns|
  {
    hide Consistent, HandleItems, WaitAll;
    if turns != [] {
      WaitAllKeeps(s);
      HandleItemsKeeps(WaitAll(s), turns[0]);
      TurnsKeep(HandleItems(WaitAll(s), turns[0]), turns[1..]);
    }
  }
}
