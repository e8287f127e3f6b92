/** Which messages reach which worker. */
module LauncherRouting {
  import opened Bytes
  import opened Messages
  import opened LauncherState
  import opened LauncherLifecycle
  import opened LauncherRuns

  /** Nothing was put on the queue of a worker that is still pending or not yet started. */
  ghost predicate QueuesSound(s: Launcher) {
    && (forall id :: id in s.queues ==> id < s.counter)
    && (forall k :: k in s.pending ==> s.pending[k].id !in s.queues)
  }

  lemma SendKeepsQueues(s: Launcher, oid: Oid, msg: SubscriberMessage, ok: bool)
    requires Consistent(s) && QueuesSound(s)
    ensures QueuesSound(Send(s, oid, msg, ok))
  {
    if oid in s.workers {
      var w := s.workers[oid];
      assert Holds(s.workers, w);
      RunningWasStarted(s, w);
      forall k | k in s.pending ensures s.pending[k].id != w.id {
        assert Holds(s.pending, s.pending[k]);
        RunningWasStarted(s, s.pending[k]);
      }
    }
  }

  lemma StartKeepsQueues(s: Launcher, oid: Oid, dbName: Option<string>)
    requires QueuesSound(s)
    ensures QueuesSound(Start(s, oid, dbName))
  {
  }

  lemma RegisterKeepsQueues(s: Launcher, oid: Oid)
    requires QueuesSound(s)
    ensures QueuesSound(Register(s, oid))
  {
  }

  lemma ShutdownKeepsQueues(s: Launcher, oid: Oid)
    requires QueuesSound(s)
    ensures QueuesSound(Shutdown(s, oid))
  {
  }

  lemma HandleKeepsQueues(s: Launcher, m: LauncherMessage, env: Env)
    requires Consistent(s) && QueuesSound(s)
    ensures QueuesSound(Handle(s, m, env))
  {
    match m
    case DbExtensionStatus(oid, _) => RegisterKeepsQueues(s, oid); ShutdownKeepsQueues(s, oid);
    case LauncherNewConfig(oid, config) =>
      SendKeepsQueues(s, oid, NewConfig(config), env.sendOk);
      StartKeepsQueues(s, oid, env.dbName);
    case LauncherSubscribe(oid, subject, fnName) => SendKeepsQueues(s, oid, Subscribe(subject, fnName), env.sendOk);
    case LauncherUnsubscribe(oid, subject, fnName) => SendKeepsQueues(s, oid, Unsubscribe(subject, fnName), env.sendOk);
    case SubscriberExit(oid, _) => ShutdownKeepsQueues(s, oid);
    case ForeignServerDropped(oid) => ShutdownKeepsQueues(s, oid);
  }

  /** What a message asks to be passed on to the worker of its database. */
  function Forward(m: LauncherMessage): Option<SubscriberMessage> {
    match m
    case LauncherNewConfig(_, config) => Some(NewConfig(config))
    case LauncherSubscribe(_, subject, fnName) => Some(Subscribe(subject, fnName))
    case LauncherUnsubscribe(_, subject, fnName) => Some(Unsubscribe(subject, fnName))
    case _ => None
  }

  /** What one item puts on the queue of worker `e`. */
  function Routed(s: Launcher, item: Item, e: WorkerEntry): seq<SubscriberMessage> {
    if item.m.Some? && item.m.value.dbOid == e.oid && Holds(s.workers, e) && item.env.sendOk
       && Forward(item.m.value).Some?
    then [Forward(item.m.value).value] else []
  }

  /** The forwarded messages of `e`'s database that were handled while `e` was registered, in order. */
  function RoutedAll(s: Launcher, items: seq<Item>, e: WorkerEntry): seq<SubscriberMessage>
    decreases |items|
  {
    if items == [] then [] else Routed(s, items[0], e) + RoutedAll(HandleItem(s, items[0]), items[1..], e)
  }

  lemma SendRoutes(s: Launcher, oid: Oid, msg: SubscriberMessage, ok: bool, e: WorkerEntry)
    requires Consistent(s) && e in s.started
    ensures Queue(Send(s, oid, msg, ok), e.id)
         == Queue(s, e.id) + if oid == e.oid && Holds(s.workers, e) && ok then [msg] else []
  {
    if oid in s.workers {
      assert Holds(s.workers, s.workers[oid]);
      RunningWasStarted(s, s.workers[oid]);
    }
  }

  lemma HandleRoutes(s: Launcher, item: Item, e: WorkerEntry)
    requires Consistent(s) && e in s.started
    ensures Queue(HandleItem(s, item), e.id) == Queue(s, e.id) + Routed(s, item, e)
  {
    hide Consistent, Send;
    if item.m.Some? {
      var m, ok := item.m.value, item.env.sendOk;
      if Forward(m).Some? {
        SendRoutes(s, m.dbOid, Forward(m).value, ok, e);
      }
    }
  }

  /** A worker's queue grows by exactly those, whatever else is handled in between. */
  lemma {:induction false} QueueIsRouted(s: Launcher, items: seq<Item>, e: WorkerEntry)
    requires Consistent(s) && e in s.started
    ensures Queue(HandleItems(s, items), e.id) == Queue(s, e.id) + RoutedAll(s, items, e)
    decreases |items|
  {
    hide Consistent, HandleItem;
    if items != [] {
      HandleRoutes(s, items[0], e);
      HandleItemKeeps(s, items[0], e);
      QueueIsRouted(HandleItem(s, items[0]), items[1..], e);
    }
  }

  lemma HandleItemKeeps(s: Launcher, item: Item, e: WorkerEntry)
    requires Consistent(s) && e in s.started
    ensures Consistent(HandleItem(s, item)) && e in HandleItem(s, item).started
  {
    if item.m.Some? {
      HandleKeeps(s, item.m.value, item.env);
    }
    StartedGrows(s, item);
  }

  lemma StartedGrows(s: Launcher, item: Item)
    ensures s.started <= HandleItem(s, item).started
  {
  }

  /** What one database sees of the launcher: no worker, one starting up, or one with its queue. */
  datatype DbView = Absent | Starting | Registered(queue: seq<SubscriberMessage>)

  function View(s: Launcher, db: Oid): DbView {
    if db in s.workers then Registered(Queue(s, s.workers[db].id))
    else if db in s.pending then Starting
    else Absent
  }

  /** The launcher as one database would have it: a three-state machine driven by its own messages. */
  function ViewStep(v: DbView, m: LauncherMessage, env: Env): DbView {
    match m
    case DbExtensionStatus(_, Exist) => if v.Starting? then Registered([]) else v
    case DbExtensionStatus(_, _) => Absent
    case SubscriberExit(_, _) => Absent
    case ForeignServerDropped(_) => Absent
    case LauncherNewConfig(_, _) =>
      if v.Absent? && env.dbName.Some? then Starting else Push(v, m, env)
    case _ => Push(v, m, env)
  }

  function Push(v: DbView, m: LauncherMessage, env: Env): DbView {
    if v.Registered? && env.sendOk && Forward(m).Some? then Registered(v.queue + [Forward(m).value]) else v
  }

  function ViewRun(v: DbView, items: seq<Item>, db: Oid): DbView
    decreases |items|
  {
    if items == [] then v
    else if items[0].m.Some? && items[0].m.value.dbOid == db then
      ViewRun(ViewStep(v, items[0].m.value, items[0].env), items[1..], db)
    else
      ViewRun(v, items[1..], db)
  }

  lemma SendView(s: Launcher, oid: Oid, msg: SubscriberMessage, ok: bool, db: Oid)
    requires Consistent(s)
    ensures View(Send(s, oid, msg, ok), db)
         == if oid == db && db in s.workers && ok then Registered(Queue(s, s.workers[db].id) + [msg]) else View(s, db)
  {
    if db in s.workers {
      assert Holds(s.workers, s.workers[db]);
      RunningWasStarted(s, s.workers[db]);
      SendRoutes(s, oid, msg, ok, s.workers[db]);
    }
  }

  lemma LifecycleView(s: Launcher, oid: Oid, dbName: Option<string>, db: Oid)
    requires MapsSound(s) && QueuesSound(s)
    ensures View(Register(s, oid), db)
         == if oid == db && View(s, db).Starting? then Registered([]) else View(s, db)
    ensures View(Shutdown(s, oid), db) == if oid == db then Absent else View(s, db)
    ensures oid !in s.workers && oid !in s.pending ==>
              View(Start(s, oid, dbName), db) == if oid == db && dbName.Some? then Starting else View(s, db)
  {
  }

  lemma HandleView(s: Launcher, m: LauncherMessage, env: Env, db: Oid)
    requires Consistent(s) && QueuesSound(s)
    ensures View(Handle(s, m, env), db) == if m.dbOid == db then ViewStep(View(s, db), m, env) else View(s, db)
  {
    hide Register, Shutdown, Start, Send;
    LifecycleView(s, m.dbOid, env.dbName, db);
    if Forward(m).Some? {
      SendView(s, m.dbOid, Forward(m).value, env.sendOk, db);
    }
  }

  /**
    Databases do not see each other: what one database sees after any items is what its own
    messages alone, in their order, make of what it saw before.
   */
  lemma {:induction false} DatabasesIsolated(s: Launcher, items: seq<Item>, db: Oid)
    requires Consistent(s) && QueuesSound(s)
    ensures View(HandleItems(s, items), db) == ViewRun(View(s, db), items, db)
    decreases |items|
  {
    if items != [] {
      if items[0].m.Some? {
        HandleKeeps(s, items[0].m.value, items[0].env);
        HandleKeepsQueues(s, items[0].m.value, items[0].env);
        HandleView(s, items[0].m.value, items[0].env, db);
      }
      DatabasesIsolated(HandleItem(s, items[0]), items[1..], db);
    }
  }

  /** The same over turns, whatever number of them. */
  function ViewTurns(v: DbView, turns: seq<seq<Item>>, db: Oid): DbView
    decreases |turns|
  {
    if turns == [] then v else ViewTurns(ViewRun(v, turns[0], db), turns[1..], db)
  }

  lemma {:induction false} ItemsKeepQueues(s: Launcher, items: seq<Item>)
    requires Consistent(s) && QueuesSound(s)
    ensures QueuesSound(HandleItems(s, items))
    decreases |items|
  {
    hide Consistent, QueuesSound, Handle;
    if items != [] {
      if items[0].m.Some? {
        HandleKeeps(s, items[0].m.value, items[0].env);
        HandleKeepsQueues(s, items[0].m.value, items[0].env);
      }
      ItemsKeepQueues(HandleItem(s, items[0]), items[1..]);
    }
  }

  lemma WaitAllView(s: Launcher, db: Oid)
    requires Consistent(s) && QueuesSound(s)
    ensures Consistent(WaitAll(s)) && QueuesSound(WaitAll(s)) && View(WaitAll(s), db) == View(s, db)
  {
    hide Consistent;
    WaitAllKeeps(s);
  }

  lemma {:induction false} TurnsIsolated(s: Launcher, turns: seq<seq<Item>>, db: Oid)
    requires Consistent(s) && QueuesSound(s)
    ensures View(Turns(s, turns), db) == ViewTurns(View(s, db), turns, db)
    ensures Consistent(Turns(s, turns)) && QueuesSound(Turns(s, turns))
    decreases |turns|
  {
    hide Consistent, QueuesSound, WaitAll, HandleItems, View;
    if turns != [] {
      WaitAllView(s, db);
      HandleItemsKeeps(WaitAll(s), turns[0]);
      ItemsKeepQueues(WaitAll(s), turns[0]);
      DatabasesIsolated(WaitAll(s), turns[0], db);
      TurnsIsolated(HandleItems(WaitAll(s), turns[0]), turns[1..], db);
    }
  }

  lemma {:induction false} LaunchView(s: Launcher, startups: seq<Startup>, db: Oid)
    requires s.workers == map[] && s.queues == map[]
    ensures var s' := StartAll(s, startups);
            && s'.workers == map[] && s'.queues == map[] && QueuesSound(s')
            && View(s', db) == if StartedAtLaunch(startups, db) then Starting else View(s, db)
    decreases |startups|
  {
    if startups != [] {
      LaunchView(Start(s, startups[0].oid, startups[0].dbName), startups[1..], db);
    }
  }

  /**
    At every point of every run of the launcher, in the middle of any turn, what a database sees is
    what its own messages so far make of whether it had a worker at launch.
   */
  lemma DatabasesIsolatedAlways(startups: seq<Startup>, turns: seq<seq<Item>>, items: seq<Item>, db: Oid)
    requires NoRepeat(startups, {})
    ensures var s := HandleItems(WaitAll(Turns(StartAll(INITIAL, startups), turns)), items);
            var atLaunch := if StartedAtLaunch(startups, db) then Starting else Absent;
            View(s, db) == ViewRun(ViewTurns(atLaunch, turns, db), items, db)
  {
    hide Consistent, QueuesSound, WaitAll, HandleItems, StartAll, Turns;
    var launched := StartAll(INITIAL, startups);
    LaunchConsistentIff(startups);
    LaunchView(INITIAL, startups, db);
    TurnsIsolated(launched, turns, db);
    WaitAllView(Turns(launched, turns), db);
    DatabasesIsolated(WaitAll(Turns(launched, turns)), items, db);
  }
}
