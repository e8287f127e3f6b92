/** Exactly when every terminated worker is waited for. */
module LauncherWaits {
  import opened Messages
  import opened LauncherState
  import opened LauncherLifecycle
  import opened LauncherRuns

  /** The messages that end a worker. */
  predicate EndsWorker(m: LauncherMessage) {
    match m
    case DbExtensionStatus(_, status) => status != Exist
    case SubscriberExit(_, _) => true
    case ForeignServerDropped(_) => true
    case _ => false
  }

  /** The database has a worker, registered or starting. */
  predicate Live(s: Launcher, db: Oid) {
    db in s.workers || db in s.pending
  }

  /** The message ends a worker while an earlier one of its database has not been waited for. */
  predicate Replaces(s: Launcher, m: LauncherMessage) {
    EndsWorker(m) && Live(s, m.dbOid) && m.dbOid in s.terminated
  }

  /** No terminated entry of the database was thrown away. */
  ghost predicate NoneReplaced(s: Launcher, db: Oid) {
    forall e: WorkerEntry :: e.oid == db ==> s.replaced[e] == 0
  }

  lemma ShutdownReplacesIff(s: Launcher, oid: Oid, db: Oid)
    requires MapsSound(s)
    ensures NoneReplaced(Shutdown(s, oid), db)
       <==> NoneReplaced(s, db) && !(oid == db && Live(s, oid) && oid in s.terminated)
  {
    var s' := Shutdown(s, oid);
    if oid == db && Live(s, oid) && oid in s.terminated {
      var e := s.terminated[oid];
      assert e.oid == db && s'.replaced[e] > 0;
    } else if NoneReplaced(s', db) {
      forall e: WorkerEntry | e.oid == db ensures s.replaced[e] == 0 {
        assert s.replaced[e] <= s'.replaced[e];
      }
    }
  }

  /** One message throws an entry of the database away exactly when it is for that database and replaces. */
  lemma HandleReplacesIff(s: Launcher, m: LauncherMessage, env: Env, db: Oid)
    requires MapsSound(s)
    ensures NoneReplaced(Handle(s, m, env), db) <==> NoneReplaced(s, db) && !(m.dbOid == db && Replaces(s, m))
  {
    hide Shutdown, MapsSound;
    if EndsWorker(m) {
      ShutdownReplacesIff(s, m.dbOid, db);
    }
  }

  /** No item replaces an entry of the database in the state it meets. */
  predicate Clean(s: Launcher, items: seq<Item>, db: Oid)
    decreases |items|
  {
    items != [] ==>
      && !(items[0].m.Some? && items[0].m.value.dbOid == db && Replaces(s, items[0].m.value))
      && Clean(HandleItem(s, items[0]), items[1..], db)
  }

  lemma ItemKeeps(s: Launcher, item: Item)
    requires Consistent(s)
    ensures MapsSound(s) && Consistent(HandleItem(s, item))
  {
    if item.m.Some? {
      HandleKeeps(s, item.m.value, item.env);
    }
  }

  lemma {:induction false} ItemsReplaceIff(s: Launcher, items: seq<Item>, db: Oid)
    requires Consistent(s)
    ensures NoneReplaced(HandleItems(s, items), db) <==> NoneReplaced(s, db) && Clean(s, items, db)
    decreases |items|
  {
    hide Consistent, NoneReplaced, Handle, MapsSound;
    if items != [] {
      ItemKeeps(s, items[0]);
      if items[0].m.Some? {
        HandleReplacesIff(s, items[0].m.value, items[0].env, db);
      }
      ItemsReplaceIff(HandleItem(s, items[0]), items[1..], db);
    }
  }

  /** Whether the database has a worker after one of its own messages: a matter of its messages alone. */
  predicate LiveStep(live: bool, m: LauncherMessage, env: Env) {
    if EndsWorker(m) then false
    else if m.LauncherNewConfig? then live || env.dbName.Some?
    else live
  }

  predicate IsFor(item: Item, db: Oid) {
    item.m.Some? && item.m.value.dbOid == db
  }

  predicate LiveAfter(live: bool, items: seq<Item>, db: Oid)
    decreases |items|
  {
    if items == [] then live
    else if IsFor(items[0], db) then LiveAfter(LiveStep(live, items[0].m.value, items[0].env), items[1..], db)
    else LiveAfter(live, items[1..], db)
  }

  /** How often the database loses its worker. */
  function Losses(live: bool, items: seq<Item>, db: Oid): nat
    decreases |items|
  {
    if items == [] then 0
    else if IsFor(items[0], db) then
      Count(live && EndsWorker(items[0].m.value))
      + Losses(LiveStep(live, items[0].m.value, items[0].env), items[1..], db)
    else Losses(live, items[1..], db)
  }

  lemma ShutdownLive(s: Launcher, oid: Oid, db: Oid)
    requires MapsSound(s)
    ensures Live(Shutdown(s, oid), db) <==> oid != db && Live(s, db)
    ensures db in Shutdown(s, oid).terminated <==> db in s.terminated || (oid == db && Live(s, db))
  {
  }

  lemma HandleLive(s: Launcher, m: LauncherMessage, env: Env, db: Oid)
    requires MapsSound(s)
    ensures Live(Handle(s, m, env), db)
         == if m.dbOid == db then LiveStep(Live(s, db), m, env) else Live(s, db)
    ensures db in Handle(s, m, env).terminated
       <==> db in s.terminated || (m.dbOid == db && EndsWorker(m) && Live(s, db))
  {
    hide Shutdown, MapsSound;
    ShutdownLive(s, m.dbOid, db);
  }

  /** A drain is clean for a database exactly when it loses at most one worker between two waits. */
  lemma {:induction false} CleanIff(s: Launcher, items: seq<Item>, db: Oid)
    requires Consistent(s)
    ensures Clean(s, items, db) <==> Losses(Live(s, db), items, db) + Count(db in s.terminated) <= 1
    ensures Live(HandleItems(s, items), db) == LiveAfter(Live(s, db), items, db)
    ensures db in HandleItems(s, items).terminated <==> db in s.terminated || Losses(Live(s, db), items, db) > 0
    decreases |items|
  {
    hide Consistent, Handle, MapsSound, Live;
    if items != [] {
      ItemKeeps(s, items[0]);
      if items[0].m.Some? {
        HandleLive(s, items[0].m.value, items[0].env, db);
      }
      CleanIff(HandleItem(s, items[0]), items[1..], db);
    }
  }

  /** In every turn the database loses its worker at most once; the last turn also counts the final shutdown. */
  predicate LosesOnce(live: bool, turns: seq<seq<Item>>, db: Oid)
    decreases |turns|
  {
    turns != [] ==>
      var after := LiveAfter(live, turns[0], db);
      && Losses(live, turns[0], db) + Count(|turns| == 1 && after) <= 1
      && LosesOnce(after, turns[1..], db)
  }

  lemma ShutdownAllReplacesIff(s: Launcher, db: Oid)
    requires MapsSound(s)
    ensures NoneReplaced(ShutdownAll(s), db) <==> NoneReplaced(s, db) && !(db in s.terminated && Live(s, db))
  {
    var s' := ShutdownAll(s);
    forall e ensures s'.replaced[e] == s.replaced[e] + Count(Holds(s.terminated, e) && e.oid in Running(s)) {
      ShutdownAllReplaced(s, e);
    }
    hide ShutdownAll;
    if db in s.terminated && Live(s, db) {
      assert Holds(s.terminated, s.terminated[db]);
    }
  }

  /** No turn throws an entry of the database away, in the states they meet. */
  predicate CleanTurns(s: Launcher, turns: seq<seq<Item>>, db: Oid)
    decreases |turns|
  {
    turns != [] ==> Clean(WaitAll(s), turns[0], db) && CleanTurns(HandleItems(WaitAll(s), turns[0]), turns[1..], db)
  }

  lemma TurnKeeps(s: Launcher, items: seq<Item>)
    requires Consistent(s)
    ensures Consistent(WaitAll(s)) && Consistent(HandleItems(WaitAll(s), items)) && MapsSound(s)
  {
    WaitAllKeeps(s);
    HandleItemsKeeps(WaitAll(s), items);
  }

  lemma WaitAllSame(s: Launcher, db: Oid)
    ensures NoneReplaced(WaitAll(s), db) <==> NoneReplaced(s, db)
    ensures Live(WaitAll(s), db) == Live(s, db) && db !in WaitAll(s).terminated
  {
  }

  lemma {:induction false} TurnsReplaceIff(s: Launcher, turns: seq<seq<Item>>, db: Oid)
    requires Consistent(s)
    ensures NoneReplaced(Turns(s, turns), db) <==> NoneReplaced(s, db) && CleanTurns(s, turns, db)
    ensures Consistent(Turns(s, turns))
    decreases |turns|
  {
    hide Consistent, NoneReplaced, HandleItems, WaitAll, MapsSound, Clean, Live;
    if turns != [] {
      TurnKeeps(s, turns[0]);
      WaitAllSame(s, db);
      ItemsReplaceIff(WaitAll(s), turns[0], db);
      TurnsReplaceIff(HandleItems(WaitAll(s), turns[0]), turns[1..], db);
    }
  }

  /** The same from the messages: what the maps hold at the end need not be known. */
  lemma {:induction false} LosesOnceIff(s: Launcher, turns: seq<seq<Item>>, db: Oid)
    requires Consistent(s)
    ensures var last := Turns(s, turns);
            turns != [] ==>
              (CleanTurns(s, turns, db) && !(db in last.terminated && Live(last, db))
               <==> LosesOnce(Live(s, db), turns, db))
    decreases |turns|
  {
    hide Consistent, HandleItems, WaitAll, MapsSound, Clean, Live;
    if turns != [] {
      TurnKeeps(s, turns[0]);
      WaitAllSame(s, db);
      CleanIff(WaitAll(s), turns[0], db);
      LosesOnceIff(HandleItems(WaitAll(s), turns[0]), turns[1..], db);
    }
  }

  lemma {:induction false} LaunchLive(s: Launcher, startups: seq<Startup>, db: Oid)
    requires s.terminated == map[] && s.replaced == multiset{}
    ensures var s' := StartAll(s, startups);
            && (Live(s', db) <==> Live(s, db) || StartedAtLaunch(startups, db))
            && s'.terminated == map[] && s'.replaced == multiset{}
    decreases |startups|
  {
    if startups != [] {
      LaunchLive(Start(s, startups[0].oid, startups[0].dbName), startups[1..], db);
    }
  }

  /** `LosesOnce` over a whole run of the launcher. */
  predicate NeverLosesTwice(startups: seq<Startup>, turns: seq<seq<Item>>, db: Oid) {
    LosesOnce(StartedAtLaunch(startups, db), turns, db)
  }

  /** All workers of the database that were terminated were waited for. */
  ghost predicate AllWaited(s: Launcher, db: Oid) {
    forall e: WorkerEntry :: e.oid == db ==> s.waited[e] == s.stopped[e]
  }

  /**
    Over a whole run of the launcher, all terminated workers of a database are waited for if and
    only if no message, and not the final shutdown either, ends its worker while an earlier one is
    still to be waited for.
   */
  lemma AllWaitedIffClean(startups: seq<Startup>, turns: seq<seq<Item>>, db: Oid)
    requires NoRepeat(startups, {})
    ensures var launched := StartAll(INITIAL, startups);
            var last := Turns(launched, turns);
            (AllWaited(LauncherMain(startups, turns), db)
             <==> CleanTurns(launched, turns, db) && !(db in last.terminated && Live(last, db)))
  {
    hide Consistent, Turns, StartAll, NoneReplaced, CleanTurns, ShutdownAll, Live, AllWaited, MapsSound;
    var launched := StartAll(INITIAL, startups);
    var last := Turns(launched, turns);
    LaunchConsistentIff(startups);
    LaunchLive(INITIAL, startups, db);
    NothingReplacedYet(launched, db);
    TurnsReplaceIff(launched, turns, db);
    TurnKeeps(last, []);
    ShutdownAllReplacesIff(last, db);
    WaitedIffNotReplaced(startups, turns, db);
  }

  lemma NothingReplacedYet(s: Launcher, db: Oid)
    requires s.replaced == multiset{}
    ensures NoneReplaced(s, db)
  {
  }

  lemma WaitedIffNotReplaced(startups: seq<Startup>, turns: seq<seq<Item>>, db: Oid)
    requires NoRepeat(startups, {})
    ensures AllWaited(LauncherMain(startups, turns), db)
       <==> NoneReplaced(ShutdownAll(Turns(StartAll(INITIAL, startups), turns)), db)
  {
    hide ShutdownAll, Turns, StartAll, Succeeds;
    var s := LauncherMain(startups, turns);
    forall e ensures s.waited[e] + s.replaced[e] == s.stopped[e] {
      ShutdownCoversEveryone(startups, turns, e);
    }
    assert s.replaced == ShutdownAll(Turns(StartAll(INITIAL, startups), turns)).replaced;
  }

  /**
    Told by the messages alone: all terminated workers of a database are waited for if and only if
    in every turn it loses its worker at most once, a loss at the final shutdown counting with the
    last turn.
   */
  lemma AllWaitedIffLosesOnce(startups: seq<Startup>, turns: seq<seq<Item>>, db: Oid)
    requires NoRepeat(startups, {})
    ensures AllWaited(LauncherMain(startups, turns), db) <==> NeverLosesTwice(startups, turns, db)
  {
    hide Consistent, StartAll, CleanTurns, AllWaited, LosesOnce, Live, LauncherMain;
    var launched := StartAll(INITIAL, startups);
    AllWaitedIffClean(startups, turns, db);
    LaunchConsistentIff(startups);
    LaunchLive(INITIAL, startups, db);
    NoneLiveAtFirst(db);
    LosesOnceIff(launched, turns, db);
    if turns == [] {
      NoTurns(launched, db);
    }
  }

  lemma NoneLiveAtFirst(db: Oid)
    ensures !Live(INITIAL, db)
  {
  }

  lemma NoTurns(s: Launcher, db: Oid)
    ensures CleanTurns(s, [], db) && Turns(s, []) == s && forall live :: LosesOnce(live, [], db)
  {
  }

  /** No one at all goes unwaited if and only if that holds of every database. */
  lemma NobodyUnwaitedIff(startups: seq<Startup>, turns: seq<seq<Item>>)
    requires NoRepeat(startups, {})
    ensures LauncherMain(startups, turns).waited == LauncherMain(startups, turns).stopped
       <==> forall db: Oid :: NeverLosesTwice(startups, turns, db)
  {
    hide LauncherMain, NeverLosesTwice;
    var s := LauncherMain(startups, turns);
    forall db: Oid ensures AllWaited(s, db) <==> NeverLosesTwice(startups, turns, db) {
      AllWaitedIffLosesOnce(startups, turns, db);
    }
    WaitedEverywhere(s);
  }

  lemma WaitedEverywhere(s: Launcher)
    ensures s.waited == s.stopped <==> forall db: Oid :: AllWaited(s, db)
  {
    if forall db: Oid :: AllWaited(s, db) {
      forall e: WorkerEntry ensures s.waited[e] == s.stopped[e] {
        assert AllWaited(s, e.oid);
      }
    }
  }
}
