/** `src/bgw/launcher/context.rs`: the launcher's maps, updated in place. */
module LauncherContext {
  import opened Bytes
  import opened Messages
  import opened LauncherState

  class LauncherContext {
    var pendingWorkers: Workers
    var workers: Workers
    var terminatedWorkers: Workers
    var counter: nat

    // The far ends of the senders: what was put on each worker's queue.
    var queues: map<nat, seq<SubscriberMessage>>

    ghost var started: set<WorkerEntry>
    ghost var stopped: multiset<WorkerEntry>
    ghost var waited: multiset<WorkerEntry>
    ghost var replaced: multiset<WorkerEntry>

    ghost function State(): Launcher
      reads this
    {
      Launcher(pendingWorkers, workers, terminatedWorkers, counter, started, stopped, waited, replaced, queues)
    }

    constructor ()
      ensures State() == INITIAL
    {
      pendingWorkers, workers, terminatedWorkers, counter, queues := map[], map[], map[], 0, map[];
      started, stopped, waited, replaced := {}, multiset{}, multiset{}, multiset{};
    }

    method ProcessTerminatedWorkers()
      requires KeyedByOid(terminatedWorkers)
      modifies `terminatedWorkers, `waited
      ensures State() == WaitAll(old(State()))
    {
      var drained := terminatedWorkers;
      terminatedWorkers := map[];
      ghost var calls := WaitForShutdown(drained);
      waited := waited + calls;
    }

    /** Waits for each entry of a map, in any order; `calls` are the entries waited for. */
    method WaitForShutdown(entries: Workers) returns (ghost calls: multiset<WorkerEntry>)
      requires KeyedByOid(entries)
      ensures calls == multiset(entries.Values)
    {
      hide Split, KeyedByOid;
      var rest := entries;
      ghost var done: Workers := map[];
      calls := multiset{};
      SplitStart(entries);
      while rest != map[]
        invariant calls == multiset(done.Values)
        invariant Split(entries, done, rest)
        decreases rest.Keys
      {
        var oid :| oid in rest;
        MoveOne(entries, done, rest, oid);
        calls := calls + multiset{rest[oid]};
        done := done[oid := rest[oid]];
        rest := rest - {oid};
      }
      SplitEnd(entries, done);
    }

    method RegisterWorker(dbOid: Oid)
      modifies this
      ensures State() == Register(old(State()), dbOid)
    {
      if dbOid in pendingWorkers {
        var worker := pendingWorkers[dbOid];
        pendingWorkers := pendingWorkers - {dbOid};
        workers := workers[dbOid := worker];
      }
    }

    /** `Ok(Some(name))`, `Ok(None)` and `Err` are told apart by `failed` and `dbName`. */
    method HandleNewConfigMessage(dbOid: Oid, config: Config, env: Env) returns (failed: bool, dbName: Option<string>)
      modifies this
      ensures State() == Handle(old(State()), LauncherNewConfig(dbOid, config), env)
      ensures failed <==>
                if dbOid in old(workers) then !env.sendOk else dbOid !in old(pendingWorkers) && env.dbName.None?
      ensures dbName == if dbOid in old(workers) || dbOid in old(pendingWorkers) then None else env.dbName
    {
      dbName := None;
      if dbOid in workers {
        var ok := SendSubscriberMessage(workers[dbOid], NewConfig(config), env.sendOk);
        failed := !ok;
      } else if dbOid !in pendingWorkers {
        dbName := StartSubscribeWorker(dbOid, env.dbName);
        failed := dbName.None?;
      } else {
        failed := false;
      }
    }

    method HandleSubscribeMessage(dbOid: Oid, subject: string, fnName: string, env: Env) returns (failed: bool)
      modifies this
      ensures State() == Send(old(State()), dbOid, Subscribe(subject, fnName), env.sendOk)
      ensures failed <==> dbOid in old(workers) && !env.sendOk
    {
      failed := false;
      if dbOid in workers {
        var ok := SendSubscriberMessage(workers[dbOid], Subscribe(subject, fnName), env.sendOk);
        failed := !ok;
      }
    }

    method HandleUnsubscribeMessage(dbOid: Oid, subject: string, fnName: string, env: Env) returns (failed: bool)
      modifies this
      ensures State() == Send(old(State()), dbOid, Unsubscribe(subject, fnName), env.sendOk)
      ensures failed <==> dbOid in old(workers) && !env.sendOk
    {
      failed := false;
      if dbOid in workers {
        var ok := SendSubscriberMessage(workers[dbOid], Unsubscribe(subject, fnName), env.sendOk);
        failed := !ok;
      }
    }

    method StartSubscribeWorker(oid: Oid, outcome: Option<string>) returns (dbName: Option<string>)
      modifies this
      ensures State() == Start(old(State()), oid, outcome)
      ensures dbName == outcome
    {
      if outcome.None? {
        return None;
      }
      var entry := WorkerEntry(counter, oid, outcome.value);
      started := started + {entry};
      counter := counter + 1;
      pendingWorkers := pendingWorkers[oid := entry];
      return Some(entry.dbName);
    }

    method ShutdownWorker(dbOid: Oid)
      modifies this
      ensures State() == Shutdown(old(State()), dbOid)
    {
      if dbOid in workers {
        var entry := workers[dbOid];
        workers := workers - {dbOid};
        ShutdownWorkerEntry(entry);
      } else if dbOid in pendingWorkers {
        var entry := pendingWorkers[dbOid];
        pendingWorkers := pendingWorkers - {dbOid};
        ShutdownWorkerEntry(entry);
      }
    }

    method ShutdownAllWorkers()
      requires KeyedByOid(workers) && KeyedByOid(pendingWorkers) && KeyedByOid(terminatedWorkers)
      modifies this
      ensures State() == ShutdownAll(old(State()))
    {
      var taken := workers;
      workers := map[];
      ShutdownEntries(taken);
      taken := pendingWorkers;
      pendingWorkers := map[];
      ShutdownEntries(taken);
    }

    /** Takes the entries of a map in any order. */
    method ShutdownEntries(entries: Workers)
      requires KeyedByOid(entries) && KeyedByOid(terminatedWorkers)
      modifies this
      ensures State() == TerminateAll(old(State()), entries)
      ensures KeyedByOid(terminatedWorkers)
    {
      hide Split, KeyedByOid, TerminateAll, Terminate;
      var rest := entries;
      ghost var done: Workers := map[];
      SplitStart(rest);
      TerminateNone(State());
      while rest != map[]
        invariant State() == TerminateAll(old(State()), done)
        invariant Split(entries, done, rest)
        decreases rest.Keys
      {
        var oid :| oid in rest;
        MoveOne(entries, done, rest, oid);
        TerminateOneMore(old(State()), done, rest[oid]);
        ShutdownWorkerEntry(rest[oid]);
        done := done[oid := rest[oid]];
        rest := rest - {oid};
      }
      SplitEnd(entries, done);
      TerminateKeepsKeys(old(State()), entries);
    }

    method ShutdownWorkerEntry(entry: WorkerEntry)
      modifies this
      ensures State() == Terminate(old(State()), entry)
    {
      stopped := stopped + multiset{entry};
      if entry.oid in terminatedWorkers {
        replaced := replaced + multiset{terminatedWorkers[entry.oid]};
      }
      terminatedWorkers := terminatedWorkers[entry.oid := entry];
    }

    method SendSubscriberMessage(entry: WorkerEntry, msg: SubscriberMessage, sendOk: bool) returns (ok: bool)
      modifies `queues
      ensures ok == sendOk
      ensures queues == if ok then old(queues)[entry.id := Queue(old(State()), entry.id) + [msg]] else old(queues)
    {
      ok := sendOk;
      if ok {
        queues := queues[entry.id := (if entry.id in queues then queues[entry.id] else []) + [msg]];
      }
    }
  }

  /** A map being emptied: `done` has been taken out of `all`, `rest` is still to be taken. */
  ghost predicate Split(all: Workers, done: Workers, rest: Workers) {
    KeyedByOid(done) && KeyedByOid(rest) && done.Keys !! rest.Keys && all == done + rest
  }

  lemma SplitStart(all: Workers)
    requires KeyedByOid(all)
    ensures Split(all, map[], all)
  {
  }

  lemma SplitEnd(all: Workers, done: Workers)
    requires Split(all, done, map[])
    ensures all == done
  {
  }

  lemma TerminateKeepsKeys(s: Launcher, ws: Workers)
    requires KeyedByOid(s.terminated) && KeyedByOid(ws)
    ensures KeyedByOid(TerminateAll(s, ws).terminated)
  {
  }

  lemma MoveOne(all: Workers, done: Workers, rest: Workers, oid: Oid)
    requires Split(all, done, rest) && oid in rest
    ensures Split(all, done[oid := rest[oid]], rest - {oid})
    ensures multiset(done[oid := rest[oid]].Values) == multiset(done.Values) + multiset{rest[oid]}
    ensures KeyedByOid(done) && oid !in done && rest[oid].oid == oid
  {
  }

  lemma ValuesGrow(m: Workers, e: WorkerEntry)
    requires KeyedByOid(m) && e.oid !in m
    ensures multiset(m[e.oid := e].Values) == multiset(m.Values) + multiset{e}
  {
    var m' := m[e.oid := e];
    forall v | v in m.Values + {e} ensures v in m'.Values {
      if v in m.Values {
        var k :| k in m && m[k] == v;
        assert m'[k] == v;
      } else {
        assert m'[e.oid] == v;
      }
    }
    assert m'.Values == m.Values + {e};
    assert e !in m.Values;
  }

  lemma TerminateNone(s: Launcher)
    ensures TerminateAll(s, map[]) == s
  {
  }

  lemma TerminateOneMore(s: Launcher, done: Workers, e: WorkerEntry)
    requires KeyedByOid(done) && KeyedByOid(s.terminated) && e.oid !in done
    ensures Terminate(TerminateAll(s, done), e) == TerminateAll(s, done[e.oid := e])
  {
    hide KeyedByOid, Overwritten;
    StoppedOneMore(s.stopped, done, e);
    ReplacedOneMore(s.replaced, s.terminated, done, e);
    TerminatedOneMore(s.terminated, done, e);
  }

  lemma TerminatedOneMore(t: Workers, done: Workers, e: WorkerEntry)
    requires e.oid !in done
    ensures (t + done)[e.oid := e] == t + done[e.oid := e]
  {
  }

  lemma StoppedOneMore(stopped: multiset<WorkerEntry>, done: Workers, e: WorkerEntry)
    requires KeyedByOid(done) && e.oid !in done
    ensures stopped + multiset(done.Values) + multiset{e} == stopped + multiset(done[e.oid := e].Values)
  {
    ValuesGrow(done, e);
  }

  lemma ReplacedOneMore(replaced: multiset<WorkerEntry>, t: Workers, done: Workers, e: WorkerEntry)
    requires KeyedByOid(t) && e.oid !in done
    ensures var was := replaced + multiset(Overwritten(t, done));
            var now := replaced + multiset(Overwritten(t, done[e.oid := e]));
            now == if e.oid in t + done then was + multiset{(t + done)[e.oid]} else was
  {
  }
}
