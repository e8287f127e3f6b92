/** `src/bgw/launcher/mod.rs`: what a drain makes of the records it takes off the bus. */
module LauncherDrain {
  import opened Bytes
  import opened Messages
  import opened LauncherState
  import opened LauncherLifecycle
  import opened LauncherRouting
  import opened LauncherWaits
  import opened Commands

  /** The records of `q` as the launcher reads them; the world's answers are numbered from `k` on. */
  function Items(q: seq<seq<byte>>, decode: Decoder, env: nat -> Env, k: nat): (items: seq<Item>)
    ensures |items| == |q|
    decreases |q|
  {
    if q == [] then [] else [Item(decode(q[0]), env(k))] + Items(q[1..], decode, env, k + 1)
  }

  /** `items` are the records of `q`, each decoded, and each with the answers of its place. */
  ghost predicate ReadsAs(items: seq<Item>, q: seq<seq<byte>>, decode: Decoder, env: nat -> Env) {
    |items| == |q| && forall i: nat :: i < |q| ==> items[i] == Item(decode(q[i]), env(i))
  }

  lemma {:induction false} ItemAt(q: seq<seq<byte>>, decode: Decoder, env: nat -> Env, k: nat, i: nat)
    requires i < |q|
    ensures Items(q, decode, env, k)[i] == Item(decode(q[i]), env(k + i))
    decreases |q|
  {
    if i > 0 {
      ItemAt(q[1..], decode, env, k + 1, i - 1);
    }
  }

  lemma ItemsReadAs(q: seq<seq<byte>>, decode: Decoder, env: nat -> Env)
    ensures ReadsAs(Items(q, decode, env, 0), q, decode, env)
  {
    forall i: nat | i < |q| ensures Items(q, decode, env, 0)[i] == Item(decode(q[i]), env(i)) {
      ItemAt(q, decode, env, 0, i);
    }
  }

  /** What one record is for the queue of the database's worker, if the send succeeds. */
  function PassedOn(record: seq<byte>, decode: Decoder, oid: Oid, ok: bool): seq<SubscriberMessage> {
    if decode(record).Some? && decode(record).value.dbOid == oid && ok then
      match decode(record).value
      case LauncherNewConfig(_, config) => [NewConfig(config)]
      case LauncherSubscribe(_, subject, fnName) => [Subscribe(subject, fnName)]
      case LauncherUnsubscribe(_, subject, fnName) => [Unsubscribe(subject, fnName)]
      case _ => []
    else []
  }

  /** The same of all records of `q`, in order. */
  function AllPassedOn(q: seq<seq<byte>>, decode: Decoder, oid: Oid, env: nat -> Env, k: nat): seq<SubscriberMessage>
    decreases |q|
  {
    if q == [] then [] else PassedOn(q[0], decode, oid, env(k).sendOk) + AllPassedOn(q[1..], decode, oid, env, k + 1)
  }

  /** No record ends the database's worker. */
  ghost predicate KeepsWorker(q: seq<seq<byte>>, decode: Decoder, oid: Oid) {
    forall r :: r in q && decode(r).Some? && decode(r).value.dbOid == oid ==> !EndsWorker(decode(r).value)
  }

  lemma WorkerStays(s: Launcher, m: LauncherMessage, answers: Env, e: WorkerEntry)
    requires Holds(s.workers, e) && e.oid !in s.pending && (m.dbOid == e.oid ==> !EndsWorker(m))
    ensures Holds(Handle(s, m, answers).workers, e)
  {
    hide Send;
    SendKeepsWorkers(s);
  }

  lemma SendKeepsWorkers(s: Launcher)
    ensures forall oid, msg, ok :: Send(s, oid, msg, ok).workers == s.workers
  {
  }

  lemma ItemKeepsWorker(s: Launcher, item: Item, e: WorkerEntry)
    requires Consistent(s) && Holds(s.workers, e)
    requires item.m.Some? && item.m.value.dbOid == e.oid ==> !EndsWorker(item.m.value)
    ensures e in s.started && Holds(HandleItem(s, item).workers, e)
  {
    RunningWasStarted(s, e);
    hide Handle;
    if item.m.Some? {
      WorkerStays(s, item.m.value, item.env, e);
    }
  }

  lemma RoutedIsPassedOn(s: Launcher, record: seq<byte>, decode: Decoder, answers: Env, e: WorkerEntry)
    requires Holds(s.workers, e)
    ensures Routed(s, Item(decode(record), answers), e) == PassedOn(record, decode, e.oid, answers.sendOk)
  {
  }

  /** A worker that was terminated never comes back. */
  lemma {:induction false} EndedStaysEnded(s: Launcher, items: seq<Item>, e: WorkerEntry)
    requires Consistent(s) && s.stopped[e] > 0
    ensures !Holds(HandleItems(s, items).workers, e)
    decreases |items|
  {
    hide Consistent, HandleItem;
    if items == [] {
      assert !Holds(s.workers, e) by {
        if Holds(s.workers, e) {
          RunningWasStarted(s, e);
        }
      }
    } else {
      ItemKeeps(s, items[0]);
      StoppedGrows(s, items[0], e);
      EndedStaysEnded(HandleItem(s, items[0]), items[1..], e);
    }
  }

  lemma StoppedGrows(s: Launcher, item: Item, e: WorkerEntry)
    ensures s.stopped[e] <= HandleItem(s, item).stopped[e]
  {
    hide Register, Shutdown, Send, Start;
    if item.m.Some? {
      OnlyShutdownStops(s, item.m.value.dbOid, item.env.dbName, e);
    }
  }

  lemma OnlyShutdownStops(s: Launcher, oid: Oid, dbName: Option<string>, e: WorkerEntry)
    ensures s.stopped[e] <= Shutdown(s, oid).stopped[e]
    ensures Register(s, oid).stopped == s.stopped && Start(s, oid, dbName).stopped == s.stopped
    ensures forall msg, ok :: Send(s, oid, msg, ok).stopped == s.stopped
  {
  }

  lemma EndsNow(s: Launcher, item: Item, e: WorkerEntry)
    requires Holds(s.workers, e) && item.m.Some? && item.m.value.dbOid == e.oid && EndsWorker(item.m.value)
    ensures HandleItem(s, item).stopped[e] > 0
  {
  }

  /**
    A registered worker stays exactly when no record ends it, and then its queue grows by what the
    records are for it.
   */
  lemma {:induction false} QueueGrows(s: Launcher, q: seq<seq<byte>>, decode: Decoder, env: nat -> Env, k: nat,
                                      e: WorkerEntry)
    requires Consistent(s) && Holds(s.workers, e)
    ensures var s' := HandleItems(s, Items(q, decode, env, k));
            && (Holds(s'.workers, e) <==> KeepsWorker(q, decode, e.oid))
            && (KeepsWorker(q, decode, e.oid) ==>
                  Queue(s', e.id) == Queue(s, e.id) + AllPassedOn(q, decode, e.oid, env, k))
    decreases |q|
  {
    hide Consistent, HandleItem, Holds, PassedOn, Routed, KeepsWorker, EndsWorker, Queue;
    KeepsFirst(q, decode, e.oid);
    if q != [] {
      var item := Item(decode(q[0]), env(k));
      var s' := HandleItem(s, item);
      assert Items(q, decode, env, k)[1..] == Items(q[1..], decode, env, k + 1);
      RegisteredWasStarted(s, e);
      HandleItemKeeps(s, item, e);
      if item.m.Some? && item.m.value.dbOid == e.oid && EndsWorker(item.m.value) {
        EndsNow(s, item, e);
        EndedStaysEnded(s', Items(q[1..], decode, env, k + 1), e);
      } else {
        ItemKeepsWorker(s, item, e);
        RoutedIsPassedOn(s, q[0], decode, env(k), e);
        HandleRoutes(s, item, e);
        QueueGrows(s', q[1..], decode, env, k + 1, e);
        Regroup(Queue(s, e.id), PassedOn(q[0], decode, e.oid, env(k).sendOk),
                AllPassedOn(q[1..], decode, e.oid, env, k + 1));
      }
    }
  }

  lemma RegisteredWasStarted(s: Launcher, e: WorkerEntry)
    requires Consistent(s) && Holds(s.workers, e)
    ensures e in s.started
  {
    RunningWasStarted(s, e);
  }

  lemma KeepsFirst(q: seq<seq<byte>>, decode: Decoder, oid: Oid)
    ensures KeepsWorker(q, decode, oid) <==>
              q == [] || (!(decode(q[0]).Some? && decode(q[0]).value.dbOid == oid && EndsWorker(decode(q[0]).value))
                          && KeepsWorker(q[1..], decode, oid))
  {
    if q != [] {
      assert q[0] in q;
      assert forall r :: r in q <==> r == q[0] || r in q[1..];
    }
  }

  lemma Regroup<T>(a: seq<T>, b: seq<T>, c: seq<T>)
    ensures (a + b) + c == a + (b + c)
  {
  }

  /** Its commands are those of the records. */
  lemma {:induction false} PassedOnCommands(q: seq<seq<byte>>, decode: Decoder, oid: Oid, env: nat -> Env, k: nat)
    requires forall i :: env(i).sendOk
    ensures OnQueue(AllPassedOn(q, decode, oid, env, k)) == OnBus(q, decode, oid)
    decreases |q|
  {
    if q != [] {
      var passed := PassedOn(q[0], decode, oid, true);
      PassedOnCommands(q[1..], decode, oid, env, k + 1);
      OnQueueConcat(passed, AllPassedOn(q[1..], decode, oid, env, k + 1));
      if passed != [] {
        assert passed[1..] == [];
      }
    }
  }

  /** What a drain that handled `q` did to every registered worker: whether it stays, and what its queue grew by. */
  ghost predicate Routes(s: Launcher, s': Launcher, q: seq<seq<byte>>, decode: Decoder, env: nat -> Env) {
    forall e: WorkerEntry {:trigger Holds(s.workers, e)} :: Holds(s.workers, e) ==>
      && (Holds(s'.workers, e) <==> KeepsWorker(q, decode, e.oid))
      && (KeepsWorker(q, decode, e.oid) ==>
            && Queue(s', e.id) == Queue(s, e.id) + AllPassedOn(q, decode, e.oid, env, 0)
            && ((forall i :: env(i).sendOk) ==>
                  OnQueue(Queue(s', e.id)) == OnQueue(Queue(s, e.id)) + OnBus(q, decode, e.oid)))
  }

  lemma DrainRoutes(s: Launcher, q: seq<seq<byte>>, decode: Decoder, env: nat -> Env)
    requires Consistent(s)
    ensures Routes(s, HandleItems(s, Items(q, decode, env, 0)), q, decode, env)
  {
    hide Consistent, HandleItems, Items, KeepsWorker;
    var s' := HandleItems(s, Items(q, decode, env, 0));
    forall e: WorkerEntry | Holds(s.workers, e)
      ensures Holds(s'.workers, e) <==> KeepsWorker(q, decode, e.oid)
      ensures KeepsWorker(q, decode, e.oid) ==>
                && Queue(s', e.id) == Queue(s, e.id) + AllPassedOn(q, decode, e.oid, env, 0)
                && ((forall i :: env(i).sendOk) ==>
                      OnQueue(Queue(s', e.id)) == OnQueue(Queue(s, e.id)) + OnBus(q, decode, e.oid))
    {
      QueueGrows(s, q, decode, env, 0, e);
      if forall i :: env(i).sendOk {
        PassedOnCommands(q, decode, e.oid, env, 0);
        OnQueueConcat(Queue(s, e.id), AllPassedOn(q, decode, e.oid, env, 0));
      }
    }
  }
}
