/** `src/bgw/subscriber/nats.rs`: the connection of one subscriber and its tasks. */
module NatsConnection {
  import opened Messages
  import opened Bytes
  import opened SubscriptionIndex

  /** A connection; its options are remembered to say what it was opened with. */
  datatype Client = Client(id: nat, opts: NatsConnectionOptions)

  /** A task listening to one subject over one connection. Its handle is its place in `spawned`. */
  datatype Task = Task(client: Client, subject: string)

  datatype NatsSubscription = NatsSubscription(handler: nat, funcs: set<string>)

  type Subscriptions = map<string, NatsSubscription>

  function IndexOf(subs: Subscriptions): Index {
    map s | s in subs :: subs[s].funcs
  }

  /** Every subject has its own task on `client`, not aborted. */
  ghost predicate Served(subs: Subscriptions, client: Client, spawned: seq<Task>, aborted: set<nat>) {
    forall s :: s in subs ==>
      && subs[s].handler < |spawned|
      && subs[s].handler !in aborted
      && spawned[subs[s].handler] == Task(client, s)
  }

  /** Every task not aborted belongs to a subject. */
  ghost predicate Owned(subs: Subscriptions, spawned: seq<Task>, aborted: set<nat>) {
    forall t :: 0 <= t < |spawned| && t !in aborted ==>
      spawned[t].subject in subs && subs[spawned[t].subject].handler == t
  }

  /** A subject listened to before and after is so by the same task. */
  ghost predicate SameTasks(before: Subscriptions, after: Subscriptions) {
    forall s :: s in before && s in after ==> before[s].handler == after[s].handler
  }

  ghost predicate AllSpawned(handles: set<nat>, n: nat) {
    forall t :: t in handles ==> t < n
  }

  class NatsConnectionState {
    var client: Client
    var subscriptions: Subscriptions

    // The runtime's side: all tasks spawned so far and the handles aborted.
    var spawned: seq<Task>
    var aborted: set<nat>

    // The database's side: all calls of callback functions so far.
    ghost var called: multiset<Call>

    ghost function Index(): Index
      reads this
    {
      IndexOf(subscriptions)
    }

    /** Tasks not aborted and subjects in the map correspond one to one, all on the present client. */
    ghost predicate Valid()
      reads this
    {
      && Served(subscriptions, client, spawned, aborted)
      && Owned(subscriptions, spawned, aborted)
      && AllSpawned(aborted, |spawned|)
    }

    constructor (client: Client)
      ensures Valid()
      ensures this.client == client && subscriptions == map[] && Index() == map[] && called == multiset{}
    {
      this.client := client;
      subscriptions := map[];
      spawned, aborted, called := [], {}, multiset{};
    }

    method SpawnSubscriptionTask(client: Client, subject: string) returns (handler: nat)
      modifies `spawned
      ensures handler == old(|spawned|)
      ensures spawned == old(spawned) + [Task(client, subject)]
    {
      handler := |spawned|;
      spawned := spawned + [Task(client, subject)];
    }

    method Subscribe(subject: string, fnName: string)
      requires Valid()
      modifies this
      ensures Valid() && client == old(client)
      ensures Index() == Add(old(Index()), subject, fnName) && SameTasks(old(subscriptions), subscriptions)
      ensures old(spawned) <= spawned
      ensures |spawned| == old(|spawned|) + if subject in old(subscriptions) then 0 else 1
      ensures aborted == old(aborted) && called == old(called)
    {
      if subject in subscriptions {
        var sub := subscriptions[subject];
        subscriptions := subscriptions[subject := sub.(funcs := sub.funcs + {fnName})];
      } else {
        var handler := SpawnSubscriptionTask(client, subject);
        subscriptions := subscriptions[subject := NatsSubscription(handler, {fnName})];
      }
    }

    method Unsubscribe(subject: string, fnName: string)
      requires Valid()
      modifies this
      ensures Valid() && client == old(client) && spawned == old(spawned) && called == old(called)
      ensures Index() == Remove(old(Index()), subject, fnName) && SameTasks(old(subscriptions), subscriptions)
    {
      if subject in subscriptions {
        var sub := subscriptions[subject];
        sub := sub.(funcs := sub.funcs - {fnName});
        if sub.funcs == {} {
          subscriptions := subscriptions - {subject};
          aborted := aborted + {sub.handler};
        } else {
          subscriptions := subscriptions[subject := sub];
        }
      }
    }

    method UnsubscribeSubject(subject: string)
      requires Valid()
      modifies this
      ensures Valid() && client == old(client) && spawned == old(spawned) && called == old(called)
      ensures Index() == RemoveSubject(old(Index()), subject) && SameTasks(old(subscriptions), subscriptions)
    {
      if subject in subscriptions {
        var sub := subscriptions[subject];
        subscriptions := subscriptions - {subject};
        aborted := aborted + {sub.handler};
      }
    }

    /** Takes the map away and aborts every task that was left. */
    method UnsubscribeAll() returns (subs: Subscriptions)
      requires Valid()
      modifies this
      ensures Valid() && client == old(client) && spawned == old(spawned) && called == old(called)
      ensures subscriptions == map[] && subs == old(subscriptions)
      ensures forall t: nat :: t < |spawned| ==> t in aborted
    {
      subs := subscriptions;
      subscriptions := map[];
      var rest := subs;
      while rest != map[]
        invariant forall s :: s in rest ==> s in subs && rest[s] == subs[s]
        invariant forall s :: s in subs ==> s in rest || subs[s].handler in aborted
        invariant old(aborted) <= aborted && AllSpawned(aborted, |spawned|)
        invariant subscriptions == map[] && client == old(client) && spawned == old(spawned) && called == old(called)
        decreases rest.Keys
      {
        var subject :| subject in rest;
        aborted := aborted + {rest[subject].handler};
        rest := rest - {subject};
      }
      forall t: nat | t < |spawned| ensures t in aborted {
        if t !in old(aborted) {
          assert spawned[t].subject in subs;
        }
      }
    }

    /**
      Calls every function of the subject once with the data, in any order, and keeps those that do
      not answer NotFound.
     */
    method RunCallbacks(subject: string, data: seq<byte>, answer: string -> CallResult)
      requires Valid()
      modifies this
      ensures Valid() && client == old(client) && spawned == old(spawned) && aborted == old(aborted)
      ensures Index() == Retain(old(Index()), subject, answer) && SameTasks(old(subscriptions), subscriptions)
      ensures called == old(called) + CallsOf(old(Index()), subject, data)
    {
      hide CallsTo;
      if subject in subscriptions {
        var sub := subscriptions[subject];
        var kept := CallEach(sub.funcs, data, answer);
        subscriptions := subscriptions[subject := sub.(funcs := kept)];
      }
    }

    /** `funcs.retain(..)`, in any order. */
    method CallEach(funcs: set<string>, data: seq<byte>, answer: string -> CallResult) returns (kept: set<string>)
      modifies `called
      ensures kept == set f | f in funcs && answer(f) != NotFound
      ensures called == old(called) + CallsTo(funcs, data)
    {
      hide CallsTo;
      var rest := funcs;
      kept := {};
      NoCalls(data);
      assert funcs - rest == {};
      while rest != {}
        invariant rest <= funcs
        invariant kept == set f | f in funcs - rest && answer(f) != NotFound
        invariant called == old(called) + CallsTo(funcs - rest, data)
      {
        var fnName :| fnName in rest;
        CallsToOneMore(funcs - rest, fnName, data);
        called := called + multiset{Call(fnName, data)};
        assert funcs - (rest - {fnName}) == (funcs - rest) + {fnName};
        rest := rest - {fnName};
        if answer(fnName) != NotFound {
          kept := kept + {fnName};
        }
      }
      assert funcs - rest == funcs;
    }

    /**
      `connected` is the new client, or `None` when connecting fails, which changes nothing. On
      success every old task is aborted and every subject gets one new task on the new client.
     */
    method ReconnectNats(config: NatsConnectionOptions, connected: Option<Client>) returns (ok: bool)
      requires Valid()
      requires connected.Some? ==> connected.value.opts == config
      modifies this
      ensures Valid()
      ensures ok == connected.Some?
      ensures Index() == old(Index()) && called == old(called)
      ensures !ok ==> client == old(client) && subscriptions == old(subscriptions)
                      && spawned == old(spawned) && aborted == old(aborted)
      ensures ok ==> client == connected.value
      ensures ok ==> |spawned| == old(|spawned|) + |old(subscriptions)|
      ensures ok ==> forall t: nat :: t < old(|spawned|) ==> t in aborted
      ensures ok ==> forall t: nat :: old(|spawned|) <= t < |spawned| ==> t !in aborted && spawned[t].client == client
    {
      if connected.None? {
        return false;
      }
      var subs := UnsubscribeAll();
      subscriptions := Respawn(connected.value, subs);
      client := connected.value;
      return true;
    }

    /** One new task on `client` for each subject of `subs`, in any order. */
    method Respawn(client: Client, subs: Subscriptions) returns (moved: Subscriptions)
      requires AllSpawned(aborted, |spawned|)
      requires forall t: nat :: t < |spawned| ==> t in aborted
      modifies `spawned
      ensures IndexOf(moved) == IndexOf(subs)
      ensures |spawned| == old(|spawned|) + |subs|
      ensures Served(moved, client, spawned, aborted) && Owned(moved, spawned, aborted)
      ensures forall t: nat :: old(|spawned|) <= t < |spawned| ==> t !in aborted && spawned[t].client == client
    {
      hide Moving, Served, Owned;
      var rest := subs;
      moved := map[];
      MovingStart(subs, client, spawned, aborted);
      while rest != map[]
        invariant Moving(subs, moved, rest)
        invariant |spawned| == old(|spawned|) + |moved|
        invariant Served(moved, client, spawned, aborted) && Owned(moved, spawned, aborted)
        invariant forall t: nat :: old(|spawned|) <= t < |spawned| ==> spawned[t].client == client
        decreases rest.Keys
      {
        var subject :| subject in rest;
        MoveOne(subs, moved, rest, subject, |spawned|);
        SpawnOne(moved, client, spawned, aborted, subject, rest[subject].funcs);
        var handler := SpawnSubscriptionTask(client, subject);
        moved := moved[subject := NatsSubscription(handler, rest[subject].funcs)];
        rest := rest - {subject};
      }
      MovingEnd(subs, moved);
    }

    /** Without subjects there is no task left listening. */
    lemma NoSubjectsNoTasks()
      requires Valid() && subscriptions == map[]
      ensures forall t: nat :: t < |spawned| ==> t in aborted
    {
    }
  }

  /** `moved` has the functions of `subs` for the subjects that `rest` no longer has. */
  ghost predicate Moving(subs: Subscriptions, moved: Subscriptions, rest: Subscriptions) {
    && moved.Keys !! rest.Keys && moved.Keys + rest.Keys == subs.Keys
    && |moved| + |rest| == |subs|
    && (forall s :: s in rest ==> rest[s] == subs[s])
    && (forall s :: s in moved ==> moved[s].funcs == subs[s].funcs)
  }

  lemma MovingStart(subs: Subscriptions, client: Client, spawned: seq<Task>, aborted: set<nat>)
    requires forall t: nat :: t < |spawned| ==> t in aborted
    ensures Moving(subs, map[], subs)
    ensures Served(map[], client, spawned, aborted) && Owned(map[], spawned, aborted)
  {
  }

  lemma MovingEnd(subs: Subscriptions, moved: Subscriptions)
    requires Moving(subs, moved, map[])
    ensures IndexOf(moved) == IndexOf(subs) && |moved| == |subs|
  {
  }

  lemma MoveOne(subs: Subscriptions, moved: Subscriptions, rest: Subscriptions, subject: string, handler: nat)
    requires Moving(subs, moved, rest) && subject in rest
    ensures subject !in moved
    ensures |moved[subject := NatsSubscription(handler, rest[subject].funcs)]| == |moved| + 1
    ensures Moving(subs, moved[subject := NatsSubscription(handler, rest[subject].funcs)], rest - {subject})
  {
    InsertSize(moved, subject, NatsSubscription(handler, rest[subject].funcs));
    RemoveSize(rest, subject);
  }

  lemma InsertSize<K, V>(m: map<K, V>, k: K, v: V)
    requires k !in m
    ensures |m[k := v]| == |m| + 1
  {
  }

  lemma RemoveSize<K, V>(m: map<K, V>, k: K)
    requires k in m
    ensures |m - {k}| == |m| - 1
  {
  }

  lemma SpawnOne(subs: Subscriptions, client: Client, spawned: seq<Task>, aborted: set<nat>,
                 subject: string, funcs: set<string>)
    requires Served(subs, client, spawned, aborted) && Owned(subs, spawned, aborted)
    requires AllSpawned(aborted, |spawned|) && subject !in subs
    ensures var subs' := subs[subject := NatsSubscription(|spawned|, funcs)];
            var spawned' := spawned + [Task(client, subject)];
            Served(subs', client, spawned', aborted) && Owned(subs', spawned', aborted)
  {
  }
}
