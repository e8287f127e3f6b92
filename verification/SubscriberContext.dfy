/** `src/bgw/subscriber/context.rs` and the loop of `mod.rs`: one subscriber, updated in place. */
module SubscriberContext {
  import opened Bytes
  import opened Messages
  import opened SubscriptionIndex
  import opened NatsConnection
  import opened SubscriberState
  import opened SubscriberRuns
  import opened SubscriberIteration
  import opened Commands

  class SubscriberContext {
    var channel: seq<InternalMessage>
    var config: Config
    const nats: NatsConnectionState
    var status: PgInstanceStatus

    // The database's own subscriptions table.
    var table: set<Pair>

    ghost predicate Valid()
      reads this, nats
    {
      nats.Valid()
    }

    ghost function State(): Subscriber
      reads this, nats
    {
      Subscriber(status, config, nats.client.opts, nats.Index(), table, channel, nats.called)
    }

    /** Connection and tasks: only losing mastership, new settings and the channel's messages touch them. */
    ghost function NatsFields(): (Client, Subscriptions, seq<Task>, set<nat>)
      reads nats
    {
      (nats.client, nats.subscriptions, nats.spawned, nats.aborted)
    }

    constructor (status: PgInstanceStatus, config: Config, client: Client, table: set<Pair>)
      requires client.opts == config.natsOpt
      ensures Valid() && fresh(nats)
      ensures State() == Subscriber(status, config, config.natsOpt, map[], table, [], multiset{})
    {
      this.status, this.config, this.table, channel := status, config, table, [];
      nats := new NatsConnectionState(client);
    }

    /** One message per row, in the order fetched. */
    method RestoreState(rows: Option<seq<Pair>>)
      requires Valid()
      modifies `channel
      ensures State() == SubscriberState.RestoreState(old(State()), rows)
    {
      if rows.None? {
        return;
      }
      for i := 0 to |rows.value|
        invariant channel == old(channel) + RowMessages(rows.value[..i])
      {
        channel := channel + [InternalSubscribe(false, rows.value[i].0, rows.value[i].1)];
        assert RowMessages(rows.value[..i + 1])
            == RowMessages(rows.value[..i]) + [InternalSubscribe(false, rows.value[i].0, rows.value[i].1)];
      }
      assert rows.value[..|rows.value|] == rows.value;
    }

    method CheckMigration(observed: PgInstanceStatus, rows: Option<seq<Pair>>)
      requires Valid()
      modifies this, nats
      ensures Valid()
      ensures State() == SubscriberState.CheckMigration(old(State()), observed, rows)
      ensures status == observed
      ensures !(old(status) == Master && observed == Replica) ==> NatsFields() == old(NatsFields())
    {
      match (status, observed)
      case (Master, Replica) =>
        status := Replica;
        var _ := nats.UnsubscribeAll();
      case (Replica, Master) =>
        status := Master;
        RestoreState(rows);
      case _ =>
    }

    /** `connected` is the client a connection with the new options gives, if it can be made. */
    method ApplyConfig(config: Config, connected: Option<Client>) returns (ok: bool)
      requires Valid()
      requires connected.Some? ==> connected.value.opts == config.natsOpt
      modifies this, nats
      ensures Valid()
      ensures State() == SubscriberState.ApplyConfig(old(State()), config, connected.Some?)
      ensures nats.Index() == old(nats.Index())
      ensures ok ==> this.config == config
      ensures !ok ==> State() == old(State()) && nats.spawned == old(nats.spawned) && nats.aborted == old(nats.aborted)
      ensures ok && old(this.config).natsOpt != config.natsOpt ==> nats.client == connected.value
      ensures old(this.config).natsOpt == config.natsOpt ==>
                NatsFields() == old(NatsFields())
      ensures ok <==> old(this.config).natsOpt == config.natsOpt || connected.Some?
    {
      if this.config.natsOpt != config.natsOpt {
        ok := nats.ReconnectNats(config.natsOpt, connected);
        if !ok {
          return;
        }
      }
      this.config := config;
      return true;
    }

    method HandleMessageFromSharedQueue(msg: Option<SubscriberMessage>, connected: Option<Client>)
      requires Valid()
      requires msg.Some? && msg.value.NewConfig? && connected.Some? ==> connected.value.opts == msg.value.config.natsOpt
      modifies this, nats
      ensures Valid()
      ensures State() == if msg.Some? then HandleShared(old(State()), msg.value, connected.Some?) else old(State())
      ensures !(msg.Some? && msg.value.NewConfig?) ==> NatsFields() == old(NatsFields())
    {
      match msg
      case None =>
      case Some(NewConfig(config)) =>
        var _ := ApplyConfig(config, connected);
      case Some(Subscribe(subject, fnName)) =>
        channel := channel + [InternalSubscribe(true, subject, fnName)];
      case Some(Unsubscribe(subject, fnName)) =>
        channel := channel + [InternalUnsubscribe(subject, fnName)];
    }

    /** The statement of the table's insert; a duplicate or another failure leaves the rows. */
    method InsertSubjectCallback(subject: string, fnName: string, fails: bool) returns (ok: bool)
      modifies `table
      ensures table == InsertRow(old(table), (subject, fnName), fails)
      ensures ok <==> (subject, fnName) !in old(table) && !fails
    {
      ok := (subject, fnName) !in table && !fails;
      if ok {
        table := table + {(subject, fnName)};
      }
    }

    method HandleInternalMessage(msg: InternalMessage, env: Env)
      requires Valid()
      modifies this, nats
      ensures Valid() && channel == old(channel) && status == old(status)
      ensures State() == HandleInternal(old(State()), msg, env)
      ensures nats.client == old(nats.client) && SameTasks(old(nats.subscriptions), nats.subscriptions)
      ensures |nats.spawned| == old(|nats.spawned|)
                                + if msg.InternalSubscribe? && msg.subject !in old(nats.subscriptions) then 1 else 0
    {
      match msg
      case InternalSubscribe(register, subject, fnName) =>
        if register {
          var _ := InsertSubjectCallback(subject, fnName, env.insertFails);
        }
        nats.Subscribe(subject, fnName);
      case InternalUnsubscribe(subject, fnName) =>
        table := DeleteRow(table, (subject, fnName), env.deleteFails);
        nats.Unsubscribe(subject, fnName);
      case CallbackCall(subject, data) =>
        nats.RunCallbacks(subject, data, env.answer);
      case UnsubscribeSubject(subject, _) =>
        nats.UnsubscribeSubject(subject);
    }

    /** Messages that tasks send while the loop is elsewhere. */
    method ReceiveFromTasks(batch: seq<InternalMessage>, ghost start: World, ghost before: seq<Event>)
      requires forall m :: m in batch ==> FromTask(m)
      requires Run(start, before) == World(State(), Draining)
      modifies `channel
      ensures channel == old(channel) + batch
      ensures Run(start, before + TaskEvents(batch)) == World(State(), Draining)
    {
      ghost var events := before;
      for i := 0 to |batch|
        invariant channel == old(channel) + batch[..i]
        invariant events == before + TaskEvents(batch)[..i]
        invariant Run(start, events) == World(State(), Draining)
      {
        RunAppend(start, events, TaskSends(batch[i]));
        channel := channel + [batch[i]];
        events := events + [TaskSends(batch[i])];
      }
      assert TaskEvents(batch)[..|batch|] == TaskEvents(batch);
    }

    /** Reads the launcher's queue until it is empty. */
    method ReadQueue(inbox: Inbox<Client>, ghost start: World, ghost before: seq<Event>)
      requires Valid() && Answered(inbox)
      requires Run(start, before) == World(State(), Reading)
      modifies this, nats
      ensures Valid() && status == old(status)
      ensures Run(start, before + FromInbox(inbox)) == World(State(), Reading)
    {
      hide HandleShared;
      ghost var events := before;
      for i := 0 to |inbox|
        invariant Valid() && status == old(status)
        invariant events == before + FromInbox(inbox)[..i]
        invariant Run(start, events) == World(State(), Reading)
      {
        var (msg, connected) := inbox[i];
        RunAppend(start, events, FromLauncher(msg, connected.Some?));
        if msg.Some? {
          SharedKeepsStatus(State(), msg.value, connected.Some?);
        }
        HandleMessageFromSharedQueue(msg, connected);
        events := events + [FromLauncher(msg, connected.Some?)];
      }
      assert FromInbox(inbox)[..|inbox|] == FromInbox(inbox);
    }

    /** Empties the channel, while tasks may go on sending before each receive. */
    method DrainChannel(pushes: seq<seq<InternalMessage>>, env: nat -> Env,
                        ghost start: World, ghost before: seq<Event>)
      requires Valid() && OnlyTasks(pushes)
      requires Run(start, before) == World(State(), Draining)
      modifies this, nats
      ensures Valid() && channel == [] && status == old(status)
      ensures Run(start, before + DrainEvents(old(|channel|), pushes, env, 0)) == World(State(), Draining)
    {
      hide DrainEvents, TaskEvents, OnlyTasks;
      ghost var events, all := before, before + DrainEvents(|channel|, pushes, env, 0);
      var rest, k := pushes, 0;
      while true
        invariant Valid() && OnlyTasks(rest) && status == old(status)
        invariant Run(start, events) == World(State(), Draining)
        invariant events + DrainEvents(|channel|, rest, env, k) == all
        decreases |rest|, |channel|
      {
        DrainStep(events, |channel|, rest, env, k);
        FirstBatch(rest);
        var batch := NextBatch(rest);
        ReceiveFromTasks(batch, start, events);
        events := events + TaskEvents(batch);
        rest := LaterBatches(rest);
        if channel == [] {
          break;
        }
        DeliverOne(env(k), start, events);
        events := events + [DeliverNext(env(k))];
        k := k + 1;
      }
    }

    /** Takes one message off the channel: a master handles it, a replica ignores it. */
    method DeliverOne(env: Env, ghost start: World, ghost events: seq<Event>)
      requires Valid() && channel != []
      requires Run(start, events) == World(State(), Draining)
      modifies this, nats
      ensures Valid() && |channel| == old(|channel|) - 1 && status == old(status)
      ensures Run(start, events + [DeliverNext(env)]) == World(State(), Draining)
    {
      hide HandleInternal;
      RunAppend(start, events, DeliverNext(env));
      var message := channel[0];
      channel := channel[1..];
      if status != Replica {
        HandleInternalMessage(message, env);
      }
    }

    /**
      One iteration of the loop: the role is checked, the launcher's queue is read, the channel is
      emptied. It does exactly the events that its inputs give, in order, ends with an empty
      channel, and on a replica leaves no task listening. The settings are those of the last message
      that applies; a replica leaves the table and calls nothing; on a master index, table and calls
      are what all messages received, in order, make of them, and without failures the table is what
      the launcher's commands make of it.
     */
    method Iterate(observed: PgInstanceStatus, rows: Option<seq<Pair>>, inbox: Inbox<Client>,
                   pushes: seq<seq<InternalMessage>>, env: nat -> Env)
      requires Valid() && Sound(World(State(), Idle))
      requires rows.Some? ==> RowSet(rows.value) == table
      requires forall i :: 0 <= i < |inbox| && inbox[i].0.Some? && inbox[i].0.value.NewConfig? && inbox[i].1.Some? ==>
                 inbox[i].1.value.opts == inbox[i].0.value.config.natsOpt
      requires forall b, m :: b in pushes && m in b ==> m.CallbackCall? || m.UnsubscribeSubject?
      modifies this, nats
      ensures Valid() && channel == [] && status == observed
      ensures var before := World(old(State()), Idle);
              World(State(), Idle) == Run(before, IterationEvents(before, observed, rows, inbox, pushes, env))
      ensures Sound(World(State(), Idle))
      ensures status == Replica ==> forall t: nat :: t < |nats.spawned| ==> t in nats.aborted
      ensures config == Settled(old(config), inbox)
      ensures status == Replica ==> table == old(table) && nats.Index() == map[] && nats.called == old(nats.called)
      ensures status == Master ==>
                var before, got := old(State()), Received(old(State()), observed, rows, inbox, pushes);
                && (forall p :: p in Pairs(nats.Index()) <==> ListensAfter(p in Pairs(before.index), got, env, p))
                && (forall p :: p in table <==> StoredAfter(p in before.table, got, env, p))
                && (forall c :: nats.called[c] == before.called[c] + Calls(before.index, got, env, c))
      ensures status == Master && (forall i :: !env(i).insertFails && !env(i).deleteFails) ==>
                table == Replay(old(table), OnQueue(Decoded(inbox)))
    {
      hide SubscriberState.CheckMigration, Settled, Received, ListensAfter, StoredAfter, Calls, Pairs, Replay, Decoded,
           Sound, OnQueue, DrainEvents, FromInbox, Answered, OnlyTasks;
      InputsAllowed(inbox, pushes);
      IterationOutcome(State(), observed, rows, inbox, pushes, env);
      ghost var start, first := World(State(), Idle), ReadEvents(observed, rows, inbox);
      RunAppend(start, [], Migrate(observed, rows));
      CheckMigration(observed, rows);
      ghost var events := [] + [Migrate(observed, rows)];
      ReadQueue(inbox, start, events);
      events := events + FromInbox(inbox);
      RunAppend(start, events, StartDrain);
      events := events + [StartDrain];
      assert events == first;
      ghost var drain := DrainEvents(|channel|, pushes, env, 0);
      DrainChannel(pushes, env, start, events);
      RunAppend(start, first + drain, EndDrain);
      RunKeepsSound(start, first + drain + [EndDrain]);
      if status == Replica {
        assert nats.Index() == map[];
        assert nats.subscriptions.Keys == nats.Index().Keys;
        nats.NoSubjectsNoTasks();
      }
    }
  }

  /** A connection made for new settings is opened with their options. */
  predicate Answered(inbox: Inbox<Client>) {
    forall i :: 0 <= i < |inbox| && inbox[i].0.Some? && inbox[i].0.value.NewConfig? && inbox[i].1.Some? ==>
      inbox[i].1.value.opts == inbox[i].0.value.config.natsOpt
  }

  lemma InputsAllowed(inbox: Inbox<Client>, pushes: seq<seq<InternalMessage>>)
    requires forall i :: 0 <= i < |inbox| && inbox[i].0.Some? && inbox[i].0.value.NewConfig? && inbox[i].1.Some? ==>
               inbox[i].1.value.opts == inbox[i].0.value.config.natsOpt
    requires forall b, m :: b in pushes && m in b ==> m.CallbackCall? || m.UnsubscribeSubject?
    ensures Answered(inbox) && OnlyTasks(pushes)
  {
  }

  lemma DrainStep(before: seq<Event>, n: nat, pushes: seq<seq<InternalMessage>>, env: nat -> Env, k: nat)
    ensures var batch, rest := NextBatch(pushes), LaterBatches(pushes);
            before + DrainEvents(n, pushes, env, k)
            == if n + |batch| == 0 then before + TaskEvents(batch)
               else before + TaskEvents(batch) + [DeliverNext(env(k))]
                    + DrainEvents(n + |batch| - 1, rest, env, k + 1)
  {
    var batch, rest := NextBatch(pushes), LaterBatches(pushes);
    if n + |batch| > 0 {
      assert DrainEvents(n, pushes, env, k)
          == TaskEvents(batch) + ([DeliverNext(env(k))] + DrainEvents(n + |batch| - 1, rest, env, k + 1));
    }
  }

  lemma SharedKeepsStatus(s: Subscriber, msg: SubscriberMessage, connected: bool)
    ensures HandleShared(s, msg, connected).status == s.status
  {
  }
}
