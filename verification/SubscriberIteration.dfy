/**
  One iteration of the subscriber's loop, told by what it receives: each pair of the index, each row
  of the table, each call of a function and the settings, followed one by one.
 */
module SubscriberIteration {
  import opened Bytes
  import opened Messages
  import opened SubscriptionIndex
  import opened SubscriberState
  import opened SubscriberRuns
  import opened Commands

  /** The launcher's messages that decode, in order. */
  function Decoded<C>(inbox: Inbox<C>): seq<SubscriberMessage>
    decreases |inbox|
  {
    if inbox == [] then []
    else if inbox[0].0.Some? then [inbox[0].0.value] + Decoded(inbox[1..])
    else Decoded(inbox[1..])
  }

  /** A message that does not decode is skipped, any other one comes behind those before it. */
  lemma {:induction false} DecodedInOrder<C>(inbox: Inbox<C>, last: (Option<SubscriberMessage>, Option<C>))
    ensures Decoded(inbox + [last]) == Decoded(inbox) + if last.0.Some? then [last.0.value] else []
    decreases |inbox|
  {
    if inbox == [] {
      assert [last][1..] == [];
    } else {
      assert (inbox + [last])[1..] == inbox[1..] + [last];
      DecodedInOrder(inbox[1..], last);
    }
  }

  /** What one of the launcher's messages puts on the channel. */
  function Puts(msg: SubscriberMessage): seq<InternalMessage> {
    match msg
    case NewConfig(_) => []
    case Subscribe(subject, fnName) => [InternalSubscribe(true, subject, fnName)]
    case Unsubscribe(subject, fnName) => [InternalUnsubscribe(subject, fnName)]
  }

  function Queued(ms: seq<SubscriberMessage>): seq<InternalMessage>
    decreases |ms|
  {
    if ms == [] then [] else Puts(ms[0]) + Queued(ms[1..])
  }

  /** The settings after the launcher's messages. */
  function Settled<C>(config: Config, inbox: Inbox<C>): Config
    decreases |inbox|
  {
    if inbox == [] then config else Settled(ConfigAfter(config, inbox[0].0, inbox[0].1.Some?), inbox[1..])
  }

  /** The `i`th message of the inbox brings new settings. */
  predicate Brings<C>(inbox: Inbox<C>, i: nat)
    requires i < |inbox|
  {
    inbox[i].0.Some? && inbox[i].0.value.NewConfig?
  }

  /** Those that come last, if a connection with them can be made; the old ones if none come. */
  lemma {:induction false} SettledByLast<C>(config: Config, inbox: Inbox<C>)
    ensures forall i: nat :: i < |inbox| && Brings(inbox, i) && inbox[i].1.Some?
                             && (forall j: nat :: i < j < |inbox| ==> !Brings(inbox, j)) ==>
              Settled(config, inbox) == inbox[i].0.value.config
    ensures (forall i: nat :: i < |inbox| ==> !Brings(inbox, i)) ==> Settled(config, inbox) == config
    decreases |inbox|
  {
    if inbox != [] {
      var config', rest := ConfigAfter(config, inbox[0].0, inbox[0].1.Some?), inbox[1..];
      SettledByLast(config', rest);
      assert forall i: nat :: i < |rest| ==> (Brings(rest, i) <==> Brings(inbox, i + 1));
      assert !Brings(inbox, 0) ==> config' == config;
      forall i: nat | i < |inbox| && Brings(inbox, i) && inbox[i].1.Some?
                      && (forall j: nat :: i < j < |inbox| ==> !Brings(inbox, j))
        ensures Settled(config, inbox) == inbox[i].0.value.config
      {
        if i > 0 {
          assert Brings(rest, i - 1);
        }
      }
    }
  }

  /** What the tasks send, batch by batch, before a receive finds a channel of `n` messages emptied. */
  function Arriving(n: nat, pushes: seq<seq<InternalMessage>>): seq<InternalMessage>
    decreases |pushes|
  {
    if pushes == [] then [] else
    pushes[0] + if n + |pushes[0]| == 0 then [] else Arriving(n + |pushes[0]| - 1, pushes[1..])
  }

  function Flat(batches: seq<seq<InternalMessage>>): seq<InternalMessage>
    decreases |batches|
  {
    if batches == [] then [] else batches[0] + Flat(batches[1..])
  }

  /** The first `n` of the batches, or all of them. */
  function First(batches: seq<seq<InternalMessage>>, n: nat): seq<seq<InternalMessage>> {
    if n < |batches| then batches[..n] else batches
  }

  /** How many messages have been on the channel by the `k`th receive, the first being receive 0. */
  function SentBy(n: nat, pushes: seq<seq<InternalMessage>>, k: nat): nat {
    n + |Flat(First(pushes, k + 1))|
  }

  /**
    Exactly when the receives end: each of `n + |sent|` receives finds a message among those sent
    before it, and the next, before which the last batch arrives, finds none.
   */
  lemma {:induction false} ArrivingUntilEmpty(n: nat, pushes: seq<seq<InternalMessage>>)
    ensures var sent := Arriving(n, pushes);
            && sent == Flat(First(pushes, n + |sent| + 1))
            && forall k: nat :: k < n + |sent| ==> k < SentBy(n, pushes, k)
    decreases |pushes|
  {
    if pushes != [] && n + |pushes[0]| > 0 {
      var n', rest := n + |pushes[0]| - 1, pushes[1..];
      ArrivingUntilEmpty(n', rest);
      var sent := Arriving(n, pushes);
      FirstOfRest(pushes, n + |sent|);
      forall k: nat | k < n + |sent| ensures k < SentBy(n, pushes, k) {
        FirstOfRest(pushes, k);
        if k > 0 {
          assert k - 1 < SentBy(n', rest, k - 1);
        }
      }
    } else if pushes != [] {
      FirstOfRest(pushes, 0);
    }
  }

  lemma FirstOfRest(batches: seq<seq<InternalMessage>>, n: nat)
    requires batches != []
    ensures Flat(First(batches, n + 1)) == batches[0] + Flat(First(batches[1..], n))
  {
    assert First(batches, n + 1)[0] == batches[0] && First(batches, n + 1)[1..] == First(batches[1..], n);
  }

  /**
    All that one iteration receives from its channel, in order: what was there, the rows to restore
    at a takeover, the launcher's commands, and what the tasks send in the meantime.
   */
  function Received<C>(s: Subscriber, observed: PgInstanceStatus, rows: Option<seq<Pair>>, inbox: Inbox<C>,
                       pushes: seq<seq<InternalMessage>>): (got: seq<InternalMessage>)
    ensures got == CheckMigration(s, observed, rows).channel + Queued(Decoded(inbox)) + Flat(First(pushes, |got| + 1))
  {
    var first := CheckMigration(s, observed, rows).channel + Queued(Decoded(inbox));
    ArrivingUntilEmpty(|first|, pushes);
    first + Arriving(|first|, pushes)
  }

  /** Whether the pair `p` is in the index after one message. */
  predicate Listens(before: bool, m: InternalMessage, env: Env, p: Pair) {
    match m
    case InternalSubscribe(_, subject, fnName) => before || p == (subject, fnName)
    case InternalUnsubscribe(subject, fnName) => before && p != (subject, fnName)
    case CallbackCall(subject, _) => before && !(p.0 == subject && env.answer(p.1) == NotFound)
    case UnsubscribeSubject(subject, _) => before && p.0 != subject
  }

  /** Whether the row `p` is in the table after one message. */
  predicate Stored(before: bool, m: InternalMessage, env: Env, p: Pair) {
    match m
    case InternalSubscribe(register, subject, fnName) =>
      before || (register && !env.insertFails && p == (subject, fnName))
    case InternalUnsubscribe(subject, fnName) => before && (env.deleteFails || p != (subject, fnName))
    case _ => before
  }

  /** The same after messages in order, the `i`th with the answers `env(i)`. */
  predicate ListensAfter(before: bool, ms: seq<InternalMessage>, env: nat -> Env, p: Pair)
    decreases |ms|
  {
    if ms == [] then before else
    var n := |ms| - 1;
    Listens(ListensAfter(before, ms[..n], env, p), ms[n], env(n), p)
  }

  predicate StoredAfter(before: bool, ms: seq<InternalMessage>, env: nat -> Env, p: Pair)
    decreases |ms|
  {
    if ms == [] then before else
    var n := |ms| - 1;
    Stored(StoredAfter(before, ms[..n], env, p), ms[n], env(n), p)
  }

  /** How often the call `c` is made: for each message with its data on a subject its function then listens to. */
  function Calls(index: Index, ms: seq<InternalMessage>, env: nat -> Env, c: Call): nat
    decreases |ms|
  {
    if ms == [] then 0 else
    var n := |ms| - 1;
    Calls(index, ms[..n], env, c) +
    if ms[n].CallbackCall? && ms[n].data == c.data
       && ListensAfter((ms[n].subject, c.fnName) in Pairs(index), ms[..n], env, (ms[n].subject, c.fnName))
    then 1 else 0
  }

  /** The first `n` messages of the channel taken off and handled, or ignored on a replica. */
  function Delivered(s: Subscriber, env: nat -> Env, n: nat): (s': Subscriber)
    requires n <= |s.channel|
    ensures s'.channel == s.channel[n..]
  {
    if n == 0 then s else Deliver(Delivered(s, env, n - 1), env(n - 1))
  }

  /** What happens to one message does not depend on those behind it. */
  lemma DeliverIgnoresRest(s: Subscriber, channel: seq<InternalMessage>, env: Env)
    requires s.channel != [] && channel != [] && channel[0] == s.channel[0]
    ensures Deliver(s.(channel := channel), env) == Deliver(s, env).(channel := channel[1..])
  {
  }

  lemma {:induction false} RunConcat(w: World, a: seq<Event>, b: seq<Event>)
    ensures Run(w, a + b) == Run(Run(w, a), b)
    decreases |a|
  {
    hide Step;
    if a == [] {
      assert a + b == b;
    } else {
      assert (a + b)[1..] == a[1..] + b;
      RunConcat(Step(w, a[0]), a[1..], b);
    }
  }

  lemma {:induction false} TasksSend(w: World, batch: seq<InternalMessage>)
    requires forall m :: m in batch ==> FromTask(m)
    ensures Run(w, TaskEvents(batch)) == w.(s := w.s.(channel := w.s.channel + batch))
    decreases |batch|
  {
    if batch == [] {
      assert w.s.channel + batch == w.s.channel;
    } else {
      assert TaskEvents(batch)[1..] == TaskEvents(batch[1..]);
      TasksSend(Step(w, TaskSends(batch[0])), batch[1..]);
      assert w.s.channel + [batch[0]] + batch[1..] == w.s.channel + batch;
    }
  }

  /**
    Emptying the channel while tasks go on sending is handling, in order, what was there and what
    arrives: here after `k` of the messages of `s`, with `n` of the others on the channel.
   */
  lemma {:induction false} DrainDelivers(s: Subscriber, k: nat, n: nat, pushes: seq<seq<InternalMessage>>,
                                         env: nat -> Env)
    requires k + n <= |s.channel| && s.channel[k + n..] == Arriving(n, pushes) && OnlyTasks(pushes)
    ensures Run(World(Delivered(s, env, k).(channel := s.channel[k..k + n]), Draining),
                DrainEvents(n, pushes, env, k))
         == World(Delivered(s, env, |s.channel|), Draining)
    decreases |pushes|, n
  {
    hide Deliver, Step, Delivered, OnlyTasks, DrainEvents, Arriving, TaskEvents;
    var batch, rest := NextBatch(pushes), LaterBatches(pushes);
    var here, n' := Delivered(s, env, k), n + |batch|;
    var w := World(here.(channel := s.channel[k..k + n]), Draining);
    BatchArrives(s.channel, k, n, pushes);
    FirstBatch(pushes);
    TasksSend(w, batch);
    if n' > 0 {
      DrainDelivers(s, k + 1, n' - 1, rest, env);
      DeliverOneMore(s, k, n', env);
      DrainSplits(w, n, pushes, env, k);
    } else {
      DrainStops(pushes, env, k);
      assert s.channel[k..k] == [] == s.channel[k..];
    }
  }

  lemma BatchArrives(channel: seq<InternalMessage>, k: nat, n: nat, pushes: seq<seq<InternalMessage>>)
    requires k + n <= |channel| && channel[k + n..] == Arriving(n, pushes)
    ensures var batch, rest := NextBatch(pushes), LaterBatches(pushes);
            && k + n + |batch| <= |channel|
            && channel[k..k + n] + batch == channel[k..k + n + |batch|]
            && channel[k + n + |batch|..] == if n + |batch| == 0 then [] else Arriving(n + |batch| - 1, rest)
  {
    hide Arriving, NextBatch, LaterBatches;
    var batch, rest := NextBatch(pushes), LaterBatches(pushes);
    var later := if n + |batch| == 0 then [] else Arriving(n + |batch| - 1, rest);
    ArrivingFirst(n, pushes);
    SplitsInto(channel, k + n, batch, later);
    JoinsTo(channel, k, k + n, k + n + |batch|);
  }

  lemma ArrivingFirst(n: nat, pushes: seq<seq<InternalMessage>>)
    ensures var batch, rest := NextBatch(pushes), LaterBatches(pushes);
            Arriving(n, pushes) == batch + if n + |batch| == 0 then [] else Arriving(n + |batch| - 1, rest)
  {
  }

  lemma JoinsTo<T>(s: seq<T>, i: nat, j: nat, k: nat)
    requires i <= j <= k <= |s|
    ensures s[i..j] + s[j..k] == s[i..k]
  {
  }

  lemma SplitsInto<T>(s: seq<T>, i: nat, a: seq<T>, b: seq<T>)
    requires i <= |s| && s[i..] == a + b
    ensures i + |a| <= |s| && s[i..i + |a|] == a && s[i + |a|..] == b
  {
    assert s[i..][..|a|] == a && s[i..][|a|..] == b;
  }

  lemma DrainStops(pushes: seq<seq<InternalMessage>>, env: nat -> Env, k: nat)
    requires pushes != [] ==> pushes[0] == []
    ensures DrainEvents(0, pushes, env, k) == TaskEvents([])
  {
  }

  /** The events of a drain, one receive at a time. */
  lemma DrainSplits(w: World, n: nat, pushes: seq<seq<InternalMessage>>, env: nat -> Env, k: nat)
    requires n + |NextBatch(pushes)| > 0
    ensures var batch, rest := NextBatch(pushes), LaterBatches(pushes);
            Run(w, DrainEvents(n, pushes, env, k))
            == Run(Step(Run(w, TaskEvents(batch)), DeliverNext(env(k))), DrainEvents(n + |batch| - 1, rest, env, k + 1))
  {
    hide Step;
    var batch, rest := NextBatch(pushes), LaterBatches(pushes);
    var more := DrainEvents(n + |batch| - 1, rest, env, k + 1);
    assert DrainEvents(n, pushes, env, k) == TaskEvents(batch) + ([DeliverNext(env(k))] + more);
    RunConcat(w, TaskEvents(batch), [DeliverNext(env(k))] + more);
    assert ([DeliverNext(env(k))] + more)[1..] == more;
  }

  lemma DeliverOneMore(s: Subscriber, k: nat, n: nat, env: nat -> Env)
    requires 0 < n && k + n <= |s.channel|
    ensures Step(World(Delivered(s, env, k).(channel := s.channel[k..k + n]), Draining), DeliverNext(env(k)))
         == World(Delivered(s, env, k + 1).(channel := s.channel[k + 1..k + n]), Draining)
  {
    hide Deliver;
    DeliverIgnoresRest(Delivered(s, env, k), s.channel[k..k + n], env(k));
    assert s.channel[k..k + n][1..] == s.channel[k + 1..k + n];
  }

  lemma FirstBatch(pushes: seq<seq<InternalMessage>>)
    requires OnlyTasks(pushes)
    ensures var batch := NextBatch(pushes);
            forall m :: m in batch ==> FromTask(m)
    ensures OnlyTasks(LaterBatches(pushes))
  {
    assert pushes != [] ==> pushes[0] in pushes;
  }

  /** Reading the launcher's queue settles the settings and puts the commands on the channel. */
  lemma {:induction false} ReadSettles<C>(w: World, inbox: Inbox<C>)
    requires w.phase.Reading? && w.s.clientOpts == w.s.config.natsOpt
    ensures var config := Settled(w.s.config, inbox);
            Run(w, FromInbox(inbox))
            == World(w.s.(config := config, clientOpts := config.natsOpt,
                          channel := w.s.channel + Queued(Decoded(inbox))), Reading)
    decreases |inbox|
  {
    if inbox == [] {
      assert w.s.channel + [] == w.s.channel;
    } else {
      assert FromInbox(inbox)[1..] == FromInbox(inbox[1..]);
      hide Step, ConfigAfter, Puts;
      ReadOne(w, inbox[0].0, inbox[0].1.Some?);
      ReadSettles(Step(w, FromLauncher(inbox[0].0, inbox[0].1.Some?)), inbox[1..]);
    }
  }

  lemma ReadOne(w: World, msg: Option<SubscriberMessage>, connected: bool)
    requires w.phase.Reading? && w.s.clientOpts == w.s.config.natsOpt
    ensures var config := ConfigAfter(w.s.config, msg, connected);
            Step(w, FromLauncher(msg, connected))
            == World(w.s.(config := config, clientOpts := config.natsOpt,
                          channel := w.s.channel + if msg.Some? then Puts(msg.value) else []), Reading)
  {
  }

  /** A whole iteration is the check of the role, the reading of the queue, and handling all that is received. */
  lemma IterationDelivers<C>(s: Subscriber, observed: PgInstanceStatus, rows: Option<seq<Pair>>, inbox: Inbox<C>,
                             pushes: seq<seq<InternalMessage>>, env: nat -> Env)
    requires Sound(World(s, Idle)) && OnlyTasks(pushes) && (rows.Some? ==> RowSet(rows.value) == s.table)
    ensures var config := Settled(s.config, inbox);
            var read := CheckMigration(s, observed, rows).(
              config := config, clientOpts := config.natsOpt, channel := Received(s, observed, rows, inbox, pushes));
            Run(World(s, Idle), IterationEvents(World(s, Idle), observed, rows, inbox, pushes, env))
            == World(Delivered(read, env, |read.channel|), Idle)
  {
    hide Settled, Queued, Decoded, Arriving, OnlyTasks, DrainEvents;
    var w, first := World(s, Idle), ReadEvents(observed, rows, inbox);
    var migrated := Step(w, Migrate(observed, rows));
    var read := migrated.s.(config := Settled(s.config, inbox), clientOpts := Settled(s.config, inbox).natsOpt,
                            channel := Received(s, observed, rows, inbox, pushes));
    var n := |migrated.s.channel + Queued(Decoded(inbox))|;
    assert read.channel[..n] == migrated.s.channel + Queued(Decoded(inbox));
    ReadFirst(w, observed, rows, inbox);
    DrainDelivers(read, 0, n, pushes, env);
    assert Run(w, first) == World(Delivered(read, env, 0).(channel := read.channel[0..n]), Draining);
    RunConcat(w, first, DrainEvents(n, pushes, env, 0));
    RunAppend(w, first + DrainEvents(n, pushes, env, 0), EndDrain);
  }

  lemma ReadFirst<C>(w: World, observed: PgInstanceStatus, rows: Option<seq<Pair>>, inbox: Inbox<C>)
    requires Sound(w) && w.phase.Idle? && (rows.Some? ==> RowSet(rows.value) == w.s.table)
    ensures var config := Settled(w.s.config, inbox);
            var s := CheckMigration(w.s, observed, rows);
            Run(w, ReadEvents(observed, rows, inbox))
            == World(s.(config := config, clientOpts := config.natsOpt,
                        channel := s.channel + Queued(Decoded(inbox))), Draining)
  {
    hide Settled, Queued, Decoded;
    var migrated := Step(w, Migrate(observed, rows));
    assert [Migrate(observed, rows)][1..] == [];
    assert Run(migrated, []) == migrated;
    RunConcat(w, [Migrate(observed, rows)], FromInbox(inbox));
    ReadSettles(migrated, inbox);
    RunAppend(w, [Migrate(observed, rows)] + FromInbox(inbox), StartDrain);
  }

  /** A replica ignores all it receives. */
  lemma {:induction false} ReplicaIgnores(s: Subscriber, env: nat -> Env, n: nat)
    requires s.status == Replica && n <= |s.channel|
    ensures Delivered(s, env, n) == s.(channel := s.channel[n..])
  {
    if n > 0 {
      ReplicaIgnores(s, env, n - 1);
    }
  }

  lemma {:induction false} MasterHandles(s: Subscriber, env: nat -> Env, n: nat)
    requires s.status == Master && n <= |s.channel|
    ensures var s' := Delivered(s, env, n);
            s'.status == Master && s'.config == s.config && s'.clientOpts == s.clientOpts
  {
    if n > 0 {
      MasterHandles(s, env, n - 1);
    }
  }

  lemma PairApart(s: Subscriber, env: Env, p: Pair)
    requires s.status == Master && s.channel != []
    ensures p in Pairs(Deliver(s, env).index) <==> Listens(p in Pairs(s.index), s.channel[0], env, p)
    ensures p in Deliver(s, env).table <==> Stored(p in s.table, s.channel[0], env, p)
  {
    HandlePairs(s.(channel := s.channel[1..]), s.channel[0], env);
  }

  lemma LastOfFirst<T>(s: seq<T>, n: nat)
    requires 0 < n <= |s|
    ensures s[..n][..n - 1] == s[..n - 1] && s[..n][n - 1] == s[n - 1] == s[n - 1..][0]
  {
  }

  /** On a master each pair and each row goes its own way, by the messages that concern it. */
  lemma {:induction false} PairsApart(s: Subscriber, env: nat -> Env, n: nat, p: Pair)
    requires s.status == Master && n <= |s.channel|
    ensures p in Pairs(Delivered(s, env, n).index) <==> ListensAfter(p in Pairs(s.index), s.channel[..n], env, p)
    ensures p in Delivered(s, env, n).table <==> StoredAfter(p in s.table, s.channel[..n], env, p)
  {
    hide Deliver, Pairs, Listens, Stored;
    if n > 0 {
      PairsApart(s, env, n - 1, p);
      MasterHandles(s, env, n - 1);
      LastOfFirst(s.channel, n);
      PairApart(Delivered(s, env, n - 1), env(n - 1), p);
    }
  }

  lemma CallApart(s: Subscriber, env: Env, c: Call)
    requires s.status == Master && s.channel != []
    ensures var m := s.channel[0];
            Deliver(s, env).called[c] == s.called[c]
              + if m.CallbackCall? && m.data == c.data && (m.subject, c.fnName) in Pairs(s.index) then 1 else 0
  {
    if s.channel[0].CallbackCall? {
      CallsOfPairs(s.index, s.channel[0].subject, s.channel[0].data, c);
    }
  }

  /** And a function is called for the messages that find it listening. */
  lemma {:induction false} CallsApart(s: Subscriber, env: nat -> Env, n: nat, c: Call)
    requires s.status == Master && n <= |s.channel|
    ensures Delivered(s, env, n).called[c] == s.called[c] + Calls(s.index, s.channel[..n], env, c)
  {
    hide Deliver, Pairs, ListensAfter;
    if n > 0 {
      CallsApart(s, env, n - 1, c);
      MasterHandles(s, env, n - 1);
      LastOfFirst(s.channel, n);
      CallApart(Delivered(s, env, n - 1), env(n - 1), c);
      var m := s.channel[n - 1];
      if m.CallbackCall? {
        PairsApart(s, env, n - 1, (m.subject, c.fnName));
      }
    }
  }

  /** Without failures the table is what the commands received come to. */
  lemma {:induction false} TableReplays(s: Subscriber, env: nat -> Env, n: nat)
    requires s.status == Master && n <= |s.channel| && forall i :: !env(i).insertFails && !env(i).deleteFails
    ensures Replay(Delivered(s, env, n).table, OnChannel(s.channel[n..])) == Replay(s.table, OnChannel(s.channel))
  {
    hide Deliver;
    if n == 0 {
      assert s.channel[0..] == s.channel;
    } else {
      TableReplays(s, env, n - 1);
      MasterHandles(s, env, n - 1);
      assert s.channel[n - 1..][1..] == s.channel[n..];
      DeliverCommand(Delivered(s, env, n - 1), env(n - 1));
    }
  }

  lemma {:induction false} QueuedCommands(ms: seq<SubscriberMessage>)
    ensures OnChannel(Queued(ms)) == OnQueue(ms)
    decreases |ms|
  {
    if ms != [] {
      QueuedCommands(ms[1..]);
      OnChannelConcat(Puts(ms[0]), Queued(ms[1..]));
      PutsCommand(ms[0]);
    }
  }

  lemma PutsCommand(msg: SubscriberMessage)
    ensures OnChannel(Puts(msg)) == OfShared(msg)
  {
    if !msg.NewConfig? {
      var m := Puts(msg)[0];
      assert OnChannel([m]) == OfInternal(m) + OnChannel([]);
    }
  }

  lemma {:induction false} ArrivingFromTasks(n: nat, pushes: seq<seq<InternalMessage>>)
    requires OnlyTasks(pushes)
    ensures forall m :: m in Arriving(n, pushes) ==> FromTask(m)
    decreases |pushes|
  {
    if pushes != [] && n + |pushes[0]| > 0 {
      FirstBatch(pushes);
      ArrivingFromTasks(n + |pushes[0]| - 1, pushes[1..]);
    }
  }

  /** Of all an iteration receives, only the launcher's messages are commands. */
  lemma ReceivedCommands<C>(s: Subscriber, observed: PgInstanceStatus, rows: Option<seq<Pair>>, inbox: Inbox<C>,
                            pushes: seq<seq<InternalMessage>>)
    requires Sound(World(s, Idle)) && OnlyTasks(pushes)
    ensures OnChannel(Received(s, observed, rows, inbox, pushes)) == OnQueue(Decoded(inbox))
  {
    hide Flat, First, Arriving, Queued, Decoded, OnChannel, OnQueue, OnlyTasks;
    var restored, queued := CheckMigration(s, observed, rows).channel, Queued(Decoded(inbox));
    var arriving := Arriving(|restored + queued|, pushes);
    ArrivingFromTasks(|restored + queued|, pushes);
    forall m | m in restored ensures OfInternal(m) == [] {
      if m in s.channel {
        assert !IsCommand(m);
      }
    }
    NoCommandsOnChannel(restored);
    NoCommandsOnChannel(arriving);
    OnChannelConcat(restored + queued, arriving);
    OnChannelConcat(restored, queued);
    QueuedCommands(Decoded(inbox));
  }

  /**
    What one iteration comes to. The settings are those of the last message that applies. A replica
    changes nothing else but that it listens to nothing. On a master each pair of the index and each
    row goes its own way by the messages received, a function is called for the messages that find
    it in the index, and without failures the table is what the launcher's commands make of it.
   */
  lemma IterationOutcome<C>(s: Subscriber, observed: PgInstanceStatus, rows: Option<seq<Pair>>, inbox: Inbox<C>,
                            pushes: seq<seq<InternalMessage>>, env: nat -> Env)
    requires Sound(World(s, Idle)) && OnlyTasks(pushes) && (rows.Some? ==> RowSet(rows.value) == s.table)
    ensures var s' := Run(World(s, Idle), IterationEvents(World(s, Idle), observed, rows, inbox, pushes, env)).s;
            var got := Received(s, observed, rows, inbox, pushes);
            && s'.config == Settled(s.config, inbox)
            && (observed == Replica ==> s'.table == s.table && s'.index == map[] && s'.called == s.called)
            && (observed == Master ==>
                  && (forall p :: p in Pairs(s'.index) <==> ListensAfter(p in Pairs(s.index), got, env, p))
                  && (forall p :: p in s'.table <==> StoredAfter(p in s.table, got, env, p))
                  && (forall c :: s'.called[c] == s.called[c] + Calls(s.index, got, env, c))
                  && ((forall i :: !env(i).insertFails && !env(i).deleteFails) ==>
                        s'.table == Replay(s.table, OnQueue(Decoded(inbox)))))
  {
    hide Delivered, Deliver, Settled, Received, ListensAfter, StoredAfter, Calls, Pairs, Sound, OnlyTasks, Decoded,
         IterationEvents, Run;
    var got, config := Received(s, observed, rows, inbox, pushes), Settled(s.config, inbox);
    var read := CheckMigration(s, observed, rows).(config := config, clientOpts := config.natsOpt, channel := got);
    IterationDelivers(s, observed, rows, inbox, pushes, env);
    MigrationKeeps(s, observed, rows);
    if observed == Replica {
      ReplicaIgnores(read, env, |got|);
    } else {
      MasterHandles(read, env, |got|);
      assert got[..|got|] == got && got[|got|..] == [];
      var end := Delivered(read, env, |got|);
      forall p ensures p in Pairs(end.index) <==> ListensAfter(p in Pairs(s.index), got, env, p) {
        PairsApart(read, env, |got|, p);
      }
      forall p ensures p in end.table <==> StoredAfter(p in s.table, got, env, p) {
        PairsApart(read, env, |got|, p);
      }
      forall c ensures end.called[c] == s.called[c] + Calls(s.index, got, env, c) {
        CallsApart(read, env, |got|, c);
      }
      if forall i :: !env(i).insertFails && !env(i).deleteFails {
        TableReplays(read, env, |got|);
        ReceivedCommands(s, observed, rows, inbox, pushes);
      }
    }
  }

  lemma MigrationKeeps(s: Subscriber, observed: PgInstanceStatus, rows: Option<seq<Pair>>)
    requires Sound(World(s, Idle))
    ensures var s' := CheckMigration(s, observed, rows);
            && s'.status == observed && s'.table == s.table && s'.called == s.called
            && s'.index == if observed == Master then s.index else map[]
  {
  }
}
