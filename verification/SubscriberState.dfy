/**
  One subscriber as a value, and the steps of its loop: any interleaving of these steps with the
  messages that its tasks send.
 */
module SubscriberState {
  import opened Bytes
  import opened Messages
  import opened SubscriptionIndex

  datatype PgInstanceStatus = Master | Replica

  /** The messages of the subscriber's own channel. `register` is false for a restored row. */
  datatype InternalMessage =
    | InternalSubscribe(register: bool, subject: string, fnName: string)
    | InternalUnsubscribe(subject: string, fnName: string)
    | CallbackCall(subject: string, data: seq<byte>)
    | UnsubscribeSubject(subject: string, reason: string)

  /**
    `clientOpts` is what the present connection was opened with; `table` the rows of the
    subscriptions table, which has no duplicates; `called` all calls of callback functions so far.
   */
  datatype Subscriber = Subscriber(
    status: PgInstanceStatus,
    config: Config,
    clientOpts: NatsConnectionOptions,
    index: Index,
    table: set<Pair>,
    channel: seq<InternalMessage>,
    called: multiset<Call>)

  /**
    What happens while one channel message is handled: whether an insert fails for another reason
    than a duplicate, whether a delete fails, and what each callback answers.
   */
  datatype Env = Env(insertFails: bool, deleteFails: bool, answer: string -> CallResult)

  function RowMessages(rows: seq<Pair>): seq<InternalMessage> {
    seq(|rows|, i requires 0 <= i < |rows| => InternalSubscribe(false, rows[i].0, rows[i].1))
  }

  /** `rows` is the table as fetched, in some order; `None` when that fails. */
  function RestoreState(s: Subscriber, rows: Option<seq<Pair>>): Subscriber {
    if rows.Some? then s.(channel := s.channel + RowMessages(rows.value)) else s
  }

  function CheckMigration(s: Subscriber, observed: PgInstanceStatus, rows: Option<seq<Pair>>): Subscriber {
    match (s.status, observed)
    case (Master, Replica) => s.(status := Replica, index := map[])
    case (Replica, Master) => RestoreState(s.(status := Master), rows)
    case _ => s
  }

  function ApplyConfig(s: Subscriber, config: Config, connected: bool): Subscriber {
    if s.config.natsOpt == config.natsOpt then s.(config := config)
    else if connected then s.(config := config, clientOpts := config.natsOpt)
    else s
  }

  /** A message from the launcher: subscriptions go to the channel, to be handled with the restored rows. */
  function HandleShared(s: Subscriber, msg: SubscriberMessage, connected: bool): Subscriber {
    match msg
    case NewConfig(config) => ApplyConfig(s, config, connected)
    case Subscribe(subject, fnName) => s.(channel := s.channel + [InternalSubscribe(true, subject, fnName)])
    case Unsubscribe(subject, fnName) => s.(channel := s.channel + [InternalUnsubscribe(subject, fnName)])
  }

  function InsertRow(table: set<Pair>, row: Pair, fails: bool): set<Pair> {
    if fails then table else table + {row}
  }

  function DeleteRow(table: set<Pair>, row: Pair, fails: bool): set<Pair> {
    if fails then table else table - {row}
  }

  function HandleInternal(s: Subscriber, msg: InternalMessage, env: Env): Subscriber {
    match msg
    case InternalSubscribe(register, subject, fnName) =>
      s.(table := if register then InsertRow(s.table, (subject, fnName), env.insertFails) else s.table,
         index := Add(s.index, subject, fnName))
    case InternalUnsubscribe(subject, fnName) =>
      s.(table := DeleteRow(s.table, (subject, fnName), env.deleteFails),
         index := Remove(s.index, subject, fnName))
    case CallbackCall(subject, data) =>
      s.(index := Retain(s.index, subject, env.answer), called := s.called + CallsOf(s.index, subject, data))
    case UnsubscribeSubject(subject, _) => s.(index := RemoveSubject(s.index, subject))
  }

  /** The oldest channel message is handled on a master and ignored on a replica. */
  function Deliver(s: Subscriber, env: Env): Subscriber
    requires s.channel != []
  {
    var s' := s.(channel := s.channel[1..]);
    if s.status == Replica then s' else HandleInternal(s', s.channel[0], env)
  }

  /** Where the loop is: before an iteration, reading the launcher's queue, or emptying the channel. */
  datatype Phase = Idle | Reading | Draining

  datatype World = World(s: Subscriber, phase: Phase)

  /** `Replicated` is the other server's changes reaching the table of a replica. */
  datatype Event =
    | Migrate(observed: PgInstanceStatus, rows: Option<seq<Pair>>)
    | FromLauncher(msg: Option<SubscriberMessage>, connected: bool)
    | StartDrain
    | TaskSends(sent: InternalMessage)
    | DeliverNext(env: Env)
    | EndDrain
    | Replicated(table: set<Pair>)

  /** The rows of a sequence. */
  function RowSet(rows: seq<Pair>): set<Pair> {
    set p | p in rows
  }

  /** Tasks send calls of callbacks and the end of their own subject, nothing else. */
  predicate FromTask(m: InternalMessage) {
    m.CallbackCall? || m.UnsubscribeSubject?
  }

  predicate OnlyTasks(pushes: seq<seq<InternalMessage>>) {
    forall b, m :: b in pushes && m in b ==> FromTask(m)
  }

  predicate Enabled(w: World, e: Event) {
    match e
    case Migrate(_, rows) => w.phase.Idle? && (rows.Some? ==> RowSet(rows.value) == w.s.table)
    case FromLauncher(_, _) => w.phase.Reading?
    case StartDrain => w.phase.Reading?
    case TaskSends(msg) => FromTask(msg)
    case DeliverNext(_) => w.phase.Draining? && w.s.channel != []
    case EndDrain => w.phase.Draining? && w.s.channel == []
    case Replicated(_) => w.s.status == Replica
  }

  /** One step; an event that cannot happen in this state does nothing. */
  function Step(w: World, e: Event): World {
    if !Enabled(w, e) then w else
    match e
    case Migrate(observed, rows) => World(CheckMigration(w.s, observed, rows), Reading)
    case FromLauncher(msg, connected) =>
      if msg.Some? then w.(s := HandleShared(w.s, msg.value, connected)) else w
    case StartDrain => w.(phase := Draining)
    case TaskSends(msg) => w.(s := w.s.(channel := w.s.channel + [msg]))
    case DeliverNext(env) => w.(s := Deliver(w.s, env))
    case EndDrain => w.(phase := Idle)
    case Replicated(table) => w.(s := w.s.(table := table))
  }

  function Run(w: World, events: seq<Event>): World
    decreases |events|
  {
    if events == [] then w else Run(Step(w, events[0]), events[1..])
  }

  /** The launcher's messages, each with whether a connection with its new settings can be made. */
  type Inbox<C> = seq<(Option<SubscriberMessage>, Option<C>)>

  function FromInbox<C>(inbox: Inbox<C>): (events: seq<Event>)
    ensures |events| == |inbox|
    ensures forall i: nat :: i < |inbox| ==> events[i] == FromLauncher(inbox[i].0, inbox[i].1.Some?)
  {
    seq(|inbox|, i requires 0 <= i < |inbox| => FromLauncher(inbox[i].0, inbox[i].1.Some?))
  }

  function TaskEvents(batch: seq<InternalMessage>): (events: seq<Event>)
    ensures |events| == |batch| && forall i: nat :: i < |batch| ==> events[i] == TaskSends(batch[i])
  {
    seq(|batch|, i requires 0 <= i < |batch| => TaskSends(batch[i]))
  }

  function NextBatch(pushes: seq<seq<InternalMessage>>): seq<InternalMessage> {
    if pushes == [] then [] else pushes[0]
  }

  function LaterBatches(pushes: seq<seq<InternalMessage>>): (rest: seq<seq<InternalMessage>>)
    ensures |rest| == if pushes == [] then 0 else |pushes| - 1
  {
    if pushes == [] then [] else pushes[1..]
  }

  /**
    The events of emptying a channel of `n` messages: before the `k`th receive the tasks send the
    next batch of `pushes`, and the loop ends when a receive finds nothing.
   */
  function DrainEvents(n: nat, pushes: seq<seq<InternalMessage>>, env: nat -> Env, k: nat): seq<Event>
    decreases |pushes|, n
  {
    var batch, rest := NextBatch(pushes), LaterBatches(pushes);
    TaskEvents(batch) +
    if n + |batch| == 0 then [] else [DeliverNext(env(k))] + DrainEvents(n + |batch| - 1, rest, env, k + 1)
  }

  /** The events of one iteration up to the drain. */
  function ReadEvents<C>(observed: PgInstanceStatus, rows: Option<seq<Pair>>, inbox: Inbox<C>): seq<Event> {
    [Migrate(observed, rows)] + FromInbox(inbox) + [StartDrain]
  }

  /** All events of one iteration, in order: nothing that was sent is left out. */
  function IterationEvents<C>(w: World, observed: PgInstanceStatus, rows: Option<seq<Pair>>, inbox: Inbox<C>,
                              pushes: seq<seq<InternalMessage>>, env: nat -> Env): seq<Event> {
    var first := ReadEvents(observed, rows, inbox);
    first + DrainEvents(|Run(w, first).s.channel|, pushes, env, 0) + [EndDrain]
  }

  /** The subscriber as it enters its loop: a master has asked for its rows. */
  function Launch(status: PgInstanceStatus, config: Config, table: set<Pair>, rows: Option<seq<Pair>>): World {
    var s := Subscriber(status, config, config.natsOpt, map[], table, [], multiset{});
    World(if status == Master then RestoreState(s, rows) else s, Idle)
  }
}
