/** Subscribe and unsubscribe commands on their way, and what they come to on the table. */
module Commands {
  import opened Bytes
  import opened Messages
  import opened SubscriptionIndex
  import opened SubscriberState

  datatype Command = Put(row: Pair) | Drop(row: Pair)

  function Apply(table: set<Pair>, c: Command): set<Pair> {
    match c
    case Put(row) => table + {row}
    case Drop(row) => table - {row}
  }

  /** The table after the commands, in order. */
  function Replay(table: set<Pair>, cs: seq<Command>): set<Pair>
    decreases |cs|
  {
    if cs == [] then table else Replay(Apply(table, cs[0]), cs[1..])
  }

  function OfInternal(m: InternalMessage): seq<Command> {
    match m
    case InternalSubscribe(register, subject, fnName) => if register then [Put((subject, fnName))] else []
    case InternalUnsubscribe(subject, fnName) => [Drop((subject, fnName))]
    case _ => []
  }

  function OfShared(m: SubscriberMessage): seq<Command> {
    match m
    case NewConfig(_) => []
    case Subscribe(subject, fnName) => [Put((subject, fnName))]
    case Unsubscribe(subject, fnName) => [Drop((subject, fnName))]
  }

  /** The command that a launcher message is for one database. */
  function OfLauncher(m: LauncherMessage, db: Oid): seq<Command> {
    if m.dbOid != db then [] else
    match m
    case LauncherSubscribe(_, subject, fnName) => [Put((subject, fnName))]
    case LauncherUnsubscribe(_, subject, fnName) => [Drop((subject, fnName))]
    case _ => []
  }

  function OfRecord(record: seq<byte>, decode: Decoder, db: Oid): seq<Command> {
    if decode(record).Some? then OfLauncher(decode(record).value, db) else []
  }

  function OnChannel(ms: seq<InternalMessage>): seq<Command>
    decreases |ms|
  {
    if ms == [] then [] else OfInternal(ms[0]) + OnChannel(ms[1..])
  }

  function OnQueue(ms: seq<SubscriberMessage>): seq<Command>
    decreases |ms|
  {
    if ms == [] then [] else OfShared(ms[0]) + OnQueue(ms[1..])
  }

  function OnBus(records: seq<seq<byte>>, decode: Decoder, db: Oid): seq<Command>
    decreases |records|
  {
    if records == [] then [] else OfRecord(records[0], decode, db) + OnBus(records[1..], decode, db)
  }

  lemma {:induction false} ReplayConcat(table: set<Pair>, a: seq<Command>, b: seq<Command>)
    ensures Replay(table, a + b) == Replay(Replay(table, a), b)
    decreases |a|
  {
    if a == [] {
      assert a + b == b;
    } else {
      assert (a + b)[1..] == a[1..] + b;
      ReplayConcat(Apply(table, a[0]), a[1..], b);
    }
  }

  lemma {:induction false} OnChannelConcat(a: seq<InternalMessage>, b: seq<InternalMessage>)
    ensures OnChannel(a + b) == OnChannel(a) + OnChannel(b)
    decreases |a|
  {
    if a == [] {
      assert a + b == b;
    } else {
      assert (a + b)[1..] == a[1..] + b;
      OnChannelConcat(a[1..], b);
    }
  }

  lemma {:induction false} OnQueueConcat(a: seq<SubscriberMessage>, b: seq<SubscriberMessage>)
    ensures OnQueue(a + b) == OnQueue(a) + OnQueue(b)
    decreases |a|
  {
    if a == [] {
      assert a + b == b;
    } else {
      assert (a + b)[1..] == a[1..] + b;
      OnQueueConcat(a[1..], b);
    }
  }

  lemma {:induction false} OnBusConcat(a: seq<seq<byte>>, b: seq<seq<byte>>, decode: Decoder, db: Oid)
    ensures OnBus(a + b, decode, db) == OnBus(a, decode, db) + OnBus(b, decode, db)
    decreases |a|
  {
    if a == [] {
      assert a + b == b;
    } else {
      assert (a + b)[1..] == a[1..] + b;
      OnBusConcat(a[1..], b, decode, db);
    }
  }

  lemma {:induction false} NoCommandsOnChannel(ms: seq<InternalMessage>)
    requires forall m :: m in ms ==> OfInternal(m) == []
    ensures OnChannel(ms) == []
    decreases |ms|
  {
    if ms != [] {
      NoCommandsOnChannel(ms[1..]);
    }
  }

  lemma SharedCommand(s: Subscriber, msg: SubscriberMessage, connected: bool)
    ensures var s' := HandleShared(s, msg, connected);
            && OnChannel(s'.channel) == OnChannel(s.channel) + OfShared(msg)
            && s'.table == s.table && s'.status == s.status
  {
    if !msg.NewConfig? {
      var m := if msg.Subscribe? then InternalSubscribe(true, msg.subject, msg.fnName)
               else InternalUnsubscribe(msg.subject, msg.fnName);
      OnChannelConcat(s.channel, [m]);
      assert OnChannel([m]) == OfInternal(m) + OnChannel([]);
    }
  }

  /** A message handled without failures does to the table what its command says. */
  lemma DeliverCommand(s: Subscriber, env: Env)
    requires s.channel != [] && s.status == Master && !env.insertFails && !env.deleteFails
    ensures Replay(Deliver(s, env).table, OnChannel(s.channel[1..])) == Replay(s.table, OnChannel(s.channel))
  {
    var c, rest := OfInternal(s.channel[0]), OnChannel(s.channel[1..]);
    ReplayConcat(s.table, c, rest);
    if c != [] {
      assert c[1..] == [];
      assert Replay(s.table, c) == Apply(s.table, c[0]);
    }
  }

  function EncodeAll(ms: seq<LauncherMessage>, encode: LauncherMessage -> seq<byte>): (records: seq<seq<byte>>)
    ensures |records| == |ms| && forall i: nat :: i < |ms| ==> records[i] == encode(ms[i])
  {
    seq(|ms|, i requires 0 <= i < |ms| => encode(ms[i]))
  }

  function OfAll(ms: seq<LauncherMessage>, db: Oid): seq<Command>
    decreases |ms|
  {
    if ms == [] then [] else OfLauncher(ms[0], db) + OfAll(ms[1..], db)
  }

  /** Where decoding undoes encoding, the commands of the records are those of the messages. */
  lemma {:induction false} EncodedCommands(ms: seq<LauncherMessage>, encode: LauncherMessage -> seq<byte>,
                                           decode: Decoder, db: Oid)
    requires forall m :: m in ms ==> decode(encode(m)) == Some(m)
    ensures OnBus(EncodeAll(ms, encode), decode, db) == OfAll(ms, db)
    decreases |ms|
  {
    if ms != [] {
      assert EncodeAll(ms, encode)[1..] == EncodeAll(ms[1..], encode);
      EncodedCommands(ms[1..], encode, decode, db);
    }
  }
}
