/**
  From the bus to the table: SQL backends, the launcher and the subscriber of one database, their
  steps interleaved in any way.
 */
module EndToEnd {
  import opened Bytes
  import opened Messages
  import opened RingState
  import opened RingFifo
  import R = RingRuns
  import opened SubscriptionIndex
  import opened Commands
  import L = LauncherState
  import LauncherLifecycle
  import LauncherRouting
  import LauncherRuns
  import opened SubscriberState
  import opened SubscriberRuns

  /** Which receive the bus has, how records decode, and the worker that is followed. */
  datatype Setting = Setting(variant: Variant, decode: Decoder, worker: L.WorkerEntry)

  /**
    `accepted` are all records the bus accepted and `taken` how many the launcher took off it;
    `read` is how many messages the subscriber read from its queue.
   */
  datatype System = System(
    bus: Ring,
    accepted: seq<seq<byte>>,
    taken: nat,
    launcher: L.Launcher,
    read: nat,
    sub: World)

  datatype Move =
    | Send(msg: seq<byte>)
    | Take(answers: L.Env)
    | Wait
    | Read(connected: bool)
    | Local(event: Event)

  function Queue(g: Setting, y: System): seq<SubscriberMessage> {
    L.Queue(y.launcher, g.worker.id)
  }

  /**
    The assumptions: the worker stays registered and its database master, sends to its queue
    succeed, inserts fail only on duplicates and deletes do not fail; and, for the bus as written,
    neither of the two operations it gets wrong.
   */
  predicate Allowed(g: Setting, y: System, m: Move) {
    && y.bus.Shape()
    && match m
       case Send(msg) => g.variant.Written? ==> !LosesFull(y.bus, msg)
       case Take(answers) =>
         && (g.variant.Written? ==> !FrontWraps(y.bus))
         && answers.sendOk
         && L.Holds(Next(g, y, m).launcher.workers, g.worker)
       case Wait => true
       case Read(_) => y.sub.phase.Reading? && y.read < |Queue(g, y)|
       case Local(e) =>
         match e
         case Migrate(observed, _) => observed == Master
         case FromLauncher(_, _) => false
         case DeliverNext(env) => !env.insertFails && !env.deleteFails
         case _ => true
  }

  function Next(g: Setting, y: System, m: Move): System
    requires y.bus.Shape()
  {
    match m
    case Send(msg) =>
      if Fits(y.bus, msg) then y.(bus := Sent(y.bus, msg), accepted := y.accepted + [msg]) else y
    case Take(answers) =>
      var o := Receive(g.variant, y.bus);
      if o.Message? then
        y.(bus := o.next, taken := y.taken + 1,
           launcher := L.HandleItem(y.launcher, L.Item(g.decode(o.msg), answers)))
      else y
    case Wait => y.(launcher := L.WaitAll(y.launcher))
    case Read(connected) =>
      if y.read < |Queue(g, y)| then
        y.(read := y.read + 1, sub := Step(y.sub, FromLauncher(Some(Queue(g, y)[y.read]), connected)))
      else y
    case Local(e) => y.(sub := Step(y.sub, e))
  }

  predicate InRange(g: Setting, y: System) {
    y.read <= |Queue(g, y)| && y.taken <= |y.accepted|
  }

  /** The commands still on their way to the table, in the order they will arrive. */
  function Pending(g: Setting, y: System): seq<Command>
    requires InRange(g, y)
  {
    OnChannel(y.sub.s.channel) + (OnQueue(Queue(g, y)[y.read..]) + OnBus(y.accepted[y.taken..], g.decode, g.worker.oid))
  }

  ghost predicate Sane(g: Setting, y: System) {
    && InRange(g, y)
    && Represents(y.bus, y.accepted[y.taken..])
    && (g.variant.Intended? ==> y.bus.read < y.bus.Capacity())
    && L.Consistent(y.launcher)
    && g.worker in y.launcher.started
    && L.Holds(y.launcher.workers, g.worker)
    && Sound(y.sub)
    && y.sub.s.status == Master
    && Contained(y.sub.s)
  }

  /** Nothing is lost, invented or reordered: the commands under way still come to the same table. */
  ghost predicate Conserves(g: Setting, y: System, initial: set<Pair>) {
    && Sane(g, y)
    && Replay(y.sub.s.table, Pending(g, y)) == Replay(initial, OnBus(y.accepted, g.decode, g.worker.oid))
  }

  lemma BusReceives(g: Setting, r: Ring, q: seq<seq<byte>>)
    requires Represents(r, q) && (if g.variant.Written? then !FrontWraps(r) else r.read < r.Capacity())
    ensures var o := Receive(g.variant, r);
            && (q == [] ==> !o.Message?)
            && (q != [] ==> o.Message? && o.msg == q[0] && Represents(o.next, q[1..])
                            && (g.variant.Intended? ==> o.next.read < o.next.Capacity()))
  {
    hide Receive;
    ReceiveKeepsShape(g.variant, r);
    if g.variant.Written? {
      WrittenReceives(r, q);
    } else {
      IntendedReceives(r, q);
    }
  }

  /** What the launcher passes on is exactly the command of the record. */
  lemma RoutedCommand(g: Setting, s: L.Launcher, record: seq<byte>, answers: L.Env)
    requires L.Holds(s.workers, g.worker) && answers.sendOk
    ensures OnQueue(LauncherRouting.Routed(s, L.Item(g.decode(record), answers), g.worker))
         == OfRecord(record, g.decode, g.worker.oid)
  {
  }

  lemma SendSane(g: Setting, y: System, msg: seq<byte>)
    requires Sane(g, y) && Allowed(g, y, Send(msg)) && Fits(y.bus, msg)
    ensures Sane(g, Next(g, y, Send(msg)))
  {
    hide L.Consistent, Sound, Contained, LosesFull, Sent, Represents;
    var y', q := Next(g, y, Send(msg)), y.accepted[y.taken..];
    assert y'.accepted[y'.taken..] == q + [msg];
    SentAtEnd(y.bus, msg);
    SendAppends(y.bus, q, msg);
  }

  lemma SentAtEnd(r: Ring, msg: seq<byte>)
    requires r.Shape() && Fits(r, msg)
    ensures r.read < r.Capacity() ==> !LosesFull(r, msg) && Sent(r, msg).read < Sent(r, msg).Capacity()
  {
  }

  lemma SendPending(g: Setting, y: System, msg: seq<byte>)
    requires InRange(g, y) && y.bus.Shape() && Fits(y.bus, msg)
    ensures InRange(g, Next(g, y, Send(msg)))
    ensures Pending(g, Next(g, y, Send(msg))) == Pending(g, y) + OnBus([msg], g.decode, g.worker.oid)
  {
    hide Sent;
    var y', q := Next(g, y, Send(msg)), y.accepted[y.taken..];
    assert y'.accepted[y'.taken..] == q + [msg];
    OnBusConcat(q, [msg], g.decode, g.worker.oid);
  }

  lemma SendConserves(g: Setting, y: System, msg: seq<byte>, initial: set<Pair>)
    requires Conserves(g, y, initial) && Allowed(g, y, Send(msg))
    ensures Conserves(g, Next(g, y, Send(msg)), initial)
  {
    var db := g.worker.oid;
    if Fits(y.bus, msg) {
      SendSane(g, y, msg);
      SendPending(g, y, msg);
      hide Sane, Pending, Sent;
      OnBusConcat(y.accepted, [msg], g.decode, db);
      ReplayConcat(y.sub.s.table, Pending(g, y), OnBus([msg], g.decode, db));
      ReplayConcat(initial, OnBus(y.accepted, g.decode, db), OnBus([msg], g.decode, db));
    }
  }

  lemma TakeSane(g: Setting, y: System, answers: L.Env)
    requires Sane(g, y) && Allowed(g, y, Take(answers))
    ensures Sane(g, Next(g, y, Take(answers)))
  {
    hide L.Consistent, Sound, Contained, Represents, Receive, FrontWraps, L.HandleItem, LauncherRouting.Routed;
    var q := y.accepted[y.taken..];
    BusReceives(g, y.bus, q);
    if q != [] {
      var item, y' := L.Item(g.decode(q[0]), answers), Next(g, y, Take(answers));
      assert y'.accepted[y'.taken..] == q[1..];
      LauncherRouting.HandleItemKeeps(y.launcher, item, g.worker);
      LauncherRouting.HandleRoutes(y.launcher, item, g.worker);
    }
  }

  lemma TakePending(g: Setting, y: System, answers: L.Env)
    requires Sane(g, y) && Allowed(g, y, Take(answers)) && InRange(g, Next(g, y, Take(answers)))
    ensures Pending(g, Next(g, y, Take(answers))) == Pending(g, y)
  {
    hide L.Consistent, Sound, Contained, Represents, Receive, FrontWraps, L.HandleItem, LauncherRouting.Routed;
    var q := y.accepted[y.taken..];
    BusReceives(g, y.bus, q);
    if q != [] {
      var item, y' := L.Item(g.decode(q[0]), answers), Next(g, y, Take(answers));
      var routed := LauncherRouting.Routed(y.launcher, item, g.worker);
      assert y'.accepted[y'.taken..] == q[1..];
      LauncherRouting.HandleRoutes(y.launcher, item, g.worker);
      RoutedCommand(g, y.launcher, q[0], answers);
      assert Queue(g, y')[y'.read..] == Queue(g, y)[y.read..] + routed;
      OnQueueConcat(Queue(g, y)[y.read..], routed);
      Reassociate(OnQueue(Queue(g, y)[y.read..]), OnQueue(routed), OnBus(q[1..], g.decode, g.worker.oid));
    }
  }

  lemma Reassociate<T>(a: seq<T>, b: seq<T>, c: seq<T>)
    ensures (a + b) + c == a + (b + c)
  {
  }

  lemma TakeConserves(g: Setting, y: System, answers: L.Env, initial: set<Pair>)
    requires Conserves(g, y, initial) && Allowed(g, y, Take(answers))
    ensures Conserves(g, Next(g, y, Take(answers)), initial)
  {
    TakeSane(g, y, answers);
    TakePending(g, y, answers);
    hide Sane, Pending, Allowed, Receive, L.HandleItem;
  }

  lemma WaitConserves(g: Setting, y: System, initial: set<Pair>)
    requires Conserves(g, y, initial)
    ensures Conserves(g, Next(g, y, Wait), initial)
  {
    hide L.Consistent, Sound, Contained, Represents;
    LauncherLifecycle.WaitAllKeeps(y.launcher);
  }

  lemma ReadSane(g: Setting, y: System, connected: bool)
    requires Sane(g, y) && Allowed(g, y, Read(connected))
    ensures Sane(g, Next(g, y, Read(connected)))
  {
    hide L.Consistent, Sound, Contained, Represents;
    var e := FromLauncher(Some(Queue(g, y)[y.read]), connected);
    StepKeepsSound(y.sub, e);
    StepRelationsIff(y.sub, e);
    SharedCommand(y.sub.s, Queue(g, y)[y.read], connected);
  }

  lemma ReadPending(g: Setting, y: System, connected: bool)
    requires InRange(g, y) && Allowed(g, y, Read(connected))
    ensures Pending(g, Next(g, y, Read(connected))) == Pending(g, y)
    ensures Next(g, y, Read(connected)).sub.s.table == y.sub.s.table
  {
    hide HandleShared, Receive, L.HandleItem, Sent, Fits, OnBus;
    SharedCommand(y.sub.s, Queue(g, y)[y.read], connected);
    ReadRegroups(OnChannel(y.sub.s.channel), Queue(g, y), y.read, OnBus(y.accepted[y.taken..], g.decode, g.worker.oid));
  }

  lemma ReadRegroups(channel: seq<Command>, queue: seq<SubscriberMessage>, k: nat, bus: seq<Command>)
    requires k < |queue|
    ensures channel + (OnQueue(queue[k..]) + bus) == (channel + OfShared(queue[k])) + (OnQueue(queue[k + 1..]) + bus)
  {
  }

  lemma ReadConserves(g: Setting, y: System, connected: bool, initial: set<Pair>)
    requires Conserves(g, y, initial) && Allowed(g, y, Read(connected))
    ensures Conserves(g, Next(g, y, Read(connected)), initial)
  {
    hide L.Consistent, Sound, Contained, Represents, Receive, L.HandleItem, Sent, Fits, Replay, OnBus, OnQueue, Step;
    ReadSane(g, y, connected);
    ReadPending(g, y, connected);
    hide Sane, Pending, Allowed;
  }

  /** No event of the subscriber on its own adds a command, or removes one unapplied. */
  lemma LocalCommands(w: World, e: Event)
    requires Sound(w) && w.s.status == Master
    requires match e
      case Migrate(observed, _) => observed == Master
      case FromLauncher(_, _) => false
      case DeliverNext(env) => !env.insertFails && !env.deleteFails
      case _ => true
    ensures var w' := Step(w, e);
            && w'.s.status == Master
            && Replay(w'.s.table, OnChannel(w'.s.channel)) == Replay(w.s.table, OnChannel(w.s.channel))
            && !Gains(w, e)
  {
    hide Sound;
    if Enabled(w, e) {
      match e
      case TaskSends(m) =>
        OnChannelConcat(w.s.channel, [m]);
        assert OnChannel([m]) == OfInternal(m) + OnChannel([]) == [];
        assert OnChannel(w.s.channel) + [] == OnChannel(w.s.channel);
      case DeliverNext(env) => DeliverCommand(w.s, env);
      case _ =>
    }
  }

  lemma LocalConserves(g: Setting, y: System, e: Event, initial: set<Pair>)
    requires Conserves(g, y, initial) && Allowed(g, y, Local(e))
    ensures Conserves(g, Next(g, y, Local(e)), initial)
  {
    hide L.Consistent, Sound, Contained, Represents, Step, Gains;
    var y' := Next(g, y, Local(e));
    LocalCommands(y.sub, e);
    StepKeepsSound(y.sub, e);
    StepRelationsIff(y.sub, e);
    var rest := OnQueue(Queue(g, y)[y.read..]) + OnBus(y.accepted[y.taken..], g.decode, g.worker.oid);
    ReplayConcat(y.sub.s.table, OnChannel(y.sub.s.channel), rest);
    ReplayConcat(y'.sub.s.table, OnChannel(y'.sub.s.channel), rest);
  }

  lemma AllowedShape(g: Setting, y: System, m: Move)
    requires Allowed(g, y, m)
    ensures y.bus.Shape()
  {
  }

  lemma NextConserves(g: Setting, y: System, m: Move, initial: set<Pair>)
    requires Conserves(g, y, initial) && Allowed(g, y, m)
    ensures Conserves(g, Next(g, y, m), initial)
  {
    hide Conserves, Allowed, Next;
    AllowedShape(g, y, m);
    match m
    case Send(msg) => SendConserves(g, y, msg, initial);
    case Take(answers) => TakeConserves(g, y, answers, initial);
    case Wait => WaitConserves(g, y, initial);
    case Read(connected) => ReadConserves(g, y, connected, initial);
    case Local(e) => LocalConserves(g, y, e, initial);
  }

  /** The `i`th move of a behaviour is allowed and leads on to its next state. */
  ghost predicate MovesAt(g: Setting, states: seq<System>, moves: seq<Move>, i: nat)
    requires |states| == |moves| + 1 && i < |moves|
  {
    Allowed(g, states[i], moves[i]) && states[i + 1] == Next(g, states[i], moves[i])
  }

  /** A run: each of its moves is allowed where it is made. */
  ghost predicate Behaviour(g: Setting, states: seq<System>, moves: seq<Move>) {
    |states| == |moves| + 1 && forall i: nat :: i < |moves| ==> MovesAt(g, states, moves, i)
  }

  lemma {:induction false} RunConserves(g: Setting, states: seq<System>, moves: seq<Move>, k: nat, initial: set<Pair>)
    requires Behaviour(g, states, moves) && k <= |moves| && Conserves(g, states[0], initial)
    ensures Conserves(g, states[k], initial)
  {
    hide Conserves, Allowed, Next;
    if k > 0 {
      RunConserves(g, states, moves, k - 1, initial);
      assert MovesAt(g, states, moves, k - 1);
      NextConserves(g, states[k - 1], moves[k - 1], initial);
    }
  }

  /** Any state in which the worker is registered; `accepted` counts from what is then on the bus. */
  ghost predicate Start(g: Setting, y: System) {
    Sane(g, y) && y.taken == 0
  }

  /** The first rows, with the commands that have already left the bus. */
  function FirstRows(g: Setting, y: System): set<Pair>
    requires InRange(g, y)
  {
    Replay(y.sub.s.table, OnChannel(y.sub.s.channel) + OnQueue(Queue(g, y)[y.read..]))
  }

  lemma StartConserves(g: Setting, y: System)
    requires Start(g, y)
    ensures Conserves(g, y, FirstRows(g, y))
  {
    assert InRange(g, y);
    hide Sane;
    var here := OnChannel(y.sub.s.channel) + OnQueue(Queue(g, y)[y.read..]);
    var onBus := OnBus(y.accepted, g.decode, g.worker.oid);
    assert y.accepted[0..] == y.accepted;
    Reassociate(OnChannel(y.sub.s.channel), OnQueue(Queue(g, y)[y.read..]), onBus);
    ReplayConcat(y.sub.s.table, here, onBus);
  }

  /**
    Such a state is met: in any run of the launcher in which the worker is registered, on any bus
    that is then empty, when the subscriber enters its loop as master with its rows fetched.
   */
  lemma LaunchStarts(g: Setting, bus: Ring, startups: seq<L.Startup>, turns: seq<seq<L.Item>>,
                     config: Config, table: set<Pair>, rows: seq<Pair>)
    requires Represents(bus, []) && bus.read < bus.Capacity() && RowSet(rows) == table
    requires LauncherRuns.NoRepeat(startups, {})
    requires L.Holds(L.Turns(L.StartAll(L.INITIAL, startups), turns).workers, g.worker)
    ensures var launcher := L.Turns(L.StartAll(L.INITIAL, startups), turns);
            var y := System(bus, [], 0, launcher, 0, Launch(Master, config, table, Some(rows)));
            Start(g, y) && Agrees(y.sub.s) && FirstRows(g, y) == Replay(table, OnQueue(Queue(g, y)))
  {
    hide L.Consistent, L.Turns, L.StartAll;
    var launcher := L.Turns(L.StartAll(L.INITIAL, startups), turns);
    var y := System(bus, [], 0, launcher, 0, Launch(Master, config, table, Some(rows)));
    LauncherRuns.AlwaysConsistent(startups, turns);
    LauncherLifecycle.RunningWasStarted(launcher, g.worker);
    LaunchSound(Master, config, table, Some(rows));
    RestorePairsOfRows(rows);
    assert [] + RowMessages(rows) == RowMessages(rows);
    NoCommandsOnChannel(RowMessages(rows));
    assert Queue(g, y)[0..] == Queue(g, y);
    assert [] + OnQueue(Queue(g, y)) == OnQueue(Queue(g, y));
  }

  /**
    And such a run exists, for either bus: the database is found at launch, its worker reports over
    the new bus that the extension is there, and the launcher takes that record.
   */
  lemma LaunchReached(g: Setting, capacity: nat, name: string, record: seq<byte>, answers: L.Env,
                      config: Config, table: set<Pair>, rows: seq<Pair>)
    requires HEADER_SIZE + |record| < capacity < ISIZE_LIMIT && RowSet(rows) == table
    requires g.decode(record) == Some(DbExtensionStatus(g.worker.oid, Exist))
    requires g.worker == L.WorkerEntry(0, g.worker.oid, name)
    ensures var bus := R.After(g.variant, New(capacity), [R.SendOp(record), R.RecvOp]);
            var launched := L.StartAll(L.INITIAL, [L.Startup(g.worker.oid, Some(name))]);
            var launcher := L.Turns(launched, [[L.Item(g.decode(record), answers)]]);
            Start(g, System(bus, [], 0, launcher, 0, Launch(Master, config, table, Some(rows))))
  {
    ReportTaken(g, capacity, record);
    WorkerRegistered(g, name, record, answers);
    var startups := [L.Startup(g.worker.oid, Some(name))];
    assert startups[1..] == [];
    hide Start, L.Turns, L.StartAll, R.After;
    LaunchStarts(g, R.After(g.variant, New(capacity), [R.SendOp(record), R.RecvOp]), startups,
                 [[L.Item(g.decode(record), answers)]], config, table, rows);
  }

  lemma ReportTaken(g: Setting, capacity: nat, record: seq<byte>)
    requires HEADER_SIZE + |record| < capacity < ISIZE_LIMIT
    ensures var bus := R.After(g.variant, New(capacity), [R.SendOp(record), R.RecvOp]);
            Represents(bus, []) && bus.read < bus.Capacity()
  {
    hide Represents, Receive, Sent;
    var r0, ops := New(capacity), [R.SendOp(record), R.RecvOp];
    NewIsEmpty(capacity);
    SentIntoNew(capacity, record);
    var r1 := Sent(r0, record);
    SendAppends(r0, [], record);
    assert [] + [record] == [record] && [record][1..] == [];
    RepresentsShape(r1, [record]);
    VariantsAgree(r1, [record]);
    IntendedReceives(r1, [record]);
    assert g.variant == Written || g.variant == Intended;
    var r2 := Receive(g.variant, r1).next;
    assert ops[1..] == [R.RecvOp] && ops[1..][1..] == [];
    assert R.Step(g.variant, r0, ops[0]).1 == r1 && R.Step(g.variant, r1, R.RecvOp).1 == r2;
    assert R.After(g.variant, r1, [R.RecvOp]) == R.After(g.variant, r2, []);
  }

  lemma SentIntoNew(capacity: nat, record: seq<byte>)
    requires HEADER_SIZE + |record| < capacity < ISIZE_LIMIT
    ensures Fits(New(capacity), record) && !LosesFull(New(capacity), record)
    ensures Sent(New(capacity), record).read == 0 && !Sent(New(capacity), record).full
  {
  }

  lemma WorkerRegistered(g: Setting, name: string, record: seq<byte>, answers: L.Env)
    requires g.decode(record) == Some(DbExtensionStatus(g.worker.oid, Exist))
    requires g.worker == L.WorkerEntry(0, g.worker.oid, name)
    ensures var launched := L.StartAll(L.INITIAL, [L.Startup(g.worker.oid, Some(name))]);
            L.Holds(L.Turns(launched, [[L.Item(g.decode(record), answers)]]).workers, g.worker)
  {
    var startups, item := [L.Startup(g.worker.oid, Some(name))], L.Item(g.decode(record), answers);
    var launched := L.Start(L.INITIAL, g.worker.oid, Some(name));
    assert startups[1..] == [] && [item][1..] == [] && [[item]][1..] == [];
    assert L.StartAll(L.INITIAL, startups) == launched;
    var waited := L.WaitAll(launched);
    assert L.HandleItems(waited, [item]) == L.HandleItem(waited, item);
    assert L.Turns(launched, [[item]]) == L.HandleItems(waited, [item]);
  }

  /** Every record was taken, every message read, and the channel was emptied. */
  predicate Drained(g: Setting, y: System) {
    y.taken == |y.accepted| && y.read == |Queue(g, y)| && y.sub.s.channel == []
  }

  /**
    Once everything is drained the table is what the database's commands, in the order the bus
    accepted them, make of its first rows; and the index has nothing the table has not.
   */
  lemma EndToEnd(g: Setting, states: seq<System>, moves: seq<Move>)
    requires Behaviour(g, states, moves) && Start(g, states[0]) && Drained(g, states[|moves|])
    ensures var last := states[|moves|];
            && last.sub.s.table == Replay(FirstRows(g, states[0]), OnBus(last.accepted, g.decode, g.worker.oid))
            && Pairs(last.sub.s.index) <= last.sub.s.table
  {
    hide MovesAt;
    StartConserves(g, states[0]);
    RunConserves(g, states, moves, |moves|, FirstRows(g, states[0]));
    assert Pending(g, states[|moves|]) == [];
    NoRestores([]);
  }

  /** No event of the subscriber on its own drives index and table apart. */
  ghost predicate NothingDrifts(states: seq<System>, moves: seq<Move>)
    requires |states| == |moves| + 1
  {
    forall i: nat :: i < |moves| && moves[i].Local? ==> !Drifts(states[i].sub, moves[i].event)
  }

  lemma NextAgreesIff(g: Setting, y: System, m: Move, initial: set<Pair>)
    requires Conserves(g, y, initial) && Allowed(g, y, m) && Agrees(y.sub.s)
    ensures Agrees(Next(g, y, m).sub.s) <==> !(m.Local? && Drifts(y.sub, m.event))
  {
    hide L.Consistent, Sound, Contained, Represents, Agrees, Drifts, Step, Gains;
    match m
    case Read(connected) => ReadKeepsAgreement(g, y, connected);
    case Local(e) =>
      LocalCommands(y.sub, e);
      StepRelationsIff(y.sub, e);
    case _ =>
  }

  lemma ReadKeepsAgreement(g: Setting, y: System, connected: bool)
    requires Sane(g, y) && y.read < |Queue(g, y)| && Agrees(y.sub.s)
    ensures Agrees(Next(g, y, Read(connected)).sub.s)
  {
  }

  lemma {:induction false} RunKeepsAgreement(g: Setting, states: seq<System>, moves: seq<Move>, k: nat,
                                             initial: set<Pair>)
    requires Behaviour(g, states, moves) && k <= |moves| && Conserves(g, states[0], initial)
    requires NothingDrifts(states, moves) && Agrees(states[0].sub.s)
    ensures Agrees(states[k].sub.s)
  {
    hide Conserves, Allowed, Next, Agrees, Drifts;
    if k > 0 {
      RunKeepsAgreement(g, states, moves, k - 1, initial);
      RunConserves(g, states, moves, k - 1, initial);
      assert MovesAt(g, states, moves, k - 1);
      NextAgreesIff(g, states[k - 1], moves[k - 1], initial);
    }
  }

  /** Exactly then index, with the rows still to be restored, and table agree all along. */
  lemma AgreesAllAlongIff(g: Setting, states: seq<System>, moves: seq<Move>, initial: set<Pair>)
    requires Behaviour(g, states, moves) && Conserves(g, states[0], initial)
    ensures (forall k: nat :: k <= |moves| ==> Agrees(states[k].sub.s))
       <==> Agrees(states[0].sub.s) && NothingDrifts(states, moves)
  {
    hide Conserves, Allowed, Next, Agrees, Drifts;
    if Agrees(states[0].sub.s) && NothingDrifts(states, moves) {
      forall k: nat | k <= |moves| ensures Agrees(states[k].sub.s) {
        RunKeepsAgreement(g, states, moves, k, initial);
      }
    } else if forall k: nat :: k <= |moves| ==> Agrees(states[k].sub.s) {
      forall i: nat | i < |moves| && moves[i].Local? ensures !Drifts(states[i].sub, moves[i].event) {
        RunConserves(g, states, moves, i, initial);
        assert MovesAt(g, states, moves, i);
        NextAgreesIff(g, states[i], moves[i], initial);
        assert Agrees(states[i + 1].sub.s);
      }
    }
  }

  /** Then what the subscriber listens to is exactly what the commands come to. */
  lemma EndToEndIndex(g: Setting, states: seq<System>, moves: seq<Move>)
    requires Behaviour(g, states, moves) && Start(g, states[0]) && Drained(g, states[|moves|])
    requires NothingDrifts(states, moves) && Agrees(states[0].sub.s)
    ensures var last := states[|moves|];
            Pairs(last.sub.s.index) == Replay(FirstRows(g, states[0]), OnBus(last.accepted, g.decode, g.worker.oid))
  {
    hide MovesAt;
    EndToEnd(g, states, moves);
    StartConserves(g, states[0]);
    RunConserves(g, states, moves, |moves|, FirstRows(g, states[0]));
    RunKeepsAgreement(g, states, moves, |moves|, FirstRows(g, states[0]));
    NoRestores([]);
  }
}
