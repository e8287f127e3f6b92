/** `src/bgw/launcher/mod.rs`: draining the bus, the main loop, and sending to the bus with retries. */
module LauncherBus {
  import opened Bytes
  import opened Messages
  import opened RingState
  import opened RingFifo
  import opened RingRuns
  import opened RingDrain
  import opened LauncherState
  import opened LauncherRuns
  import opened LauncherDrain
  import RingQueue
  import RetrySend
  import LauncherContext

  method HandleMessage(ctx: LauncherContext.LauncherContext, msg: LauncherMessage, env: Env)
    modifies ctx
    ensures ctx.State() == Handle(old(ctx.State()), msg, env)
  {
    match msg
    case DbExtensionStatus(dbOid, status) =>
      match status {
        case Exist => ctx.RegisterWorker(dbOid);
        case NoExtension => ctx.ShutdownWorker(dbOid);
        case NoForeignServer => ctx.ShutdownWorker(dbOid);
      }
    case LauncherNewConfig(dbOid, config) =>
      var _, _ := ctx.HandleNewConfigMessage(dbOid, config, env);
    case LauncherSubscribe(dbOid, subject, fnName) =>
      var _ := ctx.HandleSubscribeMessage(dbOid, subject, fnName, env);
    case LauncherUnsubscribe(dbOid, subject, fnName) =>
      var _ := ctx.HandleUnsubscribeMessage(dbOid, subject, fnName, env);
    case SubscriberExit(dbOid, _) =>
      ctx.ShutdownWorker(dbOid);
    case ForeignServerDropped(dbOid) =>
      ctx.ShutdownWorker(dbOid);
  }

  /**
    Takes every record off the bus, while its lock is held, and handles each decodable one once, in
    order, in any state of the bus. If the bus holds `q`, those are the messages of `q` and the bus
    ends empty, unless it is full and its front record wraps: then nothing is handled or changed.
    A registered worker stays exactly when no record ends it, and then its queue grows by exactly
    what the records are for it.
   */
  method ProcessLauncherBus(queue: RingQueue.RingQueue, ctx: LauncherContext.LauncherContext,
                            decode: Decoder, env: nat -> Env, ghost q: seq<seq<byte>>)
    returns (panicked: bool)
    requires queue.Valid()
    modifies queue, ctx
    ensures queue.Valid() && queue.State() == DrainEnd(old(queue.State()))
    ensures panicked <==> DrainPanics(old(queue.State()))
    ensures ctx.State() == HandleItems(old(ctx.State()), Items(Drained(old(queue.State())), decode, env, 0))
    ensures Represents(old(queue.State()), q) ==>
              && (panicked <==> FrontWraps(old(queue.State())))
              && (panicked ==> queue.State() == old(queue.State()) && ctx.State() == old(ctx.State()))
              && (!panicked ==> Represents(queue.State(), []))
              && (!panicked ==> ctx.State() == HandleItems(old(ctx.State()), Items(q, decode, env, 0)))
              && (!panicked && Consistent(old(ctx.State())) ==> Routes(old(ctx.State()), ctx.State(), q, decode, env))
  {
    hide Represents, Receive, FrontWraps, Handle, Consistent, Routes;
    ghost var bus, all := queue.State(), Items(Drained(queue.State()), decode, env, 0);
    var k := 0;
    panicked := false;
    while true
      invariant queue.Valid() && DrainEnd(queue.State()) == DrainEnd(bus)
      invariant HandleItems(ctx.State(), Items(Drained(queue.State()), decode, env, k))
             == HandleItems(old(ctx.State()), all)
      decreases queue.State().Used()
    {
      ghost var here := queue.State();
      var received := queue.TryRecv();
      match received {
        case OutOfRange =>
          panicked := true;
          break;
        case Got(buf) =>
          ReceiveShrinks(Written, here);
          ghost var items := Items(Drained(here), decode, env, k);
          var parsed := decode(buf);
          if parsed.Some? {
            HandleMessage(ctx, parsed.value, env(k));
          }
          assert items[0] == Item(parsed, env(k)) && items[1..] == Items(Drained(queue.State()), decode, env, k + 1);
          k := k + 1;
        case Nothing =>
          break;
      }
    }
    if Represents(bus, q) {
      DrainIsFifo(bus, q);
      if Consistent(old(ctx.State())) {
        DrainRoutes(old(ctx.State()), q, decode, env);
      }
    }
  }

  /** What each turn takes off the bus, when the given messages are sent in the pauses before the turns. */
  function TurnsOn(r: Ring, pauses: seq<seq<seq<byte>>>, decode: Decoder, env: nat -> nat -> Env, i: nat)
    : (turns: seq<seq<Item>>)
    requires r.Shape()
    ensures |turns| == |pauses|
    decreases |pauses|
  {
    if pauses == [] then [] else
    var sent := After(Written, r, Sends(pauses[0]));
    [Items(Drained(sent), decode, env(i), 0)] + TurnsOn(DrainEnd(sent), pauses[1..], decode, env, i + 1)
  }

  /** The same of a FIFO: what was there at first, and what was sent in the pause as far as it fitted. */
  function TurnsOf(capacity: nat, q: seq<seq<byte>>, pauses: seq<seq<seq<byte>>>,
                   decode: Decoder, env: nat -> nat -> Env, i: nat): (turns: seq<seq<Item>>)
    ensures |turns| == |pauses|
    decreases |pauses|
  {
    if pauses == [] then [] else
    var found := FifoAfter(capacity, q, Sends(pauses[0]));
    [Items(found, decode, env(i), 0)] + TurnsOf(capacity, [], pauses[1..], decode, env, i + 1)
  }

  /** Where everything is safe, no turn panics and every turn finds what the FIFO has. */
  lemma {:induction false} SafeTurnsRefine(r: Ring, q: seq<seq<byte>>, pauses: seq<seq<seq<byte>>>,
                                           decode: Decoder, env: nat -> nat -> Env, i: nat)
    requires Represents(r, q) && SafePauses(r, pauses)
    ensures !PausesPanic(r, pauses)
    ensures TurnsOn(r, pauses, decode, env, i) == TurnsOf(r.Capacity(), q, pauses, decode, env, i)
    decreases |pauses|
  {
    hide Represents, FrontWraps, Items;
    RepresentsShape(r, q);
    if pauses != [] {
      var ops := Sends(pauses[0]);
      SafeRunAfter(r, q, ops);
      DrainIsFifo(After(Written, r, ops), FifoAfter(r.Capacity(), q, ops));
      DrainKeepsCapacity(After(Written, r, ops));
      SafeTurnsRefine(DrainEnd(After(Written, r, ops)), [], pauses[1..], decode, env, i + 1);
    }
  }

  /**
    That is, the records it accepted in the pause before, in order, each decoded and with the answers
    of its place; in the first turn behind those there at first.
   */
  lemma SafeTurnsRead(r: Ring, q: seq<seq<byte>>, pauses: seq<seq<seq<byte>>>,
                      decode: Decoder, env: nat -> nat -> Env, i: nat, j: nat)
    requires Represents(r, q) && SafePauses(r, pauses) && j < |pauses|
    ensures ReadsAs(TurnsOn(r, pauses, decode, env, i)[j],
                    FifoAfter(r.Capacity(), if j == 0 then q else [], Sends(pauses[j])), decode, env(i + j))
  {
    RepresentsShape(r, q);
    SafeTurnsRefine(r, q, pauses, decode, env, i);
    TurnOf(r.Capacity(), q, pauses, decode, env, i, j);
    ItemsReadAs(FifoAfter(r.Capacity(), if j == 0 then q else [], Sends(pauses[j])), decode, env(i + j));
  }

  lemma {:induction false} TurnOf(capacity: nat, q: seq<seq<byte>>, pauses: seq<seq<seq<byte>>>,
                                  decode: Decoder, env: nat -> nat -> Env, i: nat, j: nat)
    requires j < |pauses|
    ensures TurnsOf(capacity, q, pauses, decode, env, i)[j]
         == Items(FifoAfter(capacity, if j == 0 then q else [], Sends(pauses[j])), decode, env(i + j), 0)
    decreases |pauses|
  {
    hide Items;
    if j > 0 {
      TurnOf(capacity, [], pauses[1..], decode, env, i + 1, j - 1);
    }
  }

  lemma {:induction false} DrainKeepsCapacity(r: Ring)
    requires r.Shape()
    ensures DrainEnd(r).Capacity() == r.Capacity()
    decreases r.Used()
  {
    if Receive(Written, r).Message? {
      ReceiveShrinks(Written, r);
      ReceiveKeepsShape(Written, r);
      DrainKeepsCapacity(Receive(Written, r).next);
    }
  }

  /** `add_subscribe_workers`. */
  method AddSubscribeWorkers(ctx: LauncherContext.LauncherContext, startups: seq<Startup>)
    modifies ctx
    ensures ctx.State() == StartAll(old(ctx.State()), startups)
  {
    hide Start;
    for i := 0 to |startups|
      invariant StartAll(ctx.State(), startups[i..]) == StartAll(old(ctx.State()), startups)
    {
      assert startups[i..][0] == startups[i] && startups[i..][1..] == startups[i + 1..];
      var _ := ctx.StartSubscribeWorker(startups[i].oid, startups[i].dbName);
    }
  }

  /** One pause, in which others send `msgs`, and the turn after it. */
  method RunTurn(queue: RingQueue.RingQueue, ctx: LauncherContext.LauncherContext, msgs: seq<seq<byte>>,
                 decode: Decoder, env: nat -> Env)
    returns (panicked: bool)
    requires queue.Valid() && AllKeyed(ctx.State())
    modifies queue, queue.buffer, ctx
    ensures queue.Valid()
    ensures var sent := After(Written, old(queue.State()), Sends(msgs));
            && queue.State() == DrainEnd(sent)
            && (panicked <==> DrainPanics(sent))
            && ctx.State() == HandleItems(WaitAll(old(ctx.State())), Items(Drained(sent), decode, env, 0))
    ensures AllKeyed(ctx.State())
  {
    hide WaitAll, HandleItems, Items, Represents, FrontWraps;
    RetrySend.Interfere(queue, Sends(msgs));
    ghost var found := Items(Drained(queue.State()), decode, env, 0);
    TurnKeepsKeys(ctx.State(), found);
    ctx.ProcessTerminatedWorkers();
    panicked := ProcessLauncherBus(queue, ctx, decode, env, []);
  }

  /**
    The main loop, over the pauses before it is told to stop, and its orderly end. In each pause
    other processes send the given messages; the launcher ends early exactly when some drain reads
    out of range. If the bus holds `q` at first and everything is safe, every message a FIFO would
    have accepted is handled in the turn after its pause, in order, and the bus ends empty.
   */
  method RunLauncher(queue: RingQueue.RingQueue, startups: seq<Startup>, pauses: seq<seq<seq<byte>>>,
                     decode: Decoder, env: nat -> nat -> Env, ghost q: seq<seq<byte>>)
    returns (ctx: LauncherContext.LauncherContext, panicked: bool)
    requires queue.Valid()
    modifies queue, queue.buffer
    ensures fresh(ctx) && queue.Valid()
    ensures panicked <==> PausesPanic(old(queue.State()), pauses)
    ensures !panicked ==>
              ctx.State() == LauncherMain(startups, TurnsOn(old(queue.State()), pauses, decode, env, 0))
    ensures Represents(old(queue.State()), q) && SafePauses(old(queue.State()), pauses) ==>
              && !panicked
              && ctx.State() == LauncherMain(startups, TurnsOf(queue.buffer.Length, q, pauses, decode, env, 0))
              && Represents(queue.State(), if pauses == [] then q else [])
  {
    hide StartAll, WaitAll, HandleItems, ShutdownAll, Items, Represents, AllKeyed, SafePauses, TurnsOf, DrainPanics,
         Receive, FifoAfter, Turns, TurnsOn, PausesPanic, After, DrainEnd;
    ghost var bus := queue.State();
    ghost var safe := Represents(bus, q) && SafePauses(bus, pauses);
    if safe {
      SafeTurnsRefine(bus, q, pauses, decode, env, 0);
    }
    ctx := new LauncherContext.LauncherContext();
    AddSubscribeWorkers(ctx, startups);
    ghost var launched := ctx.State();
    LaunchKeyed(startups);
    for i := 0 to |pauses|
      invariant queue.Valid() && AllKeyed(ctx.State())
      invariant PausesPanic(queue.State(), pauses[i..]) <==> PausesPanic(bus, pauses)
      invariant safe ==> Represents(queue.State(), if i == 0 then q else []) && SafePauses(queue.State(), pauses[i..])
      invariant Turns(ctx.State(), TurnsOn(queue.State(), pauses[i..], decode, env, i))
             == Turns(launched, TurnsOn(bus, pauses, decode, env, 0))
    {
      assert pauses[i..][0] == pauses[i] && pauses[i..][1..] == pauses[i + 1..];
      TurnsStep(ctx.State(), queue.State(), pauses[i..], decode, env, i);
      if safe {
        TurnEmpties(queue.State(), if i == 0 then q else [], pauses[i..]);
      }
      panicked := RunTurn(queue, ctx, pauses[i], decode, env(i));
      if panicked {
        return;
      }
    }
    TurnsOver(ctx.State(), queue.State(), decode, env, |pauses|);
    KeyedParts(ctx.State());
    ctx.ShutdownAllWorkers();
    ctx.ProcessTerminatedWorkers();
    panicked := false;
  }

  lemma TurnEmpties(r: Ring, q: seq<seq<byte>>, pauses: seq<seq<seq<byte>>>)
    requires Represents(r, q) && SafePauses(r, pauses) && pauses != []
    ensures r.Shape()
    ensures var end := DrainEnd(After(Written, r, Sends(pauses[0])));
            Represents(end, []) && SafePauses(end, pauses[1..])
  {
    hide Represents, FrontWraps;
    RepresentsShape(r, q);
    SafeRunAfter(r, q, Sends(pauses[0]));
    DrainIsFifo(After(Written, r, Sends(pauses[0])), FifoAfter(r.Capacity(), q, Sends(pauses[0])));
  }

  lemma TurnsOver(s: Launcher, r: Ring, decode: Decoder, env: nat -> nat -> Env, i: nat)
    requires r.Shape()
    ensures !PausesPanic(r, []) && Turns(s, TurnsOn(r, [], decode, env, i)) == s
  {
  }

  lemma TurnsStep(s: Launcher, r: Ring, pauses: seq<seq<seq<byte>>>, decode: Decoder, env: nat -> nat -> Env, i: nat)
    requires r.Shape() && pauses != []
    ensures var turns, sent := TurnsOn(r, pauses, decode, env, i), After(Written, r, Sends(pauses[0]));
            && turns != []
            && turns[0] == Items(Drained(sent), decode, env(i), 0)
            && turns[1..] == TurnsOn(DrainEnd(sent), pauses[1..], decode, env, i + 1)
            && Turns(s, turns)
               == Turns(HandleItems(WaitAll(s), Items(Drained(sent), decode, env(i), 0)),
                        TurnsOn(DrainEnd(sent), pauses[1..], decode, env, i + 1))
            && (PausesPanic(r, pauses) <==> DrainPanics(sent) || PausesPanic(DrainEnd(sent), pauses[1..]))
  {
  }

  /** Every map is keyed by the oids of its entries. This needs nothing of the databases at launch. */
  ghost predicate AllKeyed(s: Launcher) {
    KeyedByOid(s.pending) && KeyedByOid(s.workers) && KeyedByOid(s.terminated)
  }

  lemma HandleKeyed(s: Launcher, item: Item)
    requires AllKeyed(s)
    ensures AllKeyed(HandleItem(s, item))
  {
    hide AllKeyed, Register, Shutdown, Start, Send;
    if item.m.Some? {
      LifecycleKeyed(s, item.m.value.dbOid, item.env.dbName);
    }
    SendKeyed(s);
  }

  lemma LifecycleKeyed(s: Launcher, oid: Oid, dbName: Option<string>)
    requires AllKeyed(s)
    ensures AllKeyed(Register(s, oid)) && AllKeyed(Shutdown(s, oid)) && AllKeyed(Start(s, oid, dbName))
  {
    ShutdownKeyed(s, oid);
    hide Shutdown;
  }

  lemma ShutdownKeyed(s: Launcher, oid: Oid)
    requires AllKeyed(s)
    ensures AllKeyed(Shutdown(s, oid))
  {
  }

  lemma SendKeyed(s: Launcher)
    requires AllKeyed(s)
    ensures forall oid, msg, ok :: AllKeyed(Send(s, oid, msg, ok))
  {
  }

  lemma {:induction false} ItemsKeyed(s: Launcher, items: seq<Item>)
    requires AllKeyed(s)
    ensures AllKeyed(HandleItems(s, items))
    decreases |items|
  {
    hide AllKeyed, HandleItem;
    if items != [] {
      HandleKeyed(s, items[0]);
      ItemsKeyed(HandleItem(s, items[0]), items[1..]);
    }
  }

  lemma {:induction false} StartsKeyed(s: Launcher, startups: seq<Startup>)
    requires AllKeyed(s)
    ensures AllKeyed(StartAll(s, startups))
    decreases |startups|
  {
    if startups != [] {
      StartsKeyed(Start(s, startups[0].oid, startups[0].dbName), startups[1..]);
    }
  }

  lemma LaunchKeyed(startups: seq<Startup>)
    ensures AllKeyed(StartAll(INITIAL, startups))
  {
    StartsKeyed(INITIAL, startups);
  }

  lemma TurnKeepsKeys(s: Launcher, items: seq<Item>)
    requires AllKeyed(s)
    ensures KeyedByOid(s.terminated) && AllKeyed(HandleItems(WaitAll(s), items))
  {
    ItemsKeyed(WaitAll(s), items);
  }

  lemma KeyedParts(s: Launcher)
    requires AllKeyed(s)
    ensures KeyedByOid(s.workers) && KeyedByOid(s.pending) && KeyedByOid(s.terminated)
    ensures KeyedByOid(ShutdownAll(s).terminated)
  {
  }
}
