/** That the end the end-to-end theorem speaks of can be reached, from every state in which it can at all. */
module EndToEndDrains {
  import opened Bytes
  import opened RingState
  import opened RingFifo
  import RingDrain
  import opened Commands
  import L = LauncherState
  import LauncherDrain
  import opened SubscriptionIndex
  import opened SubscriberState
  import opened SubscriberRuns
  import opened EndToEnd

  /** The moves, each allowed where it is made, lead from `y` to `last`. */
  ghost predicate Leads(g: Setting, y: System, moves: seq<Move>, last: System)
    decreases |moves|
  {
    if moves == [] then y == last
    else Allowed(g, y, moves[0]) && Leads(g, Next(g, y, moves[0]), moves[1..], last)
  }

  lemma {:induction false} LeadsOn(g: Setting, y: System, a: seq<Move>, mid: System, b: seq<Move>, last: System)
    requires Leads(g, y, a, mid) && Leads(g, mid, b, last)
    ensures Leads(g, y, a + b, last)
    decreases |a|
  {
    hide Allowed, Next;
    if a == [] {
      assert a + b == b;
    } else {
      assert (a + b)[1..] == a[1..] + b;
      AllowedShape(g, y, a[0]);
      LeadsOn(g, Next(g, y, a[0]), a[1..], mid, b, last);
    }
  }

  lemma LeadsBy(g: Setting, y: System, m: Move)
    requires Allowed(g, y, m)
    ensures y.bus.Shape() && Leads(g, y, [m], Next(g, y, m))
  {
    AllowedShape(g, y, m);
    hide Allowed, Next;
    assert [m][1..] == [];
  }

  /** What each move gets done: a FIFO would accept the same records, and every other move goes one forward. */
  lemma MovesProgress(g: Setting, y: System, m: Move, initial: set<Pair>)
    requires Conserves(g, y, initial) && Allowed(g, y, m)
    ensures var y' := Next(g, y, m);
      match m
      case Send(msg) =>
        y' == y.(bus := y'.bus, accepted :=
          y.accepted + if Size(y.accepted[y.taken..]) + HEADER_SIZE + |msg| <= y.bus.Capacity() then [msg] else [])
      case Take(answers) =>
        y' == if y.taken == |y.accepted| then y else
          y.(bus := y'.bus, taken := y.taken + 1,
             launcher := L.HandleItem(y.launcher, L.Item(g.decode(y.accepted[y.taken]), answers)))
      case Wait => y' == y.(launcher := L.WaitAll(y.launcher))
      case Read(connected) =>
        y' == y.(read := y.read + 1, sub := Step(y.sub, FromLauncher(Some(Queue(g, y)[y.read]), connected)))
      case Local(e) => y' == y.(sub := Step(y.sub, e))
  {
    hide L.Consistent, Sound, Contained, Represents, Receive, FrontWraps, L.HandleItem, Sent, Step;
    match m
    case Send(msg) => AcceptsIffFits(y.bus, y.accepted[y.taken..], msg);
    case Take(_) => BusReceives(g, y.bus, y.accepted[y.taken..]);
    case _ =>
  }

  /** The bus can be drained: no record still on it ends the worker, and a front record that wraps does not block it. */
  ghost predicate CanTake(g: Setting, y: System) {
    && y.bus.Shape() && y.taken <= |y.accepted|
    && LauncherDrain.KeepsWorker(y.accepted[y.taken..], g.decode, g.worker.oid)
    && (g.variant.Written? ==> !FrontWraps(y.bus))
  }

  const ANSWERS: L.Env := L.Env(None, true)

  const NO_FAILURE: Env := Env(false, false, _ => Called)

  lemma TakeOne(g: Setting, y: System, initial: set<Pair>)
    requires Conserves(g, y, initial) && CanTake(g, y) && y.taken < |y.accepted|
    ensures Allowed(g, y, Take(ANSWERS))
    ensures var y' := Next(g, y, Take(ANSWERS));
            Conserves(g, y', initial) && CanTake(g, y')
            && y'.accepted == y.accepted && y'.taken == y.taken + 1 && y'.sub == y.sub
  {
    TakeAllowed(g, y, initial);
    NextConserves(g, y, Take(ANSWERS), initial);
    MovesProgress(g, y, Take(ANSWERS), initial);
    hide Conserves, Receive, FrontWraps, Allowed, L.HandleItem;
    BusClears(g, y);
    RestKept(g, y.accepted[y.taken..]);
    assert y.accepted[y.taken..][1..] == y.accepted[y.taken + 1..];
    ConservesShape(g, Next(g, y, Take(ANSWERS)), initial);
  }

  lemma TakeAllowed(g: Setting, y: System, initial: set<Pair>)
    requires Conserves(g, y, initial) && CanTake(g, y) && y.taken < |y.accepted|
    ensures Allowed(g, y, Take(ANSWERS))
  {
    hide L.Consistent, Sound, Contained, Represents, Receive, FrontWraps, L.HandleItem, Replay, Pending;
    var rest := y.accepted[y.taken..];
    assert rest[0] in rest;
    BusReceives(g, y.bus, rest);
    LauncherDrain.ItemKeepsWorker(y.launcher, L.Item(g.decode(rest[0]), ANSWERS), g.worker);
  }

  lemma RestKept(g: Setting, records: seq<seq<byte>>)
    requires records != [] && LauncherDrain.KeepsWorker(records, g.decode, g.worker.oid)
    ensures LauncherDrain.KeepsWorker(records[1..], g.decode, g.worker.oid)
  {
    LauncherDrain.KeepsFirst(records, g.decode, g.worker.oid);
  }

  lemma BusClears(g: Setting, y: System)
    requires y.bus.Shape() && Receive(g.variant, y.bus).Message?
    ensures g.variant.Written? ==>
              Receive(g.variant, y.bus).next.Shape() && !FrontWraps(Receive(g.variant, y.bus).next)
  {
    ReceiveKeepsShape(g.variant, y.bus);
    if g.variant.Written? {
      RingDrain.ReceiveClearsFull(y.bus);
      RingDrain.ReceiveClearsFull(Receive(Written, y.bus).next);
    }
  }

  lemma ConservesShape(g: Setting, y: System, initial: set<Pair>)
    requires Conserves(g, y, initial)
    ensures InRange(g, y) && y.bus.Shape() && y.sub.s.status == Master && L.Holds(y.launcher.workers, g.worker)
  {
    RepresentsShape(y.bus, y.accepted[y.taken..]);
  }

  lemma {:induction false} TakeAll(g: Setting, y: System, initial: set<Pair>) returns (moves: seq<Move>, last: System)
    requires Conserves(g, y, initial) && CanTake(g, y)
    ensures Leads(g, y, moves, last) && Conserves(g, last, initial)
    ensures last.accepted == y.accepted && last.taken == |last.accepted| && last.sub == y.sub
    decreases |y.accepted| - y.taken
  {
    hide Conserves, Allowed, Next, CanTake;
    CanTakeInRange(g, y);
    if y.taken == |y.accepted| {
      return [], y;
    }
    TakeOne(g, y, initial);
    LeadsBy(g, y, Take(ANSWERS));
    var y' := Next(g, y, Take(ANSWERS));
    CanTakeInRange(g, y');
    var more;
    more, last := TakeAll(g, y', initial);
    moves := [Take(ANSWERS)] + more;
    LeadsOn(g, y, [Take(ANSWERS)], y', more, last);
  }

  lemma CanTakeInRange(g: Setting, y: System)
    requires CanTake(g, y)
    ensures y.taken <= |y.accepted|
  {
  }

  /** One move of the subscriber on its own. */
  lemma LocalOne(g: Setting, y: System, e: Event, initial: set<Pair>)
    requires Conserves(g, y, initial) && Allowed(g, y, Local(e))
    ensures var y' := y.(sub := Step(y.sub, e)); Leads(g, y, [Local(e)], y') && Conserves(g, y', initial)
  {
    NextConserves(g, y, Local(e), initial);
    MovesProgress(g, y, Local(e), initial);
    LeadsBy(g, y, Local(e));
  }

  lemma LocalAllowed(g: Setting, y: System, initial: set<Pair>)
    requires Conserves(g, y, initial)
    ensures forall e: Event :: e in {Migrate(Master, None), StartDrain, DeliverNext(NO_FAILURE), EndDrain} ==>
              Allowed(g, y, Local(e))
  {
    hide Conserves, Next, FrontWraps, LosesFull;
    ConservesShape(g, y, initial);
  }

  lemma {:induction false} EmptyChannel(g: Setting, y: System, initial: set<Pair>)
    returns (moves: seq<Move>, last: System)
    requires Conserves(g, y, initial) && y.sub.phase.Draining?
    ensures Leads(g, y, moves, last) && Conserves(g, last, initial)
    ensures last == y.(sub := last.sub) && last.sub.phase.Draining? && last.sub.s.channel == []
    decreases |y.sub.s.channel|
  {
    hide Conserves, Allowed, Next;
    if y.sub.s.channel == [] {
      return [], y;
    }
    LocalAllowed(g, y, initial);
    LocalOne(g, y, DeliverNext(NO_FAILURE), initial);
    var y' := y.(sub := Step(y.sub, DeliverNext(NO_FAILURE)));
    StepChannel(y.sub, DeliverNext(NO_FAILURE));
    var more;
    more, last := EmptyChannel(g, y', initial);
    moves := [Local(DeliverNext(NO_FAILURE))] + more;
    LeadsOn(g, y, [Local(DeliverNext(NO_FAILURE))], y', more, last);
  }

  lemma ToReading(g: Setting, y: System, initial: set<Pair>) returns (moves: seq<Move>, last: System)
    requires Conserves(g, y, initial)
    ensures Leads(g, y, moves, last) && Conserves(g, last, initial)
    ensures last == y.(sub := last.sub) && last.sub.phase.Reading?
  {
    hide Conserves, Allowed, Next;
    moves, last := [], y;
    if last.sub.phase.Draining? {
      moves, last := EmptyChannel(g, y, initial);
      LocalAllowed(g, last, initial);
      LocalOne(g, last, EndDrain, initial);
      var idle := last.(sub := Step(last.sub, EndDrain));
      LeadsOn(g, y, moves, last, [Local(EndDrain)], idle);
      moves, last := moves + [Local(EndDrain)], idle;
    }
    if last.sub.phase.Idle? {
      LocalAllowed(g, last, initial);
      LocalOne(g, last, Migrate(Master, None), initial);
      var reading := last.(sub := Step(last.sub, Migrate(Master, None)));
      LeadsOn(g, y, moves, last, [Local(Migrate(Master, None))], reading);
      moves, last := moves + [Local(Migrate(Master, None))], reading;
    }
  }

  lemma {:induction false} ReadAll(g: Setting, y: System, initial: set<Pair>) returns (moves: seq<Move>, last: System)
    requires Conserves(g, y, initial) && y.sub.phase.Reading?
    ensures Leads(g, y, moves, last) && Conserves(g, last, initial)
    ensures last == y.(read := |Queue(g, y)|, sub := last.sub) && last.sub.phase.Reading?
    decreases |Queue(g, y)| - y.read
  {
    ConservesShape(g, y, initial);
    hide Conserves, Next;
    if y.read == |Queue(g, y)| {
      return [], y;
    }
    NextConserves(g, y, Read(true), initial);
    MovesProgress(g, y, Read(true), initial);
    LeadsBy(g, y, Read(true));
    hide Allowed;
    var y' := Next(g, y, Read(true));
    ConservesShape(g, y', initial);
    var more;
    more, last := ReadAll(g, y', initial);
    moves := [Read(true)] + more;
    LeadsOn(g, y, [Read(true)], y', more, last);
  }

  lemma DrainAll(g: Setting, y: System, initial: set<Pair>) returns (moves: seq<Move>, last: System)
    requires Conserves(g, y, initial) && CanTake(g, y)
    ensures Leads(g, y, moves, last) && Conserves(g, last, initial)
    ensures last.accepted == y.accepted && Drained(g, last)
  {
    hide Conserves, Allowed, Next, CanTake;
    var a, taken := TakeAll(g, y, initial);
    var b, reading := ToReading(g, taken, initial);
    LeadsOn(g, y, a, taken, b, reading);
    var c, read := ReadAll(g, reading, initial);
    LeadsOn(g, y, a + b, reading, c, read);
    LocalAllowed(g, read, initial);
    LocalOne(g, read, StartDrain, initial);
    var draining := read.(sub := Step(read.sub, StartDrain));
    LeadsOn(g, y, a + b + c, read, [Local(StartDrain)], draining);
    var d;
    d, last := EmptyChannel(g, draining, initial);
    LeadsOn(g, y, a + b + c + [Local(StartDrain)], draining, d, last);
    moves := a + b + c + [Local(StartDrain)] + d;
  }

  /** A bus whose front record wraps is never drained: it is full and nothing is taken off it. */
  lemma {:induction false} NeverDrained(g: Setting, y: System, moves: seq<Move>, last: System)
    requires Leads(g, y, moves, last) && g.variant.Written? && y.bus.Shape() && FrontWraps(y.bus)
    requires y.taken < |y.accepted|
    ensures !Drained(g, last)
    decreases |moves|
  {
    hide Step, L.HandleItem, Receive;
    if moves != [] {
      NeverDrained(g, Next(g, y, moves[0]), moves[1..], last);
    }
  }

  /** A drained state is reached by moves that send nothing more. */
  ghost predicate Drainable(g: Setting, y: System) {
    exists moves, last :: Leads(g, y, moves, last) && Drained(g, last) && last.accepted == y.accepted
  }

  /**
    Every state of every run can be drained, by going on without sending, if no record still on the
    bus ends the worker: exactly when the bus as written is not blocked by a front record that wraps.
    So the end of which the table is known is always within reach, or lost for good.
   */
  lemma DrainableIff(g: Setting, y: System, initial: set<Pair>)
    requires Conserves(g, y, initial)
    requires LauncherDrain.KeepsWorker(y.accepted[y.taken..], g.decode, g.worker.oid)
    ensures y.bus.Shape()
    ensures Drainable(g, y) <==> !(g.variant.Written? && FrontWraps(y.bus))
  {
    ConservesShape(g, y, initial);
    if g.variant.Written? && FrontWraps(y.bus) {
      FullHolds(g, y, initial);
      forall moves, last | Leads(g, y, moves, last) ensures !Drained(g, last) {
        NeverDrained(g, y, moves, last);
      }
    } else {
      var moves, last := DrainAll(g, y, initial);
    }
  }

  lemma FullHolds(g: Setting, y: System, initial: set<Pair>)
    requires Conserves(g, y, initial) && y.bus.Shape() && y.bus.full
    ensures y.taken < |y.accepted|
  {
    EncodeSize(y.accepted[y.taken..]);
  }

  /** The states the moves go through. */
  function Through(g: Setting, y: System, moves: seq<Move>): (states: seq<System>)
    ensures |states| == |moves| + 1 && states[0] == y
    decreases |moves|
  {
    if moves == [] then [y]
    else if Allowed(g, y, moves[0]) then [y] + Through(g, Next(g, y, moves[0]), moves[1..])
    else seq(|moves| + 1, _ => y)
  }

  lemma {:induction false} LeadsBehaves(g: Setting, y: System, moves: seq<Move>, last: System)
    requires Leads(g, y, moves, last)
    ensures Behaviour(g, Through(g, y, moves), moves) && Through(g, y, moves)[|moves|] == last
    decreases |moves|
  {
    hide Allowed, Next;
    if moves != [] {
      AllowedShape(g, y, moves[0]);
      var y' := Next(g, y, moves[0]);
      LeadsBehaves(g, y', moves[1..], last);
      var states, rest := Through(g, y, moves), Through(g, y', moves[1..]);
      forall i: nat | i < |moves| ensures MovesAt(g, states, moves, i) {
        if i > 0 {
          assert MovesAt(g, rest, moves[1..], i - 1);
        }
      }
    }
  }

  /**
    From every start, whatever is then on the bus and still to come: the run that drains it exists,
    and ends with the table that its commands make of the first rows.
   */
  lemma StartDrains(g: Setting, y: System)
    requires Start(g, y) && LauncherDrain.KeepsWorker(y.accepted, g.decode, g.worker.oid)
    requires g.variant.Written? ==> !FrontWraps(y.bus)
    ensures exists states: seq<System>, moves: seq<Move> ::
              && Behaviour(g, states, moves) && states[0] == y && Drained(g, states[|moves|])
              && states[|moves|].sub.s.table == Replay(FirstRows(g, y), OnBus(y.accepted, g.decode, g.worker.oid))
  {
    StartConserves(g, y);
    assert y.accepted[y.taken..] == y.accepted;
    ConservesShape(g, y, FirstRows(g, y));
    hide Conserves, FirstRows;
    var moves, last := DrainAll(g, y, FirstRows(g, y));
    LeadsBehaves(g, y, moves, last);
    EndToEnd.EndToEnd(g, Through(g, y, moves), moves);
  }
}
