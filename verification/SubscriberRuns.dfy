/** What every run of the subscriber keeps: silence on a replica, and agreement of index and table. */
module SubscriberRuns {
  import opened Bytes
  import opened Messages
  import opened SubscriptionIndex
  import opened SubscriberState

  predicate IsRestore(m: InternalMessage) {
    m.InternalSubscribe? && !m.register
  }

  predicate IsCommand(m: InternalMessage) {
    m.InternalUnsubscribe? || (m.InternalSubscribe? && m.register)
  }

  function RestorePairs(channel: seq<InternalMessage>): set<Pair> {
    set m | m in channel && IsRestore(m) :: (m.subject, m.fnName)
  }

  /** No restored row waits behind an unsubscribe. */
  ghost predicate RestoresFirst(channel: seq<InternalMessage>) {
    forall i, j :: 0 <= i < j < |channel| && channel[i].InternalUnsubscribe? ==> !IsRestore(channel[j])
  }

  /**
    Silence and configuration, and the order of the channel: between iterations it holds no
    command, and no restored row either on a replica.
   */
  ghost predicate Sound(w: World) {
    && (w.s.status == Replica ==> w.s.index == map[])
    && w.s.clientOpts == w.s.config.natsOpt
    && (w.s.status == Master ==> RestoresFirst(w.s.channel))
    && (w.phase.Idle? ==> forall m :: m in w.s.channel ==> !IsCommand(m) && (w.s.status == Replica ==> !IsRestore(m)))
  }

  lemma LaunchSound(status: PgInstanceStatus, config: Config, table: set<Pair>, rows: Option<seq<Pair>>)
    ensures Sound(Launch(status, config, table, rows))
  {
  }

  lemma DeliverKeepsSound(s: Subscriber, env: Env)
    requires s.channel != [] && Sound(World(s, Draining))
    ensures Sound(World(Deliver(s, env), Draining))
  {
  }

  lemma MigrateKeepsSound(s: Subscriber, observed: PgInstanceStatus, rows: Option<seq<Pair>>)
    requires Sound(World(s, Idle))
    ensures Sound(World(CheckMigration(s, observed, rows), Reading))
  {
    var s' := CheckMigration(s, observed, rows);
    forall m | m in s'.channel ensures !m.InternalUnsubscribe? {
      if m !in s.channel {
        assert m in RowMessages(rows.value);
      }
    }
  }

  lemma StepKeepsSound(w: World, e: Event)
    requires Sound(w)
    ensures Sound(Step(w, e))
  {
    if Enabled(w, e) {
      match e
      case Migrate(observed, rows) => MigrateKeepsSound(w.s, observed, rows);
      case DeliverNext(env) => DeliverKeepsSound(w.s, env);
      case _ =>
    }
  }

  lemma {:induction false} RunKeepsSound(w: World, events: seq<Event>)
    requires Sound(w)
    ensures Sound(Run(w, events))
    decreases |events|
  {
    hide Sound, Step;
    if events != [] {
      StepKeepsSound(w, events[0]);
      RunKeepsSound(Step(w, events[0]), events[1..]);
    }
  }

  lemma {:induction false} RunAppend(w: World, events: seq<Event>, e: Event)
    ensures Run(w, events + [e]) == Step(Run(w, events), e)
    decreases |events|
  {
    hide Step;
    if events == [] {
      assert [e][1..] == [];
    } else {
      assert (events + [e])[1..] == events[1..] + [e];
      RunAppend(Step(w, events[0]), events[1..], e);
    }
  }

  /**
    A replica listens to nothing and the connection always matches the settings, whatever happened
    before: changes of role and settings, failures, queued commands, stale task messages.
   */
  lemma ReplicaSilentAndConfigured(status: PgInstanceStatus, config: Config, table: set<Pair>,
                                   rows: Option<seq<Pair>>, events: seq<Event>)
    ensures var s := Run(Launch(status, config, table, rows), events).s;
            && (s.status == Replica ==> s.index == map[])
            && s.clientOpts == s.config.natsOpt
  {
    LaunchSound(status, config, table, rows);
    RunKeepsSound(Launch(status, config, table, rows), events);
  }

  /** The settings after a message from the launcher: new ones are taken over unless their connection fails. */
  function ConfigAfter(config: Config, msg: Option<SubscriberMessage>, connected: bool): Config {
    if msg.Some? && msg.value.NewConfig? && (connected || msg.value.config.natsOpt == config.natsOpt)
    then msg.value.config else config
  }

  /** The message is handled, not ignored: it is received on a master. */
  predicate Handles(w: World, e: Event) {
    e.DeliverNext? && w.phase.Draining? && w.s.channel != [] && w.s.status == Master
  }

  /** The role is checked, between two iterations. */
  predicate Checks(w: World, e: Event) {
    e.Migrate? && w.phase.Idle? && (e.rows.Some? ==> RowSet(e.rows.value) == w.s.table)
  }

  /**
    What each event may change, besides the channel: only the check of the role changes the role,
    only a message of new settings the settings, only a message handled on a master or replication
    the table, and only such a message or the loss of mastership the index. Calls are made by such
    messages alone.
   */
  lemma StepFrame(w: World, e: Event)
    ensures var s, s' := w.s, Step(w, e).s;
            && s'.status == (if Checks(w, e) then e.observed else s.status)
            && s'.config == (if e.FromLauncher? && w.phase.Reading? then ConfigAfter(s.config, e.msg, e.connected)
                             else s.config)
            && (!Handles(w, e) ==>
                  && s'.table == (if e.Replicated? && s.status == Replica then e.table else s.table)
                  && s'.index == (if Checks(w, e) && s.status == Master && e.observed == Replica then map[]
                                  else s.index)
                  && s'.called == s.called)
  {
    if Enabled(w, e) && e.FromLauncher? && e.msg.Some? {
      match e.msg.value {
        case NewConfig(_) =>
        case _ =>
      }
    }
  }

  /**
    The channel is first in, first out: a takeover puts a message for every row behind what is
    there, the `i`th for row `i`, a command from the launcher and a message of a task go behind
    that, and receiving takes the first.
   */
  lemma StepChannel(w: World, e: Event)
    ensures var s, s' := w.s, Step(w, e).s;
      match e
      case Migrate(observed, rows) =>
        if Checks(w, e) && s.status == Replica && observed == Master && rows.Some? then
          && |s'.channel| == |s.channel| + |rows.value| && s.channel <= s'.channel
          && forall i: nat :: i < |rows.value| ==>
               s'.channel[|s.channel| + i] == InternalSubscribe(false, rows.value[i].0, rows.value[i].1)
        else s'.channel == s.channel
      case FromLauncher(Some(Subscribe(subject, fnName)), _) =>
        s'.channel == s.channel + if w.phase.Reading? then [InternalSubscribe(true, subject, fnName)] else []
      case FromLauncher(Some(Unsubscribe(subject, fnName)), _) =>
        s'.channel == s.channel + if w.phase.Reading? then [InternalUnsubscribe(subject, fnName)] else []
      case TaskSends(m) => s'.channel == s.channel + if m.CallbackCall? || m.UnsubscribeSubject? then [m] else []
      case DeliverNext(_) =>
        if w.phase.Draining? && s.channel != [] then s.channel == [s.channel[0]] + s'.channel
        else s'.channel == s.channel
      case _ => s'.channel == s.channel
  {
  }

  /** The phases of an iteration follow one another, and the last ends only with an empty channel. */
  lemma StepPhase(w: World, e: Event)
    ensures var phase, phase' := w.phase, Step(w, e).phase;
            && (phase.Idle? ==> phase' == if Checks(w, e) then Reading else Idle)
            && (phase.Reading? ==> phase' == if e.StartDrain? then Draining else Reading)
            && (phase.Draining? ==> phase' == if e.EndDrain? && w.s.channel == [] then Idle else Draining)
  {
  }

  /** On a master, the rows are what is in the index or still to be restored. */
  ghost predicate Agrees(s: Subscriber) {
    s.status == Master ==> s.table == Pairs(s.index) + RestorePairs(s.channel)
  }

  /** On a master, the index, with what is still to be restored, has nothing the table has not. */
  ghost predicate Contained(s: Subscriber) {
    s.status == Master ==> Pairs(s.index) + RestorePairs(s.channel) <= s.table
  }

  /**
    The oldest channel message drives index and table of a master apart: an insert fails for a row
    that is not there, a delete fails for one that is, or a pair leaves the index that no waiting
    row restores.
   */
  predicate DriftsOn(s: Subscriber, env: Env)
    requires s.channel != []
  {
    var restored := RestorePairs(s.channel[1..]);
    match s.channel[0]
    case InternalSubscribe(_, _, _) => GainsOn(s, env)
    case InternalUnsubscribe(subject, fnName) => env.deleteFails && (subject, fnName) in s.table
    case CallbackCall(subject, _) =>
      subject in s.index &&
      exists f :: f in s.index[subject] && env.answer(f) == NotFound && (subject, f) !in restored
    case UnsubscribeSubject(subject, _) =>
      subject in s.index && exists f :: f in s.index[subject] && (subject, f) !in restored
  }

  /** It leaves the index with more than the table: an insert that fails, but not for a duplicate. */
  predicate GainsOn(s: Subscriber, env: Env)
    requires s.channel != []
  {
    && s.channel[0].InternalSubscribe? && s.channel[0].register
    && env.insertFails && (s.channel[0].subject, s.channel[0].fnName) !in s.table
  }

  /** The event drives index and table apart. Besides messages, only a failed fetch at a takeover does. */
  predicate Drifts(w: World, e: Event) {
    Enabled(w, e) &&
    match e
    case Migrate(observed, rows) => w.s.status == Replica && observed == Master && rows.None? && w.s.table != {}
    case DeliverNext(env) => w.s.status == Master && DriftsOn(w.s, env)
    case _ => false
  }

  /** The event leaves the index with more than the table. */
  predicate Gains(w: World, e: Event) {
    Enabled(w, e) && e.DeliverNext? && w.s.status == Master && GainsOn(w.s, e.env)
  }

  lemma RestorePairsConcat(a: seq<InternalMessage>, b: seq<InternalMessage>)
    ensures RestorePairs(a + b) == RestorePairs(a) + RestorePairs(b)
  {
  }

  lemma RestorePairsOfRows(rows: seq<Pair>)
    ensures RestorePairs(RowMessages(rows)) == RowSet(rows)
  {
    var ms := RowMessages(rows);
    forall p | p in RowSet(rows) ensures p in RestorePairs(ms) {
      var i :| 0 <= i < |rows| && rows[i] == p;
      assert ms[i] in ms && IsRestore(ms[i]);
    }
    forall p | p in RestorePairs(ms) ensures p in RowSet(rows) {
      var m :| m in ms && IsRestore(m) && p == (m.subject, m.fnName);
      var i :| 0 <= i < |ms| && ms[i] == m;
      assert rows[i] == p;
    }
  }

  lemma NoRestores(channel: seq<InternalMessage>)
    requires forall m :: m in channel ==> !IsRestore(m)
    ensures RestorePairs(channel) == {}
  {
  }

  lemma HeadAndTail(channel: seq<InternalMessage>)
    requires channel != []
    ensures RestorePairs(channel) == RestorePairs(channel[..1]) + RestorePairs(channel[1..])
    ensures RestorePairs(channel[..1])
         == if IsRestore(channel[0]) then {(channel[0].subject, channel[0].fnName)} else {}
  {
  }

  /** The subjects of the index after one channel message: those listened to, with functions left or not. */
  lemma HandleSubjects(s: Subscriber, m: InternalMessage, env: Env, subject: string)
    ensures var i, i' := s.index, HandleInternal(s, m, env).index;
      subject in i' <==>
        match m
        case InternalSubscribe(_, added, _) => subject in i || subject == added
        case InternalUnsubscribe(left, fnName) => subject in i && (subject == left ==> !(i[subject] <= {fnName}))
        case CallbackCall(_, _) => subject in i
        case UnsubscribeSubject(dropped, _) => subject in i && subject != dropped
  {
    match m
    case InternalSubscribe(_, added, fnName) => AddPairs(s.index, added, fnName);
    case InternalUnsubscribe(left, fnName) => RemovePairs(s.index, left, fnName);
    case CallbackCall(called, _) => RetainPairs(s.index, called, env.answer);
    case UnsubscribeSubject(dropped, _) => RemoveSubjectPairs(s.index, dropped);
  }

  /** The pairs of the index after one channel message. */
  lemma HandlePairs(s: Subscriber, m: InternalMessage, env: Env)
    ensures var p, p' := Pairs(s.index), Pairs(HandleInternal(s, m, env).index);
      match m
      case InternalSubscribe(_, subject, fnName) => p' == p + {(subject, fnName)}
      case InternalUnsubscribe(subject, fnName) => p' == p - {(subject, fnName)}
      case CallbackCall(subject, _) => p' == set x | x in p && !(x.0 == subject && env.answer(x.1) == NotFound)
      case UnsubscribeSubject(subject, _) => p' == set x | x in p && x.0 != subject
  {
    match m
    case InternalSubscribe(_, subject, fnName) => AddPairs(s.index, subject, fnName);
    case InternalUnsubscribe(subject, fnName) => RemovePairs(s.index, subject, fnName);
    case CallbackCall(subject, _) => RetainPairs(s.index, subject, env.answer);
    case UnsubscribeSubject(subject, _) => RemoveSubjectPairs(s.index, subject);
  }

  lemma UnsubscribeEndsRestores(channel: seq<InternalMessage>)
    requires RestoresFirst(channel) && channel != [] && channel[0].InternalUnsubscribe?
    ensures RestorePairs(channel) == {} == RestorePairs(channel[1..])
  {
  }

  lemma DeliverGainsIff(s: Subscriber, env: Env)
    requires s.channel != [] && s.status == Master && Sound(World(s, Draining)) && Contained(s)
    ensures Contained(Deliver(s, env)) <==> !GainsOn(s, env)
  {
    HeadAndTail(s.channel);
    HandlePairs(s.(channel := s.channel[1..]), s.channel[0], env);
    if s.channel[0].InternalUnsubscribe? {
      UnsubscribeEndsRestores(s.channel);
    }
  }

  /** Of every message on every master that agrees, restoring or not. */
  lemma DeliverDriftsIff(s: Subscriber, env: Env)
    requires s.channel != [] && s.status == Master && Sound(World(s, Draining)) && Agrees(s)
    ensures Agrees(Deliver(s, env)) <==> !DriftsOn(s, env)
  {
    var m, s' := s.channel[0], s.(channel := s.channel[1..]);
    HeadAndTail(s.channel);
    HandlePairs(s', m, env);
    match m
    case InternalSubscribe(_, _, _) =>
    case InternalUnsubscribe(_, _) => UnsubscribeEndsRestores(s.channel);
    case _ => RemovalDriftsIff(s, env);
  }

  lemma RemovalDriftsIff(s: Subscriber, env: Env)
    requires s.channel != [] && (s.channel[0].CallbackCall? || s.channel[0].UnsubscribeSubject?)
    requires s.table == Pairs(s.index) + RestorePairs(s.channel[1..])
    ensures var s' := HandleInternal(s.(channel := s.channel[1..]), s.channel[0], env);
            s'.table == Pairs(s'.index) + RestorePairs(s'.channel) <==> !DriftsOn(s, env)
  {
    var before, restored := s.(channel := s.channel[1..]), RestorePairs(s.channel[1..]);
    var s' := HandleInternal(before, s.channel[0], env);
    HandlePairs(before, s.channel[0], env);
    if DriftsOn(s, env) {
      var subject := s.channel[0].subject;
      var f :| f in s.index[subject] && (subject, f) !in restored
               && (s.channel[0].CallbackCall? ==> env.answer(f) == NotFound);
      assert (subject, f) in Pairs(s.index);
    } else {
      forall x | x in Pairs(s.index) ensures x in Pairs(s'.index) + restored {
        assert x.0 in s.index && x.1 in s.index[x.0];
      }
    }
  }

  lemma MigrateRelationsIff(s: Subscriber, observed: PgInstanceStatus, rows: Option<seq<Pair>>)
    requires Sound(World(s, Idle)) && (rows.Some? ==> RowSet(rows.value) == s.table)
    ensures Contained(s) ==> Contained(CheckMigration(s, observed, rows))
    ensures Agrees(s) ==>
              (Agrees(CheckMigration(s, observed, rows)) <==> !Drifts(World(s, Idle), Migrate(observed, rows)))
  {
    if s.status == Replica && observed == Master {
      NoRestores(s.channel);
      if rows.Some? {
        RestorePairsConcat(s.channel, RowMessages(rows.value));
        RestorePairsOfRows(rows.value);
      }
    }
  }

  /** Appending anything but a restored row changes neither relation. */
  lemma AppendKeeps(s: Subscriber, m: InternalMessage)
    requires !IsRestore(m)
    ensures var s' := s.(channel := s.channel + [m]); (Agrees(s) <==> Agrees(s')) && (Contained(s) <==> Contained(s'))
  {
  }

  lemma SharedKeeps(s: Subscriber, msg: SubscriberMessage, connected: bool)
    ensures var s' := HandleShared(s, msg, connected); (Agrees(s) <==> Agrees(s')) && (Contained(s) <==> Contained(s'))
  {
  }

  /** On a replica nothing is asked of the table, which the other server changes. */
  lemma ReplicaRelates(s: Subscriber)
    requires s.status == Replica
    ensures Agrees(s) && Contained(s)
  {
  }

  /** One event: exactly the drifting ones end agreement, exactly the gaining ones containment. */
  lemma StepRelationsIff(w: World, e: Event)
    requires Sound(w)
    ensures Contained(w.s) ==> (Contained(Step(w, e).s) <==> !Gains(w, e))
    ensures Agrees(w.s) ==> (Agrees(Step(w, e).s) <==> !Drifts(w, e))
  {
    hide Sound, Agrees, Contained, CheckMigration, HandleShared, DriftsOn, GainsOn;
    if Enabled(w, e) {
      match e
      case Migrate(observed, rows) =>
        SoundAnyPhase(w, Idle);
        MigrateRelationsIff(w.s, observed, rows);
      case FromLauncher(msg, connected) =>
        if msg.Some? {
          SharedKeeps(w.s, msg.value, connected);
        }
      case TaskSends(m) => AppendKeeps(w.s, m);
      case DeliverNext(env) => DeliverRelationsIff(w, env);
      case Replicated(table) => ReplicaRelates(w.s.(table := table));
      case _ =>
    }
  }

  lemma DeliverRelationsIff(w: World, env: Env)
    requires Sound(w) && Enabled(w, DeliverNext(env))
    ensures Contained(w.s) ==> (Contained(Deliver(w.s, env)) <==> !Gains(w, DeliverNext(env)))
    ensures Agrees(w.s) ==> (Agrees(Deliver(w.s, env)) <==> !Drifts(w, DeliverNext(env)))
  {
    SoundAnyPhase(w, Draining);
    hide Sound, Agrees, Contained, DriftsOn, GainsOn;
    if w.s.status == Replica {
      ReplicaRelates(Deliver(w.s, env));
    } else {
      if Contained(w.s) {
        DeliverGainsIff(w.s, env);
      }
      if Agrees(w.s) {
        DeliverDriftsIff(w.s, env);
      }
    }
  }

  lemma SoundAnyPhase(w: World, phase: Phase)
    requires Sound(w) && w.phase == phase
    ensures Sound(World(w.s, phase))
  {
  }

  /** No event of a run satisfies `bad` in the state it meets. */
  ghost predicate Never(w: World, events: seq<Event>, bad: (World, Event) -> bool)
    decreases |events|
  {
    events != [] ==> !bad(w, events[0]) && Never(Step(w, events[0]), events[1..], bad)
  }

  /** Every state of a run, the first and the last included, satisfies `good`. */
  ghost predicate Always(w: World, events: seq<Event>, good: Subscriber -> bool)
    decreases |events|
  {
    good(w.s) && (events != [] ==> Always(Step(w, events[0]), events[1..], good))
  }

  lemma {:induction false} AlwaysAtEnd(w: World, events: seq<Event>, good: Subscriber -> bool)
    requires Always(w, events, good)
    ensures good(Run(w, events).s)
    decreases |events|
  {
    hide Step;
    if events != [] {
      AlwaysAtEnd(Step(w, events[0]), events[1..], good);
    }
  }

  /**
    Exactly when index and table agree all along a run, whatever the run is: they do at its start,
    and no event drifts in the state it meets.
   */
  lemma {:induction false} AgreesIffNoDrift(w: World, events: seq<Event>)
    requires Sound(w)
    ensures Always(w, events, Agrees) <==> Agrees(w.s) && Never(w, events, Drifts)
    decreases |events|
  {
    hide Sound, Step, Agrees, Drifts;
    if events != [] {
      StepKeepsSound(w, events[0]);
      StepRelationsIff(w, events[0]);
      AgreesIffNoDrift(Step(w, events[0]), events[1..]);
    }
  }

  /** And exactly when the index never has anything the table has not. */
  lemma {:induction false} ContainedIffNoGain(w: World, events: seq<Event>)
    requires Sound(w)
    ensures Always(w, events, Contained) <==> Contained(w.s) && Never(w, events, Gains)
    decreases |events|
  {
    hide Sound, Step, Contained, Gains;
    if events != [] {
      StepKeepsSound(w, events[0]);
      StepRelationsIff(w, events[0]);
      ContainedIffNoGain(Step(w, events[0]), events[1..]);
    }
  }

  /** With an empty channel the relations are between index and table alone. */
  lemma WhenDrained(s: Subscriber)
    requires s.status == Master && s.channel == []
    ensures Agrees(s) <==> Pairs(s.index) == s.table
    ensures Contained(s) <==> Pairs(s.index) <= s.table
  {
    NoRestores([]);
  }

  lemma LaunchRelates(status: PgInstanceStatus, config: Config, table: set<Pair>, rows: Option<seq<Pair>>)
    requires rows.Some? ==> RowSet(rows.value) == table
    ensures var s := Launch(status, config, table, rows).s;
            Contained(s) && (Agrees(s) <==> status == Replica || rows.Some? || table == {})
  {
    NoRestores([]);
    if rows.Some? {
      RestorePairsOfRows(rows.value);
      assert [] + RowMessages(rows.value) == RowMessages(rows.value);
    }
  }

  /** From the entry into the loop: a master must also have fetched its rows, unless it has none. */
  lemma AgreesFromLaunchIff(status: PgInstanceStatus, config: Config, table: set<Pair>,
                            rows: Option<seq<Pair>>, events: seq<Event>)
    requires rows.Some? ==> RowSet(rows.value) == table
    ensures var w := Launch(status, config, table, rows);
            && (Always(w, events, Agrees)
                <==> (status == Replica || rows.Some? || table == {}) && Never(w, events, Drifts))
            && (Always(w, events, Contained) <==> Never(w, events, Gains))
  {
    hide Agrees, Contained, Sound, Gains, Drifts, Step;
    var w := Launch(status, config, table, rows);
    LaunchSound(status, config, table, rows);
    LaunchRelates(status, config, table, rows);
    AgreesIffNoDrift(w, events);
    ContainedIffNoGain(w, events);
  }

  /**
    Whenever a master has emptied its channel: its index is the table, if it entered its loop with
    its rows fetched, or with none, and no event drifted; and its index has nothing the table has
    not, if only no event gained.
   */
  lemma IndexAgreesWithTable(status: PgInstanceStatus, config: Config, table: set<Pair>,
                             rows: Option<seq<Pair>>, events: seq<Event>)
    requires rows.Some? ==> RowSet(rows.value) == table
    ensures var w := Launch(status, config, table, rows); var s := Run(w, events).s;
            s.status == Master && s.channel == [] ==>
              && (Never(w, events, Gains) ==> Pairs(s.index) <= s.table)
              && ((status == Replica || rows.Some? || table == {}) && Never(w, events, Drifts) ==>
                    Pairs(s.index) == s.table)
  {
    hide Agrees, Contained, Sound, Gains, Drifts, Step;
    var w := Launch(status, config, table, rows);
    LaunchSound(status, config, table, rows);
    LaunchRelates(status, config, table, rows);
    RelationsAtEnd(w, events);
  }

  lemma RelationsAtEnd(w: World, events: seq<Event>)
    requires Sound(w)
    ensures var s := Run(w, events).s;
            s.status == Master && s.channel == [] ==>
              && (Contained(w.s) && Never(w, events, Gains) ==> Pairs(s.index) <= s.table)
              && (Agrees(w.s) && Never(w, events, Drifts) ==> Pairs(s.index) == s.table)
  {
    hide Agrees, Contained, Sound, Gains, Drifts, Step;
    if Contained(w.s) && Never(w, events, Gains) {
      ContainedIffNoGain(w, events);
      AlwaysAtEnd(w, events, Contained);
    }
    if Agrees(w.s) && Never(w, events, Drifts) {
      AgreesIffNoDrift(w, events);
      AlwaysAtEnd(w, events, Agrees);
    }
    var s := Run(w, events).s;
    if s.status == Master && s.channel == [] {
      WhenDrained(s);
    }
  }

  /**
    A takeover heals: whatever happened up to some time as a replica, and whatever rows the other
    server brings until the takeover, what follows alone decides.
   */
  lemma TakeoverHeals(w: World, events: seq<Event>)
    requires Sound(w) && w.s.status == Replica
    ensures var s := Run(w, events).s;
            s.status == Master && s.channel == [] && Never(w, events, Drifts) ==> Pairs(s.index) == s.table
    ensures Always(w, events, Agrees) <==> Never(w, events, Drifts)
  {
    ReplicaRelates(w.s);
    AgreesIffNoDrift(w, events);
    RelationsAtEnd(w, events);
  }
}
