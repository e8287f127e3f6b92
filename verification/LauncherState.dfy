/**
  The launcher as a value: its three maps of workers, and the history of what it did to workers.
 */
module LauncherState {
  import opened Bytes
  import opened Messages

  /** The counter that names a worker's process also identifies it: it grows with every start. */
  datatype WorkerEntry = WorkerEntry(id: nat, oid: Oid, dbName: string)

  type Workers = map<Oid, WorkerEntry>

  /**
    `started`, `stopped` and `waited` record the calls that start a process, terminate it and wait
    for its end; `replaced` the terminated entries that an insert threw away unwaited; `queues` all
    that was put on each worker's queue.
   */
  datatype Launcher = Launcher(
    pending: Workers,
    workers: Workers,
    terminated: Workers,
    counter: nat,
    started: set<WorkerEntry>,
    stopped: multiset<WorkerEntry>,
    waited: multiset<WorkerEntry>,
    replaced: multiset<WorkerEntry>,
    queues: map<nat, seq<SubscriberMessage>>)

  /**
    What the outside world answers while one message is handled: the database name if the worker
    can be started, and whether a send to a worker's queue succeeds.
   */
  datatype Env = Env(dbName: Option<string>, sendOk: bool)

  const INITIAL: Launcher :=
    Launcher(map[], map[], map[], 0, {}, multiset{}, multiset{}, multiset{}, map[])

  function Queue(s: Launcher, id: nat): seq<SubscriberMessage> {
    if id in s.queues then s.queues[id] else []
  }

  function Start(s: Launcher, oid: Oid, dbName: Option<string>): Launcher {
    match dbName
    case None => s
    case Some(name) =>
      var entry := WorkerEntry(s.counter, oid, name);
      s.(pending := s.pending[oid := entry], counter := s.counter + 1, started := s.started + {entry})
  }

  function Register(s: Launcher, oid: Oid): Launcher {
    if oid in s.pending then
      s.(pending := s.pending - {oid}, workers := s.workers[oid := s.pending[oid]])
    else s
  }

  function Send(s: Launcher, oid: Oid, msg: SubscriberMessage, ok: bool): Launcher {
    if oid in s.workers && ok then
      var id := s.workers[oid].id;
      s.(queues := s.queues[id := Queue(s, id) + [msg]])
    else s
  }

  function Terminate(s: Launcher, entry: WorkerEntry): Launcher {
    s.(terminated := s.terminated[entry.oid := entry],
       stopped := s.stopped + multiset{entry},
       replaced := if entry.oid in s.terminated then s.replaced + multiset{s.terminated[entry.oid]} else s.replaced)
  }

  function Shutdown(s: Launcher, oid: Oid): Launcher {
    if oid in s.workers then
      Terminate(s.(workers := s.workers - {oid}), s.workers[oid])
    else if oid in s.pending then
      Terminate(s.(pending := s.pending - {oid}), s.pending[oid])
    else s
  }

  function Handle(s: Launcher, m: LauncherMessage, env: Env): Launcher {
    match m
    case DbExtensionStatus(oid, Exist) => Register(s, oid)
    case DbExtensionStatus(oid, _) => Shutdown(s, oid)
    case LauncherNewConfig(oid, config) =>
      if oid in s.workers then Send(s, oid, NewConfig(config), env.sendOk)
      else if oid !in s.pending then Start(s, oid, env.dbName)
      else s
    case LauncherSubscribe(oid, subject, fnName) => Send(s, oid, Subscribe(subject, fnName), env.sendOk)
    case LauncherUnsubscribe(oid, subject, fnName) => Send(s, oid, Unsubscribe(subject, fnName), env.sendOk)
    case SubscriberExit(oid, _) => Shutdown(s, oid)
    case ForeignServerDropped(oid) => Shutdown(s, oid)
  }

  /** One record taken off the bus, with the world's answers; `None` is a record that does not decode. */
  datatype Item = Item(m: Option<LauncherMessage>, env: Env)

  function HandleItem(s: Launcher, item: Item): Launcher {
    if item.m.Some? then Handle(s, item.m.value, item.env) else s
  }

  function HandleItems(s: Launcher, items: seq<Item>): Launcher
    decreases |items|
  {
    if items == [] then s else HandleItems(HandleItem(s, items[0]), items[1..])
  }

  function WaitAll(s: Launcher): Launcher {
    s.(terminated := map[], waited := s.waited + multiset(s.terminated.Values))
  }

  /** Every running worker, registered or pending. */
  function Running(s: Launcher): Workers {
    s.workers + s.pending
  }

  /** The terminated entries that new ones for the keys of `ws` take the place of. */
  function Overwritten(t: Workers, ws: Workers): set<WorkerEntry> {
    set k | k in t && k in ws :: t[k]
  }

  /** All of `ws` terminated, in any order: their keys are distinct. */
  function TerminateAll(s: Launcher, ws: Workers): Launcher {
    s.(terminated := s.terminated + ws,
       stopped := s.stopped + multiset(ws.Values),
       replaced := s.replaced + multiset(Overwritten(s.terminated, ws)))
  }

  function ShutdownAll(s: Launcher): Launcher {
    TerminateAll(TerminateAll(s.(workers := map[], pending := map[]), s.workers), s.pending)
  }

  /** The databases found at launch, with the outcome of starting a worker in each. */
  datatype Startup = Startup(oid: Oid, dbName: Option<string>)

  function StartAll(s: Launcher, startups: seq<Startup>): Launcher
    decreases |startups|
  {
    if startups == [] then s else StartAll(Start(s, startups[0].oid, startups[0].dbName), startups[1..])
  }

  /** A worker of the database was started at launch. */
  predicate StartedAtLaunch(startups: seq<Startup>, db: Oid)
    decreases |startups|
  {
    startups != [] &&
    ((startups[0].oid == db && startups[0].dbName.Some?) || StartedAtLaunch(startups[1..], db))
  }

  /** Turns of the main loop: each waits for terminated workers and then drains the bus. */
  function Turns(s: Launcher, turns: seq<seq<Item>>): Launcher
    decreases |turns|
  {
    if turns == [] then s else Turns(HandleItems(WaitAll(s), turns[0]), turns[1..])
  }

  predicate Holds(m: Workers, e: WorkerEntry) {
    e.oid in m && m[e.oid] == e
  }

  function Count(b: bool): nat {
    if b then 1 else 0
  }

  predicate KeyedByOid(m: Workers) {
    forall k :: k in m ==> m[k].oid == k
  }

  ghost predicate IdsUnique(s: Launcher) {
    && (forall e :: e in s.started ==> e.id < s.counter)
    && (forall e, f :: e in s.started && f in s.started && e.id == f.id ==> e == f)
  }

  /** A worker ever started is in exactly one place: pending, registered, or terminated once. */
  ghost predicate ConservedAt(s: Launcher, e: WorkerEntry) {
    Count(Holds(s.pending, e)) + Count(Holds(s.workers, e)) + s.stopped[e] == Count(e in s.started)
  }

  ghost predicate Conserved(s: Launcher) {
    forall e :: ConservedAt(s, e)
  }

  /** Every termination is waited for, still to be waited for, or was replaced. */
  ghost predicate AccountedAt(s: Launcher, e: WorkerEntry) {
    s.stopped[e] == s.waited[e] + Count(Holds(s.terminated, e)) + s.replaced[e]
  }

  ghost predicate Accounted(s: Launcher) {
    forall e :: AccountedAt(s, e)
  }

  /** `f` is a later worker of the same database as `e`, and was terminated too. */
  ghost predicate Succeeds(s: Launcher, f: WorkerEntry, e: WorkerEntry) {
    f in s.started && f.oid == e.oid && e.id < f.id && s.stopped[f] == 1
  }

  /** A replaced entry has such a successor. */
  ghost predicate ReplacedAt(s: Launcher, e: WorkerEntry) {
    s.replaced[e] > 0 ==> exists f :: Succeeds(s, f, e)
  }

  ghost predicate MapsSound(s: Launcher) {
    && KeyedByOid(s.pending) && KeyedByOid(s.workers) && KeyedByOid(s.terminated)
    && (forall k :: k in s.pending ==> k !in s.workers)
  }

  /** A worker still running was started after any terminated one of its database. */
  ghost predicate LaterThanTerminated(s: Launcher) {
    && (forall k :: k in s.terminated && k in s.pending ==> s.terminated[k].id < s.pending[k].id)
    && (forall k :: k in s.terminated && k in s.workers ==> s.terminated[k].id < s.workers[k].id)
  }

  ghost predicate Consistent(s: Launcher) {
    && MapsSound(s)
    && IdsUnique(s)
    && Conserved(s)
    && Accounted(s)
    && LaterThanTerminated(s)
    && (forall e :: ReplacedAt(s, e))
  }
}
