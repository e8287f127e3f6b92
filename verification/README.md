# Verified model of the pgnats subscription pipeline

A SQL session that calls `nats_subscribe` or `nats_unsubscribe` puts a record on a byte ring in
shared memory, the launcher bus. The launcher drains the bus, starts and stops one background worker
per database, and passes configuration and subscription messages to the worker's queue. The worker,
called the subscriber, keeps a table of (subject, function) rows and an in-memory index of the
subjects it listens to. This project models each stage and proves what it keeps, and then proves the
stages together: from the bytes accepted by the bus to the rows of the table.

Check everything with `dafny verify dfyconfig.toml`.

## Files

| files | what they hold |
|---|---|
| `Bytes`, `Circular` | little-endian headers; circular reads and writes of a buffer |
| `RingState`, `RingFifo`, `RingRuns`, `RingDrain` | the bus as a value, one step, whole runs and whole drains against a FIFO |
| `RingQueue` | the bus as a class over an array, each method proved against `RingState` |
| `Messages` | messages and settings |
| `LauncherState`, `LauncherLifecycle`, `LauncherRuns`, `LauncherWaits`, `LauncherRouting` | the launcher as a value: what each message keeps, whole runs, who is waited for, who receives what |
| `LauncherDrain`, `LauncherContext`, `LauncherBus`, `RetrySend` | what a drain makes of the records; the launcher as a class, the drain of the bus, the main loop, the retrying send |
| `SubscriptionIndex`, `NatsConnection` | the index and the relation it stands for; the class that owns it and its tasks |
| `SubscriberState`, `SubscriberRuns`, `SubscriberIteration`, `SubscriberContext` | the subscriber as a value, its runs, one iteration told by what it receives, and the class with the loop |
| `Commands`, `EndToEnd`, `EndToEndDrains` | commands under way, the whole pipeline, and that it can be drained |
| `NatsClient`, `Packing` | the per-session client; the packed worker argument |

Each class gives its fields as one value (`State()`), and each method states its new value by a
function. The properties are proved of those functions by lemmas, over all runs.

## What was found

The bus is modelled as the code is written (`Variant.Written`) and as it is evidently intended
(`Variant.Intended`, where a full bus takes the branch that wraps). `try_recv` tests `write >= read`,
which also holds when the bus is full, and then reads without wrapping.

- A full bus whose front record wraps reads out of range (`WrappingFrontWitness`, at every capacity
  above 8; with 32 bytes: send 8, receive, send 24, receive). It is then stuck for good
  (`WrappingFrontIsStuck`), and a launcher that is started again meets the same state.
- A front record of a full bus that ends exactly at the capacity leaves `read` at the capacity. This
  harms nothing (`ReadAtCapacityReceives`, `ReadAtCapacitySends`) until a send fills the bus exactly:
  its full flag is lost and the messages on it are never received (`LostFullWitness`, at every
  capacity from 8 on: a message that fills the bus, sent and received twice).
- Apart from these two, which `Safe` describes by the fields alone, the code is a FIFO, and
  `WrittenIsFifoIffSafe` proves that there is no third case.
- So a pipeline can be drained from every state of the runs that the end-to-end theorem covers, as
  long as no record on the bus ends the worker, unless such a front record blocks it: then it never
  is again (`DrainableIff`).
- Not every terminated worker is waited for (`UnwaitedWitness`). All of a database's are if and only
  if in every turn of the main loop it loses its worker at most once, where a loss at the final
  shutdown counts with the last turn (`AllWaitedIffLosesOnce`, told by the messages alone;
  `AllWaitedIffClean` tells the same by the maps each message meets).
- Starting a database twice at launch would drop a running worker; `LaunchConsistentIff` shows that
  distinct databases are exactly what is needed.
- Index and table do not always agree. All along a run they do if and only if they do at its start
  and no event drifts in the state it meets (`AgreesIffNoDrift`). What drifts is a failed fetch of a
  table with rows at a takeover, a failed insert of a row that is not there, a failed delete of one
  that is, and a callback not found or a subject dropped whose pair no waiting row restores. A
  takeover from replica to master repairs any drift, whatever rows replication brought in between
  (`TakeoverHeals`).
- Cached object stores survive a change of connection, buckets do not. After new settings are taken
  over, a cached one is on the connection then open if and only if it was on the open connection
  before and the options stayed the same (`ObjectStoreAfterTakeover`).

## Model

| member | source | states |
|---|---|---|
| Bytes.HeaderRoundTrip | src/bgw/ring_queue.rs:66-66 | the header is the eight base-256 digits of the length, the least significant first, and decodes to it, for every `usize` |
| Bytes.EncodeOfDecode | src/bgw/ring_queue.rs:121-123 | conversely, any bytes are the encoding of what they decode to |
| Bytes.DigitsInOrder | src/bgw/ring_queue.rs:66-66 | digit `i` of the little-endian encoding is the number of its `256^i`s |
| Circular.HeaderReadsBack | src/bgw/ring_queue.rs:139-150 | a header written anywhere, in one piece or split by the end of the buffer, reads back as the length it encoded |
| RingFifo.EncodeInjective | src/bgw/ring_queue.rs:49-51 | records in a row determine their messages |
| RingFifo.ContentsUnique | src/bgw/ring_queue.rs:6-11 | a state of the bus holds at most one list of messages |
| RingFifo.AcceptsIffFits | src/bgw/ring_queue.rs:40-63 | on a bus holding `q`, a send is accepted if and only if all records with the new one fit in the capacity |
| RingFifo.SendAppends | src/bgw/ring_queue.rs:65-106 | an accepted send appends its message, wherever header or payload wrap, except the one send that loses the full flag |
| RingFifo.WrittenReceives | src/bgw/ring_queue.rs:111-173 | as written, a receive gives the oldest message and leaves the rest, or reads out of range if and only if the bus is full and its front record wraps |
| RingFifo.IntendedReceives | src/bgw/ring_queue.rs:138-172 | with the full state in the wrapping branch, the same with no condition |
| RingFifo.VariantsAgree | src/bgw/ring_queue.rs:120-137 | the two versions do the same if and only if the bus is not full or its front record ends short of the end |
| RingFifo.NeverCorrupted | src/bgw/ring_queue.rs:125-155 | the two returns for corrupted data are taken only on an empty bus whose `read` is at the capacity |
| RingFifo.ReadAtCapacityReceives | src/bgw/ring_queue.rs:134-134 | a `read` left at the capacity changes no receive of a message, and an empty bus gives `None` either way |
| RingFifo.ReadAtCapacitySends | src/bgw/ring_queue.rs:56-104 | it changes no send either, but for the one that fills the bus, after which only the normal state is recorded as full |
| RingRuns.WrittenIsFifoIffSafe | src/bgw/ring_queue.rs:39-173 | a run of sends and receives of the code as written, ending with a receive, gives the outputs of a bounded FIFO if and only if every operation is safe |
| RingRuns.IntendedRefinesFifo | src/bgw/ring_queue.rs:39-173 | every run of the intended version gives the outputs of a bounded FIFO |
| RingRuns.FromNew | src/bgw/ring_queue.rs:14-21 | both, from `new()` |
| RingRuns.WrappingFrontWitness | src/bgw/ring_queue.rs:120-132 | at every capacity above 8, four operations after which the code as written reads out of range |
| RingRuns.WrappingFrontIsStuck | src/bgw/ring_queue.rs:40-42 | from such a state no operation of any run ever succeeds or changes anything |
| RingRuns.LostFullWitness | src/bgw/ring_queue.rs:103-104 | at every capacity from 8 on, four operations after which an accepted message is not received |
| RingRuns.FillCount | src/bgw/ring_queue.rs:39-107 | an empty bus, wherever its positions are, accepts messages of one length, whatever their bytes, exactly capacity / (8 + length) times |
| RingDrain.DrainIsFifo | src/bgw/launcher/mod.rs:79-90 | a drain gives exactly the messages on the bus and leaves it empty, unless its first receive meets a full bus whose front record wraps |
| RingDrain.SafePausesIff | src/bgw/launcher/mod.rs:61-64 | over any sends and drains in which no record fills the bus by itself, such a front record is all that can go wrong |
| RingQueue.RingQueue.constructor | src/bgw/ring_queue.rs:14-21 | the new bus is empty |
| RingQueue.RingQueue.TrySend | src/bgw/ring_queue.rs:39-107 | both branches, each with its copies in place, write the record circularly at `write`; a refused send changes nothing |
| RingQueue.RingQueue.TryRecv | src/bgw/ring_queue.rs:111-173 | the branches as written compute `Receive(Written, ..)`; every slice in range or reported |
| LauncherLifecycle.HandleKeeps | src/bgw/launcher/context.rs:30-151 | every message in every state keeps the account of workers: disjoint maps, keys equal to oids, each worker started in exactly one of pending, registered or terminated once |
| LauncherLifecycle.TurnsKeep | src/bgw/launcher/mod.rs:61-64 | so do any number of turns of the main loop |
| LauncherRuns.OneLiveWorkerAlways | src/bgw/launcher/context.rs:42-52 | at every point of every run no database has two workers started and not terminated |
| LauncherRuns.LaunchConsistentIff | src/bgw/launcher/mod.rs:256-278 | starting the workers at launch keeps the account if and only if no database is started twice |
| LauncherRuns.ShutdownCoversEveryone | src/bgw/launcher/mod.rs:61-67 | at the end all three maps are empty, every worker ever started was terminated once, and waited for unless a later worker of its database replaced its entry |
| LauncherRuns.UnwaitedWitness | src/bgw/launcher/context.rs:148-151 | that exception happens |
| LauncherRuns.HandleNumbers | src/bgw/launcher/context.rs:107-124 | a message starts one worker, with the next number and the name found, exactly if it brings settings of a database without one and the start succeeds |
| LauncherRuns.RunsNumber | src/bgw/launcher/context.rs:112-119 | in every run workers are numbered from 0 without a gap, and no number is given twice |
| LauncherWaits.HandleReplacesIff | src/bgw/launcher/context.rs:126-151 | one message throws an unwaited entry away if and only if it ends a worker whose database still has a terminated one |
| LauncherWaits.CleanIff | src/bgw/launcher/mod.rs:79-216 | a drain does so for no entry of a database if and only if the database loses at most one worker since the last wait |
| LauncherWaits.AllWaitedIffClean | src/bgw/launcher/mod.rs:59-67 | over a whole run, all terminated workers of a database are waited for if and only if every turn is clean and the final shutdown finds no terminated entry beside a running worker |
| LauncherWaits.AllWaitedIffLosesOnce | src/bgw/launcher/mod.rs:59-67 | the same told by the messages alone: in every turn the database loses its worker at most once, the final shutdown counting with the last |
| LauncherWaits.NobodyUnwaitedIff | src/bgw/launcher/context.rs:24-28 | every termination is waited for if and only if that holds of every database |
| LauncherRouting.QueueIsRouted | src/bgw/launcher/context.rs:36-85 | a worker's queue grows by exactly, and in order, the forwarded messages of its database handled while it was registered |
| LauncherRouting.DatabasesIsolated | src/bgw/launcher/mod.rs:97-215 | what a database sees of the launcher is a three-state machine driven by its own messages alone |
| LauncherRouting.DatabasesIsolatedAlways | src/bgw/launcher/mod.rs:59-64 | so at every point of every run it is what the database's own messages so far make of whether it had a worker at launch |
| LauncherContext.LauncherContext.ShutdownAllWorkers | src/bgw/launcher/context.rs:138-146 | the two loops, in any order of the maps, terminate every entry and record each one replaced |
| LauncherContext.LauncherContext.ProcessTerminatedWorkers | src/bgw/launcher/context.rs:24-28 | every terminated entry is waited for once and the map is emptied |
| LauncherContext.LauncherContext.HandleNewConfigMessage | src/bgw/launcher/context.rs:36-53 | forwards to a registered worker, starts one if there is none, and does nothing for a pending one |
| LauncherDrain.ItemAt | src/bgw/launcher/mod.rs:81-90 | the `i`th record taken is handled as what it decodes to, with the answers of its own place |
| LauncherDrain.QueueGrows | src/bgw/launcher/mod.rs:97-215 | a registered worker stays registered exactly when no record ends it, and then its queue grows by exactly what the records are for its database, in order |
| LauncherDrain.PassedOnCommands | src/bgw/launcher/context.rs:55-85 | if sends succeed the commands put on the queue are those of the records, none lost or added |
| LauncherBus.ProcessLauncherBus | src/bgw/launcher/mod.rs:74-217 | terminates in every state of the bus; on one that holds messages, handles each decodable one once in order and leaves the bus empty, unless the first receive meets a full bus whose front record wraps; every worker registered throughout has exactly the commands of its database added to its queue |
| LauncherBus.RunLauncher | src/bgw/launcher/mod.rs:40-72 | the main loop over a bus that others fill in each pause ends early if and only if some drain reads out of range, and otherwise does what `LauncherMain` says of what the bus gives; where all is safe the bus ends empty |
| LauncherBus.SafeTurnsRefine | src/bgw/launcher/mod.rs:61-64 | where every send is safe and no front record wraps, each turn finds exactly what a FIFO would have accepted |
| LauncherBus.SafeTurnsRead | src/bgw/launcher/mod.rs:79-90 | that is, the records a FIFO accepted in the pause before, in order, each decoded |
| RetrySend.SendWithRetry | src/bgw/launcher/mod.rs:232-254 | at most `tries` attempts; `Ok` leaves the bus as the others' operations and one send would, at the first attempt that fits; `Err` as the others' operations alone |
| RetrySend.RetryEnqueuesOnce | src/bgw/launcher/mod.rs:241-244 | from a bus holding `q`, with safe operations of others, an attempt succeeds if and only if the message fits behind what they made of `q`, and puts it there once |
| RetrySend.SendersAreSafe | src/bgw/launcher/mod.rs:241-248 | others that only send are always safe where `read` is short of the capacity |
| SubscriptionIndex.AddPairs | src/bgw/subscriber/nats.rs:34-58 | subscribing adds exactly one pair to the relation |
| SubscriptionIndex.RemovePairs | src/bgw/subscriber/nats.rs:60-69 | unsubscribing removes exactly one pair, and the subject if and only if no other function is left |
| SubscriptionIndex.RemoveSubjectPairs | src/bgw/subscriber/nats.rs:71-75 | dropping a subject removes exactly its pairs |
| SubscriptionIndex.RetainPairs | src/bgw/subscriber/nats.rs:93-115 | running callbacks removes exactly the pairs that answer NotFound, and no subject |
| SubscriptionIndex.CallsOfPairs | src/bgw/subscriber/nats.rs:93-95 | a message calls exactly the functions that the relation has for its subject, each once with its data |
| NatsConnection.NatsConnectionState.Subscribe | src/bgw/subscriber/nats.rs:34-58 | one task is spawned for a new subject and none for a known one; tasks not aborted and subjects stay one to one |
| NatsConnection.NatsConnectionState.Unsubscribe | src/bgw/subscriber/nats.rs:60-69 | the task is aborted exactly with its subject |
| NatsConnection.NatsConnectionState.UnsubscribeAll | src/bgw/subscriber/nats.rs:77-84 | every task ever spawned is aborted and the old map is returned |
| NatsConnection.NatsConnectionState.RunCallbacks | src/bgw/subscriber/nats.rs:86-117 | each function of the subject is called once with the data, and no task changes |
| NatsConnection.NatsConnectionState.ReconnectNats | src/bgw/subscriber/nats.rs:119-138 | a failed connect changes nothing; a successful one keeps the relation, aborts every old task and gives every subject one task on the new client |
| SubscriberRuns.ReplicaSilentAndConfigured | src/bgw/subscriber/context.rs:48-81 | in every run a replica has an empty index, and the connection was opened with the present settings |
| SubscriberRuns.StepFrame | src/bgw/subscriber/mod.rs:190-218 | of all events only a message received on a master, and replication, change the table; only those or the loss of mastership the index; only new settings that can be connected to the settings; only the check of the role the role |
| SubscriberRuns.StepChannel | src/bgw/subscriber/context.rs:83-97 | the channel is first in, first out, and a takeover puts one message per row, row by row, behind what is there |
| SubscriberRuns.StepPhase | src/bgw/subscriber/mod.rs:175-219 | an iteration checks the role, reads the queue, and empties the channel before it ends |
| SubscriberRuns.HandleSubjects | src/bgw/subscriber/nats.rs:34-117 | which subjects are listened to after one message: running callbacks never ends one, losing its last function by an unsubscribe does |
| SubscriberRuns.IndexAgreesWithTable | src/bgw/subscriber/mod.rs:175-219 | whenever a master has emptied its channel, index and table agree if no event drifted, and the index is contained in the table if no insert failed but for a duplicate |
| SubscriberRuns.TakeoverHeals | src/bgw/subscriber/context.rs:62-67 | what happened before a takeover does not matter to that, nor what rows replication brought |
| SubscriberRuns.DeliverDriftsIff | src/bgw/subscriber/mod.rs:298-379 | on any master, restoring or not, one message drives index and table apart if and only if `DriftsOn` says so of the state it meets |
| SubscriberRuns.StepRelationsIff | src/bgw/subscriber/mod.rs:190-218 | of all events only such a message, and a takeover that fails to fetch a table with rows, end agreement; only a failed insert that is no duplicate ends containment |
| SubscriberRuns.AgreesIffNoDrift | src/bgw/subscriber/mod.rs:175-219 | index, with the rows still to be restored, and table agree in every state of a run if and only if they agree at its start and no event of it drifts |
| SubscriberRuns.AgreesFromLaunchIff | src/bgw/subscriber/mod.rs:164-219 | from the entry into the loop: a master must also have fetched its rows, unless it has none |
| SubscriberRuns.ContainedIffNoGain | src/bgw/subscriber/mod.rs:315-334 | the index never has anything the table has not if and only if it has not at the start and no insert fails but for a duplicate |
| SubscriberIteration.SettledByLast | src/bgw/subscriber/context.rs:74-81 | after the queue is read the settings are the last ones brought, if they can be connected to, and the old ones if none came |
| SubscriberIteration.ArrivingUntilEmpty | src/bgw/subscriber/mod.rs:211-218 | exactly when the receives end: each finds a message among those sent before it, and the first that would not ends the loop |
| SubscriberIteration.DrainDelivers | src/bgw/subscriber/mod.rs:211-218 | emptying the channel while tasks go on sending is handling, in order, what was there and then what arrives |
| SubscriberIteration.PairsApart | src/bgw/subscriber/mod.rs:298-379 | on a master each pair of the index and each row of the table depends only on the messages that concern it |
| SubscriberIteration.CallsApart | src/bgw/subscriber/nats.rs:86-117 | a function is called with some data as often as a message with it is received on a subject while the function listens to it |
| SubscriberIteration.IterationOutcome | src/bgw/subscriber/mod.rs:190-218 | what one iteration makes of settings, index, table and calls, whatever is read, sent by tasks and fails; without failures the table is the fold of the launcher's commands, and a replica changes nothing |
| SubscriberContext.SubscriberContext.CheckMigration | src/bgw/subscriber/context.rs:48-72 | the role becomes the one observed; a new replica drops all, a new master asks for its rows; connection and tasks change only with the loss of mastership |
| SubscriberContext.SubscriberContext.ApplyConfig | src/bgw/subscriber/context.rs:74-81 | new settings are taken over with their connection, or nothing changes; the same options keep connection and tasks |
| SubscriberContext.SubscriberContext.RestoreState | src/bgw/subscriber/context.rs:83-97 | one message per row is sent, in the order fetched |
| SubscriberContext.SubscriberContext.Iterate | src/bgw/subscriber/mod.rs:175-219 | one iteration does exactly the events its inputs give, in order; it ends with an empty channel, the settings of the last message that applies and, on a replica, the old table and no task listening; on a master each pair, row and call is what the messages received make of it, and without failures the table is the fold of the launcher's commands |
| Commands.EncodedCommands | src/bgw/launcher/mod.rs:219-230 | where decoding undoes encoding, the commands of the records are those of the messages sent |
| EndToEnd.NextConserves | src/bgw/subscriber/mod.rs:194-218 | no step of any part loses, invents or reorders a command on its way to the table |
| EndToEnd.EndToEnd | src/bgw/launcher/mod.rs:74-217 | once everything is drained the table is the fold of the database's commands, in the order the bus accepted them, over its first rows |
| EndToEnd.AgreesAllAlongIff | src/bgw/subscriber/mod.rs:175-379 | over a whole run of the pipeline index and table agree in every state if and only if they do at first and no event drifted |
| EndToEnd.EndToEndIndex | src/bgw/subscriber/mod.rs:175-379 | then the drained index is the same fold |
| EndToEnd.LaunchStarts | src/bgw/subscriber/mod.rs:140-173 | the state from which that holds is met in every run of the launcher in which the worker is registered, when its subscriber enters the loop as master and the bus is empty |
| EndToEnd.LaunchReached | src/bgw/subscriber/mod.rs:124-129 | such a run exists: a worker started at launch reports its extension over the new bus |
| EndToEndDrains.MovesProgress | src/bgw/launcher/mod.rs:219-230 | what each move of the pipeline does: a send is accepted as a FIFO would, a receive passes the oldest record on, a read takes the next message |
| EndToEndDrains.DrainableIff | src/bgw/launcher/mod.rs:81-81 | every state of every run of the end-to-end theorem, in which no record still on the bus ends the worker, can still be drained if and only if the bus as written is not blocked by a front record that wraps |
| EndToEndDrains.StartDrains | src/bgw/subscriber/mod.rs:194-218 | so from every start there is a run to the end of which the table is known |
| NatsClient.NatsClient.InitializeConnection | src/nats_client.rs:339-377 | connection, context and settings are set together, or the settings are forgotten |
| NatsClient.NatsClient.GetJetstream | src/nats_client.rs:267-276 | a client without a connection opens one, with the settings held or read, and gives its context; it fails exactly if that fails |
| NatsClient.NatsClient.GetOrCreateBucket | src/nats_client.rs:279-305 | a bucket handed out is on the connection then open, which is opened if there is none; it fails exactly if connecting fails or the server neither has nor makes the bucket |
| NatsClient.NatsClient.GetOrCreateObjectStore | src/nats_client.rs:308-337 | the same for an object store that is not cached; a cached one is handed out without a look at the connection |
| NatsClient.FirstBucket | src/nats_client.rs:279-305 | the first lookup of a new client connects by itself |
| NatsClient.NatsClient.CheckAndInvalidateConnection | src/nats_client.rs:135-149 | afterwards no connection is open but one with the new options, and one with them is kept |
| NatsClient.ObjectStoreAfterTakeover | src/nats_client.rs:308-337 | for any client, a cached object store is, after new settings are taken over, on the connection then open if and only if it was on the open connection before and the options stayed the same |
| NatsClient.StaleObjectStore | src/nats_client.rs:121-149 | from a new client, an object store opened under the first settings is current under the second if and only if their options are the same |
| Packing.PackingBijective | src/utils.rs:123-132 | packing and unpacking are inverse both ways for all values |
| Packing.PackingIsPositional | src/utils.rs:123-132 | the database is the upper and the handle the lower half of the value |

## Left out

- Postgres: the table is a set of rows, a worker's queue a FIFO of messages, starting a worker an event that may fail; transactions, catalogs, signals, latches and sleeping are not modelled.
- NATS and tokio: connecting may fail, tasks and clients are identities; TLS, publishing, notifications and Patroni are not modelled.
- `postcard`: the decoder of bus records is a parameter; messages on a worker's queue are taken to decode to what was encoded.
- The subscriber's way out of its loop, when the extension is gone or its queue breaks: a run ends there; its report is to the launcher a message like any other.
- Overflow of `usize` in `try_recv`: it needs a header that no send wrote; the model adds without bound.
- A bus of fewer than 8 bytes: the subtraction of the header size would underflow; the real one has 65536.
- Bus states past the first unsafe operation: the model follows the fields, but nothing is claimed of what they then hold.
- EndToEnd.EndToEnd: assumes the worker stays registered and its database master, sends to its queue succeed, inserts fail only on duplicates, deletes do not fail and nobody else edits the table; for the bus as written also that no operation is unsafe.
- SubscriberRuns.IndexAgreesWithTable: assumes nobody else edits the table; the trigger that deletes the rows of dropped functions is not modelled.
- LauncherBus.RunLauncher: other processes only send in the pauses, since the launcher alone receives; a launcher that ends early is not followed into its restart.
- A worker that has just started is not claimed to last until its own end: messages name only the database, so a late one of an earlier worker acts on its successor.
- The order in which maps and sets are walked: loops take any order, and the contracts do not depend on it.
- The message that sets a role by hand exists only in the tests; roles are observed at random instead.
- `parse_config`, the SQL functions and the publish, request, key-value and object-store calls: thin wrappers.
- `src/bgw/run.rs`: not part of the crate's module tree.
