/** `src/bgw/launcher/mod.rs`: sending to the bus with retries, while other processes use it too. */
module RetrySend {
  import opened Bytes
  import opened RingState
  import opened RingFifo
  import opened RingRuns
  import opened RingDrain
  import RingQueue

  /** The bus after the other processes' operations in the first `k` pauses. */
  function AfterOthers(r: Ring, others: nat -> seq<Op>, k: nat): (r': Ring)
    requires r.Shape()
    ensures r'.Shape() && r'.Capacity() == r.Capacity()
  {
    if k == 0 then r else After(Written, AfterOthers(r, others, k - 1), others(k - 1))
  }

  /** Each of those operations is safe where it is made. */
  predicate OthersSafe(r: Ring, others: nat -> seq<Op>, k: nat)
    requires r.Shape()
  {
    k > 0 ==> OthersSafe(r, others, k - 1) && SafeRun(AfterOthers(r, others, k - 1), others(k - 1))
  }

  /** What those operations make of a queue. */
  function QueueAfterOthers(capacity: nat, q: seq<seq<byte>>, others: nat -> seq<Op>, k: nat): seq<seq<byte>> {
    if k == 0 then q else FifoAfter(capacity, QueueAfterOthers(capacity, q, others, k - 1), others(k - 1))
  }

  lemma {:induction false} OthersRefine(r: Ring, q: seq<seq<byte>>, others: nat -> seq<Op>, k: nat)
    requires Represents(r, q) && OthersSafe(r, others, k)
    ensures Represents(AfterOthers(r, others, k), QueueAfterOthers(r.Capacity(), q, others, k))
  {
    hide Represents;
    RepresentsShape(r, q);
    if k > 0 {
      OthersRefine(r, q, others, k - 1);
      SafeRunAfter(AfterOthers(r, others, k - 1), QueueAfterOthers(r.Capacity(), q, others, k - 1), others(k - 1));
    }
  }

  /**
    From a bus that holds `q`: an attempt after `k` pauses is refused exactly when the message does
    not fit behind what the others left, and accepted it puts the message behind that, once.
   */
  lemma RetryEnqueuesOnce(r: Ring, q: seq<seq<byte>>, others: nat -> seq<Op>, k: nat, data: seq<byte>)
    requires Represents(r, q) && OthersSafe(r, others, k)
    ensures var bus, queue := AfterOthers(r, others, k), QueueAfterOthers(r.Capacity(), q, others, k);
            && Represents(bus, queue)
            && (Fits(bus, data) <==> Size(queue) + HEADER_SIZE + |data| <= r.Capacity())
            && (Fits(bus, data) && !LosesFull(bus, data) ==> Represents(Sent(bus, data), queue + [data]))
  {
    OthersRefine(r, q, others, k);
    var bus, queue := AfterOthers(r, others, k), QueueAfterOthers(r.Capacity(), q, others, k);
    AcceptsIffFits(bus, queue, data);
    if Fits(bus, data) && !LosesFull(bus, data) {
      SendAppends(bus, queue, data);
    }
  }

  /** Others that only send, as all do but the launcher, are safe wherever `read` is short of the capacity. */
  lemma {:induction false} SendersAreSafe(r: Ring, msgs: nat -> seq<seq<byte>>, k: nat)
    requires r.Shape() && r.read < r.Capacity()
    ensures var others := (i: nat) => Sends(msgs(i));
            OthersSafe(r, others, k) && AfterOthers(r, others, k).read == r.read
  {
    if k > 0 {
      SendersAreSafe(r, msgs, k - 1);
      SendsSafe(AfterOthers(r, (i: nat) => Sends(msgs(i)), k - 1), msgs(k - 1));
    }
  }

  /** What other processes do to the bus while this one does not hold its lock. */
  method Interfere(queue: RingQueue.RingQueue, ops: seq<Op>)
    requires queue.Valid()
    modifies queue, queue.buffer
    ensures queue.Valid()
    ensures queue.State() == After(Written, old(queue.State()), ops)
  {
    for i := 0 to |ops|
      invariant queue.Valid()
      invariant After(Written, queue.State(), ops[i..]) == After(Written, old(queue.State()), ops)
    {
      hide Sent, Receive, Fits;
      assert ops[i..][0] == ops[i] && ops[i..][1..] == ops[i + 1..];
      match ops[i] {
        case SendOp(msg) => var _ := queue.TrySend(msg);
        case RecvOp => var _ := queue.TryRecv();
      }
    }
  }

  /**
    `send_message_to_launcher_with_retry`, with any operations of other processes in each pause.
    `Ok` leaves the bus as the others alone would have it with the message sent once, at the first
    attempt that fits; `Err` leaves it as the others alone would have it. If the bus holds `q` at
    first and the operations are safe, it holds what the others make of `q`, and the message once.
   */
  method SendWithRetry(queue: RingQueue.RingQueue, data: seq<byte>, tries: nat, others: nat -> seq<Op>,
                       ghost q: seq<seq<byte>>)
    returns (ok: bool, attempts: nat)
    requires queue.Valid()
    modifies queue, queue.buffer
    ensures queue.Valid()
    ensures attempts <= tries
    ensures forall k :: 0 <= k < attempts && !(ok && k == attempts - 1) ==>
              !Fits(AfterOthers(old(queue.State()), others, k), data)
    ensures ok ==> 0 < attempts && Fits(AfterOthers(old(queue.State()), others, attempts - 1), data)
    ensures ok ==> queue.State() == Sent(AfterOthers(old(queue.State()), others, attempts - 1), data)
    ensures !ok ==> attempts == tries && queue.State() == AfterOthers(old(queue.State()), others, tries)
    ensures Represents(old(queue.State()), q) && ok && OthersSafe(old(queue.State()), others, attempts - 1)
            && !LosesFull(AfterOthers(old(queue.State()), others, attempts - 1), data) ==>
              Represents(queue.State(), QueueAfterOthers(queue.buffer.Length, q, others, attempts - 1) + [data])
    ensures Represents(old(queue.State()), q) && !ok && OthersSafe(old(queue.State()), others, tries) ==>
              Represents(queue.State(), QueueAfterOthers(queue.buffer.Length, q, others, tries))
  {
    hide Sent, Fits, Represents, LosesFull, OthersSafe, QueueAfterOthers, After;
    ghost var before := queue.State();
    var n := 0;
    while n < tries
      invariant n <= tries
      invariant queue.Valid() && queue.State() == AfterOthers(before, others, n)
      invariant forall k :: 0 <= k < n ==> !Fits(AfterOthers(before, others, k), data)
    {
      var sent := queue.TrySend(data);
      if sent {
        if Represents(before, q) && OthersSafe(before, others, n) {
          RetryEnqueuesOnce(before, q, others, n, data);
        }
        return true, n + 1;
      }
      Interfere(queue, others(n));
      n := n + 1;
    }
    if Represents(before, q) && OthersSafe(before, others, tries) {
      OthersRefine(before, q, others, tries);
    }
    return false, tries;
  }
}
