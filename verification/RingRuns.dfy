/** Whole runs of the bus: any sequence of sends and receives, against a bounded FIFO. */
module RingRuns {
  import opened Bytes
  import opened RingState
  import opened RingFifo

  datatype Op = SendOp(msg: seq<byte>) | RecvOp

  /** What the caller of one operation sees. */
  datatype Output = Accepted | Refused | Gave(outcome: Outcome)

  /** One operation. A panic leaves the fields as they are. */
  function Step(v: Variant, r: Ring, op: Op): (s: (Output, Ring))
    requires r.Shape()
    ensures s.1.Shape() && s.1.Capacity() == r.Capacity()
  {
    match op
    case SendOp(msg) => if Fits(r, msg) then (Accepted, Sent(r, msg)) else (Refused, r)
    case RecvOp =>
      ReceiveKeepsShape(v, r);
      (Gave(Receive(v, r).Seen()), Receive(v, r).Next(r))
  }

  /** The specification: a queue of messages whose records take at most `capacity` bytes. */
  function FifoStep(capacity: nat, q: seq<seq<byte>>, op: Op): (Output, seq<seq<byte>>) {
    match op
    case SendOp(msg) =>
      if Size(q) + HEADER_SIZE + |msg| <= capacity then (Accepted, q + [msg]) else (Refused, q)
    case RecvOp =>
      if q == [] then (Gave(Nothing), q) else (Gave(Got(q[0])), q[1..])
  }

  function Run(v: Variant, r: Ring, ops: seq<Op>): seq<Output>
    requires r.Shape()
    decreases |ops|
  {
    if ops == [] then [] else
    var (out, r') := Step(v, r, ops[0]);
    [out] + Run(v, r', ops[1..])
  }

  /** The bus after a run. */
  function After(v: Variant, r: Ring, ops: seq<Op>): (r': Ring)
    requires r.Shape()
    ensures r'.Shape() && r'.Capacity() == r.Capacity()
    decreases |ops|
  {
    if ops == [] then r else After(v, Step(v, r, ops[0]).1, ops[1..])
  }

  function FifoRun(capacity: nat, q: seq<seq<byte>>, ops: seq<Op>): seq<Output>
    decreases |ops|
  {
    if ops == [] then [] else
    var (out, q') := FifoStep(capacity, q, ops[0]);
    [out] + FifoRun(capacity, q', ops[1..])
  }

  /** The queue after a run. */
  function FifoAfter(capacity: nat, q: seq<seq<byte>>, ops: seq<Op>): seq<seq<byte>>
    decreases |ops|
  {
    if ops == [] then q else FifoAfter(capacity, FifoStep(capacity, q, ops[0]).1, ops[1..])
  }

  /** What a caller could check before an operation: neither of the two states the code gets wrong. */
  predicate Safe(r: Ring, op: Op)
    requires r.Shape()
  {
    match op
    case SendOp(msg) => !LosesFull(r, msg)
    case RecvOp => !FrontWraps(r)
  }

  /** Every operation of a run of the code as written is safe in the state it meets. */
  predicate SafeRun(r: Ring, ops: seq<Op>)
    requires r.Shape()
    decreases |ops|
  {
    ops != [] ==> Safe(r, ops[0]) && SafeRun(Step(Written, r, ops[0]).1, ops[1..])
  }

  /** One safe operation of the code as written is one operation of the FIFO. */
  lemma SafeStepRefines(r: Ring, q: seq<seq<byte>>, op: Op)
    requires Represents(r, q) && Safe(r, op)
    ensures Step(Written, r, op).0 == FifoStep(r.Capacity(), q, op).0
    ensures Represents(Step(Written, r, op).1, FifoStep(r.Capacity(), q, op).1)
  {
    match op
    case SendOp(msg) =>
      AcceptsIffFits(r, q, msg);
      if Fits(r, msg) {
        SendAppends(r, q, msg);
      }
    case RecvOp =>
      WrittenReceives(r, q);
  }

  /** After a run of safe operations the bus holds what the queue does. */
  lemma {:induction false} SafeRunAfter(r: Ring, q: seq<seq<byte>>, ops: seq<Op>)
    requires Represents(r, q) && SafeRun(r, ops)
    ensures Represents(After(Written, r, ops), FifoAfter(r.Capacity(), q, ops))
    decreases |ops|
  {
    if ops != [] {
      SafeStepRefines(r, q, ops[0]);
      SafeRunAfter(Step(Written, r, ops[0]).1, FifoStep(r.Capacity(), q, ops[0]).1, ops[1..]);
    }
  }

  /** One operation of the intended version is one operation of the FIFO. */
  lemma IntendedStepRefines(r: Ring, q: seq<seq<byte>>, op: Op)
    requires Represents(r, q) && r.read < r.Capacity()
    ensures Step(Intended, r, op).0 == FifoStep(r.Capacity(), q, op).0
    ensures Represents(Step(Intended, r, op).1, FifoStep(r.Capacity(), q, op).1)
    ensures Step(Intended, r, op).1.read < r.Capacity()
  {
    match op
    case SendOp(msg) =>
      AcceptsIffFits(r, q, msg);
      if Fits(r, msg) {
        SendAppends(r, q, msg);
      }
    case RecvOp =>
      IntendedReceives(r, q);
  }

  /** The intended version is a FIFO over every run, with no condition. */
  lemma {:induction false} IntendedRefinesFifo(r: Ring, q: seq<seq<byte>>, ops: seq<Op>)
    requires Represents(r, q) && r.read < r.Capacity()
    ensures Run(Intended, r, ops) == FifoRun(r.Capacity(), q, ops)
    decreases |ops|
  {
    if ops != [] {
      IntendedStepRefines(r, q, ops[0]);
      IntendedRefinesFifo(Step(Intended, r, ops[0]).1, FifoStep(r.Capacity(), q, ops[0]).1, ops[1..]);
    }
  }

  /** The bus after the full flag was lost: it holds a full capacity of records and reads as empty. */
  predicate FullLost(r: Ring) {
    r.Shape() && r.read == r.Capacity() && r.write == 0
  }

  /**
    Once the full flag is lost, a FIFO whose records fill the bus is no longer followed: up to the
    next receive, at the latest, some output differs.
   */
  lemma {:induction false} FullLostDiverges(r: Ring, q: seq<seq<byte>>, ops: seq<Op>)
    requires FullLost(r) && q != [] && Size(q) == r.Capacity()
    requires ops != [] && ops[|ops| - 1] == RecvOp
    ensures Run(Written, r, ops) != FifoRun(r.Capacity(), q, ops)
    decreases |ops|
  {
    var (out, r') := Step(Written, r, ops[0]);
    var (fifoOut, q') := FifoStep(r.Capacity(), q, ops[0]);
    if out == fifoOut {
      assert out == Refused && r' == r && q' == q;
      FullLostDiverges(r, q, ops[1..]);
      TailsDiffer(out, Run(Written, r, ops[1..]), FifoRun(r.Capacity(), q, ops[1..]));
    } else {
      assert Run(Written, r, ops)[0] == out;
      assert FifoRun(r.Capacity(), q, ops)[0] == fifoOut;
    }
  }

  lemma TailsDiffer<T>(x: T, s: seq<T>, t: seq<T>)
    requires s != t
    ensures [x] + s != [x] + t
  {
    assert ([x] + s)[1..] == s;
    assert ([x] + t)[1..] == t;
  }

  /** The first unsafe operation shows: at once for a receive, by the next receive for a send. */
  lemma UnsafeDiverges(r: Ring, q: seq<seq<byte>>, ops: seq<Op>)
    requires Represents(r, q) && ops != [] && !Safe(r, ops[0]) && ops[|ops| - 1] == RecvOp
    ensures Run(Written, r, ops) != FifoRun(r.Capacity(), q, ops)
  {
    var (out, r') := Step(Written, r, ops[0]);
    var (fifoOut, q') := FifoStep(r.Capacity(), q, ops[0]);
    if ops[0].RecvOp? {
      WrittenReceives(r, q);
      assert Run(Written, r, ops)[0] == Gave(OutOfRange);
      assert FifoRun(r.Capacity(), q, ops)[0] == fifoOut != Gave(OutOfRange);
    } else {
      var msg := ops[0].msg;
      EncodeSize(q);
      assert Fits(r, msg);
      AcceptsIffFits(r, q, msg);
      SizeAppend(q, msg);
      FullLostDiverges(r', q', ops[1..]);
      TailsDiffer(out, Run(Written, r', ops[1..]), FifoRun(r.Capacity(), q', ops[1..]));
    }
  }

  lemma {:induction false} SizeAppend(q: seq<seq<byte>>, msg: seq<byte>)
    ensures Size(q + [msg]) == Size(q) + HEADER_SIZE + |msg|
  {
    EncodeAppend(q, msg);
    EncodeSize(q);
    EncodeSize(q + [msg]);
  }

  /**
    Exactly when the code as written is a FIFO: a run that ends with a receive gives the outputs
    of the FIFO if and only if every operation in it is safe.
   */
  lemma {:induction false} WrittenIsFifoIffSafe(r: Ring, q: seq<seq<byte>>, ops: seq<Op>)
    requires Represents(r, q) && (ops != [] ==> ops[|ops| - 1] == RecvOp)
    ensures Run(Written, r, ops) == FifoRun(r.Capacity(), q, ops) <==> SafeRun(r, ops)
    decreases |ops|
  {
    if ops == [] {
    } else if Safe(r, ops[0]) {
      SafeStepRefines(r, q, ops[0]);
      var (out, r') := Step(Written, r, ops[0]);
      var q' := FifoStep(r.Capacity(), q, ops[0]).1;
      WrittenIsFifoIffSafe(r', q', ops[1..]);
      if Run(Written, r', ops[1..]) != FifoRun(r.Capacity(), q', ops[1..]) {
        TailsDiffer(out, Run(Written, r', ops[1..]), FifoRun(r.Capacity(), q', ops[1..]));
      }
    } else {
      UnsafeDiverges(r, q, ops);
    }
  }

  /** Both variants from `new()`. */
  lemma FromNew(capacity: nat, ops: seq<Op>)
    requires HEADER_SIZE <= capacity < ISIZE_LIMIT
    ensures Run(Intended, New(capacity), ops) == FifoRun(capacity, [], ops)
    ensures Run(Written, New(capacity), ops + [RecvOp]) == FifoRun(capacity, [], ops + [RecvOp])
       <==> SafeRun(New(capacity), ops + [RecvOp])
  {
    NewIsEmpty(capacity);
    IntendedRefinesFifo(New(capacity), [], ops);
    WrittenIsFifoIffSafe(New(capacity), [], ops + [RecvOp]);
  }

  /**
    A full bus whose front record wraps, at every capacity above 8: a message that is sent and received
    moves the positions on, one that fills the bus is accepted, and receiving it reads out of range.
   */
  lemma WrappingFrontWitness(capacity: nat, a: seq<byte>, b: seq<byte>)
    requires HEADER_SIZE <= capacity < ISIZE_LIMIT
    requires HEADER_SIZE + |a| < capacity && HEADER_SIZE + |b| == capacity
    ensures Run(Written, New(capacity), [SendOp(a), RecvOp, SendOp(b), RecvOp])
         == [Accepted, Gave(Got(a)), Accepted, Gave(OutOfRange)]
  {
    var r0 := New(capacity);
    NewIsEmpty(capacity);
    var r1 := Step(Written, r0, SendOp(a)).1;
    SafeStepRefines(r0, [], SendOp(a));
    assert Represents(r1, [a]);
    var r2 := Step(Written, r1, RecvOp).1;
    SafeStepRefines(r1, [a], RecvOp);
    ContiguousReceives(r1, [a]);
    assert Represents(r2, []) && r2.read == HEADER_SIZE + |a| == r2.write;
    var r3 := Step(Written, r2, SendOp(b)).1;
    SafeStepRefines(r2, [], SendOp(b));
    assert Represents(r3, [b]) && r3.full;
    FrontRecord(r3, [b]);
    WrittenReceives(r3, [b]);
    RunOfFour(Written, r0, SendOp(a), RecvOp, SendOp(b), RecvOp);
  }

  /** Such a bus is stuck for good: nothing can be received, and, being full, nothing can be sent. */
  lemma {:induction false} WrappingFrontIsStuck(r: Ring, ops: seq<Op>)
    requires r.Shape() && FrontWraps(r)
    ensures After(Written, r, ops) == r
    ensures forall out :: out in Run(Written, r, ops) ==> out in {Gave(OutOfRange), Refused}
    decreases |ops|
  {
    if ops != [] {
      WrappingFrontPanics(r);
      assert Step(Written, r, ops[0]).1 == r;
      WrappingFrontIsStuck(r, ops[1..]);
    }
  }

  /** A message that fills the bus, sent twice, at every capacity from 8: the second is accepted and never received. */
  lemma LostFullWitness(capacity: nat, a: seq<byte>)
    requires HEADER_SIZE <= capacity < ISIZE_LIMIT && HEADER_SIZE + |a| == capacity
    ensures Run(Written, New(capacity), [SendOp(a), RecvOp, SendOp(a), RecvOp])
         == [Accepted, Gave(Got(a)), Accepted, Gave(Nothing)]
  {
    var r0 := New(capacity);
    NewIsEmpty(capacity);
    var r1 := Step(Written, r0, SendOp(a)).1;
    SafeStepRefines(r0, [], SendOp(a));
    assert Represents(r1, [a]) && r1.full && r1.read == 0;
    FrontRecord(r1, [a]);
    ContiguousReceives(r1, [a]);
    var r2 := Step(Written, r1, RecvOp).1;
    assert r2.read == capacity && r2.write == 0 && !r2.full;
    LostFullReadsAsEmpty(r2, a);
    RunOfFour(Written, r0, SendOp(a), RecvOp, SendOp(a), RecvOp);
  }

  lemma RunOfFour(v: Variant, r: Ring, a: Op, b: Op, c: Op, d: Op)
    requires r.Shape()
    ensures var s1 := Step(v, r, a); var s2 := Step(v, s1.1, b); var s3 := Step(v, s2.1, c);
            Run(v, r, [a, b, c, d]) == [s1.0, s2.0, s3.0, Step(v, s3.1, d).0]
  {
    hide Step;
    var r1 := Step(v, r, a).1;
    var r2 := Step(v, r1, b).1;
    var r3 := Step(v, r2, c).1;
    assert [a, b, c, d][1..] == [b, c, d];
    assert [b, c, d][1..] == [c, d];
    assert [c, d][1..] == [d];
    assert Run(v, r3, [d]) == [Step(v, r3, d).0];
    assert Run(v, r2, [c, d]) == [Step(v, r2, c).0] + Run(v, r3, [d]);
    assert Run(v, r1, [b, c, d]) == [Step(v, r1, b).0] + Run(v, r2, [c, d]);
  }

  /** The messages are sent one after another, and all accepted. */
  predicate AcceptsAll(r: Ring, msgs: seq<seq<byte>>)
    requires r.Shape()
    decreases |msgs|
  {
    msgs != [] ==> Fits(r, msgs[0]) && AcceptsAll(Sent(r, msgs[0]), msgs[1..])
  }

  lemma {:induction false} AcceptsWhileRoom(r: Ring, q: seq<seq<byte>>, msgs: seq<seq<byte>>)
    requires Represents(r, q) && r.read < r.Capacity()
    ensures AcceptsAll(r, msgs) <==> msgs == [] || Size(q) + Size(msgs) <= r.Capacity()
    decreases |msgs|
  {
    if msgs != [] {
      AcceptsIffFits(r, q, msgs[0]);
      if Fits(r, msgs[0]) {
        SendAppends(r, q, msgs[0]);
        SizeAppend(q, msgs[0]);
        AcceptsWhileRoom(Sent(r, msgs[0]), q + [msgs[0]], msgs[1..]);
      }
    }
  }

  lemma {:induction false} SizeOfEqualLengths(msgs: seq<seq<byte>>, len: nat)
    requires forall m :: m in msgs ==> |m| == len
    ensures Size(msgs) == |msgs| * (HEADER_SIZE + len)
  {
    if msgs != [] {
      assert msgs[0] in msgs;
      SizeOfEqualLengths(msgs[1..], len);
      assert |msgs| * (HEADER_SIZE + len) == HEADER_SIZE + len + (|msgs| - 1) * (HEADER_SIZE + len);
    }
  }

  /**
    An empty bus, wherever its positions are, accepts messages of one length, whatever their
    bytes, exactly `capacity / (8 + length)` times before it first refuses.
   */
  lemma FillCount(r: Ring, msgs: seq<seq<byte>>, len: nat)
    requires Represents(r, []) && r.read < r.Capacity()
    requires forall m :: m in msgs ==> |m| == len
    ensures AcceptsAll(r, msgs) <==> |msgs| <= r.Capacity() / (HEADER_SIZE + len)
  {
    AcceptsWhileRoom(r, [], msgs);
    SizeOfEqualLengths(msgs, len);
    DivisionBound(|msgs|, HEADER_SIZE + len, r.Capacity());
  }

  lemma DivisionBound(n: nat, d: nat, c: nat)
    requires 0 < d
    ensures n * d <= c <==> n <= c / d
  {
    var k := c / d;
    assert k * d <= c < (k + 1) * d;
    if n <= k {
      assert n * d <= k * d;
    } else {
      assert (k + 1) * d <= n * d;
    }
  }
}
