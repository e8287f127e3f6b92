/** One step of the bus against a first-in first-out queue of byte strings. */
module RingFifo {
  import opened Bytes
  import opened Circular
  import opened RingState

  lemma {:induction false} EncodeAppend(q: seq<seq<byte>>, msg: seq<byte>)
    ensures Encode(q + [msg]) == Encode(q) + Frame(msg)
  {
    if q == [] {
      assert Encode([msg]) == Frame(msg) + Encode([]);
    } else {
      EncodeAppend(q[1..], msg);
      assert (q + [msg])[1..] == q[1..] + [msg];
    }
  }

  /** The bytes a list of messages takes on the bus. */
  function Size(q: seq<seq<byte>>): nat {
    if q == [] then 0 else HEADER_SIZE + |q[0]| + Size(q[1..])
  }

  lemma {:induction false} EncodeSize(q: seq<seq<byte>>)
    ensures |Encode(q)| == Size(q)
  {
    if q != [] {
      EncodeSize(q[1..]);
    }
  }

  /** A record list determines its messages: the contents of a bus are never ambiguous. */
  lemma {:induction false} EncodeInjective(p: seq<seq<byte>>, q: seq<seq<byte>>)
    requires Encode(p) == Encode(q) && |Encode(p)| < USIZE_LIMIT
    ensures p == q
  {
    if p == [] || q == [] {
    } else {
      var bytes := Encode(p);
      assert Header(|p[0]|) == bytes[..HEADER_SIZE] == Header(|q[0]|);
      HeaderRoundTrip(|p[0]|);
      HeaderRoundTrip(|q[0]|);
      assert p[0] == bytes[HEADER_SIZE..HEADER_SIZE + |p[0]|] == q[0];
      assert Encode(p[1..]) == bytes[HEADER_SIZE + |p[0]|..] == Encode(q[1..]);
      EncodeInjective(p[1..], q[1..]);
    }
  }

  /** What a bus holds is never ambiguous. */
  lemma ContentsUnique(r: Ring, p: seq<seq<byte>>, q: seq<seq<byte>>)
    requires Represents(r, p) && Represents(r, q)
    ensures p == q
  {
    EncodeInjective(p, q);
  }

  lemma RepresentsShape(r: Ring, q: seq<seq<byte>>)
    requires Represents(r, q)
    ensures r.Shape()
  {
  }

  lemma NewIsEmpty(capacity: nat)
    requires HEADER_SIZE <= capacity < ISIZE_LIMIT
    ensures Represents(New(capacity), [])
  {
  }

  /** A send in a state holding `q` is accepted exactly when all records, the new one included, fit. */
  lemma AcceptsIffFits(r: Ring, q: seq<seq<byte>>, msg: seq<byte>)
    requires Represents(r, q)
    ensures Fits(r, msg) <==> Size(q) + HEADER_SIZE + |msg| <= r.Capacity()
  {
    EncodeSize(q);
  }

  /** The one send that is accepted but not remembered as filling the bus. */
  predicate LosesFull(r: Ring, msg: seq<byte>)
    requires r.Shape()
  {
    r.read == r.Capacity() && r.write + HEADER_SIZE + |msg| == r.Capacity()
  }

  /** Every other accepted send appends its message. */
  lemma SendAppends(r: Ring, q: seq<seq<byte>>, msg: seq<byte>)
    requires Represents(r, q) && Fits(r, msg) && !LosesFull(r, msg)
    ensures Represents(Sent(r, msg), q + [msg])
  {
    var used, total := r.Used(), HEADER_SIZE + |msg|;
    var r' := Sent(r, msg);
    assert r.write == At(r.read, used, r.Capacity()) || used == 0;
    assert r'.Used() == used + total;
    WindowConcat(r'.buffer, r.read, used, total);
    if used == 0 {
      SendIntoEmpty(r, msg);
    } else {
      WindowBeforePut(r.buffer, r.read, used, Frame(msg));
      WindowOfPut(r.buffer, r.write, Frame(msg));
    }
    EncodeAppend(q, msg);
  }

  lemma SendIntoEmpty(r: Ring, msg: seq<byte>)
    requires r.Shape() && r.Used() == 0 && Fits(r, msg)
    ensures Window(Sent(r, msg).buffer, r.read, HEADER_SIZE + |msg|) == Frame(msg)
  {
  }

  /** After the send that loses the full flag, the bus reads as empty although it holds messages. */
  lemma LostFullReadsAsEmpty(r: Ring, msg: seq<byte>)
    requires r.Shape() && r.Used() + HEADER_SIZE + |msg| <= r.Capacity() && LosesFull(r, msg)
    ensures Fits(r, msg)
    ensures var r' := Sent(r, msg);
            r'.read == r'.Capacity() && r'.write == 0 && !r'.full && r'.Used() == 0
  {
  }

  /** Where the parts of the oldest record lie. */
  lemma FrontRecord(r: Ring, q: seq<seq<byte>>)
    requires Represents(r, q) && q != []
    ensures HEADER_SIZE + |q[0]| <= r.Used()
    ensures r.FrontLength() == |q[0]|
    ensures Window(r.buffer, At(r.read, HEADER_SIZE, r.Capacity()), |q[0]|) == q[0]
    ensures Window(r.buffer, At(r.read, HEADER_SIZE + |q[0]|, r.Capacity()), r.Used() - HEADER_SIZE - |q[0]|)
         == Encode(q[1..])
  {
    var total := HEADER_SIZE + |q[0]|;
    var w := Window(r.buffer, r.read, r.Used());
    assert w == Frame(q[0]) + Encode(q[1..]);
    assert |Frame(q[0])| == total;
    WindowConcat(r.buffer, r.read, total, r.Used() - total);
    assert Window(r.buffer, r.read, total) == w[..total] == Frame(q[0]);
    WindowConcat(r.buffer, r.read, HEADER_SIZE, |q[0]|);
    assert Window(r.buffer, r.read, HEADER_SIZE) == w[..HEADER_SIZE] == Header(|q[0]|);
    HeaderRoundTrip(|q[0]|);
    assert Frame(q[0])[HEADER_SIZE..] == q[0];
  }

  /** The one state in which a receive reads past the end: full, with a front record that wraps. */
  predicate FrontWraps(r: Ring)
    requires r.Shape()
  {
    r.full && r.read + HEADER_SIZE + r.FrontLength() > r.Capacity()
  }

  lemma ReceiveKeepsShape(v: Variant, r: Ring)
    requires r.Shape()
    ensures Receive(v, r).Message? ==> Receive(v, r).next.Shape() && Receive(v, r).next.Capacity() == r.Capacity()
  {
  }

  lemma EmptyReceives(v: Variant, r: Ring)
    requires Represents(r, [])
    ensures Receive(v, r) in {Empty, Corrupted}
  {
  }

  lemma ContiguousReceives(r: Ring, q: seq<seq<byte>>)
    requires Represents(r, q) && q != [] && r.read <= r.write && !FrontWraps(r)
    ensures ReceiveContiguous(r) == Message(q[0], r.(read := r.read + HEADER_SIZE + |q[0]|, full := false))
    ensures Represents(ReceiveContiguous(r).next, q[1..])
  {
    FrontRecord(r, q);
    WindowContiguous(r.buffer, r.read, HEADER_SIZE);
    WindowContiguous(r.buffer, r.read + HEADER_SIZE, |q[0]|);
    ContiguousLeavesRest(r, q);
  }

  lemma ContiguousLeavesRest(r: Ring, q: seq<seq<byte>>)
    requires Represents(r, q) && q != [] && r.read <= r.write && r.read + HEADER_SIZE + |q[0]| <= r.Capacity()
    ensures Represents(r.(read := r.read + HEADER_SIZE + |q[0]|, full := false), q[1..])
  {
    FrontRecord(r, q);
    var end := r.read + HEADER_SIZE + |q[0]|;
    var r' := r.(read := end, full := false);
    assert r'.Used() == r.Used() - HEADER_SIZE - |q[0]|;
    SameWindow(r.buffer, end, At(r.read, HEADER_SIZE + |q[0]|, r.Capacity()), r'.Used());
  }

  /** Positions 0 and `capacity` are the same place. */
  lemma SameWindow(b: seq<byte>, x: nat, y: nat, n: nat)
    requires x <= |b| && y <= |b| && n <= |b| && (x == y || (x == |b| && y == 0) || (x == 0 && y == |b|))
    ensures Window(b, x, n) == Window(b, y, n)
  {
  }

  lemma WrappedReceives(r: Ring, q: seq<seq<byte>>)
    requires Represents(r, q) && q != [] && (r.write < r.read || r.full)
    ensures ReceiveWrapped(r)
         == Message(q[0], r.(read := At(r.read, HEADER_SIZE + |q[0]|, r.Capacity()), full := false))
    ensures Represents(ReceiveWrapped(r).next, q[1..])
  {
    FrontRecord(r, q);
    var r' := r.(read := At(r.read, HEADER_SIZE + |q[0]|, r.Capacity()), full := false);
    assert r'.Used() == r.Used() - HEADER_SIZE - |q[0]|;
  }

  lemma NonEmptyUses(r: Ring, q: seq<seq<byte>>)
    requires Represents(r, q) && q != []
    ensures r.Used() >= HEADER_SIZE
  {
  }

  lemma WrappingFrontPanics(r: Ring)
    requires r.Shape() && FrontWraps(r)
    ensures Receive(Written, r) == Panicked
  {
    if r.read + HEADER_SIZE <= r.Capacity() {
      WindowContiguous(r.buffer, r.read, HEADER_SIZE);
    }
  }

  /**
    The code as written, on a bus holding `q`: it receives nothing when `q` is empty, the oldest
    message when it is not, and reads out of range exactly when the bus is full and its front
    record wraps.
   */
  lemma WrittenReceives(r: Ring, q: seq<seq<byte>>)
    requires Represents(r, q)
    ensures q == [] ==> Receive(Written, r) in {Empty, Corrupted}
    ensures FrontWraps(r) <==> Receive(Written, r) == Panicked
    ensures q != [] && !FrontWraps(r) ==>
              && Receive(Written, r).Message?
              && Receive(Written, r).msg == q[0]
              && Represents(Receive(Written, r).next, q[1..])
  {
    if q == [] {
      EmptyReceives(Written, r);
    } else if FrontWraps(r) {
      WrappingFrontPanics(r);
    } else if r.read > r.write {
      NonEmptyUses(r, q);
      WrappedReceives(r, q);
    } else {
      NonEmptyUses(r, q);
      ContiguousReceives(r, q);
    }
  }

  /** The intended version needs no condition, and never leaves `read` at the capacity. */
  lemma IntendedReceives(r: Ring, q: seq<seq<byte>>)
    requires Represents(r, q) && r.read < r.Capacity()
    ensures q == [] ==> Receive(Intended, r) == Empty
    ensures q != [] ==>
              && Receive(Intended, r).Message?
              && Receive(Intended, r).msg == q[0]
              && Represents(Receive(Intended, r).next, q[1..])
              && Receive(Intended, r).next.read < r.Capacity()
  {
    if q == [] {
      assert !r.full && r.Used() == 0;
    } else if r.read < r.write {
      ContiguousReceives(r, q);
      FrontRecord(r, q);
    } else {
      FrontRecord(r, q);
      WrappedReceives(r, q);
    }
  }

  /** The written and the intended receive agree exactly while a full bus keeps its front record short of the end. */
  lemma VariantsAgree(r: Ring, q: seq<seq<byte>>)
    requires Represents(r, q) && r.read < r.Capacity()
    ensures Receive(Written, r) == Receive(Intended, r)
       <==> (!r.full || r.read + HEADER_SIZE + r.FrontLength() < r.Capacity())
  {
    if r.full {
      assert q != [];
      FrontRecord(r, q);
      WrappedReceives(r, q);
      WrittenReceives(r, q);
      if !FrontWraps(r) {
        ContiguousReceives(r, q);
      }
    }
  }

  /** The two returns commented as corrupted data are dead, but for an empty bus whose `read` is at the capacity. */
  lemma NeverCorrupted(v: Variant, r: Ring, q: seq<seq<byte>>)
    requires Represents(r, q)
    ensures Receive(v, r) == Corrupted <==> q == [] && r.read == r.Capacity()
  {
    if q == [] {
      assert !r.full && r.Used() == 0;
    } else {
      FrontRecord(r, q);
      WrittenReceives(r, q);
      if r.read < r.Capacity() {
        IntendedReceives(r, q);
      }
    }
  }

  /** The same state with `read` put back at 0 when it is at the capacity. */
  function Normal(r: Ring): Ring {
    if r.read == r.Capacity() then r.(read := 0) else r
  }

  /** A `read` left at the capacity changes no receive, apart from which of the two `None`s an empty bus gives. */
  lemma ReadAtCapacityReceives(r: Ring, q: seq<seq<byte>>)
    requires Represents(r, q) && r.read == r.Capacity()
    ensures Represents(Normal(r), q)
    ensures q != [] ==> Receive(Written, r) == Receive(Written, Normal(r))
    ensures q == [] ==> Receive(Written, r) == Corrupted && Receive(Written, Normal(r)) == Empty
  {
    SameWindow(r.buffer, r.read, 0, r.Used());
    NeverCorrupted(Written, r, q);
    if q == [] {
      WrittenReceives(r, q);
    } else {
      FrontRecord(r, q);
      WrappedReceives(r, q);
      ContiguousReceives(Normal(r), q);
    }
  }

  /** Nor does it change a send, apart from the one that fills the bus, which then goes unrecorded. */
  lemma ReadAtCapacitySends(r: Ring, msg: seq<byte>)
    requires r.Shape() && r.read == r.Capacity()
    ensures Fits(r, msg) == Fits(Normal(r), msg)
    ensures Fits(r, msg) && !LosesFull(r, msg) ==> Normal(Sent(r, msg)) == Sent(Normal(r), msg)
    ensures Fits(r, msg) && LosesFull(r, msg) ==>
              Normal(Sent(r, msg)) == Sent(Normal(r), msg).(full := false) && Sent(Normal(r), msg).full
  {
  }
}
