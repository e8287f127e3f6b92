/** Receiving until nothing is left, in any state of the bus, and against a FIFO. */
module RingDrain {
  import opened Bytes
  import opened RingState
  import opened RingFifo
  import opened RingRuns

  /** Every message taken makes the used part smaller, whatever the bytes are. */
  lemma ReceiveShrinks(v: Variant, r: Ring)
    requires r.Shape() && Receive(v, r).Message?
    ensures Receive(v, r).next.Shape() && Receive(v, r).next.Used() < r.Used()
  {
    ReceiveKeepsShape(v, r);
  }

  /** The messages that receiving gives until it gives none, by the code as written. */
  function Drained(r: Ring): seq<seq<byte>>
    requires r.Shape()
    decreases r.Used()
  {
    var o := Receive(Written, r);
    if o.Message? then
      ReceiveShrinks(Written, r);
      [o.msg] + Drained(o.next)
    else []
  }

  /** The bus when receiving gives none. */
  function DrainEnd(r: Ring): (r': Ring)
    requires r.Shape()
    ensures r'.Shape() && !Receive(Written, r').Message?
    decreases r.Used()
  {
    var o := Receive(Written, r);
    if o.Message? then
      ReceiveShrinks(Written, r);
      DrainEnd(o.next)
    else r
  }

  /** Receiving ends with a slice out of range, not with an empty bus. */
  predicate DrainPanics(r: Ring)
    requires r.Shape()
  {
    Receive(Written, DrainEnd(r)).Panicked?
  }

  /** Only the first receive of a drain can meet a full bus. */
  lemma ReceiveClearsFull(r: Ring)
    requires r.Shape()
    ensures Receive(Written, r).Message? ==> !Receive(Written, r).next.full
    ensures !r.full ==> !FrontWraps(r)
  {
  }

  /**
    A drain of a bus holding `q` gives exactly `q` and leaves the bus empty, unless its first
    receive meets a full bus whose front record wraps, which gives and changes nothing.
   */
  lemma {:induction false} DrainIsFifo(r: Ring, q: seq<seq<byte>>)
    requires Represents(r, q)
    ensures DrainPanics(r) <==> FrontWraps(r)
    ensures FrontWraps(r) ==> Drained(r) == [] && DrainEnd(r) == r
    ensures !FrontWraps(r) ==> Drained(r) == q && Represents(DrainEnd(r), [])
    decreases |q|
  {
    hide Represents, Receive, FrontWraps;
    RepresentsShape(r, q);
    WrittenReceives(r, q);
    if Receive(Written, r).Message? {
      ReceiveClearsFull(r);
      ReceiveShrinks(Written, r);
      ReceiveClearsFull(Receive(Written, r).next);
      DrainIsFifo(Receive(Written, r).next, q[1..]);
    }
  }

  /** No record takes up the whole bus by itself. */
  predicate NoneFills(capacity: nat, msgs: seq<seq<byte>>) {
    forall m :: m in msgs ==> HEADER_SIZE + |m| != capacity
  }

  /** Only the last record of a full bus can leave `read` at the capacity for good. */
  lemma ReadStaysShort(r: Ring, q: seq<seq<byte>>)
    requires Represents(r, q)
    ensures q != [] && NoneFills(r.Capacity(), q) && !FrontWraps(r) ==>
              Receive(Written, r).Message? && (Receive(Written, r).next.read < r.Capacity() || q[1..] != [])
  {
    if q != [] && NoneFills(r.Capacity(), q) && !FrontWraps(r) {
      FrontRecord(r, q);
      if r.read > r.write {
        WrappedReceives(r, q);
      } else {
        ContiguousReceives(r, q);
        if q[1..] == [] {
          assert Encode(q) == Frame(q[0]) + Encode([]);
          assert q[0] in q;
        }
      }
    }
  }

  lemma {:induction false} DrainStaysShort(r: Ring, q: seq<seq<byte>>)
    requires Represents(r, q) && NoneFills(r.Capacity(), q) && !FrontWraps(r) && (r.read < r.Capacity() || q != [])
    ensures DrainEnd(r).read < DrainEnd(r).Capacity() == r.Capacity()
    decreases |q|
  {
    hide Represents, Receive, FrontWraps;
    RepresentsShape(r, q);
    WrittenReceives(r, q);
    if q != [] {
      var o := Receive(Written, r);
      assert q[0] in q && forall m :: m in q[1..] ==> m in q;
      ReadStaysShort(r, q);
      RepresentsShape(r, q);
      RepresentsShape(o.next, q[1..]);
      ReceiveClearsFull(r);
      ReceiveClearsFull(o.next);
      ReceiveKeepsShape(Written, r);
      ReceiveShrinks(Written, r);
      DrainStaysShort(Receive(Written, r).next, q[1..]);
    } else {
      assert !Receive(Written, r).Message?;
    }
  }

  function Sends(msgs: seq<seq<byte>>): seq<Op> {
    seq(|msgs|, i requires 0 <= i < |msgs| => SendOp(msgs[i]))
  }

  /** Messages sent in pauses, each pause followed by a drain; whether some drain panics. */
  predicate PausesPanic(r: Ring, pauses: seq<seq<seq<byte>>>)
    requires r.Shape()
    decreases |pauses|
  {
    pauses != [] &&
    var sent := After(Written, r, Sends(pauses[0]));
    DrainPanics(sent) || PausesPanic(DrainEnd(sent), pauses[1..])
  }

  /** Every send is safe where it is made, and no drain meets a full bus whose front record wraps. */
  predicate SafePauses(r: Ring, pauses: seq<seq<seq<byte>>>)
    requires r.Shape()
    decreases |pauses|
  {
    pauses != [] ==>
      var sent := After(Written, r, Sends(pauses[0]));
      SafeRun(r, Sends(pauses[0])) && !FrontWraps(sent) && SafePauses(DrainEnd(sent), pauses[1..])
  }

  /** Sends are safe while `read` is short of the capacity, and leave it where it is. */
  lemma {:induction false} SendsSafe(r: Ring, msgs: seq<seq<byte>>)
    requires r.Shape() && r.read < r.Capacity()
    ensures SafeRun(r, Sends(msgs)) && After(Written, r, Sends(msgs)).read == r.read
    decreases |msgs|
  {
    if msgs != [] {
      var r' := Step(Written, r, SendOp(msgs[0])).1;
      assert Sends(msgs)[0] == SendOp(msgs[0]) && Sends(msgs)[1..] == Sends(msgs[1..]);
      SendsSafe(r', msgs[1..]);
    }
  }

  lemma {:induction false} SentNoneFills(capacity: nat, q: seq<seq<byte>>, msgs: seq<seq<byte>>)
    requires NoneFills(capacity, q) && NoneFills(capacity, msgs)
    ensures NoneFills(capacity, FifoAfter(capacity, q, Sends(msgs)))
    decreases |msgs|
  {
    if msgs != [] {
      assert msgs[0] in msgs;
      assert Sends(msgs)[0] == SendOp(msgs[0]) && Sends(msgs)[1..] == Sends(msgs[1..]);
      SentNoneFills(capacity, FifoStep(capacity, q, SendOp(msgs[0])).1, msgs[1..]);
    }
  }

  /** Where no record fills the bus by itself, a wrapping front record is all that can go wrong. */
  lemma {:induction false} SafePausesIff(r: Ring, q: seq<seq<byte>>, pauses: seq<seq<seq<byte>>>)
    requires Represents(r, q) && r.read < r.Capacity() && NoneFills(r.Capacity(), q)
    requires forall p :: p in pauses ==> NoneFills(r.Capacity(), p)
    ensures SafePauses(r, pauses) <==> !PausesPanic(r, pauses)
    decreases |pauses|
  {
    hide Represents, FrontWraps, NoneFills;
    if pauses != [] {
      RepresentsShape(r, q);
      var ops := Sends(pauses[0]);
      var sent, found := After(Written, r, ops), FifoAfter(r.Capacity(), q, ops);
      SendsSafe(r, pauses[0]);
      SafeRunAfter(r, q, ops);
      SentNoneFills(r.Capacity(), q, pauses[0]);
      DrainIsFifo(sent, found);
      if !FrontWraps(sent) {
        DrainStaysShort(sent, found);
        NoneFillsEmpty(r.Capacity());
        SafePausesIff(DrainEnd(sent), [], pauses[1..]);
      }
    }
  }

  lemma NoneFillsEmpty(capacity: nat)
    ensures NoneFills(capacity, [])
  {
  }
}
