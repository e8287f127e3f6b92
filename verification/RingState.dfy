/**
  The launcher bus as a value: its four fields, what one send or one receive does to them, and
  what it means for them to hold a list of messages.
 */
module RingState {
  import opened Bytes
  import opened Circular

  datatype Ring = Ring(read: nat, write: nat, full: bool, buffer: seq<byte>) {

    function Capacity(): nat { |buffer| }

    /** What the fields satisfy in every state the code can reach. `read` may equal the capacity. */
    predicate Shape() {
      && HEADER_SIZE <= Capacity() < ISIZE_LIMIT
      && read <= Capacity()
      && write < Capacity()
      && (full ==> read == write)
    }

    /** Bytes between `read` and `write`. */
    function Used(): (u: nat)
      requires Shape()
      ensures u <= Capacity()
    {
      if full then Capacity() else if read <= write then write - read else Capacity() - (read - write)
    }

    function FrontLength(): nat
      requires Shape()
    {
      FromLittleEndian(Window(buffer, read, HEADER_SIZE))
    }
  }

  function Zeros(n: nat): (s: seq<byte>)
    ensures |s| == n
  {
    seq(n, _ => 0)
  }

  /** `RingQueue::new`. */
  function New(capacity: nat): Ring {
    Ring(0, 0, false, Zeros(capacity))
  }

  /** One record: the header and the payload. */
  function Frame(msg: seq<byte>): seq<byte> {
    Header(|msg|) + msg
  }

  /** The records of `q`, oldest first. */
  function Encode(q: seq<seq<byte>>): seq<byte> {
    if q == [] then [] else Frame(q[0]) + Encode(q[1..])
  }

  /**
    The representation invariant: the bytes from `read` to `write`, read circularly, are exactly
    the records of the messages in `q`.
   */
  ghost predicate Represents(r: Ring, q: seq<seq<byte>>) {
    && r.Shape()
    && Window(r.buffer, r.read, r.Used()) == Encode(q)
  }

  /** A send that would be accepted: there is room for the record. */
  predicate Fits(r: Ring, msg: seq<byte>)
    requires r.Shape()
  {
    r.Used() + HEADER_SIZE + |msg| <= r.Capacity()
  }

  /** The state an accepted send leaves: the record is written circularly at `write`. */
  function Sent(r: Ring, msg: seq<byte>): (r': Ring)
    requires r.Shape() && Fits(r, msg)
    ensures r'.Shape() && r'.read == r.read && r'.Capacity() == r.Capacity()
  {
    var write := At(r.write, HEADER_SIZE + |msg|, r.Capacity());
    Ring(r.read, write, write == r.read, Put(r.buffer, r.write, Frame(msg)))
  }

  /**
    Which test chooses the contiguous branch of a receive. `Written` is the code's `write >= read`;
    `Intended` sends the full state, where `read == write`, to the branch that wraps.
   */
  datatype Variant = Written | Intended

  /** What the caller of a receive sees; a slice out of range makes the process panic. */
  datatype Outcome = Nothing | Got(msg: seq<byte>) | OutOfRange

  /** A receive in full. `Empty` and `Corrupted` are both the code's `None`. */
  datatype Received = Empty | Corrupted | Panicked | Message(msg: seq<byte>, next: Ring) {

    function Seen(): Outcome {
      match this
      case Message(msg, _) => Got(msg)
      case Panicked => OutOfRange
      case _ => Nothing
    }

    /** The bus afterwards: only a message taken changes it. */
    function Next(r: Ring): Ring {
      if Message? then next else r
    }
  }

  predicate Contiguous(v: Variant, r: Ring) {
    if v.Written? then r.read <= r.write else r.read < r.write
  }

  function Receive(v: Variant, r: Ring): Received
    requires r.Shape()
  {
    if r.read == r.write && !r.full then
      Empty
    else if Contiguous(v, r) then
      ReceiveContiguous(r)
    else
      ReceiveWrapped(r)
  }

  function ReceiveContiguous(r: Ring): (o: Received)
    requires r.Shape() && r.read <= r.write
  {
    var start := r.read + HEADER_SIZE;
    if start > r.Capacity() then
      Panicked
    else
      var len := FromLittleEndian(r.buffer[r.read..start]);
      if !r.full && r.write - r.read < HEADER_SIZE + len then
        Corrupted
      else if start + len > r.Capacity() then
        Panicked
      else
        Message(r.buffer[start..start + len], r.(read := start + len, full := false))
  }

  function ReceiveWrapped(r: Ring): (o: Received)
    requires r.Shape() && (r.write < r.read || r.full)
  {
    var len := r.FrontLength();
    if !r.full && r.Used() < HEADER_SIZE + len then
      Corrupted
    else if HEADER_SIZE + len > r.Capacity() then
      Panicked
    else
      var start := At(r.read, HEADER_SIZE, r.Capacity());
      Message(Window(r.buffer, start, len),
              r.(read := At(r.read, HEADER_SIZE + len, r.Capacity()), full := false))
  }
}
