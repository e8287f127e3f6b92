/** `src/bgw/ring_queue.rs`: the bus itself, updating its buffer and positions in place. */
module RingQueue {
  import opened Bytes
  import opened Circular
  import opened RingState

  class RingQueue {
    var read: nat
    var write: nat
    var isFull: bool
    const buffer: array<byte>

    ghost function State(): Ring
      reads this, buffer
    {
      Ring(read, write, isFull, buffer[..])
    }

    ghost predicate Valid()
      reads this, buffer
    {
      State().Shape()
    }

    constructor (capacity: nat)
      requires HEADER_SIZE <= capacity < ISIZE_LIMIT
      ensures Valid() && fresh(buffer)
      ensures State() == New(capacity)
    {
      read, write, isFull := 0, 0, false;
      buffer := new byte[capacity](_ => 0);
    }

    /** `self.buffer[at..at + src.len()].copy_from_slice(src)`. */
    method CopyFromSlice(at: nat, src: seq<byte>)
      requires at + |src| <= buffer.Length
      modifies buffer
      ensures buffer[..] == Splice(old(buffer[..]), at, src)
    {
      forall i | 0 <= i < |src| {
        buffer[at + i] := src[i];
      }
    }

    method TrySend(msg: seq<byte>) returns (ok: bool)
      requires Valid()
      modifies this, buffer
      ensures Valid()
      ensures ok <==> Fits(old(State()), msg)
      ensures State() == if ok then Sent(old(State()), msg) else old(State())
    {
      if isFull {
        return false;
      }
      var msgLen := |msg|;
      if msgLen > buffer.Length - HEADER_SIZE {
        return false;
      }
      var totalLen := HEADER_SIZE + msgLen;

      if write >= read {
        var free := buffer.Length - (write - read);
        if free < totalLen {
          return false;
        }
        WriteRecord(msg);
      } else {
        var free := read - write;
        if free < totalLen {
          return false;
        }
        WriteContiguousRecord(msg);
      }
      Advance(totalLen);
      return true;
    }

    /** The positions after a record of `totalLen` bytes was written. */
    method Advance(totalLen: nat)
      requires Valid() && totalLen <= buffer.Length
      modifies `write, `isFull
      ensures write == At(old(write), totalLen, buffer.Length)
      ensures isFull == (write == read)
    {
      AtIsMod(write, totalLen, buffer.Length);
      write := (write + totalLen) % buffer.Length;
      isFull := write == read;
    }

    /** Free space up to the end and again from 0: header and payload may each wrap. */
    method WriteRecord(msg: seq<byte>)
      requires Valid() && HEADER_SIZE + |msg| <= buffer.Length
      modifies buffer
      ensures buffer[..] == Put(old(buffer[..]), write, Frame(msg))
    {
      HeaderThenPayload(buffer[..], write, msg);
      WriteHeader(Header(|msg|));
      AtIsMod(write, HEADER_SIZE, buffer.Length);
      WritePayload((write + HEADER_SIZE) % buffer.Length, msg);
    }

    /** Free space in one piece, between `write` and `read`. */
    method WriteContiguousRecord(msg: seq<byte>)
      requires Valid() && write + HEADER_SIZE + |msg| <= buffer.Length
      modifies buffer
      ensures buffer[..] == Put(old(buffer[..]), write, Frame(msg))
    {
      ghost var before := buffer[..];
      CopyFromSlice(write, Header(|msg|));
      CopyFromSlice(write + HEADER_SIZE, msg);
      PutContiguous(before, write, Frame(msg));
      assert buffer[..] == Splice(before, write, Frame(msg));
    }

    /** The header, which may run past the end of the buffer. */
    method WriteHeader(headerData: seq<byte>)
      requires Valid() && |headerData| == HEADER_SIZE
      modifies buffer
      ensures buffer[..] == Put(old(buffer[..]), write, headerData)
    {
      ghost var before := buffer[..];
      var endSpace := buffer.Length - write;
      if endSpace >= HEADER_SIZE {
        CopyFromSlice(write, headerData);
        PutContiguous(before, write, headerData);
      } else {
        CopyFromSlice(write, headerData[..endSpace]);
        CopyFromSlice(0, headerData[endSpace..]);
        PutWrapped(before, write, headerData, endSpace);
      }
    }

    /** The payload, which may run past the end of the buffer. */
    method WritePayload(header: nat, msg: seq<byte>)
      requires Valid() && header < buffer.Length && |msg| <= buffer.Length
      modifies buffer
      ensures buffer[..] == Put(old(buffer[..]), header, msg)
    {
      ghost var before := buffer[..];
      var endSpace := buffer.Length - header;
      if endSpace >= |msg| {
        CopyFromSlice(header, msg);
        PutContiguous(before, header, msg);
      } else {
        CopyFromSlice(header, msg[..endSpace]);
        CopyFromSlice(0, msg[endSpace..]);
        PutWrapped(before, header, msg, endSpace);
      }
    }

    /** The code as written. */
    method TryRecv() returns (o: Outcome)
      requires Valid()
      modifies `read, `isFull
      ensures Valid()
      ensures o == Receive(Written, old(State())).Seen()
      ensures State() == Receive(Written, old(State())).Next(old(State()))
    {
      if read == write && !isFull {
        return Nothing;
      }
      if write >= read {
        o := RecvContiguous();
      } else {
        o := RecvWrapped();
      }
    }

    /** The intended version: a full bus takes the branch that wraps. */
    method TryRecvIntended() returns (o: Outcome)
      requires Valid()
      modifies `read, `isFull
      ensures Valid()
      ensures o == Receive(Intended, old(State())).Seen()
      ensures State() == Receive(Intended, old(State())).Next(old(State()))
    {
      if read == write && !isFull {
        return Nothing;
      }
      if write > read {
        o := RecvContiguous();
      } else {
        o := RecvWrapped();
      }
    }

    method RecvContiguous() returns (o: Outcome)
      requires Valid() && read <= write
      modifies `read, `isFull
      ensures Valid()
      ensures o == ReceiveContiguous(old(State())).Seen()
      ensures State() == ReceiveContiguous(old(State())).Next(old(State()))
    {
      var header := read + HEADER_SIZE;
      if header > buffer.Length {
        return OutOfRange;
      }
      var msgLen := FromLittleEndian(buffer[read..header]);
      assert buffer[read..header] == buffer[..][read..header];
      if !isFull && write - read < HEADER_SIZE + msgLen {
        return Nothing;
      }
      if header + msgLen > buffer.Length {
        return OutOfRange;
      }
      var msg := buffer[header..header + msgLen];
      assert msg == buffer[..][header..header + msgLen];
      read := header + msgLen;
      isFull := false;
      return Got(msg);
    }

    method RecvWrapped() returns (o: Outcome)
      requires Valid() && (write < read || isFull)
      modifies `read, `isFull
      ensures Valid()
      ensures o == ReceiveWrapped(old(State())).Seen()
      ensures State() == ReceiveWrapped(old(State())).Next(old(State()))
    {
      var lenBytes := ReadCircular(read, HEADER_SIZE);
      var msgLen := FromLittleEndian(lenBytes);
      if !isFull && buffer.Length - (read - write) < HEADER_SIZE + msgLen {
        return Nothing;
      }
      if HEADER_SIZE + msgLen > buffer.Length {
        return OutOfRange;
      }
      AtIsMod(read, HEADER_SIZE, buffer.Length);
      AtIsMod(read, HEADER_SIZE + msgLen, buffer.Length);
      var msg := ReadCircular((read + HEADER_SIZE) % buffer.Length, msgLen);
      read := (read + HEADER_SIZE + msgLen) % buffer.Length;
      isFull := false;
      return Got(msg);
    }

    /** Header or payload read out in one slice or, past the end, in two. */
    method ReadCircular(start: nat, n: nat) returns (s: seq<byte>)
      requires start <= buffer.Length && n <= buffer.Length
      ensures s == Window(buffer[..], start, n)
    {
      var endSpace := buffer.Length - start;
      if n <= endSpace {
        s := buffer[start..start + n];
        WindowContiguous(buffer[..], start, n);
        assert s == buffer[..][start..start + n];
      } else {
        s := buffer[start..] + buffer[..n - endSpace];
        WindowWrapped(buffer[..], start, n);
        assert s == buffer[..][start..] + buffer[..][..n - endSpace];
      }
    }
  }

  lemma HeaderThenPayload(b: seq<byte>, write: nat, msg: seq<byte>)
    requires write < |b| && HEADER_SIZE + |msg| <= |b|
    ensures Put(b, write, Frame(msg))
         == Put(Put(b, write, Header(|msg|)), At(write, HEADER_SIZE, |b|), msg)
  {
    if HEADER_SIZE < |b| {
      PutConcat(b, write, Header(|msg|), msg);
    } else {
      assert msg == [];
      assert Frame(msg) == Header(|msg|);
    }
  }
}
