/** `read_line` (main.c): one line of serial input, taken from the receive
    queue into a zero-filled buffer. */
module SerialLine {
  import opened CTypes
  import opened CStrings

  /** The receive ring buffer `Buffer_Rx`, seen as the queue of bytes it holds.
      The interrupt handler that fills it is not modelled, so nothing arrives
      while `read_line` runs: the queue only shrinks. */
  class RxQueue {
    var items: seq<uint8>

    constructor (received: seq<uint8>)
      ensures items == received
    {
      items := received;
    }

    /** `RingBuffer_IsEmpty` */
    predicate IsEmpty()
      reads this
    {
      items == []
    }

    /** `RingBuffer_Remove`: callers check `IsEmpty` first. */
    method Remove() returns (c: uint8)
      requires items != []
      modifies this
      ensures c == old(items)[0] && items == old(items)[1..]
    {
      c := items[0];
      items := items[1..];
    }
  }

  /** How a call of `read_line` ends. */
  datatype Ending =
    | Newline     // a '\n' was taken from the queue
    | BufferFull  // `capacity` bytes were stored, none of them a '\n'
    | TimedOut    // the queue stayed empty for more than POLL_LIMIT polls

  /** What one call does: the bytes it stores, how many it takes from the queue, why it stops. */
  datatype LineRead = LineRead(stored: seq<uint8>, consumed: nat, ending: Ending)

  const POLL_LIMIT: int := 1000

  /** The value `read_line` returns: a timeout reports 0 whatever was stored. */
  function Returned(r: LineRead): nat
  {
    if r.ending == TimedOut then 0 else |r.stored|
  }

  function Zeros(n: nat): seq<uint8>
  {
    seq(n, i => NUL)
  }

  /** The result of reading from a queue holding `queue` with room for
      `capacity` bytes before the terminator (`buffer_length - 1`). */
  function ReadLineSpec(queue: seq<uint8>, capacity: int): (r: LineRead)
    ensures |r.stored| <= |queue| && |r.stored| <= (if capacity < 0 then 0 else capacity)
    ensures r.stored == queue[..|r.stored|] && NEWLINE !in r.stored
    ensures r.consumed == |r.stored| + (if r.ending == Newline then 1 else 0) <= |queue|
    ensures r.ending == Newline ==> queue[|r.stored|] == NEWLINE
    ensures r.ending == TimedOut ==> r.stored == queue && |queue| < capacity
  {
    if capacity <= 0 then LineRead([], 0, BufferFull)
    else
      var window := if |queue| < capacity then queue else queue[..capacity];
      var j := IndexOf(window, NEWLINE);
      if j < |window| then LineRead(window[..j], j + 1, Newline)
      else if capacity <= |queue| then LineRead(queue[..capacity], capacity, BufferFull)
      else LineRead(queue, |queue|, TimedOut)
  }

  /** A newline within reach ends the line; it is consumed but not stored. */
  lemma LineEndsAtNewline(queue: seq<uint8>, capacity: int, j: nat)
    requires j < capacity && j < |queue| && queue[j] == NEWLINE && NEWLINE !in queue[..j]
    ensures ReadLineSpec(queue, capacity) == LineRead(queue[..j], j + 1, Newline)
  {
    var window := if |queue| < capacity then queue else queue[..capacity];
    assert window[..j] == queue[..j];
    assert window[j] == NEWLINE;
  }

  /** Without a newline among the first `capacity` bytes the buffer fills,
      and no more than `capacity` bytes leave the queue. */
  lemma LineFillsBuffer(queue: seq<uint8>, capacity: int)
    requires 0 <= capacity <= |queue| && NEWLINE !in queue[..capacity]
    ensures ReadLineSpec(queue, capacity) == LineRead(queue[..capacity], capacity, BufferFull)
  {
  }

  /** A queue that runs dry before a newline or a full buffer times out:
      all of it is consumed and stored, and 0 is returned. */
  lemma LineTimesOut(queue: seq<uint8>, capacity: int)
    requires |queue| < capacity && NEWLINE !in queue
    ensures ReadLineSpec(queue, capacity) == LineRead(queue, |queue|, TimedOut)
    ensures Returned(ReadLineSpec(queue, capacity)) == 0
  {
  }

  /** A line of exactly `capacity` bytes fills the buffer and leaves its
      newline in the queue, so the next call returns the empty line. */
  lemma FullLineLeavesNewline(line: seq<uint8>, rest: seq<uint8>, capacity: int)
    requires |line| == capacity > 0 && NEWLINE !in line
    ensures ReadLineSpec(line + [NEWLINE] + rest, capacity) == LineRead(line, capacity, BufferFull)
    ensures (line + [NEWLINE] + rest)[capacity..] == [NEWLINE] + rest
    ensures ReadLineSpec([NEWLINE] + rest, capacity) == LineRead([], 1, Newline)
  {
    var q := line + [NEWLINE] + rest;
    assert q[..capacity] == line;
    LineFillsBuffer(q, capacity);
    assert ([NEWLINE] + rest)[..0] == [];
    LineEndsAtNewline([NEWLINE] + rest, capacity, 0);
  }

  /** Off a timeout the returned length is a terminated C string: the buffer
      of `capacity + 1` bytes holds a NUL from position `n` to its end. */
  lemma LineIsTerminated(queue: seq<uint8>, capacity: int)
    requires capacity >= 0
    ensures Returned(ReadLineSpec(queue, capacity)) <= capacity
    ensures var r := ReadLineSpec(queue, capacity);
      var buffer := r.stored + Zeros(capacity + 1 - |r.stored|);
      |buffer| == capacity + 1 &&
      (r.ending != TimedOut ==> forall k :: Returned(r) <= k < |buffer| ==> buffer[k] == NUL)
  {
    var r := ReadLineSpec(queue, capacity);
    var buffer := r.stored + Zeros(capacity + 1 - |r.stored|);
    forall k | |r.stored| <= k < |buffer|
      ensures buffer[k] == NUL
    {
      assert buffer[k] == Zeros(capacity + 1 - |r.stored|)[k - |r.stored|];
    }
  }

  /** Storing a byte over the first of the zeros after `stored`. */
  lemma StoreOverZero(stored: seq<uint8>, c: uint8, zeros: nat)
    requires zeros > 0
    ensures (stored + Zeros(zeros))[|stored| := c] == stored + [c] + Zeros(zeros - 1)
  {
    assert Zeros(zeros) == [NUL] + Zeros(zeros - 1);
  }

  /** `memset(buffer, 0, length)` */
  method Memset(buffer: array<uint8>, length: nat)
    requires length <= buffer.Length
    modifies buffer
    ensures buffer[..length] == Zeros(length)
    ensures buffer[length..] == old(buffer[length..])
  {
    var k := 0;
    while k < length
      invariant k <= length
      invariant forall i :: 0 <= i < k ==> buffer[i] == NUL
      invariant buffer[length..] == old(buffer[length..])
    {
      buffer[k] := NUL;
      k := k + 1;
    }
  }

  /** The wait of `read_line` for a byte: `RingBuffer_IsEmpty` is polled until
      it turns false or has been seen true more than POLL_LIMIT times
      (`i++ > 1000`); false means the wait timed out. */
  method Poll(rx: RxQueue) returns (ready: bool)
    ensures ready <==> !rx.IsEmpty()
  {
    var polls := 0;
    while rx.IsEmpty()
      invariant polls <= POLL_LIMIT + 1
      decreases POLL_LIMIT + 1 - polls
    {
      var before := polls;
      polls := polls + 1;
      if before > POLL_LIMIT {
        return false;
      }
    }
    ready := true;
  }

  /** `buffer[read_length] = c` on a buffer holding the bytes stored so far
      followed by zeros. */
  method StoreByte(buffer: array<uint8>, length: nat, index: nat, ghost stored: seq<uint8>, c: uint8)
    requires index == |stored| < length <= buffer.Length
    requires buffer[..length] == stored + Zeros(length - |stored|)
    modifies buffer
    ensures buffer[..length] == stored + [c] + Zeros(length - |stored| - 1)
    ensures buffer[length..] == old(buffer[length..])
  {
    StoreOverZero(stored, c, length - |stored|);
    buffer[index] := c;
  }

  /** The loop of `read_line`: bytes are taken from the queue and stored
      from the start of the zeroed buffer until a newline arrives, the
      buffer holds `length - 1` bytes or the wait for a byte times out. */
  method FillLine(rx: RxQueue, buffer: array<uint8>, length: nat) returns (readLength: nat, ending: Ending)
    requires length <= buffer.Length && buffer[..length] == Zeros(length)
    modifies rx, buffer
    ensures readLength <= |old(rx.items)| && NEWLINE !in old(rx.items)[..readLength]
    ensures ending == TimedOut ==> readLength == |old(rx.items)| < length - 1
    ensures ending == Newline ==>
      readLength < length - 1 && readLength < |old(rx.items)| && old(rx.items)[readLength] == NEWLINE
    ensures ending == BufferFull ==> readLength == (if length == 0 then 0 else length - 1)
    ensures rx.items == old(rx.items)[readLength + (if ending == Newline then 1 else 0)..]
    ensures buffer[..length] == old(rx.items)[..readLength] + Zeros(length - readLength)
    ensures buffer[length..] == old(buffer[length..])
  {
    ghost var queue := rx.items;
    readLength, ending := 0, BufferFull;
    while readLength < length - 1
      invariant readLength <= |queue| && (readLength == 0 || readLength < length)
      invariant rx.items == queue[readLength..]
      invariant NEWLINE !in queue[..readLength]
      invariant buffer[..length] == queue[..readLength] + Zeros(length - readLength)
      invariant buffer[length..] == old(buffer[length..])
    {
      var ready := Poll(rx);
      if !ready {
        assert queue[readLength..] == [];
        return readLength, TimedOut;
      }
      var c := rx.Remove();
      if c == NEWLINE {
        StoreByte(buffer, length, readLength, queue[..readLength], NUL);
        return readLength, Newline;
      }
      StoreByte(buffer, length, readLength, queue[..readLength], c);
      assert queue[..readLength + 1] == queue[..readLength] + [c];
      readLength := readLength + 1;
    }
  }

  /** `read_line(buffer, buffer_length)`. */
  method ReadLine(rx: RxQueue, buffer: array<uint8>, bufferLength: uint8) returns (n: uint8)
    requires bufferLength as int <= buffer.Length
    modifies rx, buffer
    ensures var r := ReadLineSpec(old(rx.items), bufferLength as int - 1);
      && n as int == Returned(r)
      && rx.items == old(rx.items)[r.consumed..]
      && buffer[..bufferLength] == r.stored + Zeros((bufferLength as int - |r.stored|) as nat)
      && buffer[bufferLength..] == old(buffer[bufferLength..])
  {
    var length := bufferLength as int;
    Memset(buffer, length);
    ghost var queue := rx.items;
    ghost var capacity := length - 1;
    var readLength, ending := FillLine(rx, buffer, length);
    match ending {
      case TimedOut =>
        assert queue[..readLength] == queue;
        LineTimesOut(queue, capacity);
      case Newline =>
        LineEndsAtNewline(queue, capacity, readLength);
      case BufferFull =>
        if length > 0 {
          LineFillsBuffer(queue, capacity);
        }
    }
    n := if ending == TimedOut then 0 else readLength as uint8;
  }
}
