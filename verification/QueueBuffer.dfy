/** The byte buffer of kernel/src/los_queue.c: slots of `size` bytes, each ending in a length word. */
module QueueBuffer {
  import opened KernelState
  import opened MessageQueue

  // ---- A 32-bit word in memory, least significant byte first ----

  function ByteOf(n: nat): Byte {
    (n % 256) as Byte
  }

  function Bytes(n: nat): (s: seq<Byte>)
    ensures |s| == WORD
  {
    [ByteOf(n), ByteOf(n / 256), ByteOf(n / 65536), ByteOf(n / 16777216)]
  }

  function Word(s: seq<Byte>): nat
    requires |s| == WORD
  {
    (s[0] as nat) + 256 * (s[1] as nat) + 65536 * (s[2] as nat) + 16777216 * (s[3] as nat)
  }

  lemma ByteBack(n: nat)
    ensures ByteOf(n) as nat == n % 256
  {
  }

  lemma WordOfBytes(n: nat)
    requires n < 0x1_0000_0000
    ensures Word(Bytes(n)) == n
  {
    ByteBack(n);
    ByteBack(n / 256);
    ByteBack(n / 65536);
    ByteBack(n / 16777216);
    hide ByteOf;
    Digits(n);
  }

  lemma Digits(n: nat)
    requires n < 0x1_0000_0000
    ensures n == n % 256 + 256 * (n / 256 % 256) + 65536 * (n / 65536 % 256) + 16777216 * (n / 16777216 % 256)
  {
  }

  // ---- Slots ----

  /** Where slot `i` starts; the last slot ends where the buffer ends. */
  function Start(i: nat, size: nat): nat {
    i * size
  }

  lemma SlotInside(i: nat, len: nat, size: nat)
    requires i < len
    ensures Start(i, size) + size <= len * size
  {
    assert (len - 1 - i) * size >= 0;
  }

  lemma SlotsApart(i: nat, j: nat, size: nat)
    requires i < j
    ensures Start(i, size) + size <= Start(j, size)
  {
    assert (j - i - 1) * size >= 0;
  }

  /** What memory `b` says about slot `i`: its length word, and the message that word delimits. */
  predicate Holds(b: seq<Byte>, i: nat, size: nat, msg: seq<Byte>)
    requires WORD <= size && Start(i, size) + size <= |b|
  {
    var from := Start(i, size);
    && |msg| + WORD <= size
    && Word(b[from + size - WORD..from + size]) == |msg|
    && b[from..from + |msg|] == msg
  }

  /** Memory that agrees on a slot's bytes agrees on its message. */
  lemma HoldsFrame(b: seq<Byte>, b': seq<Byte>, i: nat, size: nat, msg: seq<Byte>)
    requires WORD <= size && Start(i, size) + size <= |b| == |b'| && Holds(b, i, size, msg)
    requires forall k :: Start(i, size) <= k < Start(i, size) + size ==> b'[k] == b[k]
    ensures Holds(b', i, size, msg)
  {
    var from := Start(i, size);
    assert b'[from..from + size] == b[from..from + size];
    assert b'[from + size - WORD..from + size] == b[from..from + size][size - WORD..];
    assert b'[from..from + |msg|] == b[from..from + size][..|msg|];
  }

  /** memcpy */
  method Copy(to: array<Byte>, at: nat, from: array<Byte>, start: nat, n: nat)
    requires to != from && at + n <= to.Length && start + n <= from.Length
    modifies to
    ensures to[at..at + n] == from[start..start + n]
    ensures forall k :: 0 <= k < to.Length && !(at <= k < at + n) ==> to[k] == old(to[k])
  {
    for i := 0 to n
      invariant forall k :: at <= k < at + i ==> to[k] == from[start + (k - at)]
      invariant forall k :: 0 <= k < to.Length && !(at <= k < at + i) ==> to[k] == old(to[k])
    {
      to[at + i] := from[start + i];
    }
  }

  /** The part of LosQueueCB that OsQueueBufferOperate works on. */
  class RingBuffer {
    const queue: array<Byte>
    const len: nat
    const size: nat
    var head: nat
    var tail: nat
    /** The messages in the slots; empty for a slot that has never been written. */
    ghost var slots: seq<seq<Byte>>

    constructor (len: nat, maxMsg: nat)
      requires len > 0 && maxMsg > 0
      ensures Valid() && fresh(queue) && this.len == len && size == maxMsg + WORD
      ensures head == 0 && tail == 0 && slots == seq(len, _ => [])
    {
      queue := new Byte[len * (maxMsg + WORD)];
      this.len := len;
      size := maxMsg + WORD;
      head, tail := 0, 0;
      slots := seq(len, _ => []);
    }

    ghost predicate SlotOK(i: nat)
      requires i < |slots|
      reads this, queue
    {
      && Start(i, size) + size <= queue.Length
      && (slots[i] != [] ==> size > WORD && Holds(queue[..], i, size, slots[i]))
    }

    ghost predicate Valid()
      reads this, queue
    {
      && len > 0 && size > WORD && queue.Length == len * size
      && head < len && tail < len && |slots| == len
      && forall i :: 0 <= i < len && slots[i] != [] ==> SlotOK(i)
    }

    /** The ring as the specification sees it; the counters are not touched here. */
    ghost function Ring(readable: nat, writable: nat): Queue
      reads this
    {
      Queue(true, len, size, readable, writable, head, tail, slots)
    }

    /** OsQueueBufferOperate, reading: the message goes to the caller's buffer, byte for byte. */
    method Read(buffer: array<Byte>, bufferSize: nat) returns (n: nat)
      requires Valid() && buffer != queue && bufferSize <= buffer.Length
      requires slots[head] != [] && |slots[head]| <= bufferSize
      modifies `head, buffer
      ensures Valid() && (Ring(0, 0), old(slots[head])) == RingRead(old(Ring(0, 0)))
      ensures n == |old(slots[head])| && buffer[..n] == old(slots[head])
      ensures forall k :: n <= k < buffer.Length ==> buffer[k] == old(buffer[k])
    {
      var position := head;
      assert SlotOK(position);
      if head + 1 == len {
        head := 0;
      } else {
        head := head + 1;
      }
      var node := Start(position, size);
      assert queue[..][node + size - WORD..node + size] == queue[node + size - WORD..node + size];
      n := Word(queue[node + size - WORD..node + size]);
      assert queue[node..node + n] == queue[..][node..node + n];
      Copy(buffer, 0, queue, node, n);
      assert buffer[..n] == buffer[0..0 + n];
    }

    /** OsQueueBufferOperate, writing in front of the head or at the tail. */
    method Write(front: bool, buffer: array<Byte>, bufferSize: nat)
      requires Valid() && buffer != queue && 0 < bufferSize <= buffer.Length && bufferSize + WORD <= size
      requires bufferSize < 0x1_0000_0000
      modifies this, queue
      ensures Valid() && Ring(0, 0) == RingWrite(old(Ring(0, 0)), front, buffer[..bufferSize])
    {
      var position;
      if front {
        head := if head == 0 then len - 1 else head - 1;
        position := head;
      } else {
        position := tail;
        tail := if tail + 1 == len then 0 else tail + 1;
      }
      ghost var before := queue[..];
      Store(position, buffer, bufferSize);
      slots := slots[position := buffer[..bufferSize]];
      forall i | 0 <= i < len && slots[i] != [] ensures SlotOK(i) {
        SlotInside(i, len, size);
        if i != position {
          OthersKept(i, position, before);
        }
      }
    }

    lemma OthersKept(i: nat, position: nat, before: seq<Byte>)
      requires i < len && position < len && i != position && size > WORD && queue.Length == |before| == len * size
      requires |slots| == len && slots[i] != []
      requires Start(i, size) + size <= |before| && Holds(before, i, size, slots[i])
      requires forall k :: 0 <= k < |before| && !(Start(position, size) <= k < Start(position, size) + size) ==>
               queue[k] == before[k]
      ensures SlotOK(i)
    {
      if i < position {
        SlotsApart(i, position, size);
      } else {
        SlotsApart(position, i, size);
      }
      HoldsFrame(before, queue[..], i, size, slots[i]);
    }

    /** The length word first, then the message: data never reaches the word. */
    method Store(position: nat, buffer: array<Byte>, n: nat)
      requires position < len && size > WORD && queue.Length == len * size
      requires buffer != queue && n <= buffer.Length && n + WORD <= size && n < 0x1_0000_0000
      modifies queue
      ensures Start(position, size) + size <= queue.Length && Holds(queue[..], position, size, buffer[..n])
      ensures forall k :: 0 <= k < queue.Length && !(Start(position, size) <= k < Start(position, size) + size) ==>
                queue[k] == old(queue[k])
    {
      SlotInside(position, len, size);
      WordOfBytes(n);
      hide Word, Bytes, Start;
      var node, at := Start(position, size), Start(position, size) + size - WORD;
      PutWord(at, Bytes(n));
      Copy(queue, node, buffer, 0, n);
      assert queue[..][at..at + WORD] == Bytes(n);
      assert queue[..][node..node + n] == queue[node..node + n] == buffer[0..n] == buffer[..n];
    }

    /** Storing a 32-bit word. */
    method PutWord(at: nat, word: seq<Byte>)
      requires |word| == WORD && at + WORD <= queue.Length
      modifies queue
      ensures queue[at..at + WORD] == word
      ensures forall k :: 0 <= k < queue.Length && !(at <= k < at + WORD) ==> queue[k] == old(queue[k])
    {
      queue[at], queue[at + 1], queue[at + 2], queue[at + 3] := word[0], word[1], word[2], word[3];
    }
  }
}
