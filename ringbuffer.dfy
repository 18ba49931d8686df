/** The bounded circular byte queue of RingBuffer/RingBuffer.c over the
    `Std_Queue_Types` struct of RingBuffer/RingBuffer.h. */
module RingBuffer {
  import opened CTypes

  /** (i + n) mod cap for i < cap and n <= cap, without the division. */
  function Wrap(i: nat, n: nat, cap: nat): (j: nat)
    requires i < cap && n <= cap
    ensures j < cap && j == (i + n) % cap
  {
    ModSmall(i + n, cap);
    if i + n < cap then i + n else i + n - cap
  }

  lemma ModSmall(x: int, c: int)
    requires 0 < c && 0 <= x < 2 * c
    ensures x % c == if x < c then x else x - c
  {
  }

  /** The logical contents of a ring: `size` bytes of `buf`, starting at
      `front` and wrapping around at `cap`. */
  function Window(buf: seq<u8>, front: nat, size: nat, cap: nat): (w: seq<u8>)
    requires size <= cap <= |buf|
    requires size == 0 || front < cap
    ensures |w| == size
    decreases size
  {
    if size == 0 then []
    else [buf[front]] + Window(buf, Wrap(front, 1, cap), size - 1, cap)
  }

  /** The k-th element of a window sits at slot (front + k) mod cap. */
  lemma {:induction false} WindowAt(buf: seq<u8>, front: nat, size: nat, cap: nat, k: nat)
    requires size <= cap <= |buf| && front < cap
    requires k < size
    ensures Window(buf, front, size, cap)[k] == buf[Wrap(front, k, cap)]
    decreases size
  {
    if k > 0 {
      var next := Wrap(front, 1, cap);
      WindowAt(buf, next, size - 1, cap, k - 1);
      assert Wrap(next, k - 1, cap) == Wrap(front, k, cap);
    }
  }

  /** Writing `x` at the slot just past the window and growing the window by
      one appends `x`, also when the slot wraps around to the start. */
  lemma {:induction false} WindowPush(buf: seq<u8>, front: nat, size: nat, cap: nat, x: u8)
    requires size < cap <= |buf| && front < cap
    ensures Window(buf[Wrap(front, size, cap) := x], front, size + 1, cap)
         == Window(buf, front, size, cap) + [x]
    decreases size
  {
    var slot := Wrap(front, size, cap);
    if size > 0 {
      var next := Wrap(front, 1, cap);
      assert slot != front;
      assert Wrap(next, size - 1, cap) == slot;
      WindowPush(buf, next, size - 1, cap, x);
    }
  }

  /** Removing the head of a non-empty window advances `front` mod cap. */
  lemma WindowPop(buf: seq<u8>, front: nat, size: nat, cap: nat)
    requires 0 < size <= cap <= |buf| && front < cap
    ensures Window(buf, front, size, cap)[0] == buf[front]
    ensures Window(buf, front, size, cap)[1..] == Window(buf, Wrap(front, 1, cap), size - 1, cap)
  {
  }

  /** `Std_Queue_Types`: a queue over a caller-supplied byte array. */
  class Queue {
    var front: u8                 // index of the next byte to pop
    var tail: u8                  // index of the next free slot
    var size: u8                  // number of bytes held
    var capacity: u8
    var queueArr: array?<u8>      // caller-supplied storage, not owned

    /** The indices agree with `size` and fit in `capacity`. */
    static ghost predicate Consistent(front: u8, tail: u8, size: u8, capacity: u8)
    {
      size <= capacity &&
      (capacity > 0 ==>
        front < capacity && tail < capacity &&
        tail as nat == Wrap(front as nat, size as nat, capacity as nat))
    }

    /** The array holds `capacity` bytes, or is NULL with a zero capacity,
        and the indices are consistent. */
    ghost predicate Valid()
      reads this
    {
      StorageFits(queueArr, capacity) && Consistent(front, tail, size, capacity)
    }

    static ghost predicate StorageFits(arr: array?<u8>, capacity: u8)
    {
      if arr == null then capacity == 0 else capacity as int <= arr.Length
    }

    /** The bytes in the queue, oldest first. */
    ghost function Contents(): (c: seq<u8>)
      reads this, queueArr
      requires Valid()
      ensures |c| == size as int
    {
      if queueArr == null then [] else Window(queueArr[..], front as nat, size as nat, capacity as nat)
    }

    /** A queue object with static storage duration: every field zero. */
    constructor ()
      ensures front == 0 && tail == 0 && size == 0 && capacity == 0 && queueArr == null
      ensures Valid() && Contents() == []
    {
      front, tail, size, capacity := 0, 0, 0, 0;
      queueArr := null;
    }

    /** QUEUE_IS_FULL: on a valid queue, the contents fill the capacity. */
    predicate IsFull()
      reads this, queueArr
      ensures Valid() ==> (IsFull() <==> |Contents()| == capacity as int)
    {
      size == capacity
    }

    /** QUEUE_IS_EMPTY: on a valid queue, there are no contents. */
    predicate IsEmpty()
      reads this, queueArr
      ensures Valid() ==> (IsEmpty() <==> Contents() == [])
    {
      size == 0
    }

    /** `queueInit`: binds the array and the capacity and nothing else; the
        indices and the size keep the values they had. */
    method Init(arr: array?<u8>, capacity: u8)
      modifies this
      ensures queueArr == arr && this.capacity == capacity
      ensures front == old(front) && tail == old(tail) && size == old(size)
      ensures Valid() <==> StorageFits(arr, capacity) && Consistent(front, tail, size, capacity)
      ensures old(front) == 0 && old(tail) == 0 && old(size) == 0 && StorageFits(arr, capacity)
              ==> Valid() && Contents() == []
    {
      this.capacity := capacity;
      queueArr := arr;
    }

    /** `queuePush`: stores `data` at `tail` unless the queue is full, in
        which case nothing changes. */
    method Push(data: u8)
      requires Valid()
      modifies this, queueArr
      ensures Valid() && queueArr == old(queueArr) && capacity == old(capacity) && front == old(front)
      ensures old(size) == old(capacity) ==>
                tail == old(tail) && size == old(size) && (queueArr != null ==> queueArr[..] == old(queueArr[..]))
      ensures old(size) < old(capacity) ==>
                queueArr[..] == old(queueArr[..])[old(tail) := data] &&
                tail as int == (old(tail) as int + 1) % capacity as int &&
                size == old(size) + 1
      ensures Contents() == if old(size) == old(capacity) then old(Contents())
                            else old(Contents()) + [data]
    {
      if !IsFull() {
        ghost var buf := queueArr[..];
        queueArr[tail] := data;
        tail := ((tail as int + 1) % capacity as int) as u8;
        size := size + 1;
        WindowPush(buf, front as nat, size as nat - 1, capacity as nat, data);
        assert Wrap(old(tail) as nat, 1, capacity as nat) == Wrap(front as nat, size as nat, capacity as nat);
      }
    }

    /** `queuePop`: returns and removes the oldest byte, or returns 0 and
        changes nothing when the queue is empty. */
    method Pop() returns (data: u8)
      requires Valid()
      modifies this
      ensures Valid() && queueArr == old(queueArr) && capacity == old(capacity) && tail == old(tail)
      ensures queueArr != null ==> queueArr[..] == old(queueArr[..])
      ensures old(size) == 0 ==> data == 0 && front == old(front) && size == old(size)
      ensures old(size) > 0 ==>
                data == queueArr[old(front)] && data == old(Contents())[0] &&
                front as int == (old(front) as int + 1) % capacity as int &&
                size == old(size) - 1
      ensures Contents() == if old(size) == 0 then old(Contents()) else old(Contents())[1..]
    {
      data := 0;
      if !IsEmpty() {
        WindowPop(queueArr[..], front as nat, size as nat, capacity as nat);
        data := queueArr[front];
        front := ((front as int + 1) % capacity as int) as u8;
        size := size - 1;
        assert Wrap(front as nat, size as nat, capacity as nat) == tail as nat;
      }
    }
  }

  /** A client of the contracts above: capacity 3, one rejected push on a
      full queue, and enough traffic that both indices wrap around. */
  method WrapAroundScenario()
  {
    var arr := new u8[3];
    var q := new Queue();
    q.Init(arr, 3);
    q.Push(1); q.Push(2); q.Push(3);
    assert q.Contents() == [1, 2, 3];
    q.Push(4);
    assert q.Contents() == [1, 2, 3];
    var v := q.Pop();  assert v == 1;
    q.Push(4);
    v := q.Pop();  assert v == 2;
    v := q.Pop();  assert v == 3;
    v := q.Pop();  assert v == 4;
    assert q.Contents() == [];
    v := q.Pop();  assert v == 0 && q.size == 0;

    // A queue never given storage, or given none: full and empty at once.
    var idle := new Queue();
    idle.Push(7);
    v := idle.Pop();  assert v == 0 && idle.Contents() == [];
    idle.Init(null, 0);
    idle.Push(7);
    v := idle.Pop();  assert v == 0 && idle.Contents() == [];
  }
}
