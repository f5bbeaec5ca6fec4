/** A ring of `2^k` slots shared through two free-running counters that wrap at `2^w`.
    Both rings shared with the kernel have this form: the provided-buffer ring
    (16-bit counters) and the completion queue (32-bit counters). */
module CircularQueue {
  import opened Bits

  datatype Ring<T> = Ring(slots: seq<T>, head: nat, tail: nat)

  ghost predicate Valid<T>(r: Ring<T>, k: nat, w: nat) {
    k < w && 2 <= w && |r.slots| == Pow2(k) && r.head < Pow2(w) && r.tail < Pow2(w)
  }

  /** Unsigned difference of the counters: the number of entries not consumed yet. */
  function Size<T>(r: Ring<T>, w: nat): int {
    if r.head <= r.tail then r.tail - r.head else r.tail + Pow2(w) - r.head
  }

  /** The unconsumed entries, oldest first. */
  ghost function Window<T>(r: Ring<T>, k: nat, w: nat): seq<T>
    requires Valid(r, k, w)
  {
    seq(Size(r, w), i requires 0 <= i < Size(r, w) => r.slots[(r.head + i) % Pow2(k)])
  }

  /** The slot a counter selects: `counter & (slots - 1)`. */
  function Slot(counter: nat, k: nat): (s: nat)
    ensures s == counter % Pow2(k) && s < Pow2(k)
  {
    MaskIsRemainder(counter, k);
    And(counter, Pow2(k) - 1)
  }

  /** Write at `tail + offset` without publishing. */
  function Put<T>(r: Ring<T>, k: nat, offset: nat, x: T): Ring<T>
    requires |r.slots| == Pow2(k)
  {
    r.(slots := r.slots[Slot(r.tail + offset, k) := x])
  }

  /** Publish `count` entries. */
  function Advance<T>(r: Ring<T>, w: nat, count: nat): Ring<T> {
    r.(tail := (r.tail + count) % Pow2(w))
  }

  /** Producer side: write one entry and publish it. */
  function PushBack<T>(r: Ring<T>, k: nat, w: nat, x: T): Ring<T>
    requires |r.slots| == Pow2(k)
  {
    Advance(Put(r, k, 0, x), w, 1)
  }

  /** Consumer side: move past `count` entries. */
  function PopFront<T>(r: Ring<T>, w: nat, count: nat): Ring<T> {
    r.(head := (r.head + count) % Pow2(w))
  }

  lemma {:induction false} Pow2Grows(k: nat, w: nat)
    requires k < w
    ensures 2 * Pow2(k) <= Pow2(w)
  {
    if k + 1 < w { Pow2Grows(k, w - 1); }
  }

  /** Adding less than one turn to a wrapping counter wraps at most once. */
  lemma WrapsOnce(c: nat, d: nat, m: nat)
    requires c < m && d <= m
    ensures (c + d) % m == if c + d < m then c + d else c + d - m
  {
    if c + d < m {
      DivisionIsUnique(c + d, m, 0, c + d);
    } else if c + d < 2 * m {
      DivisionIsUnique(c + d, m, 1, c + d - m);
    } else {
      DivisionIsUnique(c + d, m, 2, 0);
    }
  }

  lemma Recombine(c: nat, i: nat, m: nat, q: int, r: int, a: int, b: int)
    requires c == m * q + r && r + i == m * a + b
    ensures c + i == (q + a) * m + b
  {
    assert (q + a) * m == m * q + m * a;
  }

  lemma WrapBase(c: nat, i: nat, m: nat)
    requires m > 0
    ensures (c % m + i) % m == (c + i) % m
  {
    var t := c % m + i;
    Recombine(c, i, m, c / m, c % m, t / m, t % m);
    DivisionIsUnique(c + i, m, c / m + t / m, t % m);
  }

  /** Wrapping the base of an offset does not change the slot. */
  lemma SameSlot(c: nat, i: nat, k: nat, w: nat)
    requires k <= w
    ensures ((c % Pow2(w)) + i) % Pow2(k) == (c + i) % Pow2(k)
  {
    WrapBase(c, i, Pow2(w));
    WrapKeepsSlot(c + i, k, w);
    WrapKeepsSlot(c % Pow2(w) + i, k, w);
  }

  lemma TailSlot<T>(r: Ring<T>, k: nat, w: nat)
    requires Valid(r, k, w)
    ensures r.tail % Pow2(k) == (r.head + Size(r, w)) % Pow2(k)
  {
    var m := Pow2(w);
    if r.head > r.tail {
      assert (r.tail + m) % m == r.tail by { WrapsOnce(r.tail, m, m); }
      SameSlot(r.tail + m, 0, k, w);
    }
  }

  lemma FullTurn(c: nat, n: nat)
    requires n > 0
    ensures (c + n) % n == c % n
  {
    assert c + n == (c / n + 1) * n + c % n by {
      assert c == n * (c / n) + c % n;
      assert (c / n + 1) * n == n * (c / n) + n;
    }
    DivisionIsUnique(c + n, n, c / n + 1, c % n);
  }

  /** Publishing one entry appends it to the window exactly when no unconsumed slot is
      overwritten, that is when the ring is not full, or when the overwritten entry
      happens to be equal. */
  lemma {:induction false} PushBackAppends<T>(r: Ring<T>, k: nat, w: nat, x: T)
    requires Valid(r, k, w) && Size(r, w) <= Pow2(k)
    ensures var r' := PushBack(r, k, w, x);
            && Valid(r', k, w)
            && |Window(r', k, w)| == |Window(r, k, w)| + 1
            && (Window(r', k, w) == Window(r, k, w) + [x]
                <==> Size(r, w) < Pow2(k) || Window(r, k, w)[0] == x)
  {
    var r' := PushBack(r, k, w, x);
    var n, z := Pow2(k), Size(r, w);
    Pow2Grows(k, w);
    Pow2Grows(1, w + 1);
    WrapsOnce(r.tail, 1, Pow2(w));
    assert Size(r', w) == z + 1;
    TailSlot(r, k, w);
    forall i: nat | i < z && z < n
      ensures Window(r', k, w)[i] == Window(r, k, w)[i]
    {
      SlotsDiffer(r.head + i, r.head + z, n);
    }
    if z == n {
      FullTurn(r.head, n);
      assert Window(r', k, w)[0] == x;
      if Window(r, k, w)[0] == x {
        assert r'.slots == r.slots;
      } else {
        assert Window(r', k, w)[0] != (Window(r, k, w) + [x])[0];
      }
    }
  }

  /** Consuming drops entries from the front of the window. */
  lemma {:induction false} PopFrontDrops<T>(r: Ring<T>, k: nat, w: nat, count: nat)
    requires Valid(r, k, w) && count <= Size(r, w)
    ensures var r' := PopFront(r, w, count);
            Valid(r', k, w) && Window(r', k, w) == Window(r, k, w)[count..]
  {
    var r' := PopFront(r, w, count);
    WrapsOnce(r.head, count, Pow2(w));
    assert Size(r', w) == Size(r, w) - count;
    forall i: nat | i < Size(r', w)
      ensures Window(r', k, w)[i] == Window(r, k, w)[count..][i]
    {
      SameSlot(r.head + count, i, k, w);
    }
  }

  // ----- any number of operations -----

  datatype Op<T> = Enqueue(x: T) | Dequeue

  ghost function OnQueue<T>(q: seq<T>, op: Op<T>): seq<T>
    requires op.Dequeue? ==> q != []
  {
    if op.Dequeue? then q[1..] else q + [op.x]
  }

  ghost function OnRing<T>(r: Ring<T>, k: nat, w: nat, op: Op<T>): Ring<T>
    requires |r.slots| == Pow2(k)
  {
    if op.Dequeue? then PopFront(r, w, 1) else PushBack(r, k, w, op.x)
  }

  /** The operations never take from an empty queue nor exceed `room` entries. */
  ghost predicate Fits<T>(q: seq<T>, room: nat, ops: seq<Op<T>>)
    decreases |ops|
  {
    ops != [] ==>
      && (if ops[0].Dequeue? then q != [] else |q| < room)
      && Fits(OnQueue(q, ops[0]), room, ops[1..])
  }

  ghost function RunQueue<T>(q: seq<T>, room: nat, ops: seq<Op<T>>): seq<T>
    requires Fits(q, room, ops)
    decreases |ops|
  {
    if ops == [] then q else RunQueue(OnQueue(q, ops[0]), room, ops[1..])
  }

  ghost function RunRing<T>(r: Ring<T>, k: nat, w: nat, ops: seq<Op<T>>): Ring<T>
    requires |r.slots| == Pow2(k)
    decreases |ops|
  {
    if ops == [] then r else RunRing(OnRing(r, k, w, ops[0]), k, w, ops[1..])
  }

  /** Over any number of operations the masked ring with wrapping counters behaves as an
      unbounded first-in first-out queue. */
  lemma {:induction false} RingRefinesQueue<T>(r: Ring<T>, k: nat, w: nat, ops: seq<Op<T>>)
    requires Valid(r, k, w) && Size(r, w) <= Pow2(k)
    requires Fits(Window(r, k, w), Pow2(k), ops)
    ensures Valid(RunRing(r, k, w, ops), k, w)
    ensures Window(RunRing(r, k, w, ops), k, w) == RunQueue(Window(r, k, w), Pow2(k), ops)
    decreases |ops|
  {
    if ops != [] {
      if ops[0].Dequeue? {
        PopFrontDrops(r, k, w, 1);
      } else {
        PushBackAppends(r, k, w, ops[0].x);
      }
      RingRefinesQueue(OnRing(r, k, w, ops[0]), k, w, ops[1..]);
    }
  }
}
