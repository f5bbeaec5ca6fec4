/** The provided-buffer ring: buffer ids circulate between kernel and application. */
module BufferRings {
  import opened Bits
  import opened CircularQueue
  import opened Requests

  /** The ring tail is a 16-bit counter, and the kernel grants at most `2^15` entries. */
  const COUNTER_BITS: nat := 16
  const COUNTER_VALUES: nat := 65536
  const MAX_ENTRIES: nat := 32768

  type Buffer = seq<Byte>

  /** The identifiers `0 .. n-1`. */
  ghost function Iota(n: nat): seq<nat> {
    seq(n, i requires 0 <= i < n => i)
  }

  /** Whether the kernel attached a buffer to the completion: the intended flag test. */
  predicate HasBuffer(c: Cqe) {
    And(c.flags, F_BUFFER) != 0
  }

  /** The buffer that completion flags select. The flag test is the one in the source: it uses `|`. */
  function Selected(flags: nat, buffers: nat): (id: Option<nat>)
    ensures id.Some? ==> id.value < buffers
  {
    if Or(flags, F_BUFFER) == 0 then None
    else
      var bufferId := IdOf(flags);
      if bufferId > buffers - 1 then None else Some(bufferId)
  }

  function Get(c: Cqe, buffers: nat): Option<nat> {
    Selected(c.flags, buffers)
  }

  /** As written the flag plays no part: a completion without a buffer selects the buffer named by
      its upper flag bits, buffer 0 in practice. */
  lemma GetIgnoresTheFlag(c: Cqe, buffers: nat)
    ensures Get(c, buffers) == if c.flags / 65536 < buffers then Some(c.flags / 65536) else None
  {
    OrOneIsNeverZero(c.flags);
  }

  lemma CounterValues()
    ensures Pow2(COUNTER_BITS) == COUNTER_VALUES && Pow2(15) == MAX_ENTRIES
  {
    assert Pow2(4) == 16;
    Pow2Adds(4, 4);
    Pow2Adds(8, 8);
    Pow2Adds(8, 4);
    Pow2Adds(12, 3);
    assert Pow2(3) == 8;
  }

  /** A power of two the kernel grants has an exponent of at most 15. */
  lemma {:induction false} GrantedExponent(k: nat)
    requires Pow2(k) <= MAX_ENTRIES
    ensures k <= 15
  {
    CounterValues();
    if k > 15 { Pow2Grows(15, k); }
  }

  /** A ring whose slots hold their own index, all published, offers every id in order. */
  lemma FreshWindow(r: Ring<nat>, k: nat)
    requires Valid(r, k, COUNTER_BITS) && r.head == 0 && r.tail == Pow2(k)
    requires forall i :: 0 <= i < Pow2(k) ==> r.slots[i] == i
    ensures Window(r, k, COUNTER_BITS) == Iota(Pow2(k))
  {
    forall i: nat | i < Pow2(k) ensures i % Pow2(k) == i {
      DivisionIsUnique(i, Pow2(k), 0, i);
    }
  }

  /** The counter does not wrap when all the slots are published at once. */
  lemma AllFit(k: nat)
    requires k <= 15
    ensures Pow2(k) < COUNTER_VALUES && Pow2(k) % COUNTER_VALUES == Pow2(k)
  {
    CounterValues();
    Pow2Grows(k, COUNTER_BITS);
    DivisionIsUnique(Pow2(k), COUNTER_VALUES, 0, Pow2(k));
  }

  /** Add the buffers one slot after the other, without publishing them: the tail is still 0. */
  method FillSlots(slots: array<nat>, ghost k: nat)
    requires slots.Length == Pow2(k)
    modifies slots
    ensures forall i :: 0 <= i < slots.Length ==> slots[i] == i
  {
    var n, tail := slots.Length, 0;
    for bufferId := 0 to n
      invariant forall i :: 0 <= i < bufferId ==> slots[i] == i
    {
      MaskIsRemainder(tail + bufferId, k);
      DivisionIsUnique(bufferId, n, 0, bufferId);
      slots[And(tail + bufferId, n - 1)] := bufferId;
    }
  }

  /** Publishing one id, in terms of the fields. */
  lemma PushBackFields(r: Ring<nat>, k: nat, id: nat)
    requires Valid(r, k, COUNTER_BITS)
    ensures var slot := And(r.tail, |r.slots| - 1);
            && slot < |r.slots| && Valid(PushBack(r, k, COUNTER_BITS, id), k, COUNTER_BITS)
            && PushBack(r, k, COUNTER_BITS, id) == Ring(r.slots[slot := id], r.head, (r.tail + 1) % COUNTER_VALUES)
  {
    CounterValues();
    assert And(r.tail, |r.slots| - 1) == Slot(r.tail, k);
  }

  lemma WindowGrows(r: Ring<nat>, k: nat, id: nat)
    requires Valid(r, k, COUNTER_BITS) && Valid(PushBack(r, k, COUNTER_BITS, id), k, COUNTER_BITS)
    ensures Size(r, COUNTER_BITS) < Pow2(k) ==>
              Window(PushBack(r, k, COUNTER_BITS, id), k, COUNTER_BITS) == Window(r, k, COUNTER_BITS) + [id]
  {
    if Size(r, COUNTER_BITS) < Pow2(k) { PushBackAppends(r, k, COUNTER_BITS, id); }
  }

  lemma ReturnsIn(r: Ring<nat>, k: nat, id: nat)
    requires Valid(r, k, COUNTER_BITS)
    ensures var slot, r' := And(r.tail, |r.slots| - 1), PushBack(r, k, COUNTER_BITS, id);
            && slot < |r.slots| && Valid(r', k, COUNTER_BITS)
            && r' == Ring(r.slots[slot := id], r.head, (r.tail + 1) % COUNTER_VALUES)
            && (Size(r, COUNTER_BITS) < Pow2(k) ==>
                  Window(r', k, COUNTER_BITS) == Window(r, k, COUNTER_BITS) + [id])
  {
    PushBackFields(r, k, id);
    WindowGrows(r, k, id);
  }

  class BufferRing {
    var ready: bool            // the ring is registered with the kernel
    var buffers: array<Buffer>
    var slots: array<nat>      // the buffer id held by each slot
    var tail: nat
    ghost var head: nat        // the kernel's private read counter
    ghost var k: nat
    ghost var registered: set<array<nat>>   // the rings that the kernel has for the buffer group

    /** The kernel has the current ring and no other. */
    ghost predicate OneRing()
      reads this
    {
      registered == if ready then {slots} else {}
    }

    ghost predicate Ready()
      reads this, slots
    {
      && ready && k <= 15
      && buffers.Length == Pow2(k) == slots.Length
      && tail < COUNTER_VALUES && head < COUNTER_VALUES
    }

    ghost function Model(): (r: Ring<nat>)
      requires Ready()
      reads this, slots
      ensures Valid(r, k, COUNTER_BITS)
    {
      CounterValues();
      Ring(slots[..], head, tail)
    }

    constructor ()
      ensures !ready && buffers.Length == 0 && OneRing()
    {
      ready := false;
      registered := {};
      buffers := new Buffer[0];
      slots := new nat[0];
      tail, head, k := 0, 0, 0;
    }

    /** Take the ring, if any, from the kernel: before another is registered, and on destruction. */
    method Free()
      requires OneRing()
      modifies `ready, `registered
      ensures !ready && registered == {}
    {
      if ready {
        registered := registered - {slots};
      }
      ready := false;
    }

    /** Fill the slots of a newly registered ring, and publish them all. */
    method Publish()
      requires ready && k <= 15 && buffers.Length == Pow2(k)
      modifies `slots, `tail, `head
      ensures Ready() && fresh(slots)
      ensures Model() == Ring(Iota(buffers.Length), 0, buffers.Length)
      ensures Window(Model(), k, COUNTER_BITS) == Iota(buffers.Length)
    {
      AllFit(k);
      var n := buffers.Length;
      slots := new nat[n];
      tail, head := 0, 0;
      FillSlots(slots, k);
      tail := (tail + n) % COUNTER_VALUES;
      FreshWindow(Model(), k);
      assert slots[..] == Iota(n);
    }

    /** Register the buffers. `granted` is the kernel's answer to the ring setup, which it refuses
        for zero entries and for more than `MAX_ENTRIES`. */
    method SetupBuffers(newBuffers: array<Buffer>, granted: bool) returns (ok: bool)
      requires newBuffers.Length < SIZE_T_VALUES
      requires granted ==> 1 <= newBuffers.Length <= MAX_ENTRIES
      requires OneRing()
      modifies this
      ensures OneRing()
      ensures ok <==> granted && IsPow2(newBuffers.Length)
      ensures ok ==> Ready() && buffers == newBuffers && fresh(slots)
      ensures ok ==> Window(Model(), k, COUNTER_BITS) == Iota(newBuffers.Length)
      ensures ok ==> Model() == Ring(Iota(newBuffers.Length), 0, newBuffers.Length)
      ensures newBuffers.Length > 0 && !IsPow2(newBuffers.Length) ==>
                ready == old(ready) && buffers == old(buffers) && slots == old(slots) && tail == old(tail)
      ensures !ok && (newBuffers.Length == 0 || IsPow2(newBuffers.Length)) ==> !ready
    {
      PowerOfTwoTestIsExact(newBuffers.Length);
      if !PowerOfTwoTest(newBuffers.Length) {
        return false;
      }
      Free();
      buffers := newBuffers;
      ready := granted;
      if !granted {
        return false;
      }
      ghost var exponent: nat :| newBuffers.Length == Pow2(exponent);
      k := exponent;
      GrantedExponent(k);
      Publish();
      registered := registered + {slots};
      return true;
    }

    /** The buffer that completion flags refer to. */
    method View(flags: nat) returns (view: Option<Buffer>)
      requires Ready()
      ensures view == if IdOf(flags) < buffers.Length then Some(buffers[IdOf(flags)]) else None
    {
      OrOneIsNeverZero(flags);
      var id := Selected(flags, buffers.Length);
      view := if id.None? then None else Some(buffers[id.value]);
    }

    /** The ring after giving back a buffer in the given slot. */
    ghost predicate ReturnedIn(slot: nat, id: nat, r: Ring<nat>)
      requires Ready()
      reads this, slots
    {
      && slot < slots.Length
      && r == Ring(slots[..][slot := id], head, (tail + 1) % COUNTER_VALUES)
      && Valid(r, k, COUNTER_BITS)
      && (Size(Model(), COUNTER_BITS) < buffers.Length ==>
            Window(r, k, COUNTER_BITS) == Window(Model(), k, COUNTER_BITS) + [id])
    }

    lemma Returns(id: nat)
      requires Ready()
      ensures ReturnedIn(And(tail, buffers.Length - 1), id, PushBack(Model(), k, COUNTER_BITS, id))
    {
      ReturnsIn(Model(), k, id);
    }

    /** Give a buffer back to the kernel. The id is not checked: the loop calls this only after
        a successful `View`. */
    method Release(flags: nat)
      requires Ready() && IdOf(flags) < buffers.Length
      modifies slots, `tail
      ensures Ready()
      ensures Model() == PushBack(old(Model()), k, COUNTER_BITS, IdOf(flags))
      ensures Size(old(Model()), COUNTER_BITS) < buffers.Length ==>
                Window(Model(), k, COUNTER_BITS)
                == old(Window(Model(), k, COUNTER_BITS)) + [IdOf(flags)]
    {
      OrOneIsNeverZero(flags);
      Returns(IdOf(flags));
      if Or(flags, F_BUFFER) != 0 {
        ghost var r := PushBack(Model(), k, COUNTER_BITS, IdOf(flags));
        var slot := And(tail, buffers.Length - 1);
        slots[slot] := IdOf(flags);
        tail := (tail + 1) % COUNTER_VALUES;
        assert slots[..] == r.slots;
      }
    }
  }
}
