/** One pass over the completion queue while the kernel keeps posting. */
module Completions {
  import opened Bits
  import opened CircularQueue

  /** Head and tail are 32-bit counters. */
  const INDEX_BITS: nat := 32
  const INDEX_VALUES: nat := 0x1_0000_0000

  lemma IndexValues()
    ensures Pow2(INDEX_BITS) == INDEX_VALUES
  {
    assert Pow2(4) == 16;
    Pow2Adds(4, 4);
    Pow2Adds(8, 8);
    Pow2Adds(16, 16);
  }

  /** The index of the `n`-th entry from the head. */
  function IndexAt(head: nat, n: nat): nat {
    (head + n) % INDEX_VALUES
  }

  lemma NextIndex(head: nat, n: nat)
    ensures IndexAt(head, n + 1) == (IndexAt(head, n) + 1) % INDEX_VALUES
  {
    WrapBase(head + n, 1, INDEX_VALUES);
  }

  /** `visited` are the first entries of `contents`. */
  ghost predicate Visits<T>(visited: seq<T>, contents: seq<T>) {
    |visited| <= |contents| && visited == contents[..|visited|]
  }

  lemma VisitsMore<T>(visited: seq<T>, contents: seq<T>, posted: seq<T>)
    requires Visits(visited, contents)
    ensures Visits(visited, contents + posted)
    ensures |visited| < |contents| ==> Visits(visited + [contents[|visited|]], contents)
  {
  }

  lemma VisitsThenRest<T>(visited: seq<T>, contents: seq<T>, first: seq<T>, posted: seq<T>, late: seq<T>)
    requires Visits(visited, contents) && contents == first + posted + late
    ensures visited + contents[|visited|..] == first + (posted + late)
  {
  }

  class CompletionQueue<T(0)> {
    const entries: array<T>
    var head: nat
    var tail: nat
    ghost const k: nat
    ghost var contents: seq<T>   // posted and not consumed, oldest first

    ghost predicate Sound()
      reads this
    {
      && k < INDEX_BITS && entries.Length == Pow2(k)
      && head < INDEX_VALUES && tail < INDEX_VALUES
      && Size<T>(Ring([], head, tail), INDEX_BITS) <= entries.Length
    }

    ghost function Model(): (r: Ring<T>)
      requires Sound()
      reads this, entries
      ensures CircularQueue.Valid(r, k, INDEX_BITS) && Size(r, INDEX_BITS) <= Pow2(k)
    {
      IndexValues();
      Ring(entries[..], head, tail)
    }

    ghost predicate Valid()
      reads this, entries
    {
      && Sound()
      && contents == Window(Model(), k, INDEX_BITS)
    }

    constructor (ghost exponent: nat, storage: array<T>, start: nat)
      requires exponent < INDEX_BITS && storage.Length == Pow2(exponent) && start < INDEX_VALUES
      ensures Valid() && contents == [] && entries == storage && head == start
    {
      entries := storage;
      head, tail := start, start;
      k := exponent;
      contents := [];
    }

    /** The ring after posting one completion in the given slot. */
    ghost predicate PostedIn(slot: nat, x: T, r: Ring<T>)
      reads this, entries
    {
      && slot < entries.Length
      && r == Ring(entries[..][slot := x], head, (tail + 1) % INDEX_VALUES)
      && CircularQueue.Valid(r, k, INDEX_BITS) && Size(r, INDEX_BITS) <= Pow2(k)
      && Window(r, k, INDEX_BITS) == contents + [x]
    }

    lemma Appends(x: T) returns (r: Ring<T>)
      requires Valid() && |contents| < entries.Length
      ensures PostedIn(And(tail, entries.Length - 1), x, r)
    {
      r := PushBack(Model(), k, INDEX_BITS, x);
      PushBackAppends(Model(), k, INDEX_BITS, x);
      IndexValues();
      MaskIsRemainder(tail, k);
    }

    /** The fields make up a proper ring with these contents. */
    lemma Settled(r: Ring<T>)
      requires r == Ring(entries[..], head, tail) && k < INDEX_BITS && entries.Length == Pow2(k)
      requires CircularQueue.Valid(r, k, INDEX_BITS) && Size(r, INDEX_BITS) <= Pow2(k)
      requires contents == Window(r, k, INDEX_BITS)
      ensures Valid()
    {
      IndexValues();
    }

    /** Write one slot, and advance the tail past it. */
    method Publish(slot: nat, x: T)
      requires slot < entries.Length
      modifies `tail, entries
      ensures entries[..] == old(entries[..])[slot := x] && tail == (old(tail) + 1) % INDEX_VALUES
    {
      entries[slot] := x;
      tail := (tail + 1) % INDEX_VALUES;
    }

    /** The kernel posts one completion. */
    method Post(x: T)
      requires Valid() && |contents| < entries.Length
      modifies `tail, `contents, entries
      ensures Valid() && contents == old(contents) + [x]
    {
      ghost var r := Appends(x);
      Publish(And(tail, entries.Length - 1), x);
      contents := contents + [x];
      Settled(r);
    }

    lemma CounterDifference()
      requires Valid()
      ensures (tail + INDEX_VALUES - head) % INDEX_VALUES == |contents|
    {
      IndexValues();
      if head <= tail {
        DivisionIsUnique(tail + INDEX_VALUES - head, INDEX_VALUES, 1, tail - head);
      }
    }

    /** The kernel posts as many of `xs` as fit: it never overruns an unconsumed entry. */
    method PostWhatFits(xs: seq<T>) returns (posted: seq<T>)
      requires Valid()
      modifies `tail, `contents, entries
      ensures Valid() && contents == old(contents) + posted && posted <= xs
      ensures posted == xs || |contents| == entries.Length
    {
      posted := [];
      CounterDifference();
      while |posted| < |xs| && (tail + INDEX_VALUES - head) % INDEX_VALUES < entries.Length
        invariant Valid() && posted <= xs && contents == old(contents) + posted
        invariant (tail + INDEX_VALUES - head) % INDEX_VALUES == |contents|
        decreases |xs| - |posted|
      {
        Post(xs[|posted|]);
        posted := posted + [xs[|posted|]];
        CounterDifference();
      }
    }

    /** The reader's index has caught up with the tail exactly when every entry is visited. */
    lemma CaughtUp(index: nat, count: nat)
      requires Valid() && count <= |contents| && index == IndexAt(head, count)
      ensures index == tail <==> count == |contents|
      ensures And(index, entries.Length - 1) < entries.Length
      ensures count < |contents| ==> entries[And(index, entries.Length - 1)] == contents[count]
    {
      MaskIsRemainder(index, k);
      IndexValues();
      Pow2Grows(k, INDEX_BITS);
      WrapsOnce(head, count, INDEX_VALUES);
      SameSlot(head + count, 0, k, INDEX_BITS);
    }

    /** Look at the tail, after the kernel has posted: the next completion, if any. */
    method Look(index: nat, count: nat, arriving: seq<T>) returns (posted: seq<T>, seen: seq<T>)
      requires Valid() && count <= |contents| && index == IndexAt(head, count)
      modifies `tail, `contents, entries
      ensures Valid() && contents == old(contents) + posted
      ensures seen == if count < |contents| then [contents[count]] else []
    {
      posted := PostWhatFits(arriving);
      CaughtUp(index, count);
      seen := if index != tail then [entries[And(index, entries.Length - 1)]] else [];
    }

    /** The visits so far, and the index of the next. */
    ghost predicate Visiting(visited: seq<T>, index: nat)
      reads this
    {
      Visits(visited, contents) && index == IndexAt(head, |visited|)
    }

    /** One turn of the loop: look at the tail, and visit one completion unless there is none. */
    method VisitNext(visited: seq<T>, index: nat, arriving: seq<T>)
      returns (visited': seq<T>, index': nat, posted: seq<T>)
      requires Valid() && Visiting(visited, index)
      modifies `tail, `contents, entries
      ensures Valid() && contents == old(contents) + posted
      ensures Visiting(visited', index')
      ensures |visited'| == |visited| + 1 || (visited' == visited && |visited| == |contents|)
    {
      var seen;
      ghost var before := contents;
      posted, seen := Look(index, |visited|, arriving);
      VisitsMore(visited, before, posted);
      VisitsMore(visited, contents, []);
      visited', index' := visited, index;
      if seen != [] {
        visited' := visited + seen;
        NextIndex(head, |visited|);
        index' := (index + 1) % INDEX_VALUES;
      }
    }

    /** Advance the head past `count` completions. */
    method Advance(count: nat)
      requires Valid() && count <= |contents|
      modifies `head, `contents
      ensures Valid() && contents == old(contents)[count..]
      ensures head == IndexAt(old(head), count)
    {
      PopFrontDrops(Model(), k, INDEX_BITS, count);
      IndexValues();
      ghost var r := PopFront(Model(), INDEX_BITS, count);
      head := (head + count) % INDEX_VALUES;
      contents := contents[count..];
      Settled(r);
    }

    lemma AtMostCapacity()
      requires Valid()
      ensures |contents| <= entries.Length
    {
    }

    method AdvanceIfAny(count: nat)
      requires Valid() && count <= |contents|
      modifies `head, `contents
      ensures Valid() && contents == old(contents)[count..]
      ensures head == IndexAt(old(head), count)
    {
      if count > 0 {
        Advance(count);
      } else {
        WrapsOnce(head, 0, INDEX_VALUES);
      }
    }

    /** The loop: `arrivals(i)` is what the kernel tries to post before the `i`-th look. */
    method VisitAll(arrivals: nat -> seq<T>) returns (visited: seq<T>, posted: seq<T>)
      requires Valid()
      modifies `tail, `contents, entries
      ensures Valid() && Visits(visited, contents)
      ensures contents == old(contents) + posted
      ensures |visited| >= |old(contents)|
    {
      var index := head;
      visited, posted := [], [];
      var more := true;
      WrapsOnce(head, 0, INDEX_VALUES);
      while more
        invariant Valid() && Visiting(visited, index)
        invariant contents == old(contents) + posted
        invariant !more ==> |visited| >= |old(contents)|
        decreases more, entries.Length - |visited|
      {
        var visited', index', batch := VisitNext(visited, index, arrivals(|visited|));
        more := |visited'| > |visited|;
        visited, index, posted := visited', index', posted + batch;
      }
    }

    /** Visit every visible completion, then advance the head past them; `late` is what the kernel
        tries to post between the last look and the advance. */
    method ForEachCompletion(arrivals: nat -> seq<T>, late: seq<T>)
      returns (visited: seq<T>, posted: seq<T>)
      requires Valid()
      modifies this, entries
      ensures Valid()
      ensures visited + contents == old(contents) + posted
      ensures |old(contents)| <= |visited| <= entries.Length
      ensures head == IndexAt(old(head), |visited|)
    {
      visited, posted := VisitAll(arrivals);
      ghost var before := contents;
      var batch := PostWhatFits(late);
      VisitsMore(visited, before, batch);
      VisitsThenRest(visited, contents, old(contents), posted, batch);
      posted := posted + batch;
      AtMostCapacity();
      AdvanceIfAny(|visited|);
    }
  }
}
