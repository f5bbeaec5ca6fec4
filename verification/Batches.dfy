/** The pending requests: one vector per request type, visited type by type.
    A batch is the stable regrouping of its pushes by type. */
module Batches {
  import opened Requests

  datatype Vectors<T> =
    Vectors(accepts: seq<T>, connects: seq<T>, readers: seq<T>, multiReaders: seq<T>, writers: seq<T>)

  function Empty<T>(): Vectors<T> {
    Vectors([], [], [], [], [])
  }

  function Of<T>(v: Vectors<T>, k: Kind): seq<T> {
    match k
    case Accept => v.accepts
    case Connect => v.connects
    case Read => v.readers
    case MultiRead => v.multiReaders
    case Write => v.writers
  }

  function Append<T>(v: Vectors<T>, k: Kind, x: T): Vectors<T> {
    match k
    case Accept => v.(accepts := v.accepts + [x])
    case Connect => v.(connects := v.connects + [x])
    case Read => v.(readers := v.readers + [x])
    case MultiRead => v.(multiReaders := v.multiReaders + [x])
    case Write => v.(writers := v.writers + [x])
  }

  /** The order in which `for_each` visits the vectors. */
  function InOrder<T>(v: Vectors<T>): seq<T> {
    v.accepts + v.connects + v.readers + v.multiReaders + v.writers
  }

  lemma OfAppend<T>(v: Vectors<T>, k: Kind, x: T, j: Kind)
    ensures Of(Append(v, k, x), j) == if j == k then Of(v, j) + [x] else Of(v, j)
  {
  }

  lemma AppendAddsOne<T>(v: Vectors<T>, k: Kind, x: T)
    ensures multiset(InOrder(Append(v, k, x))) == multiset(InOrder(v)) + multiset{x}
  {
    var v' := Append(v, k, x);
    assert multiset(Of(v', k)) == multiset(Of(v, k)) + multiset{x};
  }

  // ----- pushes tagged with their type -----

  datatype Item<T> = Item(kind: Kind, value: T)

  ghost function OfKind<T>(xs: seq<Item<T>>, k: Kind): seq<Item<T>> {
    if xs == [] then []
    else
      var last := xs[|xs| - 1];
      OfKind(xs[..|xs| - 1], k) + (if last.kind == k then [last] else [])
  }

  /** The vectors after pushing `xs` in order. */
  ghost function Collect<T>(xs: seq<Item<T>>): Vectors<Item<T>> {
    if xs == [] then Empty()
    else
      var last := xs[|xs| - 1];
      Append(Collect(xs[..|xs| - 1]), last.kind, last)
  }

  ghost function Batch<T>(xs: seq<Item<T>>): seq<Item<T>> {
    InOrder(Collect(xs))
  }

  function Rank(k: Kind): nat {
    match k
    case Accept => 0
    case Connect => 1
    case Read => 2
    case MultiRead => 3
    case Write => 4
  }

  ghost predicate SortedByKind<T>(xs: seq<Item<T>>) {
    forall i, j :: 0 <= i < j < |xs| ==> Rank(xs[i].kind) <= Rank(xs[j].kind)
  }

  lemma {:induction false} CollectFilters<T>(xs: seq<Item<T>>, k: Kind)
    ensures Of(Collect(xs), k) == OfKind(xs, k)
  {
    if xs != [] { CollectFilters(xs[..|xs| - 1], k); }
  }

  lemma {:induction false} FilterHasKind<T>(xs: seq<Item<T>>, k: Kind)
    ensures forall x :: x in OfKind(xs, k) ==> x.kind == k
  {
    if xs != [] { FilterHasKind(xs[..|xs| - 1], k); }
  }

  lemma {:induction false} FilterConcat<T>(xs: seq<Item<T>>, ys: seq<Item<T>>, k: Kind)
    ensures OfKind(xs + ys, k) == OfKind(xs, k) + OfKind(ys, k)
  {
    if ys == [] {
      assert xs + ys == xs;
    } else {
      assert (xs + ys)[..|xs + ys| - 1] == xs + ys[..|ys| - 1];
      FilterConcat(xs, ys[..|ys| - 1], k);
    }
  }

  lemma {:induction false} FilterOfUniform<T>(xs: seq<Item<T>>, j: Kind, k: Kind)
    requires forall x :: x in xs ==> x.kind == j
    ensures OfKind(xs, k) == if j == k then xs else []
  {
    if xs != [] {
      FilterOfUniform(xs[..|xs| - 1], j, k);
      assert xs[|xs| - 1] in xs;
    }
  }

  lemma {:induction false} BatchPermutes<T>(xs: seq<Item<T>>)
    ensures multiset(Batch(xs)) == multiset(xs)
  {
    if xs != [] {
      var front, last := xs[..|xs| - 1], xs[|xs| - 1];
      BatchPermutes(front);
      AppendAddsOne(Collect(front), last.kind, last);
      assert xs == front + [last];
    }
  }

  ghost predicate AllOf<T>(xs: seq<Item<T>>, k: Kind) {
    forall x :: x in xs ==> x.kind == k
  }

  /** Each vector holds requests of its own type only. */
  ghost predicate OwnKinds<T>(v: Vectors<Item<T>>) {
    && AllOf(v.accepts, Accept) && AllOf(v.connects, Connect) && AllOf(v.readers, Read)
    && AllOf(v.multiReaders, MultiRead) && AllOf(v.writers, Write)
  }

  lemma VectorOfKind<T>(xs: seq<Item<T>>, k: Kind)
    ensures AllOf(Of(Collect(xs), k), k)
  {
    CollectFilters(xs, k);
    FilterHasKind(xs, k);
  }

  lemma VectorKinds<T>(xs: seq<Item<T>>)
    ensures OwnKinds(Collect(xs))
  {
    VectorOfKind(xs, Accept);
    VectorOfKind(xs, Connect);
    VectorOfKind(xs, Read);
    VectorOfKind(xs, MultiRead);
    VectorOfKind(xs, Write);
  }

  lemma FilterJoin<T>(xs: seq<Item<T>>, ys: seq<Item<T>>, j: Kind, k: Kind)
    requires AllOf(ys, j)
    ensures OfKind(xs + ys, k) == if j == k then OfKind(xs, k) + ys else OfKind(xs, k)
  {
    FilterConcat(xs, ys, k);
    FilterOfUniform(ys, j, k);
  }

  lemma FilterVectors<T>(v: Vectors<Item<T>>, k: Kind)
    requires OwnKinds(v)
    ensures OfKind(InOrder(v), k) == Of(v, k)
  {
    FilterOfUniform(v.accepts, Accept, k);
    FilterJoin(v.accepts, v.connects, Connect, k);
    FilterJoin(v.accepts + v.connects, v.readers, Read, k);
    FilterJoin(v.accepts + v.connects + v.readers, v.multiReaders, MultiRead, k);
    FilterJoin(v.accepts + v.connects + v.readers + v.multiReaders, v.writers, Write, k);
  }

  lemma BatchKeepsKind<T>(xs: seq<Item<T>>, k: Kind)
    ensures OfKind(Batch(xs), k) == OfKind(xs, k)
  {
    VectorKinds(xs);
    FilterVectors(Collect(xs), k);
    CollectFilters(xs, k);
  }

  ghost predicate AtMost<T>(xs: seq<Item<T>>, k: Kind) {
    forall x :: x in xs ==> Rank(x.kind) <= Rank(k)
  }

  /** Requests of one type may follow requests of types not after it. */
  lemma SortedJoin<T>(xs: seq<Item<T>>, ys: seq<Item<T>>, j: Kind, k: Kind)
    requires SortedByKind(xs) && AtMost(xs, j) && Rank(j) <= Rank(k) && AllOf(ys, k)
    ensures SortedByKind(xs + ys) && AtMost(xs + ys, k)
  {
    var zs := xs + ys;
    forall i, l | 0 <= i < l < |zs| ensures Rank(zs[i].kind) <= Rank(zs[l].kind) {
      if i < |xs| { assert zs[i] in xs; } else { assert zs[i] in ys; }
      if l >= |xs| { assert zs[l] in ys; }
    }
  }

  lemma Chain<T>(v: Vectors<Item<T>>)
    requires OwnKinds(v)
    ensures SortedByKind(InOrder(v))
  {
    assert [] + v.accepts == v.accepts;
    SortedJoin([], v.accepts, Accept, Accept);
    SortedJoin(v.accepts, v.connects, Accept, Connect);
    SortedJoin(v.accepts + v.connects, v.readers, Connect, Read);
    SortedJoin(v.accepts + v.connects + v.readers, v.multiReaders, Read, MultiRead);
    SortedJoin(v.accepts + v.connects + v.readers + v.multiReaders, v.writers, MultiRead, Write);
  }

  lemma BatchIsSorted<T>(xs: seq<Item<T>>)
    ensures SortedByKind(Batch(xs))
  {
    VectorKinds(xs);
    Chain(Collect(xs));
  }

  /** The visiting order is a permutation of the pushes, grouped by type, and keeps the push order
      of each type. */
  lemma BatchIsStableRegrouping<T>(xs: seq<Item<T>>)
    ensures multiset(Batch(xs)) == multiset(xs)
    ensures SortedByKind(Batch(xs))
    ensures forall k :: OfKind(Batch(xs), k) == OfKind(xs, k)
  {
    BatchPermutes(xs);
    BatchIsSorted(xs);
    forall k ensures OfKind(Batch(xs), k) == OfKind(xs, k) { BatchKeepsKind(xs, k); }
  }

  ghost function ByKind<T>(ys: seq<Item<T>>): seq<Item<T>> {
    OfKind(ys, Accept) + OfKind(ys, Connect) + OfKind(ys, Read) + OfKind(ys, MultiRead)
    + OfKind(ys, Write)
  }

  lemma ByKindExtends<T>(front: seq<Item<T>>, last: Item<T>)
    requires forall k :: Rank(k) > Rank(last.kind) ==> OfKind(front, k) == []
    ensures ByKind(front + [last]) == ByKind(front) + [last]
  {
    assert (front + [last])[..|front|] == front;
  }

  lemma {:induction false} FilterAbsent<T>(xs: seq<Item<T>>, k: Kind)
    requires forall x :: x in xs ==> x.kind != k
    ensures OfKind(xs, k) == []
  {
    if xs != [] {
      assert xs[|xs| - 1] in xs;
      FilterAbsent(xs[..|xs| - 1], k);
    }
  }

  lemma {:induction false} SortedIsByKind<T>(ys: seq<Item<T>>)
    requires SortedByKind(ys)
    ensures ys == ByKind(ys)
  {
    if ys != [] {
      var front, last := ys[..|ys| - 1], ys[|ys| - 1];
      SortedIsByKind(front);
      forall k | Rank(k) > Rank(last.kind) ensures OfKind(front, k) == [] {
        FilterAbsent(front, k);
      }
      ByKindExtends(front, last);
      assert ys == front + [last];
    }
  }

  /** That is: the accepts, then the connects, the reads, the multi-shot reads and the writes, those of each type
      in push order. */
  lemma BatchInParts<T>(xs: seq<Item<T>>)
    ensures Batch(xs) == OfKind(xs, Accept) + OfKind(xs, Connect) + OfKind(xs, Read) + OfKind(xs, MultiRead)
                         + OfKind(xs, Write)
  {
    CollectFilters(xs, Accept);
    CollectFilters(xs, Connect);
    CollectFilters(xs, Read);
    CollectFilters(xs, MultiRead);
    CollectFilters(xs, Write);
  }

  /** No other sequence has these properties: the visiting order is the stable sort by type. */
  lemma StableRegroupingIsUnique<T>(xs: seq<Item<T>>, ys: seq<Item<T>>)
    requires SortedByKind(ys)
    requires forall k :: OfKind(ys, k) == OfKind(xs, k)
    ensures ys == Batch(xs)
  {
    BatchIsStableRegrouping(xs);
    SortedIsByKind(ys);
    SortedIsByKind(Batch(xs));
  }
}
