/** File descriptors as the operating system and the event loop see them: the calls that are made on
    each, and who is answerable for it in between. */
module Custody {
  type Raw = int
  const INVALID: Raw := -1

  datatype Call =
    | Opened(fd: Raw)      // returned by `socket`, or by an accept
    | Adopted(fd: Raw)     // moved into a new Connection
    | Cancelled(fd: Raw)   // `loop.cancel`
    | Closed(fd: Raw)

  datatype Stage = Shut | Held | InConnection | Cancelling | Misused

  /** The stage after one more call: anything out of order is misuse, for good. */
  function After(g: Stage, call: Call): Stage {
    match g
    case Shut => if call.Opened? then Held else Misused
    case Held =>
      (match call
       case Adopted(_) => InConnection
       case Cancelled(_) => Cancelling
       case Closed(_) => Shut
       case Opened(_) => Misused)
    case InConnection => if call.Cancelled? then Cancelling else Misused
    case Cancelling => if call.Closed? then Shut else Misused
    case Misused => Misused
  }

  function StageOf(calls: seq<Call>, fd: Raw): Stage {
    if calls == [] then Shut
    else
      var last := calls[|calls| - 1];
      var before := StageOf(calls[..|calls| - 1], fd);
      if last.fd == fd then After(before, last) else before
  }

  lemma StageAfter(calls: seq<Call>, call: Call, fd: Raw)
    ensures StageOf(calls + [call], fd)
            == if call.fd == fd then After(StageOf(calls, fd), call) else StageOf(calls, fd)
  {
    assert (calls + [call])[..|calls|] == calls;
  }

  lemma StageAfterTwo(calls: seq<Call>, a: Call, b: Call, fd: Raw)
    requires a.fd == b.fd
    ensures StageOf(calls + [a, b], fd)
            == if a.fd == fd then After(After(StageOf(calls, fd), a), b) else StageOf(calls, fd)
  {
    assert calls + [a, b] == (calls + [a]) + [b];
    StageAfter(calls, a, fd);
    StageAfter(calls + [a], b, fd);
  }

  lemma {:induction false} NeverMisusedBefore(calls: seq<Call>, fd: Raw, i: nat)
    requires i <= |calls| && StageOf(calls, fd) != Misused
    ensures StageOf(calls[..i], fd) != Misused
    decreases |calls|
  {
    if i == |calls| {
      assert calls[..i] == calls;
    } else {
      NeverMisusedBefore(calls[..|calls| - 1], fd, i);
      assert calls[..|calls| - 1][..i] == calls[..i];
    }
  }

  // ----- what orderly calls amount to -----

  function Count(calls: seq<Call>, call: Call): nat {
    if calls == [] then 0
    else Count(calls[..|calls| - 1], call) + if calls[|calls| - 1] == call then 1 else 0
  }

  /** A descriptor is closed once for each time it was opened, except while it is open. */
  lemma {:induction false} ClosedOncePerOpening(calls: seq<Call>, fd: Raw)
    requires StageOf(calls, fd) != Misused
    ensures Count(calls, Opened(fd))
            == Count(calls, Closed(fd)) + if StageOf(calls, fd).Shut? then 0 else 1
  {
    if calls != [] {
      NeverMisusedBefore(calls, fd, |calls| - 1);
      ClosedOncePerOpening(calls[..|calls| - 1], fd);
    }
  }

  predicate ClosedNext(calls: seq<Call>, i: nat)
    requires i < |calls|
  {
    i + 1 < |calls| && calls[i + 1] == Closed(calls[i].fd)
  }

  /** Every cancellation is directly followed by the closing of the same descriptor. */
  predicate CancelsThenCloses(calls: seq<Call>) {
    forall i: nat :: i < |calls| && calls[i].Cancelled? ==> ClosedNext(calls, i)
  }

  lemma CancelsThenClosesMore(calls: seq<Call>, more: seq<Call>)
    requires CancelsThenCloses(calls) && CancelsThenCloses(more)
    ensures CancelsThenCloses(calls + more)
  {
    forall i: nat | i < |calls + more| && (calls + more)[i].Cancelled? ensures ClosedNext(calls + more, i) {
      if i < |calls| { assert ClosedNext(calls, i); } else { assert ClosedNext(more, i - |calls|); }
    }
  }

  lemma {:induction false} StaysInConnection(calls: seq<Call>, fd: Raw, i: nat, j: nat)
    requires i < j <= |calls| && calls[i] == Adopted(fd) && StageOf(calls[..j], fd) != Misused
    requires forall k :: i < k < j ==> calls[k] != Cancelled(fd)
    ensures StageOf(calls[..j], fd) == InConnection
    decreases j
  {
    NeverMisusedBefore(calls[..j], fd, j - 1);
    assert calls[..j][..j - 1] == calls[..j - 1];
    if j > i + 1 { StaysInConnection(calls, fd, i, j - 1); }
  }

  /** A Connection's descriptor is not closed without being cancelled. */
  lemma ClosedEarly(calls: seq<Call>, fd: Raw, j: nat)
    requires j < |calls| && StageOf(calls[..j], fd).InConnection? && calls[j] == Closed(fd)
    ensures StageOf(calls, fd) == Misused
  {
    assert calls[..j + 1] == calls[..j] + [Closed(fd)];
    StageAfter(calls[..j], Closed(fd), fd);
    if StageOf(calls, fd) != Misused { NeverMisusedBefore(calls, fd, j + 1); }
  }

  /** A descriptor that went into a Connection is cancelled exactly once before it is next closed,
      right before. */
  lemma AdoptedIsCancelledOnce(calls: seq<Call>, fd: Raw, i: nat, j: nat)
    requires StageOf(calls, fd) != Misused && CancelsThenCloses(calls)
    requires i < j < |calls| && calls[i] == Adopted(fd) && calls[j] == Closed(fd)
    requires forall k :: i < k < j ==> calls[k] != Closed(fd)
    ensures i < j - 1 && calls[j - 1] == Cancelled(fd)
    ensures forall k :: i < k < j - 1 ==> calls[k] != Cancelled(fd)
  {
    forall k | i < k < j && calls[k] == Cancelled(fd) ensures k == j - 1 {
      assert ClosedNext(calls, k);
    }
    if forall k :: i < k < j ==> calls[k] != Cancelled(fd) {
      NeverMisusedBefore(calls, fd, j);
      StaysInConnection(calls, fd, i, j);
      ClosedEarly(calls, fd, j);
    }
  }
}
