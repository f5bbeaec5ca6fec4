/** Plain records exchanged between the user, the event loop and the kernel. */
module Requests {
  datatype Option<+T> = None | Some(value: T)

  type Byte = x: int | 0 <= x < 256

  /** The five request types, in the order of the pending-request vectors. */
  datatype Kind = Accept | Connect | Read | MultiRead | Write

  const HEADER_MAGIC: nat := 0xA1B2C3D4

  /** The arm of a `switch (header->op)` that a tag selects, if any. */
  function KindOfTag(t: nat): (k: Option<Kind>) {
    if t == 0xA1A1A1A1 then Some(Accept)
    else if t == 0xB2B2B2B2 then Some(Connect)
    else if t == 0xC3C3C3C3 then Some(Read)
    else if t == 0xD4D4D4D4 then Some(MultiRead)
    else if t == 0xE5E5E5E5 then Some(Write)
    else None
  }

  /** The fixed operation tag of each request type. */
  function Tag(k: Kind): (t: nat)
    ensures KindOfTag(t) == Some(k)
  {
    match k
    case Accept => 0xA1A1A1A1
    case Connect => 0xB2B2B2B2
    case Read => 0xC3C3C3C3
    case MultiRead => 0xD4D4D4D4
    case Write => 0xE5E5E5E5
  }

  predicate IsMultiShot(k: Kind) {
    k.Accept? || k.MultiRead?
  }

  /** `subscriber` is the untyped user pointer; 0 is the null pointer. */
  datatype Header = Header(magic: nat, op: nat, subscriber: nat) {
    predicate IsValid() { magic == HEADER_MAGIC }
  }

  /** A request of any type: `length` is the size of the caller's span for single-shot reads and
      writes, `group` the buffer group of multi-shot reads. */
  datatype Request = Request(header: Header, fd: int, length: nat, group: nat)

  const BUFFER_GROUP_ID: nat := 1
  const NO_GROUP: nat := 65535

  /** A request as `EventLoop::add` leaves it: tagged by its type, subscriber and buffer group set. */
  function AsAdded(k: Kind, fd: int, length: nat, subscriber: nat): Request {
    Request(Header(HEADER_MAGIC, Tag(k), subscriber), fd, length,
            if k.MultiRead? then BUFFER_GROUP_ID else NO_GROUP)
  }

  /** Pointers to requests are named by the serial number of the allocation they come from. */
  type Ptr = nat

  /** What a submission entry asks of the kernel. */
  datatype Opcode = Op(kind: Kind) | CancelFd

  datatype Sqe = Sqe(op: Opcode, fd: int, length: nat, group: nat, data: Option<Ptr>)

  /** The entry filled by the `prepare` overload for `k`. */
  function EntryFor(k: Kind, r: Request, p: Ptr): Sqe {
    Sqe(Op(k), r.fd, r.length, r.group, Some(p))
  }

  /** The entry filled by `cancel`: it sets no user data, and so keeps what its slot held. */
  function CancelEntry(fd: int, left: Option<Ptr>): Sqe {
    Sqe(CancelFd, fd, 0, NO_GROUP, left)
  }

  /** The entry was filled for the request `p`. A cancel is not, whatever its user data. */
  predicate Carries(e: Sqe, p: Ptr) {
    e.op.Op? && e.data == Some(p)
  }

  predicate Recurs(e: Sqe) {
    e.op.Op? && IsMultiShot(e.op.kind)
  }

  /** A completion. Its user data is `entry.data`; the rest of `entry`, the submission it answers,
      is only read by the kernel and by specifications. */
  datatype Cqe = Cqe(entry: Sqe, res: int, flags: nat)

  const F_BUFFER: nat := 1
  const BUFFER_SHIFT: nat := 65536

  /** The buffer id: the flag bits above bit 16. */
  function IdOf(flags: nat): nat {
    flags / BUFFER_SHIFT
  }

  function BufferId(c: Cqe): nat {
    IdOf(c.flags)
  }

  datatype ReadData = FromCaller(count: int) | FromRing(bytes: seq<Byte>)

  datatype Event =
    | ErrorEvent(code: int)
    | AcceptEvent(clientFd: int)
    | ReadEvent(fd: int, data: ReadData)
    | WriteEvent(result: int, length: nat)
    | ConnectEvent

  datatype Failure = MalformedEntry | InvalidHeader | NoSubscriber | InvalidBufferId

  /** What visiting one completion comes to: one `handle` call on a subscriber, or one error
      reported by the loop itself. */
  datatype Outcome = Notified(subscriber: nat, event: Event) | LoopError(why: Failure)

  /** The event refers to a provided buffer; these are the outcomes after which the loop gives the
      buffer back. */
  predicate FromTheRing(o: Outcome) {
    o.Notified? && o.event.ReadEvent? && o.event.data.FromRing?
  }
}
