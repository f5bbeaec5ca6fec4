/** The FileDescriptor class, and the calls it and its users make. */
module Sockets {
  import opened Custody
  import opened Descriptors
  import opened Requests

  datatype AddStatus = Ok | QueueFull

  /** The operating system and the event loop, reduced to a record of the calls made to them. */
  class Outside {
    ghost var calls: seq<Call>
    ghost var added: seq<Request>

    constructor ()
      ensures calls == [] && added == []
    {
      calls, added := [], [];
    }

    method Socket(answer: Raw) returns (fd: Raw)
      modifies `calls
      ensures fd == answer && calls == Noted(old(calls), Opened(fd))
    {
      fd := answer;
      calls := Noted(calls, Opened(fd));
    }

    ghost method Adopt(fd: Raw)
      modifies `calls
      ensures calls == Noted(old(calls), Adopted(fd))
    {
      calls := Noted(calls, Adopted(fd));
    }

    method Cancel(fd: Raw)
      modifies `calls
      ensures calls == old(calls) + [Cancelled(fd)]
    {
      calls := calls + [Cancelled(fd)];
    }

    method Close(fd: Raw)
      modifies `calls
      ensures calls == old(calls) + [Closed(fd)]
    {
      calls := calls + [Closed(fd)];
    }

    /** `add` never reports a full queue. */
    method Add(kind: Kind, fd: Raw, length: nat, subscriber: nat) returns (status: AddStatus)
      modifies `added
      ensures status.Ok? && added == old(added) + [AsAdded(kind, fd, length, subscriber)]
    {
      added := added + [AsAdded(kind, fd, length, subscriber)];
      status := Ok;
    }
  }

  class FileDescriptor {
    var fd: Raw

    constructor (raw: Raw)
      ensures fd == raw
    {
      fd := raw;
    }

    constructor Default()
      ensures fd == INVALID
    {
      fd := INVALID;
    }

    constructor Move(other: FileDescriptor)
      modifies other
      ensures fd == old(other.fd) && other.fd == INVALID
    {
      fd := other.fd;
      new;
      other.fd := INVALID;
    }

    /** Move assignment; assigning an object to itself changes nothing. */
    method Assign(other: FileDescriptor)
      modifies this, other
      ensures fd == old(other.fd) && other.fd == old(fd)
    {
      var mine := fd;
      fd := other.fd;
      other.fd := mine;
    }

    predicate IsSet()
      reads this
    {
      fd > 0
    }

    method Destroy(out: Outside)
      modifies this, out`calls
      ensures fd == INVALID
      ensures out.calls == if old(fd) > 0 then old(out.calls) + [Closed(old(fd))] else old(out.calls)
    {
      if fd > 0 {
        out.Close(fd);
      }
      fd := INVALID;
    }
  }
}
