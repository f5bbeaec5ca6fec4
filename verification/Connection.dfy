/** The Connection class: a socket, a copy of its number, and the subscriber of its requests. */
module Connections {
  import opened Custody
  import opened Descriptors
  import opened Requests
  import opened Sockets

  class Connection {
    var out: Outside
    const socket: FileDescriptor
    var endpoint: Raw
    var subscriber: nat            // its address; 0 once moved from

    constructor (outside: Outside, other: FileDescriptor, ownSubscriber: nat)
      modifies other, outside`calls
      ensures out == outside && fresh(socket) && subscriber == ownSubscriber
      ensures socket.fd == endpoint == old(other.fd) && other.fd == INVALID
      ensures outside.calls == Noted(old(outside.calls), Adopted(old(other.fd)))
    {
      out := outside;
      socket := new FileDescriptor.Move(other);
      subscriber := ownSubscriber;
      new;
      endpoint := socket.fd;
      out.Adopt(socket.fd);
    }

    /** The default move constructor. The copied endpoint of `other` stays. */
    constructor Move(other: Connection)
      modifies other, other.socket
      ensures socket.fd == old(other.socket.fd) && other.socket.fd == INVALID && fresh(socket)
      ensures out == old(other.out) && endpoint == other.endpoint == old(other.endpoint)
      ensures subscriber == old(other.subscriber) && other.subscriber == 0
    {
      out := other.out;
      socket := new FileDescriptor.Move(other.socket);
      endpoint := other.endpoint;
      subscriber := other.subscriber;
      new;
      other.subscriber := 0;
    }

    /** The default move assignment, member by member: the sockets are exchanged, the endpoint is
        copied, and the subscriber this Connection had is destroyed. */
    method Assign(other: Connection) returns (destroyed: nat)
      requires this != other ==> socket != other.socket
      modifies this, other, socket, other.socket
      ensures socket.fd == old(other.socket.fd) && other.socket.fd == old(socket.fd)
      ensures out == old(other.out) && endpoint == other.endpoint == old(other.endpoint)
      ensures subscriber == old(other.subscriber)
      ensures this != other ==> other.subscriber == 0 && destroyed == old(subscriber)
      ensures this == other ==> destroyed == 0
    {
      out := other.out;
      socket.Assign(other.socket);
      endpoint := other.endpoint;
      var taken := other.subscriber;
      other.subscriber := 0;
      destroyed := subscriber;
      subscriber := taken;
    }

    method Destroy()
      modifies socket, out`calls
      ensures socket.fd == INVALID
      ensures out.calls == if old(socket.fd) > 0
                           then old(out.calls) + [Cancelled(old(socket.fd)), Closed(old(socket.fd))]
                           else old(out.calls)
    {
      if socket.IsSet() {
        out.Cancel(socket.fd);
      }
      socket.Destroy(out);
    }

    /** `asyncRead`; the result is its success. */
    method AsyncRead() returns (ok: bool)
      modifies out`added
      ensures ok && out.added == old(out.added) + [AsAdded(MultiRead, socket.fd, 0, subscriber)]
    {
      var status := out.Add(MultiRead, socket.fd, 0, subscriber);
      ok := status != QueueFull;
    }

    /** `asyncWrite` of a span of `length` bytes. */
    method AsyncWrite(length: nat) returns (ok: bool)
      modifies out`added
      ensures ok && out.added == old(out.added) + [AsAdded(Write, socket.fd, length, subscriber)]
    {
      var status := out.Add(Write, socket.fd, length, subscriber);
      ok := status != QueueFull;
    }
  }
}
