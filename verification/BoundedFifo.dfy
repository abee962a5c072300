// The per-client output queue.
module BoundedFifo {
  import opened Bytes

  // A vector with a consumed front. `reserved` is the vector's capacity(), of
  // which nothing is assumed but that it is at least the size.
  class BoundedBuffer {
    const cap: nat
    var buf: seq<byte>
    var head: nat
    var reserved: nat

    ghost predicate Valid()
      reads this
    {
      && head <= |buf| <= reserved
      && |buf| - head <= cap
      && |buf| <= 2 * cap
    }

    // The queued bytes, oldest first.
    ghost function Contents(): seq<byte>
      reads this
      requires Valid()
    {
      buf[head..]
    }

    constructor (capacity: nat)
      ensures Valid() && cap == capacity && Contents() == []
    {
      cap := capacity;
      buf, head, reserved := [], 0, 0;
    }

    function Size(): (n: nat)
      reads this
      requires Valid()
      ensures n == |Contents()|
    {
      |buf| - head
    }

    // The unsent bytes.
    method Peek() returns (bytes: seq<byte>)
      requires Valid()
      ensures bytes == Contents()
    {
      bytes := buf[head..];
    }

    // Refuses, changing nothing, exactly what would exceed the capacity.
    method Append(data: seq<byte>) returns (ok: bool)
      requires Valid()
      modifies this
      ensures Valid()
      ensures ok <==> data == [] || |old(Contents())| + |data| <= cap
      ensures Contents() == if ok then old(Contents()) + data else old(Contents())
    {
      if data == [] {
        return true;
      }
      if Size() + |data| > cap {
        return false;
      }
      CompactIfNeeded(|data|);
      buf := buf + data;
      var grown: nat :| grown >= reserved && grown >= |buf|;
      reserved := grown;
      return true;
    }

    method CompactIfNeeded(incoming: nat)
      requires Valid()
      modifies this
      ensures Valid() && Contents() == old(Contents())
      ensures head == 0 || head < Size()
    {
      if head == 0 {
        return;
      }
      var live := Size();
      if head >= live || head + incoming + live > reserved {
        buf := buf[head..];
        var grown: nat :| grown >= live + incoming;
        reserved := grown;
        head := 0;
      }
    }

    method Consume(n: nat)
      requires Valid()
      modifies this
      ensures Valid()
      ensures Contents() == old(Contents())[Min(n, |old(Contents())|)..]
    {
      if n >= Size() {
        Clear();
        return;
      }
      head := head + n;
    }

    method Clear()
      requires Valid()
      modifies this
      ensures Valid() && Contents() == []
    {
      buf, head := [], 0;
    }
  }
}
