/** The one buffer in which a walk over a trie spells the topic of every node it reaches. */
module PathBuffer {
  import opened Wire

  class PathBuffer {
    /** The memory in use; its length is the capacity. */
    var bytes: seq<Byte>

    constructor ()
      ensures bytes == []
    {
      bytes := [];
    }

    /** Make room for one byte behind the first `size`; `max` is the room the caller knows of. */
    method Adjust(size: nat, max: nat) returns (room: nat)
      requires size <= max <= |bytes|
      modifies this
      ensures size < room <= |bytes| && max <= room
      ensures bytes[..size] == old(bytes)[..size]
    {
      room := max;
      if size >= max {
        room := size + 256;
        Realloc(room);
      }
    }

    /** Resize the memory; what fits is kept and the rest is anything. */
    method Realloc(n: nat)
      modifies this
      ensures |bytes| == n
      ensures forall k | 0 <= k < n && k < |old(bytes)| :: bytes[k] == old(bytes)[k]
    {
      if n <= |bytes| {
        bytes := bytes[..n];
      } else {
        var garbage: Byte := *;
        bytes := bytes + seq<Byte>(n - |bytes|, _ => garbage);
      }
    }

    method Put(i: nat, c: Byte)
      requires i < |bytes|
      modifies this
      ensures |bytes| == |old(bytes)| && bytes[..i] == old(bytes)[..i] && bytes[..i + 1] == old(bytes)[..i] + [c]
    {
      bytes := bytes[i := c];
    }
  }
}
