/** The bounds-checked cursor over one packet (src/bluetooth/PacketContents.h). */
module PacketCursor {
  import opened Bytes

  class PacketContents {
    const data: seq<byte>
    var offset: nat

    ghost predicate Valid()
      reads this
    {
      offset <= |data|
    }

    constructor (data: seq<byte>)
      ensures Valid() && this.data == data && offset == 0
    {
      this.data := data;
      offset := 0;
    }

    function Remaining(): (n: nat)
      requires Valid()
      reads this
      ensures offset + n == |data|
    {
      if offset < |data| then |data| - offset else 0
    }

    /** The next `size` bytes, or nothing - and then the cursor has not moved. */
    method Get(size: nat) returns (r: Option<seq<byte>>)
      requires Valid()
      modifies this
      ensures Valid()
      ensures r.Some? <==> old(offset) + size <= |data|
      ensures r.Some? ==> |r.value| == size && data[..offset] == old(data[..offset]) + r.value
      ensures r.None? ==> offset == old(offset)
    {
      if Remaining() < size {
        return None;
      }
      r := Some(data[offset..offset + size]);
      offset := offset + size;
    }
  }
}
