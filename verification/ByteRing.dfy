/** Byte ring buffer of src/btstack_ring_buffer.c. Reads and writes copy in at most two chunks around
    the end of the storage; the class is proved to be a bounded first-in first-out byte queue. */
module ByteRing {
  import opened Arith

  type byte = x: int | 0 <= x < 0x100

  class RingBuffer {
    const storage: array<byte>
    var lastReadIndex: nat
    var lastWrittenIndex: nat
    var full: bool
    ghost var contents: seq<byte>  // the bytes written and not yet read, oldest first

    /** Storage slot reached by walking `i` slots from `start`. */
    ghost function Slot(start: nat, i: nat): nat {
      if start + i < storage.Length then start + i else start + i - storage.Length
    }

    ghost predicate Valid()
      reads this, storage
    {
      && |contents| <= storage.Length
      && (lastReadIndex < storage.Length || (storage.Length == 0 && lastReadIndex == 0))
      && lastWrittenIndex == Slot(lastReadIndex, |contents|)
      && (full <==> |contents| == storage.Length > 0)
      && (forall i :: 0 <= i < |contents| ==> contents[i] == storage[Slot(lastReadIndex, i)])
    }

    constructor (size: nat)
      ensures Valid() && fresh(storage) && storage.Length == size && contents == []
    {
      storage := new byte[size](_ => 0);
      lastReadIndex, lastWrittenIndex, full := 0, 0, false;
      contents := [];
    }

    method Reset()
      modifies this
      ensures Valid() && contents == []
    {
      lastReadIndex, lastWrittenIndex, full := 0, 0, false;
      contents := [];
    }

    function BytesAvailable(): (n: nat)
      requires Valid()
      reads this, storage
      ensures n == |contents|
    {
      if full then storage.Length
      else
        var diff := lastWrittenIndex - lastReadIndex;
        if diff >= 0 then diff else diff + storage.Length
    }

    function BytesFree(): (n: nat)
      requires Valid()
      reads this, storage
      ensures n + |contents| == storage.Length
    {
      storage.Length - BytesAvailable()
    }

    /** Copies a block that fits behind the last written byte, wrapping at the end of the storage. */
    method CopyIn(data: seq<byte>)
      requires lastWrittenIndex < storage.Length && 0 < |data| <= storage.Length
      modifies this`lastWrittenIndex, storage
      ensures lastWrittenIndex < storage.Length
      ensures lastWrittenIndex == Slot(old(lastWrittenIndex), |data|)
      ensures forall k :: 0 <= k < storage.Length ==>
                storage[k] == var d := k - old(lastWrittenIndex);
                              if 0 <= d < |data| then data[d]
                              else if 0 <= d + storage.Length < |data| then data[d + storage.Length]
                              else old(storage[k])
    {
      var bytesUntilEnd := storage.Length - lastWrittenIndex;
      var bytesToCopy := Min(bytesUntilEnd, |data|);
      forall i | 0 <= i < bytesToCopy {
        storage[lastWrittenIndex + i] := data[i];
      }
      lastWrittenIndex := lastWrittenIndex + bytesToCopy;
      if lastWrittenIndex == storage.Length {
        lastWrittenIndex := 0;
      }
      if bytesToCopy != |data| {
        forall i | 0 <= i < |data| - bytesToCopy {
          storage[i] := data[bytesToCopy + i];
        }
        lastWrittenIndex := lastWrittenIndex + (|data| - bytesToCopy);
      }
    }

    /** All or nothing: a block that does not fit leaves the buffer alone. */
    method Write(data: seq<byte>) returns (ok: bool)
      requires Valid()
      modifies this, storage
      ensures Valid()
      ensures ok <==> |old(contents)| + |data| <= storage.Length
      ensures contents == if ok then old(contents) + data else old(contents)
    {
      if BytesFree() < |data| {
        return false;
      }
      if |data| == 0 {
        return true;
      }
      CopyIn(data);
      contents := contents + data;
      if lastWrittenIndex == lastReadIndex {
        full := true;
      }
      return true;
    }

    /** Copies the `count` bytes behind the last read one, wrapping at the end of the storage. */
    method CopyOut(count: nat) returns (data: seq<byte>)
      requires lastReadIndex < storage.Length && 0 < count <= storage.Length
      modifies this`lastReadIndex
      ensures lastReadIndex == Slot(old(lastReadIndex), count) < storage.Length
      ensures |data| == count
      ensures forall i :: 0 <= i < count ==> data[i] == storage[Slot(old(lastReadIndex), i)]
    {
      var bytesUntilEnd := storage.Length - lastReadIndex;
      var bytesToCopy := Min(bytesUntilEnd, count);
      data := storage[lastReadIndex..lastReadIndex + bytesToCopy];
      lastReadIndex := lastReadIndex + bytesToCopy;
      if lastReadIndex == storage.Length {
        lastReadIndex := 0;
      }
      if bytesToCopy != count {
        data := data + storage[..count - bytesToCopy];
        lastReadIndex := lastReadIndex + (count - bytesToCopy);
      }
    }

    /** Removes and returns up to `length` bytes, oldest first. */
    method Read(length: nat) returns (data: seq<byte>)
      requires Valid()
      modifies this
      ensures Valid()
      ensures data == old(contents)[..Min(length, |old(contents)|)]
      ensures contents == old(contents)[|data|..]
    {
      var remaining := Min(length, BytesAvailable());
      if remaining == 0 {
        return [];
      }
      data := CopyOut(remaining);
      full := false;
      contents := contents[remaining..];
    }
  }
}
