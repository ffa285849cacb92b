// The byte vector with a cursor as an object, updated in place: the operations of the standard
// library and of the buffer traits that a connection uses on it.
module Cursors {
  import opened Types
  import opened Buffers

  class Cursor {
    var data: Bytes
    var pos: nat
    var cap: nat

    ghost predicate Valid()
      reads this
    {
      pos <= |data| <= cap
    }

    ghost function View(): Buf
      requires Valid()
      reads this
    {
      Vec(data, pos, cap)
    }

    constructor (capacity: nat)
      ensures Valid() && View() == WithCapacity(capacity)
    {
      data, pos, cap := [], 0, capacity;
    }

    method Reserve(extra: nat)
      requires Valid()
      modifies this
      ensures Valid() && View() == old(View()).Reserve(extra)
    {
      if cap - |data| < extra {
        cap := Max(2 * cap, |data| + extra);
      }
    }

    /** Adds to the end, whatever the cursor. */
    method Extend(bytes: Bytes)
      requires Valid()
      modifies this
      ensures Valid() && View() == old(View()).Append(bytes)
    {
      Reserve(|bytes|);
      data := data + bytes;
    }

    method SeekEnd()
      requires Valid()
      modifies this
      ensures Valid() && View() == old(View()).(pos := |data|) && data == old(data)
    {
      pos := |data|;
    }

    method SeekTo(p: nat)
      requires Valid() && p <= |data|
      modifies this
      ensures Valid() && View() == old(View()).(pos := p)
    {
      pos := p;
    }

    /** Overwrites from the cursor on, then extends, and moves the cursor past what it wrote. */
    method Write(bytes: Bytes)
      requires Valid()
      modifies this
      ensures Valid() && pos == old(pos) + |bytes|
      ensures data[..old(pos)] == old(data)[..old(pos)] && data[old(pos)..pos] == bytes
      ensures data[pos..] == if pos <= |old(data)| then old(data)[pos..] else []
      ensures old(pos) == |old(data)| ==> View() == old(View()).Append(bytes).(pos := |data|)
    {
      var n := Min(|data| - pos, |bytes|);
      data := data[..pos] + bytes[..n] + data[pos + n..];
      Extend(bytes[n..]);
      pos := pos + |bytes|;
    }

    /** Takes everything from the cursor on. */
    method ReadToEnd() returns (bytes: Bytes)
      requires Valid()
      modifies this
      ensures Valid() && bytes == old(View()).Unread()
      ensures View() == old(View()).(pos := |old(data)|)
    {
      bytes := data[pos..];
      pos := |data|;
    }

    /** Becomes a cursor at the start of another vector. */
    method Become(vec: Cursor)
      requires Valid() && vec.Valid() && vec != this
      modifies this
      ensures Valid() && View() == old(vec.View()).(pos := 0)
    {
      data, pos, cap := vec.data, 0, vec.cap;
    }

    /** One read from a socket into the free part of the vector, which is given some if it has
        none. A refused read answers None. */
    method TryRead(supply: seq<ReadResult>) returns (r: Result<Option<nat>>, rest: seq<ReadResult>)
      requires Valid()
      modifies this
      ensures Valid()
      ensures supply == [] || !supply[0].Data? ==>
                View() == old(View()).Offered() && rest == (if supply == [] then [] else supply[1..])
                && r == if supply == [] || supply[0].ReadBlocks? then Ok(None) else Err(Io(supply[0].errno))
      ensures supply != [] && supply[0].Data? ==>
                var f := Fill(old(View()), supply);
                View() == f.buf && rest == f.rest && r == Ok(Some(|f.taken|))
    {
      if |data| == cap {
        Reserve(READ_CHUNK);
      }
      rest := if supply == [] then [] else supply[1..];
      if supply == [] || supply[0].ReadBlocks? {
        r := Ok(None);
      } else if supply[0].ReadFails? {
        r := Err(Io(supply[0].errno));
      } else {
        var bytes := supply[0].bytes;
        var n := Min(cap - |data|, |bytes|);
        data := data + bytes[..n];
        if n < |bytes| {
          rest := [Data(bytes[n..])] + rest;
        }
        r := Ok(Some(n));
      }
    }

    /** One write of everything from the cursor on to a socket; the cursor moves past what it took.
        A refused write answers None. */
    method TryWrite(answer: WriteResult) returns (r: Result<Option<nat>>)
      requires Valid()
      modifies this
      ensures Valid()
      ensures !answer.Takes? ==> View() == old(View())
      ensures answer.WriteBlocks? ==> r == Ok(None)
      ensures answer.WriteFails? ==> r == Err(Io(answer.errno))
      ensures answer.Takes? ==>
                var n := Min(answer.count, |old(View()).Unread()|);
                View() == old(View()).(pos := old(pos) + n) && r == Ok(Some(n))
    {
      match answer
      case WriteBlocks => r := Ok(None);
      case WriteFails(errno) => r := Err(Io(errno));
      case Takes(count) =>
        var n := Min(count, |data| - pos);
        pos := pos + n;
        r := Ok(Some(n));
    }
  }
}
