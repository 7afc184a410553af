/** Reading one entry out of a layer (internal/registry/registry.go): the in-place buffer fill. */
module Registry {
  import opened Base

  type Bytes = seq<bv8>

  datatype ReadOutcome = More | Eof | Failed

  /**
   The reader of archive/tar positioned on an entry. A read returns some of the bytes left, at least one while any are
   left; the end of the entry is reported with its last bytes or by the read after them.
   */
  class TarReader {
    const data: Bytes
    var pos: nat
    var ended: bool
    /** A read has failed. */
    ghost var failed: bool

    ghost predicate Valid()
      reads this
    {
      pos <= |data| && (ended ==> pos == |data|)
    }

    /** The bytes still to come, and the end-of-file report still to come. */
    ghost function Left(): nat
      requires Valid()
      reads this
    {
      |data| - pos + if ended then 0 else 1
    }

    constructor (data: Bytes)
      ensures Valid() && this.data == data && pos == 0 && !ended && !failed
    {
      this.data := data;
      pos := 0;
      ended := false;
      failed := false;
    }

    method Read(buffer: array<bv8>, offset: nat) returns (n: nat, outcome: ReadOutcome)
      requires Valid() && !ended && offset + (|data| - pos) <= buffer.Length
      modifies this, buffer
      ensures Valid() && pos == old(pos) + n
      ensures buffer[..offset] == old(buffer[..offset])
      ensures offset + n <= buffer.Length && buffer[offset..offset + n] == data[old(pos)..pos]
      ensures outcome == Eof <==> ended
      ensures outcome == More ==> n > 0
      ensures failed <==> old(failed) || outcome == Failed
    {
      var some: nat :| some <= |data| - pos && (pos < |data| ==> some > 0);
      n := some;
      forall i | 0 <= i < n {
        buffer[offset + i] := data[pos + i];
      }
      pos := pos + n;
      outcome := *;
      if outcome == Eof && pos < |data| { outcome := More; }
      if outcome == More && n == 0 { outcome := Eof; }
      ended := outcome == Eof;
      failed := failed || outcome == Failed;
    }
  }

  /**
   ExtractBytesFromTar: whatever the sizes of the reads, the loop ends, and unless one failed the buffer is the entry.
   */
  method ExtractBytesFromTar(reader: TarReader) returns (contents: Option<array<bv8>>)
    requires reader.Valid() && reader.pos == 0 && !reader.ended && !reader.failed
    modifies reader
    ensures contents.None? <==> reader.failed
    ensures contents.Some? ==> fresh(contents.value) && contents.value[..] == reader.data
  {
    var buffer := new bv8[|reader.data|];
    var offset := 0;
    var done := false;
    while !done
      invariant reader.Valid() && done == reader.ended && !reader.failed
      invariant offset == reader.pos
      invariant buffer[..offset] == reader.data[..offset]
      decreases reader.Left()
    {
      ghost var filled := offset;
      var n, outcome := reader.Read(buffer, offset);
      if outcome == Failed {
        return None;
      }
      offset := offset + n;
      assert buffer[..offset] == buffer[..filled] + buffer[filled..offset];
      assert reader.data[..offset] == reader.data[..filled] + reader.data[filled..offset];
      done := outcome == Eof;
    }
    assert buffer[..] == buffer[..offset];
    assert reader.data == reader.data[..offset];
    return Some(buffer);
  }
}
