/** Open files and multipart parts as the handlers use them: a byte content
    and the position the next read or write starts at (`io.ReadAll`,
    `io.Copy`, `Seek`). */
module Files {
  import opened Bytes

  /** The content after writing `data` at position `offset`: the bytes before
      the position, then `data`, then whatever of the old content lies past
      the written range. */
  function Overwrite(content: seq<byte>, offset: nat, data: seq<byte>): (r: seq<byte>)
    requires offset <= |content|
    ensures |r| == if offset + |data| < |content| then |content| else offset + |data|
    ensures r[..offset] == content[..offset] && r[offset..offset + |data|] == data
    ensures offset + |data| < |content| ==> r[offset + |data|..] == content[offset + |data|..]
    ensures offset == |content| ==> r == content + data
  {
    content[..offset] + data + (if offset + |data| < |content| then content[offset + |data|..] else [])
  }

  /** An open file or form part. */
  class Handle {
    var content: seq<byte>
    var offset: nat

    ghost predicate Valid()
      reads this
    {
      offset <= |content|
    }

    /** Opens `data` for reading and writing at position 0 (`os.Create` opens
        an empty file, `FormFile` the uploaded part). */
    constructor Open(data: seq<byte>)
      ensures Valid() && content == data && offset == 0
    {
      content, offset := data, 0;
    }

    /** The bytes a read would still return. */
    function Unread(): (r: seq<byte>)
      reads this
      requires Valid()
      ensures |r| == |content| - offset
      ensures content[..offset] + r == content
    {
      content[offset..]
    }

    /** `io.ReadAll`: every byte from the position to the end; afterwards the
        position is at end of stream. */
    method ReadAll() returns (data: seq<byte>)
      requires Valid()
      modifies this
      ensures Valid() && content == old(content) && offset == |content|
      ensures data == old(Unread())
      ensures Unread() == []
    {
      data := content[offset..];
      offset := |content|;
    }

    /** `Write`: stores `data` at the position and moves the position past it. */
    method Write(data: seq<byte>)
      requires Valid()
      modifies this
      ensures Valid()
      ensures content == Overwrite(old(content), old(offset), data)
      ensures offset == old(offset) + |data|
    {
      content := Overwrite(content, offset, data);
      offset := offset + |data|;
    }

    /** `Seek(0, io.SeekStart)`. */
    method Rewind()
      requires Valid()
      modifies this
      ensures Valid() && content == old(content) && offset == 0
      ensures Unread() == content
    {
      offset := 0;
    }
  }

  /** `io.Copy(dst, src)`: writes to `dst` every byte `src` has not yet
      returned, leaving `src` at end of stream. */
  method Copy(dst: Handle, src: Handle) returns (written: nat)
    requires dst.Valid() && src.Valid() && dst != src
    modifies dst, src
    ensures dst.Valid() && src.Valid()
    ensures written == |old(src.Unread())|
    ensures src.content == old(src.content) && src.Unread() == []
    ensures dst.content == Overwrite(old(dst.content), old(dst.offset), old(src.Unread()))
    ensures dst.offset == old(dst.offset) + written
  {
    var data := src.ReadAll();
    dst.Write(data);
    written := |data|;
  }
}
