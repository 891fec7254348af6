/** The bounded append-only buffer of the logger. */
module FixedBuffers {
  import opened Bytes

  const LARGE_BUFFER: nat := 4000 * 1000

  /** What a buffer of this size holds after an append: a line that does not leave a byte free is dropped. */
  function Appended(size: nat, contents: seq<Byte>, line: seq<Byte>): (r: seq<Byte>)
    requires |contents| <= size
    ensures |r| <= size
  {
    if size - |contents| > |line| then contents + line else contents
  }

  class FixedBuffer {
    const data: array<Byte>
    var cur: nat

    ghost predicate Valid()
      reads this
    {
      cur <= data.Length
    }

    ghost function Contents(): seq<Byte>
      requires Valid()
      reads this, data
    {
      data[..cur]
    }

    constructor (size: nat)
      ensures Valid() && Contents() == [] && data.Length == size && fresh(data)
    {
      data := new Byte[size];
      cur := 0;
    }

    function Avail(): nat
      requires Valid()
      reads this
    {
      data.Length - cur
    }

    method Append(line: seq<Byte>)
      requires Valid()
      modifies this, data
      ensures Valid() && Contents() == Appended(data.Length, old(Contents()), line)
      ensures Contents() == if |old(Contents())| + |line| < data.Length then old(Contents()) + line else old(Contents())
    {
      if Avail() > |line| {
        forall i | 0 <= i < |line| {
          data[cur + i] := line[i];
        }
        cur := cur + |line|;
        assert data[..cur] == old(data[..cur]) + line;
      }
    }

    /** Counts bytes that were stored behind the contents directly. */
    method Add(len: nat)
      requires Valid() && len <= Avail()
      modifies this
      ensures Valid() && cur == old(cur) + len
      ensures Contents() == old(Contents()) + data[old(cur)..cur]
    {
      cur := cur + len;
    }

    method Reset()
      modifies this
      ensures Valid() && Contents() == []
    {
      cur := 0;
    }
  }
}
