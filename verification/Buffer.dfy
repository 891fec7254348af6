/** The growable byte buffer of a connection: one block of storage, whose readable part lies between two indexes. */
module Buffers {
  import opened Bytes

  const CHEAP_PREPEND: nat := 8
  const INITIAL_SIZE: nat := 1024
  const EXTRA_SIZE: nat := 65536

  /**
   * Room for `len` more bytes does not break the bound on the storage: it is there, or moving the data down makes it,
   * or growing stays within the bound.
   */
  predicate Affordable(readerIndex: nat, writerIndex: nat, size: nat, peak: nat, len: nat) {
    || writerIndex + len <= size
    || size - writerIndex + readerIndex >= len + CHEAP_PREPEND
    || writerIndex + len <= Max(CHEAP_PREPEND + INITIAL_SIZE, 2 * peak + 7)
  }

  class Buffer {
    var storage: array<Byte>
    var readerIndex: nat
    var writerIndex: nat
    /** The largest number of readable bytes this buffer has ever held. */
    ghost var peak: nat

    ghost predicate Indexed()
      reads this
    {
      && readerIndex <= writerIndex <= storage.Length
      && CHEAP_PREPEND + INITIAL_SIZE <= storage.Length
    }

    /** The indexes are in order, and the storage is bounded by what the buffer once had to hold. */
    ghost predicate Valid()
      reads this
      ensures Valid() ==> Indexed()
    {
      && Indexed()
      && writerIndex - readerIndex <= peak
      && storage.Length <= Max(CHEAP_PREPEND + INITIAL_SIZE, 2 * peak + 7)
    }

    ghost function Contents(): (s: seq<Byte>)
      requires Indexed()
      reads this, storage
      ensures |s| == writerIndex - readerIndex
    {
      storage[readerIndex..writerIndex]
    }

    constructor ()
      ensures Valid() && fresh(storage)
      ensures Contents() == [] && peak == 0 && readerIndex == 8 && storage.Length == 1032
    {
      storage := new Byte[CHEAP_PREPEND + INITIAL_SIZE];
      readerIndex, writerIndex, peak := CHEAP_PREPEND, CHEAP_PREPEND, 0;
    }

    function ReadableBytes(): (n: nat)
      requires Indexed()
      reads this, storage
      ensures n == |Contents()|
    {
      writerIndex - readerIndex
    }

    function WritableBytes(): nat
      requires Indexed()
      reads this
    {
      storage.Length - writerIndex
    }

    function PrependableBytes(): nat
      reads this
    {
      readerIndex
    }

    /** The first `len` readable bytes. */
    function Peek(len: nat): (bytes: seq<Byte>)
      requires Indexed() && len <= |Contents()|
      reads this, storage
      ensures bytes == Contents()[..len]
    {
      storage[readerIndex..readerIndex + len]
    }

    method RetrieveAll()
      requires Valid()
      modifies this
      ensures Valid() && storage == old(storage) && peak == old(peak)
      ensures Contents() == [] && readerIndex == CHEAP_PREPEND
    {
      readerIndex := CHEAP_PREPEND;
      writerIndex := CHEAP_PREPEND;
    }

    method Retrieve(len: nat)
      requires Valid() && len <= |Contents()|
      modifies this
      ensures Valid() && storage == old(storage) && peak == old(peak)
      ensures Contents() == old(Contents())[len..]
    {
      if len < ReadableBytes() {
        readerIndex := readerIndex + len;
      } else {
        RetrieveAll();
      }
    }

    /**
     * Copies the readable bytes down to the start of the storage, first byte first, although the two ranges may
     * overlap.
     */
    method MoveDown(readable: nat)
      requires Indexed() && readable == |Contents()| && CHEAP_PREPEND < readerIndex
      modifies storage
      ensures storage[CHEAP_PREPEND..CHEAP_PREPEND + readable] == old(Contents())
    {
      ghost var shift := readerIndex - CHEAP_PREPEND;
      var i := 0;
      while i < readable
        invariant 0 <= i <= readable
        invariant forall k :: CHEAP_PREPEND <= k < CHEAP_PREPEND + i ==> storage[k] == old(storage[k + shift])
        invariant forall k :: readerIndex + i <= k < storage.Length ==> storage[k] == old(storage[k])
      {
        storage[CHEAP_PREPEND + i] := storage[readerIndex + i];
        i := i + 1;
      }
    }

    /**
     * Makes room for `len` more bytes when the tail is too short: by growing the storage, or by moving the data down.
     */
    method MakeSpace(len: nat)
      requires Indexed() && WritableBytes() < len
      modifies this, storage
      ensures Indexed() && len <= WritableBytes()
      ensures Contents() == old(Contents()) && peak == old(peak)
      ensures readerIndex == old(readerIndex) || readerIndex == CHEAP_PREPEND
      ensures fresh(storage) || storage == old(storage)
      ensures old(storage.Length) <= storage.Length <= Max(old(storage.Length), |Contents()| + 2 * len + 7)
      ensures storage.Length == if old(WritableBytes() + PrependableBytes()) < len + CHEAP_PREPEND
                                then old(writerIndex) + len else old(storage.Length)
    {
      if WritableBytes() + PrependableBytes() < len + CHEAP_PREPEND {
        var previous := storage;
        storage := new Byte[writerIndex + len](
          i requires 0 <= i < writerIndex + len reads this, previous => if i < previous.Length then previous[i] else 0);
      } else {
        assert CHEAP_PREPEND < readerIndex;
        var readable := ReadableBytes();
        MoveDown(readable);
        readerIndex := CHEAP_PREPEND;
        writerIndex := readerIndex + readable;
      }
    }

    method EnsureWritableBytes(len: nat)
      requires Indexed()
      modifies this, storage
      ensures Indexed() && len <= WritableBytes()
      ensures Contents() == old(Contents()) && peak == old(peak)
      ensures readerIndex == old(readerIndex) || readerIndex == CHEAP_PREPEND
      ensures fresh(storage) || storage == old(storage)
      ensures old(storage.Length) <= storage.Length <= Max(old(storage.Length), |Contents()| + 2 * len + 7)
      ensures old(Valid()) ==>
                (Valid() <==> Affordable(old(readerIndex), old(writerIndex), old(storage.Length), peak, len))
    {
      if WritableBytes() < len {
        MakeSpace(len);
      }
    }

    /** Copies `data` into the storage from index `at` on. */
    method Store(at: nat, data: seq<Byte>)
      requires at + |data| <= storage.Length
      modifies storage
      ensures storage[at..at + |data|] == data
      ensures forall k :: 0 <= k < at || at + |data| <= k < storage.Length ==> storage[k] == old(storage[k])
    {
      forall i | 0 <= i < |data| {
        storage[at + i] := data[i];
      }
    }

    /** Counts `len` bytes already stored behind the readable ones as readable. */
    method HasWritten(len: nat, ghost data: seq<Byte>)
      requires Indexed() && len <= WritableBytes() && |Contents()| <= peak
      requires data == storage[writerIndex..writerIndex + len]
      requires storage.Length <= Max(CHEAP_PREPEND + INITIAL_SIZE, 2 * Max(peak, |Contents()| + len) + 7)
      modifies this
      ensures Valid() && storage == old(storage) && readerIndex == old(readerIndex)
      ensures Contents() == old(Contents()) + data
      ensures writerIndex == old(writerIndex) + len
      ensures peak == Max(old(peak), |Contents()|)
    {
      writerIndex := writerIndex + len;
      peak := Max(peak, writerIndex - readerIndex);
    }

    method Append(data: seq<Byte>)
      requires Valid()
      modifies this, storage
      ensures Valid() && (fresh(storage) || storage == old(storage))
      ensures Contents() == old(Contents()) + data
      ensures readerIndex == old(readerIndex) || readerIndex == CHEAP_PREPEND
      ensures peak == Max(old(peak), |Contents()|)
    {
      hide Affordable;
      EnsureWritableBytes(|data|);
      label stored:
      Store(writerIndex, data);
      assert Contents() == old@stored(Contents());
      HasWritten(|data|, data);
    }

    method Prepend(data: seq<Byte>)
      requires Valid() && |data| <= PrependableBytes()
      modifies this, storage
      ensures Valid() && storage == old(storage)
      ensures Contents() == data + old(Contents())
      ensures peak == Max(old(peak), |Contents()|)
    {
      readerIndex := readerIndex - |data|;
      Store(readerIndex, data);
      peak := Max(peak, writerIndex - readerIndex);
      assert storage[readerIndex + |data|..writerIndex] == old(Contents());
      assert Contents() == storage[readerIndex..readerIndex + |data|] + storage[readerIndex + |data|..writerIndex];
    }

    /**
     * The kernel's scatter read of `n` bytes: into the tail of the storage first, what does not fit into `extrabuf`.
     */
    method ScatterRead(incoming: seq<Byte>, n: nat, extrabuf: array<Byte>)
      requires Indexed() && n <= |incoming| && n <= WritableBytes() + extrabuf.Length && extrabuf != storage
      modifies storage, extrabuf
      ensures Contents() == old(Contents())
      ensures var first := Min(n, WritableBytes());
              && storage[writerIndex..writerIndex + first] == incoming[..first]
              && extrabuf[..n - first] == incoming[first..n]
    {
      var first := Min(n, WritableBytes());
      Store(writerIndex, incoming[..first]);
      forall i | first <= i < n {
        extrabuf[i - first] := incoming[i];
      }
    }

    /**
     * Reads from a descriptor into the tail of the storage and, beyond it, an overflow area. The kernel's answer is a
     * parameter: `n` is the result of the call, negative for an error, and `incoming` the bytes the descriptor holds.
     */
    method ReadFd(incoming: seq<Byte>, n: int)
      requires Valid()
      requires n <= |incoming| && n <= WritableBytes() + EXTRA_SIZE
      modifies this, storage
      ensures Valid() && (fresh(storage) || storage == old(storage))
      ensures Contents() == old(Contents()) + if n < 0 then [] else incoming[..n]
      ensures peak == Max(old(peak), |Contents()|)
    {
      hide Contents;
      var writable := WritableBytes();
      var extrabuf := new Byte[EXTRA_SIZE];
      if n >= 0 {
        ScatterRead(incoming, n, extrabuf);
      }
      if n < 0 {
      } else if n <= writable {
        HasWritten(n, incoming[..n]);
      } else {
        ghost var before := Contents();
        HasWritten(writable, incoming[..writable]);
        Append(extrabuf[..n - writable]);
        AppendInTwoParts(before, incoming, writable, n);
      }
    }
  }

  /** A call that breaks the bound: one byte more than a new buffer has room for, of which none is ever stored. */
  method ReserveOneTooMany() returns (b: Buffer)
    ensures b.Indexed() && b.Contents() == [] && !b.Valid()
  {
    b := new Buffer();
    b.EnsureWritableBytes(INITIAL_SIZE + 1);
  }
}
