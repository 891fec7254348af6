/** A stream that is written in chunks, of each of which only a first part may arrive. */
module Chunks {
  import opened Bytes

  datatype Chunk = Chunk(text: seq<Byte>, taken: nat)

  predicate Fits(cs: seq<Chunk>) {
    forall i :: 0 <= i < |cs| ==> cs[i].taken <= |cs[i].text|
  }

  /** What was to be written, and what arrived. */
  function WholeOf(cs: seq<Chunk>): seq<Byte> {
    if cs == [] then [] else cs[0].text + WholeOf(cs[1..])
  }

  function TakenOf(cs: seq<Chunk>): seq<Byte>
    requires Fits(cs)
  {
    if cs == [] then [] else cs[0].text[..cs[0].taken] + TakenOf(cs[1..])
  }

  lemma {:induction false} PushChunk(cs: seq<Chunk>, c: Chunk)
    requires Fits(cs) && c.taken <= |c.text|
    ensures Fits(cs + [c])
    ensures WholeOf(cs + [c]) == WholeOf(cs) + c.text
    ensures TakenOf(cs + [c]) == TakenOf(cs) + c.text[..c.taken]
  {
    var longer := cs + [c];
    if cs == [] {
      assert longer[0] == c && longer[1..] == [];
    } else {
      assert longer[0] == cs[0] && longer[1..] == cs[1..] + [c];
      PushChunk(cs[1..], c);
      Associates(cs[0].text, WholeOf(cs[1..]), c.text);
      Associates(cs[0].text[..cs[0].taken], TakenOf(cs[1..]), c.text[..c.taken]);
    }
  }

  lemma Associates(a: seq<Byte>, b: seq<Byte>, c: seq<Byte>)
    ensures a + (b + c) == a + b + c
  {
  }

  predicate Complete(cs: seq<Chunk>) {
    forall i :: 0 <= i < |cs| ==> cs[i].taken == |cs[i].text|
  }

  predicate NothingTaken(cs: seq<Chunk>) {
    forall i :: 0 <= i < |cs| ==> cs[i].taken == 0
  }

  /** Behind a chunk that did not arrive to its end, nothing arrived. */
  predicate Unbroken(cs: seq<Chunk>) {
    cs == [] || if cs[0].taken == |cs[0].text| then Unbroken(cs[1..]) else NothingTaken(cs[1..])
  }

  lemma {:induction false} NothingOfNothing(cs: seq<Chunk>)
    requires Fits(cs) && NothingTaken(cs)
    ensures TakenOf(cs) == []
  {
    if cs != [] {
      NothingOfNothing(cs[1..]);
    }
  }

  lemma {:induction false} CompleteIsUnbroken(cs: seq<Chunk>)
    requires Complete(cs)
    ensures Fits(cs) && Unbroken(cs) && TakenOf(cs) == WholeOf(cs)
  {
    if cs != [] {
      CompleteIsUnbroken(cs[1..]);
      assert cs[0].text[..cs[0].taken] == cs[0].text;
    }
  }

  lemma {:induction false} UnbrokenIsPrefix(cs: seq<Chunk>)
    requires Fits(cs) && Unbroken(cs)
    ensures TakenOf(cs) <= WholeOf(cs)
  {
    if cs != [] {
      if cs[0].taken == |cs[0].text| {
        assert cs[0].text[..cs[0].taken] == cs[0].text;
        UnbrokenIsPrefix(cs[1..]);
      } else {
        NothingOfNothing(cs[1..]);
      }
    }
  }

  predicate SameSizes(cs: seq<Chunk>, ds: seq<Chunk>) {
    |cs| == |ds| && forall i :: 0 <= i < |cs| ==> |cs[i].text| == |ds[i].text| && cs[i].taken == ds[i].taken
  }

  function Zeros(n: nat): (z: seq<Byte>)
    ensures |z| == n && forall i :: 0 <= i < n ==> z[i] == 0
  {
    seq(n, i => 0)
  }

  lemma {:induction false} AllZeros(cs: seq<Chunk>) returns (ds: seq<Chunk>)
    requires Fits(cs)
    ensures SameSizes(cs, ds) && Fits(ds) && (forall i :: 0 <= i < |TakenOf(ds)| ==> TakenOf(ds)[i] == 0)
    ensures !NothingTaken(cs) ==> TakenOf(ds) != []
  {
    if cs == [] {
      ds := [];
    } else {
      var rest := AllZeros(cs[1..]);
      ds := [Chunk(Zeros(|cs[0].text|), cs[0].taken)] + rest;
      assert ds[1..] == rest;
    }
  }

  /** Texts of the same sizes for which a zero has arrived where a one was to be written. */
  lemma {:induction false} BrokenTexts(cs: seq<Chunk>) returns (ds: seq<Chunk>)
    requires Fits(cs) && !Unbroken(cs)
    ensures SameSizes(cs, ds) && Fits(ds) && !(TakenOf(ds) <= WholeOf(ds))
  {
    var c := cs[0];
    if c.taken == |c.text| {
      var rest := BrokenTexts(cs[1..]);
      ds := [c] + rest;
      assert ds[1..] == rest && c.text[..c.taken] == c.text;
      assert TakenOf(ds)[|c.text|..] == TakenOf(rest) && WholeOf(ds)[|c.text|..] == WholeOf(rest);
    } else {
      var rest := AllZeros(cs[1..]);
      var marked := Zeros(c.taken) + [1] + Zeros(|c.text| - c.taken - 1);
      ds := [Chunk(marked, c.taken)] + rest;
      assert ds[1..] == rest;
      assert WholeOf(ds)[c.taken] == 1 && TakenOf(ds)[c.taken] == TakenOf(rest)[0] == 0;
    }
  }

  /**
   * Whatever the texts are, what arrived is a prefix of what was to be written, exactly if nothing arrived behind a
   * chunk that did not arrive to its end.
   */
  lemma PrefixIffUnbroken(cs: seq<Chunk>)
    requires Fits(cs)
    ensures Unbroken(cs) <==> forall ds :: SameSizes(cs, ds) && Fits(ds) ==> TakenOf(ds) <= WholeOf(ds)
  {
    if Unbroken(cs) {
      forall ds | SameSizes(cs, ds) && Fits(ds)
        ensures TakenOf(ds) <= WholeOf(ds)
      {
        SizesDecide(cs, ds);
        UnbrokenIsPrefix(ds);
      }
    } else {
      var ds := BrokenTexts(cs);
    }
  }

  lemma {:induction false} SizesDecide(cs: seq<Chunk>, ds: seq<Chunk>)
    requires SameSizes(cs, ds)
    ensures Unbroken(cs) <==> Unbroken(ds)
  {
    if cs != [] {
      SizesDecide(cs[1..], ds[1..]);
    }
  }
}
