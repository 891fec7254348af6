/** Bytes and the sequence operations shared by the other modules. */
module Bytes {

  type Byte = x: int | 0 <= x < 0x100

  datatype Option<+T> = None | Some(value: T)

  function Max(a: int, b: int): int {
    if a < b then b else a
  }

  function Min(a: int, b: int): int {
    if a < b then a else b
  }

  /** Concatenates a sequence of sequences. */
  function Flatten<T>(parts: seq<seq<T>>): seq<T> {
    if parts == [] then [] else parts[0] + Flatten(parts[1..])
  }

  lemma AppendInTwoParts<T>(before: seq<T>, s: seq<T>, i: nat, n: nat)
    requires i <= n <= |s|
    ensures (before + s[..i]) + s[i..n] == before + s[..n]
  {
  }
}
