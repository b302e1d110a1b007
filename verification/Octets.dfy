/** Octet strings, and the chunk lists a response body is produced from. */
module Octets {
  type Octet = i: int | 0 <= i < 256

  /** What one call of a producer's `more` yields before the producer is exhausted:
      an empty result is how a producer says that it has no more. */
  type Chunk = c: seq<Octet> | c != [] witness [0]

  function Flatten(chunks: seq<Chunk>): seq<Octet> {
    if chunks == [] then [] else chunks[0] + Flatten(chunks[1..])
  }

  function Concat(parts: seq<seq<Octet>>): seq<Octet> {
    if parts == [] then [] else Concat(parts[..|parts| - 1]) + parts[|parts| - 1]
  }

  lemma ConcatOne(part: seq<Octet>)
    ensures Concat([part]) == part
  {
    assert [part][..0] == [];
    assert [] + part == part;
  }

  lemma Associative<T>(a: seq<T>, b: seq<T>, c: seq<T>)
    ensures (a + b) + c == a + (b + c)
  {
  }

  function Min(a: int, b: int): int { if a <= b then a else b }

  function Max(a: int, b: int): int { if a >= b then a else b }

  /** Python's slice bound in `data [:n]`, for a non-empty or empty `data` and any sign of `n`. */
  function SliceBound(data: seq<Octet>, n: int): (k: nat)
    ensures k <= |data|
    ensures n >= 0 ==> k == Min(n, |data|)
    ensures n < 0 && data != [] ==> k < |data|
  {
    if n >= 0 then Min(n, |data|) else Max(0, |data| + n)
  }
}
