/** Shared vocabulary: optional values and broker messages. */
module Prelude {
  datatype Option<+T> = None | Some(value: T)

  /** Go strings and byte slices are both byte sequences; one `char` stands for one byte. */
  type Bytes = string

  /** `broker.Message`. A nil header map reads like an empty one, so both are `map[]`. */
  datatype Message = Message(header: map<string, string>, body: Bytes)

  function Min(a: int, b: int): int {
    if a <= b then a else b
  }

  function Max(a: int, b: int): int {
    if a <= b then b else a
  }

  /** The two facts about products that the proofs need. */
  lemma Scale(a: int, b: int, c: int)
    requires a <= b && c >= 0
    ensures a * c <= b * c && (b + 1) * c == b * c + c
  {
  }

  lemma {:induction false} SubsetSize<T>(a: set<T>, b: set<T>)
    requires a <= b
    ensures |a| <= |b|
  {
    if a == {} {
    } else {
      var x :| x in a;
      SubsetSize(a - {x}, b - {x});
    }
  }

  lemma SmallerSet<T>(a: set<T>, b: set<T>, x: T)
    requires a <= b && x in b && x !in a
    ensures |a| < |b|
  {
    assert a <= b - {x};
    SubsetSize(a, b - {x});
  }

  /** The numbers above `lo`, up to `hi`. */
  function Above(lo: nat, hi: nat): (r: set<nat>)
    requires lo <= hi
    ensures forall x :: x in r <==> lo < x <= hi
    ensures |r| == hi - lo
    decreases hi - lo
  {
    if lo == hi then {} else Above(lo, hi - 1) + {hi}
  }
}
