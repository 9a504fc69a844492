/** The dense-index capability: every closed domain type converts to and
    from a single unsigned byte, and reports the largest index it uses. */
module Indexing {

  /** Rust's `u8`. */
  type Byte = x: int | 0 <= x < 256

  /** The three operations a domain type supplies. `fromIndex` is total over
      every byte (there is no error channel), `toIndex` always fits a byte,
      and `maximumIndex` is a constant of the type, not of any value. */
  datatype Indexable<!T> = Indexable(
    fromIndex: Byte -> T,
    toIndex: T -> Byte,
    maximumIndex: Byte)

  /** Every value survives a trip through its index. */
  ghost predicate ValuesRoundTrip<T(!new)>(ix: Indexable<T>) {
    forall v: T :: ix.fromIndex(ix.toIndex(v)) == v
  }

  /** Every index below `n` survives a trip through its value. */
  ghost predicate IndicesRoundTrip<T>(ix: Indexable<T>, n: nat) {
    forall i: Byte :: i < n ==> ix.toIndex(ix.fromIndex(i)) == i
  }

  /** The capability is a bijection between the domain and
      `[0, maximumIndex]`: what the domain types are meant to provide. */
  ghost predicate Dense<T(!new)>(ix: Indexable<T>) {
    && (forall v: T :: ix.toIndex(v) <= ix.maximumIndex)
    && ValuesRoundTrip(ix)
    && IndicesRoundTrip(ix, ix.maximumIndex + 1)
  }

  /** A dense capability gives no two values the same index, no two in-range
      indices the same value. */
  lemma DenseIsBijection<T(!new)>(ix: Indexable<T>)
    requires Dense(ix)
    ensures forall a: T, b: T :: ix.toIndex(a) == ix.toIndex(b) ==> a == b
    ensures forall i: Byte, j: Byte ::
      i <= ix.maximumIndex && j <= ix.maximumIndex && ix.fromIndex(i) == ix.fromIndex(j) ==> i == j
  {
  }
}
