/** A symbol-table formatter: a fixed table of tokens, position `i` naming the
    value whose index is `i`, plus a reverse lookup from token to position
    built once when the formatter is made. */
module Text {
  import opened Indexing

  /** `Ok(value)` or `Err(())`, the Rust library's `Result<T, ()>`. */
  datatype Result<T, E> = Ok(value: T) | Err(error: E)

  /** No token occurs twice in the table. */
  predicate Distinct(values: seq<string>) {
    forall i, j :: 0 <= i < j < |values| ==> values[i] != values[j]
  }

  /** Position `f` is the last of the first `n` positions that holds `s`. */
  ghost predicate LastAt(values: seq<string>, n: nat, s: string, f: int)
    requires n <= |values|
  {
    0 <= f < n && values[f] == s && forall j :: f < j < n ==> values[j] != s
  }

  /** The lookup after inserting positions `0 .. n-1` in order, each insert
      overwriting what an earlier equal token left behind. */
  function BuildLookup(values: seq<string>, n: nat): (lookup: map<string, Byte>)
    requires n <= |values| <= 256
    ensures forall f :: 0 <= f < n ==> values[f] in lookup
    ensures forall s :: s in lookup ==> LastAt(values, n, s, lookup[s])
    decreases n
  {
    if n == 0 then map[]
    else BuildLookup(values, n - 1)[values[n - 1] := n - 1]
  }

  /** The formatter's two fields. Nothing changes them once `New` returns. */
  datatype IndexableFormat = IndexableFormat(values: seq<string>, lookup: map<string, Byte>)

  /** The formatter was made by `New` from its own table. */
  predicate Valid(fmt: IndexableFormat) {
    |fmt.values| <= 256 && fmt.lookup == BuildLookup(fmt.values, |fmt.values|)
  }

  /** Builds a formatter from a table of at most 256 tokens (positions are
      stored as bytes). Every token of the table is a key, every key is a
      token of the table, and a repeated token maps to its last position. */
  function New(values: seq<string>): (fmt: IndexableFormat)
    requires |values| <= 256
    ensures Valid(fmt) && fmt.values == values
    ensures forall f :: 0 <= f < |values| ==> values[f] in fmt.lookup
    ensures forall s :: s in fmt.lookup ==> LastAt(values, |values|, s, fmt.lookup[s])
  {
    IndexableFormat(values, BuildLookup(values, |values|))
  }

  /** The token of `v`. The table must be long enough for `v`'s index, which
      the Rust library's types do not enforce (it panics otherwise). A token that
      `Format` produces is always one that `Parse` recognises. */
  function Format<T>(fmt: IndexableFormat, ix: Indexable<T>, v: T): (token: string)
    requires ix.toIndex(v) < |fmt.values|
    ensures Valid(fmt) ==> token in fmt.lookup
  {
    fmt.values[ix.toIndex(v)]
  }

  /** Writes the token of `v` after what the output already holds. The
      text written is a key of the lookup, and with distinct tokens it
      parses back to `v` whenever `v` survives the trip through its index. */
  function Fmt<T>(fmt: IndexableFormat, ix: Indexable<T>, v: T, written: string): (out: string)
    requires ix.toIndex(v) < |fmt.values|
    ensures out == written + Format(fmt, ix, v)
    ensures Valid(fmt) ==> out[|written|..] in fmt.lookup
    ensures Valid(fmt) && Distinct(fmt.values) && ix.fromIndex(ix.toIndex(v)) == v ==>
      Parse(fmt, ix, out[|written|..]) == Ok(v)
  {
    EmittedParses(fmt, ix, v);
    written + Format(fmt, ix, v)
  }

  /** `ParseFormat` under its premises, as one implication. */
  lemma EmittedParses<T>(fmt: IndexableFormat, ix: Indexable<T>, v: T)
    requires ix.toIndex(v) < |fmt.values|
    ensures Valid(fmt) && Distinct(fmt.values) && ix.fromIndex(ix.toIndex(v)) == v ==>
      Parse(fmt, ix, Format(fmt, ix, v)) == Ok(v)
  {
    if Valid(fmt) && Distinct(fmt.values) && ix.fromIndex(ix.toIndex(v)) == v {
      ParseFormat(fmt, ix, v);
    }
  }

  /** Exact, case-sensitive lookup of `s`. On a hit, the value is the one at
      the last position holding `s`; on a miss, `Err(())`, never a default. */
  function Parse<T>(fmt: IndexableFormat, ix: Indexable<T>, s: string): (r: Result<T, ()>)
    ensures r.Ok? <==> s in fmt.lookup
    ensures Valid(fmt) ==> (r.Ok? <==> s in fmt.values)
    ensures Valid(fmt) && r.Ok? ==>
      exists f :: LastAt(fmt.values, |fmt.values|, s, f) && r.value == ix.fromIndex(f)
  {
    if s in fmt.lookup then Ok(ix.fromIndex(fmt.lookup[s])) else Err(())
  }

  /** With distinct tokens, parsing what `Format` wrote gives back every
      value that itself survives the trip through its index. */
  lemma ParseFormat<T>(fmt: IndexableFormat, ix: Indexable<T>, v: T)
    requires Valid(fmt) && Distinct(fmt.values)
    requires ix.toIndex(v) < |fmt.values|
    requires ix.fromIndex(ix.toIndex(v)) == v
    ensures Parse(fmt, ix, Format(fmt, ix, v)) == Ok(v)
  {
  }

  /** Whenever parsing succeeds and every in-table index survives a trip
      through its value, formatting the result gives back the very string
      parsed, even when the table repeats a token. */
  lemma FormatParse<T>(fmt: IndexableFormat, ix: Indexable<T>, s: string)
    requires Valid(fmt)
    requires IndicesRoundTrip(ix, |fmt.values|)
    requires Parse(fmt, ix, s).Ok?
    ensures ix.toIndex(Parse(fmt, ix, s).value) < |fmt.values|
    ensures Format(fmt, ix, Parse(fmt, ix, s).value) == s
  {
  }

  /** When a token is repeated, its earlier position is never the one the
      lookup answers with. */
  lemma EarlierDuplicateShadowed(fmt: IndexableFormat, i: nat, j: nat)
    requires Valid(fmt)
    requires i < j < |fmt.values| && fmt.values[i] == fmt.values[j]
    ensures fmt.values[i] in fmt.lookup && fmt.lookup[fmt.values[i]] != i
  {
  }
}
