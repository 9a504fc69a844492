# Card index and text formatting, in Dafny

This project models the index-and-text core of a small Rust library for a
52-card deck. Every domain type (rank, suit, card) has an *indexable*
capability. It maps each value to a dense byte index and maps any byte back
to a value. It also reports the type's largest index. The generic
`IndexableFormat` pairs a fixed table of tokens with a reverse lookup from
token to position. It formats a value as the token at the value's index. It
parses a token by looking it up and turning the position back into a value.
Each type ships an upper-case and a lower-case table.

Modules follow the source files:

- `Indexing` (`indexable.rs`): the `Byte` type, the `Indexable<T>` record of
  `fromIndex`, `toIndex` and `maximumIndex`, and the `Dense` predicate. `Dense`
  says the capability is a bijection onto `[0, maximumIndex]`. The Rust trait
  becomes a record of total functions, because each implementor is one value
  of that record.
- `Text` (`text.rs`): `IndexableFormat` as an immutable pair of a token
  sequence and a `map<string, Byte>`, with `New`, `Format`, `Fmt` and `Parse`.
  `Result<T, ()>` stands for the Rust library's result type.
- `Ranks`, `Suits`, `Cards` (`rank.rs`, `suit.rs`, `card.rs`): the three
  implementors, their token tables, their formatter constructors and their
  default formatter.

Behaviour kept as the code has it:

- `fromIndex` never fails. An out-of-range byte gives Ace for ranks and
  Spades for suits, the `num_enum` default. For cards, the rank is always
  `i % 13` and the suit falls back to Spades from 52 on.
- `Format` requires the value's index to be inside the table. The Rust types
  do not tie the table length to the domain, and an index past the end
  panics. No length check happens at construction.
- Tokens are not required to be distinct. A repeated token parses to its
  last position, because later inserts overwrite earlier ones. The round trip
  `parse(format(v)) == Ok(v)` is proved only for distinct tables.
- The suit's `maximum_index` returns 12, not 3. See "Findings".

The card tables are written as four rows of thirteen tokens, one row per
suit, joined together. They hold the same 52 tokens in the same order as the
Rust library's single array literal.

## Model

| member | source | states |
|---|---|---|
| `Text.BuildLookup` | cards/src/text.rs:22-26 | after inserting the first n positions in order, every token among them is a key, and every key maps to the last of those positions that holds it |
| `Text.New` | cards/src/text.rs:21-29 | the formatter keeps the table unchanged; its lookup has every token of the table as a key and no other key; a repeated token maps to its last position; at most 256 tokens, since positions are bytes |
| `Text.Format` | cards/src/text.rs:33-35 | needs the value's index to lie inside the table, which the source leaves unchecked; the token produced is always a key of the lookup, so parsing it succeeds |
| `Text.Fmt` | cards/src/text.rs:37-39 | emits exactly the token `Format` gives, after the text already written; for a built formatter the emitted text is a lookup key, and with distinct tokens it parses back to any value that survives the trip through its index |
| `Text.Parse` | cards/src/text.rs:41-46 | succeeds exactly when the string is a key, which for a built formatter means it occurs in the table (exact, case-sensitive); on success the value is `fromIndex` of the last position holding the string; otherwise `Err(())`, never a default value |
| `Text.ParseFormat` | cards/src/text.rs:21-46 | with pairwise-distinct tokens, an in-table index and `fromIndex(toIndex(v)) == v`, parsing the formatted token gives `Ok(v)` |
| `Text.FormatParse` | cards/src/text.rs:24-45 | if parsing succeeds and every in-table index survives `toIndex(fromIndex(i))`, formatting the parsed value gives back the parsed string, duplicates or not |
| `Text.EarlierDuplicateShadowed` | cards/src/text.rs:24-26 | when a token occurs at positions i < j, the lookup never answers i for it |
| `Indexing.DenseIsBijection` | cards/src/indexable.rs:1-10 | a dense capability gives distinct values distinct indices and distinct in-range indices distinct values |
| `Ranks.ToIndex` | cards/src/rank.rs:66-68 | a rank's index is its declared discriminant, its position in the declaration Ace..King (lines 11-26), at most 12 |
| `Ranks.FromIndex` | cards/src/rank.rs:62-64 | for i ≤ 12 the result has index i; for i > 12 it is Ace, the declared default |
| `Ranks.MaximumIndex` | cards/src/rank.rs:70-72 | one less than the table length, and every index up to it survives a trip through its rank |
| `Ranks.Default` | cards/src/rank.rs:49-53 | the default rank is the one with index 0 |
| `Ranks.ToIndexRoundTrip` | cards/src/rank.rs:61-68 | every rank comes back from a trip through its index |
| `Ranks.CapabilityIsDense` | cards/src/rank.rs:61-73 | the rank capability is a bijection between the 13 ranks and 0..12 |
| `Ranks.TablesDistinct` | cards/src/rank.rs:28-45 | both tables have 13 pairwise-distinct tokens and differ exactly at A, J, Q and K |
| `Ranks.FormatRoundTrip` | cards/src/rank.rs:37-46 | the formatter `New` builds from any table of 13 distinct tokens parses each rank's token back to it, and formats each parsed rank back to the parsed string |
| `Ranks.ShippedFormatsRoundTrip` | cards/src/rank.rs:37-46 | the upper- and lower-case formatters round-trip every rank |
| `Ranks.NewUpperCaseFormat` | cards/src/rank.rs:38-40 | a built formatter whose table is exactly the upper-case table, holding 13 distinct tokens; the round trip itself is `ShippedFormatsRoundTrip` |
| `Ranks.NewLowerCaseFormat` | cards/src/rank.rs:42-46 | a built formatter whose table is exactly the lower-case table, holding 13 distinct tokens; the round trip itself is `ShippedFormatsRoundTrip` |
| `Ranks.ToString` | cards/src/rank.rs:55-59 | the displayed text is a token the default upper-case formatter parses back to the same rank |
| `Ranks.FormatExamples` | cards/src/rank.rs:79-105 | Ace formats as "A"/"a", Ten as "10" in both tables, each parses back, and the displayed text of Ace and Ten is "A" and "10" |
| `Suits.ToIndex` | cards/src/suit.rs:52-54 | a suit's index is its declared discriminant, its position in Spades, Hearts, Diamonds, Clubs (lines 11-17), at most 3 |
| `Suits.FromIndex` | cards/src/suit.rs:48-50 | for i ≤ 3 the result has index i; for i > 3 it is Spades, the declared default |
| `Suits.MaximumIndex` | cards/src/suit.rs:56-58 | the reported maximum bounds every suit's index but exceeds the last table position |
| `Suits.IntendedMaximumIndex` | cards/src/suit.rs:56-58 | the corrected maximum: one less than the table length, and every index up to it survives a trip through its suit |
| `Suits.MaximumIndexAdmitsUnmappedIndices` | cards/src/suit.rs:47-58 | no index from 4 to the reported maximum 12 survives a trip through its suit, so the as-written capability is not dense |
| `Suits.CapabilitiesAgree` | cards/src/suit.rs:47-58 | formatting and parsing give the same results under the as-written and the corrected suit capability |
| `Suits.Default` | cards/src/suit.rs:35-39 | the default suit is the one with index 0 |
| `Suits.ToIndexRoundTrip` | cards/src/suit.rs:47-54 | every suit comes back from a trip through its index |
| `Suits.CapabilityIsDense` | cards/src/suit.rs:47-58 | with the corrected maximum, the suit capability is a bijection between the 4 suits and 0..3 |
| `Suits.TablesDistinct` | cards/src/suit.rs:19-31 | both tables hold four pairwise-distinct one-letter tokens |
| `Suits.FormatRoundTrip` | cards/src/suit.rs:25-32 | the formatter `New` builds from any table of 4 distinct tokens parses each suit's token back to it, and formats each parsed suit back to the parsed string |
| `Suits.ShippedFormatsRoundTrip` | cards/src/suit.rs:25-32 | the upper- and lower-case formatters round-trip every suit |
| `Suits.NewUpperCaseFormat` | cards/src/suit.rs:26-28 | a built formatter whose table is exactly the upper-case table, holding 4 distinct tokens; the round trip itself is `ShippedFormatsRoundTrip` |
| `Suits.NewLowerCaseFormat` | cards/src/suit.rs:30-32 | a built formatter whose table is exactly the lower-case table, holding 4 distinct tokens; the round trip itself is `ShippedFormatsRoundTrip` |
| `Suits.ToString` | cards/src/suit.rs:41-45 | the displayed text is a token the default upper-case formatter parses back to the same suit |
| `Suits.FormatExamples` | cards/src/suit.rs:65-91 | Spades formats as "S"/"s" and Diamonds as "D"/"d", each parses back, and the displayed text is "S" and "D" |
| `Cards.ToIndex` | cards/src/card.rs:70-72 | `suit * 13 + rank` never exceeds 51, so the byte arithmetic cannot overflow |
| `Cards.FromIndex` | cards/src/card.rs:66-68 | for i ≤ 51 the result has index i; for every byte the rank has index i % 13; beyond 51 the suit is Spades |
| `Cards.MaximumIndex` | cards/src/card.rs:74-76 | one less than the table length (51), and every index up to it survives a trip through its card |
| `Cards.Default` | cards/src/card.rs:6-10 | the derived default card (default rank, default suit) has index 0 |
| `Cards.ToIndexRoundTrip` | cards/src/card.rs:65-72 | every card comes back from a trip through its index |
| `Cards.CapabilityIsDense` | cards/src/card.rs:65-77 | the card capability is a bijection between the 52 cards and 0..51 |
| `Cards.IndexOrderIsSuitMajor` | cards/src/card.rs:70-72 | card indices order cards by suit first, then by rank |
| `Cards.FromIndexBeyondDeck` | cards/src/card.rs:66-68 | an index past 51 still gives a card, with rank from i % 13 and suit Spades; 52 gives the Ace of Spades |
| `Cards.TablesComposed` | cards/src/card.rs:12-17 | each upper-case and lower-case card token is the rank token at i % 13 followed by the suit token at i / 13 |
| `Cards.ComposedDistinct` | cards/src/card.rs:12-17 | a 52-token table whose entry i is rank token i % 13 followed by suit token i / 13 has distinct tokens whenever the rank tokens are distinct and the suit tokens are distinct single letters |
| `Cards.TablesDistinct` | cards/src/card.rs:12-55 | both card tables hold 52 pairwise-distinct tokens |
| `Cards.CreateFullDeck` | cards/src/card.rs:31-41 | 52 cards, suits outside and ranks inside; entry i is `FromIndex(i)` and has index i; no card repeats and every card occurs |
| `Cards.FormatRoundTrip` | cards/src/card.rs:43-56 | the formatter `New` builds from any table of 52 distinct tokens parses each card's token back to it, and formats each parsed card back to the parsed string |
| `Cards.ShippedFormatsRoundTrip` | cards/src/card.rs:43-56 | the upper- and lower-case formatters round-trip every card |
| `Cards.NewUpperCaseFormat` | cards/src/card.rs:44-46 | a built formatter whose table is exactly the upper-case table, holding 52 distinct tokens; the round trip itself is `ShippedFormatsRoundTrip` |
| `Cards.NewLowerCaseFormat` | cards/src/card.rs:49-56 | a built formatter whose table is exactly the lower-case table, holding 52 distinct tokens; the round trip itself is `ShippedFormatsRoundTrip` |
| `Cards.ToString` | cards/src/card.rs:59-63 | the displayed text is a token the default upper-case formatter parses back to the same card |
| `Cards.LowerCaseRejectsUpperCase` | cards/src/card.rs:49-55 | the lower-case formatter rejects every upper-case card token |
| `Cards.FormatExamples` | cards/src/card.rs:128-165 | the Ace of Spades formats as "AS"/"as" and the Ten of Diamonds as "10D"/"10d"; the displayed text is "AS" and "10D" |
| `Cards.UpperCaseParseExamples` | cards/src/card.rs:133-148 | the upper-case formatter parses "AS" and "10D" to the Ace of Spades and the Ten of Diamonds |
| `Cards.LowerCaseParseExamples` | cards/src/card.rs:150-165 | the lower-case formatter parses "as" and "10d" to those cards and rejects "AS" |

## Left out

- The one-time `lazy_static` set-up of each default formatter is concurrency plumbing. Each default formatter is a constant built by `New` from the upper-case table.
- Writing into `std::fmt::Formatter` is I/O. `Fmt` appends the token to a string, and a failing writer is not modelled.
- `HashMap` internals are left out. The lookup is a `map<string, Byte>`.
- `Box<dyn Format<T>>` and lifetimes are left out. A formatter is a plain value, and the domain type is chosen by passing its capability to `Format` and `Parse`.
- The `f as u8` truncation in `new` is not modelled. `New` requires at most 256 tokens instead, and every shipped table has 52 or fewer.
- The `num_enum` and derive macros are left out. `FromIndex` and `ToIndex` are written out, and the derived `Hash`, `Ord` and `Debug` have no counterpart.
- `Card::new` is the datatype constructor `Card`.
- Immutability after `new` has no member. Formatters are immutable values, and no operation returns a changed one.
- The claim that format and parse use only the capability's operations has no member. `Format` and `Parse` receive nothing about the type except its `Indexable` record.
- The Rust library's tests of `create_full_deck` and `from_index` (card.rs:97-125) are covered by the ensures of `Cards.CreateFullDeck`.

## Findings

| source | as written | input that shows it | evidently intended | confidence | as-written member | corrected member |
|---|---|---|---|---|---|---|
| cards/src/suit.rs:56-58 | `maximum_index` returns 12 | index 4 is at most the reported maximum, yet `to_index(from_index(4))` is 0 | 3, the last suit index and last table position | high; not executed | `Suits.MaximumIndexAdmitsUnmappedIndices` | `Suits.IntendedMaximumIndex` |

`Suits.Capability`, which the suit formatters use, carries the corrected
maximum. `Suits.AsWrittenCapability` carries the reported one. No formatter
operation reads the maximum, and `Suits.CapabilitiesAgree` proves that
formatting and parsing give the same results under either.
