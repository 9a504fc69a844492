/** The four suits, in the order Spades, Hearts, Diamonds, Clubs. */
module Suits {
  import opened Indexing
  import Text

  datatype Suit = Spades | Hearts | Diamonds | Clubs

  /** The variants in declaration order. */
  const Variants: seq<Suit> := [Spades, Hearts, Diamonds, Clubs]

  const UpperCaseValues: seq<string> := ["S", "H", "D", "C"]

  const LowerCaseValues: seq<string> := ["s", "h", "d", "c"]

  /** The declared discriminant: a suit's index is its position in the
      declaration. */
  function ToIndex(s: Suit): (i: Byte)
    ensures i <= 3 && Variants[i] == s
  {
    match s
    case Spades => 0
    case Hearts => 1
    case Diamonds => 2
    case Clubs => 3
  }

  /** The variant whose discriminant is `i`; any other byte falls back to
      the default variant, Spades, instead of failing. */
  function FromIndex(i: Byte): (s: Suit)
    ensures i <= 3 ==> ToIndex(s) == i
    ensures i > 3 ==> s == Spades
  {
    match i
    case 0 => Spades
    case 1 => Hearts
    case 2 => Diamonds
    case 3 => Clubs
    case _ => Spades
  }

  /** The maximum index as the Rust library reports it: 12, the rank's value.
      It bounds every suit's index, but it is not the least such bound. */
  function MaximumIndex(): (m: Byte)
    ensures forall s: Suit :: ToIndex(s) <= m
    ensures m > |UpperCaseValues| - 1
  {
    12
  }

  /** The maximum index the four suits call for: the last position of the
      token tables, and the largest index that comes back unchanged from a
      trip through its suit. */
  function IntendedMaximumIndex(): (m: Byte)
    ensures m + 1 == |UpperCaseValues| == |LowerCaseValues|
    ensures forall i: Byte :: i <= m ==> ToIndex(FromIndex(i)) == i
  {
    3
  }

  /** The capability with the maximum the Rust library reports. */
  const AsWrittenCapability: Indexable<Suit> := Indexable(FromIndex, ToIndex, MaximumIndex())

  /** The capability with the intended maximum; the rest of the model uses
      this one. The formatter reads only `fromIndex` and `toIndex`, which the
      two capabilities share. */
  const Capability: Indexable<Suit> := Indexable(FromIndex, ToIndex, IntendedMaximumIndex())

  /** The default suit is the one with index 0. */
  function Default(): (s: Suit)
    ensures ToIndex(s) == 0
  {
    Spades
  }

  lemma ToIndexRoundTrip(s: Suit)
    ensures FromIndex(ToIndex(s)) == s
  {
  }

  /** The reported maximum admits indices 4 through 12, none of which comes
      back from a trip through a suit, so the as-written capability is not a
      bijection onto `[0, maximumIndex]`. */
  lemma MaximumIndexAdmitsUnmappedIndices()
    ensures forall i: Byte :: 4 <= i <= MaximumIndex() ==> ToIndex(FromIndex(i)) != i
    ensures !Dense(AsWrittenCapability)
  {
    assert AsWrittenCapability.toIndex(AsWrittenCapability.fromIndex(4)) == 0;
  }

  /** The two capabilities differ only in their maximum, which neither
      formatting nor parsing reads, so both give the same text and values. */
  lemma CapabilitiesAgree(fmt: Text.IndexableFormat, s: Suit, t: string)
    ensures Text.Parse(fmt, AsWrittenCapability, t) == Text.Parse(fmt, Capability, t)
    ensures ToIndex(s) < |fmt.values| ==>
      Text.Format(fmt, AsWrittenCapability, s) == Text.Format(fmt, Capability, s)
  {
  }

  lemma CapabilityIsDense()
    ensures Dense(Capability)
  {
  }

  /** Both tables hold four distinct one-letter tokens. */
  lemma TablesDistinct()
    ensures |UpperCaseValues| == |LowerCaseValues| == 4
    ensures Text.Distinct(UpperCaseValues) && Text.Distinct(LowerCaseValues)
    ensures forall i :: 0 <= i < 4 ==> |UpperCaseValues[i]| == |LowerCaseValues[i]| == 1
  {
  }

  /** A formatter over the upper-case table: built from it unchanged,
      and with four distinct tokens; the round trip is `ShippedFormatsRoundTrip`. */
  function NewUpperCaseFormat(): (f: Text.IndexableFormat)
    ensures Text.Valid(f) && f.values == UpperCaseValues
    ensures Text.Distinct(f.values)
  {
    TablesDistinct();
    Text.New(UpperCaseValues)
  }

  /** A formatter over the lower-case table: built from it unchanged,
      and with four distinct tokens; the round trip is `ShippedFormatsRoundTrip`. */
  function NewLowerCaseFormat(): (f: Text.IndexableFormat)
    ensures Text.Valid(f) && f.values == LowerCaseValues
    ensures Text.Distinct(f.values)
  {
    TablesDistinct();
    Text.New(LowerCaseValues)
  }

  /** The formatter behind `ToString`, built once from the upper-case table. */
  const DefaultFormat: Text.IndexableFormat := Text.New(UpperCaseValues)

  /** A formatter built from any four-token table of distinct tokens parses
      every suit's token back to that suit, and formats every suit it parses
      back to the string it was given. */
  lemma FormatRoundTrip(values: seq<string>, s: Suit, t: string)
    requires |values| == 4 && Text.Distinct(values)
    ensures Text.Parse(Text.New(values), Capability, Text.Format(Text.New(values), Capability, s)) == Text.Ok(s)
    ensures Text.Parse(Text.New(values), Capability, t).Ok? ==>
      Text.Format(Text.New(values), Capability, Text.Parse(Text.New(values), Capability, t).value) == t
  {
    var fmt := Text.New(values);
    CapabilityIsDense();
    Text.ParseFormat(fmt, Capability, s);
    if Text.Parse(fmt, Capability, t).Ok? {
      Text.FormatParse(fmt, Capability, t);
    }
  }

  /** Both shipped tables round-trip every suit. */
  lemma ShippedFormatsRoundTrip(s: Suit)
    ensures Text.Parse(NewUpperCaseFormat(), Capability, Text.Format(NewUpperCaseFormat(), Capability, s)) == Text.Ok(s)
    ensures Text.Parse(NewLowerCaseFormat(), Capability, Text.Format(NewLowerCaseFormat(), Capability, s)) == Text.Ok(s)
  {
    TablesDistinct();
    FormatRoundTrip(UpperCaseValues, s, "");
    FormatRoundTrip(LowerCaseValues, s, "");
  }

  /** The suit's text as displayed: its upper-case token, which the
      upper-case formatter parses back to the same suit. */
  function ToString(s: Suit): (t: string)
    ensures Text.Parse(DefaultFormat, Capability, t) == Text.Ok(s)
  {
    ShippedFormatsRoundTrip(s);
    Text.Format(DefaultFormat, Capability, s)
  }

  lemma FormatExamples()
    ensures Text.Format(NewUpperCaseFormat(), Capability, Spades) == "S"
    ensures Text.Format(NewUpperCaseFormat(), Capability, Diamonds) == "D"
    ensures Text.Format(NewLowerCaseFormat(), Capability, Spades) == "s"
    ensures Text.Format(NewLowerCaseFormat(), Capability, Diamonds) == "d"
    ensures Text.Parse(NewUpperCaseFormat(), Capability, "S") == Text.Ok(Spades)
    ensures Text.Parse(NewUpperCaseFormat(), Capability, "D") == Text.Ok(Diamonds)
    ensures Text.Parse(NewLowerCaseFormat(), Capability, "s") == Text.Ok(Spades)
    ensures Text.Parse(NewLowerCaseFormat(), Capability, "d") == Text.Ok(Diamonds)
    ensures ToString(Spades) == "S" && ToString(Diamonds) == "D"
  {
    ShippedFormatsRoundTrip(Spades);
    ShippedFormatsRoundTrip(Diamonds);
  }
}
