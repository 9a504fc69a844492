/** The thirteen ranks, Ace low through King high. */
module Ranks {
  import opened Indexing
  import Text

  datatype Rank = Ace | Two | Three | Four | Five | Six | Seven | Eight | Nine | Ten | Jack | Queen | King

  /** The variants in declaration order. */
  const Variants: seq<Rank> := [Ace, Two, Three, Four, Five, Six, Seven, Eight, Nine, Ten, Jack, Queen, King]

  const UpperCaseValues: seq<string> := ["A", "2", "3", "4", "5", "6", "7", "8", "9", "10", "J", "Q", "K"]

  const LowerCaseValues: seq<string> := ["a", "2", "3", "4", "5", "6", "7", "8", "9", "10", "j", "q", "k"]

  /** The declared discriminant: a rank's index is its position in the
      declaration, so the largest is `MaximumIndex()`. */
  function ToIndex(r: Rank): (i: Byte)
    ensures i <= 12 && Variants[i] == r
  {
    match r
    case Ace => 0
    case Two => 1
    case Three => 2
    case Four => 3
    case Five => 4
    case Six => 5
    case Seven => 6
    case Eight => 7
    case Nine => 8
    case Ten => 9
    case Jack => 10
    case Queen => 11
    case King => 12
  }

  /** The variant whose discriminant is `i`; any other byte falls back to
      the default variant, Ace, instead of failing. */
  function FromIndex(i: Byte): (r: Rank)
    ensures i <= 12 ==> ToIndex(r) == i
    ensures i > 12 ==> r == Ace
  {
    match i
    case 0 => Ace
    case 1 => Two
    case 2 => Three
    case 3 => Four
    case 4 => Five
    case 5 => Six
    case 6 => Seven
    case 7 => Eight
    case 8 => Nine
    case 9 => Ten
    case 10 => Jack
    case 11 => Queen
    case 12 => King
    case _ => Ace
  }

  /** The last position of the token tables, and the largest index that
      comes back unchanged from a trip through its rank. */
  function MaximumIndex(): (m: Byte)
    ensures m + 1 == |UpperCaseValues| == |LowerCaseValues|
    ensures forall i: Byte :: i <= m ==> ToIndex(FromIndex(i)) == i
  {
    12
  }

  const Capability: Indexable<Rank> := Indexable(FromIndex, ToIndex, MaximumIndex())

  /** The default rank is the one with index 0. */
  function Default(): (r: Rank)
    ensures ToIndex(r) == 0
  {
    Ace
  }

  lemma ToIndexRoundTrip(r: Rank)
    ensures FromIndex(ToIndex(r)) == r
  {
  }

  lemma CapabilityIsDense()
    ensures Dense(Capability)
  {
  }

  /** Both tables hold thirteen distinct tokens, and they differ exactly at
      the letter ranks A, J, Q and K. */
  lemma TablesDistinct()
    ensures |UpperCaseValues| == |LowerCaseValues| == 13
    ensures Text.Distinct(UpperCaseValues) && Text.Distinct(LowerCaseValues)
    ensures forall i :: 0 <= i < 13 ==> (UpperCaseValues[i] != LowerCaseValues[i] <==> i == 0 || i >= 10)
  {
  }

  /** A formatter over the upper-case table: built from it unchanged,
      and with thirteen distinct tokens; the round trip is `ShippedFormatsRoundTrip`. */
  function NewUpperCaseFormat(): (f: Text.IndexableFormat)
    ensures Text.Valid(f) && f.values == UpperCaseValues
    ensures Text.Distinct(f.values)
  {
    TablesDistinct();
    Text.New(UpperCaseValues)
  }

  /** A formatter over the lower-case table: built from it unchanged,
      and with thirteen distinct tokens; the round trip is `ShippedFormatsRoundTrip`. */
  function NewLowerCaseFormat(): (f: Text.IndexableFormat)
    ensures Text.Valid(f) && f.values == LowerCaseValues
    ensures Text.Distinct(f.values)
  {
    TablesDistinct();
    Text.New(LowerCaseValues)
  }

  /** The formatter behind `ToString`, built once from the upper-case table. */
  const DefaultFormat: Text.IndexableFormat := Text.New(UpperCaseValues)

  /** A formatter built from any thirteen-token table of distinct tokens
      parses every rank's token back to that rank, and formats every rank it
      parses back to the string it was given. */
  lemma FormatRoundTrip(values: seq<string>, r: Rank, s: string)
    requires |values| == 13 && Text.Distinct(values)
    ensures Text.Parse(Text.New(values), Capability, Text.Format(Text.New(values), Capability, r)) == Text.Ok(r)
    ensures Text.Parse(Text.New(values), Capability, s).Ok? ==>
      Text.Format(Text.New(values), Capability, Text.Parse(Text.New(values), Capability, s).value) == s
  {
    var fmt := Text.New(values);
    CapabilityIsDense();
    Text.ParseFormat(fmt, Capability, r);
    if Text.Parse(fmt, Capability, s).Ok? {
      Text.FormatParse(fmt, Capability, s);
    }
  }

  /** Both shipped tables round-trip every rank. */
  lemma ShippedFormatsRoundTrip(r: Rank)
    ensures Text.Parse(NewUpperCaseFormat(), Capability, Text.Format(NewUpperCaseFormat(), Capability, r)) == Text.Ok(r)
    ensures Text.Parse(NewLowerCaseFormat(), Capability, Text.Format(NewLowerCaseFormat(), Capability, r)) == Text.Ok(r)
  {
    TablesDistinct();
    FormatRoundTrip(UpperCaseValues, r, "");
    FormatRoundTrip(LowerCaseValues, r, "");
  }

  /** The rank's text as displayed: its upper-case token, which the
      upper-case formatter parses back to the same rank. */
  function ToString(r: Rank): (s: string)
    ensures Text.Parse(DefaultFormat, Capability, s) == Text.Ok(r)
  {
    ShippedFormatsRoundTrip(r);
    Text.Format(DefaultFormat, Capability, r)
  }

  lemma FormatExamples()
    ensures Text.Format(NewUpperCaseFormat(), Capability, Ace) == "A"
    ensures Text.Format(NewUpperCaseFormat(), Capability, Ten) == "10"
    ensures Text.Format(NewLowerCaseFormat(), Capability, Ace) == "a"
    ensures Text.Format(NewLowerCaseFormat(), Capability, Ten) == "10"
    ensures Text.Parse(NewUpperCaseFormat(), Capability, "A") == Text.Ok(Ace)
    ensures Text.Parse(NewUpperCaseFormat(), Capability, "10") == Text.Ok(Ten)
    ensures Text.Parse(NewLowerCaseFormat(), Capability, "a") == Text.Ok(Ace)
    ensures Text.Parse(NewLowerCaseFormat(), Capability, "10") == Text.Ok(Ten)
    ensures ToString(Ace) == "A" && ToString(Ten) == "10"
  {
    ShippedFormatsRoundTrip(Ace);
    ShippedFormatsRoundTrip(Ten);
  }
}
