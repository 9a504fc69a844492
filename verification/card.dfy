/** A card is a rank and a suit; its index is suit-major, rank-minor. */
module Cards {
  import opened Indexing
  import Text
  import Ranks
  import Suits

  datatype Card = Card(rank: Ranks.Rank, suit: Suits.Suit)

  /** The upper-case card tokens, one row of thirteen per suit. */
  const UpperCaseValues: seq<string> :=
      ["AS", "2S", "3S", "4S", "5S", "6S", "7S", "8S", "9S", "10S", "JS", "QS", "KS"]
    + ["AH", "2H", "3H", "4H", "5H", "6H", "7H", "8H", "9H", "10H", "JH", "QH", "KH"]
    + ["AD", "2D", "3D", "4D", "5D", "6D", "7D", "8D", "9D", "10D", "JD", "QD", "KD"]
    + ["AC", "2C", "3C", "4C", "5C", "6C", "7C", "8C", "9C", "10C", "JC", "QC", "KC"]

  /** The lower-case card tokens, one row of thirteen per suit. */
  const LowerCaseValues: seq<string> :=
      ["as", "2s", "3s", "4s", "5s", "6s", "7s", "8s", "9s", "10s", "js", "qs", "ks"]
    + ["ah", "2h", "3h", "4h", "5h", "6h", "7h", "8h", "9h", "10h", "jh", "qh", "kh"]
    + ["ad", "2d", "3d", "4d", "5d", "6d", "7d", "8d", "9d", "10d", "jd", "qd", "kd"]
    + ["ac", "2c", "3c", "4c", "5c", "6c", "7c", "8c", "9c", "10c", "jc", "qc", "kc"]

  /** `suit * 13 + rank`, computed on bytes; it never exceeds 51, so the
      byte arithmetic cannot overflow. */
  function ToIndex(c: Card): (i: Byte)
    ensures i <= 51
  {
    Suits.ToIndex(c.suit) * 13 + Ranks.ToIndex(c.rank)
  }

  /** Rank `i % 13` and suit `i / 13`. Total on every byte: beyond 51 the
      suit falls back to Spades while the rank still follows `i % 13`. */
  function FromIndex(i: Byte): (c: Card)
    ensures i <= 51 ==> ToIndex(c) == i
    ensures Ranks.ToIndex(c.rank) == i % 13
    ensures i > 51 ==> c.suit == Suits.Spades
  {
    Card(Ranks.FromIndex(i % 13), Suits.FromIndex(i / 13))
  }

  /** The last position of the token tables, and the largest index that
      comes back unchanged from a trip through its card. */
  function MaximumIndex(): (m: Byte)
    ensures m + 1 == |UpperCaseValues| == |LowerCaseValues|
    ensures forall i: Byte :: i <= m ==> ToIndex(FromIndex(i)) == i
  {
    51
  }

  const Capability: Indexable<Card> := Indexable(FromIndex, ToIndex, MaximumIndex())

  /** The derived default: the default rank of the default suit. */
  function Default(): (c: Card)
    ensures ToIndex(c) == 0
  {
    Card(Ranks.Default(), Suits.Default())
  }

  lemma ToIndexRoundTrip(c: Card)
    ensures FromIndex(ToIndex(c)) == c
  {
  }

  lemma CapabilityIsDense()
    ensures Dense(Capability)
  {
    forall c: Card
      ensures Capability.fromIndex(Capability.toIndex(c)) == c
    {
      ToIndexRoundTrip(c);
    }
  }

  /** Index order is suit first, then rank. */
  lemma IndexOrderIsSuitMajor(a: Card, b: Card)
    ensures ToIndex(a) < ToIndex(b) <==>
      || Suits.ToIndex(a.suit) < Suits.ToIndex(b.suit)
      || (Suits.ToIndex(a.suit) == Suits.ToIndex(b.suit) && Ranks.ToIndex(a.rank) < Ranks.ToIndex(b.rank))
  {
  }

  /** Out-of-range indices give a card instead of failing: 52 is the Ace of
      Spades, and so is every multiple of 13 from 52 on. */
  lemma FromIndexBeyondDeck(i: Byte)
    requires i > MaximumIndex()
    ensures FromIndex(i) == Card(Ranks.FromIndex(i % 13), Suits.Spades)
    ensures i % 13 == 0 ==> FromIndex(i) == Card(Ranks.Ace, Suits.Spades)
  {
  }

  /** Every token is the rank's token followed by the suit's, in both
      tables. */
  lemma TablesComposed(i: int)
    requires 0 <= i < 52
    ensures UpperCaseValues[i] == Ranks.UpperCaseValues[i % 13] + Suits.UpperCaseValues[i / 13]
    ensures LowerCaseValues[i] == Ranks.LowerCaseValues[i % 13] + Suits.LowerCaseValues[i / 13]
  {
    var s, r := i / 13, i % 13;
    assert i == s * 13 + r;
    assert s == 0 || s == 1 || s == 2 || s == 3;
    assert r == 0 || r == 1 || r == 2 || r == 3 || r == 4 || r == 5 || r == 6
      || r == 7 || r == 8 || r == 9 || r == 10 || r == 11 || r == 12;
  }

  /** A token ending in a one-letter suffix splits back into its parts. */
  lemma SplitSuffix(t: string, prefix: string, suffix: string)
    requires t == prefix + suffix && |suffix| == 1
    ensures t[|t| - 1] == suffix[0] && t[..|t| - 1] == prefix
  {
  }

  /** Tokens composed from a table of distinct rank tokens and a table of
      distinct one-letter suit tokens are distinct. */
  lemma ComposedDistinct(cards: seq<string>, ranks: seq<string>, suits: seq<string>)
    requires |cards| == 52 && |ranks| == 13 && |suits| == 4
    requires Text.Distinct(ranks) && Text.Distinct(suits)
    requires forall k :: 0 <= k < 4 ==> |suits[k]| == 1
    requires forall k :: 0 <= k < 52 ==> cards[k] == ranks[k % 13] + suits[k / 13]
    ensures Text.Distinct(cards)
  {
    forall i, j | 0 <= i < j < 52
      ensures cards[i] != cards[j]
    {
      SplitSuffix(cards[i], ranks[i % 13], suits[i / 13]);
      SplitSuffix(cards[j], ranks[j % 13], suits[j / 13]);
      if i / 13 != j / 13 {
        assert suits[i / 13][0] != suits[j / 13][0];
      } else {
        assert i % 13 != j % 13;
        assert ranks[i % 13] != ranks[j % 13];
      }
    }
  }

  /** Both tables hold 52 distinct tokens. */
  lemma TablesDistinct()
    ensures |UpperCaseValues| == |LowerCaseValues| == 52
    ensures Text.Distinct(UpperCaseValues) && Text.Distinct(LowerCaseValues)
  {
    Ranks.TablesDistinct();
    Suits.TablesDistinct();
    forall k | 0 <= k < 52
      ensures UpperCaseValues[k] == Ranks.UpperCaseValues[k % 13] + Suits.UpperCaseValues[k / 13]
      ensures LowerCaseValues[k] == Ranks.LowerCaseValues[k % 13] + Suits.LowerCaseValues[k / 13]
    {
      TablesComposed(k);
    }
    ComposedDistinct(UpperCaseValues, Ranks.UpperCaseValues, Suits.UpperCaseValues);
    ComposedDistinct(LowerCaseValues, Ranks.LowerCaseValues, Suits.LowerCaseValues);
  }

  /** The 52 cards, suits in index order outside, ranks in index order
      inside: entry `i` is `FromIndex(i)`, its index is `i`, no card occurs
      twice and every card occurs. */
  method CreateFullDeck() returns (deck: seq<Card>)
    ensures |deck| == 52
    ensures forall i :: 0 <= i < 52 ==> deck[i] == FromIndex(i) && ToIndex(deck[i]) == i
    ensures forall i, j :: 0 <= i < j < 52 ==> deck[i] != deck[j]
    ensures forall c: Card :: c in deck
  {
    deck := seq(52, _ => Default());
    var index := 0;
    var suit := 0;
    while suit < 4
      invariant 0 <= suit <= 4 && index == suit * 13
      invariant |deck| == 52
      invariant forall k :: 0 <= k < index ==> deck[k] == FromIndex(k)
    {
      var rank := 0;
      while rank < 13
        invariant 0 <= rank <= 13 && index == suit * 13 + rank
        invariant |deck| == 52
        invariant forall k :: 0 <= k < index ==> deck[k] == FromIndex(k)
      {
        assert index % 13 == rank && index / 13 == suit;
        deck := deck[index := Card(Ranks.FromIndex(rank), Suits.FromIndex(suit))];
        index := index + 1;
        rank := rank + 1;
      }
      suit := suit + 1;
    }
    forall c: Card
      ensures c in deck
    {
      ToIndexRoundTrip(c);
      assert deck[ToIndex(c)] == c;
    }
  }

  /** A formatter over the upper-case table: built from it unchanged,
      and with 52 distinct tokens; the round trip is `ShippedFormatsRoundTrip`. */
  function NewUpperCaseFormat(): (f: Text.IndexableFormat)
    ensures Text.Valid(f) && f.values == UpperCaseValues
    ensures Text.Distinct(f.values)
  {
    TablesDistinct();
    Text.New(UpperCaseValues)
  }

  /** A formatter over the lower-case table: built from it unchanged,
      and with 52 distinct tokens; the round trip is `ShippedFormatsRoundTrip`. */
  function NewLowerCaseFormat(): (f: Text.IndexableFormat)
    ensures Text.Valid(f) && f.values == LowerCaseValues
    ensures Text.Distinct(f.values)
  {
    TablesDistinct();
    Text.New(LowerCaseValues)
  }

  /** The formatter behind `ToString`, built once from the upper-case table. */
  const DefaultFormat: Text.IndexableFormat := Text.New(UpperCaseValues)

  /** A formatter built from any 52-token table of distinct tokens parses
      every card's token back to that card, and formats every card it parses
      back to the string it was given. */
  lemma FormatRoundTrip(values: seq<string>, c: Card, s: string)
    requires |values| == 52 && Text.Distinct(values)
    ensures Text.Parse(Text.New(values), Capability, Text.Format(Text.New(values), Capability, c)) == Text.Ok(c)
    ensures Text.Parse(Text.New(values), Capability, s).Ok? ==>
      Text.Format(Text.New(values), Capability, Text.Parse(Text.New(values), Capability, s).value) == s
  {
    var fmt := Text.New(values);
    CapabilityIsDense();
    Text.ParseFormat(fmt, Capability, c);
    if Text.Parse(fmt, Capability, s).Ok? {
      Text.FormatParse(fmt, Capability, s);
    }
  }

  /** Both shipped tables round-trip every card. */
  lemma ShippedFormatsRoundTrip(c: Card)
    ensures Text.Parse(NewUpperCaseFormat(), Capability, Text.Format(NewUpperCaseFormat(), Capability, c)) == Text.Ok(c)
    ensures Text.Parse(NewLowerCaseFormat(), Capability, Text.Format(NewLowerCaseFormat(), Capability, c)) == Text.Ok(c)
  {
    TablesDistinct();
    FormatRoundTrip(UpperCaseValues, c, "");
    FormatRoundTrip(LowerCaseValues, c, "");
  }

  /** The card's text as displayed: its upper-case token, which the
      upper-case formatter parses back to the same card. */
  function ToString(c: Card): (s: string)
    ensures Text.Parse(DefaultFormat, Capability, s) == Text.Ok(c)
  {
    ShippedFormatsRoundTrip(c);
    Text.Format(DefaultFormat, Capability, c)
  }

  /** Parsing is case-sensitive: no upper-case card token is recognised by
      the lower-case formatter. */
  lemma LowerCaseRejectsUpperCase(k: int)
    requires 0 <= k < 52
    ensures Text.Parse(NewLowerCaseFormat(), Capability, UpperCaseValues[k]).Err?
  {
    var t := UpperCaseValues[k];
    TablesComposed(k);
    SplitSuffix(t, Ranks.UpperCaseValues[k % 13], Suits.UpperCaseValues[k / 13]);
    forall j | 0 <= j < 52
      ensures LowerCaseValues[j] != t
    {
      TablesComposed(j);
      SplitSuffix(LowerCaseValues[j], Ranks.LowerCaseValues[j % 13], Suits.LowerCaseValues[j / 13]);
      var a, b := k / 13, j / 13;
      assert a == 0 || a == 1 || a == 2 || a == 3;
      assert b == 0 || b == 1 || b == 2 || b == 3;
    }
  }

  lemma FormatExamples()
    ensures Text.Format(NewUpperCaseFormat(), Capability, Card(Ranks.Ace, Suits.Spades)) == "AS"
    ensures Text.Format(NewUpperCaseFormat(), Capability, Card(Ranks.Ten, Suits.Diamonds)) == "10D"
    ensures Text.Format(NewLowerCaseFormat(), Capability, Card(Ranks.Ace, Suits.Spades)) == "as"
    ensures Text.Format(NewLowerCaseFormat(), Capability, Card(Ranks.Ten, Suits.Diamonds)) == "10d"
    ensures ToString(Card(Ranks.Ace, Suits.Spades)) == "AS" && ToString(Card(Ranks.Ten, Suits.Diamonds)) == "10D"
  {
    assert ToIndex(Card(Ranks.Ace, Suits.Spades)) == 0;
    assert ToIndex(Card(Ranks.Ten, Suits.Diamonds)) == 35;
    assert UpperCaseValues[0] == "AS" && UpperCaseValues[35] == "10D";
    assert LowerCaseValues[0] == "as" && LowerCaseValues[35] == "10d";
  }

  lemma UpperCaseParseExamples()
    ensures Text.Parse(NewUpperCaseFormat(), Capability, "AS") == Text.Ok(Card(Ranks.Ace, Suits.Spades))
    ensures Text.Parse(NewUpperCaseFormat(), Capability, "10D") == Text.Ok(Card(Ranks.Ten, Suits.Diamonds))
  {
    FormatExamples();
    ShippedFormatsRoundTrip(Card(Ranks.Ace, Suits.Spades));
    ShippedFormatsRoundTrip(Card(Ranks.Ten, Suits.Diamonds));
  }

  lemma LowerCaseParseExamples()
    ensures Text.Parse(NewLowerCaseFormat(), Capability, "as") == Text.Ok(Card(Ranks.Ace, Suits.Spades))
    ensures Text.Parse(NewLowerCaseFormat(), Capability, "10d") == Text.Ok(Card(Ranks.Ten, Suits.Diamonds))
    ensures Text.Parse(NewLowerCaseFormat(), Capability, "AS").Err?
  {
    FormatExamples();
    ShippedFormatsRoundTrip(Card(Ranks.Ace, Suits.Spades));
    ShippedFormatsRoundTrip(Card(Ranks.Ten, Suits.Diamonds));
    LowerCaseRejectsUpperCase(0);
  }
}
