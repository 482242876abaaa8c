/** Cards: suits, ranks, colour and the face label of a playing card. */
module Cards {

  // Suits, in the order of their numeric codes.
  const Hearts := 0
  const Spades := 1
  const Diamonds := 2
  const Clubs := 3

  // Ranks with a name; 2..10 are plain numbers.
  const Ace := 1
  const Jack := 11
  const Queen := 12
  const King := 13

  /** The identity of a card. Each (suit, rank) pair occurs once in a deal, so
      comparing identities is the same as comparing the card objects. */
  datatype CardId = CardId(suit: int, rank: int)

  /** A card: its identity and whether it currently lies face-up. */
  datatype Card = Card(suit: int, rank: int, faceUp: bool) {
    function Id(): CardId { CardId(suit, rank) }
  }

  /** The two cards are the same physical card (whatever their face-up flags say). */
  predicate Same(a: Card, b: Card) { a.Id() == b.Id() }

  /** One of the 52 canonical pairs. */
  predicate ValidId(id: CardId) { 0 <= id.suit < 4 && Ace <= id.rank <= King }

  predicate IsRedSuit(suit: int) { suit == Hearts || suit == Diamonds }

  /** "red" for Hearts and Diamonds, "black" for every other suit code. */
  function Color(c: Card): (r: string)
    ensures r == "red" || r == "black"
    ensures r == "red" <==> IsRedSuit(c.suit)
  {
    if c.suit == 0 || c.suit == 2 then "red" else "black"
  }

  /** Among the four real suits, colour alternates with the suit code: two suits
      have different colours exactly when their codes have different parity. */
  lemma ColorFollowsParity(a: Card, b: Card)
    requires 0 <= a.suit < 4 && 0 <= b.suit < 4
    ensures Color(a) != Color(b) <==> a.suit % 2 != b.suit % 2
  {
  }

  // ---------------------------------------------------------------------------
  // Decimal numerals, as printed by the standard formatter for an int.

  function DigitChar(d: nat): (ch: char)
    requires d < 10
    ensures '0' <= ch <= '9' && ch as int - '0' as int == d
  {
    ('0' as int + d) as char
  }

  predicate IsDigits(s: string) { forall i :: 0 <= i < |s| ==> '0' <= s[i] <= '9' }

  /** Decimal numeral of a natural number, most significant digit first, no leading zeros. */
  function NatToString(n: nat): (s: string)
    ensures |s| >= 1 && IsDigits(s)
    ensures |s| == 1 <==> n < 10
  {
    if n < 10 then [DigitChar(n)] else NatToString(n / 10) + [DigitChar(n % 10)]
  }

  /** Decimal numeral of an integer, with a leading '-' when negative. */
  function IntToString(n: int): (s: string)
    ensures |s| >= 1
    ensures n < 0 <==> s[0] == '-'
    ensures n >= 0 ==> IsDigits(s)
  {
    if n < 0 then "-" + NatToString(-n) else NatToString(n)
  }

  /** Reads back a string of decimal digits. */
  function ParseDigits(s: string): nat
    requires IsDigits(s)
  {
    if s == [] then 0 else ParseDigits(s[..|s| - 1]) * 10 + (s[|s| - 1] as int - '0' as int)
  }

  lemma {:induction false} ParseNatToString(n: nat)
    ensures ParseDigits(NatToString(n)) == n
  {
    if n >= 10 {
      var s := NatToString(n);
      assert s[..|s| - 1] == NatToString(n / 10);
      ParseNatToString(n / 10);
    }
  }

  /** Distinct integers print as distinct numerals. */
  lemma IntToStringInjective(a: int, b: int)
    requires IntToString(a) == IntToString(b)
    ensures a == b
  {
    if a < 0 && b < 0 {
      var sa, sb := NatToString(-a), NatToString(-b);
      assert sa == IntToString(a)[1..];
      assert sb == IntToString(b)[1..];
      NatToStringInjective(-a, -b);
    } else if a >= 0 && b >= 0 {
      NatToStringInjective(a, b);
    }
  }

  lemma NatToStringInjective(a: nat, b: nat)
    requires NatToString(a) == NatToString(b)
    ensures a == b
  {
    ParseNatToString(a);
    ParseNatToString(b);
  }

  // ---------------------------------------------------------------------------
  // Face labels.

  /** "A", "J", "Q", "K" for the named ranks, the decimal numeral otherwise. */
  function RankLabel(rank: int): (s: string)
    ensures |s| >= 1
  {
    if rank == Ace then "A"
    else if rank == Jack then "J"
    else if rank == Queen then "Q"
    else if rank == King then "K"
    else IntToString(rank)
  }

  /** Different ranks never share a label. */
  lemma RankLabelInjective(a: int, b: int)
    requires RankLabel(a) == RankLabel(b)
    ensures a == b
  {
    if a !in {Ace, Jack, Queen, King} && b !in {Ace, Jack, Queen, King} {
      IntToStringInjective(a, b);
    }
  }

  /** The suit symbol, looked up by suit code in the order Hearts, Spades, Diamonds, Clubs. */
  function SuitSymbol(suit: int): (ch: char)
    requires 0 <= suit < 4
  {
    ['\U{2665}', '\U{2660}', '\U{2666}', '\U{2663}'][suit]
  }

  /** The full label: rank label followed by the suit symbol. */
  function Label(c: Card): (s: string)
    requires 0 <= c.suit < 4
    ensures |s| >= 2 && s[|s| - 1] == SuitSymbol(c.suit)
  {
    RankLabel(c.rank) + [SuitSymbol(c.suit)]
  }

  /** The label identifies the card: two cards with one label are the same card. */
  lemma LabelIdentifies(a: Card, b: Card)
    requires 0 <= a.suit < 4 && 0 <= b.suit < 4
    requires Label(a) == Label(b)
    ensures Same(a, b)
  {
    var la, lb := Label(a), Label(b);
    assert la[..|la| - 1] == RankLabel(a.rank);
    assert lb[..|lb| - 1] == RankLabel(b.rank);
    RankLabelInjective(a.rank, b.rank);
  }

  /** The colour a label is printed in. */
  datatype Ink = RedInk | BlackInk | GrayInk

  /** What a card widget shows: the full label in red or black for a face-up card,
      the label in gray for a face-down card while face-down cards are unmasked,
      and nothing (in gray) otherwise. */
  function CardFace(c: Card, showDown: bool): (face: (string, Ink))
    requires 0 <= c.suit < 4
    ensures face.0 != "" <==> c.faceUp || showDown
    ensures face.0 != "" ==> face.0 == Label(c)
    ensures face.1 == RedInk <==> c.faceUp && Color(c) == "red"
    ensures face.1 == GrayInk <==> !c.faceUp
  {
    var lbl := Label(c);
    if c.faceUp then
      (lbl, if c.suit == Hearts || c.suit == Diamonds then RedInk else BlackInk)
    else if showDown then (lbl, GrayInk)
    else ("", GrayInk)
  }
}
