/** Deck: the 52-card deck, its shuffle and the initial deal. */
module Deck {
  import opened Cards
  import opened Piles

  /** The deck as built, suit by suit (Hearts first) and within a suit from Ace
      to King, every card face-down. */
  function NewDeck(): (d: seq<Card>)
    ensures |d| == 52
  {
    seq(52, i requires 0 <= i < 52 => Card(i / 13, i % 13 + 1, false))
  }

  /** Builds the deck with the two nested loops of the Go code. */
  method BuildDeck() returns (deck: seq<Card>)
    ensures deck == NewDeck()
  {
    deck := [];
    for s := 0 to 4
      invariant deck == NewDeck()[..13 * s]
    {
      for r := 1 to 14
        invariant deck == NewDeck()[..13 * s + r - 1]
      {
        assert NewDeck()[13 * s + r - 1] == Card(s, r, false);
        deck := deck + [Card(s, r, false)];
      }
    }
  }

  predicate DistinctIds(s: seq<Card>)
  {
    forall i, j :: 0 <= i < j < |s| ==> s[i].Id() != s[j].Id()
  }

  predicate Occurs(s: seq<Card>, id: CardId)
  {
    exists i :: 0 <= i < |s| && s[i].Id() == id
  }

  /** A pile without repeated identities holds each of its identities once. */
  lemma {:induction false} IdsOfDistinct(s: seq<Card>, id: CardId)
    requires DistinctIds(s)
    ensures Ids(s)[id] == if Occurs(s, id) then 1 else 0
  {
    if s != [] {
      var n := |s| - 1;
      var p, last := s[..n], s[n];
      assert s == p + [last];
      assert DistinctIds(p);
      IdsOfDistinct(p, id);
      IdsSnoc(p, last);
      OccursSnoc(p, last, id);
    }
  }

  lemma IdsSnoc(p: seq<Card>, x: Card)
    ensures Ids(p + [x]) == Ids(p) + multiset{x.Id()}
  {
    assert IdSeq(p + [x]) == IdSeq(p) + [x.Id()];
  }

  lemma OccursSnoc(p: seq<Card>, x: Card, id: CardId)
    ensures Occurs(p + [x], id) <==> Occurs(p, id) || x.Id() == id
  {
    var s := p + [x];
    if Occurs(p, id) {
      var i :| 0 <= i < |p| && p[i].Id() == id;
      assert s[i] == p[i];
    }
    if x.Id() == id {
      assert s[|p|] == x;
    }
    if Occurs(s, id) {
      var i :| 0 <= i < |s| && s[i].Id() == id;
      if i < |p| { assert p[i] == s[i]; }
    }
  }

  /** The deck holds each of the 52 canonical (suit, rank) pairs exactly once and
      nothing else, all face-down. */
  lemma NewDeckCanonical(id: CardId)
    ensures Ids(NewDeck())[id] == if ValidId(id) then 1 else 0
    ensures AllFaceDown(NewDeck())
  {
    var d := NewDeck();
    forall i, j | 0 <= i < j < 52 ensures d[i].Id() != d[j].Id() {
      assert i == 13 * (i / 13) + i % 13 && j == 13 * (j / 13) + j % 13;
    }
    IdsOfDistinct(d, id);
    if ValidId(id) {
      var k := 13 * id.suit + id.rank - 1;
      assert d[k].Id() == id;
    } else if Occurs(d, id) {
      var i :| 0 <= i < 52 && d[i].Id() == id;
      assert ValidId(d[i].Id());
    }
  }

  // ---------------------------------------------------------------------------
  // The shuffle: for i from n-1 down to 1, swap position i with a random
  // position picks[k] in 0..i, where k = n-1-i counts the steps taken.

  /** The random choices a shuffle of n cards may make. */
  predicate ValidPicks(n: nat, picks: seq<int>)
  {
    |picks| == (if n == 0 then 0 else n - 1) &&
    forall k :: 0 <= k < |picks| ==> 0 <= picks[k] <= n - 1 - k
  }

  function Swap(s: seq<Card>, i: nat, j: nat): (r: seq<Card>)
    requires i < |s| && j < |s|
    ensures |r| == |s|
  {
    s[i := s[j]][j := s[i]]
  }

  /** The deck after the first k swaps of the shuffle. */
  function ShuffleSteps(deck: seq<Card>, picks: seq<int>, k: nat): (r: seq<Card>)
    requires ValidPicks(|deck|, picks) && k <= |picks|
    ensures |r| == |deck|
  {
    if k == 0 then deck
    else Swap(ShuffleSteps(deck, picks, k - 1), |deck| - k, picks[k - 1])
  }

  function Shuffled(deck: seq<Card>, picks: seq<int>): seq<Card>
    requires ValidPicks(|deck|, picks)
  {
    ShuffleSteps(deck, picks, |picks|)
  }

  /** The Go code's shuffle loop, in place on a sequence. */
  method Shuffle(deck: seq<Card>, picks: seq<int>) returns (r: seq<Card>)
    requires ValidPicks(|deck|, picks)
    ensures r == Shuffled(deck, picks)
  {
    r := deck;
    var i := |deck| - 1;
    ghost var k := 0;
    while i > 0
      invariant i == |deck| - 1 - k && k <= |picks|
      invariant |deck| > 0 ==> i >= 0
      invariant r == ShuffleSteps(deck, picks, k)
    {
      var j := picks[|deck| - 1 - i];
      r := r[i := r[j]][j := r[i]];
      i := i - 1;
      k := k + 1;
    }
  }

  lemma SwapKeepsIds(s: seq<Card>, i: nat, j: nat)
    requires i < |s| && j < |s|
    ensures Ids(Swap(s, i, j)) == Ids(s)
  {
    var t1 := s[i := s[j]];
    IdsUpdate(s, i, s[j]);
    var a, b := multiset{s[i].Id()}, multiset{s[j].Id()};
    assert Ids(t1) + a == Ids(s) + b;
    IdsUpdate(t1, j, s[i]);
    assert t1[j] == s[j];
    assert Swap(s, i, j) == t1[j := s[i]];
    var x, y := Ids(Swap(s, i, j)), Ids(s);
    assert x + b == y + b;
    forall id ensures x[id] == y[id] {
      assert (x + b)[id] == x[id] + b[id];
      assert (y + b)[id] == y[id] + b[id];
    }
  }

  lemma SwapKeepsFaceDown(s: seq<Card>, i: nat, j: nat)
    requires i < |s| && j < |s|
    requires AllFaceDown(s)
    ensures AllFaceDown(Swap(s, i, j))
  {
  }

  /** Shuffling only rearranges: the same identities, still all face-down. */
  lemma {:induction false} ShuffleStepsPermutes(deck: seq<Card>, picks: seq<int>, k: nat)
    requires ValidPicks(|deck|, picks) && k <= |picks|
    ensures Ids(ShuffleSteps(deck, picks, k)) == Ids(deck)
    ensures AllFaceDown(deck) ==> AllFaceDown(ShuffleSteps(deck, picks, k))
  {
    if k > 0 {
      var prev, i, j := ShuffleSteps(deck, picks, k - 1), |deck| - k, picks[k - 1];
      assert 0 <= j <= |deck| - 1 - (k - 1);
      assert ShuffleSteps(deck, picks, k) == Swap(prev, i, j);
      ShuffleStepsPermutes(deck, picks, k - 1);
      SwapKeepsIds(prev, i, j);
      if AllFaceDown(deck) {
        SwapKeepsFaceDown(prev, i, j);
      }
    }
  }

  // ---------------------------------------------------------------------------
  // The deal.

  /** Number of cards dealt to the columns before column c: 0+1+...+c. */
  function Tri(c: nat): (t: nat)
    ensures t >= c
  {
    if c == 0 then 0 else Tri(c - 1) + c
  }

  /** The c+1 cards column c receives, the last of them face-up, the rest face-down. */
  function DealColumn(deck: seq<Card>, col: nat): (r: seq<Card>)
    requires col < 7 && |deck| >= Tri(7)
  {
    assert Tri(col) + col + 1 == Tri(col + 1) <= Tri(7) by {
      if col < 6 { assert Tri(col + 1) <= Tri(7) by { TriMonotone(col + 1, 7); } }
    }
    seq(col + 1, row requires 0 <= row <= col => deck[Tri(col) + row].(faceUp := row == col))
  }

  lemma {:induction false} TriMonotone(a: nat, b: nat)
    requires a <= b
    ensures Tri(a) <= Tri(b)
  {
    if a < b { TriMonotone(a, b - 1); }
  }

  /** The tableau after dealing: column c extended by DealColumn(deck, c). */
  function DealTableau(tableau: seq<seq<Card>>, deck: seq<Card>): (t: seq<seq<Card>>)
    requires |tableau| == 7 && |deck| >= Tri(7)
    ensures |t| == 7
  {
    seq(7, c requires 0 <= c < 7 => tableau[c] + DealColumn(deck, c))
  }

  /** Column c of a fresh deal holds c+1 cards of which only the last is face-up. */
  lemma DealColumnShape(deck: seq<Card>, col: nat)
    requires col < 7 && |deck| >= Tri(7)
    ensures |DealColumn(deck, col)| == col + 1
    ensures forall row :: 0 <= row <= col ==>
      (DealColumn(deck, col)[row].faceUp <==> row == col)
    ensures FaceDownPrefix(DealColumn(deck, col))
  {
  }

  /** Column c is dealt the deck's cards from position Tri(c) up to Tri(c + 1). */
  lemma DealColumnIds(deck: seq<Card>, col: nat)
    requires col < 7 && |deck| >= Tri(7)
    ensures Tri(col + 1) <= Tri(7)
    ensures Ids(DealColumn(deck, col)) == Ids(deck[Tri(col)..Tri(col + 1)])
  {
    TriMonotone(col + 1, 7);
    var a, b := Tri(col), Tri(col + 1);
    assert b == a + col + 1;
    var run := deck[a..b];
    forall i | 0 <= i < col + 1 ensures Same(DealColumn(deck, col)[i], run[i]) {
      assert run[i] == deck[a + i];
    }
    IdsPointwise(DealColumn(deck, col), run);
  }

  /** The first c dealt columns, in order. */
  function DealtColumns(deck: seq<Card>, c: nat): (r: seq<seq<Card>>)
    requires c <= 7 && |deck| >= Tri(7)
    ensures |r| == c
  {
    if c == 0 then [] else DealtColumns(deck, c - 1) + [DealColumn(deck, c - 1)]
  }

  lemma {:induction false} DealtColumnsAt(deck: seq<Card>, c: nat, k: nat)
    requires k < c <= 7 && |deck| >= Tri(7)
    ensures DealtColumns(deck, c)[k] == DealColumn(deck, k)
  {
    if k < c - 1 {
      DealtColumnsAt(deck, c - 1, k);
    }
  }

  /** The first c dealt columns together hold exactly the first Tri(c) cards of the deck. */
  lemma {:induction false} DealColumnsIds(deck: seq<Card>, c: nat)
    requires c <= 7 && |deck| >= Tri(7)
    ensures Tri(c) <= Tri(7)
    ensures AllIds(DealtColumns(deck, c)) == Ids(deck[..Tri(c)])
  {
    TriMonotone(c, 7);
    if c == 0 {
      assert deck[..0] == [];
    } else {
      var a, b := Tri(c - 1), Tri(c);
      var cols, front, col := DealtColumns(deck, c), DealtColumns(deck, c - 1), DealColumn(deck, c - 1);
      assert cols == front + [col];
      assert cols[..c - 1] == front && cols[c - 1] == col;
      calc {
        AllIds(cols);
        AllIds(front) + Ids(col);
        { DealColumnsIds(deck, c - 1); DealColumnIds(deck, c - 1); }
        Ids(deck[..a]) + Ids(deck[a..b]);
        { IdsSplit(deck[..b], a); assert deck[..b][..a] == deck[..a] && deck[..b][a..] == deck[a..b]; }
        Ids(deck[..b]);
      }
    }
  }

  /** Dealing onto empty columns moves the first 28 cards of the deck to the
      tableau, and nothing else. */
  lemma DealTableauIds(deck: seq<Card>)
    requires |deck| >= Tri(7)
    ensures Tri(7) == 28
    ensures AllIds(DealTableau(seq(7, _ => []), deck)) == Ids(deck[..28])
  {
    var t := DealTableau(seq(7, _ => []), deck);
    forall k | 0 <= k < 7 ensures t[k] == DealtColumns(deck, 7)[k] {
      assert [] + DealColumn(deck, k) == DealColumn(deck, k);
      DealtColumnsAt(deck, 7, k);
    }
    assert t == DealtColumns(deck, 7);
    DealColumnsIds(deck, 7);
  }
}
