/** GameLaws: what dealing and drawing promise about the piles. */
module GameLaws {
  import opened Cards
  import opened Piles
  import opened Deck
  import opened Game

  /** Every card identity on the board, with multiplicity. */
  function BoardIds(s: State): multiset<CardId>
  {
    Ids(s.stock) + Ids(s.waste) + AllIds(s.foundations) + AllIds(s.tableau)
  }

  /** The board holds each of the 52 canonical cards exactly once (see
      NewDeckCanonical for what the deck's identities are). */
  predicate Partitioned(s: State)
  {
    BoardIds(s) == Ids(NewDeck())
  }

  lemma {:induction false} AllIdsEmpty(ps: seq<seq<Card>>)
    requires forall i :: 0 <= i < |ps| ==> ps[i] == []
    ensures AllIds(ps) == multiset{}
  {
    if ps != [] {
      AllIdsEmpty(ps[..|ps| - 1]);
    }
  }

  /** A fresh game: column c holds c+1 cards with only the last face-up, the
      stock holds the other 24 cards face-down, waste and foundations are empty,
      nothing is selected and no move has been made. */
  lemma InitialLayout(picks: seq<int>)
    requires ValidPicks(52, picks)
    ensures Shaped(InitialState(picks))
    ensures forall c :: 0 <= c < 7 ==> |InitialState(picks).tableau[c]| == c + 1
    ensures forall c, row :: 0 <= c < 7 && 0 <= row <= c ==>
      (InitialState(picks).tableau[c][row].faceUp <==> row == c)
    ensures forall c :: 0 <= c < 7 ==> FaceDownPrefix(InitialState(picks).tableau[c])
    ensures |InitialState(picks).stock| == 24 && AllFaceDown(InitialState(picks).stock)
    ensures InitialState(picks).waste == [] && InitialState(picks).foundations == [[], [], [], []]
    ensures InitialState(picks).moveCount == 0 && InitialState(picks).drawCount == 3
    ensures InitialState(picks).firstCard == None && InitialState(picks).secondCard == None
  {
    var s := InitialState(picks);
    var d := DealtDeck(picks);
    forall c | 0 <= c < 7
      ensures s.tableau[c] == DealColumn(d, c)
    {
      assert s.tableau[c] == [] + DealColumn(d, c);
    }
    forall c | 0 <= c < 7
      ensures |s.tableau[c]| == c + 1
      ensures forall row :: 0 <= row <= c ==> (s.tableau[c][row].faceUp <==> row == c)
      ensures FaceDownPrefix(s.tableau[c])
    {
      DealColumnShape(d, c);
    }
    NewDeckCanonical(CardId(0, 1));
    ShuffleStepsPermutes(NewDeck(), picks, |picks|);
    assert AllFaceDown(d);
  }

  /** A fresh game holds each of the 52 cards exactly once across its piles. */
  lemma InitialPartition(picks: seq<int>)
    requires ValidPicks(52, picks)
    ensures Partitioned(InitialState(picks))
  {
    var s := InitialState(picks);
    var d := DealtDeck(picks);
    assert Tri(7) == 28;
    assert s.tableau == DealTableau(seq(7, _ => []), d) by {
      assert Empty7() == seq(7, _ => []);
    }
    DealTableauIds(d);
    AllIdsEmpty(Empty4());
    IdsSplit(d, 28);
    ShuffleStepsPermutes(NewDeck(), picks, |picks|);
    assert Ids(s.stock) == Ids(d[28..]);
    assert Ids(s.waste) == multiset{};
    calc {
      BoardIds(s);
      Ids(d[28..]) + multiset{} + multiset{} + Ids(d[..28]);
      Ids(d);
      Ids(NewDeck());
    }
  }

  /** A draw or a recycle keeps the cards of stock and waste (as a multiset of
      identities). */
  lemma DrawKeepsCards(s: State)
    ensures Ids(AfterDraw(s).stock) + Ids(AfterDraw(s).waste) == Ids(s.stock) + Ids(s.waste)
  {
    var t := AfterDraw(s);
    if s.stock == [] {
      IdsFlipped(Reverse(s.waste), false);
      IdsReverse(s.waste);
      assert Ids(t.waste) == multiset{};
    } else {
      var n := |s.stock|;
      var k := DrawSize(s.drawCount, n);
      var moved := s.stock[n - k..];
      IdsConcat(s.waste, Flipped(Reverse(moved), true));
      IdsFlipped(Reverse(moved), true);
      IdsReverse(moved);
      IdsSplit(s.stock, n - k);
      calc {
        Ids(t.stock) + Ids(t.waste);
        Ids(s.stock[..n - k]) + (Ids(s.waste) + Ids(moved));
        (Ids(s.stock[..n - k]) + Ids(moved)) + Ids(s.waste);
        Ids(s.stock) + Ids(s.waste);
      }
    }
  }

  /** A draw or recycle touches no foundation, column or selection, counts one
      move, and so keeps the 52 cards partitioned across the piles. */
  lemma DrawKeepsPartition(s: State)
    ensures AfterDraw(s) == s.(stock := AfterDraw(s).stock, waste := AfterDraw(s).waste,
                               moveCount := s.moveCount + 1)
    ensures Partitioned(s) ==> Partitioned(AfterDraw(s))
  {
    DrawKeepsCards(s);
  }

  /** A draw from a non-empty stock moves min(drawCount, |stock|) cards: the stock
      loses its top k cards and the waste gains them face-up, the stock's top
      card first (so it ends up deepest); the press counts one move. */
  lemma DrawMovesTopCards(s: State)
    requires s.stock != [] && s.drawCount >= 1
    ensures var k := DrawSize(s.drawCount, |s.stock|);
      && 1 <= k <= s.drawCount
      && (k == s.drawCount || k == |s.stock|)
      && AfterDraw(s).stock == s.stock[..|s.stock| - k]
      && |AfterDraw(s).waste| == |s.waste| + k
      && AfterDraw(s).waste[..|s.waste|] == s.waste
      && (forall j :: |s.waste| <= j < |AfterDraw(s).waste| ==>
           AfterDraw(s).waste[j] == s.stock[|s.stock| - 1 - (j - |s.waste|)].(faceUp := true))
      && AfterDraw(s).moveCount == s.moveCount + 1
  {
    var n, k := |s.stock|, DrawSize(s.drawCount, |s.stock|);
    var w := AfterDraw(s).waste;
    forall j | |s.waste| <= j < |w|
      ensures w[j] == s.stock[n - 1 - (j - |s.waste|)].(faceUp := true)
    {
      ReverseAt(s.stock[n - k..], j - |s.waste|);
    }
  }

  /** A recycle turns the waste over into the stock: the stock becomes the waste
      reversed, every card face-down, and the waste is empty. */
  lemma RecycleTurnsWasteOver(s: State)
    requires s.stock == []
    ensures AfterDraw(s).waste == []
    ensures |AfterDraw(s).stock| == |s.waste| && AllFaceDown(AfterDraw(s).stock)
    ensures forall j :: 0 <= j < |s.waste| ==>
      AfterDraw(s).stock[j] == s.waste[|s.waste| - 1 - j].(faceUp := false)
  {
    forall j | 0 <= j < |s.waste|
      ensures AfterDraw(s).stock[j] == s.waste[|s.waste| - 1 - j].(faceUp := false)
    {
      ReverseAt(s.waste, j);
    }
  }

  /** Pressing the stock until it is empty. */
  function Exhaust(s: State): (r: State)
    requires s.drawCount >= 1
    ensures r.stock == [] && r.drawCount == s.drawCount
    decreases |s.stock|
  {
    if s.stock == [] then s else Exhaust(AfterDraw(s))
  }

  /** Drawing the stock out leaves it, face-up and reversed, on top of the old waste. */
  lemma {:induction false} ExhaustFillsWaste(s: State)
    requires s.drawCount >= 1
    ensures Exhaust(s).waste == s.waste + Flipped(Reverse(s.stock), true)
    decreases |s.stock|
  {
    if s.stock == [] {
      assert s.waste + Flipped(Reverse(s.stock), true) == s.waste;
    } else {
      var n := |s.stock|;
      var k := DrawSize(s.drawCount, n);
      var lo, hi := s.stock[..n - k], s.stock[n - k..];
      var t := AfterDraw(s);
      assert t.stock == lo && t.waste == s.waste + Flipped(Reverse(hi), true);
      calc {
        Exhaust(s).waste;
        Exhaust(t).waste;
        { ExhaustFillsWaste(t); }
        t.waste + Flipped(Reverse(lo), true);
        s.waste + (Flipped(Reverse(hi), true) + Flipped(Reverse(lo), true));
        { FlippedConcat(Reverse(hi), Reverse(lo), true); }
        s.waste + Flipped(Reverse(hi) + Reverse(lo), true);
        { ReverseConcat(lo, hi); assert lo + hi == s.stock; }
        s.waste + Flipped(Reverse(s.stock), true);
      }
    }
  }

  /** The draw cycle: from an empty waste and a face-down stock, drawing until the
      stock is empty and pressing once more gives back the very same stock, in
      its first order and face-down, with an empty waste. */
  lemma DrawCycleRestoresStock(s: State)
    requires s.drawCount >= 1 && s.waste == [] && AllFaceDown(s.stock)
    ensures AfterDraw(Exhaust(s)).stock == s.stock
    ensures AfterDraw(Exhaust(s)).waste == []
  {
    var e := Exhaust(s);
    ExhaustFillsWaste(s);
    assert e.waste == Flipped(Reverse(s.stock), true) by {
      assert s.waste + Flipped(Reverse(s.stock), true) == Flipped(Reverse(s.stock), true);
    }
    RecycleEmptyStock(e);
    FlipReverseRoundTrip(s.stock);
  }

  lemma RecycleEmptyStock(e: State)
    requires e.stock == []
    ensures AfterDraw(e).stock == Flipped(Reverse(e.waste), false) && AfterDraw(e).waste == []
  {
  }

  /** Clearing both selections leaves no selection recorded and changes nothing
      else; the two helpers commute and clearing again changes nothing. */
  lemma CancelsClearSelection(s: State)
    ensures var r := AfterCancelSecond(AfterCancelFirst(s));
      && r.firstCard == None && r.firstSource == NoSource && r.firstIndex == 0 && r.firstDepth == 0
      && r.secondCard == None && r.secondSource == NoSource && r.secondIndex == 0
      && r.(firstCard := s.firstCard, firstSource := s.firstSource, firstIndex := s.firstIndex,
            firstDepth := s.firstDepth, secondCard := s.secondCard, secondSource := s.secondSource,
            secondIndex := s.secondIndex) == s
      && AfterCancelFirst(AfterCancelSecond(s)) == r
      && AfterCancelSecond(AfterCancelFirst(r)) == r
  {
  }

  /** Toggling twice restores the display flag, and nothing else ever changes. */
  lemma ToggleInvolution(s: State)
    ensures AfterToggle(s).showDown != s.showDown
    ensures AfterToggle(AfterToggle(s)) == s
  {
  }

  /** Resetting empties every pile and zeroes the counters but keeps the selection
      and the draw count. */
  lemma ResetClears(s: State)
    ensures var r := AfterReset(s);
      && Shaped(r) && r.stock == [] && r.waste == []
      && (forall f :: 0 <= f < 4 ==> r.foundations[f] == [])
      && (forall c :: 0 <= c < 7 ==> r.tableau[c] == [])
      && r.moveCount == 0 && !r.showDown
      && r.drawCount == s.drawCount
      && r.firstCard == s.firstCard && r.firstSource == s.firstSource
      && r.firstIndex == s.firstIndex && r.firstDepth == s.firstDepth
      && r.secondCard == s.secondCard && r.secondSource == s.secondSource
      && r.secondIndex == s.secondIndex
  {
  }

  /** New Game on a running game resets the piles and deals again without
      clearing the selection: the piles are those of a new game, holding the 52
      cards once each, while the selection records and the draw count survive. */
  lemma RestartDealsFreshPiles(s: State, picks: seq<int>)
    requires ValidPicks(52, picks)
    ensures Shaped(AfterReset(s))
    ensures var r, n := AfterDeal(AfterReset(s), picks), InitialState(picks);
      r == n.(drawCount := s.drawCount,
              firstCard := s.firstCard, firstSource := s.firstSource,
              firstIndex := s.firstIndex, firstDepth := s.firstDepth,
              secondCard := s.secondCard, secondSource := s.secondSource,
              secondIndex := s.secondIndex)
      && Partitioned(r)
  {
    InitialPartition(picks);
  }
}
