/** Render: which cards a card widget draws with the selection outline. */
module Render {
  import opened Cards
  import opened Piles
  import opened Game
  import opened TapLaws

  /** A card is outlined when a first selection exists and either it is the
      selected card, or the selection came from a column and the card lies in that
      column at or above the selection depth. */
  predicate Highlighted(s: State, c: Card)
  {
    s.firstCard.Some? &&
    (Same(s.firstCard.value, c) ||
     (s.firstSource == FromTableau &&
      exists col, k :: 0 <= col < |s.tableau| && 0 <= k < |s.tableau[col]| && Same(s.tableau[col][k], c)
                       && col == s.firstIndex && k >= s.firstDepth))
  }

  /** The outline check of the card renderer, with its scan over every column. */
  method IsHighlighted(g: Game, c: Card) returns (b: bool)
    ensures b == Highlighted(g.Snapshot(), c)
  {
    b := false;
    if g.firstSelectedCard.Some? {
      if Same(g.firstSelectedCard.value, c) {
        b := true;
      } else if g.firstSelectedSource == FromTableau {
        var t, idx, depth := g.tableau, g.firstSelectedIndex, g.firstSelectedDepth;
        for colIdx := 0 to |t|
          invariant b <==> exists col, k :: 0 <= col < colIdx && 0 <= k < |t[col]| && Same(t[col][k], c)
                                             && col == idx && k >= depth
        {
          var pile := t[colIdx];
          for cardIdx := 0 to |pile|
            invariant b <==>
              (exists col, k :: 0 <= col < colIdx && 0 <= k < |t[col]| && Same(t[col][k], c)
                                && col == idx && k >= depth)
              || (exists k :: 0 <= k < cardIdx && Same(pile[k], c) && colIdx == idx && k >= depth)
          {
            if Same(pile[cardIdx], c) && colIdx == idx && cardIdx >= depth {
              b := true;
            }
          }
        }
      }
    }
  }

  /** With nothing selected no card is outlined. */
  lemma NoSelectionNoHighlight(s: State, c: Card)
    requires s.firstCard.None?
    ensures !Highlighted(s, c)
  {
  }

  /** For a current selection the outline marks exactly the selected card and,
      for a column selection, the cards above it: the group a move would carry. */
  lemma HighlightIsSelectedGroup(s: State, c: Card)
    requires SelectionCurrent(s) && s.firstCard.Some?
    ensures s.firstSource == FromTableau ==>
      (Highlighted(s, c) <==>
         exists k :: s.firstDepth <= k < |s.tableau[s.firstIndex]| && Same(s.tableau[s.firstIndex][k], c))
    ensures s.firstSource == FromWaste ==> (Highlighted(s, c) <==> Same(Top(s.waste), c))
  {
    if s.firstSource == FromTableau {
      var i, d := s.firstIndex, s.firstDepth;
      if Same(s.firstCard.value, c) {
        assert Same(s.tableau[i][d], c);
      }
      if exists k :: d <= k < |s.tableau[i]| && Same(s.tableau[i][k], c) {
        var k :| d <= k < |s.tableau[i]| && Same(s.tableau[i][k], c);
        assert Same(s.tableau[i][k], c) && i == s.firstIndex && k >= s.firstDepth;
      }
    }
  }
}
