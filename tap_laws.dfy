/** TapLaws: what a tap promises about the selection, the counter and the piles. */
module TapLaws {
  import opened Cards
  import opened Piles
  import opened Deck
  import opened Game
  import opened GameLaws
  import opened Tapping

  // ---------------------------------------------------------------------------
  // Selection bookkeeping.

  /** With nothing selected, a tap is refused exactly for a face-down card, a
      foundation top, or the second or third waste card from the top; a refused
      tap changes nothing and an accepted one selects. */
  lemma FirstTapAcceptance(s: State, c: Card)
    requires Shaped(s) && s.firstCard.None?
    ensures var r := TapCard(s, c);
      (r.outcome == Ignored <==>
         !c.faceUp || IsTopOf(s.foundations, c) || IsBuriedWasteCard(s.waste, c))
      && (r.outcome == Ignored ==> r.state == s)
      && (r.outcome != Ignored ==> r.outcome == Selected)
  {
  }

  /** An accepted first tap changes only the first selection. A card found in the
      tableau is recorded by its first occurrence (column, then position); any
      other card is recorded as the waste top with depth 0. */
  lemma FirstTapRecordsPosition(s: State, c: Card)
    requires Shaped(s) && s.firstCard.None?
    ensures var r := TapCard(s, c);
      var t := r.state;
      r.outcome == Selected ==>
        t == s.(firstCard := Some(c), firstSource := t.firstSource,
                firstIndex := t.firstIndex, firstDepth := t.firstDepth)
        && (t.firstSource == FromTableau || t.firstSource == FromWaste)
        && (t.firstSource == FromTableau ==>
              0 <= t.firstIndex < 7 && 0 <= t.firstDepth < |s.tableau[t.firstIndex]|
              && Same(s.tableau[t.firstIndex][t.firstDepth], c)
              && (forall col, k :: 0 <= col < t.firstIndex && 0 <= k < |s.tableau[col]| ==>
                    !Same(s.tableau[col][k], c))
              && (forall k :: 0 <= k < t.firstDepth ==> !Same(s.tableau[t.firstIndex][k], c)))
        && (t.firstSource == FromWaste ==>
              t.firstIndex == |s.waste| - 1 && t.firstDepth == 0
              && forall col, k :: 0 <= col < 7 && 0 <= k < |s.tableau[col]| ==>
                   !Same(s.tableau[col][k], c))
  {
  }

  /** Tapping the selected card again clears both selections and nothing else. */
  lemma SameCardCancels(s: State, c: Card)
    requires Shaped(s) && s.firstCard.Some? && Same(c, s.firstCard.value)
    ensures var r := TapCard(s, c);
      r.outcome == Cancelled
      && r.state.firstCard.None? && r.state.secondCard.None?
      && r.state.(firstCard := s.firstCard, firstSource := s.firstSource,
                  firstIndex := s.firstIndex, firstDepth := s.firstDepth,
                  secondCard := s.secondCard, secondSource := s.secondSource,
                  secondIndex := s.secondIndex) == s
  {
  }

  /** A second tap finds no move exactly when the card is not the selected one
      and neither a column top it can take nor a foundation top it can take is
      the tapped card; then only the second selection changes. */
  lemma SecondTapUnmatched(s: State, c: Card)
    requires Shaped(s) && s.firstCard.Some?
    ensures var first, r := s.firstCard.value, TapCard(s, c);
      (r.outcome == Unmatched <==>
         !Same(c, first)
         && !(TableauRule(first, c) && IsTopOf(s.tableau, c))
         && !(FoundationRule(first, c) && IsTopOf(s.foundations, c)))
      && (r.outcome == Unmatched ==> r.state == s.(secondCard := Some(c)))
  {
    var first := s.firstCard.value;
    if !Same(c, first) {
      if TableauRule(first, c) && IsTopOf(s.tableau, c) {
        var i :| 0 <= i < 7 && |s.tableau[i]| > 0 && Same(Top(s.tableau[i]), c);
        assert TopPileFrom(s.tableau, c, 0).Some?;
      }
      if FoundationRule(first, c) && IsTopOf(s.foundations, c) {
        var i :| 0 <= i < 4 && |s.foundations[i]| > 0 && Same(Top(s.foundations[i]), c);
        assert TopPileFrom(s.foundations, c, 0).Some?;
      }
    }
  }

  /** The counter grows by one exactly when a card tap makes a move, and a move or
      a cancel leaves nothing selected. */
  lemma TapCountsMoves(s: State, c: Card)
    requires Shaped(s)
    ensures var r := TapCard(s, c);
      r.state.moveCount == s.moveCount + (if r.outcome == Moved then 1 else 0)
      && (r.outcome == Moved || r.outcome == Cancelled ==>
            r.state.firstCard.None? && r.state.secondCard.None?)
      && (r.outcome == Moved ==> s.firstCard.Some?)
  {
  }

  /** A tap on an empty pile does nothing while nothing is selected; an empty
      column takes only a King and an empty foundation only an Ace; each move
      counts once and clears the selection. */
  lemma EmptyTapRules(s: State, kind: PileKind, idx: int)
    requires Shaped(s) && ValidPileIndex(kind, idx)
    ensures var r := TapEmptyPile(s, kind, idx);
      (s.firstCard.None? ==> r == Step(s, Ignored))
      && r.state.moveCount == s.moveCount + (if r.outcome == Moved then 1 else 0)
      && (r.outcome == Moved ==> r.state.firstCard.None? && r.state.secondCard.None?)
      && (r.outcome == Moved && kind == TableauPile ==> s.firstCard.value.rank == King)
      && (r.outcome == Moved && kind == FoundationPile ==> s.firstCard.value.rank == Ace)
      && (s.firstCard.Some? && kind == TableauPile && s.firstCard.value.rank != King ==> r == Step(s, Ignored))
      && (s.firstCard.Some? && kind == FoundationPile && s.firstCard.value.rank != Ace ==> r == Step(s, Ignored))
  {
  }

  /** The reveal rule turns the top card face-up and touches no other card. */
  lemma RevealOnlyTurnsTop(col: seq<Card>)
    ensures |Reveal(col)| == |col| && Ids(Reveal(col)) == Ids(col)
    ensures forall k :: 0 <= k < |col| - 1 ==> Reveal(col)[k] == col[k]
    ensures col != [] ==> Top(Reveal(col)) == Top(col).(faceUp := true)
    ensures FaceDownPrefix(col) ==> FaceDownPrefix(Reveal(col))
  {
    if col != [] {
      IdsPointwise(col, Reveal(col));
    }
  }

  // ---------------------------------------------------------------------------
  // Conservation of cards.

  lemma Cancel(a: multiset<CardId>, b: multiset<CardId>, c: multiset<CardId>)
    requires a + c == b + c
    ensures a == b
  {
    forall id ensures a[id] == b[id] {
      assert (a + c)[id] == a[id] + c[id];
      assert (b + c)[id] == b[id] + c[id];
    }
  }

  /** Cards appended to one pile of a row join the row's identities. */
  lemma AllIdsAppend(ps: seq<seq<Card>>, i: nat, extra: seq<Card>)
    requires i < |ps|
    ensures AllIds(ps[i := ps[i] + extra]) == AllIds(ps) + Ids(extra)
  {
    var q := ps[i := ps[i] + extra];
    AllIdsUpdate(ps, i, ps[i] + extra);
    IdsConcat(ps[i], extra);
    assert AllIds(q) + Ids(ps[i]) == (AllIds(ps) + Ids(extra)) + Ids(ps[i]);
    Cancel(AllIds(q), AllIds(ps) + Ids(extra), Ids(ps[i]));
  }

  /** Cards taken out of one pile of a row leave the row's identities. */
  lemma AllIdsShrink(ps: seq<seq<Card>>, i: nat, x: seq<Card>, gone: multiset<CardId>)
    requires i < |ps| && Ids(ps[i]) == Ids(x) + gone
    ensures AllIds(ps[i := x]) + gone == AllIds(ps)
  {
    var q := ps[i := x];
    AllIdsUpdate(ps, i, x);
    assert (AllIds(q) + gone) + Ids(x) == AllIds(ps) + Ids(x);
    Cancel(AllIds(q) + gone, AllIds(ps), Ids(x));
  }

  /** The waste top onto column i. */
  lemma WasteTopToColumn(s: State, i: nat)
    requires Shaped(s) && i < 7 && s.waste != []
    ensures BoardIds(s.(tableau := s.tableau[i := s.tableau[i] + [Top(s.waste)]], waste := Pop(s.waste)))
            == BoardIds(s)
  {
    AllIdsAppend(s.tableau, i, [Top(s.waste)]);
    IdsConcat(Pop(s.waste), [Top(s.waste)]);
  }

  /** The waste top onto foundation f. */
  lemma WasteTopToFoundation(s: State, f: nat)
    requires Shaped(s) && f < 4 && s.waste != []
    ensures BoardIds(s.(foundations := s.foundations[f := s.foundations[f] + [Top(s.waste)]], waste := Pop(s.waste)))
            == BoardIds(s)
  {
    AllIdsAppend(s.foundations, f, [Top(s.waste)]);
    IdsConcat(Pop(s.waste), [Top(s.waste)]);
  }

  /** A group moved between two different columns. */
  lemma GroupToColumn(s: State, src: nat, d: nat, dst: nat)
    requires Shaped(s) && src < 7 && dst < 7 && src != dst && d <= |s.tableau[src]|
    ensures BoardIds(s.(tableau := MoveGroup(s.tableau, src, d, dst))) == BoardIds(s)
  {
    var t := s.tableau;
    var group, rest := t[src][d..], t[src][..d];
    var t1 := t[dst := t[dst] + group];
    AllIdsAppend(t, dst, group);
    assert t1[src] == t[src];
    RevealOnlyTurnsTop(rest);
    IdsSplit(t[src], d);
    AllIdsShrink(t1, src, Reveal(rest), Ids(group));
    assert MoveGroup(t, src, d, dst) == t1[src := Reveal(rest)];
    Cancel(AllIds(MoveGroup(t, src, d, dst)), AllIds(t), Ids(group));
  }

  /** The top card of column src onto foundation f. */
  lemma TopToFoundation(s: State, src: nat, f: nat)
    requires Shaped(s) && src < 7 && f < 4 && s.tableau[src] != []
    ensures var col := s.tableau[src];
      BoardIds(s.(foundations := s.foundations[f := s.foundations[f] + [Top(col)]],
                  tableau := s.tableau[src := Reveal(Pop(col))])) == BoardIds(s)
  {
    var col := s.tableau[src];
    AllIdsAppend(s.foundations, f, [Top(col)]);
    RevealOnlyTurnsTop(Pop(col));
    IdsConcat(Pop(col), [Top(col)]);
    AllIdsShrink(s.tableau, src, Reveal(Pop(col)), Ids([Top(col)]));
  }

  /** A move onto a column keeps every card, unless it is a column's group moved
      onto the same column. */
  lemma MoveToTableauKeepsCards(s: State, i: nat)
    requires Shaped(s) && i < 7
    requires s.firstSource == FromTableau ==> s.firstIndex != i
    ensures MoveToTableau(s, i).outcome != Crashed ==> BoardIds(MoveToTableau(s, i).state) == BoardIds(s)
  {
    var src, d := s.firstIndex, s.firstDepth;
    if s.firstSource == FromTableau {
      if 0 <= src < 7 && 0 <= d <= |s.tableau[src]| {
        GroupToColumn(s, src, d, i);
      }
    } else if s.waste != [] {
      WasteTopToColumn(s, i);
    }
  }

  /** A move onto a foundation keeps every card when a column selection is the
      column's top card. */
  lemma MoveToFoundationKeepsCards(s: State, f: nat)
    requires Shaped(s) && f < 4
    requires s.firstSource == FromTableau && 0 <= s.firstIndex < 7 ==>
               s.firstDepth == |s.tableau[s.firstIndex]| - 1
    ensures MoveToFoundation(s, f).outcome != Crashed ==> BoardIds(MoveToFoundation(s, f).state) == BoardIds(s)
  {
    var src := s.firstIndex;
    if s.firstSource == FromTableau {
      if 0 <= src < 7 && |s.tableau[src]| > 0 {
        TopToFoundation(s, src, f);
      }
    } else if s.waste != [] {
      WasteTopToFoundation(s, f);
    }
  }

  // ---------------------------------------------------------------------------
  // Conditions under which a tap keeps the 52-card partition.

  /** The first selection still names the card it was taken from: the card at
      the recorded column and position, or the waste top; and it is face-up. */
  predicate SelectionCurrent(s: State)
  {
    s.firstCard.Some? ==>
      s.firstCard.value.faceUp &&
      match s.firstSource
      case FromTableau =>
        0 <= s.firstIndex < |s.tableau| && 0 <= s.firstDepth < |s.tableau[s.firstIndex]|
        && s.tableau[s.firstIndex][s.firstDepth] == s.firstCard.value
      case FromWaste => s.waste != [] && Top(s.waste) == s.firstCard.value
      case NoSource => false
  }

  /** A column selection is current. A waste selection may be stale: a waste
      move takes whatever card is the waste top, so it needs no such condition. */
  predicate ColumnSelectionCurrent(s: State)
  {
    s.firstSource == FromTableau ==> SelectionCurrent(s)
  }

  /** Above any face-up card of a column, ranks go down by one per card. */
  predicate Descending(col: seq<Card>)
  {
    forall k :: 0 <= k < |col| - 1 && col[k].faceUp ==> col[k + 1].rank == col[k].rank - 1
  }

  /** Every column has its face-down cards first and a descending face-up run. */
  predicate Stacked(s: State)
  {
    forall i :: 0 <= i < |s.tableau| ==> FaceDownPrefix(s.tableau[i]) && Descending(s.tableau[i])
  }

  /** A column selection is the top card of its column. */
  predicate SelectedOnTop(s: State)
  {
    s.firstSource == FromTableau ==>
      0 <= s.firstIndex < |s.tableau| && s.firstDepth == |s.tableau[s.firstIndex]| - 1
  }

  lemma {:induction false} RunRank(col: seq<Card>, d: nat, k: nat)
    requires FaceDownPrefix(col) && Descending(col)
    requires d <= k < |col| && col[d].faceUp
    ensures col[k].rank == col[d].rank - (k - d)
  {
    if k > d {
      RunRank(col, d, k - 1);
      assert col[k - 1].faceUp;
    }
  }

  /** Every card of the tableau of a partitioned board is one of the 52. */
  lemma BoardCardValid(s: State, i: nat, j: nat)
    requires Shaped(s) && Partitioned(s) && i < 7 && j < |s.tableau[i]|
    ensures ValidId(s.tableau[i][j].Id())
  {
    var id := s.tableau[i][j].Id();
    IdsMembers(s.tableau[i], id);
    AllIdsContains(s.tableau, i);
    assert id in AllIds(s.tableau);
    assert id in BoardIds(s);
    NewDeckCanonical(id);
  }

  /** A second tap keeps the partition, provided a column selection is current,
      the columns are stacked, and a column card is moved to a foundation only
      when it is its column's top. A waste selection may be stale. */
  lemma SecondTapKeepsPartition(s: State, c: Card)
    requires Shaped(s) && s.firstCard.Some? && Partitioned(s)
    requires ColumnSelectionCurrent(s) && Stacked(s)
    requires FoundationRule(s.firstCard.value, c) && IsTopOf(s.foundations, c) ==> SelectedOnTop(s)
    ensures Partitioned(TapCard(s, c).state)
  {
    var first := s.firstCard.value;
    var s1 := s.(secondCard := Some(c));
    assert BoardIds(s1) == BoardIds(s);
    if !Same(c, first) {
      var col := if TableauRule(first, c) then TopPileFrom(s1.tableau, c, 0) else None;
      var f := if FoundationRule(first, c) then TopPileFrom(s1.foundations, c, 0) else None;
      if col.Some? {
        assert TapCard(s, c) == MoveToTableau(s1, col.value);
        ColumnMoveKeepsPartition(s1, col.value);
      } else if f.Some? {
        assert TapCard(s, c) == MoveToFoundation(s1, f.value);
        assert IsTopOf(s.foundations, c) by {
          var k := f.value;
          assert 0 <= k < 4 && |s.foundations[k]| > 0 && Same(Top(s.foundations[k]), c);
        }
        MoveToFoundationKeepsCards(s1, f.value);
      }
    }
  }

  /** A move onto a column top that accepts the selection keeps the partition. A
      current column selection never comes from that same column, since a
      stacked column's top ranks no higher than a face-up card below it; a
      waste selection, stale or not, moves the waste top. */
  lemma ColumnMoveKeepsPartition(s: State, i: nat)
    requires Shaped(s) && s.firstCard.Some? && Partitioned(s) && i < 7
    requires ColumnSelectionCurrent(s) && Stacked(s)
    requires s.tableau[i] != [] && TableauRule(s.firstCard.value, Top(s.tableau[i]))
    ensures Partitioned(MoveToTableau(s, i).state)
  {
    if s.firstSource == FromTableau {
      var src := s.tableau[s.firstIndex];
      RunRank(src, s.firstDepth, |src| - 1);
    }
    MoveToTableauKeepsCards(s, i);
  }

  /** A King onto an empty column keeps every card, whatever the selection
      records: a group cut from the empty column itself is empty. */
  lemma KingOntoEmptyKeepsCards(s: State, idx: nat)
    requires Shaped(s) && s.firstCard.Some? && idx < 7 && s.tableau[idx] == []
    ensures BoardIds(KingOntoEmpty(s, idx).state) == BoardIds(s)
  {
    var src, d := s.firstIndex, s.firstDepth;
    if s.firstCard.value.rank == King {
      if s.firstSource == FromTableau && 0 <= src < 7 && 0 <= d <= |s.tableau[src]| {
        if src == idx {
          assert MoveGroup(s.tableau, src, d, idx) == s.tableau;
        } else {
          GroupToColumn(s, src, d, idx);
        }
      } else if s.firstSource == FromWaste && s.waste != [] {
        WasteTopToColumn(s, idx);
      }
    }
  }

  /** An Ace onto an empty foundation keeps every card when a column selection
      is current and is its column's top card. A waste selection may be stale. */
  lemma AceOntoEmptyKeepsCards(s: State, idx: nat)
    requires Shaped(s) && s.firstCard.Some? && idx < 4
    requires ColumnSelectionCurrent(s) && (s.firstCard.value.rank == Ace ==> SelectedOnTop(s))
    ensures BoardIds(AceOntoEmpty(s, idx).state) == BoardIds(s)
  {
    if s.firstCard.value.rank == Ace {
      if s.firstSource == FromTableau {
        var src, d := s.firstIndex, s.firstDepth;
        var col := s.tableau[src];
        assert col[..d] == Pop(col);
        TopToFoundation(s, src, idx);
      } else if s.firstSource == FromWaste && s.waste != [] {
        WasteTopToFoundation(s, idx);
      }
    }
  }

  /** A tap on an empty pile keeps the partition when a column selection is
      current, the columns are stacked and the tapped column is indeed empty. */
  lemma EmptyTapKeepsPartition(s: State, kind: PileKind, idx: int)
    requires Shaped(s) && ValidPileIndex(kind, idx) && Partitioned(s)
    requires ColumnSelectionCurrent(s) && Stacked(s)
    requires kind == TableauPile ==> s.tableau[idx] == []
    ensures Partitioned(TapEmptyPile(s, kind, idx).state)
  {
    if s.firstCard.Some? {
      match kind
      case TableauPile => KingOntoEmptyKeepsCards(s, idx);
      case FoundationPile =>
        if s.firstCard.value.rank == Ace && s.firstSource == FromTableau {
          AceOnTop(s);
        }
        AceOntoEmptyKeepsCards(s, idx);
    }
  }

  /** On a stacked column of a partitioned board nothing lies above a face-up
      Ace, so a current column selection of an Ace is its column's top. */
  lemma AceOnTop(s: State)
    requires Shaped(s) && s.firstCard.Some? && Partitioned(s) && Stacked(s)
    requires SelectionCurrent(s) && s.firstSource == FromTableau && s.firstCard.value.rank == Ace
    ensures SelectedOnTop(s)
  {
    var src, d := s.firstIndex, s.firstDepth;
    var col := s.tableau[src];
    BoardCardValid(s, src, |col| - 1);
    RunRank(col, d, |col| - 1);
  }
}
