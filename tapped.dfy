/** Tapping: the two-tap selection state machine and the moves it executes.
    A tap on a card either selects it (first tap) or resolves the selection
    (second tap: cancel, move onto a column, move onto a foundation, or
    nothing); a tap on an empty pile places a King or an Ace. */
module Tapping {
  import opened Cards
  import opened Piles
  import opened Game

  /** What a tap did. The Go code reports nothing; these name its return paths.
      Crashed stands for an index or slice bound out of range, which ends the
      program; the state it carries is the state before the move's first pile
      update. */
  datatype Outcome = Ignored | Selected | Cancelled | Moved | Unmatched | Crashed

  datatype Step = Step(state: State, outcome: Outcome)

  /** The kind of an empty-pile placeholder. */
  datatype PileKind = TableauPile | FoundationPile

  // ---------------------------------------------------------------------------
  // Searches over piles.

  /** The first pile at or after i whose top card is c. */
  function TopPileFrom(ps: seq<seq<Card>>, c: Card, i: nat): (r: Option<nat>)
    requires i <= |ps|
    ensures r.Some? ==> i <= r.value < |ps| && |ps[r.value]| > 0 && Same(Top(ps[r.value]), c)
    ensures r.Some? ==> forall k :: i <= k < r.value ==> !(|ps[k]| > 0 && Same(Top(ps[k]), c))
    ensures r.None? ==> forall k :: i <= k < |ps| ==> !(|ps[k]| > 0 && Same(Top(ps[k]), c))
    decreases |ps| - i
  {
    if i == |ps| then None
    else if |ps[i]| > 0 && Same(Top(ps[i]), c) then Some(i)
    else TopPileFrom(ps, c, i + 1)
  }

  /** The first position at or after j of a pile holding c. */
  function IndexFrom(p: seq<Card>, c: Card, j: nat): (r: Option<nat>)
    requires j <= |p|
    ensures r.Some? ==> j <= r.value < |p| && Same(p[r.value], c)
    ensures r.Some? ==> forall k :: j <= k < r.value ==> !Same(p[k], c)
    ensures r.None? ==> forall k :: j <= k < |p| ==> !Same(p[k], c)
    decreases |p| - j
  {
    if j == |p| then None
    else if Same(p[j], c) then Some(j)
    else IndexFrom(p, c, j + 1)
  }

  /** Column and position of c, scanning the columns from i on, each from its bottom. */
  function LocateFrom(t: seq<seq<Card>>, c: Card, i: nat): (r: Option<(nat, nat)>)
    requires i <= |t|
    ensures r.Some? ==> i <= r.value.0 < |t| && r.value.1 < |t[r.value.0]|
                        && Same(t[r.value.0][r.value.1], c)
    ensures r.Some? ==> forall k :: 0 <= k < r.value.1 ==> !Same(t[r.value.0][k], c)
    ensures r.Some? ==> forall col, k :: i <= col < r.value.0 && 0 <= k < |t[col]| ==> !Same(t[col][k], c)
    ensures r.None? ==> forall col, k :: i <= col < |t| && 0 <= k < |t[col]| ==> !Same(t[col][k], c)
    decreases |t| - i
  {
    if i == |t| then None
    else match IndexFrom(t[i], c, 0)
      case Some(j) => Some((i, j))
      case None => LocateFrom(t, c, i + 1)
  }

  /** c is the top card of one of the piles. */
  predicate IsTopOf(ps: seq<seq<Card>>, c: Card)
  {
    exists i :: 0 <= i < |ps| && |ps[i]| > 0 && Same(Top(ps[i]), c)
  }

  /** c is the second or third card from the top of the waste. */
  predicate IsBuriedWasteCard(w: seq<Card>, c: Card)
  {
    (|w| > 1 && Same(w[|w| - 2], c)) || (|w| > 2 && Same(w[|w| - 3], c))
  }

  /** A card may go onto a column top one rank higher and of the other colour. */
  predicate TableauRule(first: Card, target: Card)
  {
    first.rank == target.rank - 1 && Color(first) != Color(target)
  }

  /** A card may go onto a foundation top one rank lower and of the same suit. */
  predicate FoundationRule(first: Card, target: Card)
  {
    first.rank == target.rank + 1 && first.suit == target.suit
  }

  // ---------------------------------------------------------------------------
  // Pile edits.

  /** The reveal rule: a face-down top card is turned face-up. */
  function Reveal(col: seq<Card>): (r: seq<Card>)
    ensures |r| == |col|
  {
    if col != [] && !Top(col).faceUp then Pop(col) + [Top(col).(faceUp := true)] else col
  }

  /** The group from position d of column src is appended to column dst, the
      source is cut back to d cards and its new top revealed. */
  function MoveGroup(t: seq<seq<Card>>, src: nat, d: nat, dst: nat): (r: seq<seq<Card>>)
    requires src < |t| && dst < |t| && d <= |t[src]|
    ensures |r| == |t|
  {
    var t1 := t[dst := t[dst] + t[src][d..]];
    t1[src := Reveal(t1[src][..d])]
  }

  /** A successful move: both selections cleared and one more move counted. */
  function Done(before: State, after: State): Step
  {
    Step(AfterCancelSecond(AfterCancelFirst(after)).(moveCount := before.moveCount + 1), Moved)
  }

  /** The selection onto column i, whose top accepts it. A column selection moves
      as a group; a waste selection moves whatever card is now the waste top. */
  function MoveToTableau(s: State, i: nat): Step
    requires Shaped(s) && i < 7
  {
    if s.firstSource == FromTableau then
      var src, d := s.firstIndex, s.firstDepth;
      if 0 <= src < 7 && 0 <= d <= |s.tableau[src]| then
        Done(s, s.(tableau := MoveGroup(s.tableau, src, d, i)))
      else Step(s, Crashed)
    else if s.waste != [] then
      Done(s, s.(tableau := s.tableau[i := s.tableau[i] + [Top(s.waste)]], waste := Pop(s.waste)))
    else Step(s, Crashed)
  }

  /** The selection onto foundation f, whose top accepts it. From a column, the
      column's top card is appended while the column is cut back to the
      selection depth; from the waste, whatever card is now its top. */
  function MoveToFoundation(s: State, f: nat): Step
    requires Shaped(s) && f < 4
  {
    if s.firstSource == FromTableau then
      var src, d := s.firstIndex, s.firstDepth;
      if 0 <= src < 7 && |s.tableau[src]| > 0 && 0 <= d <= |s.tableau[src]| then
        var col := s.tableau[src];
        Done(s, s.(foundations := s.foundations[f := s.foundations[f] + [Top(col)]],
                   tableau := s.tableau[src := Reveal(col[..d])]))
      else Step(s, Crashed)
    else if s.waste != [] then
      Done(s, s.(foundations := s.foundations[f := s.foundations[f] + [Top(s.waste)]],
                 waste := Pop(s.waste)))
    else Step(s, Crashed)
  }

  // ---------------------------------------------------------------------------
  // The state machine.

  /** A tap with nothing selected. Face-down cards, foundation tops and the two
      waste cards under the top are refused; otherwise the card is selected,
      recorded with its column and position when it lies in the tableau and as
      the waste top otherwise. */
  function FirstTap(s: State, c: Card): Step
  {
    if !c.faceUp || IsTopOf(s.foundations, c) || IsBuriedWasteCard(s.waste, c) then
      Step(s, Ignored)
    else
      match LocateFrom(s.tableau, c, 0)
      case Some(p) =>
        Step(s.(firstCard := Some(c), firstSource := FromTableau, firstIndex := p.0, firstDepth := p.1), Selected)
      case None =>
        Step(s.(firstCard := Some(c), firstSource := FromWaste, firstIndex := |s.waste| - 1, firstDepth := 0), Selected)
  }

  /** A tap while a card is selected: the same card cancels; a column top that
      accepts the selection receives it; otherwise a foundation top that accepts
      it; otherwise the tapped card is remembered as second selection and
      nothing else changes. */
  function SecondTap(s: State, c: Card): Step
    requires Shaped(s) && s.firstCard.Some?
  {
    var first := s.firstCard.value;
    var s1 := s.(secondCard := Some(c));
    if Same(c, first) then
      Step(AfterCancelSecond(AfterCancelFirst(s1)), Cancelled)
    else
      var col := if TableauRule(first, c) then TopPileFrom(s1.tableau, c, 0) else None;
      var f := if FoundationRule(first, c) then TopPileFrom(s1.foundations, c, 0) else None;
      if col.Some? then MoveToTableau(s1, col.value)
      else if f.Some? then MoveToFoundation(s1, f.value)
      else Step(s1, Unmatched)
  }

  function TapCard(s: State, c: Card): Step
    requires Shaped(s)
  {
    if s.firstCard.None? then FirstTap(s, c) else SecondTap(s, c)
  }

  predicate ValidPileIndex(kind: PileKind, idx: int)
  {
    match kind
    case TableauPile => 0 <= idx < 7
    case FoundationPile => 0 <= idx < 4
  }

  /** A selected King onto the empty column idx: a column selection as a group,
      a waste selection as the waste top. */
  function KingOntoEmpty(s: State, idx: nat): Step
    requires Shaped(s) && s.firstCard.Some? && idx < 7
  {
    var src, d := s.firstIndex, s.firstDepth;
    if s.firstCard.value.rank != King then Step(s, Ignored)
    else if s.firstSource == FromTableau then
      if 0 <= src < 7 && 0 <= d <= |s.tableau[src]| then
        Done(s, s.(tableau := MoveGroup(s.tableau, src, d, idx)))
      else Step(s, Crashed)
    else if s.firstSource == FromWaste then
      if s.waste != [] then
        Done(s, s.(tableau := s.tableau[idx := s.tableau[idx] + [Top(s.waste)]], waste := Pop(s.waste)))
      else Step(s, Crashed)
    else Done(s, s)
  }

  /** A selected Ace onto the empty foundation idx: from a column the selected
      card itself (the column cut back to the selection depth), from the waste
      the waste top. */
  function AceOntoEmpty(s: State, idx: nat): Step
    requires Shaped(s) && s.firstCard.Some? && idx < 4
  {
    var first := s.firstCard.value;
    var src, d := s.firstIndex, s.firstDepth;
    if first.rank != Ace then Step(s, Ignored)
    else if s.firstSource == FromTableau then
      if 0 <= src < 7 && 0 <= d <= |s.tableau[src]| then
        Done(s, s.(foundations := s.foundations[idx := s.foundations[idx] + [first]],
                   tableau := s.tableau[src := Reveal(s.tableau[src][..d])]))
      else Step(s, Crashed)
    else if s.firstSource == FromWaste then
      if s.waste != [] then
        Done(s, s.(foundations := s.foundations[idx := s.foundations[idx] + [Top(s.waste)]],
                   waste := Pop(s.waste)))
      else Step(s, Crashed)
    else Done(s, s)
  }

  /** A tap on an empty placeholder; nothing happens without a selection. */
  function TapEmptyPile(s: State, kind: PileKind, idx: int): Step
    requires Shaped(s) && ValidPileIndex(kind, idx)
  {
    if s.firstCard.None? then Step(s, Ignored)
    else match kind
      case TableauPile => KingOntoEmpty(s, idx)
      case FoundationPile => AceOntoEmpty(s, idx)
  }

  // ---------------------------------------------------------------------------
  // The tap handlers, on the game object.

  /** A tap on a card widget. */
  method CardTapped(g: Game, c: Card) returns (outcome: Outcome)
    requires Shaped(g.Snapshot())
    modifies g
    ensures Step(g.Snapshot(), outcome) == TapCard(old(g.Snapshot()), c)
  {
    if g.firstSelectedCard.None? {
      outcome := SelectCard(g, c);
    } else {
      outcome := ResolveSelection(g, c);
    }
  }

  /** The first-tap branch of a card tap. */
  method SelectCard(g: Game, c: Card) returns (outcome: Outcome)
    modifies g
    ensures Step(g.Snapshot(), outcome) == FirstTap(old(g.Snapshot()), c)
  {
    var refused := Refused(g, c);
    if refused {
      return Ignored;
    }
    var found := Locate(g.tableau, c);
    g.firstSelectedCard := Some(c);
    if found.Some? {
      g.firstSelectedSource := FromTableau;
      g.firstSelectedIndex := found.value.0;
      g.firstSelectedDepth := found.value.1;
    } else {
      g.firstSelectedSource := FromWaste;
      g.firstSelectedIndex := |g.waste| - 1;
      g.firstSelectedDepth := 0;
    }
    return Selected;
  }

  /** The guards of a first tap: a face-down card, a foundation top (found by a
      scan over the foundations) or a buried waste card is refused. */
  method Refused(g: Game, c: Card) returns (b: bool)
    ensures b == (!c.faceUp || IsTopOf(g.foundations, c) || IsBuriedWasteCard(g.waste, c))
  {
    if !c.faceUp {
      return true;
    }
    for f := 0 to |g.foundations|
      invariant forall k :: 0 <= k < f ==> !(|g.foundations[k]| > 0 && Same(Top(g.foundations[k]), c))
    {
      var pile := g.foundations[f];
      if |pile| > 0 && Same(pile[|pile| - 1], c) {
        return true;
      }
    }
    var w := g.waste;
    return (|w| > 1 && Same(w[|w| - 2], c)) || (|w| > 2 && Same(w[|w| - 3], c));
  }

  /** The scan of a first tap over the tableau, column by column and bottom to top. */
  method Locate(t: seq<seq<Card>>, c: Card) returns (r: Option<(nat, nat)>)
    ensures r == LocateFrom(t, c, 0)
  {
    for i := 0 to |t|
      invariant LocateFrom(t, c, 0) == LocateFrom(t, c, i)
    {
      var pile := t[i];
      for j := 0 to |pile|
        invariant IndexFrom(pile, c, 0) == IndexFrom(pile, c, j)
      {
        if Same(pile[j], c) {
          return Some((i, j));
        }
      }
    }
    return None;
  }

  /** The second-tap branch of a card tap: columns are tried before foundations. */
  method ResolveSelection(g: Game, c: Card) returns (outcome: Outcome)
    requires Shaped(g.Snapshot()) && g.firstSelectedCard.Some?
    modifies g
    ensures Step(g.Snapshot(), outcome) == SecondTap(old(g.Snapshot()), c)
  {
    g.secondSelectedCard := Some(c);
    var first := g.firstSelectedCard.value;
    if Same(c, first) {
      g.CancelFirstSelection();
      g.CancelSecondSelection();
      return Cancelled;
    }
    ghost var s1 := g.Snapshot();
    for i := 0 to 7
      invariant g.Snapshot() == s1
      invariant TableauRule(first, c) ==> TopPileFrom(s1.tableau, c, 0) == TopPileFrom(s1.tableau, c, i)
    {
      var pile := g.tableau[i];
      if |pile| != 0 {
        var last := pile[|pile| - 1];
        if Same(c, last) && first.rank == c.rank - 1 && Color(first) != Color(c) {
          outcome := MoveOntoColumn(g, i);
          return;
        }
      }
    }
    for f := 0 to 4
      invariant g.Snapshot() == s1
      invariant FoundationRule(first, c) ==> TopPileFrom(s1.foundations, c, 0) == TopPileFrom(s1.foundations, c, f)
    {
      var pile := g.foundations[f];
      if |pile| != 0 {
        var last := pile[|pile| - 1];
        if Same(c, last) && first.rank == c.rank + 1 && first.suit == c.suit {
          outcome := MoveOntoFoundation(g, f);
          return;
        }
      }
    }
    return Unmatched;
  }

  /** Turns the top card of column i face-up if it is face-down. */
  method FlipNewTop(g: Game, i: nat)
    requires i < |g.tableau|
    modifies g
    ensures g.Snapshot() == old(g.Snapshot()).(tableau := old(g.tableau)[i := Reveal(old(g.tableau)[i])])
  {
    if |g.tableau[i]| > 0 {
      var pile := g.tableau[i];
      var last := pile[|pile| - 1];
      if !last.faceUp {
        g.tableau := g.tableau[i := pile[..|pile| - 1] + [last.(faceUp := true)]];
      }
    }
  }

  /** Ends a successful move: both selections cleared, one move counted. */
  method FinishMove(g: Game)
    modifies g
    ensures Step(g.Snapshot(), Moved) == Done(old(g.Snapshot()), old(g.Snapshot()))
  {
    g.CancelFirstSelection();
    g.CancelSecondSelection();
    g.moveCount := g.moveCount + 1;
  }

  /** The selection onto column i. */
  method MoveOntoColumn(g: Game, i: nat) returns (outcome: Outcome)
    requires Shaped(g.Snapshot()) && i < 7
    modifies g
    ensures Step(g.Snapshot(), outcome) == MoveToTableau(old(g.Snapshot()), i)
  {
    if g.firstSelectedSource == FromTableau {
      var src, d := g.firstSelectedIndex, g.firstSelectedDepth;
      if !(0 <= src < 7 && 0 <= d <= |g.tableau[src]|) {
        return Crashed;
      }
      g.tableau := g.tableau[i := g.tableau[i] + g.tableau[src][d..]];
      g.tableau := g.tableau[src := g.tableau[src][..d]];
      FlipNewTop(g, src);
    } else {
      if |g.waste| == 0 {
        return Crashed;
      }
      g.tableau := g.tableau[i := g.tableau[i] + [g.waste[|g.waste| - 1]]];
      g.waste := g.waste[..|g.waste| - 1];
    }
    FinishMove(g);
    return Moved;
  }

  /** The selection onto foundation f. */
  method MoveOntoFoundation(g: Game, f: nat) returns (outcome: Outcome)
    requires Shaped(g.Snapshot()) && f < 4
    modifies g
    ensures Step(g.Snapshot(), outcome) == MoveToFoundation(old(g.Snapshot()), f)
  {
    if g.firstSelectedSource == FromTableau {
      var src, d := g.firstSelectedIndex, g.firstSelectedDepth;
      if !(0 <= src < 7 && |g.tableau[src]| > 0 && 0 <= d <= |g.tableau[src]|) {
        return Crashed;
      }
      var col := g.tableau[src];
      g.foundations := g.foundations[f := g.foundations[f] + [col[|col| - 1]]];
      g.tableau := g.tableau[src := g.tableau[src][..d]];
      FlipNewTop(g, src);
    } else {
      if |g.waste| == 0 {
        return Crashed;
      }
      g.foundations := g.foundations[f := g.foundations[f] + [g.waste[|g.waste| - 1]]];
      g.waste := g.waste[..|g.waste| - 1];
    }
    FinishMove(g);
    return Moved;
  }

  /** A tap on an empty-pile placeholder of the given kind and index. */
  method EmptyPileTapped(g: Game, kind: PileKind, idx: int) returns (outcome: Outcome)
    requires Shaped(g.Snapshot()) && ValidPileIndex(kind, idx)
    modifies g
    ensures Step(g.Snapshot(), outcome) == TapEmptyPile(old(g.Snapshot()), kind, idx)
  {
    if g.firstSelectedCard.None? {
      return Ignored;
    }
    if kind == TableauPile {
      outcome := PlaceKing(g, idx);
    } else {
      outcome := PlaceAce(g, idx);
    }
  }

  /** The empty-column branch of an empty-pile tap. */
  method PlaceKing(g: Game, idx: nat) returns (outcome: Outcome)
    requires Shaped(g.Snapshot()) && g.firstSelectedCard.Some? && idx < 7
    modifies g
    ensures Step(g.Snapshot(), outcome) == KingOntoEmpty(old(g.Snapshot()), idx)
  {
    if g.firstSelectedCard.value.rank != King {
      return Ignored;
    }
    if g.firstSelectedSource == FromTableau {
      var i, d := g.firstSelectedIndex, g.firstSelectedDepth;
      if !(0 <= i < 7 && 0 <= d <= |g.tableau[i]|) {
        return Crashed;
      }
      var src := g.tableau[i];
      var group := src[d..];
      g.tableau := g.tableau[idx := g.tableau[idx] + group];
      assert g.tableau[i][..d] == src[..d];
      g.tableau := g.tableau[i := src[..d]];
      FlipNewTop(g, i);
    } else if g.firstSelectedSource == FromWaste {
      if |g.waste| == 0 {
        return Crashed;
      }
      g.tableau := g.tableau[idx := g.tableau[idx] + [g.waste[|g.waste| - 1]]];
      g.waste := g.waste[..|g.waste| - 1];
    }
    FinishMove(g);
    return Moved;
  }

  /** The empty-foundation branch of an empty-pile tap. */
  method PlaceAce(g: Game, idx: nat) returns (outcome: Outcome)
    requires Shaped(g.Snapshot()) && g.firstSelectedCard.Some? && idx < 4
    modifies g
    ensures Step(g.Snapshot(), outcome) == AceOntoEmpty(old(g.Snapshot()), idx)
  {
    var first := g.firstSelectedCard.value;
    if first.rank != Ace {
      return Ignored;
    }
    if g.firstSelectedSource == FromTableau {
      var i, d := g.firstSelectedIndex, g.firstSelectedDepth;
      if !(0 <= i < 7 && 0 <= d <= |g.tableau[i]|) {
        return Crashed;
      }
      g.foundations := g.foundations[idx := g.foundations[idx] + [first]];
      g.tableau := g.tableau[i := g.tableau[i][..d]];
      FlipNewTop(g, i);
    } else if g.firstSelectedSource == FromWaste {
      if |g.waste| == 0 {
        return Crashed;
      }
      g.foundations := g.foundations[idx := g.foundations[idx] + [g.waste[|g.waste| - 1]]];
      g.waste := g.waste[..|g.waste| - 1];
    }
    FinishMove(g);
    return Moved;
  }
}
