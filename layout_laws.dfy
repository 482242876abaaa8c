/** LayoutLaws: the face-down-prefix layout and the stacking of the columns,
    and the ascending same-suit runs of the foundations, across taps and draws;
    how a selection stays current or goes stale; and the move sequences that
    break these: a column-to-foundation move from below the top, a group moved
    onto its own column after a stale waste move, and a stale waste Ace move. */
module LayoutLaws {
  import opened Cards
  import opened Piles
  import opened Deck
  import opened Game
  import opened GameLaws
  import opened Tapping
  import opened TapLaws

  /** In every column the face-down cards come first, and the waste is face-up. */
  predicate Layered(s: State)
  {
    (forall i :: 0 <= i < |s.tableau| ==> FaceDownPrefix(s.tableau[i])) && AllFaceUp(s.waste)
  }

  lemma PrefixKeepsLayer(col: seq<Card>, d: nat)
    requires FaceDownPrefix(col) && d <= |col|
    ensures FaceDownPrefix(col[..d])
  {
  }

  lemma AppendFaceUp(a: seq<Card>, b: seq<Card>)
    requires FaceDownPrefix(a) && AllFaceUp(b)
    ensures FaceDownPrefix(a + b)
  {
  }

  /** The cards from a face-up card of a layered column to its top are all face-up. */
  lemma RunIsFaceUp(col: seq<Card>, d: nat)
    requires FaceDownPrefix(col) && d < |col| && col[d].faceUp
    ensures AllFaceUp(col[d..])
  {
  }

  /** A new game is layered. */
  lemma InitialLayered(picks: seq<int>)
    requires ValidPicks(52, picks)
    ensures Layered(InitialState(picks))
  {
    InitialLayout(picks);
  }

  /** Drawing and recycling keep the layout: drawn cards land face-up on the waste. */
  lemma DrawKeepsLayered(s: State)
    requires Layered(s)
    ensures Layered(AfterDraw(s))
  {
    if s.stock != [] {
      var n := |s.stock|;
      var k := DrawSize(s.drawCount, n);
      var drawn := Flipped(Reverse(s.stock[n - k..]), true);
      assert AfterDraw(s).waste == s.waste + drawn;
    }
  }

  /** Moving a face-up run from column src onto column dst keeps every column layered. */
  lemma MoveGroupLayered(t: seq<seq<Card>>, src: nat, d: nat, dst: nat)
    requires src < |t| && dst < |t| && d < |t[src]| && t[src][d].faceUp
    requires forall i :: 0 <= i < |t| ==> FaceDownPrefix(t[i])
    ensures forall i :: 0 <= i < |t| ==> FaceDownPrefix(MoveGroup(t, src, d, dst)[i])
  {
    var t1 := t[dst := t[dst] + t[src][d..]];
    RunIsFaceUp(t[src], d);
    AppendFaceUp(t[dst], t[src][d..]);
    assert FaceDownPrefix(t1[src]);
    PrefixKeepsLayer(t1[src], d);
    RevealOnlyTurnsTop(t1[src][..d]);
  }

  /** Cutting column src back to d cards and revealing its top keeps it layered. */
  lemma CutLayered(col: seq<Card>, d: nat)
    requires FaceDownPrefix(col) && d <= |col|
    ensures FaceDownPrefix(Reveal(col[..d]))
  {
    PrefixKeepsLayer(col, d);
    RevealOnlyTurnsTop(col[..d]);
  }

  /** The waste top onto a column keeps the layout. */
  lemma WasteTopLayered(s: State, i: nat)
    requires Layered(s) && i < |s.tableau| && s.waste != []
    ensures Layered(s.(tableau := s.tableau[i := s.tableau[i] + [Top(s.waste)]], waste := Pop(s.waste)))
  {
    AppendFaceUp(s.tableau[i], [Top(s.waste)]);
  }

  /** A move onto a column keeps the layout when a column selection is current;
      a waste selection, stale or not, moves a face-up waste card. */
  lemma MoveToTableauLayered(s: State, i: nat)
    requires Shaped(s) && i < 7 && Layered(s) && ColumnSelectionCurrent(s) && s.firstCard.Some?
    ensures Layered(MoveToTableau(s, i).state)
  {
    if s.firstSource == FromTableau {
      MoveGroupLayered(s.tableau, s.firstIndex, s.firstDepth, i);
    } else if s.waste != [] {
      WasteTopLayered(s, i);
    }
  }

  lemma MoveToFoundationLayered(s: State, f: nat)
    requires Shaped(s) && f < 4 && Layered(s)
    ensures Layered(MoveToFoundation(s, f).state)
  {
    var src, d := s.firstIndex, s.firstDepth;
    if s.firstSource == FromTableau && 0 <= src < 7 && |s.tableau[src]| > 0 && 0 <= d <= |s.tableau[src]| {
      CutLayered(s.tableau[src], d);
    }
  }

  /** A card tap keeps the layout as long as a column selection is current. */
  lemma TapKeepsLayered(s: State, c: Card)
    requires Shaped(s) && Layered(s) && ColumnSelectionCurrent(s)
    ensures Layered(TapCard(s, c).state)
  {
    if s.firstCard.Some? {
      var first := s.firstCard.value;
      var s1 := s.(secondCard := Some(c));
      if !Same(c, first) {
        var col := if TableauRule(first, c) then TopPileFrom(s1.tableau, c, 0) else None;
        var f := if FoundationRule(first, c) then TopPileFrom(s1.foundations, c, 0) else None;
        if col.Some? {
          MoveToTableauLayered(s1, col.value);
        } else if f.Some? {
          MoveToFoundationLayered(s1, f.value);
        }
      }
    }
  }

  /** A tap on an empty pile keeps the layout as long as a column selection is
      current. */
  lemma EmptyTapKeepsLayered(s: State, kind: PileKind, idx: int)
    requires Shaped(s) && ValidPileIndex(kind, idx) && Layered(s) && ColumnSelectionCurrent(s)
    ensures Layered(TapEmptyPile(s, kind, idx).state)
  {
    if s.firstCard.Some? {
      match kind
      case TableauPile => KingOntoEmptyLayered(s, idx);
      case FoundationPile => AceOntoEmptyLayered(s, idx);
    }
  }

  lemma KingOntoEmptyLayered(s: State, idx: nat)
    requires Shaped(s) && idx < 7 && s.firstCard.Some? && Layered(s) && ColumnSelectionCurrent(s)
    ensures Layered(KingOntoEmpty(s, idx).state)
  {
    var src, d := s.firstIndex, s.firstDepth;
    if s.firstCard.value.rank == King {
      if s.firstSource == FromTableau {
        MoveGroupLayered(s.tableau, src, d, idx);
      } else if s.firstSource == FromWaste && s.waste != [] {
        WasteTopLayered(s, idx);
      }
    }
  }

  lemma AceOntoEmptyLayered(s: State, idx: nat)
    requires Shaped(s) && idx < 4 && s.firstCard.Some? && Layered(s)
    ensures Layered(AceOntoEmpty(s, idx).state)
  {
    var src, d := s.firstIndex, s.firstDepth;
    if s.firstCard.value.rank == Ace && s.firstSource == FromTableau && 0 <= src < 7 && 0 <= d <= |s.tableau[src]| {
      CutLayered(s.tableau[src], d);
    }
  }

  // ---------------------------------------------------------------------------
  // Stacked columns: face-down cards first, then a run descending by one.

  /** A new game's columns are stacked: each shows only its last card. */
  lemma InitialStacked(picks: seq<int>)
    requires ValidPicks(52, picks)
    ensures Stacked(InitialState(picks))
  {
    InitialLayout(picks);
  }

  lemma DescendingSlice(col: seq<Card>, lo: nat, hi: nat)
    requires Descending(col) && lo <= hi <= |col|
    ensures Descending(col[lo..hi])
  {
    var r := col[lo..hi];
    forall k | 0 <= k < |r| - 1 && r[k].faceUp ensures r[k + 1].rank == r[k].rank - 1 {
      assert r[k] == col[lo + k] && r[k + 1] == col[lo + k + 1];
    }
  }

  /** Two descending runs join into one when the second starts one rank below a
      face-up top of the first. */
  lemma DescendingJoin(a: seq<Card>, b: seq<Card>)
    requires Descending(a) && Descending(b)
    requires a != [] && b != [] && Top(a).faceUp ==> b[0].rank == Top(a).rank - 1
    ensures Descending(a + b)
  {
    var r := a + b;
    forall k | 0 <= k < |r| - 1 && r[k].faceUp ensures r[k + 1].rank == r[k].rank - 1 {
      if k < |a| - 1 {
        assert r[k] == a[k] && r[k + 1] == a[k + 1];
      } else if k == |a| - 1 {
        assert r[k] == Top(a) && r[k + 1] == b[0];
      } else {
        assert r[k] == b[k - |a|] && r[k + 1] == b[k - |a| + 1];
      }
    }
  }

  lemma RevealKeepsDescending(col: seq<Card>)
    requires Descending(col)
    ensures Descending(Reveal(col))
  {
    RevealOnlyTurnsTop(col);
  }

  /** Cutting a stacked column and revealing its new top keeps it stacked. */
  lemma CutStacked(col: seq<Card>, d: nat)
    requires FaceDownPrefix(col) && Descending(col) && d <= |col|
    ensures FaceDownPrefix(Reveal(col[..d])) && Descending(Reveal(col[..d]))
  {
    CutLayered(col, d);
    DescendingSlice(col, 0, d);
    assert col[..d] == col[0..d];
    RevealKeepsDescending(col[..d]);
  }

  /** A face-up run moved from one stacked column onto another, whose face-up top
      ranks one above the run's first card, leaves every column stacked. */
  lemma MoveGroupStacked(t: seq<seq<Card>>, src: nat, d: nat, dst: nat)
    requires src < |t| && dst < |t| && src != dst && d < |t[src]| && t[src][d].faceUp
    requires forall i :: 0 <= i < |t| ==> FaceDownPrefix(t[i]) && Descending(t[i])
    requires t[dst] != [] && Top(t[dst]).faceUp ==> t[src][d].rank == Top(t[dst]).rank - 1
    ensures forall i :: 0 <= i < |t| ==>
      FaceDownPrefix(MoveGroup(t, src, d, dst)[i]) && Descending(MoveGroup(t, src, d, dst)[i])
  {
    var group := t[src][d..];
    MoveGroupLayered(t, src, d, dst);
    DescendingSlice(t[src], d, |t[src]|);
    assert group == t[src][d..|t[src]|];
    DescendingJoin(t[dst], group);
    CutStacked(t[src], d);
    var r := MoveGroup(t, src, d, dst);
    assert r[dst] == t[dst] + group && r[src] == Reveal(t[src][..d]);
  }

  /** The waste top, face-up and one rank below a face-up column top, onto that
      column leaves every column stacked. */
  lemma WasteTopStacked(t: seq<seq<Card>>, i: nat, w: Card, u: seq<seq<Card>>)
    requires i < |t| && w.faceUp && u == t[i := t[i] + [w]]
    requires forall j :: 0 <= j < |t| ==> FaceDownPrefix(t[j]) && Descending(t[j])
    requires t[i] != [] && Top(t[i]).faceUp ==> w.rank == Top(t[i]).rank - 1
    ensures forall j :: 0 <= j < |u| ==> FaceDownPrefix(u[j]) && Descending(u[j])
  {
    AppendFaceUp(t[i], [w]);
    DescendingJoin(t[i], [w]);
  }

  /** A card tap keeps the columns stacked while the selection is current. A
      stale waste selection can put a card of any rank on a column
      (StaleWasteMoveLosesCards). */
  lemma TapKeepsStacked(s: State, c: Card)
    requires Shaped(s) && Stacked(s) && SelectionCurrent(s)
    ensures Stacked(TapCard(s, c).state)
  {
    if s.firstCard.Some? {
      var first := s.firstCard.value;
      var s1 := s.(secondCard := Some(c));
      if !Same(c, first) {
        var col := if TableauRule(first, c) then TopPileFrom(s1.tableau, c, 0) else None;
        var f := if FoundationRule(first, c) then TopPileFrom(s1.foundations, c, 0) else None;
        var src, d := s.firstIndex, s.firstDepth;
        if col.Some? {
          var i := col.value;
          assert TapCard(s, c) == MoveToTableau(s1, i);
          if s.firstSource == FromTableau {
            RunRank(s.tableau[src], d, |s.tableau[src]| - 1);
            assert src != i;
            MoveGroupStacked(s.tableau, src, d, i);
          } else {
            WasteTopStacked(s.tableau, i, Top(s.waste), s.tableau[i := s.tableau[i] + [Top(s.waste)]]);
          }
        } else if f.Some? {
          assert TapCard(s, c) == MoveToFoundation(s1, f.value);
          if s.firstSource == FromTableau {
            CutStacked(s.tableau[src], d);
          }
        }
      }
    }
  }

  /** A tap on an empty pile keeps the columns stacked while the selection is
      current and the tapped column is indeed empty. */
  lemma EmptyTapKeepsStacked(s: State, kind: PileKind, idx: int)
    requires Shaped(s) && ValidPileIndex(kind, idx) && Stacked(s) && SelectionCurrent(s)
    requires kind == TableauPile ==> s.tableau[idx] == []
    ensures Stacked(TapEmptyPile(s, kind, idx).state)
  {
    if s.firstCard.Some? {
      var src, d := s.firstIndex, s.firstDepth;
      match kind
      case TableauPile =>
        if s.firstSource == FromTableau {
          MoveGroupStacked(s.tableau, src, d, idx);
        } else if s.firstSource == FromWaste {
          WasteTopStacked(s.tableau, idx, Top(s.waste), s.tableau[idx := s.tableau[idx] + [Top(s.waste)]]);
        }
      case FoundationPile =>
        if s.firstSource == FromTableau {
          CutStacked(s.tableau[src], d);
        }
    }
  }

  // ---------------------------------------------------------------------------
  // Built foundations: each an ascending same-suit run from the Ace.

  /** The pile holds Ace, 2, 3, ... of the suit of its first card. */
  predicate Built(p: seq<Card>)
  {
    forall k :: 0 <= k < |p| ==> p[k].rank == k + 1 && p[k].suit == p[0].suit
  }

  predicate AllBuilt(ps: seq<seq<Card>>)
  {
    forall f :: 0 <= f < |ps| ==> Built(ps[f])
  }

  predicate FoundationsBuilt(s: State)
  {
    AllBuilt(s.foundations)
  }

  /** A built pile takes an Ace when empty, and otherwise the next rank of its suit. */
  lemma BuiltAppend(ps: seq<seq<Card>>, f: nat, x: Card)
    requires f < |ps| && AllBuilt(ps)
    requires ps[f] == [] ==> x.rank == Ace
    requires ps[f] != [] ==> x.rank == Top(ps[f]).rank + 1 && x.suit == Top(ps[f]).suit
    ensures AllBuilt(ps[f := ps[f] + [x]])
  {
    var p, q := ps[f], ps[f] + [x];
    forall k | 0 <= k < |q| ensures q[k].rank == k + 1 && q[k].suit == q[0].suit {
      if k < |p| {
        assert q[k] == p[k] && q[0] == p[0];
      } else if p != [] {
        assert q[k] == x && q[0] == p[0] && Top(p) == p[|p| - 1];
      }
    }
    assert Built(q);
  }

  /** A new game's foundations are empty, hence built. */
  lemma InitialFoundationsBuilt(picks: seq<int>)
    requires ValidPicks(52, picks)
    ensures FoundationsBuilt(InitialState(picks))
  {
    InitialLayout(picks);
  }

  /** A draw or recycle does not touch the foundations. */
  lemma DrawKeepsFoundationsBuilt(s: State)
    requires FoundationsBuilt(s)
    ensures FoundationsBuilt(AfterDraw(s))
  {
    DrawKeepsPartition(s);
  }

  /** A card tap keeps the foundations built while the selection is current and
      a column card goes to a foundation only from its column's top. A column
      selection below its top sends the column's top card instead
      (LossUnbuildsFoundation). */
  lemma TapKeepsFoundationsBuilt(s: State, c: Card)
    requires Shaped(s) && FoundationsBuilt(s) && SelectionCurrent(s)
    requires s.firstCard.Some? && FoundationRule(s.firstCard.value, c) && IsTopOf(s.foundations, c) ==>
               SelectedOnTop(s)
    ensures FoundationsBuilt(TapCard(s, c).state)
  {
    if s.firstCard.Some? {
      var first := s.firstCard.value;
      var s1 := s.(secondCard := Some(c));
      if !Same(c, first) {
        var col := if TableauRule(first, c) then TopPileFrom(s1.tableau, c, 0) else None;
        var f := if FoundationRule(first, c) then TopPileFrom(s1.foundations, c, 0) else None;
        if col.Some? {
          assert TapCard(s, c) == MoveToTableau(s1, col.value);
        } else if f.Some? {
          var i := f.value;
          assert TapCard(s, c) == MoveToFoundation(s1, i);
          assert IsTopOf(s.foundations, c) by {
            assert 0 <= i < 4 && |s.foundations[i]| > 0 && Same(Top(s.foundations[i]), c);
          }
          if s.firstSource == FromTableau {
            assert Top(s.tableau[s.firstIndex]) == first;
          }
          BuiltAppend(s.foundations, i, first);
        }
      }
    }
  }

  /** A tap on an empty foundation keeps the foundations built while a waste
      selection is current: a column Ace is appended itself, a waste selection
      appends the waste top (StaleWasteAceMove). */
  lemma EmptyTapKeepsFoundationsBuilt(s: State, kind: PileKind, idx: int)
    requires Shaped(s) && ValidPileIndex(kind, idx) && FoundationsBuilt(s)
    requires s.firstSource == FromWaste ==> SelectionCurrent(s)
    requires kind == FoundationPile ==> s.foundations[idx] == []
    ensures FoundationsBuilt(TapEmptyPile(s, kind, idx).state)
  {
    if s.firstCard.Some? && kind == FoundationPile && s.firstCard.value.rank == Ace {
      if s.firstSource == FromTableau {
        BuiltAppend(s.foundations, idx, s.firstCard.value);
      } else if s.firstSource == FromWaste {
        BuiltAppend(s.foundations, idx, Top(s.waste));
      }
    }
  }

  // ---------------------------------------------------------------------------
  // When a selection is current.

  /** c is a card of the board as it lies there: a column card or the waste top,
      and every column card with its identity is c itself. */
  predicate TapsBoardCard(s: State, c: Card)
  {
    ((exists i, j :: 0 <= i < |s.tableau| && 0 <= j < |s.tableau[i]| && s.tableau[i][j] == c)
     || (s.waste != [] && Top(s.waste) == c))
    && forall i, j :: 0 <= i < |s.tableau| && 0 <= j < |s.tableau[i]| && Same(s.tableau[i][j], c) ==>
         s.tableau[i][j] == c
  }

  /** A first tap on a board card leaves a current selection. */
  lemma FirstTapSelectsCurrent(s: State, c: Card)
    requires Shaped(s) && s.firstCard.None? && TapsBoardCard(s, c)
    ensures SelectionCurrent(TapCard(s, c).state)
  {
    var r := TapCard(s, c);
    if r.outcome == Selected && r.state.firstSource == FromWaste {
      FirstTapRecordsPosition(s, c);
      assert forall i, j :: 0 <= i < 7 && 0 <= j < |s.tableau[i]| ==> s.tableau[i][j] != c;
    }
  }

  /** A draw leaves a column selection current (the tableau is untouched), but a
      waste selection goes stale on a partitioned board: the selection is kept
      while a different card becomes the waste top, and that new top is what a
      waste move then takes. */
  lemma DrawStalesWasteSelection(s: State)
    requires Partitioned(s) && SelectionCurrent(s) && s.firstCard.Some?
    requires s.stock != [] && s.drawCount >= 1
    ensures var r := AfterDraw(s);
      r.firstCard == s.firstCard && r.firstSource == s.firstSource
      && (s.firstSource == FromTableau ==> SelectionCurrent(r))
      && (s.firstSource == FromWaste ==> r.waste != [] && !Same(Top(r.waste), s.firstCard.value))
  {
    var r := AfterDraw(s);
    if s.firstSource == FromWaste {
      var n := |s.stock|;
      DrawMovesTopCards(s);
      var k := DrawSize(s.drawCount, n);
      assert Top(r.waste) == s.stock[n - 1 - (k - 1)].(faceUp := true);
      var a, b := s.stock[n - k], Top(s.waste);
      IdsMembers(s.stock, a.Id());
      IdsMembers(s.waste, b.Id());
      NewDeckCanonical(a.Id());
      assert Ids(s.stock)[a.Id()] >= 1 && Ids(s.waste)[b.Id()] >= 1;
      assert BoardIds(s)[a.Id()] >= Ids(s.stock)[a.Id()] + Ids(s.waste)[a.Id()];
    }
  }

  // ---------------------------------------------------------------------------
  // The column-to-foundation move appends the column's top but cuts the column at
  // the selected card, so a selection below the top loses cards.

  const ThreeHearts := Card(Hearts, 3, true)
  const TwoSpades := Card(Spades, 2, true)
  const AceHearts := Card(Hearts, Ace, true)
  const TwoHearts := Card(Hearts, 2, true)

  /** A board whose first column ends 3 of hearts, 2 of spades, and whose first
      foundation holds the Ace and 2 of hearts; the stock is arbitrary. */
  function LossBoard(stock: seq<Card>): (s: State)
    ensures Shaped(s) && s.firstCard.None?
  {
    State(stock, [], [[AceHearts, TwoHearts], [], [], []],
          [[ThreeHearts, TwoSpades], [], [], [], [], [], []],
          0, false, 3, None, NoSource, 0, 0, None, NoSource, 0)
  }

  /** LossBoard after the 3 of hearts is selected. */
  function LossSelected(stock: seq<Card>): State
  {
    LossBoard(stock).(firstCard := Some(ThreeHearts), firstSource := FromTableau, firstIndex := 0, firstDepth := 0)
  }

  /** LossBoard after the move: the 2 of spades on the hearts foundation, the
      first column empty. */
  function LossAfter(stock: seq<Card>): State
  {
    LossBoard(stock).(foundations := [[AceHearts, TwoHearts, TwoSpades], [], [], []],
                      tableau := [[], [], [], [], [], [], []], moveCount := 1)
  }

  lemma LossFirstTap(stock: seq<Card>)
    ensures TapCard(LossBoard(stock), ThreeHearts) == Step(LossSelected(stock), Selected)
  {
    var t0 := LossBoard(stock).tableau;
    assert IndexFrom(t0[0], ThreeHearts, 0) == Some(0);
    assert LocateFrom(t0, ThreeHearts, 0) == Some((0, 0));
  }

  lemma LossSecondTap(stock: seq<Card>)
    ensures TapCard(LossSelected(stock), TwoHearts) == Step(LossAfter(stock), Moved)
  {
    var s1 := LossSelected(stock);
    var s2 := s1.(secondCard := Some(TwoHearts));
    assert TopPileFrom(s1.foundations, TwoHearts, 0) == Some(0);
    assert !TableauRule(ThreeHearts, TwoHearts);
    assert TapCard(s1, TwoHearts) == MoveToFoundation(s2, 0);
    assert s2.tableau[0][..0] == [] && Top(s2.tableau[0]) == TwoSpades;
    assert [AceHearts, TwoHearts] + [TwoSpades] == [AceHearts, TwoHearts, TwoSpades];
  }

  /** A row whose piles after the first are empty holds the first pile's cards. */
  lemma {:induction false} AllIdsOnlyFirst(ps: seq<seq<Card>>)
    requires |ps| >= 1 && forall i :: 1 <= i < |ps| ==> ps[i] == []
    ensures AllIds(ps) == Ids(ps[0])
  {
    var n := |ps| - 1;
    if n > 0 {
      AllIdsOnlyFirst(ps[..n]);
      assert Ids(ps[n]) == multiset{};
    } else {
      assert ps[..n] == [];
    }
  }

  lemma LossIds(stock: seq<Card>)
    ensures BoardIds(LossAfter(stock)) + multiset{ThreeHearts.Id()} == BoardIds(LossBoard(stock))
  {
    var s0, r := LossBoard(stock), LossAfter(stock);
    AllIdsOnlyFirst(s0.foundations);
    AllIdsOnlyFirst(s0.tableau);
    AllIdsOnlyFirst(r.foundations);
    AllIdsOnlyFirst(r.tableau);
    var a, h, t, sp := [AceHearts], [TwoHearts], [ThreeHearts], [TwoSpades];
    assert r.foundations[0] == a + h + sp && s0.foundations[0] == a + h;
    assert s0.tableau[0] == t + sp;
    IdsConcat(a + h, sp);
    IdsConcat(t, sp);
    assert Ids(t) == multiset{ThreeHearts.Id()} by { assert IdSeq(t) == [ThreeHearts.Id()]; }
    assert Ids([]) == multiset{};
  }

  /** Selecting the 3 of hearts and tapping the 2 of hearts on the foundation puts
      the 2 of spades on the hearts foundation and drops the 3 of hearts, which
      is then on no pile at all: the board no longer holds the 52 cards. */
  lemma ColumnToFoundationLosesCard(stock: seq<Card>)
    ensures var s0 := LossBoard(stock);
      var sel := TapCard(s0, ThreeHearts);
      var r := TapCard(sel.state, TwoHearts);
      sel.outcome == Selected && sel.state.firstSource == FromTableau
      && sel.state.firstIndex == 0 && sel.state.firstDepth == 0
      && r.outcome == Moved
      && r.state.foundations[0] == [AceHearts, TwoHearts, TwoSpades]
      && r.state.tableau[0] == []
      && BoardIds(r.state) + multiset{ThreeHearts.Id()} == BoardIds(s0)
      && (Partitioned(s0) ==> !Partitioned(r.state))
  {
    LossFirstTap(stock);
    LossSecondTap(stock);
    LossIds(stock);
    var a, b := BoardIds(LossAfter(stock)), BoardIds(LossBoard(stock));
    assert (a + multiset{ThreeHearts.Id()})[ThreeHearts.Id()] == a[ThreeHearts.Id()] + 1;
  }

  // ---------------------------------------------------------------------------
  // A stale waste selection puts a card of the wrong rank on a column, and the
  // group move then finds the column top accepting a card of its own column: the
  // group is appended to its own column and the column is cut at the selection.

  const SixHearts := Card(Hearts, 6, true)
  const FiveSpades := Card(Spades, 5, true)
  const SevenClubs := Card(Clubs, 7, true)

  /** One face-down 7 of clubs in the stock, the 5 of spades on the waste, the 6
      of hearts alone in the first column. */
  function StaleBoard(): (s: State)
    ensures Shaped(s)
  {
    State([SevenClubs.(faceUp := false)], [FiveSpades], Empty4(), [[SixHearts], [], [], [], [], [], []],
          0, false, 3, None, NoSource, 0, 0, None, NoSource, 0)
  }

  /** After selecting the 5 of spades on the waste. */
  function StalePicked(): (s: State)
    ensures Shaped(s)
  {
    StaleBoard().(firstCard := Some(FiveSpades), firstSource := FromWaste, firstIndex := 0, firstDepth := 0)
  }

  /** After pressing the stock: the 7 of clubs covers the selected 5 of spades. */
  function StaleDrawn(): (s: State)
    ensures Shaped(s)
  {
    StalePicked().(stock := [], waste := [FiveSpades, SevenClubs], moveCount := 1)
  }

  /** After tapping the 6 of hearts: the 7 of clubs, the new waste top, sits on it. */
  function StaleMoved(): (s: State)
    ensures Shaped(s)
  {
    StaleBoard().(stock := [], waste := [FiveSpades], moveCount := 2,
                  tableau := [[SixHearts, SevenClubs], [], [], [], [], [], []])
  }

  /** After selecting the 6 of hearts in the first column. */
  function StaleRepicked(): (s: State)
    ensures Shaped(s)
  {
    StaleMoved().(firstCard := Some(SixHearts), firstSource := FromTableau, firstIndex := 0, firstDepth := 0)
  }

  /** After tapping the 7 of clubs: every column is empty. */
  function StaleLost(): (s: State)
    ensures Shaped(s)
  {
    StaleMoved().(tableau := Empty7(), moveCount := 3)
  }

  lemma StaleSelectAndDraw()
    ensures TapCard(StaleBoard(), FiveSpades) == Step(StalePicked(), Selected)
    ensures AfterDraw(StalePicked()) == StaleDrawn()
  {
    var s0 := StaleBoard();
    assert LocateFrom(s0.tableau, FiveSpades, 0) == None by {
      assert IndexFrom(s0.tableau[0], FiveSpades, 0) == None;
    }
    assert !IsTopOf(s0.foundations, FiveSpades);
    var s1 := StalePicked();
    assert Flipped(Reverse(s1.stock[0..]), true) == [SevenClubs] by {
      assert s1.stock[0..] == [SevenClubs.(faceUp := false)];
    }
  }

  lemma StaleWasteMove()
    ensures TapCard(StaleDrawn(), SixHearts) == Step(StaleMoved(), Moved)
  {
    var s := StaleDrawn();
    assert TableauRule(FiveSpades, SixHearts);
    assert TopPileFrom(s.tableau, SixHearts, 0) == Some(0);
    assert TapCard(s, SixHearts) == MoveToTableau(s.(secondCard := Some(SixHearts)), 0);
    assert Top(s.waste) == SevenClubs && Pop(s.waste) == [FiveSpades];
    assert s.tableau[0] + [SevenClubs] == [SixHearts, SevenClubs];
    assert s.tableau[0 := [SixHearts, SevenClubs]] == StaleMoved().tableau;
  }

  lemma SameColumnMove()
    ensures TapCard(StaleMoved(), SixHearts) == Step(StaleRepicked(), Selected)
    ensures TapCard(StaleRepicked(), SevenClubs) == Step(StaleLost(), Moved)
  {
    var s := StaleMoved();
    assert IndexFrom(s.tableau[0], SixHearts, 0) == Some(0);
    assert LocateFrom(s.tableau, SixHearts, 0) == Some((0, 0));
    assert !IsTopOf(s.foundations, SixHearts);
    var s1 := StaleRepicked();
    assert TableauRule(SixHearts, SevenClubs) && !FoundationRule(SixHearts, SevenClubs);
    assert TopPileFrom(s1.tableau, SevenClubs, 0) == Some(0);
    var s2 := s1.(secondCard := Some(SevenClubs));
    assert TapCard(s1, SevenClubs) == MoveToTableau(s2, 0);
    assert MoveGroup(s2.tableau, 0, 0, 0) == Empty7();
  }

  /** From a stacked, layered board: select the waste top, press the stock, tap
      the 6 of hearts (the stale selection moves the 7 of clubs onto it, and the
      column is no longer stacked), then select the 6 of hearts and tap the 7 of
      clubs. The group is appended to its own column, which is then cut at the
      selection: both cards leave the board, which keeps only the 5 of spades. */
  lemma StaleWasteMoveLosesCards()
    ensures Stacked(StaleBoard()) && Layered(StaleBoard())
    ensures TapCard(StaleBoard(), FiveSpades) == Step(StalePicked(), Selected)
            && SelectionCurrent(StalePicked())
    ensures AfterDraw(StalePicked()) == StaleDrawn() && !SelectionCurrent(StaleDrawn())
    ensures TapCard(StaleDrawn(), SixHearts) == Step(StaleMoved(), Moved) && !Stacked(StaleMoved())
    ensures TapCard(StaleMoved(), SixHearts) == Step(StaleRepicked(), Selected)
    ensures TapCard(StaleRepicked(), SevenClubs) == Step(StaleLost(), Moved)
    ensures BoardIds(StaleBoard()) == multiset{SevenClubs.Id(), FiveSpades.Id(), SixHearts.Id()}
    ensures BoardIds(StaleLost()) == multiset{FiveSpades.Id()}
  {
    StaleSelectAndDraw();
    StaleWasteMove();
    SameColumnMove();
    StaleLayout();
    StaleBoardIds();
  }

  lemma StaleLayout()
    ensures Stacked(StaleBoard()) && Layered(StaleBoard())
    ensures SelectionCurrent(StalePicked()) && !SelectionCurrent(StaleDrawn())
    ensures !Stacked(StaleMoved())
  {
    var col := StaleMoved().tableau[0];
    assert col == [SixHearts, SevenClubs];
    assert col[0].faceUp && col[1].rank != col[0].rank - 1;
  }

  lemma StaleBoardIds()
    ensures BoardIds(StaleBoard()) == multiset{SevenClubs.Id(), FiveSpades.Id(), SixHearts.Id()}
    ensures BoardIds(StaleLost()) == multiset{FiveSpades.Id()}
  {
    var s0, r := StaleBoard(), StaleLost();
    AllIdsOnlyFirst(s0.foundations);
    AllIdsOnlyFirst(s0.tableau);
    AllIdsOnlyFirst(r.foundations);
    AllIdsOnlyFirst(r.tableau);
    assert IdSeq(s0.stock) == [SevenClubs.Id()];
    assert IdSeq(s0.waste) == [FiveSpades.Id()];
    assert IdSeq(s0.tableau[0]) == [SixHearts.Id()];
    assert IdSeq(r.waste) == [FiveSpades.Id()];
    assert Ids([]) == multiset{};
  }

  /** The column-to-foundation move from below the top puts the 2 of spades on
      the hearts foundation. */
  lemma LossUnbuildsFoundation(stock: seq<Card>)
    ensures FoundationsBuilt(LossBoard(stock)) && !FoundationsBuilt(LossAfter(stock))
  {
    var p := LossAfter(stock).foundations[0];
    assert p[2].rank != 2 + 1;
    var q := LossBoard(stock).foundations[0];
    assert q == [AceHearts, TwoHearts];
    assert Built(q);
  }

  // ---------------------------------------------------------------------------
  // A stale waste selection of an Ace puts whatever card is now the waste top on
  // an empty foundation.

  const AceSpades := Card(Spades, Ace, true)

  /** The Ace of spades on the waste, a face-down 7 of clubs in the stock. */
  function AceBoard(): (s: State)
    ensures Shaped(s)
  {
    State([SevenClubs.(faceUp := false)], [AceSpades], Empty4(), Empty7(),
          0, false, 3, None, NoSource, 0, 0, None, NoSource, 0)
  }

  function AcePicked(): (s: State)
    ensures Shaped(s)
  {
    AceBoard().(firstCard := Some(AceSpades), firstSource := FromWaste, firstIndex := 0, firstDepth := 0)
  }

  function AceDrawn(): (s: State)
    ensures Shaped(s)
  {
    AcePicked().(stock := [], waste := [AceSpades, SevenClubs], moveCount := 1)
  }

  /** The 7 of clubs alone on the first foundation. */
  function AceMisplaced(): (s: State)
    ensures Shaped(s)
  {
    AceBoard().(stock := [], waste := [AceSpades], foundations := [[SevenClubs], [], [], []], moveCount := 2)
  }

  lemma AceSelectAndDraw()
    ensures TapCard(AceBoard(), AceSpades) == Step(AcePicked(), Selected)
    ensures AfterDraw(AcePicked()) == AceDrawn()
  {
    var s0 := AceBoard();
    assert LocateFrom(s0.tableau, AceSpades, 0) == None;
    assert !IsTopOf(s0.foundations, AceSpades);
    var s1 := AcePicked();
    assert Flipped(Reverse(s1.stock[0..]), true) == [SevenClubs] by {
      assert s1.stock[0..] == [SevenClubs.(faceUp := false)];
    }
  }

  lemma AceWasteMove()
    ensures TapEmptyPile(AceDrawn(), FoundationPile, 0) == Step(AceMisplaced(), Moved)
  {
    var s := AceDrawn();
    assert Top(s.waste) == SevenClubs && Pop(s.waste) == [AceSpades];
    assert s.foundations[0] + [SevenClubs] == [SevenClubs];
    assert s.foundations[0 := [SevenClubs]] == AceMisplaced().foundations;
  }

  /** Select the Ace of spades on the waste, press the stock, tap the empty first
      foundation: the 7 of clubs, the waste top by then, lands on it. */
  lemma StaleWasteAceMove()
    ensures FoundationsBuilt(AceBoard()) && SelectionCurrent(AcePicked())
    ensures TapCard(AceBoard(), AceSpades) == Step(AcePicked(), Selected)
    ensures AfterDraw(AcePicked()) == AceDrawn()
    ensures TapEmptyPile(AceDrawn(), FoundationPile, 0) == Step(AceMisplaced(), Moved)
    ensures !FoundationsBuilt(AceMisplaced())
  {
    AceSelectAndDraw();
    AceWasteMove();
    assert AceMisplaced().foundations[0][0].rank != 0 + 1;
  }
}
