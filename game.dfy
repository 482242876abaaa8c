/** Game: the aggregate of piles, counters and selection records, the deal and
    the draw/recycle cycle. */
module Game {
  import opened Cards
  import opened Piles
  import opened Deck

  /** Which pile a selection was taken from: "" (none), "waste" or "tableau". */
  datatype Source = NoSource | FromWaste | FromTableau

  /** A snapshot of every field of a game the rules read or write. */
  datatype State = State(
    stock: seq<Card>,
    waste: seq<Card>,
    foundations: seq<seq<Card>>,
    tableau: seq<seq<Card>>,
    moveCount: int,
    showDown: bool,
    drawCount: int,
    firstCard: Option<Card>,
    firstSource: Source,
    firstIndex: int,
    firstDepth: int,
    secondCard: Option<Card>,
    secondSource: Source,
    secondIndex: int)

  /** Four foundations and seven tableau columns (fixed-size arrays in the Go code). */
  predicate Shaped(s: State) { |s.foundations| == 4 && |s.tableau| == 7 }

  function Empty4(): seq<seq<Card>> { [[], [], [], []] }
  function Empty7(): seq<seq<Card>> { [[], [], [], [], [], [], []] }

  /** The zero value of a game, with the draw count set to 3. */
  function ZeroGame(): State
  {
    State([], [], Empty4(), Empty7(), 0, false, 3, None, NoSource, 0, 0, None, NoSource, 0)
  }

  // ---------------------------------------------------------------------------
  // What each operation does to the state.

  function AfterCancelFirst(s: State): State
  {
    s.(firstCard := None, firstSource := NoSource, firstIndex := 0, firstDepth := 0)
  }

  function AfterCancelSecond(s: State): State
  {
    s.(secondCard := None, secondSource := NoSource, secondIndex := 0)
  }

  function AfterReset(s: State): State
  {
    s.(stock := [], waste := [], foundations := Empty4(), tableau := Empty7(),
       moveCount := 0, showDown := false)
  }

  function AfterToggle(s: State): State
  {
    s.(showDown := !s.showDown)
  }

  /** The shuffled deck dealt by a game whose random source chose `picks`. */
  function DealtDeck(picks: seq<int>): (d: seq<Card>)
    requires ValidPicks(52, picks)
    ensures |d| == 52
  {
    Shuffled(NewDeck(), picks)
  }

  function AfterDeal(s: State, picks: seq<int>): State
    requires Shaped(s) && ValidPicks(52, picks)
  {
    var d := DealtDeck(picks);
    s.(tableau := DealTableau(s.tableau, d), stock := d[Tri(7)..])
  }

  /** A new game: the zero game with its piles reset and then dealt. */
  function InitialState(picks: seq<int>): State
    requires ValidPicks(52, picks)
  {
    AfterDeal(AfterReset(ZeroGame()), picks)
  }

  /** How many cards one draw moves from a stock of n cards. */
  function DrawSize(drawCount: int, n: nat): (k: nat)
    ensures k <= n && (k == n || k == drawCount || drawCount <= 0)
    ensures drawCount <= 0 ==> k == 0
    ensures drawCount >= 1 ==> k <= drawCount && (n >= 1 ==> k >= 1)
  {
    if drawCount <= 0 then 0 else if drawCount < n then drawCount else n
  }

  /** One press on the stock: recycle the waste when the stock is empty, otherwise
      draw; either way one move. */
  function AfterDraw(s: State): State
  {
    if s.stock == [] then
      s.(stock := Flipped(Reverse(s.waste), false), waste := [], moveCount := s.moveCount + 1)
    else
      var n := |s.stock|;
      var k := DrawSize(s.drawCount, n);
      s.(stock := s.stock[..n - k],
         waste := s.waste + Flipped(Reverse(s.stock[n - k..]), true),
         moveCount := s.moveCount + 1)
  }

  /** The first i cards a draw pops from `stock`, face-up, in popping order. */
  function Popped(stock: seq<Card>, i: nat): (r: seq<Card>)
    requires i <= |stock|
    ensures |r| == i
  {
    if i == 0 then [] else Popped(stock, i - 1) + [stock[|stock| - i].(faceUp := true)]
  }

  /** Popping k cards one at a time is turning the top k cards over as one block. */
  lemma {:induction false} PoppedIsFlippedRun(stock: seq<Card>, k: nat)
    requires k <= |stock|
    ensures Popped(stock, k) == Flipped(Reverse(stock[|stock| - k..]), true)
  {
    var n := |stock|;
    if k == 0 {
      assert stock[n..] == [];
    } else {
      PoppedIsFlippedRun(stock, k - 1);
      ReverseSuffix(stock, n - k);
      FlippedSnoc(Reverse(stock[n - (k - 1)..]), stock[n - k], true);
    }
  }

  /** A draw of k cards leaves the stock and waste the draw loop builds. */
  lemma DrawnRun(s: State, k: nat, st: seq<Card>, w: seq<Card>)
    requires s.stock != [] && k == DrawSize(s.drawCount, |s.stock|)
    requires st == s.stock[..|s.stock| - k] && w == s.waste + Popped(s.stock, k)
    ensures AfterDraw(s) == s.(stock := st, waste := w, moveCount := s.moveCount + 1)
  {
    PoppedIsFlippedRun(s.stock, k);
  }

  /** The tableau once the first `col` columns of `deck` are dealt onto `t`. */
  function DealtUpTo(t: seq<seq<Card>>, deck: seq<Card>, col: nat): (r: seq<seq<Card>>)
    requires |t| == 7 && col <= 7 && |deck| >= Tri(7)
    ensures |r| == 7
  {
    seq(7, c requires 0 <= c < 7 => if c < col then t[c] + DealColumn(deck, c) else t[c])
  }

  lemma DealtNone(t: seq<seq<Card>>, deck: seq<Card>)
    requires |t| == 7 && |deck| >= Tri(7)
    ensures DealtUpTo(t, deck, 0) == t
  {
  }

  lemma DealtNext(t: seq<seq<Card>>, deck: seq<Card>, col: nat)
    requires |t| == 7 && col < 7 && |deck| >= Tri(7)
    ensures DealtUpTo(t, deck, col)[col := t[col] + DealColumn(deck, col)] == DealtUpTo(t, deck, col + 1)
  {
  }

  lemma DealtAll(t: seq<seq<Card>>, deck: seq<Card>)
    requires |t| == 7 && |deck| >= Tri(7)
    ensures DealtUpTo(t, deck, 7) == DealTableau(t, deck)
  {
  }

  // ---------------------------------------------------------------------------
  // The game object.

  class Game {
    var stock: seq<Card>
    var waste: seq<Card>
    var foundations: seq<seq<Card>>
    var tableau: seq<seq<Card>>

    var moveCount: int
    var showDown: bool
    var drawCount: int

    // card selected on the first tap
    var firstSelectedCard: Option<Card>
    var firstSelectedSource: Source
    var firstSelectedIndex: int
    var firstSelectedDepth: int

    // card selected on the second tap
    var secondSelectedCard: Option<Card>
    var secondSelectedSource: Source
    var secondSelectedIndex: int

    function Snapshot(): State
      reads this
    {
      State(stock, waste, foundations, tableau, moveCount, showDown, drawCount,
            firstSelectedCard, firstSelectedSource, firstSelectedIndex, firstSelectedDepth,
            secondSelectedCard, secondSelectedSource, secondSelectedIndex)
    }

    /** A new game: the draw count is 3, the piles are reset, then a fresh deck is
        shuffled with the random choices `picks` and dealt. */
    constructor (picks: seq<int>)
      requires ValidPicks(52, picks)
      ensures Snapshot() == InitialState(picks)
    {
      stock, waste, foundations, tableau := [], [], Empty4(), Empty7();
      moveCount, showDown, drawCount := 0, false, 3;
      firstSelectedCard, firstSelectedSource, firstSelectedIndex, firstSelectedDepth := None, NoSource, 0, 0;
      secondSelectedCard, secondSelectedSource, secondSelectedIndex := None, NoSource, 0;
      new;
      ResetPiles();
      ShuffleAndDeal(picks);
    }

    method CancelFirstSelection()
      modifies this
      ensures Snapshot() == AfterCancelFirst(old(Snapshot()))
    {
      firstSelectedCard := None;
      firstSelectedSource := NoSource;
      firstSelectedIndex := 0;
      firstSelectedDepth := 0;
    }

    method CancelSecondSelection()
      modifies this
      ensures Snapshot() == AfterCancelSecond(old(Snapshot()))
    {
      secondSelectedCard := None;
      secondSelectedSource := NoSource;
      secondSelectedIndex := 0;
    }

    /** Empties every pile and zeroes the counters; the selection is left as it was. */
    method ResetPiles()
      modifies this
      ensures Snapshot() == AfterReset(old(Snapshot()))
    {
      stock := [];
      waste := [];
      foundations := Empty4();
      tableau := Empty7();
      moveCount := 0;
      showDown := false;
    }

    method ToggleShow()
      modifies this
      ensures Snapshot() == AfterToggle(old(Snapshot()))
    {
      showDown := !showDown;
    }

    /** Builds and shuffles a deck, deals c+1 cards onto column c (only the last
        face-up) and leaves the rest of the deck as the stock. */
    method ShuffleAndDeal(picks: seq<int>)
      requires Shaped(Snapshot()) && ValidPicks(52, picks)
      modifies this
      ensures Snapshot() == AfterDeal(old(Snapshot()), picks)
    {
      var deck := BuildDeck();
      deck := Shuffle(deck, picks);
      assert Tri(7) == 28;
      ghost var s0, t0 := Snapshot(), tableau;
      var idx := 0;
      DealtNone(t0, deck);
      for col := 0 to 7
        invariant idx == Tri(col)
        invariant tableau == DealtUpTo(t0, deck, col)
        invariant Snapshot() == s0.(tableau := tableau)
      {
        TriMonotone(col + 1, 7);
        var column := tableau[col];
        for row := 0 to col + 1
          modifies {}
          invariant idx == Tri(col) + row
          invariant column == t0[col] + DealColumn(deck, col)[..row]
        {
          var c := deck[idx];
          c := c.(faceUp := row == col);
          assert DealColumn(deck, col)[..row + 1] == DealColumn(deck, col)[..row] + [c];
          column := column + [c];
          idx := idx + 1;
        }
        assert DealColumn(deck, col)[..col + 1] == DealColumn(deck, col);
        tableau := tableau[col := column];
        DealtNext(t0, deck, col);
      }
      stock := deck[idx..];
      DealtAll(t0, deck);
    }

    /** One press on the stock. With an empty stock, every waste card goes back to
        the stock face-down, the waste top first, so the stock ends as the waste
        reversed. Otherwise up to drawCount cards move one at a time from the stock
        top onto the waste, face-up. Either way the move counter grows by one; the
        selection is not touched. */
    method DrawCards()
      modifies this
      ensures Snapshot() == AfterDraw(old(Snapshot()))
    {
      if |stock| == 0 {
        RecycleWaste();
        return;
      }
      DrawFromStock();
    }

    /** The empty-stock branch of a draw. */
    method RecycleWaste()
      requires stock == []
      modifies this
      ensures Snapshot() == AfterDraw(old(Snapshot()))
    {
      var i := |waste| - 1;
      while i >= 0
        invariant -1 <= i < |old(waste)|
        invariant waste == old(waste)[..i + 1]
        invariant stock == Flipped(Reverse(old(waste)[i + 1..]), false)
        invariant Snapshot() == old(Snapshot()).(stock := stock, waste := waste)
      {
        var c := waste[i];
        c := c.(faceUp := false);
        ReverseSuffix(old(waste), i);
        FlippedSnoc(Reverse(old(waste)[i + 1..]), old(waste)[i], false);
        stock := stock + [c];
        waste := waste[..i];
        i := i - 1;
      }
      assert old(waste)[0..] == old(waste);
      moveCount := moveCount + 1;
    }

    /** The non-empty-stock branch of a draw: the loop pops the stock top and
        pushes it face-up onto the waste until drawCount cards have moved or the
        stock is empty. */
    method DrawFromStock()
      requires stock != []
      modifies this
      ensures Snapshot() == AfterDraw(old(Snapshot()))
    {
      ghost var s0 := Snapshot();
      var i := 0;
      while i < drawCount && |stock| > 0
        invariant 0 <= i <= |s0.stock| && (i == 0 || i <= drawCount)
        invariant stock == s0.stock[..|s0.stock| - i] && waste == s0.waste + Popped(s0.stock, i)
        invariant Snapshot() == s0.(stock := stock, waste := waste)
      {
        var c := stock[|stock| - 1];
        stock := stock[..|stock| - 1];
        c := c.(faceUp := true);
        waste := waste + [c];
        i := i + 1;
      }
      DrawnRun(s0, i, stock, waste);
      moveCount := moveCount + 1;
    }
  }
}
