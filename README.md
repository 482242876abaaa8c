# Klondike solitaire engine

A Dafny model of the rule and state engine of a Klondike solitaire game written
in Go with the Fyne toolkit. The model covers:

- the `Game` aggregate: stock, waste, four foundations, seven tableau columns,
  the move counter, the draw count, the show-face-down flag and the two
  selection records;
- its housekeeping: `NewGame`, `resetPiles`, `shuffleAndDeal`, `drawCards`,
  `toggleShow`, `cancelFirstSelection` and `cancelSecondSelection`;
- the two-tap state machine of `CardWidget.Tapped`, which selects a card, cancels
  a selection, or makes a tableau or foundation move;
- `EmptyPileWidget.Tapped`, which moves a King onto an empty column or an Ace
  onto an empty foundation;
- the card model: suit and rank constants, `Color`, the label shown by `cardFace`
  and the selection outline drawn by `CreateRenderer`.

Modules, in dependency order:

- `Cards` (`cards.dfy`): the card value, its colour and its label.
- `Piles` (`piles.dfy`): piles as sequences, and the multiset of card identities
  they hold.
- `Deck` (`deck.dfy`): the deck builder, Go's `rand.Shuffle` loop with the random
  choices as a parameter, and the deal.
- `Game` (`game.dfy`): a `State` value holding every field the rules touch, and
  `class Game`, whose fields mirror the Go struct. Each method of the class
  ensures that its new `Snapshot()` is a named function of the old snapshot
  (`AfterDraw`, `AfterReset`, ...).
- `GameLaws` (`game_laws.dfy`): what the deal, the draw cycle, the reset and the
  toggle promise. It also defines the card-partition invariant `Partitioned`:
  the piles together hold each of the 52 cards exactly once.
- `Tapping` (`tapped.dfy`): the two tap handlers, written as loops over the
  piles. Each handler is proved equal to a specification function (`TapCard`,
  `TapEmptyPile`) that returns the new state and an `Outcome`:
  Ignored, Selected, Cancelled, Moved, Unmatched or Crashed.
- `TapLaws` (`tap_laws.dfy`): what a tap does to the selection, to the counter
  and to the cards on the board.
- `LayoutLaws` (`layout_laws.dfy`): face-down cards stay a prefix of every
  column, columns stay stacked (face-down cards, then a run descending by one
  rank), how a selection becomes stale, and two concrete boards on which moves
  lose cards: a column-to-foundation move from below the top, and a group moved
  onto its own column.
- `Render` (`render.dfy`): which cards are outlined as selected.

Go cards are pointers compared by identity. Each (suit, rank) pair occurs once
in a deck, so a card is modelled as a value `Card(suit, rank, faceUp)`, and
pointer equality becomes `Same`, which compares `(suit, rank)`.

A Go index or slice expression that would panic is modelled as the outcome
`Crashed`. Examples are taking the waste top when the waste is empty, or
cutting a column at a depth beyond its length. A `Crashed` step carries the
state as it was before the move began to change any pile.

## Behaviour worth knowing

- `secondSelectedCard` stays set after a second tap that makes no move
  (tapped.go:53). `SecondTapUnmatched` states this.
- A column-to-foundation move appends the column's *last* card but cuts the
  column at the selection depth (tapped.go:99-100). When the selection is below
  the top, the cards between leave the board. `ColumnToFoundationLosesCard`
  exhibits such a board. The card-keeping lemmas assume the selection is the
  column top for this move.
- A group move appends `tableau[i][d:]` to the target column and then cuts the
  source column to `[:d]` (tapped.go:71-72). When source and target are the same
  column, the whole group leaves the board.
  `StaleWasteMoveLosesCards` reaches this from a stacked board in five steps.
- An Ace moved onto an empty foundation from a column appends the *selected*
  card (tapped.go:159). Moved from the waste, it appends the *current* waste top
  (tapped.go:168).
- No move re-checks its selection, and `drawCards` does not clear it
  (game.go:105-123). After a draw, a waste selection therefore moves whatever
  card is now the waste top (`DrawStalesWasteSelection`), which may break the
  descending order of a column. After a recycle has emptied the waste, it
  crashes.
- Foundations stay ascending same-suit runs from the Ace only while selections
  are current and column cards leave from their column's top. The
  column-to-foundation move above and a stale waste Ace selection
  (tapped.go:166-168) both break a run (`LossUnbuildsFoundation`,
  `StaleWasteAceMove`).
- A full draw-then-recycle cycle restores the stock in its exact order
  (game.go:107-121, `DrawCycleRestoresStock`).

## Model

| member | source | states |
|---|---|---|
| Cards.Color | card.go:72-78 | the colour is "red" exactly for suits 0 (Hearts) and 2 (Diamonds), and "black" for every other suit |
| Cards.ColorFollowsParity | card.go:72-78 | two valid suits have different colours exactly when their suit numbers differ in parity (the alternating-colour rule) |
| Cards.IntToString | card.go:151 | a rank printed in decimal is non-empty, starts with '-' exactly when negative, and is all digits otherwise |
| Cards.ParseNatToString | card.go:151 | reading back the printed decimal numeral gives the number again |
| Cards.IntToStringInjective | card.go:151 | different ranks print as different numerals |
| Cards.RankLabelInjective | card.go:150-154 | the rank label ("A", "J", "Q", "K" or the numeral) tells ranks apart |
| Cards.Label | card.go:155-157 | a label is the rank label followed by the symbol of the card's suit |
| Cards.LabelIdentifies | card.go:150-157 | two cards with the same label have the same suit and rank |
| Cards.CardFace | card.go:149-170 | the label shows exactly when the card is face-up or show-face-down is on, and it is then the full label; the ink is red exactly for a face-up red card and gray exactly for a face-down card |
| Deck.BuildDeck | game.go:80-85 | the nested loop builds the canonical 52-card deck |
| Deck.NewDeckCanonical | game.go:80-85 | the deck holds every valid (suit, rank) exactly once, no other identity, and every card face-down |
| Deck.Shuffle | game.go:86-90 | the swap loop computes the shuffle defined by the random choices |
| Deck.ShuffleStepsPermutes | game.go:88-90 | the shuffle is a permutation of the deck's identities and keeps every card face-down |
| Deck.DealColumnShape | game.go:93-100 | column c is dealt c+1 cards, only its last one face-up |
| Deck.DealColumnIds | game.go:93-99 | column c receives exactly the deck cards at positions c(c+1)/2 up to (c+1)(c+2)/2 |
| Deck.DealTableauIds | game.go:92-100 | the deal takes exactly the first 28 cards of the deck onto the tableau |
| Piles.FlipReverseRoundTrip | game.go:107-120 | drawing a face-down pile onto the waste and recycling it gives back the pile in its order, face-down |
| Game.Game.constructor | game.go:39-44 | a new game is the zero game with draw count 3, reset and then dealt |
| Game.Game.CancelFirstSelection | game.go:46-51 | clears the first selection's card, source, index and depth and nothing else |
| Game.Game.CancelSecondSelection | game.go:53-57 | clears the second selection's card, source and index and nothing else |
| Game.Game.ResetPiles | game.go:60-71 | empties every pile and zeroes the counter and show-face-down flag |
| Game.Game.ToggleShow | game.go:74-76 | flips the show-face-down flag |
| Game.Game.ShuffleAndDeal | game.go:79-102 | builds, shuffles and deals the deck onto the columns, and puts the rest in the stock |
| Game.Game.DrawCards | game.go:105-123 | one press on the stock, as `AfterDraw` |
| Game.Game.RecycleWaste | game.go:106-114 | the recycle loop pops the waste from its top onto the stock, turning each card face-down |
| Game.Game.DrawFromStock | game.go:116-122 | the draw loop moves up to drawCount cards one at a time from the stock top to the waste top, face-up |
| Game.PoppedIsFlippedRun | game.go:116-121 | popping k cards one at a time from the stock gives its top k cards in reverse order, face-up |
| Game.DrawnRun | game.go:116-122 | a draw of k cards leaves the stock without its top k and the waste extended by the popped run, with one move counted |
| Game.DrawSize | game.go:116 | a draw moves min(drawCount, stock size) cards, at least one from a non-empty stock, and none when drawCount is not positive |
| GameLaws.InitialLayout | game.go:39-44 | a new game has 7 columns of 1..7 cards, each with only its last card face-up, 24 face-down stock cards, an empty waste and foundations, counter 0, draw count 3 and no selection |
| GameLaws.InitialPartition | game.go:79-101 | a new game's piles hold each of the 52 cards exactly once |
| GameLaws.DrawKeepsCards | game.go:105-123 | a draw or recycle keeps the multiset of cards in stock and waste |
| GameLaws.DrawKeepsPartition | game.go:105-123 | a draw changes only stock, waste and counter, and keeps the partition |
| GameLaws.DrawMovesTopCards | game.go:116-122 | a draw pops exactly min(drawCount, stock size) cards, appends them to the waste in popping order and face-up, and counts one move |
| GameLaws.RecycleTurnsWasteOver | game.go:106-114 | a recycle makes the stock the reversed waste, all face-down, and empties the waste |
| GameLaws.ExhaustFillsWaste | game.go:116-121 | drawing until the stock is empty appends the reversed stock, face-up, to the waste |
| GameLaws.DrawCycleRestoresStock | game.go:107-121 | from an empty waste, drawing the stock dry and pressing once more restores the stock in its exact order and empties the waste |
| GameLaws.CancelsClearSelection | game.go:46-57 | clearing both selections leaves none recorded, changes nothing else, commutes and is idempotent |
| GameLaws.ToggleInvolution | game.go:74-76 | toggling changes the flag, and toggling twice restores the state |
| GameLaws.ResetClears | game.go:60-71 | a reset empties all 4 foundations and 7 columns, stock and waste, zeroes the counter and the flag, and keeps the selection and draw count |
| GameLaws.RestartDealsFreshPiles | game.go:60-102 | reset then deal gives the piles of a new game, holding the 52 cards once each, while the selection and draw count survive |
| Tapping.TopPileFrom | tapped.go:64-67 | the search returns the first pile whose top is the tapped card, or none when no pile's top is |
| Tapping.IndexFrom | tapped.go:35-36 | the search returns the first position holding the card, or none |
| Tapping.LocateFrom | tapped.go:34-44 | the search returns the first column, then the first position in it, holding the card, or none when no column holds it |
| Tapping.CardTapped | tapped.go:6-122 | a card tap is a first tap when nothing is selected, and a second tap otherwise |
| Tapping.SelectCard | tapped.go:9-50 | the first-tap handler, with its scans over foundations and columns, computes `FirstTap` |
| Tapping.Refused | tapped.go:11-26 | the first-tap guards refuse exactly a face-down card, a foundation top, or the 2nd or 3rd waste card from the top |
| Tapping.Locate | tapped.go:32-44 | the nested scan finds the first column, then the first position in it, holding the card |
| Tapping.ResolveSelection | tapped.go:52-121 | the second-tap handler, with its scans over column and foundation tops, computes `SecondTap` |
| Tapping.FlipNewTop | tapped.go:74-79 | turns the top of one column face-up and changes nothing else |
| Tapping.FinishMove | tapped.go:84-87 | clears both selections and counts one move |
| Tapping.MoveOntoColumn | tapped.go:70-88 | moves the group from the selection depth, or the waste top, onto column i; crashes on an index that is out of range |
| Tapping.MoveOntoFoundation | tapped.go:98-117 | appends the column's top (cutting the column at the selection depth), or the waste top, onto foundation f; crashes on an index that is out of range |
| Tapping.EmptyPileTapped | tapped.go:124-177 | the empty-pile handler computes `TapEmptyPile` |
| Tapping.PlaceKing | tapped.go:129-154 | a selected King moves (with its group, or from the waste) onto the empty column |
| Tapping.PlaceAce | tapped.go:155-176 | a selected Ace moves onto the empty foundation |
| TapLaws.FirstTapAcceptance | tapped.go:9-26 | with nothing selected, a tap is refused exactly for a face-down card, a foundation top, or the 2nd or 3rd waste card from the top; a refused tap changes nothing |
| TapLaws.FirstTapRecordsPosition | tapped.go:30-50 | an accepted first tap records the card's first column and depth, or the waste with index len(waste)-1 and depth 0; no pile changes |
| TapLaws.SameCardCancels | tapped.go:53-61 | tapping the selected card again clears both selections and leaves piles and counter alone |
| TapLaws.SecondTapUnmatched | tapped.go:53-121 | a second tap makes no move exactly when no rule applies to it, and then only the second selection is set |
| TapLaws.TapCountsMoves | tapped.go:84-87 | the counter grows by exactly one when a card tap moves, and a move or cancel clears the selection |
| TapLaws.EmptyTapRules | tapped.go:124-176 | a tap on an empty pile is ignored with no selection; an empty column takes only a King and an empty foundation only an Ace; each move counts once |
| TapLaws.RevealOnlyTurnsTop | tapped.go:74-79 | the reveal rule turns only the top card face-up, keeps the identities and keeps face-down cards a prefix |
| TapLaws.WasteTopToColumn | tapped.go:81-82 | moving the waste top onto a column keeps the board's cards |
| TapLaws.WasteTopToFoundation | tapped.go:109-110 | moving the waste top onto a foundation keeps the board's cards |
| TapLaws.GroupToColumn | tapped.go:71-72 | moving a group between two different columns keeps the board's cards |
| TapLaws.TopToFoundation | tapped.go:99-100 | appending a column's top to a foundation keeps the board's cards when the cut is just below that top |
| TapLaws.MoveToTableauKeepsCards | tapped.go:70-83 | a tableau move that does not crash keeps the board's cards |
| TapLaws.MoveToFoundationKeepsCards | tapped.go:98-111 | a foundation move that does not crash keeps the board's cards when the selection is the column top |
| TapLaws.ColumnMoveKeepsPartition | tapped.go:64-88 | a legal move onto a non-empty column keeps each of the 52 cards on the board exactly once, for a current column selection or any waste selection on stacked columns |
| TapLaws.SecondTapKeepsPartition | tapped.go:52-121 | a second tap keeps each of the 52 cards on the board exactly once, for a current column selection or any waste selection on stacked columns, when a move onto a foundation top has a selection that is its column's top |
| TapLaws.KingOntoEmptyKeepsCards | tapped.go:131-148 | a King move onto an empty column keeps the board's cards, whatever the selection records |
| TapLaws.AceOntoEmptyKeepsCards | tapped.go:157-170 | an Ace move onto an empty foundation keeps the board's cards, for a current column selection that is its column's top or any waste selection |
| TapLaws.AceOnTop | tapped.go:155-159 | on stacked columns of a partitioned board, a current column selection of an Ace is its column's top card |
| TapLaws.EmptyTapKeepsPartition | tapped.go:124-177 | a tap on an empty pile keeps each of the 52 cards on the board exactly once, for a current column selection or any waste selection |
| LayoutLaws.InitialLayered | game.go:93-101 | in a new game every column has its face-down cards below its face-up ones, and the waste is face-up |
| LayoutLaws.DrawKeepsLayered | game.go:105-123 | a draw or recycle keeps that layout |
| LayoutLaws.MoveGroupLayered | tapped.go:71-79 | moving a face-up group and revealing the new top keeps every column layered |
| LayoutLaws.CutLayered | tapped.go:100-106 | cutting a column and revealing its new top keeps it layered |
| LayoutLaws.WasteTopLayered | tapped.go:81-82 | putting the waste top on a column keeps the layout |
| LayoutLaws.MoveToTableauLayered | tapped.go:70-83 | a tableau move keeps the layout, for a current column selection or any waste selection |
| LayoutLaws.MoveToFoundationLayered | tapped.go:98-111 | a foundation move keeps the layout |
| LayoutLaws.TapKeepsLayered | tapped.go:6-122 | any card tap keeps the layout when a column selection is current; a waste selection may be stale |
| LayoutLaws.EmptyTapKeepsLayered | tapped.go:124-177 | any tap on an empty pile keeps the layout when a column selection is current; a waste selection may be stale |
| LayoutLaws.KingOntoEmptyLayered | tapped.go:131-148 | a King move onto an empty column keeps the layout when a column selection is current |
| LayoutLaws.AceOntoEmptyLayered | tapped.go:157-170 | an Ace move onto an empty foundation keeps the layout for any selection |
| LayoutLaws.InitialStacked | game.go:92-101 | in a new game every column is stacked: face-down cards first, then a run descending by one rank |
| LayoutLaws.TapKeepsStacked | tapped.go:52-121 | a card tap with a current selection keeps every column stacked |
| LayoutLaws.EmptyTapKeepsStacked | tapped.go:124-177 | a tap on an empty pile with a current selection keeps every column stacked |
| LayoutLaws.BuiltAppend | tapped.go:109-110 | a built foundation stays built when it takes an Ace while empty, or the next rank of its own suit |
| LayoutLaws.InitialFoundationsBuilt | game.go:60-71 | a new game's foundations are all built (empty) |
| LayoutLaws.DrawKeepsFoundationsBuilt | game.go:105-123 | a draw or recycle keeps every foundation built |
| LayoutLaws.TapKeepsFoundationsBuilt | tapped.go:92-117 | a card tap with a current selection keeps every foundation an ascending same-suit run from the Ace, when a column card goes to a foundation only from its column's top |
| LayoutLaws.EmptyTapKeepsFoundationsBuilt | tapped.go:155-176 | an Ace placed on an empty foundation keeps every foundation built, for any column selection and a current waste selection |
| LayoutLaws.FirstTapSelectsCurrent | tapped.go:30-50 | a first tap on a card lying on the board records where it lies |
| LayoutLaws.DrawStalesWasteSelection | game.go:116-121 | a draw keeps the selection; a column selection stays current, but a waste selection is no longer the waste top |
| LayoutLaws.LossFirstTap | tapped.go:30-39 | on the example board, tapping the 3 of hearts selects it at column 0, depth 0 |
| LayoutLaws.LossSecondTap | tapped.go:92-117 | tapping the 2 of hearts then puts the 2 of spades on the hearts foundation and empties the column |
| LayoutLaws.LossIds | tapped.go:99-100 | after that move the board holds every card it held except the 3 of hearts |
| LayoutLaws.ColumnToFoundationLosesCard | tapped.go:99-100 | a column-to-foundation move from below the top drops the selected card from the board and breaks the partition |
| LayoutLaws.StaleSelectAndDraw | game.go:116-122 | on the second example board, selecting the waste top and pressing the stock keeps that selection while the 7 of clubs becomes the waste top |
| LayoutLaws.StaleWasteMove | tapped.go:81-82 | tapping the 6 of hearts then puts the 7 of clubs, not the selected 5 of spades, on it |
| LayoutLaws.SameColumnMove | tapped.go:30-79 | selecting the 6 of hearts and tapping the 7 of clubs above it moves the group onto its own column and leaves that column empty |
| LayoutLaws.StaleWasteMoveLosesCards | tapped.go:71-72 | from a stacked, layered board, a stale waste move unstacks a column and a same-column group move then drops two cards from the board |
| LayoutLaws.LossUnbuildsFoundation | tapped.go:99-100 | on the first example board the column-to-foundation move turns the built hearts foundation into Ace, 2, 2 of spades |
| LayoutLaws.AceSelectAndDraw | game.go:116-122 | selecting the Ace of spades on the waste and pressing the stock keeps that selection while the 7 of clubs becomes the waste top |
| LayoutLaws.AceWasteMove | tapped.go:166-170 | tapping the empty first foundation then puts the 7 of clubs on it |
| LayoutLaws.StaleWasteAceMove | tapped.go:155-170 | from built foundations, a stale waste Ace selection leaves a foundation holding a lone 7 |
| Render.IsHighlighted | card.go:122-139 | the renderer's scan over the columns computes the highlight predicate |
| Render.NoSelectionNoHighlight | card.go:123 | with no selection no card is outlined |
| Render.HighlightIsSelectedGroup | card.go:123-138 | for a current selection the outlined cards are exactly the selected column group, or the waste top |

## Left out

- The Fyne user interface: `ui.go`, `main.go`, widget construction, layout, sizes,
  RGB colour values, stroke widths, the status label and the `updateUI` calls.
  The ink of a card face is modelled as one of red, black or gray.
- The time-seeded random source (game.go:86-87). The random choices of
  `rand.Shuffle` are a parameter, each within the range that Go's shuffle draws.
- Go slice capacity and aliasing. Piles are sequences. A reslice beyond a
  slice's length but within its capacity is modelled as `Crashed`. The state a
  panicking program is left in is not modelled.
- Card pointers. After New Game, a selection may hold a pointer to a card of
  the old deck. The model cannot tell it from the new card with the same suit
  and rank.
- TapLaws.SecondTapKeepsPartition: holds only for stacked columns and a current
  column selection; a waste selection may be stale. For a foundation move it also
  needs the selection to be its column's top, because the Go code cuts the column
  at the selection depth (see `ColumnToFoundationLosesCard`). Stacked columns
  hold in a new game (`InitialStacked`) and after every tap with a current
  selection (`TapKeepsStacked`, `EmptyTapKeepsStacked`), but a stale waste
  selection can unstack a column (`StaleWasteMoveLosesCards`).
- TapLaws.ColumnMoveKeepsPartition: holds only for stacked columns and a current
  column selection, for the same reason.
- TapLaws.EmptyTapKeepsPartition: holds only for stacked columns and a current
  column selection, and for a column target only when that column is really
  empty.
- LayoutLaws.TapKeepsLayered: holds only when a column selection is current. A
  stale column selection can move a group that starts with a face-down card.
- LayoutLaws.TapKeepsStacked: holds only for a current selection, waste
  selections included: a stale waste selection moves a card of any rank.
- LayoutLaws.EmptyTapKeepsStacked: holds only for a current selection, and for a
  column target only when that column is really empty.
- LayoutLaws.TapKeepsFoundationsBuilt: holds only for a current selection whose
  column card, when it goes to a foundation, is its column's top. The Go code
  appends the column's top card (`LossUnbuildsFoundation`), and a stale waste
  selection appends the current waste top.
- LayoutLaws.EmptyTapKeepsFoundationsBuilt: holds only for a current waste
  selection, since a stale one appends the current waste top
  (`StaleWasteAceMove`), and only when the tapped foundation is really empty.
- TapLaws.AceOntoEmptyKeepsCards: a column selection must be current and its
  column's top. `AceOnTop` derives this from stacked columns on a partitioned
  board, and `EmptyTapKeepsPartition` uses it.
- TapLaws.MoveToTableauKeepsCards: proved only when the source column and the target
  columns differ. A group moved onto its own column is appended to it and then
  cut away with the cards above the selection (tapped.go:71-72), as
  `StaleWasteMoveLosesCards` shows.
