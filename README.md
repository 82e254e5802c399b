# Chess engine core in Dafny

This project models the core of a small Python chess engine and proves properties of the model. The core has three parts:

- **Move generation** (`Pieces.py`). Each piece kind has a table of directions: lists of relative vectors ordered near to far. It also has a signed value. One generic ray walker, `Piece_Behavior.get_moves`, turns a table into `Move` records. Pawns override only the validity hook `_is_valid_move`.
- **The board** (`Board.py`). It holds an 8×8 grid of pieces or "empty", a list of pieces per player, a list of kings per player, `score` and `num_pieces`. `make_move` and `unmake_move` update all of these in place, including the pawn-to-queen promotion with its ±16 score adjustment. `check_won` looks for the opponent's king. `check_check` scans the opponent's moves.
- **The search** (`AI_player.py`). `construct_candidates` lists a player's moves. `AI_choose_move` makes each candidate, searches the reply one level shallower, scores the candidate and unmakes it. It then returns one of the candidates tied for the best score: the maximum for white, the minimum for black.

Files:

- `grid.dfy` (module `Grid`): piece handles, squares, cells and the bounds test.
- `pieces.dfy` (module `Pieces`): players, kinds, pieces, moves, the value and direction tables, the pawn hook, and the ray walker as a specification function (`Moves`) and as a loop method (`GetMoves`).
- `board.dfy` (module `Board`):
  - the board's state as a value (`State`) and its invariant (`Consistent`);
  - `make_move` and `unmake_move` as functions on states (`ApplyMove`, `RevertMove`), with their effects spelled out (`MadeBy`, `UnmadeBy`) and the round trip;
  - the starting position;
  - `check_check` and `check_won`;
  - the class `Board`, whose methods update its fields in place and are proved equal to those functions.
- `search.dfy` (module `Search`): the candidates, the search as a ghost specification (`Search`, `ScoreEach`, `ScoreOne`), the selection, and the recursive method `ChooseMove`. `ChooseMove` runs on a `Board` object and is proved against that specification.

Python objects that point at each other are modelled by handles. Pieces live in an `arena` sequence indexed by a handle, which is the order in which `__init__` created them. Grid cells, piece lists, king lists and moves hold handles. A promotion rewrites the kind stored at the mover's handle. This is how the code keeps a piece's identity while swapping its behaviour object.

`Move` is a datatype value. `Dummy` stands for `Move()`, whose origin is `None`. `make_move` and `unmake_move` set `move.pawn_change` on the caller's object. Here they return the updated move instead. The search stores a candidate's `score_change` by replacing that candidate's entry in its list.

Behaviour the model keeps as the code has it:

- **Pawn double step.** One might expect the double step to skip the square in between. The code does check it: both forward vectors sit in one direction list (`Pieces.py:591`), so the ray walker stops before the double step when the single step fails. The model follows the code; see `Pieces.PawnDoubleStep`.
- **Attenuation in the recursion.** The recursive call `AI_choose_move(board, other_player, depth - 1)` drops the caller's `attenuation`, so every reply is searched with the default 3/4 (`AI_player.py:46`). The model does the same (`Search.DefaultAttenuation`).
- **List order after unmake.** `unmake_move` appends a captured piece to the end of its player's list (`Board.py:165`), so make then unmake restores each list only as a multiset. The model states this exactly: the board left is `Reordered(s, m)`, and `Equiv` (equal up to list order) holds with the original. The search is specified over the boards it actually leaves, so later candidates are generated from reordered lists just as in the code.
- **`check_check`.** It compares each move's destination occupant with `kings[player]`, which is a list. The comparison never holds. See "## Findings".

## Model

| member | source | states |
|---|---|---|
| Grid.InBounds | Board.py:96-113 | a square is in bounds iff both coordinates lie in 0..7 |
| Grid.SetCell | Board.py:124-125 | assigning one grid cell sets that cell and leaves every other in-bounds cell unchanged |
| Pieces.Other | Board.py:195 | the other player differs from the given one |
| Pieces.ValueTable | Pieces.py:286-585 | values are rook 10, knight 6, bishop 6, queen 18, king 200, pawn 2, negated for black; queen minus pawn is 16 |
| Pieces.BuildRays | Pieces.py:289-297 | the constructor loops (one empty list per unit vector, then `unit * i` appended for i in 1..7) build exactly the rays of the units |
| Pieces.BehaviorDirections | Pieces.py:289-596 | each behaviour's constructor builds exactly the direction table of its kind and player |
| Pieces.DirectionShapes | Pieces.py:289-596 | rook and bishop have 4 directions of 7 vectors, the queen 8 of 7, knight and king 8 single vectors, the pawn 1, 2 and 1; no vector is (0, 0) |
| Pieces.NonZeroVector | Pieces.py:289-596 | every vector of every table moves the piece |
| Pieces.IsValidMove | Pieces.py:618-647 | non-pawns accept every vector (base hook, Pieces.py:259); a pawn's vector is valid iff it goes straight exactly when the target is empty and a double step starts from row 1 (white) or 6 (black), judged by the piece's stored position |
| Pieces.GetMoves | Pieces.py:191-240 | the nested loops with their breaks return exactly `Moves`, the directions walked in table order |
| Pieces.WalkRays | Pieces.py:211-240 | the outer loop appends the walks of all directions in order |
| Pieces.WalkRay | Pieces.py:216-238 | the inner loop appends exactly the walk of one direction to the moves so far |
| Pieces.WalkPrefix | Pieces.py:216-238 | within one direction, move k goes to `position + direction[k]` and passes the three tests; all but possibly the last land on empty squares; the walk stops only at a vector that fails a test or right after a capture |
| Pieces.WalkAllKeeps | Pieces.py:211-240 | every move of one direction's walk is among the piece's moves |
| Pieces.WalkAllSource | Pieces.py:211-240 | every move of the piece comes from the walk of one of its directions |
| Pieces.EmittedVector | Pieces.py:216-234 | every generated move is the step by some table vector that passed the three tests |
| Pieces.MoveFacts | Pieces.py:206-234 | every generated move starts at the given square with its occupant, ends in bounds on another square, records the destination's occupant (empty or an enemy piece, never a friendly one), passes the validity hook, and is unscored and unmarked |
| Pieces.PawnMoveTargets | Pieces.py:636-640 | a pawn's straight moves land on empty squares and its diagonal moves land on enemy pieces |
| Pieces.PawnStartRow | Pieces.py:642-645 | a pawn's two-square advance is generated only when its stored row is 1 (white) or 6 (black) |
| Pieces.PawnDoubleStep | Pieces.py:589-596 | a pawn's two-square advance is generated only together with its one-square advance onto an empty square, and only from the starting row |
| Pieces.PawnSingleStep | Pieces.py:591 | when the forward direction yields two moves, the one-square advance onto an empty square is among the pawn's moves |
| Pieces.WalkOpenRay | Pieces.py:216-238 | for a non-pawn, a direction whose first n squares are in bounds and empty, with the vector after them off the board, yields exactly n moves |
| Pieces.RookRays | Pieces.py:289-297 | the rook's table is the four rays right, left, up and down |
| Pieces.CornerRay | Pieces.py:289-297 | for a non-pawn at (0, 0) on an otherwise empty board, the right and up rays yield 7 moves each and the left and down rays none |
| Pieces.RookInCorner | Pieces.py:289-297 | a rook alone at (0, 0) has exactly 14 moves |
| Board.IndexOf | Board.py:133 | `list.index` returns the position of the first occurrence |
| Board.MakeMoveEffect | Board.py:115-149 | `make_move` empties the origin and puts the mover on the destination, recording its position; no other cell or piece changes; a capture deletes exactly the first occurrence of the captured piece from its owner's list, subtracts its value and decrements the count; a pawn reaching row 7 (white) or 0 (black) becomes a queen, the score moves by +16 or −16 and the move is marked |
| Board.MakeMoveConsistent | Board.py:115-149 | `make_move` of a generated move keeps the invariant (grid and lists agree, score is the sum of the listed values, count is the number listed) and leaves a state `unmake_move` can undo |
| Board.UnmakeMoveEffect | Board.py:151-179 | `unmake_move` puts the mover back on the origin and the recorded occupant back on the destination; a captured piece is appended to its owner's list with its value and count restored; a marked move turns the queen back into a pawn, undoes the 16 and clears the mark |
| Board.UnmakeMoveConsistent | Board.py:151-179 | `unmake_move` after `make_move` restores the invariant |
| Board.UnmakeAfterMake | Board.py:159-179 | make then unmake, whatever score is recorded on the move in between, gives back the original board up to the order of the captured piece's list (`Reordered`) and the original move, unmarked, with that score |
| Board.ReorderedEquiv | Board.py:165 | the board make then unmake leaves has the same grid, pieces, kings, score, count and list multisets as the original |
| Board.LegalApplicable | Board.py:124-134 | a generated move on a consistent board meets what `make_move` needs, including `list.index` finding the captured piece |
| Board.EquivConsistent | Board.py:163-168 | a board that differs from a consistent one only in list order is consistent |
| Board.LegalEquiv | Board.py:163-168 | a move generated on a board is still well-formed on a board that differs only in list order |
| Board.MakeMoveEquiv | Board.py:131-137 | making the same move on two boards that differ only in list order gives boards that differ only in list order, and the same move |
| Board.UnmakeMoveEquiv | Board.py:163-168 | unmaking the same move on two boards that differ only in list order gives boards that differ only in list order, and the same move |
| Board.StartTotalWhite | Board.py:51-62 | the white pieces `__init__` creates are worth 278 in total |
| Board.StartTotalBlack | Board.py:64-75 | the black pieces `__init__` creates are worth −278 in total |
| Board.InitialStarting | Board.py:40-94 | the starting board has 32 pieces on their squares, every other cell empty, 16 per list, the two kings in the king lists, score 0 and count 32 |
| Board.InitialConsistent | Board.py:43-94 | the starting board satisfies the invariant; in particular score 0 is the sum of all values |
| Board.CreatePieces | Board.py:51-75 | the creation loops produce the 32 pieces in order, white handles 0..15 and black handles 16..31 |
| Board.EmptyGrid | Board.py:77-81 | the grid loops produce 8 rows of 8 empty cells |
| Board.PlacePieces | Board.py:83-86 | the placement loops put every listed piece on the cell of its position, giving the starting grid |
| Board.KingsIn | Board.py:88-94 | the king list holds exactly the listed pieces that are kings |
| Board.StartKings | Board.py:88-94 | the starting king lists are the white king alone and the black king alone |
| Board.Board.constructor | Board.py:40-94 | `__init__` builds the starting board, which satisfies the invariant |
| Board.Board.MakeMove | Board.py:115-149 | updating the fields in place gives exactly `ApplyMove` of the old state, and returns the move with its promotion mark |
| Board.Board.UnmakeMove | Board.py:151-179 | updating the fields in place gives exactly `RevertMove` of the old state, and returns the move with the mark cleared |
| Board.Board.CheckWon | Board.py:203-222 | `player` has won iff no king of the opponent stands on the board |
| Board.ListedOnBoard | Board.py:216-222 | on a consistent board, a king of a player stands on the grid iff one is in that player's list |
| Board.FindTarget | Board.py:197-199 | the inner scan as written reports a move whose destination occupant equals the target iff there is one |
| Board.Board.CheckCheckAsWritten | Board.py:181-201 | `check_check` as written reports check iff some opponent move's destination occupant equals `kings[player]`, the list |
| Board.CheckCheckNeverFires | Board.py:194-198 | no destination occupant equals the king list, so `check_check` as written never reports check |
| Board.CheckCheckMissesCheck | Board.py:194-201 | on a consistent board with the white king on a1 and the black king on b2, white is in check yet `check_check` as written does not report it |
| Board.ExposedInCheck | Board.py:194-201 | on that board the black king has a move capturing the white king |
| Board.FindThreat | Board.py:197-199 | the corrected inner scan reports a move capturing a listed king iff there is one |
| Board.Board.CheckCheck | Board.py:181-201 | `check_check` corrected reports check iff some move of an opponent's piece captures one of `player`'s kings |
| Board.InCheckMeansKingAttacked | Board.py:181-201 | on a consistent board, being in check is the same as some opponent move landing on a king |
| Search.CandidateSource | AI_player.py:85-87 | every candidate is a move of some piece in the player's list |
| Search.CandidateKeeps | AI_player.py:85-87 | every move of every piece in the player's list is a candidate |
| Search.CandidateFacts | AI_player.py:85-87 | every candidate is a well-formed move of one of the player's own pieces, not yet scored |
| Search.CandidatesEquiv | AI_player.py:85-87 | boards that differ only in list order have the same candidates, possibly in another order |
| Search.Best | AI_player.py:54-57 | `max`/`min` by score change returns a candidate at least as good for the player as every candidate |
| Search.Tied | AI_player.py:62-64 | the filtered list holds exactly the candidates whose score equals the best score |
| Search.ReplyDepth | AI_player.py:46 | the reply is searched strictly shallower, so the recursion terminates |
| Search.Weigh | AI_player.py:49-50 | with no reply score, or with zero attenuation, a candidate's score is the board's score change alone (the general equation is `Search.ScoreOneScore`) |
| Search.Search | AI_player.py:7-67 | the search leaves a consistent board that differs from the original only in list order |
| Search.ScoreEach | AI_player.py:39-51 | the loop leaves the board equal up to list order and returns every candidate in order, changed only in its score |
| Search.ScoreOne | AI_player.py:40-51 | one turn of the loop leaves the board equal up to list order and returns the candidate changed only in its score |
| Search.SearchStep | AI_player.py:35-51 | at depth 1 or more the search scores exactly the candidates of the current board, replies searched one level shallower |
| Search.SearchScored | AI_player.py:39-51 | at depth 1 or more the scored list has one entry per candidate, in order, each the candidate with its score recorded |
| Search.ScoreOneScore | AI_player.py:41-50 | at every reply depth, a candidate's score is the change `make_move` made to the board's score plus the attenuation times the score of the move the opponent's search chose (0 for the empty `Move()`); the reply's board keeps the score of the board after the candidate |
| Search.ScoreOneWithoutReply | AI_player.py:41-51 | with the reply searched 0 deep, a candidate is scored with the board's score change alone and unmade |
| Search.ImmediateGain | Board.py:131-149 | the score change `make_move` makes is the promotion bonus minus the captured piece's value |
| Search.PickBest | AI_player.py:53-67 | the pick is one of the scored candidates, with the best score for the player: maximal for white, minimal for black |
| Search.ScoreCandidate | AI_player.py:40-51 | remember the score, make, search the reply with the default attenuation, record the weighted score and unmake: the board and the returned move are exactly `ScoreOne` |
| Search.ScoreCandidates | AI_player.py:39-51 | the loop over the candidates leaves the board and the scored list exactly as `ScoreEach` says |
| Search.ChooseMove | AI_player.py:7-67 | depth 0 or no candidate gives the empty move with score 0; otherwise the result is one of the scored candidates with the best score for the player, at least as good as every candidate; the board ends as `Search` says, which differs from the start only in list order |

## Left out

- `Game.py` is not part of this model. It holds console input, printing, the turn counter and the game loop, which are I/O and sequencing only.
- `Board.print_grid`, `Move.summary`, `Piece.summary` and `__str__` only format text.
- `AI_make_move` prints and then calls `make_move` on the chosen move, which `Board.Board.MakeMove` already covers.
- `random.choice` is modelled as a nondeterministic pick (`:|`) from the tied candidates. Which tied move is picked, and its distribution, is not modelled.
- Scores of moves are Dafny `real`. The `float` arithmetic of `attenuation` (IEEE rounding) is not modelled.
- Python object identity and the `Piece.board` back-reference are replaced by arena handles. The behaviour objects are replaced by the `Kind` stored in the piece.
- `Board.Board.MakeMove` requires `Applicable`: a `Move` with an origin, squares with both coordinates in 0..7, and a captured piece present in its owner's list. The code indexes `self.grid` with plain Python indices (Board.py:124-125), so a coordinate from -8 to -1 is silently taken modulo 8 and writes a cell at the other edge of the board; only a coordinate of 8 or more, or below -8, raises `IndexError`. A captured piece missing from its list raises `ValueError` from `list.index` (Board.py:133), and the empty `Move()` fails on its `None` origin. The model excludes all of these squares and moves rather than following the wrap-around or the exceptions.
- `Board.Board.UnmakeMove` requires `Revertible`: a `Move` with an origin and squares with both coordinates in 0..7. The code's grid writes (Board.py:160-161) wrap negative coordinates modulo 8 and raise `IndexError` for the others in the same way; the model excludes those squares. Unmaking out of stack order is undefined in the code and is not given a meaning here.
- `Board.Board.CheckCheckAsWritten` and `Board.Board.CheckCheck` require that every piece in the opponent's list stands on its recorded square. Otherwise the code's `get_moves` may read "empty" as the current piece and fail.
- `Search.ChooseMove` takes `depth` as a natural number. With a negative depth the code never reaches its base case.
- `Search.ChooseMove` requires the board invariant (`Valid`) on entry. The code's behaviour on an inconsistent board is not modelled.
- `Search.ScoreOneWithoutReply` states the depth-1 result through `Weigh` with a zero reply, rather than as a single equation with the board's score change and the board left. `Search.ScoreOneScore` and `Search.ImmediateGain` give the score, and `Board.UnmakeAfterMake` gives the board the unmaking leaves.

## Findings

| source | as written | input that shows it | evidently intended | confidence | as-written member | corrected member |
|---|---|---|---|---|---|---|
| Board.py:194-198 | `check_check` compares each move's `destination_piece` with `kings[player]`, which `__init__` builds as a list (Board.py:89-94), so the test never holds and the method always returns False | white king on a1, black king on b2, nothing else: the black king can capture the white king, yet `check_check("white")` returns False | report check when some opponent move captures one of `player`'s kings (compare with the pieces of the list) | not executed | Board.Board.CheckCheckAsWritten, with Board.CheckCheckNeverFires and Board.CheckCheckMissesCheck | Board.Board.CheckCheck, with Board.InCheckMeansKingAttacked |
