/** Board.py: the board's state (grid, per-player piece lists, king lists, score, piece count),
    `make_move` / `unmake_move` as functions on that state, the invariant they keep, and the
    `Board` class whose methods update the state in place. */
module Board {
  import opened Grid
  import opened Pieces

  /** A dictionary keyed by "white" and "black", each entry a list of piece handles. */
  datatype Sides = Sides(white: seq<PieceId>, black: seq<PieceId>) {
    function Of(player: Player): seq<PieceId> {
      if player == White then white else black
    }

    function With(player: Player, list: seq<PieceId>): (sides: Sides)
      ensures sides.Of(player) == list && sides.Of(Other(player)) == Of(Other(player))
    {
      if player == White then this.(white := list) else this.(black := list)
    }
  }

  /** A snapshot of a `Board` object's fields, with the pieces it points to gathered in `arena`. */
  datatype State = State(grid: seq<seq<Cell>>, arena: seq<Piece>, pieces: Sides, kings: Sides,
                         score: int, numPieces: int)

  /** The sum of the values of the listed pieces. */
  function Total(arena: seq<Piece>, ids: seq<PieceId>): int
    requires forall i | 0 <= i < |ids| :: ids[i] < |arena|
  {
    if ids == [] then 0
    else
      Total(arena, ids[..|ids| - 1]) + Value(arena[ids[|ids| - 1]])
  }

  /** No handle is listed twice. */
  ghost predicate Distinct(ids: seq<PieceId>) {
    forall i, j | 0 <= i < j < |ids| :: ids[i] != ids[j]
  }

  /** Every piece in `list`, the list of `player`, stands on the grid at its recorded position,
      belongs to `player`, and is in `player`'s king list if it is a king. */
  ghost predicate Listed(s: State, player: Player, list: seq<PieceId>) {
    && WellFormed(s.grid, s.arena)
    && forall i | 0 <= i < |list| ::
         && Placed(s.grid, s.arena, list[i]) && s.arena[list[i]].player == player
         && (s.arena[list[i]].kind == King ==> list[i] in s.kings.Of(player))
  }

  /** Every handle in `player`'s king list is a king of `player`. */
  ghost predicate KingsOf(s: State, player: Player) {
    forall id | id in s.kings.Of(player) :: id < |s.arena| && s.arena[id].kind == King && s.arena[id].player == player
  }

  /** The board's invariant: the lists hold placed pieces of their player, each once; every
      occupied cell holds a listed piece that records that cell; the king lists hold kings of
      their player and every listed king; `score` is the sum of the listed pieces' values and
      `num_pieces` their number. */
  ghost predicate Consistent(s: State) {
    && WellFormed(s.grid, s.arena)
    && Listed(s, White, s.pieces.white) && Listed(s, Black, s.pieces.black)
    && Distinct(s.pieces.white) && Distinct(s.pieces.black)
    && (forall q | InBounds(q) && At(s.grid, q).Occupied? ::
          && s.arena[At(s.grid, q).id].position == q
          && At(s.grid, q).id in s.pieces.Of(s.arena[At(s.grid, q).id].player))
    && KingsOf(s, White) && KingsOf(s, Black)
    && s.score == Total(s.arena, s.pieces.white) + Total(s.arena, s.pieces.black)
    && s.numPieces == |s.pieces.white| + |s.pieces.black|
  }

  /** What `make_move` relies on, and what every move `get_moves` generates provides: a step of
      the piece standing on the origin to another square, recording that square's occupant, not
      yet marked as a promotion. */
  ghost predicate Legal(s: State, m: Move)
    requires Consistent(s)
  {
    && m.Step? && InBounds(m.origin) && InBounds(m.destination) && m.origin != m.destination
    && At(s.grid, m.origin) == Occupied(m.originPiece)
    && m.destinationPiece == At(s.grid, m.destination)
    && !m.pawnChange
  }

  /** What `make_move` needs to run: a step whose squares are on the board, whose mover is a
      piece, and whose recorded occupant, if any, is in its player's list (`list.index` fails
      otherwise). */
  ghost predicate Applicable(s: State, m: Move) {
    && m.Step? && Shaped(s.grid) && InBounds(m.origin) && InBounds(m.destination)
    && m.originPiece < |s.arena|
    && (m.destinationPiece.Occupied? ==>
          m.destinationPiece.id < |s.arena| && m.destinationPiece.id in s.pieces.Of(s.arena[m.destinationPiece.id].player))
  }

  /** What `unmake_move` needs to run: a step whose squares are on the board and whose pieces
      exist. */
  ghost predicate Revertible(t: State, m: Move) {
    && m.Step? && Shaped(t.grid) && InBounds(m.origin) && InBounds(m.destination)
    && m.originPiece < |t.arena|
    && (m.destinationPiece.Occupied? ==> m.destinationPiece.id < |t.arena|)
  }

  /** `list.index(id)`: the position of the first occurrence. */
  function IndexOf(list: seq<PieceId>, id: PieceId): (i: nat)
    requires id in list
    ensures i < |list| && list[i] == id && id !in list[..i]
  {
    if list[0] == id then 0 else 1 + IndexOf(list[1..], id)
  }

  /** The row on which a pawn of `player` is promoted. */
  function LastRow(player: Player): int { if player == White then 7 else 0 }

  /** The score bonus of a promotion: a queen's value minus a pawn's. */
  function PromotionBonus(player: Player): int { if player == White then 16 else -16 }

  /** `make_move`: empty the origin, put the moving piece on the destination and record its new
      position; delete a captured piece from its player's list, subtracting its value and
      counting it off; then turn a pawn that reached the far row into a queen, adjusting the
      score by 16 and marking the move. Returns the new state and the updated move. */
  function ApplyMove(s: State, m: Move): (State, Move)
    requires Applicable(s, m)
  {
    var mover := m.originPiece;
    var grid := SetCell(SetCell(s.grid, m.origin, Empty), m.destination, Occupied(mover));
    var arena := s.arena[mover := s.arena[mover].(position := m.destination)];
    var (pieces, score, numPieces) :=
      if m.destinationPiece.Occupied? then
        var captured := m.destinationPiece.id;
        var owner := arena[captured].player;
        var list := s.pieces.Of(owner);
        var i := IndexOf(list, captured);
        (s.pieces.With(owner, list[..i] + list[i + 1..]), s.score - Value(arena[captured]), s.numPieces - 1)
      else (s.pieces, s.score, s.numPieces);
    var piece := arena[mover];
    if piece.kind == Pawn && m.destination.1 == LastRow(piece.player) then
      (State(grid, arena[mover := piece.(kind := Queen)], pieces, s.kings,
             score + PromotionBonus(piece.player), numPieces),
       m.(pawnChange := true))
    else
      (State(grid, arena, pieces, s.kings, score, numPieces), m)
  }

  /** The state right after `make_move(m)` returned `m`: what `unmake_move` relies on. The
      captured piece, if any, still records the destination but is listed nowhere; a move marked
      as a promotion moved what is now a queen. */
  ghost predicate Undoable(t: State, m: Move) {
    && Consistent(t) && m.Step? && InBounds(m.origin) && InBounds(m.destination)
    && m.origin != m.destination
    && At(t.grid, m.origin) == Empty && At(t.grid, m.destination) == Occupied(m.originPiece)
    && (m.destinationPiece.Occupied? ==>
          var captured := m.destinationPiece.id;
          && captured < |t.arena| && captured != m.originPiece
          && t.arena[captured].position == m.destination
          && captured !in t.pieces.Of(t.arena[captured].player)
          && (t.arena[captured].kind == King ==> captured in t.kings.Of(t.arena[captured].player)))
    && (m.pawnChange ==> t.arena[m.originPiece].kind == Queen)
  }

  /** `unmake_move`: put the moving piece back on the origin and the recorded occupant back on
      the destination; append a captured piece to the end of its player's list, adding its value
      back and counting it; restore the mover's position; and turn a promoted queen back into a
      pawn, undoing the 16 and clearing the mark. */
  function RevertMove(t: State, m: Move): (State, Move)
    requires Revertible(t, m)
  {
    var mover := m.originPiece;
    var grid := SetCell(SetCell(t.grid, m.origin, Occupied(mover)), m.destination, m.destinationPiece);
    var (pieces, score, numPieces) :=
      if m.destinationPiece.Occupied? then
        var captured := m.destinationPiece.id;
        var owner := t.arena[captured].player;
        (t.pieces.With(owner, t.pieces.Of(owner) + [captured]), t.score + Value(t.arena[captured]), t.numPieces + 1)
      else (t.pieces, t.score, t.numPieces);
    var arena := t.arena[mover := t.arena[mover].(position := m.origin)];
    if m.pawnChange then
      (State(grid, arena[mover := arena[mover].(kind := Pawn)], pieces, t.kings,
             score - PromotionBonus(arena[mover].player), numPieces),
       m.(pawnChange := false))
    else
      (State(grid, arena, pieces, t.kings, score, numPieces), m)
  }

  /** Two states that differ at most in the order of the piece lists. */
  ghost predicate Equiv(s: State, t: State) {
    && s.grid == t.grid && s.arena == t.arena && s.kings == t.kings
    && s.score == t.score && s.numPieces == t.numPieces
    && multiset(s.pieces.white) == multiset(t.pieces.white)
    && multiset(s.pieces.black) == multiset(t.pieces.black)
  }

  // Sums over piece lists.

  lemma {:induction false} TotalAppend(arena: seq<Piece>, a: seq<PieceId>, b: seq<PieceId>)
    requires forall i | 0 <= i < |a| :: a[i] < |arena|
    requires forall i | 0 <= i < |b| :: b[i] < |arena|
    ensures Total(arena, a + b) == Total(arena, a) + Total(arena, b)
  {
    if b == [] {
      assert a + b == a;
    } else {
      TotalAppend(arena, a, b[..|b| - 1]);
      assert (a + b)[..|a + b| - 1] == a + b[..|b| - 1];
    }
  }

  /** The sum only reads the values of the listed pieces. */
  lemma {:induction false} TotalFrame(arena: seq<Piece>, arena': seq<Piece>, ids: seq<PieceId>)
    requires forall i | 0 <= i < |ids| :: ids[i] < |arena| && ids[i] < |arena'|
    requires forall i | 0 <= i < |ids| :: Value(arena[ids[i]]) == Value(arena'[ids[i]])
    ensures Total(arena, ids) == Total(arena', ids)
  {
    if ids != [] {
      TotalFrame(arena, arena', ids[..|ids| - 1]);
    }
  }

  /** Deleting the `i`-th entry subtracts that piece's value. */
  lemma TotalRemove(arena: seq<Piece>, ids: seq<PieceId>, i: nat)
    requires forall j | 0 <= j < |ids| :: ids[j] < |arena|
    requires i < |ids|
    ensures Total(arena, ids) == Total(arena, ids[..i] + ids[i + 1..]) + Value(arena[ids[i]])
  {
    assert ids == ids[..i] + [ids[i]] + ids[i + 1..];
    TotalAppend(arena, ids[..i] + [ids[i]], ids[i + 1..]);
    TotalAppend(arena, ids[..i], [ids[i]]);
    TotalAppend(arena, ids[..i], ids[i + 1..]);
    assert [ids[i]][..0] == [];
  }

  /** The sum does not depend on the order of the list. */
  lemma {:induction false} TotalPermutation(arena: seq<Piece>, a: seq<PieceId>, b: seq<PieceId>)
    requires forall i | 0 <= i < |a| :: a[i] < |arena|
    requires multiset(a) == multiset(b)
    ensures forall i | 0 <= i < |b| :: b[i] < |arena|
    ensures Total(arena, a) == Total(arena, b)
  {
    BoundsCarry(a, b, |arena|);
    if a != [] {
      var n := |a| - 1;
      var j := Occurrence(a[n], b);
      var rest := b[..j] + b[j + 1..];
      PermutationStep(a, b, j);
      BoundsCarry(a[..n], rest, |arena|);
      TotalPermutation(arena, a[..n], rest);
      TotalRemove(arena, b, j);
    }
  }

  /** Lists with the same elements are bounded alike. */
  lemma BoundsCarry(a: seq<PieceId>, b: seq<PieceId>, bound: nat)
    requires forall i | 0 <= i < |a| :: a[i] < bound
    requires multiset(a) == multiset(b)
    ensures forall i | 0 <= i < |b| :: b[i] < bound
  {
    forall i | 0 <= i < |b|
      ensures b[i] < bound
    {
      assert b[i] in multiset(b);
      var k :| 0 <= k < |a| && a[k] == b[i];
    }
  }

  /** An index at which an element of the multiset of `b` occurs in `b`. */
  lemma Occurrence(x: PieceId, b: seq<PieceId>) returns (j: nat)
    requires x in multiset(b)
    ensures j < |b| && b[j] == x
  {
    j :| 0 <= j < |b| && b[j] == x;
  }

  /** Taking the last element off `a` and the same element off `b` keeps them permutations. */
  lemma PermutationStep(a: seq<PieceId>, b: seq<PieceId>, j: nat)
    requires a != [] && multiset(a) == multiset(b) && j < |b| && b[j] == a[|a| - 1]
    ensures multiset(a[..|a| - 1]) == multiset(b[..j] + b[j + 1..])
  {
    var n := |a| - 1;
    RemoveOne(a, n);
    RemoveOne(b, j);
    assert a[..n] + a[n + 1..] == a[..n];
  }

  /** Rewriting one piece changes the sum by the change of its value, if it is listed. */
  lemma TotalRewrite(arena: seq<Piece>, ids: seq<PieceId>, id: PieceId, piece: Piece)
    requires forall i | 0 <= i < |ids| :: ids[i] < |arena|
    requires Distinct(ids) && id < |arena|
    ensures Total(arena[id := piece], ids)
         == Total(arena, ids) + (if id in ids then Value(piece) - Value(arena[id]) else 0)
  {
    if id in ids {
      TotalUpdate(arena, ids, id, piece);
    } else {
      TotalFrame(arena, arena[id := piece], ids);
    }
  }

  /** Rewriting one listed piece changes the sum by the change of its value. */
  lemma TotalUpdate(arena: seq<Piece>, ids: seq<PieceId>, id: PieceId, piece: Piece)
    requires forall i | 0 <= i < |ids| :: ids[i] < |arena|
    requires Distinct(ids) && id in ids
    ensures Total(arena[id := piece], ids) == Total(arena, ids) - Value(arena[id]) + Value(piece)
  {
    var i := IndexOf(ids, id);
    var rest := ids[..i] + ids[i + 1..];
    DistinctRemove(ids, i);
    TotalRemove(arena, ids, i);
    TotalRemove(arena[id := piece], ids, i);
    TotalFrame(arena, arena[id := piece], rest);
  }

  // Lists without repetitions.

  /** Deleting an element keeps the others bounded. */
  lemma RemoveBounds(ids: seq<PieceId>, i: nat, others: seq<PieceId>, bound: nat)
    requires i < |ids| && forall j | 0 <= j < |ids| :: ids[j] < bound
    requires others == ids[..i] + ids[i + 1..]
    ensures forall j | 0 <= j < |others| :: others[j] < bound
  {
    forall j | 0 <= j < |others|
      ensures others[j] < bound
    {
      if j < i {
        assert others[j] == ids[j];
      } else {
        assert others[j] == ids[j + 1];
      }
    }
  }

  /** Deleting the `i`-th entry removes one occurrence from the multiset. */
  lemma RemoveOne(ids: seq<PieceId>, i: nat)
    requires i < |ids|
    ensures multiset(ids[..i] + ids[i + 1..]) == multiset(ids) - multiset{ids[i]}
  {
    assert ids == ids[..i] + [ids[i]] + ids[i + 1..];
    assert multiset(ids) == multiset(ids[..i]) + multiset{ids[i]} + multiset(ids[i + 1..]);
  }

  lemma DistinctRemove(ids: seq<PieceId>, i: nat)
    requires Distinct(ids) && i < |ids|
    ensures var rest := ids[..i] + ids[i + 1..];
      && multiset(rest) == multiset(ids) - multiset{ids[i]}
      && Distinct(rest) && ids[i] !in rest
      && (forall j | 0 <= j < |rest| :: rest[j] in ids)
      && (forall id | id in ids && id != ids[i] :: id in rest)
  {
    RemoveOne(ids, i);
    var rest := ids[..i] + ids[i + 1..];
    forall j | 0 <= j < |rest|
      ensures rest[j] in ids
    {
      assert rest[j] in multiset(rest);
    }
  }

  /** A list without repetitions holds each handle at most once. */
  lemma {:induction false} AtMostOnce(ids: seq<PieceId>, id: PieceId)
    requires Distinct(ids)
    ensures multiset(ids)[id] <= 1
  {
    if ids != [] {
      var n := |ids| - 1;
      assert ids == ids[..n] + [ids[n]];
      AtMostOnce(ids[..n], id);
      if ids[n] == id {
        assert id !in ids[..n];
      }
    }
  }

  /** A handle at two indices occurs twice. */
  lemma TwoCopies(ids: seq<PieceId>, i: nat, j: nat)
    requires i < j < |ids| && ids[i] == ids[j]
    ensures multiset(ids)[ids[i]] >= 2
  {
    assert ids == ids[..j] + [ids[j]] + ids[j + 1..];
    assert ids[..j][i] == ids[i];
  }

  /** A permutation of a list without repetitions has none either. */
  lemma DistinctPermutation(a: seq<PieceId>, b: seq<PieceId>)
    requires multiset(a) == multiset(b) && Distinct(a)
    ensures Distinct(b)
  {
    forall i, j | 0 <= i < j < |b|
      ensures b[i] != b[j]
    {
      if b[i] == b[j] {
        TwoCopies(b, i, j);
        AtMostOnce(a, b[i]);
      }
    }
  }

  lemma DistinctAppend(ids: seq<PieceId>, id: PieceId)
    requires Distinct(ids) && id !in ids
    ensures Distinct(ids + [id]) && multiset(ids + [id]) == multiset(ids) + multiset{id}
  {
  }

  /** Two grids with the same cells are equal. */
  lemma GridEquality(grid: seq<seq<Cell>>, grid': seq<seq<Cell>>)
    requires Shaped(grid) && Shaped(grid')
    requires forall q | InBounds(q) :: At(grid, q) == At(grid', q)
    ensures grid == grid'
  {
    forall y | 0 <= y < 8
      ensures grid[y] == grid'[y]
    {
      forall x | 0 <= x < 8
        ensures grid[y][x] == grid'[y][x]
      {
        assert At(grid, (x, y)) == At(grid', (x, y));
      }
    }
  }

  // make_move and unmake_move.

  /** The pieces a legal move involves: the mover stands on the origin and is listed, and a
      captured piece stands on the destination, is listed, and is not the mover. */
  lemma LegalPieces(s: State, m: Move)
    requires Consistent(s) && Legal(s, m)
    ensures m.originPiece < |s.arena| && s.arena[m.originPiece].position == m.origin
    ensures m.originPiece in s.pieces.Of(s.arena[m.originPiece].player)
    ensures m.destinationPiece.Occupied? ==>
      && m.destinationPiece.id < |s.arena| && m.destinationPiece.id != m.originPiece
      && s.arena[m.destinationPiece.id].position == m.destination
      && m.destinationPiece.id in s.pieces.Of(s.arena[m.destinationPiece.id].player)
  {
  }

  /** Whether `make_move(m)` promotes: the mover is a pawn arriving on its last row. */
  ghost predicate Promotes(s: State, m: Move)
    requires Consistent(s) && Legal(s, m)
  {
    LegalPieces(s, m);
    s.arena[m.originPiece].kind == Pawn && m.destination.1 == LastRow(s.arena[m.originPiece].player)
  }

  /** Whether `make_move(m)` captures a piece of `player`. */
  ghost predicate Captures(s: State, m: Move, player: Player)
    requires Consistent(s) && Legal(s, m)
  {
    LegalPieces(s, m);
    m.destinationPiece.Occupied? && s.arena[m.destinationPiece.id].player == player
  }

  /** What `make_move` does, cell by cell and piece by piece: the origin is emptied and the mover
      stands on the destination, recording it, as a queen if it promotes; no other cell or piece
      changes; a captured piece leaves its player's list and nothing else leaves any list; the
      king lists stay; the score drops by the captured value and gains the promotion bonus; the
      count drops by one per capture; and the move comes back marked iff it promoted. */
  ghost predicate MadeBy(s: State, m: Move, t: State, made: Move)
    requires Consistent(s) && Legal(s, m)
  {
    LegalPieces(s, m);
    var mover := m.originPiece;
    var piece := s.arena[mover];
    var promotes := Promotes(s, m);
    && Shaped(t.grid)
    && At(t.grid, m.origin) == Empty && At(t.grid, m.destination) == Occupied(mover)
    && (forall q | InBounds(q) && q != m.origin && q != m.destination :: At(t.grid, q) == At(s.grid, q))
    && |t.arena| == |s.arena|
    && t.arena[mover] == Piece(m.destination, piece.player, if promotes then Queen else piece.kind)
    && (forall id | 0 <= id < |s.arena| && id != mover :: t.arena[id] == s.arena[id])
    && (m.destinationPiece.Empty? ==> t.pieces == s.pieces)
    && (m.destinationPiece.Occupied? ==>
          var captured := m.destinationPiece.id;
          var owner := s.arena[captured].player;
          var i := IndexOf(s.pieces.Of(owner), captured);
          && t.pieces.Of(owner) == s.pieces.Of(owner)[..i] + s.pieces.Of(owner)[i + 1..]
          && t.pieces.Of(Other(owner)) == s.pieces.Of(Other(owner)))
    && t.kings == s.kings
    && t.score == s.score
                  - (if m.destinationPiece.Occupied? then Value(s.arena[m.destinationPiece.id]) else 0)
                  + (if promotes then PromotionBonus(piece.player) else 0)
    && t.numPieces == s.numPieces - (if m.destinationPiece.Occupied? then 1 else 0)
    && made == m.(pawnChange := promotes)
  }

  lemma MakeMoveEffect(s: State, m: Move)
    requires Consistent(s) && Legal(s, m)
    ensures MadeBy(s, m, ApplyMove(s, m).0, ApplyMove(s, m).1)
  {
    LegalPieces(s, m);
  }

  /** The lists and their properties, restated per player. */
  lemma ListFacts(s: State, player: Player)
    requires Consistent(s)
    ensures Listed(s, player, s.pieces.Of(player)) && Distinct(s.pieces.Of(player))
    ensures forall id | id in s.pieces.Of(player) :: id < |s.arena| && s.arena[id].player == player
  {
    assert Listed(s, White, s.pieces.white) && Listed(s, Black, s.pieces.black);
    assert Distinct(s.pieces.white) && Distinct(s.pieces.black);
  }

  /** After `make_move`, each list is the old one less the captured piece, if it was in it. */
  lemma MadeLists(s: State, m: Move, t: State, made: Move, player: Player)
    requires Consistent(s) && Legal(s, m) && MadeBy(s, m, t, made)
    ensures Distinct(t.pieces.Of(player))
    ensures if Captures(s, m, player)
      then multiset(t.pieces.Of(player)) == multiset(s.pieces.Of(player)) - multiset{m.destinationPiece.id}
      else t.pieces.Of(player) == s.pieces.Of(player)
  {
    LegalPieces(s, m);
    ListFacts(s, player);
    if m.destinationPiece.Occupied? {
      var captured := m.destinationPiece.id;
      var owner := s.arena[captured].player;
      var list := s.pieces.Of(owner);
      var i := IndexOf(list, captured);
      if player == owner {
        assert t.pieces.Of(player) == list[..i] + list[i + 1..];
        DistinctRemove(list, i);
      } else {
        assert player == Other(owner);
      }
    }
  }

  /** After `make_move`, a piece is listed iff it was listed and was not captured. */
  lemma MadeMembers(s: State, m: Move, t: State, made: Move, player: Player, id: PieceId)
    requires Consistent(s) && Legal(s, m) && MadeBy(s, m, t, made)
    ensures id in t.pieces.Of(player)
        <==> id in s.pieces.Of(player) && !(m.destinationPiece.Occupied? && id == m.destinationPiece.id)
  {
    MadeLists(s, m, t, made, player);
    ListFacts(s, player);
    LegalPieces(s, m);
    if Captures(s, m, player) {
      assert id in t.pieces.Of(player) <==> id in multiset(t.pieces.Of(player));
      assert id in s.pieces.Of(player) <==> id in multiset(s.pieces.Of(player));
    } else if m.destinationPiece.Occupied? {
      assert m.destinationPiece.id !in s.pieces.Of(player);
    }
  }

  /** After `make_move`, every listed piece still stands where it records and keeps its player,
      and a listed king is still in its king list. */
  lemma MadeListed(s: State, m: Move, t: State, made: Move, player: Player)
    requires Consistent(s) && Legal(s, m) && MadeBy(s, m, t, made)
    ensures WellFormed(t.grid, t.arena)
    ensures Listed(t, player, t.pieces.Of(player))
  {
    LegalPieces(s, m);
    MadeLists(s, m, t, made, player);
    ListFacts(s, player);
    MadeWellFormed(s, m, t, made);
    var list := t.pieces.Of(player);
    forall i | 0 <= i < |list|
      ensures Placed(t.grid, t.arena, list[i]) && t.arena[list[i]].player == player
      ensures t.arena[list[i]].kind == King ==> list[i] in t.kings.Of(player)
    {
      var id := list[i];
      MadeMembers(s, m, t, made, player, id);
      if id != m.originPiece {
        var q := s.arena[id].position;
        assert At(s.grid, q) == Occupied(id);
        assert q != m.origin && q != m.destination;
      }
    }
  }

  lemma MadeWellFormed(s: State, m: Move, t: State, made: Move)
    requires Consistent(s) && Legal(s, m) && MadeBy(s, m, t, made)
    ensures WellFormed(t.grid, t.arena)
  {
    LegalPieces(s, m);
    forall y, x | 0 <= y < 8 && 0 <= x < 8 && t.grid[y][x].Occupied?
      ensures t.grid[y][x].id < |t.arena|
    {
      assert At(t.grid, (x, y)) == t.grid[y][x];
      if (x, y) != m.origin && (x, y) != m.destination {
        assert At(s.grid, (x, y)) == s.grid[y][x];
      }
    }
  }

  /** After `make_move`, each occupied cell holds a listed piece that records that cell. */
  lemma MadeCells(s: State, m: Move, t: State, made: Move)
    requires Consistent(s) && Legal(s, m) && MadeBy(s, m, t, made)
    ensures WellFormed(t.grid, t.arena)
    ensures forall q | InBounds(q) && At(t.grid, q).Occupied? ::
      && t.arena[At(t.grid, q).id].position == q
      && At(t.grid, q).id in t.pieces.Of(t.arena[At(t.grid, q).id].player)
  {
    LegalPieces(s, m);
    MadeWellFormed(s, m, t, made);
    forall q | InBounds(q) && At(t.grid, q).Occupied?
      ensures t.arena[At(t.grid, q).id].position == q
      ensures At(t.grid, q).id in t.pieces.Of(t.arena[At(t.grid, q).id].player)
    {
      var id := At(t.grid, q).id;
      MadeMembers(s, m, t, made, t.arena[id].player, id);
      if q != m.destination {
        assert At(s.grid, q) == Occupied(id);
        assert id != m.originPiece;
      }
    }
  }

  /** After `make_move`, each player's total drops by the value of a captured piece of theirs
      and gains the promotion bonus of a promoted pawn of theirs. */
  /** Over the old arena, the new list sums to the old total less a captured value. */
  lemma MadeTotalCaptured(s: State, m: Move, t: State, made: Move, player: Player)
    requires Consistent(s) && Legal(s, m) && MadeBy(s, m, t, made)
    ensures forall i | 0 <= i < |t.pieces.Of(player)| :: t.pieces.Of(player)[i] < |s.arena|
    ensures Total(s.arena, s.pieces.Of(player))
         == Total(s.arena, t.pieces.Of(player))
            + (if Captures(s, m, player) then Value(s.arena[m.destinationPiece.id]) else 0)
  {
    var list := s.pieces.Of(player);
    ListFacts(s, player);
    MadeListShape(s, m, t, made, player);
    if Captures(s, m, player) {
      var i := IndexOf(list, m.destinationPiece.id);
      TotalRemove(s.arena, list, i);
      RemoveBounds(list, i, t.pieces.Of(player), |s.arena|);
    }
  }

  /** `make_move` deletes the captured piece from its owner's list and changes no other list. */
  lemma MadeListShape(s: State, m: Move, t: State, made: Move, player: Player)
    requires Consistent(s) && Legal(s, m) && MadeBy(s, m, t, made)
    ensures Captures(s, m, player) ==> m.destinationPiece.id in s.pieces.Of(player)
    ensures if Captures(s, m, player)
      then var i := IndexOf(s.pieces.Of(player), m.destinationPiece.id);
        t.pieces.Of(player) == s.pieces.Of(player)[..i] + s.pieces.Of(player)[i + 1..]
      else t.pieces.Of(player) == s.pieces.Of(player)
  {
    LegalPieces(s, m);
    if m.destinationPiece.Occupied? && !Captures(s, m, player) {
      assert player == Other(s.arena[m.destinationPiece.id].player);
    }
  }

  lemma MadeTotal(s: State, m: Move, t: State, made: Move, player: Player)
    requires Consistent(s) && Legal(s, m) && MadeBy(s, m, t, made)
    ensures forall i | 0 <= i < |t.pieces.Of(player)| :: t.pieces.Of(player)[i] < |t.arena|
    ensures Total(t.arena, t.pieces.Of(player))
         == Total(s.arena, s.pieces.Of(player))
            - (if Captures(s, m, player) then Value(s.arena[m.destinationPiece.id]) else 0)
            + (if Promotes(s, m) && s.arena[m.originPiece].player == player
               then PromotionBonus(player) else 0)
  {
    MadeTotalCaptured(s, m, t, made, player);
    MadeLists(s, m, t, made, player);
    var mover := m.originPiece;
    assert t.arena == s.arena[mover := t.arena[mover]];
    TotalRewrite(s.arena, t.pieces.Of(player), mover, t.arena[mover]);
    MoverStaysListed(s, m, t, made, player);
    MoverValue(s, m, t, made);
  }

  /** The moving piece stays in its own list and is in no other. */
  lemma MoverStaysListed(s: State, m: Move, t: State, made: Move, player: Player)
    requires Consistent(s) && Legal(s, m) && MadeBy(s, m, t, made)
    ensures m.originPiece < |s.arena|
    ensures m.originPiece in t.pieces.Of(player) <==> s.arena[m.originPiece].player == player
  {
    LegalPieces(s, m);
    MadeMembers(s, m, t, made, player, m.originPiece);
    ListFacts(s, player);
  }

  /** The value of the moving piece changes by the promotion bonus if it promotes, and not
      otherwise. */
  lemma MoverValue(s: State, m: Move, t: State, made: Move)
    requires Consistent(s) && Legal(s, m) && MadeBy(s, m, t, made)
    ensures m.originPiece < |s.arena| && m.originPiece < |t.arena|
    ensures Value(t.arena[m.originPiece]) - Value(s.arena[m.originPiece])
         == if Promotes(s, m) then PromotionBonus(s.arena[m.originPiece].player) else 0
  {
    LegalPieces(s, m);
  }

  /** After `make_move`, the king lists still hold kings of their player: a king never
      promotes. */
  lemma MadeKings(s: State, m: Move, t: State, made: Move, player: Player)
    requires Consistent(s) && Legal(s, m) && MadeBy(s, m, t, made)
    ensures KingsOf(t, player)
  {
    LegalPieces(s, m);
    assert KingsOf(s, White) && KingsOf(s, Black);
  }

  /** After `make_move`, the piece count is the number of listed pieces. */
  lemma MadeCount(s: State, m: Move, t: State, made: Move)
    requires Consistent(s) && Legal(s, m) && MadeBy(s, m, t, made)
    ensures t.numPieces == |t.pieces.white| + |t.pieces.black|
  {
    LegalPieces(s, m);
    MadeLists(s, m, t, made, White);
    MadeLists(s, m, t, made, Black);
    assert |multiset(t.pieces.white)| == |t.pieces.white| && |multiset(t.pieces.black)| == |t.pieces.black|;
    assert |multiset(s.pieces.white)| == |s.pieces.white| && |multiset(s.pieces.black)| == |s.pieces.black|;
    if m.destinationPiece.Occupied? {
      var owner := s.arena[m.destinationPiece.id].player;
      assert Captures(s, m, owner) && !Captures(s, m, Other(owner));
      assert owner == White || owner == Black;
    }
  }

  /** `make_move` keeps the board's invariant, and leaves a state from which `unmake_move` of the
      returned move is defined. */
  lemma MakeMoveConsistent(s: State, m: Move)
    requires Consistent(s) && Legal(s, m)
    ensures Consistent(ApplyMove(s, m).0)
    ensures Undoable(ApplyMove(s, m).0, ApplyMove(s, m).1)
  {
    var (t, made) := ApplyMove(s, m);
    MakeMoveEffect(s, m);
    MadeConsistent(s, m, t, made);
    MadeUndoable(s, m, t, made);
  }

  /** The invariant holds after any state change with the effect of `make_move`. */
  lemma MadeConsistent(s: State, m: Move, t: State, made: Move)
    requires Consistent(s) && Legal(s, m) && MadeBy(s, m, t, made)
    ensures Consistent(t)
  {
    LegalPieces(s, m);
    MadeCells(s, m, t, made);
    MadeListed(s, m, t, made, White);
    MadeListed(s, m, t, made, Black);
    MadeLists(s, m, t, made, White);
    MadeLists(s, m, t, made, Black);
    MadeKings(s, m, t, made, White);
    MadeKings(s, m, t, made, Black);
    MadeTotal(s, m, t, made, White);
    MadeTotal(s, m, t, made, Black);
    MadeCount(s, m, t, made);
    if m.destinationPiece.Occupied? {
      var owner := s.arena[m.destinationPiece.id].player;
      assert Captures(s, m, owner) && !Captures(s, m, Other(owner));
      assert owner == White || owner == Black;
    }
    if Promotes(s, m) {
      var player := s.arena[m.originPiece].player;
      assert player == White || player == Black;
    }
  }

  /** After `make_move`, the move it returns can be unmade. */
  lemma MadeUndoable(s: State, m: Move, t: State, made: Move)
    requires Consistent(s) && Legal(s, m) && MadeBy(s, m, t, made) && Consistent(t)
    ensures Undoable(t, made)
  {
    LegalPieces(s, m);
    if m.destinationPiece.Occupied? {
      var captured := m.destinationPiece.id;
      var owner := s.arena[captured].player;
      assert owner == White || owner == Black;
      MadeMembers(s, m, t, made, owner, captured);
      ListFacts(s, owner);
    }
  }

  /** What `unmake_move` does: the mover stands on the origin again, recording it, as a pawn if
      the move was marked as a promotion; the recorded occupant is back on the destination; no
      other cell or piece changes; a captured piece is appended to its player's list; the score
      regains the captured value and loses the promotion bonus; the count grows by one per
      capture; and the returned move is no longer marked. */
  ghost predicate UnmadeBy(t: State, m: Move, u: State, unmade: Move)
    requires Undoable(t, m)
  {
    var mover := m.originPiece;
    var piece := t.arena[mover];
    && Shaped(u.grid)
    && At(u.grid, m.origin) == Occupied(mover) && At(u.grid, m.destination) == m.destinationPiece
    && (forall q | InBounds(q) && q != m.origin && q != m.destination :: At(u.grid, q) == At(t.grid, q))
    && |u.arena| == |t.arena|
    && u.arena[mover] == Piece(m.origin, piece.player, if m.pawnChange then Pawn else piece.kind)
    && (forall id | 0 <= id < |t.arena| && id != mover :: u.arena[id] == t.arena[id])
    && (m.destinationPiece.Empty? ==> u.pieces == t.pieces)
    && (m.destinationPiece.Occupied? ==>
          var captured := m.destinationPiece.id;
          var owner := t.arena[captured].player;
          && u.pieces.Of(owner) == t.pieces.Of(owner) + [captured]
          && u.pieces.Of(Other(owner)) == t.pieces.Of(Other(owner)))
    && u.kings == t.kings
    && u.score == t.score
                  + (if m.destinationPiece.Occupied? then Value(t.arena[m.destinationPiece.id]) else 0)
                  - (if m.pawnChange then PromotionBonus(piece.player) else 0)
    && u.numPieces == t.numPieces + (if m.destinationPiece.Occupied? then 1 else 0)
    && unmade == m.(pawnChange := false)
  }

  lemma UnmakeMoveEffect(t: State, m: Move)
    requires Undoable(t, m)
    ensures UnmadeBy(t, m, RevertMove(t, m).0, RevertMove(t, m).1)
  {
  }

  /** Whether `unmake_move(m)` restores a captured piece of `player`. */
  ghost predicate Restores(t: State, m: Move, player: Player)
    requires Undoable(t, m)
  {
    m.destinationPiece.Occupied? && t.arena[m.destinationPiece.id].player == player
  }

  /** After `unmake_move`, each list is the old one, with a restored piece of its player appended. */
  lemma UnmadeLists(t: State, m: Move, u: State, unmade: Move, player: Player)
    requires Undoable(t, m) && UnmadeBy(t, m, u, unmade)
    ensures Distinct(u.pieces.Of(player))
    ensures if Restores(t, m, player)
      then u.pieces.Of(player) == t.pieces.Of(player) + [m.destinationPiece.id]
      else u.pieces.Of(player) == t.pieces.Of(player)
    ensures forall id ::
      (id in u.pieces.Of(player) <==> id in t.pieces.Of(player) || (Restores(t, m, player) && id == m.destinationPiece.id))
  {
    ListFacts(t, player);
    if Restores(t, m, player) {
      DistinctAppend(t.pieces.Of(player), m.destinationPiece.id);
    } else if m.destinationPiece.Occupied? {
      assert player == Other(t.arena[m.destinationPiece.id].player);
    }
  }

  lemma UnmadeWellFormed(t: State, m: Move, u: State, unmade: Move)
    requires Undoable(t, m) && UnmadeBy(t, m, u, unmade)
    ensures WellFormed(u.grid, u.arena)
  {
    forall y, x | 0 <= y < 8 && 0 <= x < 8 && u.grid[y][x].Occupied?
      ensures u.grid[y][x].id < |u.arena|
    {
      assert At(u.grid, (x, y)) == u.grid[y][x];
      if (x, y) != m.origin && (x, y) != m.destination {
        assert At(t.grid, (x, y)) == t.grid[y][x];
      }
    }
  }

  /** After `unmake_move`, every listed piece stands where it records and keeps its player, and a
      listed king is in its king list. */
  lemma UnmadeListed(t: State, m: Move, u: State, unmade: Move, player: Player)
    requires Undoable(t, m) && UnmadeBy(t, m, u, unmade)
    ensures WellFormed(u.grid, u.arena)
    ensures Listed(u, player, u.pieces.Of(player))
  {
    UnmadeWellFormed(t, m, u, unmade);
    UnmadeLists(t, m, u, unmade, player);
    ListFacts(t, player);
    var list := u.pieces.Of(player);
    forall i | 0 <= i < |list|
      ensures Placed(u.grid, u.arena, list[i]) && u.arena[list[i]].player == player
      ensures u.arena[list[i]].kind == King ==> list[i] in u.kings.Of(player)
    {
      var id := list[i];
      assert id in list;
      if id in t.pieces.Of(player) && id != m.originPiece {
        var q := t.arena[id].position;
        assert At(t.grid, q) == Occupied(id);
        assert q != m.origin && q != m.destination;
      }
    }
  }

  /** After `unmake_move`, each occupied cell holds a listed piece that records that cell. */
  lemma UnmadeCells(t: State, m: Move, u: State, unmade: Move)
    requires Undoable(t, m) && UnmadeBy(t, m, u, unmade)
    ensures WellFormed(u.grid, u.arena)
    ensures forall q | InBounds(q) && At(u.grid, q).Occupied? ::
      && u.arena[At(u.grid, q).id].position == q
      && At(u.grid, q).id in u.pieces.Of(u.arena[At(u.grid, q).id].player)
  {
    UnmadeWellFormed(t, m, u, unmade);
    forall q | InBounds(q) && At(u.grid, q).Occupied?
      ensures u.arena[At(u.grid, q).id].position == q
      ensures At(u.grid, q).id in u.pieces.Of(u.arena[At(u.grid, q).id].player)
    {
      var id := At(u.grid, q).id;
      UnmadeLists(t, m, u, unmade, u.arena[id].player);
      if q == m.origin {
        assert At(t.grid, m.destination) == Occupied(id);
      } else if q != m.destination {
        assert At(t.grid, q) == Occupied(id);
        assert id != m.originPiece;
      }
    }
  }

  /** After `unmake_move`, the king lists still hold kings of their player. */
  lemma UnmadeKings(t: State, m: Move, u: State, unmade: Move, player: Player)
    requires Undoable(t, m) && UnmadeBy(t, m, u, unmade)
    ensures KingsOf(u, player)
  {
    assert KingsOf(t, White) && KingsOf(t, Black);
  }

  /** After `unmake_move`, each player's total regains a restored piece's value and loses the
      promotion bonus of a demoted queen of theirs. */
  /** Over the old arena, the new list sums to the old total plus a restored value. */
  lemma UnmadeTotalRestored(t: State, m: Move, u: State, unmade: Move, player: Player)
    requires Undoable(t, m) && UnmadeBy(t, m, u, unmade)
    ensures forall j | 0 <= j < |u.pieces.Of(player)| :: u.pieces.Of(player)[j] < |t.arena|
    ensures Total(t.arena, u.pieces.Of(player))
         == Total(t.arena, t.pieces.Of(player))
            + (if Restores(t, m, player) then Value(t.arena[m.destinationPiece.id]) else 0)
  {
    var list := t.pieces.Of(player);
    var list' := u.pieces.Of(player);
    ListFacts(t, player);
    UnmadeListShape(t, m, u, unmade, player);
    if Restores(t, m, player) {
      assert list'[..|list|] == list;
    }
  }

  lemma UnmadeTotal(t: State, m: Move, u: State, unmade: Move, player: Player)
    requires Undoable(t, m) && UnmadeBy(t, m, u, unmade)
    ensures Listed(u, player, u.pieces.Of(player))
    ensures Total(u.arena, u.pieces.Of(player))
         == Total(t.arena, t.pieces.Of(player))
            + (if Restores(t, m, player) then Value(t.arena[m.destinationPiece.id]) else 0)
            - (if m.pawnChange && t.arena[m.originPiece].player == player then PromotionBonus(player) else 0)
  {
    UnmadeListed(t, m, u, unmade, player);
    UnmadeTotalRestored(t, m, u, unmade, player);
    UnmoverListed(t, m, u, unmade, player);
    UnmoverValue(t, m, u, unmade);
    var mover := m.originPiece;
    assert u.arena == t.arena[mover := u.arena[mover]];
    TotalRewrite(t.arena, u.pieces.Of(player), mover, u.arena[mover]);
  }

  /** Unmaking a promotion takes the bonus back off the moving piece's value. */
  lemma UnmoverValue(t: State, m: Move, u: State, unmade: Move)
    requires Undoable(t, m) && UnmadeBy(t, m, u, unmade)
    ensures m.originPiece < |t.arena| && m.originPiece < |u.arena|
    ensures Value(u.arena[m.originPiece]) - Value(t.arena[m.originPiece])
         == -(if m.pawnChange then PromotionBonus(t.arena[m.originPiece].player) else 0)
  {
  }

  /** The moving piece is in `player`'s restored list iff it belongs to `player`. */
  lemma UnmoverListed(t: State, m: Move, u: State, unmade: Move, player: Player)
    requires Undoable(t, m) && UnmadeBy(t, m, u, unmade)
    ensures m.originPiece < |t.arena| && Distinct(u.pieces.Of(player))
    ensures m.originPiece in u.pieces.Of(player) <==> t.arena[m.originPiece].player == player
  {
    var mover := m.originPiece;
    UnmadeLists(t, m, u, unmade, player);
    ListFacts(t, player);
    assert At(t.grid, m.destination) == Occupied(mover);
    assert mover in t.pieces.Of(t.arena[mover].player);
  }

  /** After `unmake_move`, the piece count is the number of listed pieces. */
  lemma UnmadeCount(t: State, m: Move, u: State, unmade: Move)
    requires Undoable(t, m) && UnmadeBy(t, m, u, unmade)
    ensures u.numPieces == |u.pieces.white| + |u.pieces.black|
  {
    UnmadeLists(t, m, u, unmade, White);
    UnmadeLists(t, m, u, unmade, Black);
    if m.destinationPiece.Occupied? {
      var owner := t.arena[m.destinationPiece.id].player;
      assert Restores(t, m, owner) && !Restores(t, m, Other(owner));
      assert owner == White || owner == Black;
    }
  }

  /** `unmake_move` keeps the board's invariant. */
  lemma UnmakeMoveConsistent(t: State, m: Move)
    requires Undoable(t, m)
    ensures Consistent(RevertMove(t, m).0)
  {
    var (u, unmade) := RevertMove(t, m);
    UnmakeMoveEffect(t, m);
    UnmadeConsistent(t, m, u, unmade);
  }

  /** The invariant holds after any state change with the effect of `unmake_move`. */
  lemma UnmadeConsistent(t: State, m: Move, u: State, unmade: Move)
    requires Undoable(t, m) && UnmadeBy(t, m, u, unmade)
    ensures Consistent(u)
  {
    UnmadeCells(t, m, u, unmade);
    UnmadeListed(t, m, u, unmade, White);
    UnmadeListed(t, m, u, unmade, Black);
    UnmadeLists(t, m, u, unmade, White);
    UnmadeLists(t, m, u, unmade, Black);
    UnmadeKings(t, m, u, unmade, White);
    UnmadeKings(t, m, u, unmade, Black);
    UnmadeTotal(t, m, u, unmade, White);
    UnmadeTotal(t, m, u, unmade, Black);
    UnmadeCount(t, m, u, unmade);
    if m.destinationPiece.Occupied? {
      var owner := t.arena[m.destinationPiece.id].player;
      assert Restores(t, m, owner) && !Restores(t, m, Other(owner));
      assert owner == White || owner == Black;
    }
    var player := t.arena[m.originPiece].player;
    assert player == White || player == Black;
  }

  /** The state `unmake_move` leaves after `make_move`: the same board, except that a captured
      piece has moved from its place in its player's list to the end. */
  function Reordered(s: State, m: Move): State
    requires Consistent(s) && Legal(s, m)
  {
    LegalPieces(s, m);
    if m.destinationPiece.Occupied? then
      var captured := m.destinationPiece.id;
      var owner := s.arena[captured].player;
      var list := s.pieces.Of(owner);
      var i := IndexOf(list, captured);
      s.(pieces := s.pieces.With(owner, list[..i] + list[i + 1..] + [captured]))
    else s
  }

  /** `unmake_move` undoes `make_move`: it restores the grid, every piece, the score, the count
      and the move itself (whatever score was recorded on it in between), and every list up to
      the order of a captured piece's list. */
  lemma UnmakeAfterMake(s: State, m: Move, x: real)
    requires Consistent(s) && Legal(s, m)
    ensures var (t, made) := ApplyMove(s, m);
      && Undoable(t, made.(scoreChange := x))
      && RevertMove(t, made.(scoreChange := x)) == (Reordered(s, m), m.(scoreChange := x))
    ensures Equiv(Reordered(s, m), s)
  {
    var (t, made) := ApplyMove(s, m);
    var made' := made.(scoreChange := x);
    MakeMoveEffect(s, m);
    MakeMoveConsistent(s, m);
    var (u, unmade) := RevertMove(t, made');
    UnmakeMoveEffect(t, made');
    RoundTrip(s, m, t, made, made', u, unmade);
    ReorderedEquiv(s, m);
  }

  /** The state and move `unmake_move` returns after `make_move`, from the two effects. */
  lemma RoundTrip(s: State, m: Move, t: State, made: Move, made': Move, u: State, unmade: Move)
    requires Consistent(s) && Legal(s, m) && MadeBy(s, m, t, made)
    requires made' == made.(scoreChange := made'.scoreChange) && Undoable(t, made')
    requires UnmadeBy(t, made', u, unmade)
    ensures u == Reordered(s, m) && unmade == m.(scoreChange := made'.scoreChange)
  {
    LegalPieces(s, m);
    var r := Reordered(s, m);
    RoundTripGrid(s, m, t, made, made', u, unmade);
    RoundTripArena(s, m, t, made, made', u, unmade);
    RoundTripPieces(s, m, t, made, made', u, unmade);
    if Promotes(s, m) {
      var player := s.arena[m.originPiece].player;
      assert player == White || player == Black;
    }
    assert u.kings == r.kings && u.score == r.score && u.numPieces == r.numPieces;
  }

  lemma RoundTripGrid(s: State, m: Move, t: State, made: Move, made': Move, u: State, unmade: Move)
    requires Consistent(s) && Legal(s, m) && MadeBy(s, m, t, made)
    requires made' == made.(scoreChange := made'.scoreChange) && Undoable(t, made')
    requires UnmadeBy(t, made', u, unmade)
    ensures u.grid == s.grid
  {
    forall q | InBounds(q)
      ensures At(u.grid, q) == At(s.grid, q)
    {
    }
    GridEquality(u.grid, s.grid);
  }

  lemma RoundTripArena(s: State, m: Move, t: State, made: Move, made': Move, u: State, unmade: Move)
    requires Consistent(s) && Legal(s, m) && MadeBy(s, m, t, made)
    requires made' == made.(scoreChange := made'.scoreChange) && Undoable(t, made')
    requires UnmadeBy(t, made', u, unmade)
    ensures u.arena == s.arena
  {
    LegalPieces(s, m);
    forall id | 0 <= id < |s.arena|
      ensures u.arena[id] == s.arena[id]
    {
    }
  }

  lemma RoundTripPieces(s: State, m: Move, t: State, made: Move, made': Move, u: State, unmade: Move)
    requires Consistent(s) && Legal(s, m) && MadeBy(s, m, t, made)
    requires made' == made.(scoreChange := made'.scoreChange) && Undoable(t, made')
    requires UnmadeBy(t, made', u, unmade)
    ensures u.pieces == Reordered(s, m).pieces
  {
    LegalPieces(s, m);
    var r := Reordered(s, m);
    if m.destinationPiece.Occupied? {
      var owner := s.arena[m.destinationPiece.id].player;
      assert t.arena[m.destinationPiece.id].player == owner;
      assert u.pieces.Of(owner) == r.pieces.Of(owner);
      assert u.pieces.Of(Other(owner)) == r.pieces.Of(Other(owner));
      assert owner == White || owner == Black;
    }
    assert u.pieces == Sides(u.pieces.white, u.pieces.black);
  }

  /** The reordered state holds the same pieces as the original. */
  lemma ReorderedEquiv(s: State, m: Move)
    requires Consistent(s) && Legal(s, m)
    ensures Equiv(Reordered(s, m), s)
  {
    LegalPieces(s, m);
    if m.destinationPiece.Occupied? {
      var owner := s.arena[m.destinationPiece.id].player;
      var list := s.pieces.Of(owner);
      var i := IndexOf(list, m.destinationPiece.id);
      MoveToEnd(list, i);
      var r := Reordered(s, m);
      assert multiset(r.pieces.Of(owner)) == multiset(s.pieces.Of(owner));
      assert r.pieces.Of(Other(owner)) == s.pieces.Of(Other(owner));
      assert owner == White || owner == Black;
    }
  }

  /** Moving the `i`-th entry to the end keeps the multiset. */
  lemma MoveToEnd(ids: seq<PieceId>, i: nat)
    requires i < |ids|
    ensures multiset(ids[..i] + ids[i + 1..] + [ids[i]]) == multiset(ids)
  {
    RemoveOne(ids, i);
  }

  lemma EquivSymmetric(s: State, t: State)
    requires Equiv(s, t)
    ensures Equiv(t, s)
  {
  }

  lemma EquivTransitive(s: State, t: State, u: State)
    requires Equiv(s, t) && Equiv(t, u)
    ensures Equiv(s, u)
  {
  }

  /** Legality reads only the grid, which list order does not touch. */
  lemma LegalEquiv(s: State, s': State, m: Move)
    requires Consistent(s) && Consistent(s') && Equiv(s, s') && Legal(s, m)
    ensures Legal(s', m)
  {
  }

  /** A legal move on a consistent board can be made. */
  lemma LegalApplicable(s: State, m: Move)
    requires Consistent(s) && Legal(s, m)
    ensures Applicable(s, m)
  {
    LegalPieces(s, m);
  }

  /** The move `make_move` returns can be unmade. */
  lemma UndoableRevertible(t: State, m: Move)
    requires Undoable(t, m)
    ensures Revertible(t, m)
  {
    assert At(t.grid, m.destination) == Occupied(m.originPiece);
  }

  /** Each list of a board that differs only in list order has the properties of the original's. */
  lemma EquivList(s: State, s': State, player: Player)
    requires Consistent(s) && Equiv(s, s')
    ensures Listed(s', player, s'.pieces.Of(player)) && Distinct(s'.pieces.Of(player))
    ensures Total(s.arena, s.pieces.Of(player)) == Total(s'.arena, s'.pieces.Of(player))
    ensures |s.pieces.Of(player)| == |s'.pieces.Of(player)|
    ensures forall id :: (id in s.pieces.Of(player) <==> id in s'.pieces.Of(player))
  {
    ListFacts(s, player);
    var list := s.pieces.Of(player);
    var list' := s'.pieces.Of(player);
    assert multiset(list) == multiset(list') by {
      assert player == White || player == Black;
    }
    forall id
      ensures id in list <==> id in list'
    {
      assert id in list <==> id in multiset(list);
      assert id in list' <==> id in multiset(list');
    }
    forall i | 0 <= i < |list'|
      ensures Placed(s'.grid, s'.arena, list'[i]) && s'.arena[list'[i]].player == player
      ensures s'.arena[list'[i]].kind == King ==> list'[i] in s'.kings.Of(player)
    {
      assert list'[i] in list;
    }
    TotalPermutation(s.arena, list, list');
    DistinctPermutation(list, list');
    assert |multiset(list)| == |list| && |multiset(list')| == |list'|;
  }

  /** A board that differs only in the order of its lists is just as consistent. */
  lemma EquivConsistent(s: State, s': State)
    requires Consistent(s) && Equiv(s, s')
    ensures Consistent(s')
  {
    EquivList(s, s', White);
    EquivList(s, s', Black);
    forall q | InBounds(q) && At(s'.grid, q).Occupied?
      ensures At(s'.grid, q).id in s'.pieces.Of(s'.arena[At(s'.grid, q).id].player)
    {
      var id := At(s'.grid, q).id;
      assert id in s.pieces.Of(s.arena[id].player);
      assert s.arena[id].player == White || s.arena[id].player == Black;
    }
  }

  /** `make_move` on boards that differ only in list order gives boards that differ only in list
      order, and the same move. */
  lemma MakeMoveEquiv(s: State, s': State, m: Move)
    requires Consistent(s) && Legal(s, m) && Equiv(s, s')
    ensures Consistent(s') && Legal(s', m)
    ensures Equiv(ApplyMove(s, m).0, ApplyMove(s', m).0) && ApplyMove(s, m).1 == ApplyMove(s', m).1
  {
    EquivConsistent(s, s');
    MakeMoveEffect(s, m);
    MakeMoveEffect(s', m);
    MadeEquiv(s, s', m, ApplyMove(s, m).0, ApplyMove(s, m).1, ApplyMove(s', m).0, ApplyMove(s', m).1);
  }

  lemma MadeEquiv(s: State, s': State, m: Move, t: State, made: Move, t': State, made': Move)
    requires Consistent(s) && Legal(s, m) && Equiv(s, s') && Consistent(s') && Legal(s', m)
    requires MadeBy(s, m, t, made) && MadeBy(s', m, t', made')
    ensures Equiv(t, t') && made == made'
  {
    MadeEquivBoard(s, s', m, t, made, t', made');
    MadeEquivList(s, s', m, t, made, t', made', White);
    MadeEquivList(s, s', m, t, made, t', made', Black);
  }

  lemma MadeEquivBoard(s: State, s': State, m: Move, t: State, made: Move, t': State, made': Move)
    requires Consistent(s) && Legal(s, m) && Equiv(s, s') && Consistent(s') && Legal(s', m)
    requires MadeBy(s, m, t, made) && MadeBy(s', m, t', made')
    ensures t.grid == t'.grid && t.arena == t'.arena && t.kings == t'.kings
    ensures t.score == t'.score && t.numPieces == t'.numPieces && made == made'
  {
    LegalPieces(s, m);
    forall q | InBounds(q)
      ensures At(t.grid, q) == At(t'.grid, q)
    {
    }
    GridEquality(t.grid, t'.grid);
    forall id | 0 <= id < |t.arena|
      ensures t.arena[id] == t'.arena[id]
    {
    }
  }

  lemma MadeEquivList(s: State, s': State, m: Move, t: State, made: Move, t': State, made': Move, player: Player)
    requires Consistent(s) && Legal(s, m) && Equiv(s, s') && Consistent(s') && Legal(s', m)
    requires MadeBy(s, m, t, made) && MadeBy(s', m, t', made')
    ensures multiset(t.pieces.Of(player)) == multiset(t'.pieces.Of(player))
  {
    MadeLists(s, m, t, made, player);
    MadeLists(s', m, t', made', player);
    assert multiset(s.pieces.Of(player)) == multiset(s'.pieces.Of(player)) by {
      assert player == White || player == Black;
    }
    assert Captures(s, m, player) == Captures(s', m, player);
  }

  /** `unmake_move` on boards that differ only in list order gives boards that differ only in
      list order, and the same move. */
  lemma UnmakeMoveEquiv(t: State, t': State, m: Move)
    requires Undoable(t, m) && Equiv(t, t')
    ensures Undoable(t', m)
    ensures Equiv(RevertMove(t, m).0, RevertMove(t', m).0) && RevertMove(t, m).1 == RevertMove(t', m).1
  {
    EquivConsistent(t, t');
    if m.destinationPiece.Occupied? {
      var captured := m.destinationPiece.id;
      var owner := t.arena[captured].player;
      assert multiset(t.pieces.Of(owner)) == multiset(t'.pieces.Of(owner)) by {
        assert owner == White || owner == Black;
      }
      assert captured !in t'.pieces.Of(owner) by {
        assert captured in t.pieces.Of(owner) <==> captured in multiset(t.pieces.Of(owner));
      }
    }
    assert Undoable(t', m);
    UnmakeMoveEffect(t, m);
    UnmakeMoveEffect(t', m);
    UnmadeEquiv(t, t', m, RevertMove(t, m).0, RevertMove(t, m).1, RevertMove(t', m).0, RevertMove(t', m).1);
  }

  lemma UnmadeEquiv(t: State, t': State, m: Move, u: State, unmade: Move, u': State, unmade': Move)
    requires Undoable(t, m) && Equiv(t, t') && Undoable(t', m)
    requires UnmadeBy(t, m, u, unmade) && UnmadeBy(t', m, u', unmade')
    ensures Equiv(u, u') && unmade == unmade'
  {
    UnmadeEquivBoard(t, t', m, u, unmade, u', unmade');
    UnmadeEquivList(t, t', m, u, unmade, u', unmade', White);
    UnmadeEquivList(t, t', m, u, unmade, u', unmade', Black);
  }

  /** Unmaking a move on equivalent boards gives the same grid and arena. */
  lemma UnmadeEquivBoard(t: State, t': State, m: Move, u: State, unmade: Move, u': State, unmade': Move)
    requires Undoable(t, m) && Equiv(t, t') && Undoable(t', m)
    requires UnmadeBy(t, m, u, unmade) && UnmadeBy(t', m, u', unmade')
    ensures u.grid == u'.grid && u.arena == u'.arena
  {
    forall q | InBounds(q)
      ensures At(u.grid, q) == At(u'.grid, q)
    {
    }
    GridEquality(u.grid, u'.grid);
    forall id | 0 <= id < |u.arena|
      ensures u.arena[id] == u'.arena[id]
    {
    }
  }

  /** Unmaking a move on equivalent boards gives lists with the same pieces. */
  lemma UnmadeEquivList(t: State, t': State, m: Move, u: State, unmade: Move, u': State, unmade': Move,
                        player: Player)
    requires Undoable(t, m) && Equiv(t, t') && Undoable(t', m)
    requires UnmadeBy(t, m, u, unmade) && UnmadeBy(t', m, u', unmade')
    ensures multiset(u.pieces.Of(player)) == multiset(u'.pieces.Of(player))
  {
    UnmadeListShape(t, m, u, unmade, player);
    UnmadeListShape(t', m, u', unmade', player);
    assert multiset(t.pieces.Of(player)) == multiset(t'.pieces.Of(player)) by {
      assert player == White || player == Black;
    }
  }

  /** `unmake_move` appends the captured piece to its owner's list and changes no other list. */
  lemma UnmadeListShape(t: State, m: Move, u: State, unmade: Move, player: Player)
    requires Undoable(t, m) && UnmadeBy(t, m, u, unmade)
    ensures if Restores(t, m, player)
      then u.pieces.Of(player) == t.pieces.Of(player) + [m.destinationPiece.id]
      else u.pieces.Of(player) == t.pieces.Of(player)
  {
    if m.destinationPiece.Occupied? && !Restores(t, m, player) {
      assert player == Other(t.arena[m.destinationPiece.id].player);
    }
  }

  // The starting position.

  /** The kinds of a back rank, file by file. */
  function BackRank(): seq<Kind> { [Rook, Knight, Bishop, Queen, King, Bishop, Knight, Rook] }

  /** The piece `__init__` creates `id`-th: the white back rank, the white pawns, the black pawns,
      then the black back rank, each file by file. */
  function StartPiece(id: nat): Piece
    requires id < 32
  {
    if id < 8 then Piece((id, 0), White, BackRank()[id])
    else if id < 16 then Piece((id - 8, 1), White, Pawn)
    else if id < 24 then Piece((id - 16, 6), Black, Pawn)
    else Piece((id - 24, 7), Black, BackRank()[id - 24])
  }

  /** The handle of the piece that starts on `q`, or 32 for a square that starts empty. */
  function StartOccupant(q: Pos): int {
    if q.1 == 0 then q.0
    else if q.1 == 1 then 8 + q.0
    else if q.1 == 6 then 16 + q.0
    else if q.1 == 7 then 24 + q.0
    else 32
  }

  /** The content of square `q` once the first `n` pieces have been placed. */
  function Placement(q: Pos, n: nat): Cell {
    if 0 <= StartOccupant(q) < n then Occupied(StartOccupant(q)) else Empty
  }

  /** The grid once the first `n` pieces have been placed. */
  function Setup(n: nat): seq<seq<Cell>> {
    seq(8, y => seq(8, x => Placement((x, y), n)))
  }

  /** The board `__init__` builds. */
  function Initial(): State {
    State(Setup(32), seq(32, id requires 0 <= id < 32 => StartPiece(id)),
          Sides(seq(16, i => i), seq(16, i => 16 + i)), Sides([4], [28]), 0, 32)
  }

  /** A strictly increasing list has no repetitions. */
  lemma {:induction false} IncreasingDistinct(ids: seq<PieceId>)
    requires forall i, j | 0 <= i < j < |ids| :: ids[i] < ids[j]
    ensures Distinct(ids)
  {
    if ids != [] {
      var n := |ids| - 1;
      IncreasingDistinct(ids[..n]);
      assert ids == ids[..n] + [ids[n]];
      assert ids[n] !in ids[..n];
      assert multiset(ids) == multiset(ids[..n]) + multiset{ids[n]};
    }
  }

  /** Each starting piece stands on its square. */
  lemma StartSquares()
    ensures forall id | 0 <= id < 32 :: InBounds(StartPiece(id).position) && Placement(StartPiece(id).position, 32) == Occupied(id)
  {
  }

  /** Each square occupied at the start holds the piece that starts there. */
  lemma StartOccupants()
    ensures forall q | InBounds(q) && Placement(q, 32).Occupied? ::
      Placement(q, 32).id < 32 && StartPiece(Placement(q, 32).id).position == q
  {
  }

  lemma TotalStep(arena: seq<Piece>, ids: seq<PieceId>, n: nat)
    requires forall i | 0 <= i < |ids| :: ids[i] < |arena|
    requires n < |ids|
    ensures Total(arena, ids[..n + 1]) == Total(arena, ids[..n]) + Value(arena[ids[n]])
  {
    assert ids[..n + 1][..n] == ids[..n];
  }

  /** The sum over the starting white list, one entry at a time: 278. */
  lemma StartTotalWhite(arena: seq<Piece>, white: seq<PieceId>)
    requires |arena| == 32 && forall id | 0 <= id < 32 :: arena[id] == StartPiece(id)
    requires |white| == 16 && forall i | 0 <= i < 16 :: white[i] == i
    ensures Total(arena, white) == 278
  {
    assert white[..0] == [];
    TotalStep(arena, white, 0);
    assert arena[white[0]] == StartPiece(0);
    assert Total(arena, white[..1]) == 10;
    TotalStep(arena, white, 1);
    assert arena[white[1]] == StartPiece(1);
    assert Total(arena, white[..2]) == 16;
    TotalStep(arena, white, 2);
    assert arena[white[2]] == StartPiece(2);
    assert Total(arena, white[..3]) == 22;
    TotalStep(arena, white, 3);
    assert arena[white[3]] == StartPiece(3);
    assert Total(arena, white[..4]) == 40;
    TotalStep(arena, white, 4);
    assert arena[white[4]] == StartPiece(4);
    assert Total(arena, white[..5]) == 240;
    TotalStep(arena, white, 5);
    assert arena[white[5]] == StartPiece(5);
    assert Total(arena, white[..6]) == 246;
    TotalStep(arena, white, 6);
    assert arena[white[6]] == StartPiece(6);
    assert Total(arena, white[..7]) == 252;
    TotalStep(arena, white, 7);
    assert arena[white[7]] == StartPiece(7);
    assert Total(arena, white[..8]) == 262;
    TotalStep(arena, white, 8);
    assert arena[white[8]] == StartPiece(8);
    assert Total(arena, white[..9]) == 264;
    TotalStep(arena, white, 9);
    assert arena[white[9]] == StartPiece(9);
    assert Total(arena, white[..10]) == 266;
    TotalStep(arena, white, 10);
    assert arena[white[10]] == StartPiece(10);
    assert Total(arena, white[..11]) == 268;
    TotalStep(arena, white, 11);
    assert arena[white[11]] == StartPiece(11);
    assert Total(arena, white[..12]) == 270;
    TotalStep(arena, white, 12);
    assert arena[white[12]] == StartPiece(12);
    assert Total(arena, white[..13]) == 272;
    TotalStep(arena, white, 13);
    assert arena[white[13]] == StartPiece(13);
    assert Total(arena, white[..14]) == 274;
    TotalStep(arena, white, 14);
    assert arena[white[14]] == StartPiece(14);
    assert Total(arena, white[..15]) == 276;
    TotalStep(arena, white, 15);
    assert arena[white[15]] == StartPiece(15);
    assert Total(arena, white[..16]) == 278;
    assert white[..16] == white;
  }

  /** The sum over the starting black list: -16 for the pawns, -262 for the back rank. */
  lemma StartTotalBlack(arena: seq<Piece>, black: seq<PieceId>)
    requires |arena| == 32 && forall id | 0 <= id < 32 :: arena[id] == StartPiece(id)
    requires |black| == 16 && forall i | 0 <= i < 16 :: black[i] == 16 + i
    ensures Total(arena, black) == -278
  {
    assert black == black[..8] + black[8..];
    StartTotalBlackPawns(arena, black[..8]);
    StartTotalBlackRank(arena, black[8..]);
    TotalAppend(arena, black[..8], black[8..]);
  }

  lemma StartTotalBlackPawns(arena: seq<Piece>, pawns: seq<PieceId>)
    requires |arena| == 32 && forall id | 0 <= id < 32 :: arena[id] == StartPiece(id)
    requires |pawns| == 8 && forall i | 0 <= i < 8 :: pawns[i] == 16 + i
    ensures Total(arena, pawns) == -16
  {
    assert pawns[..0] == [];
    TotalStep(arena, pawns, 0);
    assert arena[pawns[0]] == StartPiece(16);
    assert Total(arena, pawns[..1]) == -2;
    TotalStep(arena, pawns, 1);
    assert arena[pawns[1]] == StartPiece(17);
    assert Total(arena, pawns[..2]) == -4;
    TotalStep(arena, pawns, 2);
    assert arena[pawns[2]] == StartPiece(18);
    assert Total(arena, pawns[..3]) == -6;
    TotalStep(arena, pawns, 3);
    assert arena[pawns[3]] == StartPiece(19);
    assert Total(arena, pawns[..4]) == -8;
    TotalStep(arena, pawns, 4);
    assert arena[pawns[4]] == StartPiece(20);
    assert Total(arena, pawns[..5]) == -10;
    TotalStep(arena, pawns, 5);
    assert arena[pawns[5]] == StartPiece(21);
    assert Total(arena, pawns[..6]) == -12;
    TotalStep(arena, pawns, 6);
    assert arena[pawns[6]] == StartPiece(22);
    assert Total(arena, pawns[..7]) == -14;
    TotalStep(arena, pawns, 7);
    assert arena[pawns[7]] == StartPiece(23);
    assert Total(arena, pawns[..8]) == -16;
    assert pawns[..8] == pawns;
  }

  lemma StartTotalBlackRank(arena: seq<Piece>, rank: seq<PieceId>)
    requires |arena| == 32 && forall id | 0 <= id < 32 :: arena[id] == StartPiece(id)
    requires |rank| == 8 && forall i | 0 <= i < 8 :: rank[i] == 24 + i
    ensures Total(arena, rank) == -262
  {
    assert rank[..0] == [];
    TotalStep(arena, rank, 0);
    assert arena[rank[0]] == StartPiece(24);
    assert Total(arena, rank[..1]) == -10;
    TotalStep(arena, rank, 1);
    assert arena[rank[1]] == StartPiece(25);
    assert Total(arena, rank[..2]) == -16;
    TotalStep(arena, rank, 2);
    assert arena[rank[2]] == StartPiece(26);
    assert Total(arena, rank[..3]) == -22;
    TotalStep(arena, rank, 3);
    assert arena[rank[3]] == StartPiece(27);
    assert Total(arena, rank[..4]) == -40;
    TotalStep(arena, rank, 4);
    assert arena[rank[4]] == StartPiece(28);
    assert Total(arena, rank[..5]) == -240;
    TotalStep(arena, rank, 5);
    assert arena[rank[5]] == StartPiece(29);
    assert Total(arena, rank[..6]) == -246;
    TotalStep(arena, rank, 6);
    assert arena[rank[6]] == StartPiece(30);
    assert Total(arena, rank[..7]) == -252;
    TotalStep(arena, rank, 7);
    assert arena[rank[7]] == StartPiece(31);
    assert Total(arena, rank[..8]) == -262;
    assert rank[..8] == rank;
  }

  /** The facts about the starting board the invariant rests on. */
  ghost predicate Starting(s: State) {
    && Shaped(s.grid) && (forall q | InBounds(q) :: At(s.grid, q) == Placement(q, 32))
    && |s.arena| == 32 && (forall id | 0 <= id < 32 :: s.arena[id] == StartPiece(id))
    && |s.pieces.white| == 16 && (forall i | 0 <= i < 16 :: s.pieces.white[i] == i)
    && |s.pieces.black| == 16 && (forall i | 0 <= i < 16 :: s.pieces.black[i] == 16 + i)
    && s.kings == Sides([4], [28]) && s.score == 0 && s.numPieces == 32
  }

  lemma InitialStarting()
    ensures Starting(Initial())
  {
    var grid := Setup(32);
    forall q | InBounds(q)
      ensures At(grid, q) == Placement(q, 32)
    {
    }
  }

  /** The starting lists: each piece stands on its square, belongs to its list's player, and
      only the fifth piece of each is a king, which is the one in the king list. */
  lemma StartListed(s: State, player: Player)
    requires Starting(s)
    ensures WellFormed(s.grid, s.arena) && Listed(s, player, s.pieces.Of(player))
    ensures Distinct(s.pieces.Of(player))
  {
    StartSquares();
    StartOccupants();
    var list := s.pieces.Of(player);
    forall y, x | 0 <= y < 8 && 0 <= x < 8 && s.grid[y][x].Occupied?
      ensures s.grid[y][x].id < |s.arena|
    {
      assert At(s.grid, (x, y)) == s.grid[y][x];
    }
    forall i | 0 <= i < |list|
      ensures Placed(s.grid, s.arena, list[i]) && s.arena[list[i]].player == player
      ensures s.arena[list[i]].kind == King ==> list[i] in s.kings.Of(player)
    {
      if player == White {
        assert list[i] == i;
      } else {
        assert list[i] == 16 + i;
      }
      if s.arena[list[i]].kind == King {
        assert list[i] == 4 || list[i] == 28;
      }
    }
    IncreasingDistinct(list);
  }

  /** Each occupied starting square holds a listed piece that records it. */
  lemma StartCells(s: State)
    requires Starting(s) && WellFormed(s.grid, s.arena)
    ensures forall q | InBounds(q) && At(s.grid, q).Occupied? ::
      && s.arena[At(s.grid, q).id].position == q
      && At(s.grid, q).id in s.pieces.Of(s.arena[At(s.grid, q).id].player)
  {
    StartOccupants();
    forall q | InBounds(q) && At(s.grid, q).Occupied?
      ensures s.arena[At(s.grid, q).id].position == q
      ensures At(s.grid, q).id in s.pieces.Of(s.arena[At(s.grid, q).id].player)
    {
      var id := At(s.grid, q).id;
      if id < 16 {
        assert s.pieces.white[id] == id;
      } else {
        assert s.pieces.black[id - 16] == id;
      }
    }
  }

  /** The board `__init__` builds satisfies the invariant, with score 0 and 32 pieces. */
  lemma InitialConsistent()
    ensures Consistent(Initial())
  {
    InitialStarting();
    StartingConsistent(Initial());
  }

  /** Any board laid out as the starting position is consistent. */
  lemma StartingConsistent(s: State)
    requires Starting(s)
    ensures Consistent(s)
  {
    StartListed(s, White);
    StartListed(s, Black);
    StartCells(s);
    StartTotalWhite(s.arena, s.pieces.white);
    StartTotalBlack(s.arena, s.pieces.black);
    assert s.arena[4] == StartPiece(4) && s.arena[28] == StartPiece(28);
  }

  // check_check and check_won.

  /** A Python value a move's `destination_piece` may be compared with: `None` (a `Move()`), the
      string "empty", a piece (compared by identity) or a list of pieces (compared element by
      element). Values of different types are never equal. */
  datatype Object = NoneObject | EmptyString | PieceObject(id: PieceId) | PieceList(ids: seq<PieceId>)

  /** `move.destination_piece` as a Python value. */
  function Target(m: Move): Object {
    if m.Dummy? then NoneObject
    else if m.destinationPiece.Empty? then EmptyString
    else PieceObject(m.destinationPiece.id)
  }

  /** What the loops of `check_check` rely on: each listed piece of the opponent of `player`
      stands where it records, so its moves can be generated. */
  ghost predicate Opponents(s: State, player: Player) {
    Listed(s, Other(player), s.pieces.Of(Other(player)))
  }

  lemma ConsistentOpponents(s: State, player: Player)
    requires Consistent(s)
    ensures Opponents(s, player)
  {
    ListFacts(s, Other(player));
  }

  /** Whether some move of some piece of the opponent of `player` has a destination occupant equal
      to `target`: what the loops of `check_check` search for. */
  ghost predicate Reaches(s: State, player: Player, target: Object)
    requires Opponents(s, player)
  {
    var list := s.pieces.Of(Other(player));
    exists i | 0 <= i < |list| :: Hits(PieceMoves(s.grid, s.arena, list[i]), target)
  }

  /** Some move of `moves` has a destination occupant equal to `target`. */
  predicate Hits(moves: seq<Move>, target: Object) {
    exists k | 0 <= k < |moves| :: Target(moves[k]) == target
  }

  /** The inner loop of `check_check` as written: scan `moves` for one whose destination occupant
      equals `target`, stopping at the first. */
  method FindTarget(moves: seq<Move>, target: Object) returns (found: bool)
    ensures found <==> Hits(moves, target)
  {
    found := false;
    var j := 0;
    while j < |moves| && !found
      invariant 0 <= j <= |moves|
      invariant found ==> Hits(moves, target)
      invariant !found ==> forall k | 0 <= k < j :: Target(moves[k]) != target
    {
      found := Target(moves[j]) == target;
      j := j + 1;
    }
  }

  /** The inner loop of `check_check` corrected: scan `moves` for a capture of a piece in
      `kings`, stopping at the first. */
  method FindThreat(moves: seq<Move>, kings: seq<PieceId>) returns (found: bool)
    ensures found <==> Threat(moves, kings)
  {
    found := false;
    var j := 0;
    while j < |moves| && !found
      invariant 0 <= j <= |moves|
      invariant found ==> Threat(moves, kings)
      invariant !found ==> forall k | 0 <= k < j :: !Threatens(moves[k], kings)
    {
      found := Threatens(moves[j], kings);
      j := j + 1;
    }
  }

  /** Whether `m` captures a piece in the king list `kings`. */
  predicate Threatens(m: Move, kings: seq<PieceId>) {
    m.Step? && m.destinationPiece.Occupied? && m.destinationPiece.id in kings
  }

  /** `player` is in check: some move of an opponent's piece would capture one of `player`'s
      kings. */
  ghost predicate InCheck(s: State, player: Player)
    requires Opponents(s, player)
  {
    var list := s.pieces.Of(Other(player));
    exists i | 0 <= i < |list| :: Threat(PieceMoves(s.grid, s.arena, list[i]), s.kings.Of(player))
  }

  /** Some move of `moves` captures a piece in `kings`. */
  predicate Threat(moves: seq<Move>, kings: seq<PieceId>) {
    exists k | 0 <= k < |moves| :: Threatens(moves[k], kings)
  }

  /** Some move of an opponent's piece lands on a king. */
  ghost predicate KingAttacked(s: State, player: Player)
    requires Opponents(s, player)
  {
    var list := s.pieces.Of(Other(player));
    exists i | 0 <= i < |list| :: KingHit(PieceMoves(s.grid, s.arena, list[i]), s.arena)
  }

  /** Some move of `moves` lands on a king of the arena. */
  predicate KingHit(moves: seq<Move>, arena: seq<Piece>) {
    exists k | 0 <= k < |moves| ::
      && moves[k].Step? && moves[k].destinationPiece.Occupied? && moves[k].destinationPiece.id < |arena|
      && arena[moves[k].destinationPiece.id].kind == King
  }

  /** A move of an opponent's piece threatens one of `player`'s listed kings iff it lands on a
      king: it only lands on `player`'s pieces, which are listed, and a listed king is in the
      king list, which holds only kings. */
  lemma ThreatIsKing(s: State, player: Player, i: nat, k: nat)
    requires Consistent(s)
    requires i < |s.pieces.Of(Other(player))|
    requires Placed(s.grid, s.arena, s.pieces.Of(Other(player))[i])
    requires k < |PieceMoves(s.grid, s.arena, s.pieces.Of(Other(player))[i])|
    ensures var m := PieceMoves(s.grid, s.arena, s.pieces.Of(Other(player))[i])[k];
      Threatens(m, s.kings.Of(player))
      <==> m.Step? && m.destinationPiece.Occupied? && m.destinationPiece.id < |s.arena|
           && s.arena[m.destinationPiece.id].kind == King
  {
    var id := s.pieces.Of(Other(player))[i];
    var piece := s.arena[id];
    var m := PieceMoves(s.grid, s.arena, id)[k];
    ListFacts(s, Other(player));
    assert piece.player == Other(player);
    MoveFacts(s.grid, s.arena, piece.kind, piece.player, piece.position, m);
    assert KingsOf(s, White) && KingsOf(s, Black);
    if m.destinationPiece.Occupied? {
      var victim := m.destinationPiece.id;
      assert At(s.grid, m.destination) == Occupied(victim);
      assert s.arena[victim].player == player by {
        assert player == White || player == Black;
      }
      assert victim in s.pieces.Of(player);
      ListFacts(s, player);
    }
  }

  /** The moves of one opponent's piece threaten a king of `player` iff they land on a king. */
  lemma PieceThreatIsKing(s: State, player: Player, i: nat)
    requires Consistent(s)
    requires i < |s.pieces.Of(Other(player))|
    requires Placed(s.grid, s.arena, s.pieces.Of(Other(player))[i])
    ensures var moves := PieceMoves(s.grid, s.arena, s.pieces.Of(Other(player))[i]);
      Threat(moves, s.kings.Of(player)) <==> KingHit(moves, s.arena)
  {
    var moves := PieceMoves(s.grid, s.arena, s.pieces.Of(Other(player))[i]);
    if Threat(moves, s.kings.Of(player)) {
      var k :| 0 <= k < |moves| && Threatens(moves[k], s.kings.Of(player));
      ThreatIsKing(s, player, i, k);
    }
    if KingHit(moves, s.arena) {
      var k :| 0 <= k < |moves| && moves[k].Step? && moves[k].destinationPiece.Occupied?
        && moves[k].destinationPiece.id < |s.arena| && s.arena[moves[k].destinationPiece.id].kind == King;
      ThreatIsKing(s, player, i, k);
    }
  }

  /** Being in check is having a king attacked. */
  lemma InCheckMeansKingAttacked(s: State, player: Player)
    requires Consistent(s) && Opponents(s, player)
    ensures InCheck(s, player) <==> KingAttacked(s, player)
  {
    var list := s.pieces.Of(Other(player));
    forall i | 0 <= i < |list|
      ensures Threat(PieceMoves(s.grid, s.arena, list[i]), s.kings.Of(player))
              <==> KingHit(PieceMoves(s.grid, s.arena, list[i]), s.arena)
    {
      PieceThreatIsKing(s, player, i);
    }
  }

  /** `check_check` compares each occupant with `kings[player]`, which is a list: an occupant is
      never equal to a list, so it never reports check. */
  lemma CheckCheckNeverFires(s: State, player: Player)
    requires Opponents(s, player)
    ensures !Reaches(s, player, PieceList(s.kings.Of(player)))
  {
  }

  /** A board on which white is in check: the white king on a1, the black king next to it on b2. */
  function Exposed(): State {
    var grid := seq(8, y => seq(8, x => if (x, y) == (0, 0) then Occupied(0) else if (x, y) == (1, 1) then Occupied(1) else Empty));
    State(grid, [Piece((0, 0), White, King), Piece((1, 1), Black, King)], Sides([0], [1]), Sides([0], [1]), 0, 2)
  }

  /** On the board `Exposed()` white is in check, and `check_check` as written does not see it. */
  lemma CheckCheckMissesCheck()
    ensures Consistent(Exposed()) && Opponents(Exposed(), White) && InCheck(Exposed(), White)
    ensures !Reaches(Exposed(), White, PieceList(Exposed().kings.Of(White)))
  {
    ExposedConsistent();
    ExposedInCheck();
    CheckCheckNeverFires(Exposed(), White);
  }

  /** The black king on b2 can capture the white king on a1. */
  lemma ExposedInCheck()
    ensures Opponents(Exposed(), White) && InCheck(Exposed(), White)
  {
    var s := Exposed();
    ExposedConsistent();
    ConsistentOpponents(s, White);
    var capture := Step((1, 1), 1, (0, 0), Occupied(0), 0.0, false);
    var directions := Directions(King, Black);
    assert At(s.grid, (1, 1)) == Occupied(1) && At(s.grid, (0, 0)) == Occupied(0);
    assert directions[4] == [(-1, -1)];
    assert WalkDirection(s.grid, s.arena, King, (1, 1), 1, directions[4]) == [capture];
    WalkAllKeeps(s.grid, s.arena, King, (1, 1), 1, directions, 4, capture);
    assert PieceMoves(s.grid, s.arena, s.pieces.Of(Black)[0]) == Moves(s.grid, s.arena, King, Black, (1, 1));
    assert Threatens(capture, s.kings.Of(White));
    assert Threat(PieceMoves(s.grid, s.arena, s.pieces.Of(Black)[0]), s.kings.Of(White));
  }

  lemma ExposedConsistent()
    ensures Consistent(Exposed())
  {
    var s := Exposed();
    assert At(s.grid, (1, 1)) == Occupied(1) && At(s.grid, (0, 0)) == Occupied(0);
    forall q | InBounds(q) && At(s.grid, q).Occupied?
      ensures q == (0, 0) || q == (1, 1)
    {
      assert At(s.grid, q) == s.grid[q.1][q.0];
    }
    forall y, x | 0 <= y < 8 && 0 <= x < 8 && s.grid[y][x].Occupied?
      ensures s.grid[y][x].id < |s.arena|
    {
    }
    assert Total(s.arena, [0]) == 200 && Total(s.arena, [1]) == -200;
  }

  /** Whether a king of `player` stands on the board. */
  ghost predicate KingOnBoard(s: State, player: Player)
    requires WellFormed(s.grid, s.arena)
  {
    exists q | InBounds(q) && At(s.grid, q).Occupied? ::
      s.arena[At(s.grid, q).id].player == player && s.arena[At(s.grid, q).id].kind == King
  }

  /** The board's lists are exactly the pieces on the grid. */
  lemma ListedOnBoard(s: State, player: Player)
    requires Consistent(s)
    ensures KingOnBoard(s, player)
        <==> exists i | 0 <= i < |s.pieces.Of(player)| :: s.arena[s.pieces.Of(player)[i]].kind == King
  {
    ListFacts(s, player);
    var list := s.pieces.Of(player);
    if KingOnBoard(s, player) {
      var q :| InBounds(q) && At(s.grid, q).Occupied?
        && s.arena[At(s.grid, q).id].player == player && s.arena[At(s.grid, q).id].kind == King;
      var id := At(s.grid, q).id;
      assert id in list;
      var i :| 0 <= i < |list| && list[i] == id;
    }
    if exists i | 0 <= i < |list| :: s.arena[list[i]].kind == King {
      var i :| 0 <= i < |list| && s.arena[list[i]].kind == King;
      assert Placed(s.grid, s.arena, list[i]);
      var q := s.arena[list[i]].position;
      assert At(s.grid, q) == Occupied(list[i]);
    }
  }

  // The Board object.

  /** A `Board` object: its fields are updated in place by `make_move` and `unmake_move`. The
      pieces the grid and lists point to live in `arena`, indexed by handle. */
  class Board {
    var grid: seq<seq<Cell>>
    var arena: seq<Piece>
    var pieces: Sides
    var kings: Sides
    var score: int
    var numPieces: int

    /** The object's fields as a state value. */
    function Snapshot(): State
      reads this
    {
      State(grid, arena, pieces, kings, score, numPieces)
    }

    ghost predicate Valid()
      reads this
    {
      Consistent(Snapshot())
    }

    /** `__init__`: create the 32 pieces in order, fill an 8x8 grid with "empty", place the
        pieces white list first, and collect the king lists. */
    constructor()
      ensures Snapshot() == Initial() && Valid()
    {
      var arena, white, black := CreatePieces();
      var grid := EmptyGrid();
      grid := PlacePieces(grid, arena, [white, black]);
      this.grid := grid;
      this.arena := arena;
      this.pieces := Sides(white, black);
      this.kings := Sides(KingsIn(arena, white), KingsIn(arena, black));
      this.score := 0;
      this.numPieces := 32;
      new;
      StartKings(arena, white, black);
      StartState(grid, arena, white, black);
      assert Snapshot() == Initial();
      InitialConsistent();
    }

    /** `make_move`: as `ApplyMove`, updating the fields in place and returning the move with its
        promotion mark. */
    method MakeMove(m: Move) returns (made: Move)
      requires Applicable(Snapshot(), m)
      modifies this
      ensures (Snapshot(), made) == ApplyMove(old(Snapshot()), m)
    {
      ghost var s := Snapshot();
      grid := SetCell(grid, m.origin, Empty);
      grid := SetCell(grid, m.destination, Occupied(m.originPiece));
      arena := arena[m.originPiece := arena[m.originPiece].(position := m.destination)];
      if m.destinationPiece.Occupied? {
        var captured := m.destinationPiece.id;
        var player := arena[captured].player;
        var index := IndexOf(pieces.Of(player), captured);
        pieces := pieces.With(player, pieces.Of(player)[..index] + pieces.Of(player)[index + 1..]);
        score := score - Value(arena[captured]);
        numPieces := numPieces - 1;
      }
      made := m;
      var piece := arena[m.originPiece];
      ghost var scoreBefore := score;
      ghost var arenaBefore := arena;
      ghost var promotes := piece.kind == Pawn && m.destination.1 == LastRow(piece.player);
      if piece.kind == Pawn {
        if piece.player == White && m.destination.1 == 7 {
          arena := arena[m.originPiece := piece.(kind := Queen)];
          score := score + 16;
          made := made.(pawnChange := true);
        }
        if piece.player == Black && m.destination.1 == 0 {
          arena := arena[m.originPiece := piece.(kind := Queen)];
          score := score - 16;
          made := made.(pawnChange := true);
        }
      }
      assert score == scoreBefore + (if promotes then PromotionBonus(piece.player) else 0);
      assert arena == if promotes then arenaBefore[m.originPiece := piece.(kind := Queen)] else arenaBefore;
      assert made == if promotes then m.(pawnChange := true) else m;
      ghost var expected := ApplyMove(s, m);
      assert grid == expected.0.grid && arena == expected.0.arena && pieces == expected.0.pieces;
      assert score == expected.0.score && numPieces == expected.0.numPieces && kings == expected.0.kings;
      assert Snapshot() == expected.0;
    }

    /** `unmake_move`: as `RevertMove`, updating the fields in place and returning the move with
        its promotion mark cleared. */
    method UnmakeMove(m: Move) returns (unmade: Move)
      requires Revertible(Snapshot(), m)
      modifies this
      ensures (Snapshot(), unmade) == RevertMove(old(Snapshot()), m)
    {
      grid := SetCell(grid, m.origin, Occupied(m.originPiece));
      grid := SetCell(grid, m.destination, m.destinationPiece);
      if m.destinationPiece.Occupied? {
        var restored := m.destinationPiece.id;
        var player := arena[restored].player;
        pieces := pieces.With(player, pieces.Of(player) + [restored]);
        score := score + Value(arena[restored]);
        numPieces := numPieces + 1;
      }
      arena := arena[m.originPiece := arena[m.originPiece].(position := m.origin)];
      unmade := m;
      if m.pawnChange {
        arena := arena[m.originPiece := arena[m.originPiece].(kind := Pawn)];
        if arena[m.originPiece].player == White {
          score := score - 16;
        } else {
          score := score + 16;
        }
        unmade := unmade.(pawnChange := false);
      }
    }

    /** `check_won`: `player` has won iff no king of the opponent is left on the board, which the
        method finds by scanning the opponent's list. */
    method CheckWon(player: Player) returns (won: bool)
      requires Valid()
      ensures won <==> !KingOnBoard(Snapshot(), Other(player))
    {
      ListedOnBoard(Snapshot(), Other(player));
      var list := pieces.Of(Other(player));
      ListFacts(Snapshot(), Other(player));
      for i := 0 to |list|
        invariant forall j | 0 <= j < i :: arena[list[j]].kind != King
      {
        if arena[list[i]].kind == King {
          return false;
        }
      }
      return true;
    }

    /** `check_check` as written: compares every destination occupant of every move of the
        opponent's pieces with `kings[player]`, a list, so it reports check exactly when an
        occupant equals that list, which never happens. */
    method CheckCheckAsWritten(player: Player) returns (check: bool)
      requires Opponents(Snapshot(), player)
      ensures check <==> Reaches(Snapshot(), player, PieceList(kings.Of(player)))
    {
      ghost var s := Snapshot();
      var king := PieceList(kings.Of(player));
      var list := pieces.Of(Other(player));
      check := false;
      var i := 0;
      while i < |list| && !check
        invariant 0 <= i <= |list|
        invariant check ==> Reaches(s, player, king)
        invariant !check ==> forall i' | 0 <= i' < i :: !Hits(PieceMoves(grid, arena, list[i']), king)
      {
        var piece := arena[list[i]];
        var moves := GetMoves(grid, arena, piece.kind, piece.player, piece.position);
        assert moves == PieceMoves(grid, arena, list[i]);
        check := FindTarget(moves, king);
        i := i + 1;
      }
    }

    /** `check_check` corrected: compares each destination occupant with the pieces of
        `kings[player]`, so it reports exactly whether `player` is in check. */
    method CheckCheck(player: Player) returns (check: bool)
      requires Opponents(Snapshot(), player)
      ensures check <==> InCheck(Snapshot(), player)
    {
      ghost var s := Snapshot();
      var king := kings.Of(player);
      var list := pieces.Of(Other(player));
      check := false;
      var i := 0;
      while i < |list| && !check
        invariant 0 <= i <= |list|
        invariant check ==> InCheck(s, player)
        invariant !check ==> forall i' | 0 <= i' < i :: !Threat(PieceMoves(grid, arena, list[i']), king)
      {
        var piece := arena[list[i]];
        var moves := GetMoves(grid, arena, piece.kind, piece.player, piece.position);
        assert moves == PieceMoves(grid, arena, list[i]);
        check := FindThreat(moves, king);
        i := i + 1;
      }
    }
  }

  /** The piece creations of `__init__`: the white back rank and pawns into the white list,
      the black pawns and back rank into the black list, each piece getting the next handle. */
  method CreatePieces() returns (arena: seq<Piece>, white: seq<PieceId>, black: seq<PieceId>)
    ensures |arena| == 32 && forall id | 0 <= id < 32 :: arena[id] == StartPiece(id)
    ensures |white| == 16 && (forall i | 0 <= i < 16 :: white[i] == i)
    ensures |black| == 16 && (forall i | 0 <= i < 16 :: black[i] == 16 + i)
  {
    arena := [Piece((0, 0), White, Rook), Piece((1, 0), White, Knight),
              Piece((2, 0), White, Bishop), Piece((3, 0), White, Queen),
              Piece((4, 0), White, King), Piece((5, 0), White, Bishop),
              Piece((6, 0), White, Knight), Piece((7, 0), White, Rook)];
    white := [0, 1, 2, 3, 4, 5, 6, 7];
    for col := 0 to 8
      invariant |arena| == 8 + col && |white| == 8 + col
      invariant forall id | 0 <= id < |arena| :: arena[id] == StartPiece(id)
      invariant forall i | 0 <= i < |white| :: white[i] == i
    {
      white := white + [|arena|];
      arena := arena + [Piece((col, 1), White, Pawn)];
    }
    black := [];
    for col := 0 to 8
      invariant |arena| == 16 + col && |black| == col
      invariant forall id | 0 <= id < |arena| :: arena[id] == StartPiece(id)
      invariant forall i | 0 <= i < |black| :: black[i] == 16 + i
    {
      black := black + [|arena|];
      arena := arena + [Piece((col, 6), Black, Pawn)];
    }
    black := black + [24, 25, 26, 27, 28, 29, 30, 31];
    arena := arena + [Piece((0, 7), Black, Rook), Piece((1, 7), Black, Knight),
                      Piece((2, 7), Black, Bishop), Piece((3, 7), Black, Queen),
                      Piece((4, 7), Black, King), Piece((5, 7), Black, Bishop),
                      Piece((6, 7), Black, Knight), Piece((7, 7), Black, Rook)];
  }

  /** The grid loops of `__init__`: eight rows, each of eight "empty" cells. */
  method EmptyGrid() returns (grid: seq<seq<Cell>>)
    ensures grid == Setup(0)
  {
    grid := [];
    for row := 0 to 8
      invariant |grid| == row && forall y | 0 <= y < row :: grid[y] == seq(8, _ => Empty)
    {
      grid := grid + [[]];
      for col := 0 to 8
        invariant |grid| == row + 1 && grid[row] == seq(col, _ => Empty)
        invariant forall y | 0 <= y < row :: grid[y] == seq(8, _ => Empty)
      {
        grid := grid[row := grid[row] + [Empty]];
      }
    }
    forall q | InBounds(q)
      ensures At(grid, q) == At(Setup(0), q)
    {
    }
    GridEquality(grid, Setup(0));
  }

  /** The placement loops of `__init__`: every piece of every list is put on the cell of its
      position, giving the starting grid. */
  method PlacePieces(grid: seq<seq<Cell>>, arena: seq<Piece>, lists: seq<seq<PieceId>>)
      returns (placed: seq<seq<Cell>>)
    requires grid == Setup(0)
    requires |arena| == 32 && forall id | 0 <= id < 32 :: arena[id] == StartPiece(id)
    requires |lists| == 2 && |lists[0]| == 16 && |lists[1]| == 16
    requires forall l, j | 0 <= l < 2 && 0 <= j < 16 :: lists[l][j] == 16 * l + j
    ensures placed == Setup(32)
  {
    placed := grid;
    for l := 0 to 2
      invariant placed == Setup(16 * l)
    {
      var list := lists[l];
      for j := 0 to |list|
        invariant placed == Setup(16 * l + j)
      {
        PlaceNext(placed, 16 * l + j);
        placed := SetCell(placed, arena[list[j]].position, Occupied(list[j]));
      }
    }
  }

  /** The fields `__init__` computes make up the starting board. */
  lemma StartState(grid: seq<seq<Cell>>, arena: seq<Piece>, white: seq<PieceId>, black: seq<PieceId>)
    requires grid == Setup(32)
    requires |arena| == 32 && forall id | 0 <= id < 32 :: arena[id] == StartPiece(id)
    requires |white| == 16 && (forall i | 0 <= i < 16 :: white[i] == i)
    requires |black| == 16 && (forall i | 0 <= i < 16 :: black[i] == 16 + i)
    ensures State(grid, arena, Sides(white, black), Sides([4], [28]), 0, 32) == Initial()
  {
    assert arena == Initial().arena;
    assert white == Initial().pieces.white && black == Initial().pieces.black;
  }

  /** The pieces `__init__` places next: putting piece `n` on its starting square extends the
      grid of the first `n` pieces to the grid of the first `n + 1`. */
  lemma PlaceNext(grid: seq<seq<Cell>>, n: nat)
    requires n < 32 && grid == Setup(n)
    ensures Shaped(grid) && InBounds(StartPiece(n).position)
    ensures SetCell(grid, StartPiece(n).position, Occupied(n)) == Setup(n + 1)
  {
    var q := StartPiece(n).position;
    assert StartOccupant(q) == n;
    var updated := SetCell(grid, q, Occupied(n));
    forall p | InBounds(p)
      ensures At(updated, p) == At(Setup(n + 1), p)
    {
      if p != q {
        assert StartOccupant(p) != n;
      }
    }
    GridEquality(updated, Setup(n + 1));
  }

  /** `[piece for piece in list if piece.piece_type == "king"]`. */
  function KingsIn(arena: seq<Piece>, list: seq<PieceId>): (kings: seq<PieceId>)
    requires forall i | 0 <= i < |list| :: list[i] < |arena|
    ensures forall id :: (id in kings <==> id in list && arena[id].kind == King)
  {
    if list == [] then []
    else
      var rest := KingsIn(arena, list[..|list| - 1]);
      var last := list[|list| - 1];
      assert list == list[..|list| - 1] + [last];
      if arena[last].kind == King then rest + [last] else rest
  }

  /** The starting king lists hold the fifth piece of each side. */
  lemma StartKings(arena: seq<Piece>, white: seq<PieceId>, black: seq<PieceId>)
    requires |arena| == 32 && forall id | 0 <= id < 32 :: arena[id] == StartPiece(id)
    requires |white| == 16 && (forall i | 0 <= i < 16 :: white[i] == i)
    requires |black| == 16 && (forall i | 0 <= i < 16 :: black[i] == 16 + i)
    ensures KingsIn(arena, white) == [4] && KingsIn(arena, black) == [28]
  {
    assert forall id | 0 <= id < 8 :: (BackRank()[id] == King <==> id == 4);
    KingsInOne(arena, white, 4);
    KingsInOne(arena, black, 12);
  }

  /** Filtering a list without kings gives the empty list. */
  lemma {:induction false} KingsInNone(arena: seq<Piece>, list: seq<PieceId>)
    requires forall i | 0 <= i < |list| :: list[i] < |arena| && arena[list[i]].kind != King
    ensures KingsIn(arena, list) == []
  {
    if list != [] {
      KingsInNone(arena, list[..|list| - 1]);
    }
  }

  /** Filtering a list with a single king, the `j`-th entry, gives that king. */
  lemma {:induction false} KingsInOne(arena: seq<Piece>, list: seq<PieceId>, j: nat)
    requires forall i | 0 <= i < |list| :: list[i] < |arena|
    requires j < |list| && arena[list[j]].kind == King
    requires forall i | 0 <= i < |list| && i != j :: arena[list[i]].kind != King
    ensures KingsIn(arena, list) == [list[j]]
  {
    var n := |list| - 1;
    if j == n {
      KingsInNone(arena, list[..n]);
    } else {
      KingsInOne(arena, list[..n], j);
    }
  }
}
