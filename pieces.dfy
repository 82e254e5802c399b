/** Pieces.py: piece kinds with their direction and value tables, the `Move` record, the pawn's
    validity hook and the generic ray walker `Piece_Behavior.get_moves`. */
module Pieces {
  import opened Grid

  datatype Player = White | Black

  /** `"black" if player == "white" else "white"`. */
  function Other(player: Player): (other: Player)
    ensures other != player
  {
    if player == White then Black else White
  }

  /** The behaviour classes Rook_Behavior ... Pawn_Behavior, as a closed set of kinds. */
  datatype Kind = Rook | Knight | Bishop | Queen | King | Pawn

  /** A `Piece` object: its position, its owner and its (replaceable) behaviour. The board keeps
      every piece in an arena and refers to it by handle, so a piece keeps its identity when its
      position or its kind is rewritten. */
  datatype Piece = Piece(position: Pos, player: Player, kind: Kind)

  /** A `Move` record. `Dummy` is `Move()` with `origin` None; `Step` is a generated move, holding
      handles of the moving piece and of the destination occupant ("empty" or a piece). */
  datatype Move =
    | Dummy(scoreChange: real)
    | Step(origin: Pos, originPiece: PieceId, destination: Pos, destinationPiece: Cell,
           scoreChange: real, pawnChange: bool)

  /** The `value` property of each behaviour: positive for white, negated for black. */
  function KindValue(kind: Kind, player: Player): int {
    var magnitude := match kind
      case Rook => 10
      case Knight => 6
      case Bishop => 6
      case Queen => 18
      case King => 200
      case Pawn => 2;
    if player == White then magnitude else -magnitude
  }

  /** `Piece.value`, delegated to the behaviour. */
  function Value(piece: Piece): int {
    KindValue(piece.kind, piece.player)
  }

  lemma ValueTable()
    ensures KindValue(Rook, White) == 10 && KindValue(Knight, White) == 6
    ensures KindValue(Bishop, White) == 6 && KindValue(Queen, White) == 18
    ensures KindValue(King, White) == 200 && KindValue(Pawn, White) == 2
    ensures forall kind: Kind :: KindValue(kind, Black) == -KindValue(kind, White)
    ensures KindValue(Queen, White) - KindValue(Pawn, White) == 16
  {
  }

  /** A sliding ray: `unit * i` for i in 1..7, near to far. */
  function Ray(unit: Pos): seq<Pos> {
    seq(7, i => ((i + 1) * unit.0, (i + 1) * unit.1))
  }

  /** One ray per unit vector, in the order of the units. */
  function Rays(units: seq<Pos>): seq<seq<Pos>> {
    seq(|units|, j requires 0 <= j < |units| => Ray(units[j]))
  }

  const RookUnits: seq<Pos> := [(1, 0), (-1, 0), (0, 1), (0, -1)]
  const BishopUnits: seq<Pos> := [(1, 1), (1, -1), (-1, 1), (-1, -1)]
  const QueenUnits: seq<Pos> := RookUnits + BishopUnits

  /** The `directions` table of each behaviour: a list of directions, each a list of vectors
      ordered near to far. */
  function Directions(kind: Kind, player: Player): seq<seq<Pos>> {
    match kind
    case Rook => Rays(RookUnits)
    case Knight => [[(-2, -1)], [(-2, 1)], [(2, -1)], [(2, 1)], [(-1, -2)], [(-1, 2)], [(1, -2)], [(1, 2)]]
    case Bishop => Rays(BishopUnits)
    case Queen => Rays(QueenUnits)
    case King => [[(1, 1)], [(1, 0)], [(1, -1)], [(0, -1)], [(-1, -1)], [(-1, 0)], [(-1, 1)], [(0, 1)]]
    case Pawn =>
      if player == White then [[(-1, 1)], [(0, 1), (0, 2)], [(1, 1)]]
      else [[(-1, -1)], [(0, -1), (0, -2)], [(1, -1)]]
  }

  /** The loops of the sliding behaviours' constructors: start with one empty list per unit,
      then for i in 1..7 append `unit * i` to each. */
  method BuildRays(units: seq<Pos>) returns (directions: seq<seq<Pos>>)
    ensures directions == Rays(units)
  {
    directions := [];
    for j := 0 to |units|
      invariant directions == seq(j, _ => [])
    {
      directions := directions + [[]];
    }
    for i := 1 to 8
      invariant |directions| == |units|
      invariant forall j | 0 <= j < |units| :: directions[j] == Ray(units[j])[..i - 1]
    {
      for j := 0 to |units|
        invariant |directions| == |units|
        invariant forall k | 0 <= k < j :: directions[k] == Ray(units[k])[..i]
        invariant forall k | j <= k < |units| :: directions[k] == Ray(units[k])[..i - 1]
      {
        assert Ray(units[j])[..i] == Ray(units[j])[..i - 1] + [(i * units[j].0, i * units[j].1)];
        directions := directions[j := directions[j] + [(i * units[j].0, i * units[j].1)]];
      }
    }
    assert forall j | 0 <= j < |units| :: Ray(units[j])[..7] == Ray(units[j]);
  }

  /** The behaviour constructors: the directions a piece of `kind` owned by `player` gets. */
  method BehaviorDirections(kind: Kind, player: Player) returns (directions: seq<seq<Pos>>)
    ensures directions == Directions(kind, player)
  {
    match kind
    case Rook => directions := BuildRays(RookUnits);
    case Bishop => directions := BuildRays(BishopUnits);
    case Queen => directions := BuildRays(QueenUnits);
    case Knight =>
      directions := [[(-2, -1)], [(-2, 1)], [(2, -1)], [(2, 1)], [(-1, -2)], [(-1, 2)], [(1, -2)], [(1, 2)]];
    case King =>
      directions := [[(1, 1)], [(1, 0)], [(1, -1)], [(0, -1)], [(-1, -1)], [(-1, 0)], [(-1, 1)], [(0, 1)]];
    case Pawn =>
      if player == White {
        directions := [[(-1, 1)], [(0, 1), (0, 2)], [(1, 1)]];
      } else {
        directions := [[(-1, -1)], [(0, -1), (0, -2)], [(1, -1)]];
      }
  }

  /** The shape of the tables: sliding kinds have 7-vector rays (rook and bishop 4, queen 8),
      knight and king 8 one-vector directions, the pawn a capture, an advance of one then two
      squares, and a capture; no vector is zero. */
  lemma DirectionShapes(kind: Kind, player: Player)
    ensures var directions := Directions(kind, player);
      && (kind == Rook || kind == Bishop ==> |directions| == 4 && forall d | 0 <= d < 4 :: |directions[d]| == 7)
      && (kind == Queen ==> |directions| == 8 && forall d | 0 <= d < 8 :: |directions[d]| == 7)
      && (kind == Knight || kind == King ==> |directions| == 8 && forall d | 0 <= d < 8 :: |directions[d]| == 1)
      && (kind == Pawn ==> |directions| == 3 && |directions[0]| == 1 && |directions[1]| == 2 && |directions[2]| == 1)
      && forall d, k | 0 <= d < |directions| && 0 <= k < |directions[d]| :: directions[d][k] != (0, 0)
  {
  }

  /** No vector of any table is zero, so no move stays on its square. */
  lemma NonZeroVector(kind: Kind, player: Player, d: nat, k: nat)
    requires d < |Directions(kind, player)| && k < |Directions(kind, player)[d]|
    ensures Directions(kind, player)[d][k] != (0, 0)
  {
    DirectionShapes(kind, player);
  }

  /** The forward row step of a pawn of `player`, and the row its two-square advance starts from. */
  function Forward(player: Player): int { if player == White then 1 else -1 }
  function StartRow(player: Player): int { if player == White then 1 else 6 }

  /** `_is_valid_move`: always true except for the pawn, which advances straight only onto an
      empty square, moves diagonally only onto an occupied one, and advances two squares only
      from its starting row (judged by the moving piece's stored position). */
  function IsValidMove(kind: Kind, vector: Pos, current: Piece, other: Cell): (valid: bool)
    ensures kind != Pawn ==> valid
    ensures kind == Pawn ==>
      (valid <==> && (vector.0 == 0 <==> other == Empty)
                  && (vector.1 == 2 ==> current.position.1 == 1)
                  && (vector.1 == -2 ==> current.position.1 == 6))
  {
    if kind != Pawn then true
    else if vector.0 == 0 && other != Empty then false
    else if vector.0 != 0 && other == Empty then false
    else if vector.1 == 2 && current.position.1 != 1 then false
    else if vector.1 == -2 && current.position.1 != 6 then false
    else true
  }

  /** Every occupied cell refers to a piece of the arena. */
  ghost predicate WellFormed(grid: seq<seq<Cell>>, arena: seq<Piece>) {
    && Shaped(grid)
    && forall y, x | 0 <= y < 8 && 0 <= x < 8 && grid[y][x].Occupied? :: grid[y][x].id < |arena|
  }

  /** The inner loop of `get_moves` for one direction: walk the vectors near to far; stop at the
      edge of the board, at a friendly piece or when the validity hook fails; otherwise emit a
      move, and stop right after emitting a capture. */
  function WalkDirection(grid: seq<seq<Cell>>, arena: seq<Piece>, kind: Kind, position: Pos,
                         current: PieceId, direction: seq<Pos>): seq<Move>
    requires WellFormed(grid, arena) && current < |arena|
    decreases |direction|
  {
    if direction == [] then []
    else
      var vector := direction[0];
      var newPosition := Add(position, vector);
      if !InBounds(newPosition) then []
      else
        var other := At(grid, newPosition);
        if other.Occupied? && arena[other.id].player == arena[current].player then []
        else if !IsValidMove(kind, vector, arena[current], other) then []
        else
          [Step(position, current, newPosition, other, 0.0, false)]
          + if other.Occupied? then [] else WalkDirection(grid, arena, kind, position, current, direction[1..])
  }

  /** The outer loop: the walks of the directions, one after another. */
  function WalkAll(grid: seq<seq<Cell>>, arena: seq<Piece>, kind: Kind, position: Pos,
                   current: PieceId, directions: seq<seq<Pos>>): seq<Move>
    requires WellFormed(grid, arena) && current < |arena|
    decreases |directions|
  {
    if directions == [] then []
    else
      WalkAll(grid, arena, kind, position, current, directions[..|directions| - 1])
      + WalkDirection(grid, arena, kind, position, current, directions[|directions| - 1])
  }

  /** `Piece_Behavior.get_moves(board, position)` for the behaviour `(kind, player)`: the moving
      piece is the grid occupant at `position`. */
  function Moves(grid: seq<seq<Cell>>, arena: seq<Piece>, kind: Kind, player: Player, position: Pos): seq<Move>
    requires WellFormed(grid, arena) && InBounds(position) && At(grid, position).Occupied?
  {
    WalkAll(grid, arena, kind, position, At(grid, position).id, Directions(kind, player))
  }

  /** The piece `id` stands where the grid says it does. */
  ghost predicate Placed(grid: seq<seq<Cell>>, arena: seq<Piece>, id: PieceId) {
    && WellFormed(grid, arena)
    && id < |arena|
    && InBounds(arena[id].position)
    && At(grid, arena[id].position) == Occupied(id)
  }

  /** `Piece.get_moves()`: the piece's behaviour walks from the piece's position. */
  function PieceMoves(grid: seq<seq<Cell>>, arena: seq<Piece>, id: PieceId): seq<Move>
    requires Placed(grid, arena, id)
  {
    Moves(grid, arena, arena[id].kind, arena[id].player, arena[id].position)
  }

  /** The walk of a direction from its k-th vector is empty when that vector fails a test. */
  lemma WalkStops(grid: seq<seq<Cell>>, arena: seq<Piece>, kind: Kind, position: Pos,
                  current: PieceId, direction: seq<Pos>, k: nat)
    requires WellFormed(grid, arena) && current < |arena| && k < |direction|
    requires !Admits(grid, arena, kind, position, current, direction[k])
    ensures WalkDirection(grid, arena, kind, position, current, direction[k..]) == []
  {
    assert direction[k..][0] == direction[k];
  }

  /** The walk of a direction from an admitted k-th vector emits the move to it, then goes on
      with the next vector unless that move captures. */
  lemma WalkEmits(grid: seq<seq<Cell>>, arena: seq<Piece>, kind: Kind, position: Pos,
                  current: PieceId, direction: seq<Pos>, k: nat)
    requires WellFormed(grid, arena) && current < |arena| && k < |direction|
    requires Admits(grid, arena, kind, position, current, direction[k])
    ensures WalkDirection(grid, arena, kind, position, current, direction[k..])
            == [StepBy(grid, position, current, direction[k])]
               + if At(grid, Add(position, direction[k])).Occupied? then []
                 else WalkDirection(grid, arena, kind, position, current, direction[k + 1..])
  {
    assert direction[k..][0] == direction[k];
    assert direction[k..][1..] == direction[k + 1..];
  }

  /** `Piece_Behavior.get_moves`: the loops over the behaviour's directions from the square of
      the moving piece. */
  method GetMoves(grid: seq<seq<Cell>>, arena: seq<Piece>, kind: Kind, player: Player, position: Pos)
    returns (moves: seq<Move>)
    requires WellFormed(grid, arena) && InBounds(position) && At(grid, position).Occupied?
    ensures moves == Moves(grid, arena, kind, player, position)
  {
    moves := WalkRays(grid, arena, kind, position, At(grid, position).id, Directions(kind, player));
  }

  /** The outer loop of `get_moves`: the moves of each direction appended in turn. */
  method WalkRays(grid: seq<seq<Cell>>, arena: seq<Piece>, kind: Kind, position: Pos,
                  current: PieceId, directions: seq<seq<Pos>>) returns (moves: seq<Move>)
    requires WellFormed(grid, arena) && current < |arena|
    ensures moves == WalkAll(grid, arena, kind, position, current, directions)
  {
    moves := [];
    for d := 0 to |directions|
      invariant moves == WalkAll(grid, arena, kind, position, current, directions[..d])
    {
      moves := WalkRay(grid, arena, kind, position, current, directions[d], moves);
      assert directions[..d + 1][..d] == directions[..d];
    }
    assert directions[..|directions|] == directions;
  }

  /** The inner loop of `get_moves`: append a move per vector of one direction, breaking out at
      the first obstacle. */
  method WalkRay(grid: seq<seq<Cell>>, arena: seq<Piece>, kind: Kind, position: Pos,
                 current: PieceId, direction: seq<Pos>, before: seq<Move>) returns (moves: seq<Move>)
    requires WellFormed(grid, arena) && current < |arena|
    ensures moves == before + WalkDirection(grid, arena, kind, position, current, direction)
  {
    ghost var walk := WalkDirection(grid, arena, kind, position, current, direction);
    moves := before;
    assert direction[0..] == direction;
    for k := 0 to |direction|
      invariant before + walk == moves + WalkDirection(grid, arena, kind, position, current, direction[k..])
    {
      if !Admits(grid, arena, kind, position, current, direction[k]) {
        StopKeeps(grid, arena, kind, position, current, direction, k, before + walk, moves);
        break;
      }
      EmitKeeps(grid, arena, kind, position, current, direction, k, before + walk, moves);
      var step := StepBy(grid, position, current, direction[k]);
      moves := moves + [step];
      if step.destinationPiece.Occupied? {
        break;
      }
    }
  }

  /** A turn of `WalkRay`'s loop that breaks leaves the moves emitted so far as they are. */
  lemma StopKeeps(grid: seq<seq<Cell>>, arena: seq<Piece>, kind: Kind, position: Pos, current: PieceId,
                  direction: seq<Pos>, k: nat, whole: seq<Move>, done: seq<Move>)
    requires WellFormed(grid, arena) && current < |arena| && k < |direction|
    requires !Admits(grid, arena, kind, position, current, direction[k])
    requires whole == done + WalkDirection(grid, arena, kind, position, current, direction[k..])
    ensures whole == done
  {
    WalkStops(grid, arena, kind, position, current, direction, k);
    assert done + [] == done;
  }

  /** A turn of `WalkRay`'s loop that emits a move keeps the loop's invariant. */
  lemma EmitKeeps(grid: seq<seq<Cell>>, arena: seq<Piece>, kind: Kind, position: Pos, current: PieceId,
                  direction: seq<Pos>, k: nat, whole: seq<Move>, done: seq<Move>)
    requires WellFormed(grid, arena) && current < |arena| && k < |direction|
    requires Admits(grid, arena, kind, position, current, direction[k])
    requires whole == done + WalkDirection(grid, arena, kind, position, current, direction[k..])
    ensures var step := StepBy(grid, position, current, direction[k]);
      && (step.destinationPiece.Occupied? ==> whole == done + [step])
      && (!step.destinationPiece.Occupied? ==> whole == done + [step] + WalkDirection(grid, arena, kind, position, current, direction[k + 1..]))
  {
    WalkEmits(grid, arena, kind, position, current, direction, k);
    var step := StepBy(grid, position, current, direction[k]);
    var later := if step.destinationPiece.Occupied? then []
                 else WalkDirection(grid, arena, kind, position, current, direction[k + 1..]);
    assert done + ([step] + later) == (done + [step]) + later;
    assert done + [step] + [] == done + [step];
  }

  /** The three tests a vector passes before a move to it is emitted: in bounds, not onto a
      friendly piece, and accepted by the behaviour's validity hook. */
  predicate Admits(grid: seq<seq<Cell>>, arena: seq<Piece>, kind: Kind, position: Pos,
                         current: PieceId, vector: Pos)
    requires WellFormed(grid, arena) && current < |arena|
  {
    var target := Add(position, vector);
    && InBounds(target)
    && !(At(grid, target).Occupied? && arena[At(grid, target).id].player == arena[current].player)
    && IsValidMove(kind, vector, arena[current], At(grid, target))
  }

  /** The move `get_moves` emits for `vector`: from `position` to the target square, recording the
      target's occupant. */
  function StepBy(grid: seq<seq<Cell>>, position: Pos, current: PieceId, vector: Pos): Move
    requires Shaped(grid) && InBounds(Add(position, vector))
  {
    Step(position, current, Add(position, vector), At(grid, Add(position, vector)), 0.0, false)
  }

  /** Within one direction the walk emits exactly the longest admissible prefix of the vectors
      that does not pass an occupied square: move k goes to `position + direction[k]`, all but
      possibly the last land on empty squares, and the walk stops only at a vector that fails a
      test or right after a capture. */
  lemma {:induction false} WalkPrefix(grid: seq<seq<Cell>>, arena: seq<Piece>, kind: Kind, position: Pos,
                                      current: PieceId, direction: seq<Pos>)
    requires WellFormed(grid, arena) && current < |arena|
    ensures var walk := WalkDirection(grid, arena, kind, position, current, direction);
      && |walk| <= |direction|
      && (forall k | 0 <= k < |walk| ::
            Admits(grid, arena, kind, position, current, direction[k])
            && walk[k] == StepBy(grid, position, current, direction[k]))
      && (forall k | 0 <= k < |walk| - 1 :: walk[k].destinationPiece == Empty)
      && (|walk| < |direction| ==>
            || !Admits(grid, arena, kind, position, current, direction[|walk|])
            || (|walk| > 0 && walk[|walk| - 1].destinationPiece.Occupied?))
  {
    if direction != [] {
      var walk := WalkDirection(grid, arena, kind, position, current, direction);
      var target := Add(position, direction[0]);
      if Admits(grid, arena, kind, position, current, direction[0]) && At(grid, target) == Empty {
        var rest := WalkDirection(grid, arena, kind, position, current, direction[1..]);
        WalkPrefix(grid, arena, kind, position, current, direction[1..]);
        assert walk == [StepBy(grid, position, current, direction[0])] + rest;
        forall k | 1 <= k < |walk|
          ensures Admits(grid, arena, kind, position, current, direction[k])
          ensures walk[k] == StepBy(grid, position, current, direction[k])
        {
          assert walk[k] == rest[k - 1] && direction[1..][k - 1] == direction[k];
        }
        forall k | 1 <= k < |walk| - 1
          ensures walk[k].destinationPiece == Empty
        {
          assert walk[k] == rest[k - 1];
        }
        if |walk| < |direction| && |rest| == 0 {
          assert direction[1..][0] == direction[1];
        }
      }
    }
  }

  /** The outer loop keeps every move some direction's walk emits ... */
  lemma {:induction false} WalkAllKeeps(grid: seq<seq<Cell>>, arena: seq<Piece>, kind: Kind, position: Pos,
                                        current: PieceId, directions: seq<seq<Pos>>, d: nat, m: Move)
    requires WellFormed(grid, arena) && current < |arena|
    requires d < |directions| && m in WalkDirection(grid, arena, kind, position, current, directions[d])
    ensures m in WalkAll(grid, arena, kind, position, current, directions)
  {
    var n := |directions| - 1;
    var prefix := directions[..n];
    assert WalkAll(grid, arena, kind, position, current, directions)
        == WalkAll(grid, arena, kind, position, current, prefix)
           + WalkDirection(grid, arena, kind, position, current, directions[n]);
    if d < n {
      assert prefix[d] == directions[d];
      WalkAllKeeps(grid, arena, kind, position, current, prefix, d, m);
    }
  }

  /** ... and emits nothing else: each of its moves comes from some direction's walk. */
  lemma {:induction false} WalkAllSource(grid: seq<seq<Cell>>, arena: seq<Piece>, kind: Kind, position: Pos,
                                         current: PieceId, directions: seq<seq<Pos>>, m: Move)
    requires WellFormed(grid, arena) && current < |arena|
    requires m in WalkAll(grid, arena, kind, position, current, directions)
    ensures exists d | 0 <= d < |directions| :: m in WalkDirection(grid, arena, kind, position, current, directions[d])
  {
    var n := |directions| - 1;
    var prefix := directions[..n];
    var last := WalkDirection(grid, arena, kind, position, current, directions[n]);
    assert WalkAll(grid, arena, kind, position, current, directions)
        == WalkAll(grid, arena, kind, position, current, prefix) + last;
    if m !in last {
      WalkAllSource(grid, arena, kind, position, current, prefix, m);
      var d :| 0 <= d < n && m in WalkDirection(grid, arena, kind, position, current, prefix[d]);
      assert prefix[d] == directions[d];
    }
  }

  /** A cell the grid refers to is a piece of the arena. */
  lemma OccupantInArena(grid: seq<seq<Cell>>, arena: seq<Piece>, q: Pos)
    requires WellFormed(grid, arena) && InBounds(q) && At(grid, q).Occupied?
    ensures At(grid, q).id < |arena|
  {
  }

  /** The vector a move emitted by `get_moves` was made from. */
  lemma EmittedVector(grid: seq<seq<Cell>>, arena: seq<Piece>, kind: Kind, player: Player, position: Pos, m: Move)
      returns (d: nat, k: nat)
    requires WellFormed(grid, arena) && InBounds(position) && At(grid, position).Occupied?
    requires m in Moves(grid, arena, kind, player, position)
    ensures d < |Directions(kind, player)| && k < |Directions(kind, player)[d]|
    ensures Admits(grid, arena, kind, position, At(grid, position).id, Directions(kind, player)[d][k])
    ensures m == StepBy(grid, position, At(grid, position).id, Directions(kind, player)[d][k])
  {
    var current := At(grid, position).id;
    var directions := Directions(kind, player);
    WalkAllSource(grid, arena, kind, position, current, directions, m);
    d :| 0 <= d < |directions| && m in WalkDirection(grid, arena, kind, position, current, directions[d]);
    var walk := WalkDirection(grid, arena, kind, position, current, directions[d]);
    WalkPrefix(grid, arena, kind, position, current, directions[d]);
    k :| 0 <= k < |walk| && walk[k] == m;
  }

  /** Every move `get_moves` returns starts at `position` with the piece the grid holds there,
      goes to a different in-bounds square, records that square's occupant, which is empty or an
      enemy piece, and passes the validity hook for its vector; it carries no score and no
      promotion yet. */
  lemma MoveFacts(grid: seq<seq<Cell>>, arena: seq<Piece>, kind: Kind, player: Player, position: Pos, m: Move)
    requires WellFormed(grid, arena) && InBounds(position) && At(grid, position).Occupied?
    requires m in Moves(grid, arena, kind, player, position)
    ensures m.Step? && m.origin == position && m.originPiece == At(grid, position).id
    ensures InBounds(m.destination) && m.destination != position
    ensures m.destinationPiece == At(grid, m.destination)
    ensures m.destinationPiece.Occupied? ==>
      m.destinationPiece.id < |arena| && arena[m.destinationPiece.id].player != arena[m.originPiece].player
    ensures IsValidMove(kind, (m.destination.0 - position.0, m.destination.1 - position.1), arena[m.originPiece], m.destinationPiece)
    ensures m.scoreChange == 0.0 && !m.pawnChange
  {
    var d, k := EmittedVector(grid, arena, kind, player, position, m);
    var vector := Directions(kind, player)[d][k];
    NonZeroVector(kind, player, d, k);
    assert (m.destination.0 - position.0, m.destination.1 - position.1) == vector;
    if m.destinationPiece.Occupied? {
      OccupantInArena(grid, arena, m.destination);
    }
  }

  /** A pawn's straight moves land only on empty squares and its diagonal moves only on enemy
      pieces. */
  lemma PawnMoveTargets(grid: seq<seq<Cell>>, arena: seq<Piece>, player: Player, position: Pos, m: Move)
    requires WellFormed(grid, arena) && InBounds(position) && At(grid, position).Occupied?
    requires m in Moves(grid, arena, Pawn, player, position)
    ensures m.Step? && InBounds(m.destination)
    ensures m.destination.0 == position.0 ==> m.destinationPiece == Empty
    ensures m.destination.0 != position.0 ==>
      && m.destinationPiece.Occupied? && m.destinationPiece.id < |arena|
      && arena[m.destinationPiece.id].player != arena[At(grid, position).id].player
  {
    MoveFacts(grid, arena, Pawn, player, position, m);
  }

  /** A pawn's two-square advance is emitted only when the moving pawn stands on its starting row
      and only together with the one-square advance onto an empty square. */
  lemma PawnDoubleStep(grid: seq<seq<Cell>>, arena: seq<Piece>, player: Player, position: Pos, m: Move)
    requires WellFormed(grid, arena) && InBounds(position) && At(grid, position).Occupied?
    requires m in Moves(grid, arena, Pawn, player, position)
    requires m.Step? && m.destination == (position.0, position.1 + 2 * Forward(player))
    ensures arena[At(grid, position).id].position.1 == StartRow(player)
    ensures Step(position, At(grid, position).id, (position.0, position.1 + Forward(player)), Empty, 0.0, false)
            in Moves(grid, arena, Pawn, player, position)
  {
    var current := At(grid, position).id;
    var directions := Directions(Pawn, player);
    PawnStartRow(grid, arena, player, position, m);
    WalkAllSource(grid, arena, Pawn, position, current, directions, m);
    var d :| 0 <= d < |directions| && m in WalkDirection(grid, arena, Pawn, position, current, directions[d]);
    var walk := WalkDirection(grid, arena, Pawn, position, current, directions[d]);
    WalkPrefix(grid, arena, Pawn, position, current, directions[d]);
    var k :| 0 <= k < |walk| && walk[k] == m;
    assert Add(position, directions[d][k]) == m.destination;
    PawnAdvance(player, d, k);
    PawnSingleStep(grid, arena, player, position, current);
  }

  /** A pawn walk that goes on past its first square emitted the one-square advance onto an
      empty square. */
  lemma PawnSingleStep(grid: seq<seq<Cell>>, arena: seq<Piece>, player: Player, position: Pos, current: PieceId)
    requires WellFormed(grid, arena) && current < |arena|
    requires |WalkDirection(grid, arena, Pawn, position, current, Directions(Pawn, player)[1])| > 1
    ensures Step(position, current, (position.0, position.1 + Forward(player)), Empty, 0.0, false)
            in WalkAll(grid, arena, Pawn, position, current, Directions(Pawn, player))
  {
    var directions := Directions(Pawn, player);
    var walk := WalkDirection(grid, arena, Pawn, position, current, directions[1]);
    WalkPrefix(grid, arena, Pawn, position, current, directions[1]);
    var single := walk[0];
    assert single == StepBy(grid, position, current, directions[1][0]);
    assert single.destinationPiece == Empty;
    WalkAllKeeps(grid, arena, Pawn, position, current, directions, 1, single);
  }

  /** Only a pawn on its starting row emits the two-square advance. */
  lemma PawnStartRow(grid: seq<seq<Cell>>, arena: seq<Piece>, player: Player, position: Pos, m: Move)
    requires WellFormed(grid, arena) && InBounds(position) && At(grid, position).Occupied?
    requires m in Moves(grid, arena, Pawn, player, position)
    requires m.Step? && m.destination == (position.0, position.1 + 2 * Forward(player))
    ensures At(grid, position).id < |arena|
    ensures arena[At(grid, position).id].position.1 == StartRow(player)
  {
    MoveFacts(grid, arena, Pawn, player, position, m);
    var vector := (m.destination.0 - position.0, m.destination.1 - position.1);
    assert vector.1 == 2 * Forward(player);
  }

  /** The two-square advance is the second vector of the pawn's middle direction. */
  lemma PawnAdvance(player: Player, d: nat, k: nat)
    requires d < |Directions(Pawn, player)| && k < |Directions(Pawn, player)[d]|
    requires Directions(Pawn, player)[d][k] == (0, 2 * Forward(player))
    ensures d == 1 && k == 1 && Directions(Pawn, player)[1][0] == (0, Forward(player))
  {
  }

  /** A walk along a ray whose first `n` squares are empty and on the board, and whose next
      square (if any) is off the board, emits exactly `n` moves (for every kind but the pawn). */
  lemma {:induction false} WalkOpenRay(grid: seq<seq<Cell>>, arena: seq<Piece>, kind: Kind, position: Pos,
                                       current: PieceId, direction: seq<Pos>, n: nat)
    requires WellFormed(grid, arena) && current < |arena| && kind != Pawn && n <= |direction|
    requires forall k | 0 <= k < n ::
      InBounds(Add(position, direction[k])) && At(grid, Add(position, direction[k])) == Empty
    requires n < |direction| ==> !InBounds(Add(position, direction[n]))
    ensures |WalkDirection(grid, arena, kind, position, current, direction)| == n
  {
    if direction != [] && n > 0 {
      forall k | 0 <= k < n - 1
        ensures InBounds(Add(position, direction[1..][k])) && At(grid, Add(position, direction[1..][k])) == Empty
      {
        assert direction[1..][k] == direction[k + 1];
      }
      WalkOpenRay(grid, arena, kind, position, current, direction[1..], n - 1);
    }
  }

  /** The outer loop over four directions emits the four walks' moves. */
  lemma WalkAllFour(grid: seq<seq<Cell>>, arena: seq<Piece>, kind: Kind, position: Pos,
                    current: PieceId, directions: seq<seq<Pos>>)
    requires WellFormed(grid, arena) && current < |arena| && |directions| == 4
    ensures |WalkAll(grid, arena, kind, position, current, directions)|
         == |WalkDirection(grid, arena, kind, position, current, directions[0])|
          + |WalkDirection(grid, arena, kind, position, current, directions[1])|
          + |WalkDirection(grid, arena, kind, position, current, directions[2])|
          + |WalkDirection(grid, arena, kind, position, current, directions[3])|
  {
    assert directions[..3][..2] == directions[..2] && directions[..3][2] == directions[2];
    assert directions[..2][..1] == directions[..1] && directions[..2][1] == directions[1];
    assert directions[..1][..0] == [] && directions[..1][0] == directions[0];
    assert WalkAll(grid, arena, kind, position, current, directions[..1]) == WalkDirection(grid, arena, kind, position, current, directions[0]);
    assert WalkAll(grid, arena, kind, position, current, directions[..2])
        == WalkAll(grid, arena, kind, position, current, directions[..1]) + WalkDirection(grid, arena, kind, position, current, directions[1]);
    assert WalkAll(grid, arena, kind, position, current, directions[..3])
        == WalkAll(grid, arena, kind, position, current, directions[..2]) + WalkDirection(grid, arena, kind, position, current, directions[2]);
    assert WalkAll(grid, arena, kind, position, current, directions)
        == WalkAll(grid, arena, kind, position, current, directions[..3]) + WalkDirection(grid, arena, kind, position, current, directions[3]);
  }

  /** The rook's four rays, in table order. */
  lemma RookRays(player: Player)
    ensures Directions(Rook, player) == [Ray((1, 0)), Ray((-1, 0)), Ray((0, 1)), Ray((0, -1))]
  {
  }

  /** From the corner (0, 0) of an otherwise empty board, a sliding walk along the row or the
      column emits all 7 of its vectors, and one towards the outside emits none. */
  lemma CornerRay(grid: seq<seq<Cell>>, arena: seq<Piece>, kind: Kind, current: PieceId, unit: Pos)
    requires WellFormed(grid, arena) && current < |arena| && kind != Pawn
    requires forall q | InBounds(q) && q != (0, 0) :: At(grid, q) == Empty
    requires unit in {(1, 0), (0, 1), (-1, 0), (0, -1)}
    ensures |WalkDirection(grid, arena, kind, (0, 0), current, Ray(unit))|
         == if unit == (1, 0) || unit == (0, 1) then 7 else 0
  {
    if unit == (1, 0) || unit == (0, 1) {
      forall k | 0 <= k < 7
        ensures InBounds(Add((0, 0), Ray(unit)[k])) && At(grid, Add((0, 0), Ray(unit)[k])) == Empty
      {
        assert Add((0, 0), Ray(unit)[k]) == ((k + 1) * unit.0, (k + 1) * unit.1);
      }
      WalkOpenRay(grid, arena, kind, (0, 0), current, Ray(unit), 7);
    } else {
      assert Add((0, 0), Ray(unit)[0]) == unit;
      WalkOpenRay(grid, arena, kind, (0, 0), current, Ray(unit), 0);
    }
  }

  /** A rook in the corner (0, 0) of an otherwise empty board has exactly 14 moves: 7 along the
      row, 7 along the column, none off the board. */
  lemma RookInCorner(grid: seq<seq<Cell>>, arena: seq<Piece>, player: Player)
    requires WellFormed(grid, arena) && At(grid, (0, 0)).Occupied?
    requires forall q | InBounds(q) && q != (0, 0) :: At(grid, q) == Empty
    ensures |Moves(grid, arena, Rook, player, (0, 0))| == 14
  {
    var current := At(grid, (0, 0)).id;
    var directions := [Ray((1, 0)), Ray((-1, 0)), Ray((0, 1)), Ray((0, -1))];
    RookRays(player);
    assert Moves(grid, arena, Rook, player, (0, 0)) == WalkAll(grid, arena, Rook, (0, 0), current, directions);
    WalkAllFour(grid, arena, Rook, (0, 0), current, directions);
    CornerRay(grid, arena, Rook, current, (1, 0));
    CornerRay(grid, arena, Rook, current, (-1, 0));
    CornerRay(grid, arena, Rook, current, (0, 1));
    CornerRay(grid, arena, Rook, current, (0, -1));
  }
}
