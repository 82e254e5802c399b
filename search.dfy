/** AI_player.py: the candidate moves of a player and the backtracking search `AI_choose_move`,
    which makes each candidate on the board, searches the reply, scores the candidate and
    unmakes it, then picks one of the candidates tied for the best score. */
module Search {
  import opened Grid
  import opened Pieces
  import opened Board

  // construct_candidates.

  /** The lists of moves, one after another. */
  function Flatten(parts: seq<seq<Move>>): seq<Move> {
    if parts == [] then [] else Flatten(parts[..|parts| - 1]) + parts[|parts| - 1]
  }

  /** A move of any part is a move of the whole. */
  lemma {:induction false} FlattenKeeps(parts: seq<seq<Move>>, i: nat, m: Move)
    requires i < |parts| && m in parts[i]
    ensures m in Flatten(parts)
  {
    var n := |parts| - 1;
    if i < n {
      assert parts[..n][i] == parts[i];
      FlattenKeeps(parts[..n], i, m);
    }
  }

  /** A move of the whole is a move of some part. */
  lemma {:induction false} FlattenSource(parts: seq<seq<Move>>, m: Move) returns (i: nat)
    requires m in Flatten(parts)
    ensures i < |parts| && m in parts[i]
  {
    var n := |parts| - 1;
    if m in parts[n] {
      i := n;
    } else {
      i := FlattenSource(parts[..n], m);
      assert parts[..n][i] == parts[i];
    }
  }

  /** The moves of each listed piece, in list order. */
  function MovesOf(grid: seq<seq<Cell>>, arena: seq<Piece>, list: seq<PieceId>): (parts: seq<seq<Move>>)
    requires forall i | 0 <= i < |list| :: Placed(grid, arena, list[i])
    ensures |parts| == |list|
  {
    seq(|list|, i requires 0 <= i < |list| => PieceMoves(grid, arena, list[i]))
  }

  /** `construct_candidates(board, player)`: the moves of `player`'s pieces, piece by piece in
      list order. */
  function Candidates(s: State, player: Player): seq<Move>
    requires Listed(s, player, s.pieces.Of(player))
  {
    Flatten(MovesOf(s.grid, s.arena, s.pieces.Of(player)))
  }

  /** A move is a candidate iff some listed piece generates it. */
  lemma CandidateSource(s: State, player: Player, m: Move) returns (i: nat)
    requires Listed(s, player, s.pieces.Of(player))
    requires m in Candidates(s, player)
    ensures i < |s.pieces.Of(player)| && m in PieceMoves(s.grid, s.arena, s.pieces.Of(player)[i])
  {
    i := FlattenSource(MovesOf(s.grid, s.arena, s.pieces.Of(player)), m);
  }

  /** Every move of a listed piece is a candidate. */
  lemma CandidateKeeps(s: State, player: Player, i: nat, m: Move)
    requires Listed(s, player, s.pieces.Of(player))
    requires i < |s.pieces.Of(player)| && m in PieceMoves(s.grid, s.arena, s.pieces.Of(player)[i])
    ensures m in Candidates(s, player)
  {
    FlattenKeeps(MovesOf(s.grid, s.arena, s.pieces.Of(player)), i, m);
  }

  /** Every candidate is a legal move of one of `player`'s pieces, not yet scored. */
  lemma CandidateFacts(s: State, player: Player, m: Move)
    requires Consistent(s) && Listed(s, player, s.pieces.Of(player))
    requires m in Candidates(s, player)
    ensures Legal(s, m) && s.arena[m.originPiece].player == player && m.scoreChange == 0.0
  {
    var list := s.pieces.Of(player);
    var i := CandidateSource(s, player, m);
    var piece := s.arena[list[i]];
    MoveFacts(s.grid, s.arena, piece.kind, piece.player, piece.position, m);
  }

  /** Boards that differ only in list order have the same candidates, possibly in another order. */
  lemma CandidatesEquiv(s: State, s': State, player: Player, m: Move)
    requires Consistent(s) && Equiv(s, s')
    requires Listed(s, player, s.pieces.Of(player)) && Listed(s', player, s'.pieces.Of(player))
    requires m in Candidates(s, player)
    ensures m in Candidates(s', player)
  {
    var list := s.pieces.Of(player);
    var list' := s'.pieces.Of(player);
    EquivList(s, s', player);
    var i := CandidateSource(s, player, m);
    assert list[i] in list';
    var j :| 0 <= j < |list'| && list'[j] == list[i];
    CandidateKeeps(s', player, j, m);
  }

  // Choosing among scored candidates.

  /** Whether score `a` is at least as good as `b` for `player`: white maximises, black
      minimises. */
  predicate AtLeastAsGood(a: real, b: real, player: Player) {
    if player == White then a >= b else a <= b
  }

  /** `max(candidates, key=score_change)` for white and `min(...)` for black: the first move
      whose score is not beaten by a later one. */
  function Best(moves: seq<Move>, player: Player): (best: Move)
    requires moves != []
    ensures best in moves
    ensures forall i | 0 <= i < |moves| :: AtLeastAsGood(best.scoreChange, moves[i].scoreChange, player)
  {
    if |moves| == 1 then moves[0]
    else
      var rest := Best(moves[1..], player);
      assert forall i | 1 <= i < |moves| :: moves[i] == moves[1..][i - 1];
      if AtLeastAsGood(moves[0].scoreChange, rest.scoreChange, player) then moves[0] else rest
  }

  /** `[c for c in candidates if c.score_change == best_score]`. */
  function Tied(moves: seq<Move>, score: real): (tied: seq<Move>)
    ensures forall m :: (m in tied <==> m in moves && m.scoreChange == score)
  {
    if moves == [] then []
    else
      var rest := Tied(moves[..|moves| - 1], score);
      var last := moves[|moves| - 1];
      assert moves == moves[..|moves| - 1] + [last];
      if last.scoreChange == score then rest + [last] else rest
  }

  /** The score the caller reads off the move the search returns: that of any tied move, or 0 for
      the empty `Move()`. */
  function ChosenScore(scored: seq<Move>, player: Player): real {
    if scored == [] then 0.0 else Best(scored, player).scoreChange
  }

  /** The default attenuation, which the recursive call uses whatever the caller passed. */
  const DefaultAttenuation: real := 0.75

  // The search, threaded through the board as the code runs it.

  /** The depth the opponent's replies are searched to: one ply less. */
  function ReplyDepth(depth: nat): (r: nat)
    requires depth > 0
    ensures r < depth
  {
    depth - 1
  }

  /** What `AI_choose_move(board, player, depth, attenuation)` leaves behind: the board state after
      the search, and the candidates as scored (empty if `depth` is 0 or there is no candidate).
      Unmaking a capture moves the captured piece to the end of its list, so the board the search
      leaves, and the boards later candidates are searched on, differ from the original in list
      order only. */
  ghost function Search(s: State, player: Player, depth: nat, attenuation: real): (r: (State, seq<Move>))
    requires Consistent(s)
    ensures Consistent(r.0) && Equiv(r.0, s)
    decreases depth, 0, 0
  {
    if depth == 0 then (s, [])
    else
      ListFacts(s, player);
      var candidates := Candidates(s, player);
      forall m | m in candidates
        ensures Legal(s, m) && m.scoreChange == 0.0
      {
        CandidateFacts(s, player, m);
      }
      var r := ScoreEach(s, player, ReplyDepth(depth), attenuation, candidates);
      EquivSymmetric(r.0, s);
      EquivConsistent(s, r.0);
      r
  }

  /** The loop over the candidates: each is scored on the board the previous ones left, its reply
      searched `replyDepth` deep. */
  ghost function ScoreEach(s: State, player: Player, replyDepth: nat, attenuation: real, todo: seq<Move>): (r: (State, seq<Move>))
    requires Consistent(s)
    requires forall m | m in todo :: Legal(s, m)
    ensures Equiv(r.0, s) && |r.1| == |todo|
    ensures forall i | 0 <= i < |todo| :: r.1[i] == todo[i].(scoreChange := r.1[i].scoreChange)
    decreases replyDepth, 2, |todo|
  {
    if todo == [] then (s, [])
    else
      var n := |todo| - 1;
      var (s', done) := ScoreEach(s, player, replyDepth, attenuation, todo[..n]);
      EquivSymmetric(s', s);
      EquivConsistent(s, s');
      LegalEquiv(s, s', todo[n]);
      var (u, scored) := ScoreOne(s', player, replyDepth, attenuation, todo[n]);
      EquivTransitive(u, s', s);
      ScoredPrefix(todo, done, scored);
      (u, done + [scored])
  }

  /** Appending the last scored candidate keeps every earlier one in place. */
  lemma ScoredPrefix(todo: seq<Move>, done: seq<Move>, scored: Move)
    requires todo != [] && |done| == |todo| - 1
    requires forall i | 0 <= i < |done| :: done[i] == todo[..|done|][i].(scoreChange := done[i].scoreChange)
    requires scored == todo[|done|].(scoreChange := scored.scoreChange)
    ensures forall i | 0 <= i < |todo| :: (done + [scored])[i] == todo[i].(scoreChange := (done + [scored])[i].scoreChange)
  {
  }

  /** One turn of the loop: make the candidate, search the reply `replyDepth` deep with the
      default attenuation, score the candidate by the change of the board's score plus the
      attenuated score of the reply, and unmake it. */
  ghost function ScoreOne(s: State, player: Player, replyDepth: nat, attenuation: real, m: Move): (r: (State, Move))
    requires Consistent(s) && Legal(s, m)
    ensures Equiv(r.0, s) && r.1 == m.(scoreChange := r.1.scoreChange)
    decreases replyDepth, 1, 0
  {
    LegalApplicable(s, m);
    MakeMoveConsistent(s, m);
    var applied := ApplyMove(s, m);
    Rescore(s, player, attenuation, m, applied, Search(applied.0, Other(player), replyDepth, DefaultAttenuation))
  }

  /** `board.score - current_score + next_move.score_change * attenuation`: what the move itself
      gained on the board plus the reply's score scaled by the attenuation. */
  function Weigh(score: int, current: int, reply: real, attenuation: real): (r: real)
    ensures attenuation == 0.0 ==> r == (score - current) as real
    ensures reply == 0.0 ==> r == (score - current) as real
  {
    (score - current) as real + Attenuated(reply, attenuation)
  }

  /** A reply's score scaled by the attenuation, named so that proofs about the scores see the
      product as one term. */
  function Attenuated(reply: real, attenuation: real): real {
    reply * attenuation
  }

  /** The second half of one turn: given the board after the candidate and the reply's search,
      score the candidate and unmake it. */
  ghost function Rescore(s: State, player: Player, attenuation: real, m: Move, applied: (State, Move),
                         reply: (State, seq<Move>)): (r: (State, Move))
    requires Consistent(s) && Legal(s, m) && Applicable(s, m) && applied == ApplyMove(s, m)
    requires Equiv(reply.0, applied.0)
    ensures Equiv(r.0, s) && r.1 == m.(scoreChange := r.1.scoreChange)
  {
    var score := Weigh(reply.0.score, s.score, ChosenScore(reply.1, Other(player)), attenuation);
    ScoreOneFacts(s, m, applied, reply.0, score);
    RevertMove(reply.0, applied.1.(scoreChange := score))
  }

  /** After a legal move and any search that leaves the board equivalent, the rescored move can
      be unmade, and unmaking it gives a board equivalent to the one before the move. */
  lemma ScoreOneFacts(s: State, m: Move, applied: (State, Move), t': State, score: real)
    requires Consistent(s) && Legal(s, m) && Applicable(s, m) && applied == ApplyMove(s, m)
    requires Equiv(t', applied.0)
    ensures Revertible(t', applied.1.(scoreChange := score))
    ensures Equiv(RevertMove(t', applied.1.(scoreChange := score)).0, s)
    ensures RevertMove(t', applied.1.(scoreChange := score)).1 == m.(scoreChange := score)
  {
    var (t, made) := applied;
    UnmakeAfterMake(s, m, score);
    EquivSymmetric(t', t);
    UnmakeMoveEquiv(t, t', made.(scoreChange := score));
    UndoableRevertible(t', made.(scoreChange := score));
    EquivSymmetric(RevertMove(t, made.(scoreChange := score)).0, RevertMove(t', made.(scoreChange := score)).0);
    EquivTransitive(RevertMove(t', made.(scoreChange := score)).0, Reordered(s, m), s);
  }

  /** `ScoreOne` is `Rescore` after the candidate and the reply's search. */
  lemma ScoreOneUnfold(s: State, player: Player, replyDepth: nat, attenuation: real, m: Move)
    requires Consistent(s) && Legal(s, m)
    ensures Applicable(s, m) && Consistent(ApplyMove(s, m).0)
    ensures Equiv(Search(ApplyMove(s, m).0, Other(player), replyDepth, DefaultAttenuation).0, ApplyMove(s, m).0)
    ensures ScoreOne(s, player, replyDepth, attenuation, m)
      == Rescore(s, player, attenuation, m, ApplyMove(s, m), Search(ApplyMove(s, m).0, Other(player), replyDepth, DefaultAttenuation))
  {
    LegalApplicable(s, m);
    MakeMoveConsistent(s, m);
  }

  /** The board after a legal move is consistent, and the move can be made. */
  lemma Makeable(s: State, m: Move)
    requires Consistent(s) && Legal(s, m)
    ensures Applicable(s, m) && Consistent(ApplyMove(s, m).0)
  {
    LegalApplicable(s, m);
    MakeMoveConsistent(s, m);
  }

  /** The score and the unmake of `Rescore` spelled out. */
  lemma RescoreUnfold(s: State, player: Player, attenuation: real, m: Move, applied: (State, Move),
                      reply: (State, seq<Move>))
    requires Consistent(s) && Legal(s, m) && Applicable(s, m) && applied == ApplyMove(s, m)
    requires Equiv(reply.0, applied.0)
    ensures var score := Weigh(reply.0.score, s.score, ChosenScore(reply.1, Other(player)), attenuation);
      && Revertible(reply.0, applied.1.(scoreChange := score))
      && Rescore(s, player, attenuation, m, applied, reply) == RevertMove(reply.0, applied.1.(scoreChange := score))
  {
    var score := Weigh(reply.0.score, s.score, ChosenScore(reply.1, Other(player)), attenuation);
    ScoreOneFacts(s, m, applied, reply.0, score);
  }

  /** The loop of `AI_choose_move` after `i` candidates have been scored, and the state after the
      next one. */
  lemma ScoreEachStep(s: State, player: Player, replyDepth: nat, attenuation: real, todo: seq<Move>, i: nat)
    requires Consistent(s) && i < |todo|
    requires forall m | m in todo :: Legal(s, m)
    ensures forall m | m in todo[..i] :: Legal(s, m)
    ensures forall m | m in todo[..i + 1] :: Legal(s, m)
    ensures Consistent(ScoreEach(s, player, replyDepth, attenuation, todo[..i]).0)
    ensures Legal(ScoreEach(s, player, replyDepth, attenuation, todo[..i]).0, todo[i])
    ensures var previous := ScoreEach(s, player, replyDepth, attenuation, todo[..i]);
      var next := ScoreOne(previous.0, player, replyDepth, attenuation, todo[i]);
      ScoreEach(s, player, replyDepth, attenuation, todo[..i + 1]) == (next.0, previous.1 + [next.1])
  {
    assert todo[..i + 1][..i] == todo[..i];
    var previous := ScoreEach(s, player, replyDepth, attenuation, todo[..i]);
    EquivSymmetric(previous.0, s);
    EquivConsistent(s, previous.0);
    LegalEquiv(s, previous.0, todo[i]);
  }

  /** `AI_choose_move(board, player, depth, attenuation)`: score every candidate by making it,
      searching the reply one level shallower with the default attenuation and unmaking it, then
      return one of the candidates tied for the best score for `player` (chosen at random in the
      code, any of them here), or the empty `Move()` when `depth` is 0 or there is no candidate.
      The board ends as `Search` says, which differs from the start only in list order. */
  method ChooseMove(board: Board, player: Player, depth: nat, attenuation: real) returns (best: Move)
    requires board.Valid()
    modifies board
    ensures board.Snapshot() == Search(old(board.Snapshot()), player, depth, attenuation).0
    ensures var scored := Search(old(board.Snapshot()), player, depth, attenuation).1;
      && best.scoreChange == ChosenScore(scored, player)
      && (if scored == [] then best == Dummy(0.0) else best in scored)
      && forall m | m in scored :: AtLeastAsGood(best.scoreChange, m.scoreChange, player)
    ensures board.Valid()
    decreases depth, 0
  {
    ghost var s := board.Snapshot();
    if depth == 0 {
      return Dummy(0.0);
    }
    var replyDepth := ReplyDepth(depth);
    SearchStep(s, player, depth, attenuation);
    var candidates := Candidates(board.Snapshot(), player);
    if |candidates| == 0 {
      return Dummy(0.0);
    }
    candidates := ScoreCandidates(board, player, replyDepth, attenuation, candidates);
    best := PickBest(candidates, player);
  }

  /** A search at depth at least 1 scores the candidates with replies one level shallower. */
  lemma SearchStep(s: State, player: Player, depth: nat, attenuation: real)
    requires Consistent(s) && depth >= 1
    ensures Listed(s, player, s.pieces.Of(player))
    ensures forall m | m in Candidates(s, player) :: Legal(s, m)
    ensures Search(s, player, depth, attenuation) == ScoreEach(s, player, ReplyDepth(depth), attenuation, Candidates(s, player))
  {
    ListFacts(s, player);
    forall m | m in Candidates(s, player)
      ensures Legal(s, m)
    {
      CandidateFacts(s, player, m);
    }
  }

  /** A search at depth at least 1 returns the candidates in order, each with its score change
      recorded and nothing else changed. */
  lemma SearchScored(s: State, player: Player, depth: nat, attenuation: real)
    requires Consistent(s) && depth >= 1
    ensures Listed(s, player, s.pieces.Of(player))
    ensures var scored := Search(s, player, depth, attenuation).1;
      var candidates := Candidates(s, player);
      && |scored| == |candidates|
      && forall i | 0 <= i < |candidates| :: scored[i] == candidates[i].(scoreChange := scored[i].scoreChange)
  {
    SearchStep(s, player, depth, attenuation);
  }

  /** `ScoreOne` with the reply searched 0 deep: the reply leaves the board as it is and chooses
      nothing, so the candidate is unmade scored with the change of the board's score alone
      (`Weigh` with a zero reply; see `ImmediateGain` for that change and `UnmakeAfterMake` for
      the board the unmaking leaves). */
  lemma ScoreOneWithoutReply(s: State, player: Player, attenuation: real, m: Move)
    requires Consistent(s) && Legal(s, m)
    ensures Applicable(s, m)
    ensures var (t, made) := ApplyMove(s, m);
      ScoreOne(s, player, 0, attenuation, m) == RevertMove(t, made.(scoreChange := Weigh(t.score, s.score, 0.0, attenuation)))
  {
    ScoreOneUnfold(s, player, 0, attenuation, m);
    RescoreUnfold(s, player, attenuation, m, ApplyMove(s, m), (ApplyMove(s, m).0, []));
  }

  /** The score a candidate gets, at any reply depth: what making it changed on the board plus
      the attenuated score of the move the reply's search chose. The reply leaves the board
      equivalent to the one after the candidate, so its score is read off that board. */
  lemma ScoreOneScore(s: State, player: Player, replyDepth: nat, attenuation: real, m: Move)
    requires Consistent(s) && Legal(s, m)
    ensures Applicable(s, m) && Consistent(ApplyMove(s, m).0)
    ensures ScoreOne(s, player, replyDepth, attenuation, m).1.scoreChange
         == (ApplyMove(s, m).0.score - s.score) as real
            + Attenuated(ChosenScore(Search(ApplyMove(s, m).0, Other(player), replyDepth, DefaultAttenuation).1, Other(player)), attenuation)
  {
    ScoreOneUnfold(s, player, replyDepth, attenuation, m);
    var applied := ApplyMove(s, m);
    var reply := Search(applied.0, Other(player), replyDepth, DefaultAttenuation);
    RescoreScore(s, player, attenuation, m, applied, reply);
  }

  /** The score `Rescore` records is `Weigh` of the board after the candidate: the reply's board
      keeps its score. */
  lemma RescoreScore(s: State, player: Player, attenuation: real, m: Move, applied: (State, Move),
                     reply: (State, seq<Move>))
    requires Consistent(s) && Legal(s, m) && Applicable(s, m) && applied == ApplyMove(s, m)
    requires Equiv(reply.0, applied.0)
    ensures Rescore(s, player, attenuation, m, applied, reply).1.scoreChange
         == Weigh(applied.0.score, s.score, ChosenScore(reply.1, Other(player)), attenuation)
  {
    var score := Weigh(reply.0.score, s.score, ChosenScore(reply.1, Other(player)), attenuation);
    ScoreOneFacts(s, m, applied, reply.0, score);
  }

  /** The change of the board's score `make_move` makes: minus a captured piece's value, plus the
      promotion bonus. */
  lemma ImmediateGain(s: State, m: Move)
    requires Consistent(s) && Legal(s, m)
    ensures Applicable(s, m) && m.originPiece < |s.arena|
    ensures m.destinationPiece.Occupied? ==> m.destinationPiece.id < |s.arena|
    ensures ApplyMove(s, m).0.score - s.score
         == (if Promotes(s, m) then PromotionBonus(s.arena[m.originPiece].player) else 0)
            - (if m.destinationPiece.Occupied? then Value(s.arena[m.destinationPiece.id]) else 0)
  {
    LegalPieces(s, m);
    LegalApplicable(s, m);
    MakeMoveEffect(s, m);
  }

  /** The end of `AI_choose_move`: the best score among the scored candidates, then one of the
      candidates tied for it. */
  method PickBest(scored: seq<Move>, player: Player) returns (best: Move)
    requires scored != []
    ensures best in scored && best.scoreChange == ChosenScore(scored, player)
    ensures forall m | m in scored :: AtLeastAsGood(best.scoreChange, m.scoreChange, player)
  {
    var possibleBest := Best(scored, player);
    var tied := Tied(scored, possibleBest.scoreChange);
    assert possibleBest in tied;
    best :| best in tied;
  }

  /** The loop of `AI_choose_move`: score each candidate in turn on the board the previous ones
      left, recording its score change in the list. */
  method ScoreCandidates(board: Board, player: Player, replyDepth: nat, attenuation: real, candidates: seq<Move>)
      returns (scored: seq<Move>)
    requires board.Valid() && forall m | m in candidates :: Legal(board.Snapshot(), m)
    modifies board
    ensures (board.Snapshot(), scored) == ScoreEach(old(board.Snapshot()), player, replyDepth, attenuation, candidates)
    ensures board.Valid()
    decreases replyDepth, 2
  {
    ghost var s := board.Snapshot();
    ghost var done: seq<Move> := [];
    scored := candidates;
    var i := 0;
    assert candidates[..0] == [] && candidates[0..] == candidates;
    while i < |scored|
      invariant 0 <= i <= |candidates| && |done| == i
      invariant scored == done + candidates[i..]
      invariant (board.Snapshot(), done) == ScoreEach(s, player, replyDepth, attenuation, candidates[..i])
      invariant board.Valid()
    {
      ScoreEachStep(s, player, replyDepth, attenuation, candidates, i);
      CandidateAt(scored, done, candidates, i);
      var unmade := ScoreCandidate(board, player, replyDepth, attenuation, scored[i]);
      Rescored(scored, done, candidates, i, unmade);
      scored := scored[i := unmade];
      done := done + [unmade];
      i := i + 1;
    }
    assert candidates[..|candidates|] == candidates && scored == done;
  }

  /** The candidate the loop scores next is still the original one. */
  lemma CandidateAt(candidates: seq<Move>, done: seq<Move>, original: seq<Move>, i: nat)
    requires |done| == i < |original| && candidates == done + original[i..]
    ensures candidates[i] == original[i]
  {
  }

  /** Recording the score of the `i`-th candidate in the list moves it from the original part to
      the scored part. */
  lemma Rescored(candidates: seq<Move>, done: seq<Move>, original: seq<Move>, i: nat, unmade: Move)
    requires |done| == i < |original| && candidates == done + original[i..]
    ensures candidates[i := unmade] == done + [unmade] + original[i + 1..]
  {
    assert original[i..] == [original[i]] + original[i + 1..];
  }

  /** One turn of the loop of `AI_choose_move`: remember the score, make the candidate, search the
      reply `replyDepth` deep, record the candidate's score change and unmake it. */
  method ScoreCandidate(board: Board, player: Player, replyDepth: nat, attenuation: real, candidate: Move)
      returns (unmade: Move)
    requires board.Valid() && Legal(board.Snapshot(), candidate)
    modifies board
    ensures (board.Snapshot(), unmade) == ScoreOne(old(board.Snapshot()), player, replyDepth, attenuation, candidate)
    ensures board.Valid()
    decreases replyDepth, 1
  {
    ghost var before := board.Snapshot();
    Makeable(before, candidate);
    var currentScore := board.score;
    var made := board.MakeMove(candidate);
    ghost var after := board.Snapshot();
    var next := ChooseMove(board, Other(player), replyDepth, DefaultAttenuation);
    var scoreChange := Weigh(board.score, currentScore, next.scoreChange, attenuation);
    ScoreOneIs(before, player, replyDepth, attenuation, candidate, after, made, scoreChange);
    unmade := board.UnmakeMove(made.(scoreChange := scoreChange));
  }

  /** One turn of the loop as `ScoreCandidate` runs it: after making the candidate, the move
      `make_move` returned, rescored from the reply's search, can be unmade, and unmaking it
      gives `ScoreOne` on a consistent board. */
  lemma ScoreOneIs(s: State, player: Player, replyDepth: nat, attenuation: real, m: Move, after: State,
                   made: Move, score: real)
    requires Consistent(s) && Legal(s, m)
    requires Applicable(s, m) && (after, made) == ApplyMove(s, m) && Consistent(after)
    requires var reply := Search(after, Other(player), replyDepth, DefaultAttenuation);
      score == Weigh(reply.0.score, s.score, ChosenScore(reply.1, Other(player)), attenuation)
    ensures var reply := Search(after, Other(player), replyDepth, DefaultAttenuation);
      && Revertible(reply.0, made.(scoreChange := score))
      && RevertMove(reply.0, made.(scoreChange := score)) == ScoreOne(s, player, replyDepth, attenuation, m)
      && Consistent(ScoreOne(s, player, replyDepth, attenuation, m).0)
  {
    var reply := Search(after, Other(player), replyDepth, DefaultAttenuation);
    RescoreUnfold(s, player, attenuation, m, (after, made), reply);
    ScoreOneUnfold(s, player, replyDepth, attenuation, m);
    ScoreOneConsistent(s, player, replyDepth, attenuation, m);
  }

  /** The board a candidate's scoring leaves is consistent. */
  lemma ScoreOneConsistent(s: State, player: Player, replyDepth: nat, attenuation: real, m: Move)
    requires Consistent(s) && Legal(s, m)
    ensures Consistent(ScoreOne(s, player, replyDepth, attenuation, m).0)
  {
    var r := ScoreOne(s, player, replyDepth, attenuation, m);
    EquivSymmetric(r.0, s);
    EquivConsistent(s, r.0);
  }
}
