/**
 * The game layer of components/Chess.js around tryMove: the turn flip after an
 * accepted move (onPlayerMove), the check/checkmate/draw probes (checkCheck,
 * kingCheckMate, isDraw, getAllPieces) and replaying a move received from the
 * opponent (tryMoveFroMove). Clocks, the DOM and the socket are left out; the
 * move a local player sends is returned as a value.
 */
module Game {
  import opened Wrappers
  import opened Objects
  import opened Pieces
  import opened Boards
  import opened Moves
  import opened Rules

  /** The move sent to the opponent: the piece's and the square's rank/files and the side that moved. */
  datatype MoveMsg = MoveMsg(from: RankFile, to: RankFile, turn: Side)

  /** After a player's move: the board, whether it was accepted, what was sent, and a checkmated side. */
  datatype Played = Played(board: Board, accepted: bool, sent: Option<MoveMsg>, loser: Option<Side>)

  // ---------------------------------------------------------------- probes

  /** tryMoveInBackground on board b, as a function of the piece's square and the destination. */
  function Probe(b: Board, session: Side, view: Side): (Pos, Pos) -> bool
  {
    (at: Pos, to: Pos) => TryMoveInBackground(b, at, to, session, view)
  }

  /** Whether some square of `moves` is a move from `at` that passes the probe. */
  function AnyEscape(at: Pos, moves: seq<Pos>, probe: (Pos, Pos) -> bool): (r: bool)
    ensures r <==> exists k :: 0 <= k < |moves| && probe(at, moves[k])
  {
    if moves == [] then false
    else if probe(at, moves[0]) then true
    else
      var rest := AnyEscape(at, moves[1..], probe);
      assert forall k :: 1 <= k < |moves| ==> moves[k] == moves[1..][k - 1];
      rest
  }

  /** A piece stands on cell i and one of its stored moves passes the probe. */
  predicate CanEscape(b: Board, i: nat, probe: (Pos, Pos) -> bool)
    requires i < 64
  {
    b.cells[i].Some? && AnyEscape(PosOf(i), b.cells[i].value.moves, probe)
  }

  /** Whether a piece on one of the cells ix has a stored move that passes the probe. */
  function PiecesEscape(b: Board, ix: seq<nat>, probe: (Pos, Pos) -> bool): (r: bool)
  {
    if ix == [] then false
    else if ix[0] < 64 && CanEscape(b, ix[0], probe) then true
    else PiecesEscape(b, ix[1..], probe)
  }

  lemma {:induction false} PiecesEscapeSpec(b: Board, ix: seq<nat>, probe: (Pos, Pos) -> bool)
    requires forall k :: 0 <= k < |ix| ==> ix[k] < 64
    ensures PiecesEscape(b, ix, probe) <==> exists k :: 0 <= k < |ix| && CanEscape(b, ix[k], probe)
  {
    if ix != [] {
      PiecesEscapeSpec(b, ix[1..], probe);
      if exists k :: 1 <= k < |ix| && CanEscape(b, ix[k], probe) {
        var k :| 1 <= k < |ix| && CanEscape(b, ix[k], probe);
        assert ix[1..][k - 1] == ix[k];
      }
      if exists k :: 0 <= k < |ix[1..]| && CanEscape(b, ix[1..][k], probe) {
        var k :| 0 <= k < |ix[1..]| && CanEscape(b, ix[1..][k], probe);
        assert ix[k + 1] == ix[1..][k];
      }
    }
  }

  /**
   * kingCheckMate: no stored move of any piece of the side to move, nor of the
   * reported king, passes the probe. Pieces are taken from getCurrentPieces,
   * each tried from its own square.
   */
  function KingCheckMate(b: Board, king: Pos, session: Side, view: Side): bool
    requires At(b, king).Some?
  {
    Stuck(b, king, Probe(b, session, view))
  }

  /** No piece of the side to move, nor the piece on `king`, has a stored move that passes the probe. */
  predicate Stuck(b: Board, king: Pos, probe: (Pos, Pos) -> bool)
    requires At(b, king).Some?
  {
    !PiecesEscape(b, IndicesFrom(b.cells, b.turn, 0), probe) && !AnyEscape(king, At(b, king).value.moves, probe)
  }

  lemma StuckSpec(b: Board, king: Pos, probe: (Pos, Pos) -> bool)
    requires At(b, king).Some?
    ensures Stuck(b, king, probe) <==>
      && (forall i :: 0 <= i < 64 && b.cells[i].Some? && b.cells[i].value.side == b.turn ==> !CanEscape(b, i, probe))
      && (forall k :: 0 <= k < |At(b, king).value.moves| ==> !probe(king, At(b, king).value.moves[k]))
  {
    var ix := IndicesFrom(b.cells, b.turn, 0);
    PiecesEscapeSpec(b, ix, probe);
    if PiecesEscape(b, ix, probe) {
      var k :| 0 <= k < |ix| && CanEscape(b, ix[k], probe);
      assert b.cells[ix[k]].Some? && b.cells[ix[k]].value.side == b.turn;
    } else {
      forall i | 0 <= i < 64 && b.cells[i].Some? && b.cells[i].value.side == b.turn
        ensures !CanEscape(b, i, probe)
      {
        IndicesFromComplete(b.cells, b.turn, 0, i);
      }
    }
  }

  /** Checkmate: neither any piece of the side to move nor the reported king has a move that passes the probe. */
  lemma KingCheckMateSpec(b: Board, king: Pos, session: Side, view: Side)
    requires At(b, king).Some?
    ensures KingCheckMate(b, king, session, view) <==>
      && (forall i :: 0 <= i < 64 && b.cells[i].Some? && b.cells[i].value.side == b.turn ==>
            !CanEscape(b, i, Probe(b, session, view)))
      && (forall k :: 0 <= k < |At(b, king).value.moves| ==>
            !TryMoveInBackground(b, king, At(b, king).value.moves[k], session, view))
  {
    var probe := Probe(b, session, view);
    StuckSpec(b, king, probe);
    var moves := At(b, king).value.moves;
    assert forall k :: 0 <= k < |moves| ==> probe(king, moves[k]) == TryMoveInBackground(b, king, moves[k], session, view);
  }

  /** getAllPieces(KING): the cells holding a king of either side, row by row. */
  function KingCells(b: Board, i: nat): (r: seq<nat>)
    requires i <= 64
    ensures forall k :: 0 <= k < |r| ==> i <= r[k] < 64 && IsKingAt(b, PosOf(r[k]))
    ensures forall j :: i <= j < 64 && IsKingAt(b, PosOf(j)) ==> j in r
    decreases 64 - i
  {
    if i == 64 then []
    else if IsKingAt(b, PosOf(i)) then [i] + KingCells(b, i + 1)
    else KingCells(b, i + 1)
  }

  /** isDraw: some king has no stored move that passes the probe. */
  function IsDraw(b: Board, kings: seq<nat>, probe: (Pos, Pos) -> bool): bool
  {
    if kings == [] then false
    else if kings[0] < 64 && b.cells[kings[0]].Some? && !CanEscape(b, kings[0], probe) then true
    else IsDraw(b, kings[1..], probe)
  }

  /** isDraw over getAllPieces(KING) holds exactly when some king on the board is stuck. */
  lemma {:induction false} IsDrawSpec(b: Board, i: nat, probe: (Pos, Pos) -> bool)
    requires i <= 64
    ensures IsDraw(b, KingCells(b, i), probe) <==>
      exists j :: i <= j < 64 && IsKingAt(b, PosOf(j)) && !CanEscape(b, j, probe)
    decreases 64 - i
  {
    if i < 64 {
      IsDrawSpec(b, i + 1, probe);
      var ks, rest := KingCells(b, i), KingCells(b, i + 1);
      var stuck := IsKingAt(b, PosOf(i)) && !CanEscape(b, i, probe);
      if IsKingAt(b, PosOf(i)) {
        assert ks == [i] + rest && ks[1..] == rest;
        assert IsDraw(b, ks, probe) == (stuck || IsDraw(b, rest, probe));
      } else {
        assert ks == rest;
      }
      if exists j :: i <= j < 64 && IsKingAt(b, PosOf(j)) && !CanEscape(b, j, probe) {
        var j :| i <= j < 64 && IsKingAt(b, PosOf(j)) && !CanEscape(b, j, probe);
        assert j == i || (i + 1 <= j < 64 && IsKingAt(b, PosOf(j)) && !CanEscape(b, j, probe));
      }
    }
  }

  // ---------------------------------------------------------------- moves

  /**
   * checkCheck on the board after the turn flip: isCheck runs (refreshing every
   * piece's lists); a reported king that is checkmated loses. The draw probe's
   * answer is computed by the source and then dropped, so it has no effect here.
   */
  function CheckCheck(b: Board, session: Side, view: Side): (r: (Board, Option<Side>))
    ensures SameOccupants(r.0, b) && r.0.turn == b.turn && r.0.enPassant == b.enPassant
    ensures r.1.Some? ==> IsCheck(b, view).king.Some? && r.1 == Some(At(b, IsCheck(b, view).king.value).value.side)
    ensures var c := IsCheck(b, view);
      r.1.Some? <==> c.king.Some? && KingCheckMate(c.board, c.king.value, session, view)
  {
    var c := IsCheck(b, view);
    if c.king.Some? && KingCheckMate(c.board, c.king.value, session, view) then
      assert SameOccupant(At(c.board, c.king.value), At(b, c.king.value));
      (c.board, Some(At(c.board, c.king.value).value.side))
    else (c.board, None)
  }

  /**
   * A move made through tryMove as the top-level call: when it is accepted,
   * onPlayerMove flips the side to move, a local move is sent to the opponent,
   * and checkCheck runs.
   */
  function PlayerMove(b: Board, from: Pos, to: Pos, remote: bool, session: Side, view: Side): (r: Played)
    ensures r.accepted <==> TryMove(b, from, to, false, remote, session, view).ok
    ensures r.accepted ==> r.board.turn == Opponent(b.turn)
    ensures !r.accepted ==> r.board.turn == b.turn && SameOccupants(r.board, b) && r.loser.None?
    ensures r.sent.Some? <==> r.accepted && !remote
    ensures r.sent.Some? ==> r.sent.value.turn == b.turn && r.sent.value.to == SquareRankFile(view, to)
    ensures r.sent.Some? ==> At(b, from).Some? && r.sent.value.from == At(b, from).value.rankfile
  {
    var t := TryMove(b, from, to, false, remote, session, view);
    if !t.ok then Played(t.board, false, None, None)
    else
      var flipped := t.board.(turn := Opponent(b.turn));
      var sent := if remote then None else Some(MoveMsg(At(b, from).value.rankfile, SquareRankFile(view, to), b.turn));
      var (board, loser) := CheckCheck(flipped, session, view);
      Played(board, true, sent, loser)
  }

  /** Two accepted moves in a row give the move back to the side that started. */
  lemma TurnAlternates(b: Board, m1: (Pos, Pos), m2: (Pos, Pos), remote1: bool, remote2: bool, session: Side, view: Side)
    requires PlayerMove(b, m1.0, m1.1, remote1, session, view).accepted
    requires PlayerMove(PlayerMove(b, m1.0, m1.1, remote1, session, view).board, m2.0, m2.1, remote2, session, view).accepted
    ensures PlayerMove(PlayerMove(b, m1.0, m1.1, remote1, session, view).board, m2.0, m2.1, remote2, session, view).board.turn == b.turn
  {
  }

  /**
   * A local move is accepted only on this client's turn, so after it the side
   * to move is never this client's.
   */
  lemma LocalMoveHandsOver(b: Board, from: Pos, to: Pos, session: Side, view: Side)
    requires PlayerMove(b, from, to, false, session, view).accepted
    ensures b.turn == session && PlayerMove(b, from, to, false, session, view).board.turn != session
  {
    TryMoveRejects(b, from, to, false, false, session, view);
  }

  /**
   * tryMoveFroMove: the opponent's message is mapped back to squares by label,
   * the piece's lists are regenerated, and the move is replayed as a remote
   * move. A `from` label naming no square makes the source fail reading it;
   * the model leaves the board as it is there. An empty `from` square or a
   * `to` label naming no square makes tryMove refuse the move, after the lists
   * of a piece on `from` have been regenerated.
   */
  function TryMoveFromMove(b: Board, m: MoveMsg, session: Side, view: Side): (r: Played)
    ensures r.sent.None?
    ensures GetSquare(view, m.from).None? ==> r == Played(b, false, None, None)
    ensures GetSquare(view, m.from).Some? && At(b, GetSquare(view, m.from).value).None? ==> r == Played(b, false, None, None)
    ensures GetSquare(view, m.from).Some? && At(b, GetSquare(view, m.from).value).Some? && GetSquare(view, m.to).None? ==>
      r == Played(StoreLists(b, view, GetSquare(view, m.from).value), false, None, None)
    ensures GetSquare(view, m.from).Some? && At(b, GetSquare(view, m.from).value).Some? && GetSquare(view, m.to).Some? ==>
      var from, to := GetSquare(view, m.from).value, GetSquare(view, m.to).value;
      r == PlayerMove(StoreLists(b, view, from), from, to, true, session, view)
  {
    var from := GetSquare(view, m.from);
    var to := GetSquare(view, m.to);
    if from.None? || At(b, from.value).None? then Played(b, false, None, None)
    else if to.None? then Played(StoreLists(b, view, from.value), false, None, None)
    else
      PlayerMove(StoreLists(b, view, from.value), from.value, to.value, true, session, view)
  }

  /**
   * The receiving client draws the board for the other side: a square's label
   * names, there, the square mirrored top to bottom, in the same column.
   */
  lemma MirroredLabel(view: Side, q: Pos)
    requires OnBoard(q)
    ensures GetSquare(Opponent(view), SquareRankFile(view, q)) == Some(Pos(7 - q.y, q.x))
  {
    GetSquareIsSquareOf(Opponent(view), SquareRankFile(view, q));
    GridLabels(view, q);
  }

  /** A played move, accepted or not, keeps every piece carrying its own square's label. */
  lemma PlayerMoveLabelled(b: Board, from: Pos, to: Pos, remote: bool, session: Side, view: Side)
    requires Labelled(b, view)
    ensures Labelled(PlayerMove(b, from, to, remote, session, view).board, view)
  {
    var t := TryMove(b, from, to, false, remote, session, view);
    TryMoveLabelled(b, from, to, false, remote, session, view);
    var flipped := t.board.(turn := Opponent(b.turn));
    assert Labelled(flipped, view);
    LabelledSameOccupants(CheckCheck(flipped, session, view).0, flipped, view);
  }

  /**
   * Replaying the opponent's message keeps every piece carrying its own
   * square's label, so a client whose board starts labelled stays labelled
   * through its own moves and the ones it receives.
   */
  lemma TryMoveFromMoveLabelled(b: Board, m: MoveMsg, session: Side, view: Side)
    requires Labelled(b, view)
    ensures Labelled(TryMoveFromMove(b, m, session, view).board, view)
  {
    var from := GetSquare(view, m.from);
    if from.Some? && At(b, from.value).Some? {
      LabelledSameOccupants(StoreLists(b, view, from.value), b, view);
      if GetSquare(view, m.to).Some? {
        PlayerMoveLabelled(StoreLists(b, view, from.value), from.value, GetSquare(view, m.to).value, true, session, view);
      }
    }
  }

  /**
   * A move this client sends names, on the opponent's client (whose board is
   * drawn for the other side), the same two squares mirrored top to bottom:
   * tryMoveFroMove there replays the move from the mirror of `from` to the
   * mirror of `to` as a remote move.
   */
  lemma ReplayMirrored(b: Board, from: Pos, to: Pos, session: Side, view: Side, other: Board, otherSession: Side)
    requires Labelled(b, view)
    requires PlayerMove(b, from, to, false, session, view).sent.Some?
    ensures var m := PlayerMove(b, from, to, false, session, view).sent.value;
      var from2, to2 := Pos(7 - from.y, from.x), Pos(7 - to.y, to.x);
      && GetSquare(Opponent(view), m.from) == Some(from2)
      && GetSquare(Opponent(view), m.to) == Some(to2)
      && TryMoveFromMove(other, m, otherSession, Opponent(view))
         == if At(other, from2).None? then Played(other, false, None, None)
            else PlayerMove(StoreLists(other, Opponent(view), from2), from2, to2, true, otherSession, Opponent(view))
  {
    var m := PlayerMove(b, from, to, false, session, view).sent.value;
    SentLabels(b, from, to, session, view);
    GetSquareIsEqual(Opponent(view), m.from, SquareRankFile(view, from));
    MirroredLabel(view, from);
    MirroredLabel(view, to);
  }

  /** The labels a sent move carries are those of its two squares, up to letter case. */
  lemma SentLabels(b: Board, from: Pos, to: Pos, session: Side, view: Side)
    requires Labelled(b, view)
    requires PlayerMove(b, from, to, false, session, view).sent.Some?
    ensures OnBoard(from) && OnBoard(to)
    ensures var m := PlayerMove(b, from, to, false, session, view).sent.value;
      RankFileIsEqual(m.from, SquareRankFile(view, from)) && m.to == SquareRankFile(view, to)
  {
    TryMoveRejects(b, from, to, false, false, session, view);
    IndexRoundTrip(from);
    assert At(b, from) == b.cells[IndexOf(from)];
  }
}
