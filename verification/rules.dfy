/**
 * The rules engine of components/Chess.js: en-passant recognition, check
 * detection and move application with its clone-and-simulate legality probe.
 * `session` is the side of the player running this client (sessionPlayer.side)
 * and `view` the side the board is drawn for (board.info.boardSide).
 */
module Rules {
  import opened Wrappers
  import opened Objects
  import opened Pieces
  import opened Boards
  import opened Moves

  // ---------------------------------------------------------------- en passant

  /** How many recorded capturers carry the rank/file rf (the length of the source's filter). */
  function CountMatching(cs: seq<RankFile>, rf: RankFile): (n: nat)
    ensures n <= |cs|
  {
    if cs == [] then 0
    else (if RankFileIsEqual(cs[0], rf) then 1 else 0) + CountMatching(cs[1..], rf)
  }

  lemma {:induction false} CountMatchingPositive(cs: seq<RankFile>, rf: RankFile)
    ensures CountMatching(cs, rf) > 0 <==> exists k :: 0 <= k < |cs| && RankFileIsEqual(cs[k], rf)
  {
    if cs != [] {
      CountMatchingPositive(cs[1..], rf);
      if CountMatching(cs[1..], rf) > 0 {
        var k :| 0 <= k < |cs[1..]| && RankFileIsEqual(cs[1..][k], rf);
        assert RankFileIsEqual(cs[k + 1], rf);
      }
      if exists k :: 0 <= k < |cs| && RankFileIsEqual(cs[k], rf) {
        var k :| 0 <= k < |cs| && RankFileIsEqual(cs[k], rf);
        if k > 0 {
          assert RankFileIsEqual(cs[1..][k - 1], rf);
        }
      }
    }
  }

  /** isEmpasantMove: a pawn moving onto the recorded target while listed as a capturer. */
  predicate IsEmpasantMove(b: Board, p: Piece, to: Pos)
  {
    b.enPassant.Some? && p.kind == Pawn && to == b.enPassant.value.target
      && CountMatching(b.enPassant.value.capturers, p.rankfile) > 0
  }

  /** Only a pawn listed beside the jumped pawn, moving onto the record's target, captures en passant. */
  lemma IsEmpasantMoveSpec(b: Board, p: Piece, to: Pos)
    ensures IsEmpasantMove(b, p, to) <==>
      && b.enPassant.Some? && p.kind == Pawn && to == b.enPassant.value.target
      && exists k :: 0 <= k < |b.enPassant.value.capturers| && RankFileIsEqual(b.enPassant.value.capturers[k], p.rankfile)
  {
    if b.enPassant.Some? {
      CountMatchingPositive(b.enPassant.value.capturers, p.rankfile);
    }
  }

  /** The rank/files of the enemies directly left and right of q, left first. */
  function Capturers(b: Board, side: Side, q: Pos): (cs: seq<RankFile>)
    ensures |cs| <= 2
    ensures |cs| > 0 <==> HasEnemy(b, side, Pos(q.y, q.x - 1)) || HasEnemy(b, side, Pos(q.y, q.x + 1))
  {
    (if HasEnemy(b, side, Pos(q.y, q.x - 1)) then [At(b, Pos(q.y, q.x - 1)).value.rankfile] else [])
      + (if HasEnemy(b, side, Pos(q.y, q.x + 1)) then [At(b, Pos(q.y, q.x + 1)).value.rankfile] else [])
  }

  function Abs(n: int): nat
  {
    if n < 0 then -n else n
  }

  /** The board once an en-passant capture has removed the jumped pawn; any other move leaves it as it is. */
  function Captured(b: Board, p: Piece, to: Pos): Board
  {
    if IsEmpasantMove(b, p, to) then SetAt(b, b.enPassant.value.enemyAt, None) else b
  }

  /**
   * How the record changes when piece p (already promoted, not yet moved) goes
   * from `from` to `to` and cs are the enemies found beside the landing square:
   * a never-moved pawn jumping two rows with an enemy beside it makes a new
   * record naming its landing square, those enemies, and the row above as the
   * target; any other never-moved pawn move keeps the record as it was; every
   * other move clears it.
   */
  predicate RecordStep(before: Option<EnPassant>, after: Option<EnPassant>, p: Piece, from: Pos, to: Pos, cs: seq<RankFile>)
  {
    && (!(p.kind == Pawn && p.notMoved) ==> after.None?)
    && (p.kind == Pawn && p.notMoved && !(Abs(from.y - to.y) == 2 && |cs| > 0) ==> after == before)
    && (p.kind == Pawn && p.notMoved && Abs(from.y - to.y) == 2 && |cs| > 0 ==>
          after == Some(EnPassant(to, cs, Pos(to.y - 1, to.x))))
  }

  /** The record tryMove leaves after piece p goes from `from` to `to` on board b. */
  function NextEnPassant(b: Board, p: Piece, from: Pos, to: Pos): (e: Option<EnPassant>)
    ensures RecordStep(b.enPassant, e, p, from, to, Capturers(b, p.side, to))
  {
    if p.kind == Pawn && p.notMoved then
      if Abs(from.y - to.y) == 2 && |Capturers(b, p.side, to)| > 0 then
        Some(EnPassant(to, Capturers(b, p.side, to), Pos(to.y - 1, to.x)))
      else b.enPassant
    else None
  }

  /** Boards that agree on every occupant find the same capturers beside any square. */
  lemma CapturersSameOccupants(a: Board, b: Board, side: Side, q: Pos)
    requires SameOccupants(a, b)
    ensures Capturers(a, side, q) == Capturers(b, side, q)
  {
    forall s | OnBoard(s)
      ensures SameOccupant(At(a, s), At(b, s))
    {
      assert SameOccupant(a.cells[IndexOf(s)], b.cells[IndexOf(s)]);
    }
  }

  /** An en-passant capture keeps two boards that agree on every occupant in agreement. */
  lemma CapturedSameOccupants(a: Board, b: Board, p: Piece, to: Pos)
    requires SameOccupants(a, b) && a.enPassant == b.enPassant
    ensures SameOccupants(Captured(a, p, to), Captured(b, p, to))
  {
    if IsEmpasantMove(a, p, to) && OnBoard(a.enPassant.value.enemyAt) {
      var k := IndexOf(a.enPassant.value.enemyAt);
      assert Captured(a, p, to).cells == a.cells[k := None];
      assert Captured(b, p, to).cells == b.cells[k := None];
    }
  }

  /**
   * The record's target is the square the jumping pawn skipped only when the
   * pawn moved toward row 7; for a pawn of the side the board is drawn for,
   * which moves toward row 0, it is the square beyond its landing square.
   */
  lemma EnPassantTargetSkipped(from: Pos, to: Pos)
    requires Abs(from.y - to.y) == 2
    ensures Pos(to.y - 1, to.x) == Pos((from.y + to.y) / 2, to.x) <==> to.y == from.y + 2
  {
  }

  // ---------------------------------------------------------------- check

  /** showPossibleMoves(piece, true) for every piece, storing its lists on it. */
  function Refresh(b: Board, view: Side): (r: Board)
    ensures SameOccupants(r, b) && r.turn == b.turn && r.enPassant == b.enPassant
    ensures forall i :: 0 <= i < 64 && r.cells[i].Some? ==>
      r.cells[i].value.checked == b.cells[i].value.checked
      && r.cells[i].value.enemies == KindMoves(b, view, b.cells[i].value, PosOf(i)).enemies
  {
    b.(cells := seq(64, i requires 0 <= i < 64 =>
      if b.cells[i].Some? then
        var p := b.cells[i].value;
        var g := Generate(b, view, p, PosOf(i));
        Some(p.(moves := g.moves, enemies := g.enemies))
      else None))
  }

  predicate IsKingAt(b: Board, q: Pos)
  {
    At(b, q).Some? && At(b, q).value.kind == King
  }

  /** The first square of es holding a king. */
  function KingIn(b: Board, es: seq<Pos>): (r: Option<nat>)
    ensures r.Some? ==> r.value < |es| && IsKingAt(b, es[r.value])
    ensures r.Some? ==> forall k :: 0 <= k < r.value ==> !IsKingAt(b, es[k])
    ensures r.None? ==> forall k :: 0 <= k < |es| ==> !IsKingAt(b, es[k])
  {
    if es == [] then None
    else if IsKingAt(b, es[0]) then Some(0)
    else
      var rest := KingIn(b, es[1..]);
      if rest.Some? then Some(rest.value + 1) else None
  }

  /** Whether the piece on cell i lists a king among its attacks. */
  predicate AttacksKing(b: Board, i: nat)
    requires i < 64
  {
    b.cells[i].Some? && KingIn(b, b.cells[i].value.enemies).Some?
  }

  /** The row-major scan of isCheck over the attackers, from cell i on. */
  function FirstAttacker(b: Board, i: nat): (r: Option<nat>)
    requires i <= 64
    ensures r.Some? ==> i <= r.value < 64 && AttacksKing(b, r.value)
    ensures r.Some? ==> forall j :: i <= j < r.value ==> !AttacksKing(b, j)
    ensures r.None? ==> forall j :: i <= j < 64 ==> !AttacksKing(b, j)
    decreases 64 - i
  {
    if i == 64 then None
    else if AttacksKing(b, i) then Some(i)
    else FirstAttacker(b, i + 1)
  }

  /** The result of isCheck: the board with refreshed lists, and the king it reports. */
  datatype Check = Check(board: Board, king: Option<Pos>)

  /** A king is attacked when some piece's own generated attacks include its square. */
  ghost predicate KingAttacked(b: Board, view: Side, q: Pos)
  {
    IsKingAt(b, q)
      && exists i :: 0 <= i < 64 && b.cells[i].Some? && q in KindMoves(b, view, b.cells[i].value, PosOf(i)).enemies
  }

  /** Set the checked flag of the piece on cell i, if any. */
  function MarkChecked(b: Board, i: nat): (r: Board)
    requires i < 64
    ensures SameOccupants(r, b) && r.turn == b.turn && r.enPassant == b.enPassant
    ensures forall j :: 0 <= j < 64 && r.cells[j].Some? ==> r.cells[j].value.checked == (b.cells[j].value.checked || j == i)
  {
    b.(cells := seq(64, j requires 0 <= j < 64 =>
      if j == i && b.cells[j].Some? then Some(b.cells[j].value.(checked := true)) else b.cells[j]))
  }

  /**
   * isCheck: regenerate every piece's lists, then report the first king, scanning
   * attackers row by row and each attacker's attacks in order; that king is
   * marked checked.
   */
  function IsCheck(b: Board, view: Side): (r: Check)
    ensures SameOccupants(r.board, b) && r.board.turn == b.turn && r.board.enPassant == b.enPassant
    ensures r.king.Some? ==> OnBoard(r.king.value) && At(r.board, r.king.value).Some?
  {
    var renewed := Refresh(b, view);
    var first := FirstAttacker(renewed, 0);
    if first.Some? then
      var es := renewed.cells[first.value].value.enemies;
      var q := es[KingIn(renewed, es).value];
      Check(MarkChecked(renewed, IndexOf(q)), Some(q))
    else Check(renewed, None)
  }

  /** isCheck sets the checked flag of the king it reports and of no other piece. */
  lemma IsCheckMarks(b: Board, view: Side)
    ensures var r := IsCheck(b, view);
      forall i :: 0 <= i < 64 && r.board.cells[i].Some? ==>
        r.board.cells[i].value.checked == (b.cells[i].value.checked || r.king == Some(PosOf(i)))
    ensures var r := IsCheck(b, view);
      r.king.Some? ==> IsKingAt(r.board, r.king.value) && At(r.board, r.king.value).value.checked
  {
    var r := IsCheck(b, view);
    if r.king.Some? {
      var q := r.king.value;
      IndexRoundTrip(q);
      forall i | 0 <= i < 64
        ensures Some(q) == Some(PosOf(i)) <==> i == IndexOf(q)
      {
      }
    }
  }

  /** Refreshing the lists moves no piece, so the kings stay where they are. */
  lemma RefreshKeepsKings(b: Board, view: Side, q: Pos)
    ensures IsKingAt(Refresh(b, view), q) == IsKingAt(b, q)
  {
    var r := Refresh(b, view);
    if OnBoard(q) {
      assert SameOccupant(r.cells[IndexOf(q)], b.cells[IndexOf(q)]);
    }
  }

  /** The king isCheck reports is attacked. */
  lemma IsCheckReportsAttacked(b: Board, view: Side)
    requires IsCheck(b, view).king.Some?
    ensures KingAttacked(b, view, IsCheck(b, view).king.value)
  {
    var renewed := Refresh(b, view);
    var first := FirstAttacker(renewed, 0).value;
    var es := renewed.cells[first].value.enemies;
    var q := es[KingIn(renewed, es).value];
    assert IsCheck(b, view).king.value == q;
    RefreshKeepsKings(b, view, q);
    assert q in KindMoves(b, view, b.cells[first].value, PosOf(first)).enemies;
  }

  /** When isCheck reports no king, no king is attacked. */
  lemma IsCheckNoneSafe(b: Board, view: Side)
    requires IsCheck(b, view).king.None?
    ensures forall q :: !KingAttacked(b, view, q)
  {
    var renewed := Refresh(b, view);
    assert FirstAttacker(renewed, 0).None?;
    forall q | IsKingAt(b, q)
      ensures !KingAttacked(b, view, q)
    {
      RefreshKeepsKings(b, view, q);
      forall i | 0 <= i < 64 && b.cells[i].Some?
        ensures q !in KindMoves(b, view, b.cells[i].value, PosOf(i)).enemies
      {
        assert !AttacksKing(renewed, i);
        KingInMisses(renewed, renewed.cells[i].value.enemies, q);
      }
    }
  }

  /** A list in which the scan finds no king holds no king's square. */
  lemma KingInMisses(b: Board, es: seq<Pos>, q: Pos)
    requires KingIn(b, es).None? && IsKingAt(b, q)
    ensures q !in es
  {
    forall k | 0 <= k < |es|
      ensures es[k] != q
    {
      assert !IsKingAt(b, es[k]);
    }
  }

  /** isCheck reports a king exactly when some king is attacked, and only an attacked king. */
  lemma IsCheckSpec(b: Board, view: Side)
    ensures IsCheck(b, view).king.Some? ==> KingAttacked(b, view, IsCheck(b, view).king.value)
    ensures IsCheck(b, view).king.None? <==> forall q :: !KingAttacked(b, view, q)
  {
    if IsCheck(b, view).king.Some? {
      IsCheckReportsAttacked(b, view);
    } else {
      IsCheckNoneSafe(b, view);
    }
  }

  // ---------------------------------------------------------------- moving

  /** What tryMove answers, and whether the move reached the placement step. */
  datatype Outcome = Outcome(board: Board, ok: bool, applied: bool)

  /** resetLands: every piece's checked flag is cleared. */
  function ResetChecked(b: Board): (r: Board)
    ensures SameOccupants(r, b) && r.turn == b.turn && r.enPassant == b.enPassant
    ensures forall i :: 0 <= i < 64 && r.cells[i].Some? ==> !r.cells[i].value.checked
  {
    b.(cells := seq(64, i requires 0 <= i < 64 =>
      if b.cells[i].Some? then Some(b.cells[i].value.(checked := false)) else None))
  }

  /** A never-moved king going two columns sideways castles. */
  predicate IsCastle(p: Piece, from: Pos, to: Pos)
  {
    p.kind == King && p.notMoved && to.y == from.y && (to.x == from.x + 2 || to.x == from.x - 2)
  }

  /** The castling rook's square: three right of the king for "K", four left for "Q". */
  function RookCorner(from: Pos, to: Pos): Pos
  {
    if to.x == from.x + 2 then Pos(from.y, from.x + 3) else Pos(from.y, from.x - 4)
  }

  /** Where the castling rook goes: the square the king passes over. */
  function RookTarget(from: Pos, to: Pos): Pos
  {
    if to.x == from.x + 2 then Pos(from.y, from.x + 1) else Pos(from.y, from.x - 1)
  }

  /**
   * Orders the nested tryMove calls: a rook sub-move goes two columns left ("K")
   * or three right ("Q"), and a sub-move three columns right cannot castle again.
   */
  function CastleRank(from: Pos, to: Pos): nat
  {
    if to.y == from.y && to.x == from.x + 3 then 0
    else if to.y == from.y && to.x == from.x - 2 then 1
    else 2
  }

  /** A pawn whose destination square is labelled rank 1 or 8 becomes a queen. */
  function Promoted(p: Piece, view: Side, to: Pos): (q: Piece)
    ensures Bare(q) == Bare(p) || (p.kind == Pawn && q == PromoteTo(p, Queen))
    ensures p.kind == Pawn && (RankOfRow(view, to.y) == 1 || RankOfRow(view, to.y) == 8) ==> q == PromoteTo(p, Queen)
    ensures !(p.kind == Pawn && (RankOfRow(view, to.y) == 1 || RankOfRow(view, to.y) == 8)) ==> q == p
  {
    if p.kind == Pawn && (RankOfRow(view, to.y) == 1 || RankOfRow(view, to.y) == 8) then PromoteTo(p, Queen) else p
  }

  /** The moving piece as it stands on its destination. */
  function Landed(p: Piece, view: Side, to: Pos): (q: Piece)
    requires OnBoard(to)
    ensures q.kind == p.kind && q.side == p.side && !q.notMoved
    ensures q.positionIndex == Some(to) && q.rankfile == SquareRankFile(view, to)
  {
    p.(positionIndex := Some(to), rankfile := SquareRankFile(view, to), notMoved := false, checked := false)
  }

  /** showPossibleMoves(piece, false): the mover's lists are generated and stored on it. */
  function StoreLists(b: Board, view: Side, from: Pos): (r: Board)
    requires At(b, from).Some?
    ensures SameOccupants(r, b) && r.turn == b.turn && r.enPassant == b.enPassant
  {
    var p := At(b, from).value;
    var g := Generate(b, view, p, from);
    var r := SetAt(b, from, Some(p.(moves := g.moves, enemies := g.enemies)));
    assert forall i :: 0 <= i < 64 && i != IndexOf(from) ==> r.cells[i] == b.cells[i];
    r
  }

  /**
   * The rest of an accepted tryMove once the castling rook has moved: the
   * en-passant capture, promotion, the record, resetLands, and the landing.
   */
  function Finish(b: Board, p: Piece, from: Pos, to: Pos, view: Side): (r: Board)
    requires OnBoard(from) && OnBoard(to) && from != to
    ensures r.turn == b.turn
    ensures At(r, from).None? && At(r, to) == Some(Landed(Promoted(p, view, to), view, to))
    ensures forall s :: s != from && s != to && !(IsEmpasantMove(b, p, to) && s == b.enPassant.value.enemyAt) ==>
      SameOccupant(At(r, s), At(b, s))
    ensures IsEmpasantMove(b, p, to) && b.enPassant.value.enemyAt != to ==> At(r, b.enPassant.value.enemyAt).None?
    ensures forall i :: 0 <= i < 64 && r.cells[i].Some? ==> !r.cells[i].value.checked
    ensures RecordStep(b.enPassant, r.enPassant, Promoted(p, view, to), from, to, Capturers(Captured(b, p, to), p.side, to))
  {
    var b3 := Captured(b, p, to);
    var p3 := Promoted(p, view, to);
    var b4 := ResetChecked(b3.(enPassant := NextEnPassant(b3, p3, from, to)));
    SetAt(SetAt(b4, to, Some(Landed(p3, view, to))), from, None)
  }

  /** The landing keeps every piece's positionIndex on its own square. */
  lemma FinishSynced(b: Board, p: Piece, from: Pos, to: Pos, view: Side)
    requires OnBoard(from) && OnBoard(to) && from != to && Synced(b)
    ensures Synced(Finish(b, p, from, to, view))
  {
    var b3 := Captured(b, p, to);
    var p3 := Promoted(p, view, to);
    var b3e := b3.(enPassant := NextEnPassant(b3, p3, from, to));
    var b4 := ResetChecked(b3e);
    var r := Finish(b, p, from, to, view);
    forall i | 0 <= i < 64 && b3e.cells[i].Some?
      ensures b3e.cells[i].value.positionIndex == Some(PosOf(i))
    {
      IndexRoundTrip(PosOf(i));
      assert At(b3, PosOf(i)) == b3.cells[i];
    }
    SyncedSameOccupants(b4, b3e);
    forall i | 0 <= i < 64 && r.cells[i].Some?
      ensures r.cells[i].value.positionIndex == Some(PosOf(i))
    {
      IndexRoundTrip(PosOf(i));
      assert At(r, PosOf(i)) == r.cells[i];
      assert At(b4, PosOf(i)) == b4.cells[i];
    }
  }

  /**
   * tryMove(piece at `from`, square at `to`). `background` is the probe run on a
   * copy of the board; `remote` is a move received from the opponent
   * (fromEnemySocket). A local move is refused when it is not this client's
   * turn; a real move is refused when its probe on a copy is refused; the move
   * must be in the piece's freshly generated list and leave its square. Then the
   * castling rook is moved, an en-passant capture removes the jumped pawn, a pawn
   * is promoted, the record is updated, checked flags are cleared, the piece
   * lands, and isCheck runs. The probe accepts unless isCheck reports a king of
   * the side to move.
   */
  function TryMove(b: Board, from: Pos, to: Pos, background: bool, remote: bool, session: Side, view: Side): (r: Outcome)
    ensures r.board.turn == b.turn
    ensures r.ok ==> r.applied
    ensures !background ==> r.ok == r.applied
    ensures !r.applied ==> SameOccupants(r.board, b)
    decreases CastleRank(from, to), if background then 1 else 2
  {
    if !OnBoard(from) || !OnBoard(to) || At(b, from).None? then Outcome(b, false, false)
    else if !remote && session != b.turn then Outcome(b, false, false)
    else if !background && !TryMove(b, from, to, true, remote, session, view).ok then Outcome(b, false, false)
    else
      var p := At(b, from).value;
      var b1 := StoreLists(b, view, from);
      if to !in Generate(b, view, p, from).moves || from == to then Outcome(b1, false, false)
      else
        Complete(Staged(b, from, to, session, view), p, from, to, background, view)
  }

  /**
   * The end of an applied move: the piece lands (Finish), isCheck runs, and the
   * probe accepts unless the king isCheck reports belongs to the side to move.
   */
  function Complete(b: Board, p: Piece, from: Pos, to: Pos, background: bool, view: Side): (r: Outcome)
    requires OnBoard(from) && OnBoard(to) && from != to
    ensures r.applied && r.board.turn == b.turn && (!background ==> r.ok)
    ensures At(r.board, from).None? && At(r.board, to).Some?
    ensures Bare(At(r.board, to).value) == Bare(Landed(Promoted(p, view, to), view, to))
  {
    var c := IsCheck(Finish(b, p, from, to, view), view);
    Outcome(c.board, !background || c.king.None? || At(c.board, c.king.value).value.side != b.turn, true)
  }

  /**
   * The board a move works on before the piece lands: the piece's lists are
   * stored, and for castling the rook's sub-move runs, a real, local tryMove
   * from the corner to the square the king passes over. When the corner is off
   * the grid the source fails reading it; the model leaves the board as it is.
   */
  function Staged(b: Board, from: Pos, to: Pos, session: Side, view: Side): (r: Board)
    requires At(b, from).Some?
    ensures r.turn == b.turn
    ensures !IsCastle(At(b, from).value, from, to) ==> SameOccupants(r, b) && r.enPassant == b.enPassant
    decreases CastleRank(from, to), 0
  {
    var b1 := StoreLists(b, view, from);
    if IsCastle(At(b, from).value, from, to) && OnBoard(RookCorner(from, to)) then
      TryMove(b1, RookCorner(from, to), RookTarget(from, to), false, false, session, view).board
    else b1
  }

  /** tryMoveInBackground: the probe on a copy of the board, as a move received from the opponent. */
  function TryMoveInBackground(b: Board, from: Pos, to: Pos, session: Side, view: Side): bool
  {
    TryMove(b, from, to, true, true, session, view).ok
  }

  // ---------------------------------------------------------------- properties of tryMove

  /**
   * A move is applied only when the piece exists, the local-turn gate passes,
   * the probe on a copy accepts (for a real move), the destination is in the
   * piece's generated list and differs from its square; missing pieces, squares
   * off the grid and local moves out of turn leave the board untouched.
   */
  lemma TryMoveRejects(b: Board, from: Pos, to: Pos, background: bool, remote: bool, session: Side, view: Side)
    ensures var r := TryMove(b, from, to, background, remote, session, view);
      r.applied ==>
        && (remote || session == b.turn)
        && (background || TryMove(b, from, to, true, remote, session, view).ok)
        && to in Generate(b, view, At(b, from).value, from).moves && to != from
    ensures !OnBoard(from) || !OnBoard(to) || At(b, from).None? || (!remote && session != b.turn) ==>
      TryMove(b, from, to, background, remote, session, view) == Outcome(b, false, false)
  {
  }

  /** An applied move is Complete run on the board after the castling rook's sub-move. */
  lemma TryMoveApplied(b: Board, from: Pos, to: Pos, background: bool, remote: bool, session: Side, view: Side)
    requires TryMove(b, from, to, background, remote, session, view).applied
    ensures OnBoard(from) && OnBoard(to) && from != to && At(b, from).Some?
    ensures TryMove(b, from, to, background, remote, session, view)
      == Complete(Staged(b, from, to, session, view), At(b, from).value, from, to, background, view)
  {
  }

  /** An applied move empties its square and lands the (possibly promoted) piece on the destination. */
  lemma TryMoveLands(b: Board, from: Pos, to: Pos, background: bool, remote: bool, session: Side, view: Side)
    requires TryMove(b, from, to, background, remote, session, view).applied
    ensures OnBoard(from) && OnBoard(to) && from != to && At(b, from).Some?
    ensures var r := TryMove(b, from, to, background, remote, session, view);
      && At(r.board, from).None? && At(r.board, to).Some?
      && Bare(At(r.board, to).value) == Bare(Landed(Promoted(At(b, from).value, view, to), view, to))
  {
    TryMoveApplied(b, from, to, background, remote, session, view);
  }

  /** Complete changes no occupant off its two squares and the square of a pawn captured en passant. */
  lemma CompleteFrame(b: Board, p: Piece, from: Pos, to: Pos, background: bool, view: Side, s: Pos)
    requires OnBoard(from) && OnBoard(to) && from != to
    requires s != from && s != to && !(IsEmpasantMove(b, p, to) && s == b.enPassant.value.enemyAt)
    ensures SameOccupant(At(Complete(b, p, from, to, background, view).board, s), At(b, s))
  {
    var b5 := Finish(b, p, from, to, view);
    assert SameOccupant(At(IsCheck(b5, view).board, s), At(b5, s));
  }

  /** An en-passant capture empties the jumped pawn's square. */
  lemma CompleteCaptures(b: Board, p: Piece, from: Pos, to: Pos, background: bool, view: Side)
    requires OnBoard(from) && OnBoard(to) && from != to
    requires IsEmpasantMove(b, p, to) && b.enPassant.value.enemyAt != to
    ensures At(Complete(b, p, from, to, background, view).board, b.enPassant.value.enemyAt).None?
  {
    var b5 := Finish(b, p, from, to, view);
    var e := b.enPassant.value.enemyAt;
    assert At(b5, e).None?;
    if OnBoard(e) {
      assert IsCheck(b5, view).board.cells[IndexOf(e)].None?;
    }
  }

  /**
   * Outside castling, an applied move changes no occupant except on its own two
   * squares and, for an en-passant capture, the captured pawn's square, which
   * it empties.
   */
  lemma TryMoveFrame(b: Board, from: Pos, to: Pos, background: bool, remote: bool, session: Side, view: Side)
    requires TryMove(b, from, to, background, remote, session, view).applied
    requires !IsCastle(At(b, from).value, from, to)
    ensures var r := TryMove(b, from, to, background, remote, session, view); var p := At(b, from).value;
      forall s :: OnBoard(s) && s != from && s != to && !(IsEmpasantMove(b, p, to) && s == b.enPassant.value.enemyAt) ==>
        SameOccupant(At(r.board, s), At(b, s))
    ensures var r := TryMove(b, from, to, background, remote, session, view); var p := At(b, from).value;
      IsEmpasantMove(b, p, to) && b.enPassant.value.enemyAt != to ==> At(r.board, b.enPassant.value.enemyAt).None?
  {
    TryMoveApplied(b, from, to, background, remote, session, view);
    var p := At(b, from).value;
    var b2 := Staged(b, from, to, session, view);
    assert IsEmpasantMove(b2, p, to) == IsEmpasantMove(b, p, to);
    forall s | OnBoard(s) && s != from && s != to && !(IsEmpasantMove(b, p, to) && s == b.enPassant.value.enemyAt)
      ensures SameOccupant(At(Complete(b2, p, from, to, background, view).board, s), At(b, s))
    {
      CompleteFrame(b2, p, from, to, background, view, s);
      assert SameOccupant(At(b2, s), At(b, s));
    }
    if IsEmpasantMove(b, p, to) && b.enPassant.value.enemyAt != to {
      CompleteCaptures(b2, p, from, to, background, view);
    }
  }

  /** Complete updates the en-passant record as RecordStep says, with the enemies beside the landing square. */
  lemma CompleteRecord(b: Board, p: Piece, from: Pos, to: Pos, background: bool, view: Side)
    requires OnBoard(from) && OnBoard(to) && from != to
    ensures RecordStep(b.enPassant, Complete(b, p, from, to, background, view).board.enPassant, Promoted(p, view, to), from, to,
      Capturers(Captured(b, p, to), p.side, to))
  {
    var b5 := Finish(b, p, from, to, view);
    assert IsCheck(b5, view).board.enPassant == b5.enPassant;
  }

  /**
   * Every applied move updates the en-passant record as RecordStep says, with
   * the enemies found beside the landing square once an en-passant capture
   * has been taken off the board; castling included.
   */
  lemma TryMoveRecord(b: Board, from: Pos, to: Pos, background: bool, remote: bool, session: Side, view: Side)
    requires TryMove(b, from, to, background, remote, session, view).applied
    ensures var p := At(b, from).value;
      RecordStep(b.enPassant, TryMove(b, from, to, background, remote, session, view).board.enPassant,
        Promoted(p, view, to), from, to, Capturers(Captured(b, p, to), p.side, to))
  {
    TryMoveApplied(b, from, to, background, remote, session, view);
    var p := At(b, from).value;
    var b2 := Staged(b, from, to, session, view);
    CompleteRecord(b2, p, from, to, background, view);
    if p.kind == Pawn {
      CapturedSameOccupants(b2, b, p, to);
      CapturersSameOccupants(Captured(b2, p, to), Captured(b, p, to), p.side, to);
    }
  }

  /** Complete keeps each piece's positionIndex on its own square. */
  lemma CompleteSynced(b: Board, p: Piece, from: Pos, to: Pos, background: bool, view: Side)
    requires OnBoard(from) && OnBoard(to) && from != to && Synced(b)
    ensures Synced(Complete(b, p, from, to, background, view).board)
  {
    var b5 := Finish(b, p, from, to, view);
    FinishSynced(b, p, from, to, view);
    SyncedSameOccupants(IsCheck(b5, view).board, b5);
  }

  /** Every move, the castling rook's included, keeps each piece's positionIndex on its own square. */
  lemma {:induction false} TryMoveSynced(b: Board, from: Pos, to: Pos, background: bool, remote: bool, session: Side, view: Side)
    requires Synced(b)
    ensures Synced(TryMove(b, from, to, background, remote, session, view).board)
    decreases CastleRank(from, to), if background then 1 else 2
  {
    var r := TryMove(b, from, to, background, remote, session, view);
    if r.applied {
      TryMoveApplied(b, from, to, background, remote, session, view);
      StagedSynced(b, from, to, session, view);
      CompleteSynced(Staged(b, from, to, session, view), At(b, from).value, from, to, background, view);
    } else {
      SyncedSameOccupants(r.board, b);
    }
  }

  /** Storing the lists and the castling rook's sub-move keep each piece's positionIndex on its own square. */
  lemma {:induction false} StagedSynced(b: Board, from: Pos, to: Pos, session: Side, view: Side)
    requires At(b, from).Some? && Synced(b)
    ensures Synced(Staged(b, from, to, session, view))
    decreases CastleRank(from, to), 0
  {
    var b1 := StoreLists(b, view, from);
    SyncedSameOccupants(b1, b);
    if IsCastle(At(b, from).value, from, to) && OnBoard(RookCorner(from, to)) {
      TryMoveSynced(b1, RookCorner(from, to), RookTarget(from, to), false, false, session, view);
    }
  }

  /** The landing copies the destination's label onto the piece and leaves every other label alone. */
  lemma FinishLabelled(b: Board, p: Piece, from: Pos, to: Pos, view: Side)
    requires OnBoard(from) && OnBoard(to) && from != to && Labelled(b, view)
    ensures Labelled(Finish(b, p, from, to, view), view)
  {
    var b3 := Captured(b, p, to);
    var p3 := Promoted(p, view, to);
    var b3e := b3.(enPassant := NextEnPassant(b3, p3, from, to));
    var b4 := ResetChecked(b3e);
    var r := Finish(b, p, from, to, view);
    forall i | 0 <= i < 64 && b3e.cells[i].Some?
      ensures RankFileIsEqual(b3e.cells[i].value.rankfile, SquareRankFile(view, PosOf(i)))
    {
      IndexRoundTrip(PosOf(i));
      assert At(b3, PosOf(i)) == b3.cells[i];
    }
    LabelledSameOccupants(b4, b3e, view);
    forall i | 0 <= i < 64 && r.cells[i].Some?
      ensures RankFileIsEqual(r.cells[i].value.rankfile, SquareRankFile(view, PosOf(i)))
    {
      IndexRoundTrip(PosOf(i));
      assert At(r, PosOf(i)) == r.cells[i];
      assert At(b4, PosOf(i)) == b4.cells[i];
    }
  }

  /** Complete keeps every piece carrying its own square's label. */
  lemma CompleteLabelled(b: Board, p: Piece, from: Pos, to: Pos, background: bool, view: Side)
    requires OnBoard(from) && OnBoard(to) && from != to && Labelled(b, view)
    ensures Labelled(Complete(b, p, from, to, background, view).board, view)
  {
    var b5 := Finish(b, p, from, to, view);
    FinishLabelled(b, p, from, to, view);
    LabelledSameOccupants(IsCheck(b5, view).board, b5, view);
  }

  /** Every move, the castling rook's included, keeps every piece carrying its own square's label. */
  lemma {:induction false} TryMoveLabelled(b: Board, from: Pos, to: Pos, background: bool, remote: bool, session: Side, view: Side)
    requires Labelled(b, view)
    ensures Labelled(TryMove(b, from, to, background, remote, session, view).board, view)
    decreases CastleRank(from, to), if background then 1 else 2
  {
    var r := TryMove(b, from, to, background, remote, session, view);
    if r.applied {
      TryMoveApplied(b, from, to, background, remote, session, view);
      StagedLabelled(b, from, to, session, view);
      CompleteLabelled(Staged(b, from, to, session, view), At(b, from).value, from, to, background, view);
    } else {
      LabelledSameOccupants(r.board, b, view);
    }
  }

  /** Storing the lists and the castling rook's sub-move keep every piece carrying its own square's label. */
  lemma {:induction false} StagedLabelled(b: Board, from: Pos, to: Pos, session: Side, view: Side)
    requires At(b, from).Some? && Labelled(b, view)
    ensures Labelled(Staged(b, from, to, session, view), view)
    decreases CastleRank(from, to), 0
  {
    var b1 := StoreLists(b, view, from);
    LabelledSameOccupants(b1, b, view);
    if IsCastle(At(b, from).value, from, to) && OnBoard(RookCorner(from, to)) {
      TryMoveLabelled(b1, RookCorner(from, to), RookTarget(from, to), false, false, session, view);
    }
  }

  /** Landing depends only on the identity part of a piece. */
  lemma LandedBare(a: Piece, b: Piece, view: Side, to: Pos)
    requires OnBoard(to) && Bare(a) == Bare(b)
    ensures Bare(Landed(Promoted(a, view, to), view, to)) == Bare(Landed(Promoted(b, view, to), view, to))
  {
  }

  /**
   * Castling moves the rook: when the rook's own sub-move goes through, the
   * corner ends empty and the rook stands on the square the king passed over.
   */
  lemma CastleMovesRook(b: Board, from: Pos, to: Pos, background: bool, remote: bool, session: Side, view: Side)
    requires TryMove(b, from, to, background, remote, session, view).applied
    requires IsCastle(At(b, from).value, from, to) && OnBoard(RookCorner(from, to))
    requires TryMove(StoreLists(b, view, from), RookCorner(from, to), RookTarget(from, to), false, false, session, view).applied
    ensures var r := TryMove(b, from, to, background, remote, session, view);
      && At(r.board, RookCorner(from, to)).None?
      && At(r.board, RookTarget(from, to)).Some?
      && Bare(At(r.board, RookTarget(from, to)).value)
         == Bare(Landed(Promoted(At(b, RookCorner(from, to)).value, view, RookTarget(from, to)), view, RookTarget(from, to)))
  {
    TryMoveApplied(b, from, to, background, remote, session, view);
    var p := At(b, from).value;
    var b1 := StoreLists(b, view, from);
    var corner, target := RookCorner(from, to), RookTarget(from, to);
    var b2 := Staged(b, from, to, session, view);
    TryMoveLands(b1, corner, target, false, false, session, view);
    assert b2 == TryMove(b1, corner, target, false, false, session, view).board;
    assert !IsEmpasantMove(b2, p, to);
    CompleteFrame(b2, p, from, to, background, view, corner);
    CompleteFrame(b2, p, from, to, background, view, target);
    assert SameOccupant(At(b1, corner), At(b, corner));
    LandedBare(At(b1, corner).value, At(b, corner).value, view, target);
  }

  /**
   * The rook's sub-move is a local move, so on the client receiving the
   * opponent's castling (this client's side is not the side to move) it is
   * refused and the rook stays where it was.
   */
  lemma OutOfTurnCastleLeavesRook(b: Board, from: Pos, to: Pos, background: bool, session: Side, view: Side)
    requires TryMove(b, from, to, background, true, session, view).applied
    requires IsCastle(At(b, from).value, from, to) && session != b.turn
    ensures var r := TryMove(b, from, to, background, true, session, view);
      && SameOccupant(At(r.board, RookCorner(from, to)), At(b, RookCorner(from, to)))
      && SameOccupant(At(r.board, RookTarget(from, to)), At(b, RookTarget(from, to)))
  {
    TryMoveApplied(b, from, to, background, true, session, view);
    var p := At(b, from).value;
    var b1 := StoreLists(b, view, from);
    var corner, target := RookCorner(from, to), RookTarget(from, to);
    if OnBoard(corner) {
      TryMoveRejects(b1, corner, target, false, false, session, view);
    }
    assert Staged(b, from, to, session, view) == b1;
    CompleteFrame(b1, p, from, to, background, view, corner);
    CompleteFrame(b1, p, from, to, background, view, target);
    assert SameOccupant(At(b1, corner), At(b, corner));
    assert SameOccupant(At(b1, target), At(b, target));
  }

  /**
   * Castling changes no occupant off its four squares: the king's, its
   * destination, the rook's corner and the square the king passes over. This
   * holds when the corner piece's own sub-move is a plain move, which is the
   * case for the rook isKingCanCastle looks for (a king on the corner could
   * castle again, a pawn could capture en passant).
   */
  lemma CastleFrame(b: Board, from: Pos, to: Pos, background: bool, remote: bool, session: Side, view: Side, s: Pos)
    requires TryMove(b, from, to, background, remote, session, view).applied
    requires IsCastle(At(b, from).value, from, to)
    requires At(b, RookCorner(from, to)).Some? ==>
      At(b, RookCorner(from, to)).value.kind != King && At(b, RookCorner(from, to)).value.kind != Pawn
    requires OnBoard(s) && s != from && s != to && s != RookCorner(from, to) && s != RookTarget(from, to)
    ensures SameOccupant(At(TryMove(b, from, to, background, remote, session, view).board, s), At(b, s))
  {
    TryMoveApplied(b, from, to, background, remote, session, view);
    var p := At(b, from).value;
    var b1 := StoreLists(b, view, from);
    var corner, target := RookCorner(from, to), RookTarget(from, to);
    var b2 := Staged(b, from, to, session, view);
    assert SameOccupant(At(b1, s), At(b, s)) by {
      assert SameOccupant(b1.cells[IndexOf(s)], b.cells[IndexOf(s)]);
    }
    if OnBoard(corner) {
      var sub := TryMove(b1, corner, target, false, false, session, view);
      assert b2 == sub.board;
      if sub.applied {
        assert SameOccupant(b1.cells[IndexOf(corner)], b.cells[IndexOf(corner)]);
        TryMoveFrame(b1, corner, target, false, false, session, view);
      } else {
        assert SameOccupant(sub.board.cells[IndexOf(s)], b1.cells[IndexOf(s)]);
      }
    }
    assert SameOccupant(At(b2, s), At(b1, s));
    CompleteFrame(b2, p, from, to, background, view, s);
  }

  /** A king of the given side marked as checked on cell i. */
  predicate CheckedKing(b: Board, i: nat, side: Side)
    requires i < 64
  {
    b.cells[i].Some? && b.cells[i].value.kind == King && b.cells[i].value.checked && b.cells[i].value.side == side
  }

  /** No king of the side is marked as checked. */
  predicate NoCheckedKing(b: Board, side: Side)
  {
    forall i :: 0 <= i < 64 ==> !CheckedKing(b, i, side)
  }

  /**
   * On a board with no piece marked, the king isCheck reports has the given
   * side exactly when afterwards some king of that side is marked checked.
   */
  lemma IsCheckVerdict(b: Board, view: Side, side: Side)
    requires forall i :: 0 <= i < 64 && b.cells[i].Some? ==> !b.cells[i].value.checked
    ensures var c := IsCheck(b, view);
      (c.king.Some? && At(c.board, c.king.value).value.side == side) <==> exists i :: 0 <= i < 64 && CheckedKing(c.board, i, side)
  {
    var c := IsCheck(b, view);
    IsCheckMarks(b, view);
    if c.king.Some? {
      var q := c.king.value;
      IndexRoundTrip(q);
      if At(c.board, q).value.side == side {
        assert CheckedKing(c.board, IndexOf(q), side);
      }
    }
  }

  /** The probe's verdict in Complete: no king of the side to move is left marked as checked. */
  lemma CompleteProbe(b: Board, p: Piece, from: Pos, to: Pos, view: Side)
    requires OnBoard(from) && OnBoard(to) && from != to
    ensures var r := Complete(b, p, from, to, true, view);
      r.ok <==> NoCheckedKing(r.board, b.turn)
  {
    IsCheckVerdict(Finish(b, p, from, to, view), view, b.turn);
  }

  /**
   * The probe on a copy accepts exactly when the move applies and leaves no king
   * of the side to move marked as checked.
   */
  lemma TryMoveProbe(b: Board, from: Pos, to: Pos, remote: bool, session: Side, view: Side)
    ensures var r := TryMove(b, from, to, true, remote, session, view);
      r.ok <==> r.applied && NoCheckedKing(r.board, b.turn)
  {
    var r := TryMove(b, from, to, true, remote, session, view);
    if r.applied {
      TryMoveApplied(b, from, to, true, remote, session, view);
      CompleteProbe(Staged(b, from, to, session, view), At(b, from).value, from, to, view);
    }
  }
}
