/**
 * Pseudo-legal move generation of components/Chess.js: squareHasPiece,
 * squareHasEnemy, loopMove, isKingCanCastle and showPossibleMoves. Generation
 * reads the board only; storing the lists on the piece is left to the caller.
 * The piece's square is passed as `at`, and the board's orientation as `view`.
 */
module Moves {
  import opened Wrappers
  import opened Objects
  import opened Pieces
  import opened Boards

  /** The two lists showPossibleMoves builds: candidate squares and attacked enemy squares. */
  datatype Lists = Lists(moves: seq<Pos>, enemies: seq<Pos>)

  /** squareHasPiece: a square off the grid counts as occupied. */
  predicate Blocked(b: Board, q: Pos)
  {
    !OnBoard(q) || At(b, q).Some?
  }

  /** squareHasEnemy: an on-board square holding a piece of the other side. */
  predicate HasEnemy(b: Board, side: Side, q: Pos)
  {
    At(b, q).Some? && At(b, q).value.side != side
  }

  /** squareHasEnemy never reports a square off the grid. */
  lemma HasEnemyOnBoard(b: Board, side: Side, q: Pos)
    ensures HasEnemy(b, side, q) ==> OnBoard(q) && Blocked(b, q)
  {
  }

  function Step(q: Pos, d: Direction): Pos
  {
    Pos(q.y + d.Dy(), q.x + d.Dx())
  }

  /** The square k steps from q along d. */
  function Walk(q: Pos, d: Direction, k: nat): Pos
    decreases k
  {
    if k == 0 then q else Walk(Step(q, d), d, k - 1)
  }

  /** Squares left before a sliding walk along d from q leaves the grid. */
  function Reach(q: Pos, d: Direction): int
  {
    if d.Dy() == 1 then 8 - q.y
    else if d.Dy() == -1 then q.y + 1
    else if d.Dx() == 1 then 8 - q.x
    else q.x + 1
  }

  /**
   * One probe of squareHasPiece as the king and knight use it: an empty square
   * is a move; an enemy square is a move, and an attack when `attacks` is set.
   */
  function Probe(b: Board, side: Side, q: Pos, attacks: bool): (r: Lists)
    ensures !Blocked(b, q) ==> r == Lists([q], [])
    ensures HasEnemy(b, side, q) ==> r == Lists([q], if attacks then [q] else [])
    ensures Blocked(b, q) && !HasEnemy(b, side, q) ==> r == Lists([], [])
  {
    if !Blocked(b, q) then Lists([q], [])
    else if HasEnemy(b, side, q) then Lists([q], if attacks then [q] else [])
    else Lists([], [])
  }

  /**
   * The sliding half of loopMove, starting at the first square q beyond the piece:
   * empty squares are collected up to the first occupied or off-grid square,
   * which is collected (as a move and an attack) only when it holds an enemy.
   */
  function Ray(b: Board, side: Side, q: Pos, d: Direction): Lists
    requires !d.IsKnight()
    decreases Reach(q, d)
  {
    if !Blocked(b, q) then
      var rest := Ray(b, side, Step(q, d), d);
      Lists([q] + rest.moves, rest.enemies)
    else if HasEnemy(b, side, q) then Lists([q], [q])
    else Lists([], [])
  }

  /** A ray holds at most one attack, its last square. */
  lemma {:induction false} RayShape(b: Board, side: Side, q: Pos, d: Direction)
    requires !d.IsKnight()
    ensures var r := Ray(b, side, q, d);
      |r.enemies| <= 1 && |r.enemies| <= |r.moves| && (r.enemies == [] || r.enemies == [r.moves[|r.moves| - 1]])
    decreases Reach(q, d)
  {
    if !Blocked(b, q) {
      RayShape(b, side, Step(q, d), d);
    }
  }

  /** The k-th square of a ray is k steps along d from its first square. */
  lemma {:induction false} RayWalks(b: Board, side: Side, q: Pos, d: Direction)
    requires !d.IsKnight()
    ensures var r := Ray(b, side, q, d); forall k :: 0 <= k < |r.moves| ==> r.moves[k] == Walk(q, d, k)
    decreases Reach(q, d)
  {
    if !Blocked(b, q) {
      RayWalks(b, side, Step(q, d), d);
      var rest := Ray(b, side, Step(q, d), d);
      var r := Ray(b, side, q, d);
      assert r.moves == [q] + rest.moves;
      forall k | 0 < k < |r.moves|
        ensures r.moves[k] == Walk(q, d, k)
      {
        assert r.moves[k] == rest.moves[k - 1];
      }
    }
  }

  /** The ray's empty squares come first; the square after them is blocked and is an attack iff it holds an enemy. */
  lemma {:induction false} RayStops(b: Board, side: Side, q: Pos, d: Direction)
    requires !d.IsKnight()
    ensures var r := Ray(b, side, q, d); var n := |r.moves| - |r.enemies|;
      && n >= 0
      && (forall k :: 0 <= k < n ==> !Blocked(b, Walk(q, d, k)))
      && Blocked(b, Walk(q, d, n))
      && (|r.enemies| == 1 <==> HasEnemy(b, side, Walk(q, d, n)))
    decreases Reach(q, d)
  {
    if !Blocked(b, q) {
      RayStops(b, side, Step(q, d), d);
      var rest := Ray(b, side, Step(q, d), d);
      var n := |rest.moves| - |rest.enemies|;
      assert Walk(q, d, n + 1) == Walk(Step(q, d), d, n);
      forall k | 0 < k < n + 1
        ensures !Blocked(b, Walk(q, d, k))
      {
        assert Walk(q, d, k) == Walk(Step(q, d), d, k - 1);
      }
    }
  }

  /**
   * A ray is the walk along d up to its first blocked square: every square
   * before that one is empty, and the blocked square ends the ray as its only
   * attack exactly when it holds an enemy.
   */
  lemma RaySpec(b: Board, side: Side, q: Pos, d: Direction)
    requires !d.IsKnight()
    ensures var r := Ray(b, side, q, d); var n := |r.moves| - |r.enemies|;
      && |r.enemies| <= 1 && n >= 0
      && (forall k :: 0 <= k < |r.moves| ==> r.moves[k] == Walk(q, d, k))
      && (forall k :: 0 <= k < n ==> !Blocked(b, Walk(q, d, k)))
      && Blocked(b, Walk(q, d, n))
      && (|r.enemies| == 1 <==> HasEnemy(b, side, Walk(q, d, n)))
      && (r.enemies == [] || r.enemies == [Walk(q, d, n)])
  {
    RayShape(b, side, q, d);
    RayWalks(b, side, q, d);
    RayStops(b, side, q, d);
  }

  /** loopMove: a knight direction probes one square, any other direction slides. */
  function LoopMove(b: Board, side: Side, at: Pos, d: Direction): Lists
  {
    if d.IsKnight() then Probe(b, side, Step(at, d), true)
    else Ray(b, side, Step(at, d), d)
  }

  /** Successive loopMove calls appending to the same two lists. */
  function LoopMoves(b: Board, side: Side, at: Pos, ds: seq<Direction>): Lists
  {
    if ds == [] then Lists([], [])
    else
      var first := LoopMove(b, side, at, ds[0]);
      var rest := LoopMoves(b, side, at, ds[1..]);
      Lists(first.moves + rest.moves, first.enemies + rest.enemies)
  }

  function RookDirections(): seq<Direction> { [Up, Down, Left, Right] }
  function BishopDirections(): seq<Direction> { [UpLeft, UpRight, DownLeft, DownRight] }
  function KnightDirections(): seq<Direction>
  {
    [KnightTopLeft, KnightTopRight, KnightTopLeftMiddle, KnightTopRightMiddle,
     KnightBottomLeft, KnightBottomRight, KnightBottomLeftMiddle, KnightBottomRightMiddle]
  }

  // ---------------------------------------------------------------- king

  /** The nine squares the king probes, in the source's order; the last is its own square. */
  function KingOffsets(): seq<(int, int)>
  {
    [(-1, -1), (-1, 1), (-1, 0), (1, -1), (1, 1), (1, 0), (0, -1), (0, 1), (0, 0)]
  }

  function KingProbes(b: Board, side: Side, at: Pos, offs: seq<(int, int)>): Lists
  {
    if offs == [] then Lists([], [])
    else
      var first := Probe(b, side, Pos(at.y + offs[0].0, at.x + offs[0].1), false);
      var rest := KingProbes(b, side, at, offs[1..]);
      Lists(first.moves + rest.moves, first.enemies + rest.enemies)
  }

  /** The answer of isKingCanCastle: no castle, or the side ("K" or "Q") it found. */
  datatype Castle = NoCastle | KingSide | QueenSide

  predicate RookAt(b: Board, q: Pos)
  {
    At(b, q).Some? && At(b, q).value.kind == Rook
  }

  /**
   * isKingCanCastle for the piece p standing at `at`. Only the kind of the corner
   * piece is checked, not its side or history. A king that has not moved but
   * stands outside columns 3..5 makes the source read a square off the grid;
   * the model answers NoCastle there.
   */
  function CanCastle(b: Board, p: Piece, at: Pos): (r: Castle)
    ensures r == KingSide ==> RookAt(b, Pos(at.y, at.x + 3))
    ensures r == QueenSide ==> RookAt(b, Pos(at.y, at.x - 4))
  {
    if !p.notMoved || p.kind != King || p.checked then NoCastle
    else if !OnBoard(Pos(at.y, at.x + 3)) && !OnBoard(Pos(at.y, at.x - 4)) then NoCastle
    else if !(0 <= at.y < 8 && 3 <= at.x <= 5) then NoCastle
    else
      var k := RookAt(b, Pos(at.y, at.x + 3))
        && At(b, Pos(at.y, at.x + 1)).None? && At(b, Pos(at.y, at.x + 2)).None?;
      var q := RookAt(b, Pos(at.y, at.x - 4))
        && At(b, Pos(at.y, at.x - 1)).None? && At(b, Pos(at.y, at.x - 2)).None?
        && At(b, Pos(at.y, at.x - 3)).None?;
      if k then KingSide else if q then QueenSide else NoCastle
  }

  /**
   * Castling is offered only to an unmoved, unchecked king; king side is offered
   * exactly when a rook stands three columns right with the two squares between
   * empty, and queen side otherwise exactly when a rook stands four columns left
   * with the three squares between empty.
   */
  lemma CanCastleSpec(b: Board, p: Piece, at: Pos)
    requires 0 <= at.y < 8 && 3 <= at.x <= 5
    ensures !p.notMoved || p.kind != King || p.checked ==> CanCastle(b, p, at) == NoCastle
    ensures p.notMoved && p.kind == King && !p.checked ==>
      var k := RookAt(b, Pos(at.y, at.x + 3)) && !Blocked(b, Pos(at.y, at.x + 1)) && !Blocked(b, Pos(at.y, at.x + 2));
      var q := RookAt(b, Pos(at.y, at.x - 4)) && !Blocked(b, Pos(at.y, at.x - 1))
        && !Blocked(b, Pos(at.y, at.x - 2)) && !Blocked(b, Pos(at.y, at.x - 3));
      && (CanCastle(b, p, at) == KingSide <==> k)
      && (CanCastle(b, p, at) == QueenSide <==> !k && q)
  {
  }

  function KingMoves(b: Board, p: Piece, at: Pos): Lists
  {
    var steps := KingProbes(b, p.side, at, KingOffsets());
    match CanCastle(b, p, at)
    case KingSide => Lists(steps.moves + [Pos(at.y, at.x + 2)], steps.enemies)
    case QueenSide => Lists(steps.moves + [Pos(at.y, at.x - 2)], steps.enemies)
    case NoCastle => steps
  }

  // ---------------------------------------------------------------- pawn

  /** A pawn of the side the board is drawn for moves toward row 0, the other toward row 7. */
  function PawnDirection(view: Side, side: Side): int
  {
    if side == view then -1 else 1
  }

  /** The square one row ahead of the pawn. */
  function Ahead(view: Side, p: Piece, at: Pos): Pos
  {
    Pos(at.y + PawnDirection(view, p.side), at.x)
  }

  /** The square two rows ahead of the pawn. */
  function Jump(view: Side, p: Piece, at: Pos): Pos
  {
    Pos(at.y + PawnDirection(view, p.side) + PawnDirection(view, p.side), at.x)
  }

  /** The forward diagonal on column at.x + dx. */
  function Diagonal(view: Side, p: Piece, at: Pos, dx: int): Pos
  {
    Pos(at.y + PawnDirection(view, p.side), at.x + dx)
  }

  /** The single step needs the square ahead empty and on the grid. */
  predicate CanPush(b: Board, view: Side, p: Piece, at: Pos)
  {
    !Blocked(b, Ahead(view, p, at))
  }

  /** The double step needs an unmoved pawn and both squares ahead empty. */
  predicate CanJump(b: Board, view: Side, p: Piece, at: Pos)
  {
    p.notMoved && CanPush(b, view, p, at) && !Blocked(b, Jump(view, p, at))
  }

  /** A diagonal step needs an enemy on that diagonal. */
  predicate CanTake(b: Board, view: Side, p: Piece, at: Pos, dx: int)
  {
    HasEnemy(b, p.side, Diagonal(view, p, at, dx))
  }

  function PawnMoves(b: Board, view: Side, p: Piece, at: Pos): Lists
  {
    PawnLists(Ahead(view, p, at), Jump(view, p, at), Diagonal(view, p, at, -1), Diagonal(view, p, at, 1),
      CanPush(b, view, p, at), CanJump(b, view, p, at), CanTake(b, view, p, at, -1), CanTake(b, view, p, at, 1))
  }

  /**
   * The pawn's lists from its four candidate squares, each taken when its
   * condition holds: the push, the jump, then the two captures, which are also
   * its attacks.
   */
  function PawnLists(ahead: Pos, jump: Pos, left: Pos, right: Pos, ca: bool, cj: bool, cl: bool, cr: bool): Lists
  {
    var captures := OnlyIf(left, cl) + OnlyIf(right, cr);
    Lists(OnlyIf(ahead, ca) + OnlyIf(jump, cj) + captures, captures)
  }

  /** The one-square list of a pawn step that is taken only when its condition holds. */
  function OnlyIf(q: Pos, c: bool): seq<Pos>
  {
    if c then [q] else []
  }

  /** Each of the four candidate squares is listed exactly when its own condition holds, and nothing else is. */
  lemma StepsMembers(a: Pos, j: Pos, l: Pos, r: Pos, ca: bool, cj: bool, cl: bool, cr: bool, x: Pos)
    ensures x in PawnLists(a, j, l, r, ca, cj, cl, cr).moves <==>
      (x == a && ca) || (x == j && cj) || (x == l && cl) || (x == r && cr)
  {
    assert x in OnlyIf(a, ca) <==> x == a && ca;
    assert x in OnlyIf(j, cj) <==> x == j && cj;
    assert x in OnlyIf(l, cl) <==> x == l && cl;
    assert x in OnlyIf(r, cr) <==> x == r && cr;
  }

  /**
   * When the four candidate squares are pairwise apart, as a pawn's are,
   * each is listed exactly when its own condition holds.
   */
  lemma StepMember(a: Pos, j: Pos, l: Pos, r: Pos, ca: bool, cj: bool, cl: bool, cr: bool, t: Pos)
    requires a.y != j.y && a.x == j.x && a.x != l.x && a.x != r.x && l.x != r.x
    requires t == a || t == j || t == l || t == r
    ensures t in PawnLists(a, j, l, r, ca, cj, cl, cr).moves <==>
      if t == a then ca else if t == j then cj else if t == l then cl else cr
  {
    StepsMembers(a, j, l, r, ca, cj, cl, cr, t);
  }

  /** A pawn's four candidate squares are pairwise apart. */
  lemma PawnSquaresApart(view: Side, p: Piece, at: Pos)
    ensures var a, j := Ahead(view, p, at), Jump(view, p, at);
      var l, r := Diagonal(view, p, at, -1), Diagonal(view, p, at, 1);
      a.y != j.y && a.x == j.x && a.x != l.x && a.x != r.x && l.x != r.x
  {
  }

  /** The squares a pawn is offered: its push, its jump and its two captures, each under its own condition. */
  lemma PawnMovesMembers(b: Board, view: Side, p: Piece, at: Pos, x: Pos)
    ensures x in PawnMoves(b, view, p, at).moves <==>
      || (x == Ahead(view, p, at) && CanPush(b, view, p, at))
      || (x == Jump(view, p, at) && CanJump(b, view, p, at))
      || (x == Diagonal(view, p, at, -1) && CanTake(b, view, p, at, -1))
      || (x == Diagonal(view, p, at, 1) && CanTake(b, view, p, at, 1))
  {
    StepsMembers(Ahead(view, p, at), Jump(view, p, at), Diagonal(view, p, at, -1), Diagonal(view, p, at, 1),
      CanPush(b, view, p, at), CanJump(b, view, p, at), CanTake(b, view, p, at, -1), CanTake(b, view, p, at, 1), x);
  }

  /** A pawn steps one square ahead iff that square is empty. */
  lemma PawnPushSpec(b: Board, view: Side, p: Piece, at: Pos)
    ensures Ahead(view, p, at) in PawnMoves(b, view, p, at).moves <==> CanPush(b, view, p, at)
  {
    PawnSquaresApart(view, p, at);
    StepMember(Ahead(view, p, at), Jump(view, p, at), Diagonal(view, p, at, -1), Diagonal(view, p, at, 1),
      CanPush(b, view, p, at), CanJump(b, view, p, at), CanTake(b, view, p, at, -1), CanTake(b, view, p, at, 1),
      Ahead(view, p, at));
  }

  /** A pawn jumps two squares ahead iff it never moved and both squares are empty. */
  lemma PawnJumpSpec(b: Board, view: Side, p: Piece, at: Pos)
    ensures Jump(view, p, at) in PawnMoves(b, view, p, at).moves <==> CanJump(b, view, p, at)
  {
    PawnSquaresApart(view, p, at);
    StepMember(Ahead(view, p, at), Jump(view, p, at), Diagonal(view, p, at, -1), Diagonal(view, p, at, 1),
      CanPush(b, view, p, at), CanJump(b, view, p, at), CanTake(b, view, p, at, -1), CanTake(b, view, p, at, 1),
      Jump(view, p, at));
  }

  /** A pawn moves to a forward diagonal iff an enemy stands there. */
  lemma PawnCaptureSpec(b: Board, view: Side, p: Piece, at: Pos, dx: int)
    requires dx == -1 || dx == 1
    ensures Diagonal(view, p, at, dx) in PawnMoves(b, view, p, at).moves <==> CanTake(b, view, p, at, dx)
  {
    PawnSquaresApart(view, p, at);
    StepMember(Ahead(view, p, at), Jump(view, p, at), Diagonal(view, p, at, -1), Diagonal(view, p, at, 1),
      CanPush(b, view, p, at), CanJump(b, view, p, at), CanTake(b, view, p, at, -1), CanTake(b, view, p, at, 1),
      Diagonal(view, p, at, dx));
  }

  /** The pawn attacks only its forward diagonals, and every other move of it is straight ahead. */
  lemma PawnMovesShape(b: Board, view: Side, p: Piece, at: Pos)
    ensures var r := PawnMoves(b, view, p, at);
      && (forall q :: q in r.enemies ==> q in r.moves && (q == Diagonal(view, p, at, -1) || q == Diagonal(view, p, at, 1)))
      && (forall q :: q in r.moves && q !in r.enemies ==> q == Ahead(view, p, at) || q == Jump(view, p, at))
  {
    ListsShape(Ahead(view, p, at), Jump(view, p, at), Diagonal(view, p, at, -1), Diagonal(view, p, at, 1),
      CanPush(b, view, p, at), CanJump(b, view, p, at), CanTake(b, view, p, at, -1), CanTake(b, view, p, at, 1));
  }

  /** The attacks are the listed diagonals, and the other moves are the push and the jump. */
  lemma ListsShape(a: Pos, j: Pos, l: Pos, r: Pos, ca: bool, cj: bool, cl: bool, cr: bool)
    ensures var ls := PawnLists(a, j, l, r, ca, cj, cl, cr);
      && (forall q :: q in ls.enemies ==> q in ls.moves && (q == l || q == r))
      && (forall q :: q in ls.moves && q !in ls.enemies ==> q == a || q == j)
  {
    var ls := PawnLists(a, j, l, r, ca, cj, cl, cr);
    forall q | q in ls.moves
      ensures q in ls.enemies <==> (q == l && cl) || (q == r && cr)
      ensures q !in ls.enemies ==> q == a || q == j
    {
      StepsMembers(a, j, l, r, ca, cj, cl, cr, q);
    }
  }

  // ---------------------------------------------------------------- all kinds

  /** The lists of the piece's own kind, before the en-passant target is added. */
  function KindMoves(b: Board, view: Side, p: Piece, at: Pos): Lists
  {
    match p.kind
    case King => KingMoves(b, p, at)
    case Queen => LoopMoves(b, p.side, at, RookDirections() + BishopDirections())
    case Bishop => LoopMoves(b, p.side, at, BishopDirections())
    case Knight => LoopMoves(b, p.side, at, KnightDirections())
    case Rook => LoopMoves(b, p.side, at, RookDirections())
    case Pawn => PawnMoves(b, view, p, at)
  }

  /**
   * showPossibleMoves: the kind's lists, and then, whatever the kind, the
   * en-passant target while a record is set.
   */
  function Generate(b: Board, view: Side, p: Piece, at: Pos): (r: Lists)
    ensures r.enemies == KindMoves(b, view, p, at).enemies
    ensures b.enPassant.None? ==> r.moves == KindMoves(b, view, p, at).moves
    ensures b.enPassant.Some? ==> r.moves == KindMoves(b, view, p, at).moves + [b.enPassant.value.target]
  {
    var own := KindMoves(b, view, p, at);
    if b.enPassant.Some? then Lists(own.moves + [b.enPassant.value.target], own.enemies) else own
  }

  // ---------------------------------------------------------------- soundness

  /** A square a piece of `side` may be offered: on the grid and not held by its own side. */
  predicate Open(b: Board, side: Side, q: Pos)
  {
    OnBoard(q) && !(At(b, q).Some? && At(b, q).value.side == side)
  }

  /** Every move is open and every attack is a move onto an enemy. */
  predicate Sound(b: Board, side: Side, l: Lists)
  {
    && (forall q :: q in l.moves ==> Open(b, side, q))
    && (forall e :: e in l.enemies ==> e in l.moves && HasEnemy(b, side, e))
  }

  lemma SoundConcat(b: Board, side: Side, l1: Lists, l2: Lists)
    requires Sound(b, side, l1) && Sound(b, side, l2)
    ensures Sound(b, side, Lists(l1.moves + l2.moves, l1.enemies + l2.enemies))
  {
  }

  lemma {:induction false} RaySound(b: Board, side: Side, q: Pos, d: Direction)
    requires !d.IsKnight()
    ensures Sound(b, side, Ray(b, side, q, d))
    decreases Reach(q, d)
  {
    if !Blocked(b, q) {
      RaySound(b, side, Step(q, d), d);
      SoundConcat(b, side, Lists([q], []), Ray(b, side, Step(q, d), d));
    }
  }

  lemma {:induction false} LoopMovesSound(b: Board, side: Side, at: Pos, ds: seq<Direction>)
    ensures Sound(b, side, LoopMoves(b, side, at, ds))
  {
    if ds != [] {
      if !ds[0].IsKnight() {
        RaySound(b, side, Step(at, ds[0]), ds[0]);
      }
      LoopMovesSound(b, side, at, ds[1..]);
      SoundConcat(b, side, LoopMove(b, side, at, ds[0]), LoopMoves(b, side, at, ds[1..]));
    }
  }

  lemma {:induction false} KingProbesSound(b: Board, side: Side, at: Pos, offs: seq<(int, int)>)
    ensures Sound(b, side, KingProbes(b, side, at, offs))
    ensures KingProbes(b, side, at, offs).enemies == []
  {
    if offs != [] {
      KingProbesSound(b, side, at, offs[1..]);
      SoundConcat(b, side, Probe(b, side, Pos(at.y + offs[0].0, at.x + offs[0].1), false),
        KingProbes(b, side, at, offs[1..]));
    }
  }

  /**
   * Generation never offers a square off the grid or one held by the mover's
   * own side (the en-passant target aside), every attack is an offered move
   * onto an enemy, and a king attacks nothing.
   */
  lemma KindMovesSound(b: Board, view: Side, p: Piece, at: Pos)
    ensures Sound(b, p.side, KindMoves(b, view, p, at))
    ensures p.kind == King ==> KindMoves(b, view, p, at).enemies == []
  {
    match p.kind
    case King =>
      KingProbesSound(b, p.side, at, KingOffsets());
    case Queen =>
      LoopMovesSound(b, p.side, at, RookDirections() + BishopDirections());
    case Bishop =>
      LoopMovesSound(b, p.side, at, BishopDirections());
    case Knight =>
      LoopMovesSound(b, p.side, at, KnightDirections());
    case Rook =>
      LoopMovesSound(b, p.side, at, RookDirections());
    case Pawn =>
      PawnMovesSound(b, view, p, at);
  }

  lemma PawnMovesSound(b: Board, view: Side, p: Piece, at: Pos)
    ensures Sound(b, p.side, PawnMoves(b, view, p, at))
  {
    PawnListsSound(b, p.side, Ahead(view, p, at), Jump(view, p, at), Diagonal(view, p, at, -1), Diagonal(view, p, at, 1),
      CanPush(b, view, p, at), CanJump(b, view, p, at), CanTake(b, view, p, at, -1), CanTake(b, view, p, at, 1));
  }

  /** Pawn lists are sound when each step is taken only onto an open square, and each capture only onto an enemy. */
  lemma PawnListsSound(b: Board, side: Side, a: Pos, j: Pos, l: Pos, r: Pos, ca: bool, cj: bool, cl: bool, cr: bool)
    requires ca ==> Open(b, side, a)
    requires cj ==> Open(b, side, j)
    requires cl ==> HasEnemy(b, side, l) && Open(b, side, l)
    requires cr ==> HasEnemy(b, side, r) && Open(b, side, r)
    ensures Sound(b, side, PawnLists(a, j, l, r, ca, cj, cl, cr))
  {
    forall x | x in PawnLists(a, j, l, r, ca, cj, cl, cr).moves
      ensures Open(b, side, x)
    {
      StepsMembers(a, j, l, r, ca, cj, cl, cr, x);
    }
  }
}
