/**
 * The piece record of components/Piece.js, without its image and pixel
 * fields (drawing state).
 */
module Pieces {
  import opened Wrappers
  import opened Objects

  /**
   * kind is `info.name`; positionIndex is the grid coordinate of the square the
   * piece was last placed on (null before placement); moves and enemies are the
   * lists the last move generation stored on the piece.
   */
  datatype Piece = Piece(
    kind: Kind,
    side: Side,
    rankfile: RankFile,
    positionIndex: Option<Pos>,
    notMoved: bool,
    checked: bool,
    moves: seq<Pos>,
    enemies: seq<Pos>)

  /** The state that move generation and check detection recompute; the rest is the piece's identity. */
  function Bare(p: Piece): (q: Piece)
    ensures q.kind == p.kind && q.side == p.side && q.rankfile == p.rankfile
    ensures q.positionIndex == p.positionIndex && q.notMoved == p.notMoved
    ensures !q.checked && q.moves == [] && q.enemies == []
  {
    p.(checked := false, moves := [], enemies := [])
  }

  /** Two optional occupants agree on everything but the recomputed state. */
  predicate SameOccupant(a: Option<Piece>, b: Option<Piece>)
  {
    a.None? == b.None? && (a.Some? ==> Bare(a.value) == Bare(b.value))
  }

  /** `new Piece(info, side, rankFile)`. */
  function NewPiece(kind: Kind, side: Side, rankfile: RankFile): (p: Piece)
    ensures p.kind == kind && p.side == side && p.rankfile == rankfile
    ensures p.notMoved && !p.checked
    ensures p.moves == [] && p.enemies == [] && p.positionIndex.None?
  {
    Piece(kind, side, rankfile, None, true, false, [], [])
  }

  /**
   * Piece.newInstance: a fresh piece with the same kind, side, rank/file and
   * coordinate. The source's two history assignments write to the original
   * piece, not to the copy, so the copy always starts unmoved with no enemies.
   */
  function NewInstance(p: Piece): (q: Piece)
    ensures q.kind == p.kind && q.side == p.side && q.rankfile == p.rankfile
    ensures q.positionIndex == p.positionIndex
    ensures q.notMoved && !q.checked && q.moves == [] && q.enemies == []
  {
    NewPiece(p.kind, p.side, p.rankfile).(positionIndex := p.positionIndex)
  }

  /** A copy of a moved piece forgets that it moved; copying twice is copying once. */
  lemma NewInstanceForgetsHistory(p: Piece)
    ensures !p.notMoved ==> Bare(NewInstance(p)) != Bare(p)
    ensures NewInstance(NewInstance(p)) == NewInstance(p)
    ensures p.notMoved ==> Bare(NewInstance(p)) == Bare(p)
  {
  }

  /** Piece.promoteTo: only the kind changes. */
  function PromoteTo(p: Piece, to: Kind): (q: Piece)
    ensures q.kind == to
    ensures q.side == p.side && q.rankfile == p.rankfile && q.positionIndex == p.positionIndex
    ensures q.notMoved == p.notMoved && q.checked == p.checked
    ensures q.moves == p.moves && q.enemies == p.enemies
  {
    p.(kind := to)
  }

  /** Promoting is idempotent and promoting to the current kind changes nothing. */
  lemma PromoteToIdempotent(p: Piece, k: Kind)
    ensures PromoteTo(PromoteTo(p, k), k) == PromoteTo(p, k)
    ensures PromoteTo(p, p.kind) == p
    ensures Bare(PromoteTo(p, k)) == Bare(p) <==> p.kind == k
  {
  }
}
