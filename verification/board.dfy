/**
 * The 8x8 board of components/Board.js as an immutable value: 64 cells in
 * row-major order (index y * 8 + x), the en-passant record and the side to move.
 * The board's orientation (`info.boardSide`, the local player's side) is an
 * explicit parameter named `view`.
 */
module Boards {
  import opened Wrappers
  import opened Objects
  import opened Pieces

  type Cells = s: seq<Option<Piece>> | |s| == 64 witness seq(64, _ => None)

  /**
   * `data.empasantAvailable`: the pawn that just jumped two rows (recorded by the
   * coordinate it landed on), the rank/files of the enemy pieces that stood
   * directly beside its landing square, and the capture target.
   */
  datatype EnPassant = EnPassant(enemyAt: Pos, capturers: seq<RankFile>, target: Pos)

  datatype Board = Board(cells: Cells, enPassant: Option<EnPassant>, turn: Side)

  predicate OnBoard(q: Pos)
  {
    0 <= q.y < 8 && 0 <= q.x < 8
  }

  function IndexOf(q: Pos): (i: nat)
    requires OnBoard(q)
    ensures i < 64
  {
    q.y * 8 + q.x
  }

  function PosOf(i: nat): (q: Pos)
    requires i < 64
    ensures OnBoard(q) && IndexOf(q) == i
  {
    Pos(i / 8, i % 8)
  }

  /** Row-major indexing is a bijection between on-board coordinates and 0..63. */
  lemma IndexRoundTrip(q: Pos)
    requires OnBoard(q)
    ensures PosOf(IndexOf(q)) == q
  {
  }

  /** `grid[y][x].piece`, which is `undefined` off the board. */
  function At(b: Board, q: Pos): Option<Piece>
  {
    if OnBoard(q) then b.cells[IndexOf(q)] else None
  }

  /** Replace the occupant of one square (off-board writes are ignored). */
  function SetAt(b: Board, q: Pos, o: Option<Piece>): (r: Board)
    ensures OnBoard(q) ==> At(r, q) == o
    ensures forall s :: s != q ==> At(r, s) == At(b, s)
    ensures r.enPassant == b.enPassant && r.turn == b.turn
  {
    if OnBoard(q) then
      var r := b.(cells := b.cells[IndexOf(q) := o]);
      assert forall s :: s != q && OnBoard(s) ==> IndexOf(s) != IndexOf(q);
      r
    else b
  }

  /** Two boards agree square by square on every occupant's identity. */
  predicate SameOccupants(a: Board, b: Board)
  {
    forall i :: 0 <= i < 64 ==> SameOccupant(a.cells[i], b.cells[i])
  }

  /** Every piece's positionIndex names the square it stands on. */
  predicate Synced(b: Board)
  {
    forall i :: 0 <= i < 64 && b.cells[i].Some? ==> b.cells[i].value.positionIndex == Some(PosOf(i))
  }

  /** Recomputed state does not disturb positionIndex. */
  lemma SyncedSameOccupants(a: Board, b: Board)
    requires SameOccupants(a, b) && Synced(b)
    ensures Synced(a)
  {
    forall i | 0 <= i < 64 && a.cells[i].Some?
      ensures a.cells[i].value.positionIndex == Some(PosOf(i))
    {
      assert SameOccupant(a.cells[i], b.cells[i]);
      assert Bare(a.cells[i].value).positionIndex == a.cells[i].value.positionIndex;
    }
  }

  // ---------------------------------------------------------------- the grid

  /** The rank labelling row y: WHITE's board puts rank 8 on row 0, any other puts rank 1 there. */
  function RankOfRow(view: Side, y: int): int
  {
    if view == White then 8 - y else y + 1
  }

  /** The rank/file label createGrid gives the square at q (files "A".."H" by column). */
  function SquareRankFile(view: Side, q: Pos): RankFile
    requires OnBoard(q)
  {
    RankFile(RankOfRow(view, q.y), GridFile(q.x))
  }

  /** createGrid: every square is labelled with a rank in 1..8 and a file A..H, in the orientation's order. */
  lemma GridLabels(view: Side, q: Pos)
    requires OnBoard(q)
    ensures 1 <= SquareRankFile(view, q).rank <= 8
    ensures SquareRankFile(view, q).file as int == 'A' as int + q.x
    ensures view == White ==> SquareRankFile(view, q).rank == 8 - q.y
    ensures view == Black ==> SquareRankFile(view, q).rank == q.y + 1
    ensures Lower(SquareRankFile(view, q).file) == FileLetter(q.x)
  {
    FilesInOrder();
  }

  /** No two squares of a grid share a label, even ignoring letter case. */
  lemma GridLabelsDistinct(view: Side, a: Pos, b: Pos)
    requires OnBoard(a) && OnBoard(b)
    ensures RankFileIsEqual(SquareRankFile(view, a), SquareRankFile(view, b)) <==> a == b
  {
    if RankFileIsEqual(SquareRankFile(view, a), SquareRankFile(view, b)) {
      GridLabels(view, a);
      GridLabels(view, b);
    }
  }

  /** The independent arithmetic answer to "which square carries this label". */
  function SquareOf(view: Side, rf: RankFile): Option<Pos>
  {
    var y := if view == White then 8 - rf.rank else rf.rank - 1;
    var x := Lower(rf.file) as int - 'a' as int;
    if 1 <= rf.rank <= 8 && 0 <= x < 8 then Some(Pos(y, x)) else None
  }

  lemma SquareOfMatches(view: Side, rf: RankFile, q: Pos)
    requires OnBoard(q)
    ensures RankFileIsEqual(SquareRankFile(view, q), rf) <==> SquareOf(view, rf) == Some(q)
  {
    GridLabels(view, q);
  }

  /**
   * Whether the square at cell i carries a label equal to rf, decided on the
   * numbers the label is made of (see LabelMatchesIsEqual).
   */
  predicate LabelMatches(view: Side, rf: RankFile, i: nat)
    requires i < 64
  {
    rf.rank == RankOfRow(view, i / 8) && Lower(rf.file) as int - 'a' as int == i % 8
  }

  lemma LabelMatchesIsEqual(view: Side, rf: RankFile, i: nat)
    requires i < 64
    ensures LabelMatches(view, rf, i) <==> RankFileIsEqual(SquareRankFile(view, PosOf(i)), rf)
  {
    GridLabels(view, PosOf(i));
  }

  /** The row-major scan of getSquare, from cell i on. */
  function FindSquare(view: Side, rf: RankFile, i: nat): (r: Option<nat>)
    requires i <= 64
    ensures r.Some? ==> i <= r.value < 64 && LabelMatches(view, rf, r.value)
    ensures r.None? ==> forall j :: i <= j < 64 ==> !LabelMatches(view, rf, j)
    decreases 64 - i
  {
    if i == 64 then None
    else if LabelMatches(view, rf, i) then Some(i)
    else FindSquare(view, rf, i + 1)
  }

  /** Board.getSquare: the square whose label equals rf, or null. */
  function GetSquare(view: Side, rf: RankFile): (r: Option<Pos>)
    ensures r.Some? ==> OnBoard(r.value) && RankFileIsEqual(SquareRankFile(view, r.value), rf)
  {
    var found := FindSquare(view, rf, 0);
    if found.Some? then
      LabelMatchesIsEqual(view, rf, found.value);
      Some(PosOf(found.value))
    else None
  }

  /** getSquare finds exactly the square the arithmetic reference names, and null for any off-board label. */
  lemma GetSquareIsSquareOf(view: Side, rf: RankFile)
    ensures GetSquare(view, rf) == SquareOf(view, rf)
  {
    var r := GetSquare(view, rf);
    var q := SquareOf(view, rf);
    if q.Some? {
      SquareOfMatches(view, rf, q.value);
      IndexRoundTrip(q.value);
      LabelMatchesIsEqual(view, rf, IndexOf(q.value));
    }
    if r.Some? {
      SquareOfMatches(view, rf, r.value);
    }
  }

  /** Round trip: looking up a square's own label finds that square. */
  lemma GetSquareRoundTrip(view: Side, q: Pos)
    requires OnBoard(q)
    ensures GetSquare(view, SquareRankFile(view, q)) == Some(q)
  {
    GetSquareIsSquareOf(view, SquareRankFile(view, q));
    SquareOfMatches(view, SquareRankFile(view, q), q);
  }

  /** getSquare returns null exactly for a rank outside 1..8 or a letter outside a..h / A..H. */
  lemma GetSquareNull(view: Side, rf: RankFile)
    ensures GetSquare(view, rf).None? <==> !(1 <= rf.rank <= 8 && 'a' <= Lower(rf.file) <= 'h')
  {
    GetSquareIsSquareOf(view, rf);
  }

  // ---------------------------------------------------------------- placement

  /**
   * Board.place: every square whose label matches the piece's rank/file gets the
   * piece, with positionIndex set to that square. Nothing is cleared.
   */
  function Place(b: Board, view: Side, p: Piece): (r: Board)
    ensures r.enPassant == b.enPassant && r.turn == b.turn
  {
    b.(cells := seq(64, i requires 0 <= i < 64 =>
      if RankFileIsEqual(SquareRankFile(view, PosOf(i)), p.rankfile)
      then Some(p.(positionIndex := Some(PosOf(i))))
      else b.cells[i]))
  }

  /** place writes the one square getSquare finds for the piece and leaves every other square alone. */
  lemma PlaceWritesOneSquare(b: Board, view: Side, p: Piece)
    ensures GetSquare(view, p.rankfile).None? ==> Place(b, view, p) == b
    ensures GetSquare(view, p.rankfile).Some? ==>
      var q := GetSquare(view, p.rankfile).value;
      && At(Place(b, view, p), q) == Some(p.(positionIndex := Some(q)))
      && forall s :: s != q ==> At(Place(b, view, p), s) == At(b, s)
  {
    var r := Place(b, view, p);
    GetSquareIsSquareOf(view, p.rankfile);
    forall i | 0 <= i < 64
      ensures RankFileIsEqual(SquareRankFile(view, PosOf(i)), p.rankfile) <==> SquareOf(view, p.rankfile) == Some(PosOf(i))
    {
      SquareOfMatches(view, p.rankfile, PosOf(i));
    }
    if GetSquare(view, p.rankfile).None? {
      assert r.cells == b.cells;
    } else {
      var q := GetSquare(view, p.rankfile).value;
      forall s | s != q
        ensures At(r, s) == At(b, s)
      {
        if OnBoard(s) {
          assert PosOf(IndexOf(s)) == s;
        }
      }
    }
  }

  /** place keeps every piece's positionIndex pointing at its own square. */
  lemma PlaceSynced(b: Board, view: Side, p: Piece)
    requires Synced(b)
    ensures Synced(Place(b, view, p))
  {
  }

  /**
   * Every piece's rank/file names the square it stands on, letter case aside:
   * the setup gives pieces lower-case files, a move copies the square's own
   * upper-case label.
   */
  predicate Labelled(b: Board, view: Side)
  {
    forall i :: 0 <= i < 64 && b.cells[i].Some? ==> RankFileIsEqual(b.cells[i].value.rankfile, SquareRankFile(view, PosOf(i)))
  }

  /** Recomputed state does not disturb rank/files. */
  lemma LabelledSameOccupants(a: Board, b: Board, view: Side)
    requires SameOccupants(a, b) && Labelled(b, view)
    ensures Labelled(a, view)
  {
    forall i | 0 <= i < 64 && a.cells[i].Some?
      ensures RankFileIsEqual(a.cells[i].value.rankfile, SquareRankFile(view, PosOf(i)))
    {
      assert SameOccupant(a.cells[i], b.cells[i]);
      assert Bare(a.cells[i].value).rankfile == a.cells[i].value.rankfile;
    }
  }

  /** place puts a piece only on a square whose label matches its rank/file. */
  lemma PlaceLabelled(b: Board, view: Side, p: Piece)
    requires Labelled(b, view)
    ensures Labelled(Place(b, view, p), view)
  {
    forall a: RankFile, c: RankFile | RankFileIsEqual(a, c)
      ensures RankFileIsEqual(c, a)
    {
      RankFileIsEqualIsEquivalence(a, c, a);
    }
  }

  /** Labels that are equal up to letter case name the same square. */
  lemma GetSquareIsEqual(view: Side, a: RankFile, c: RankFile)
    requires RankFileIsEqual(a, c)
    ensures GetSquare(view, a) == GetSquare(view, c)
  {
    GetSquareIsSquareOf(view, a);
    GetSquareIsSquareOf(view, c);
  }

  // ---------------------------------------------------------------- enumeration

  /** The row-major scan of getCurrentPieces, from cell i on. */
  function PiecesFrom(cells: Cells, side: Side, i: nat): seq<Piece>
    requires i <= 64
    decreases 64 - i
  {
    if i == 64 then []
    else if cells[i].Some? && cells[i].value.side == side then [cells[i].value] + PiecesFrom(cells, side, i + 1)
    else PiecesFrom(cells, side, i + 1)
  }

  /** The cell indices that scan visits: every cell of the side from i on, in increasing order. */
  function IndicesFrom(cells: Cells, side: Side, i: nat): (r: seq<nat>)
    requires i <= 64
    ensures forall k :: 0 <= k < |r| ==> i <= r[k] < 64 && cells[r[k]].Some? && cells[r[k]].value.side == side
    ensures forall k, l :: 0 <= k < l < |r| ==> r[k] < r[l]
    decreases 64 - i
  {
    if i == 64 then []
    else if cells[i].Some? && cells[i].value.side == side then [i] + IndicesFrom(cells, side, i + 1)
    else IndicesFrom(cells, side, i + 1)
  }

  /** The scan misses no cell of the side. */
  lemma {:induction false} IndicesFromComplete(cells: Cells, side: Side, i: nat, j: nat)
    requires i <= j < 64 && cells[j].Some? && cells[j].value.side == side
    ensures j in IndicesFrom(cells, side, i)
    decreases 64 - i
  {
    if i < j {
      IndicesFromComplete(cells, side, i + 1, j);
    }
  }

  /** Board.getCurrentPieces: the pieces of one side, scanning the grid row by row. */
  function GetCurrentPieces(b: Board, side: Side): seq<Piece>
  {
    PiecesFrom(b.cells, side, 0)
  }

  /** The scan returns, at each position, the piece on the cell IndicesFrom lists there. */
  lemma {:induction false} PiecesFromSpec(cells: Cells, side: Side, i: nat)
    requires i <= 64
    ensures var ps := PiecesFrom(cells, side, i); var ix := IndicesFrom(cells, side, i);
      |ps| == |ix| && forall k :: 0 <= k < |ix| ==> cells[ix[k]] == Some(ps[k])
    decreases 64 - i
  {
    if i < 64 {
      PiecesFromSpec(cells, side, i + 1);
      var ps, ix := PiecesFrom(cells, side, i + 1), IndicesFrom(cells, side, i + 1);
      if cells[i].Some? && cells[i].value.side == side {
        var ps', ix' := [cells[i].value] + ps, [i] + ix;
        assert PiecesFrom(cells, side, i) == ps' && IndicesFrom(cells, side, i) == ix';
        forall k | 0 <= k < |ix'|
          ensures cells[ix'[k]] == Some(ps'[k])
        {
          if k > 0 {
            assert ix'[k] == ix[k - 1] && ps'[k] == ps[k - 1];
          }
        }
      }
    }
  }

  /**
   * getCurrentPieces returns, in strictly increasing row-major order, every
   * occupied cell holding a piece of the side, and nothing else.
   */
  lemma GetCurrentPiecesSpec(b: Board, side: Side)
    ensures var ps := GetCurrentPieces(b, side); var ix := IndicesFrom(b.cells, side, 0);
      && |ps| == |ix|
      && (forall k :: 0 <= k < |ix| ==> ix[k] < 64 && b.cells[ix[k]] == Some(ps[k]) && ps[k].side == side)
      && (forall k, l :: 0 <= k < l < |ix| ==> ix[k] < ix[l])
      && (forall j :: 0 <= j < 64 && b.cells[j].Some? && b.cells[j].value.side == side ==> j in ix)
  {
    PiecesFromSpec(b.cells, side, 0);
    forall j | 0 <= j < 64 && b.cells[j].Some? && b.cells[j].value.side == side
      ensures j in IndicesFrom(b.cells, side, 0)
    {
      IndicesFromComplete(b.cells, side, 0, j);
    }
  }

  // ---------------------------------------------------------------- initial setup

  /** One entry of getDefaultPieces: a kind and its starting squares per side (images left out). */
  datatype DefaultEntry = DefaultEntry(kind: Kind, white: seq<RankFile>, black: seq<RankFile>)

  /** Board.getDefaultPieces; a single starting square is written as a one-element list. */
  function DefaultPieces(): seq<DefaultEntry>
  {
    [ DefaultEntry(King, [RankFile(1, 'e')], [RankFile(8, 'e')]),
      DefaultEntry(Queen, [RankFile(1, 'd')], [RankFile(8, 'd')]),
      DefaultEntry(Bishop, [RankFile(1, 'c'), RankFile(1, 'f')], [RankFile(8, 'c'), RankFile(8, 'f')]),
      DefaultEntry(Knight, [RankFile(1, 'b'), RankFile(1, 'g')], [RankFile(8, 'b'), RankFile(8, 'g')]),
      DefaultEntry(Rook, [RankFile(1, 'a'), RankFile(1, 'h')], [RankFile(8, 'a'), RankFile(8, 'h')]),
      DefaultEntry(Pawn, seq(8, i requires 0 <= i < 8 => RankFile(2, FileLetter(i))),
                         seq(8, i requires 0 <= i < 8 => RankFile(7, FileLetter(i)))) ]
  }

  function FirstEntry(es: seq<DefaultEntry>, k: Kind): Option<DefaultEntry>
  {
    if es == [] then None else if es[0].kind == k then Some(es[0]) else FirstEntry(es[1..], k)
  }

  /** Board.getDefaultPiece: the first default entry of that kind. */
  function GetDefaultPiece(k: Kind): (r: Option<DefaultEntry>)
    ensures r.Some? && r.value.kind == k
    ensures forall j :: 0 <= j < |DefaultPieces()| && DefaultPieces()[j].kind == k ==> DefaultPieces()[j] == r.value
  {
    FirstEntry(DefaultPieces(), k)
  }

  function PiecesOfEntries(es: seq<DefaultEntry>, side: Side): seq<Piece>
  {
    if es == [] then []
    else
      var squares := if side == White then es[0].white else es[0].black;
      seq(|squares|, i requires 0 <= i < |squares| => NewPiece(es[0].kind, side, squares[i]))
        + PiecesOfEntries(es[1..], side)
  }

  /** Board.getPieces: fresh pieces for one side, entry by entry. */
  function GetPieces(side: Side): seq<Piece>
  {
    PiecesOfEntries(DefaultPieces(), side)
  }

  /** placeDefaultPieces: place each piece in turn. */
  function PlaceAll(b: Board, view: Side, ps: seq<Piece>): (r: Board)
    ensures r.turn == b.turn && r.enPassant == b.enPassant
    decreases |ps|
  {
    if ps == [] then b else PlaceAll(Place(b, view, ps[0]), view, ps[1..])
  }

  function EmptyBoard(): Board
  {
    Board(seq(64, _ => None), None, White)
  }

  lemma {:induction false} PlaceAllLabelled(b: Board, view: Side, ps: seq<Piece>)
    requires Labelled(b, view)
    ensures Labelled(PlaceAll(b, view, ps), view)
    decreases |ps|
  {
    if ps != [] {
      PlaceLabelled(b, view, ps[0]);
      PlaceAllLabelled(Place(b, view, ps[0]), view, ps[1..]);
    }
  }

  lemma {:induction false} PlaceAllSynced(b: Board, view: Side, ps: seq<Piece>)
    requires Synced(b)
    ensures Synced(PlaceAll(b, view, ps))
    decreases |ps|
  {
    if ps != [] {
      PlaceSynced(b, view, ps[0]);
      PlaceAllSynced(Place(b, view, ps[0]), view, ps[1..]);
    }
  }

  /** The pieces placeDefaultPieces places: WHITE's, then BLACK's. */
  function SetupPieces(): seq<Piece>
  {
    GetPieces(White) + GetPieces(Black)
  }

  /** A new Board: default pieces placed (white first, then black), no en-passant record, WHITE to move. */
  function InitialBoard(view: Side): Board
  {
    PlaceAll(EmptyBoard(), view, SetupPieces())
  }

  /** Every piece of a new board knows its own square, and WHITE moves first with no record. */
  lemma InitialBoardSynced(view: Side)
    ensures Synced(InitialBoard(view))
    ensures InitialBoard(view).turn == White && InitialBoard(view).enPassant.None?
  {
    PlaceAllSynced(EmptyBoard(), view, SetupPieces());
  }

  /** Every piece of a new board carries the label of its own square. */
  lemma InitialBoardLabelled(view: Side)
    ensures Labelled(InitialBoard(view), view)
  {
    PlaceAllLabelled(EmptyBoard(), view, SetupPieces());
  }

  // ---------------------------------------------------------------- the standard setup

  /** The rank a side starts on: 1 and 2 for WHITE, 8 and 7 for BLACK (the second for pawns). */
  function HomeRank(side: Side, pawn: bool): int
  {
    match side
    case White => if pawn then 2 else 1
    case Black => if pawn then 7 else 8
  }

  /** The kind of the k-th back-rank piece in getDefaultPieces order. */
  function BackKind(k: nat): Kind
    requires k < 8
  {
    if k == 0 then King else if k == 1 then Queen else if k < 4 then Bishop else if k < 6 then Knight else Rook
  }

  /** The file of the k-th back-rank piece: e, d, then c/f, b/g, a/h. */
  function BackFile(k: nat): char
    requires k < 8
  {
    if k == 0 then 'e' else if k == 1 then 'd' else if k == 2 then 'c' else if k == 3 then 'f'
    else if k == 4 then 'b' else if k == 5 then 'g' else if k == 6 then 'a' else 'h'
  }

  /** The k-th of the sixteen pieces getPieces makes for a side: the back rank, then the pawns a..h. */
  function HomePiece(side: Side, k: nat): Piece
    requires k < 16
  {
    if k < 8 then NewPiece(BackKind(k), side, RankFile(HomeRank(side, false), BackFile(k)))
    else NewPiece(Pawn, side, RankFile(HomeRank(side, true), FileLetter(k - 8)))
  }

  /** The pieces of one default entry come first, then those of the entries after it. */
  lemma PiecesOfEntriesCons(es: seq<DefaultEntry>, side: Side)
    requires es != []
    ensures var squares := if side == White then es[0].white else es[0].black;
      var ps := PiecesOfEntries(es, side); var rest := PiecesOfEntries(es[1..], side);
      && |ps| == |squares| + |rest|
      && (forall i :: 0 <= i < |squares| ==> ps[i] == NewPiece(es[0].kind, side, squares[i]))
      && (forall i :: 0 <= i < |rest| ==> ps[|squares| + i] == rest[i])
  {
  }

  /** Where the pieces of default entry j start among a side's sixteen. */
  function EntryOffset(j: nat): nat
    requires j <= 6
  {
    if j <= 2 then j else if j == 3 then 4 else if j == 4 then 6 else if j == 5 then 8 else 16
  }

  /** The squares of default entry j, for one side. */
  function EntrySquares(side: Side, j: nat): seq<RankFile>
    requires j < 6
  {
    var e := DefaultPieces()[j];
    if side == White then e.white else e.black
  }

  /** Default entry j makes home pieces EntryOffset(j) up to EntryOffset(j + 1). */
  lemma EntryHome(side: Side, j: nat)
    requires j < 6
    ensures |EntrySquares(side, j)| == EntryOffset(j + 1) - EntryOffset(j)
    ensures forall i :: 0 <= i < |EntrySquares(side, j)| ==>
      NewPiece(DefaultPieces()[j].kind, side, EntrySquares(side, j)[i]) == HomePiece(side, EntryOffset(j) + i)
  {
    var sq := EntrySquares(side, j);
    if j == 5 {
      assert |sq| == 8;
      forall i | 0 <= i < 8 ensures NewPiece(Pawn, side, sq[i]) == HomePiece(side, 8 + i) {
        assert sq[i] == RankFile(HomeRank(side, true), FileLetter(i));
      }
    }
  }

  lemma {:induction false} EntriesHome(side: Side, j: nat)
    requires j <= 6
    ensures var ps := PiecesOfEntries(DefaultPieces()[j..], side);
      && |ps| == 16 - EntryOffset(j)
      && forall i :: 0 <= i < |ps| ==> ps[i] == HomePiece(side, EntryOffset(j) + i)
    decreases 6 - j
  {
    var es := DefaultPieces();
    if j < 6 {
      EntriesHome(side, j + 1);
      EntryHome(side, j);
      PiecesOfEntriesCons(es[j..], side);
      assert es[j..][0] == es[j] && es[j..][1..] == es[j + 1..];
    } else {
      assert es[j..] == [];
    }
  }

  /** getPieces makes exactly the sixteen home pieces, in getDefaultPieces order. */
  lemma GetPiecesHome(side: Side)
    ensures |GetPieces(side)| == 16
    ensures forall k :: 0 <= k < 16 ==> GetPieces(side)[k] == HomePiece(side, k)
  {
    EntriesHome(side, 0);
    assert DefaultPieces()[0..] == DefaultPieces();
  }

  /** The sixteen home squares of a side are different squares, all on the board. */
  lemma HomeSquaresDistinct(side: Side, k: nat, l: nat)
    requires k < 16 && l < 16
    ensures 'a' <= HomePiece(side, k).rankfile.file <= 'h' && 1 <= HomePiece(side, k).rankfile.rank <= 8
    ensures HomePiece(side, k).rankfile == HomePiece(side, l).rankfile <==> k == l
  {
  }

  /** Two different rank/files with lower-case files name different squares. */
  lemma DistinctLabelsDistinctSquares(view: Side, a: RankFile, c: RankFile)
    requires 'a' <= a.file <= 'z' && 'a' <= c.file <= 'z' && a != c
    requires GetSquare(view, a).Some?
    ensures GetSquare(view, a) != GetSquare(view, c)
  {
    if GetSquare(view, a) == GetSquare(view, c) {
      var q := GetSquare(view, a).value;
      RankFileIsEqualIsEquivalence(a, SquareRankFile(view, q), c);
      assert false;
    }
  }

  /** Placing pieces none of which is labelled q leaves q as it was. */
  lemma {:induction false} PlaceAllFrame(b: Board, view: Side, ps: seq<Piece>, q: Pos)
    requires forall l :: 0 <= l < |ps| ==> GetSquare(view, ps[l].rankfile) != Some(q)
    ensures At(PlaceAll(b, view, ps), q) == At(b, q)
    decreases |ps|
  {
    if ps != [] {
      PlaceWritesOneSquare(b, view, ps[0]);
      PlaceAllFrame(Place(b, view, ps[0]), view, ps[1..], q);
    }
  }

  /** The last piece placed on a square is the one it holds, knowing its square. */
  lemma {:induction false} PlaceAllPuts(b: Board, view: Side, ps: seq<Piece>, k: nat, q: Pos)
    requires k < |ps| && GetSquare(view, ps[k].rankfile) == Some(q)
    requires forall l :: k < l < |ps| ==> GetSquare(view, ps[l].rankfile) != Some(q)
    ensures At(PlaceAll(b, view, ps), q) == Some(ps[k].(positionIndex := Some(q)))
    decreases |ps|
  {
    PlaceWritesOneSquare(b, view, ps[0]);
    if k == 0 {
      PlaceAllFrame(Place(b, view, ps[0]), view, ps[1..], q);
    } else {
      PlaceAllPuts(Place(b, view, ps[0]), view, ps[1..], k - 1, q);
    }
  }

  /** The two sides' home squares never coincide: WHITE's ranks are 1 and 2, BLACK's 7 and 8. */
  lemma HomeSidesApart(k: nat, l: nat)
    requires k < 16 && l < 16
    ensures HomePiece(White, k).rankfile.rank <= 2 && HomePiece(Black, l).rankfile.rank >= 7
  {
  }

  /** Two different home pieces are placed on different squares. */
  lemma HomeSquaresApart(view: Side, side: Side, k: nat, side2: Side, k2: nat)
    requires k < 16 && k2 < 16 && (side, k) != (side2, k2)
    ensures GetSquare(view, HomePiece(side, k).rankfile).Some?
    ensures GetSquare(view, HomePiece(side, k).rankfile) != GetSquare(view, HomePiece(side2, k2).rankfile)
  {
    var rf := HomePiece(side, k).rankfile;
    HomeSquaresDistinct(side, k, k);
    HomeSquaresDistinct(side2, k2, k2);
    GetSquareNull(view, rf);
    if side2 == side {
      HomeSquaresDistinct(side, k, k2);
    } else {
      HomeSidesApart(k, k2);
      HomeSidesApart(k2, k);
    }
    DistinctLabelsDistinctSquares(view, rf, HomePiece(side2, k2).rankfile);
  }

  /** Slot l of the setup list holds WHITE's home piece l, or BLACK's home piece l - 16. */
  function SlotSide(l: nat): Side
  {
    if l < 16 then White else Black
  }

  function SlotIndex(l: nat): nat
  {
    if l < 16 then l else l - 16
  }

  /** The thirty-two pieces a new board places: WHITE's sixteen, then BLACK's. */
  lemma SetupPiecesHome()
    ensures |SetupPieces()| == 32
    ensures forall l :: 0 <= l < 32 ==> SetupPieces()[l] == HomePiece(SlotSide(l), SlotIndex(l))
  {
    GetPiecesHome(White);
    GetPiecesHome(Black);
  }

  /** Two slots of the setup list name two different squares, each on the grid. */
  lemma SetupSquaresApart(view: Side, l: nat, m: nat)
    requires l < 32 && m < 32 && l != m
    ensures GetSquare(view, SetupPieces()[l].rankfile).Some?
    ensures GetSquare(view, SetupPieces()[l].rankfile) != GetSquare(view, SetupPieces()[m].rankfile)
  {
    SetupPiecesHome();
    HomeSquaresApart(view, SlotSide(l), SlotIndex(l), SlotSide(m), SlotIndex(m));
  }

  /**
   * A new board holds each of the thirty-two home pieces on the square its
   * rank/file names, and knows that square.
   */
  lemma InitialBoardHome(view: Side, side: Side, k: nat)
    requires k < 16
    ensures GetSquare(view, HomePiece(side, k).rankfile).Some?
    ensures var q := GetSquare(view, HomePiece(side, k).rankfile).value;
      At(InitialBoard(view), q) == Some(HomePiece(side, k).(positionIndex := Some(q)))
  {
    var ps := SetupPieces();
    var idx := if side == White then k else 16 + k;
    SetupPiecesHome();
    assert ps[idx] == HomePiece(side, k);
    SetupSquaresApart(view, idx, if idx == 0 then 1 else 0);
    var q := GetSquare(view, ps[idx].rankfile).value;
    forall l | idx < l < |ps|
      ensures GetSquare(view, ps[l].rankfile) != Some(q)
    {
      SetupSquaresApart(view, idx, l);
    }
    PlaceAllPuts(EmptyBoard(), view, ps, idx, q);
  }

  /** The position of file x's piece among the back rank (the inverse of BackFile). */
  function BackIndex(x: int): (k: nat)
    requires 0 <= x < 8
    ensures k < 8 && BackFile(k) == FileLetter(x)
  {
    if x == 0 then 6 else if x == 1 then 4 else if x == 2 then 2 else if x == 3 then 1
    else if x == 4 then 0 else if x == 5 then 3 else if x == 6 then 5 else 7
  }

  /** A square on ranks 1, 2, 7 or 8 holds its home piece on a new board. */
  lemma InitialBoardHomeRanks(view: Side, q: Pos)
    requires OnBoard(q) && SquareRankFile(view, q).rank in {1, 2, 7, 8}
    ensures At(InitialBoard(view), q).Some?
  {
    var name := SquareRankFile(view, q);
    GridLabels(view, q);
    var side := if name.rank <= 2 then White else Black;
    var k := if name.rank == 2 || name.rank == 7 then 8 + q.x else BackIndex(q.x);
    var rf := HomePiece(side, k).rankfile;
    assert rf == RankFile(name.rank, FileLetter(q.x));
    assert RankFileIsEqual(name, rf);
    SquareOfMatches(view, rf, q);
    GetSquareIsSquareOf(view, rf);
    InitialBoardHome(view, side, k);
  }

  /** Every piece of the setup stands on rank 1, 2, 7 or 8. */
  lemma SetupRanks(l: nat)
    requires l < 32
    ensures |SetupPieces()| == 32 && SetupPieces()[l].rankfile.rank in {1, 2, 7, 8}
  {
    SetupPiecesHome();
    HomeSidesApart(SlotIndex(l), SlotIndex(l));
  }

  /** A square on ranks 3 to 6 is empty on a new board. */
  lemma InitialBoardMiddleRanks(view: Side, q: Pos)
    requires OnBoard(q) && SquareRankFile(view, q).rank !in {1, 2, 7, 8}
    ensures At(InitialBoard(view), q).None?
  {
    var ps := SetupPieces();
    forall l | 0 <= l < |ps|
      ensures GetSquare(view, ps[l].rankfile) != Some(q)
    {
      SetupRanks(l);
    }
    PlaceAllFrame(EmptyBoard(), view, ps, q);
  }

  /** Exactly the squares on ranks 1, 2, 7 and 8 are occupied on a new board: sixteen pieces a side. */
  lemma InitialBoardOccupied(view: Side, q: Pos)
    requires OnBoard(q)
    ensures At(InitialBoard(view), q).Some? <==> SquareRankFile(view, q).rank in {1, 2, 7, 8}
  {
    if SquareRankFile(view, q).rank in {1, 2, 7, 8} {
      InitialBoardHomeRanks(view, q);
    } else {
      InitialBoardMiddleRanks(view, q);
    }
  }
}
