/**
 * Value types of the chess client (components/Objects.js): sides, piece
 * kinds, ray directions, grid positions and rank/file notation.
 */
module Objects {

  /** SIDES: WHITE = 1, BLACK = 2. */
  datatype Side = White | Black

  /** PIECES: the six piece kinds. */
  datatype Kind = King | Queen | Bishop | Knight | Rook | Pawn

  /** The numeric code the source gives each side. */
  function SideCode(s: Side): (c: int)
    ensures c == 1 <==> s == White
    ensures c == 2 <==> s == Black
  {
    match s
    case White => 1
    case Black => 2
  }

  function Opponent(s: Side): (o: Side)
    ensures o != s
  {
    if s == White then Black else White
  }

  /** The display name the source stores in `info.name` (note the spelling "Bishope"). */
  function KindName(k: Kind): string
  {
    match k
    case King => "King"
    case Queen => "Queen"
    case Bishop => "Bishope"
    case Knight => "Knight"
    case Rook => "Rook"
    case Pawn => "Pawn"
  }

  /** Six distinct names: looking a kind up by its name is unambiguous. */
  lemma KindNamesDistinct(a: Kind, b: Kind)
    ensures KindName(a) == KindName(b) <==> a == b
  {
    if a != b {
      match a
      case King => assert KindName(a)[0] == 'K' && KindName(a)[1] == 'i';
      case Queen => assert KindName(a)[0] == 'Q';
      case Bishop => assert KindName(a)[0] == 'B';
      case Knight => assert KindName(a)[0] == 'K' && KindName(a)[1] == 'n';
      case Rook => assert KindName(a)[0] == 'R';
      case Pawn => assert KindName(a)[0] == 'P';
    }
  }

  /** FILES: the values "a".."h", in this order (Board.getDefaultPieces indexes them). */
  const Files: string := "abcdefgh"

  /** The upper-case file letters the game uses to label the grid's columns. */
  const GridFiles: string := "ABCDEFGH"

  /** FILES' value at position x, computed rather than looked up. */
  function FileLetter(x: int): (c: char)
    requires 0 <= x < 8
    ensures c as int == 'a' as int + x
  {
    ('a' as int + x) as char
  }

  /** The grid's label for column x, computed rather than looked up: FileLetter's upper-case counterpart. */
  function GridFile(x: int): char
    requires 0 <= x < 8
  {
    ('A' as int + x) as char
  }

  lemma FilesInOrder()
    ensures |Files| == 8 && |GridFiles| == 8
    ensures forall i :: 0 <= i < 8 ==> Files[i] as int == 'a' as int + i
    ensures forall i :: 0 <= i < 8 ==> GridFiles[i] as int == 'A' as int + i
    ensures forall i :: 0 <= i < 8 ==> GridFiles[i] == GridFile(i) && Files[i] == FileLetter(i) && Lower(GridFile(i)) == FileLetter(i)
  {
  }

  /** A grid coordinate (row y, column x). */
  datatype Pos = Pos(y: int, x: int)

  /** Position.isEqual: coordinate-wise comparison. */
  predicate PositionIsEqual(a: Pos, b: Pos)
  {
    a.y == b.y && a.x == b.x
  }

  /** Coordinate-wise equality is exactly equality of positions. */
  lemma PositionIsEqualIsEquality(a: Pos, b: Pos)
    ensures PositionIsEqual(a, b) <==> a == b
    ensures PositionIsEqual(a, a)
    ensures PositionIsEqual(a, b) ==> PositionIsEqual(b, a)
  {
  }

  /** ASCII lower-casing, the part of `toLowerCase` that file letters need. */
  function Lower(c: char): (l: char)
    ensures 'A' <= c <= 'Z' ==> l as int == c as int + 32
    ensures !('A' <= c <= 'Z') ==> l == c
  {
    if 'A' <= c <= 'Z' then (c as int + 32) as char else c
  }

  /** A rank/file pair; `name` is the file followed by the rank. */
  datatype RankFile = RankFile(rank: int, file: char)
  {
    /** RankFile.name for ranks that are one decimal digit (all ranks of a board). */
    function Name(): (n: string)
      requires 0 <= rank <= 9
      ensures |n| == 2 && n[0] == file
      ensures n[1] as int - '0' as int == rank
    {
      [file, ('0' as int + rank) as char]
    }

    /** RankFile.get(): the record of rank, file and name. */
    function Get(): (g: (int, char, string))
      requires 0 <= rank <= 9
      ensures g.0 == rank && g.1 == file && g.2 == Name()
    {
      (rank, file, Name())
    }
  }

  /** A name determines the rank/file it was built from. */
  lemma NameDeterminesRankFile(a: RankFile, b: RankFile)
    requires 0 <= a.rank <= 9 && 0 <= b.rank <= 9
    ensures a.Name() == b.Name() <==> a == b
  {
    if a.Name() == b.Name() {
      assert a.file == a.Name()[0] == b.Name()[0] == b.file;
      assert a.rank == a.Name()[1] as int - '0' as int;
    }
  }

  /** RankFile.isEqual: same rank, and same file ignoring letter case. */
  predicate RankFileIsEqual(a: RankFile, b: RankFile)
  {
    a.rank == b.rank && Lower(a.file) == Lower(b.file)
  }

  /** A file letter matches its other-case spelling: "E5" is "e5". */
  lemma RankFileIgnoresCase(rank: int, i: int)
    requires 0 <= i < 26
    ensures RankFileIsEqual(RankFile(rank, ('A' as int + i) as char), RankFile(rank, ('a' as int + i) as char))
    ensures !RankFileIsEqual(RankFile(rank, 'a'), RankFile(rank + 1, 'a'))
  {
  }

  /** RankFile.isEqual is an equivalence relation. */
  lemma RankFileIsEqualIsEquivalence(a: RankFile, b: RankFile, c: RankFile)
    ensures RankFileIsEqual(a, a)
    ensures RankFileIsEqual(a, b) ==> RankFileIsEqual(b, a)
    ensures RankFileIsEqual(a, b) && RankFileIsEqual(b, c) ==> RankFileIsEqual(a, c)
  {
  }

  /** DIRECTIONS: eight ray directions and eight knight jumps. */
  datatype Direction =
    | Up | Down | Left | Right | UpLeft | UpRight | DownLeft | DownRight
    | KnightTopLeft | KnightTopRight | KnightTopLeftMiddle | KnightTopRightMiddle
    | KnightBottomLeft | KnightBottomRight | KnightBottomLeftMiddle | KnightBottomRightMiddle
  {
    predicate IsKnight() {
      !(Up? || Down? || Left? || Right? || UpLeft? || UpRight? || DownLeft? || DownRight?)
    }

    /** The numeric code of the DIRECTIONS table. */
    function Code(): (c: int)
      ensures 1 <= c <= 16
      ensures IsKnight() <==> c >= 9
    {
      match this
      case Up => 1 case Down => 2 case Left => 3 case Right => 4
      case UpLeft => 5 case UpRight => 6 case DownLeft => 7 case DownRight => 8
      case KnightTopLeft => 9 case KnightTopRight => 10
      case KnightTopLeftMiddle => 11 case KnightTopRightMiddle => 12
      case KnightBottomLeft => 13 case KnightBottomRight => 14
      case KnightBottomLeftMiddle => 15 case KnightBottomRightMiddle => 16
    }

    /** Row step of the direction ("up" is toward row 0; knight "top" is toward row 7). */
    function Dy(): int
    {
      match this
      case Up => -1 case Down => 1 case Left => 0 case Right => 0
      case UpLeft => -1 case UpRight => -1 case DownLeft => 1 case DownRight => 1
      case KnightTopLeft => 2 case KnightTopRight => 2
      case KnightTopLeftMiddle => 1 case KnightTopRightMiddle => 1
      case KnightBottomLeft => -2 case KnightBottomRight => -2
      case KnightBottomLeftMiddle => -1 case KnightBottomRightMiddle => -1
    }

    /** Column step of the direction. */
    function Dx(): int
    {
      match this
      case Up => 0 case Down => 0 case Left => -1 case Right => 1
      case UpLeft => -1 case UpRight => 1 case DownLeft => -1 case DownRight => 1
      case KnightTopLeft => -1 case KnightTopRight => 1
      case KnightTopLeftMiddle => -2 case KnightTopRightMiddle => 2
      case KnightBottomLeft => -1 case KnightBottomRight => 1
      case KnightBottomLeftMiddle => -2 case KnightBottomRightMiddle => 2
    }
  }

  /** Direction codes are distinct, and ray steps are unit moves while knight steps are L-shaped. */
  lemma DirectionShapes(d: Direction, e: Direction)
    ensures d.Code() == e.Code() <==> d == e
    ensures !d.IsKnight() ==> -1 <= d.Dy() <= 1 && -1 <= d.Dx() <= 1 && (d.Dy() != 0 || d.Dx() != 0)
    ensures d.IsKnight() ==> d.Dy() * d.Dy() + d.Dx() * d.Dx() == 5
  {
  }
}
