# Chess client rules engine and matchmaking server, in Dafny

This project models the core of a browser chess game. The client side is
components/Objects.js, Piece.js, Board.js and the rules half of Chess.js. The
server side is server/ChessServer.js. It proves properties of that model.

The client keeps an 8×8 grid of squares. Each square carries a grid coordinate
`(y, x)` and a rank/file label. The labelling depends on the side the board is
drawn for (`boardSide`): WHITE's board puts rank 8 on row 0, the other board puts
rank 1 there. Files A..H run left to right. A piece records:

- its kind and side;
- the rank/file it was created with, or that it last moved to;
- the coordinate of its square (`positionIndex`);
- `notMoved`;
- a transient `checked` flag;
- the `moves`/`enemies` lists from its last move generation.

The rules engine does the following:

- generates candidate moves per kind: rays, knight jumps, king steps and castling, pawn pushes and captures;
- appends the en-passant target to every list;
- applies a move with `tryMove`: castling rook, en-passant capture, auto-queen promotion, en-passant record;
- decides legality by replaying the move on a deep copy and asking `isCheck`;
- detects check, checkmate and the king-only draw probe.

A player's accepted move flips the side to move.

The server keeps a waiting list of match requests and a registry of matches. It
pairs two requests for the same clock interval. It relays moves and
resignations to the sender's opponent.

## Modules

| file | module | models |
|---|---|---|
| wrappers.dfy | `Wrappers` | `Option` |
| objects.dfy | `Objects` | sides, piece kinds, directions, `Position`, `RankFile` |
| pieces.dfy | `Pieces` | the piece record, `newInstance`, `promoteTo` |
| board.dfy | `Boards` | the board value, grid labels, `getSquare`, `place`, `getCurrentPieces`, the default setup |
| moves.dfy | `Moves` | `squareHasPiece`/`squareHasEnemy`, `loopMove`, `isKingCanCastle`, `showPossibleMoves` |
| rules.dfy | `Rules` | `isEmpasantMove`, the en-passant record, `isCheck`, `resetLands`, `tryMove`, `tryMoveInBackground` |
| game.dfy | `Game` | `onPlayerMove` (turn flip), `checkCheck`, `kingCheckMate`, `isDraw`, `getAllPieces`, `tryMoveFroMove` |
| server.dfy | `Server` | `RemoveDisconnected`, `ParseClientMessage`, `FindMatch`, `InsertMatchRequest`, `shuffle`, `DoMatch`, `InsertPlayerMove`, `ManageResign` |

A board is a value: 64 optional pieces in row-major order (cell `8*y + x`), the
en-passant record, and the side to move. The deep copy the source takes before
a trial move is therefore the board value itself. Two sides are explicit
parameters, because the source reads them from globals:

- `session`, the side of the player running the client (`sessionPlayer.side`);
- `view`, the side the board is drawn for (`board.info.boardSide`).

The server's two global lists and the messages it emits form one `State` value.
The fresh match uuid and the random draw inside `shuffle` are parameters.

Several behaviours of the code are modelled as written, even where they differ
from the Laws of Chess:

- The en-passant target is appended to every piece's move list while a record exists.
- The en-passant target is always the landing row minus one (`Rules.EnPassantTargetSkipped` shows which side that fits).
- A never-moved pawn's move that makes no new record keeps the old record.
- Castling checks only that a rook stands on the corner. It checks neither that rook's side nor whether it moved.
- King moves never list attacks, so a king never gives check.
- The side-to-move check on the moving piece is commented out in the source.
- `isCheck` reports only the first attacked king.
- The draw probe's answer is dropped.
- The castling rook's sub-move is a local move. On the client that receives the opponent's castling, it is refused and the rook stays put (`Rules.OutOfTurnCastleLeavesRook`).

## Model

| member | source | states |
|---|---|---|
| Objects.SideCode | components/Objects.js:32-35 | WHITE is 1 and BLACK is 2, in both directions |
| Objects.KindNamesDistinct | components/Objects.js:2-9 | the six piece names are pairwise distinct, so a name identifies its kind |
| Objects.FilesInOrder | components/Objects.js:80-89 | FILES holds "a".."h" in column order; the grid's upper-case file of each column lower-cases to FILES' entry |
| Objects.PositionIsEqualIsEquality | components/Objects.js:48-50 | Position.isEqual holds exactly for equal coordinates; it is reflexive and symmetric |
| Objects.NameDeterminesRankFile | components/Objects.js:54-66 | a rank/file's name (file then rank) determines its rank and file, for one-digit ranks |
| Objects.RankFileIgnoresCase | components/Objects.js:68-70 | for every rank and letter, the upper- and lower-case spellings of a file match under RankFile.isEqual |
| Objects.RankFileIsEqualIsEquivalence | components/Objects.js:68-70 | RankFile.isEqual is reflexive, symmetric and transitive |
| Objects.DirectionShapes | components/Objects.js:11-30 | direction codes are distinct; ray directions step one square; knight directions make an L (dy²+dx² = 5) |
| Pieces.NewPiece | components/Piece.js:4-18 | a new piece is unmoved, unchecked, unplaced, with empty move and enemy lists |
| Pieces.NewInstanceForgetsHistory | components/Piece.js:20-29 | the copy keeps kind, side, rank/file and square but starts unmoved: copying a moved piece changes it, copying twice is copying once |
| Pieces.PromoteToIdempotent | components/Piece.js:31-37 | promotion changes only the kind; promoting twice equals promoting once; promoting to the current kind changes nothing |
| Boards.IndexRoundTrip | components/Board.js:192-193 | the coordinate of a square and its cell number convert into each other |
| Boards.GridLabels | components/Board.js:187-195 | square (y, x) is labelled file A+x, rank 8−y on WHITE's board and y+1 otherwise |
| Boards.GridLabelsDistinct | components/Board.js:187-195 | two squares' labels match under RankFile.isEqual only when they are the same square |
| Boards.GetSquareIsSquareOf | components/Board.js:111-121 | the row-major label search finds exactly the square an independent arithmetic decoding names |
| Boards.GetSquareRoundTrip | components/Board.js:111-121 | looking up a square's own label finds that square |
| Boards.GetSquareNull | components/Board.js:111-121 | the lookup fails exactly for a rank outside 1..8 or a file outside a..h, in either case |
| Boards.GetSquare | components/Board.js:111-121 | a square found for a label is on the grid and carries that label |
| Boards.PlaceWritesOneSquare | components/Board.js:176-185 | place puts the piece, knowing its square, on the one square its label names and changes no other square; an unknown label changes nothing |
| Boards.GetCurrentPiecesSpec | components/Board.js:123-137 | getCurrentPieces lists, in strictly increasing row-major order, exactly the pieces of the side on the board |
| Boards.GetDefaultPiece | components/Board.js:36-38 | the entry found for a kind has that kind and is the only default entry of that kind |
| Boards.GetPiecesHome | components/Board.js:139-155 | getPieces makes sixteen unmoved pieces: king e, queen d, bishops c/f, knights b/g, rooks a/h on rank 1 (8 for BLACK), pawns a..h on rank 2 (7) |
| Boards.HomeSquaresApart | components/Board.js:40-109 | the thirty-two default squares are pairwise different squares of the grid |
| Boards.InitialBoardHome | components/Board.js:157-162 | a new board holds every default piece on the square its rank/file names, with positionIndex set to that square |
| Boards.InitialBoardOccupied | components/Board.js:157-162 | on a new board exactly the squares of ranks 1, 2, 7 and 8 are occupied |
| Boards.InitialBoardHomeRanks | components/Board.js:157-162 | on a new board every square of ranks 1, 2, 7 and 8 holds a piece |
| Boards.InitialBoardMiddleRanks | components/Board.js:157-162 | on a new board every square of ranks 3 to 6 is empty |
| Boards.InitialBoardSynced | components/Board.js:17-29 | on a new board every piece's positionIndex is its own square; WHITE moves first and there is no en-passant record |
| Boards.InitialBoardLabelled | components/Board.js:157-185 | on a new board every piece's rank/file names its own square, up to letter case |
| Boards.GetSquareIsEqual | components/Board.js:111-121 | labels equal up to letter case find the same square |
| Moves.HasEnemyOnBoard | components/Chess.js:430-440 | an enemy is only ever found on an occupied on-board square |
| Moves.Probe | components/Chess.js:442-460 | an empty on-board square is a move; an enemy square is a move and, when attacks are collected, an attack; an off-board or own-piece square is neither |
| Moves.RaySpec | components/Chess.js:309-428 | a ray lists the consecutive empty squares in its direction, then the first blocking square only if it holds an enemy, which is then its one attack |
| Moves.CanCastle | components/Chess.js:462-502 | "K" only with a rook three to the right, "Q" only with a rook four to the left |
| Moves.CanCastleSpec | components/Chess.js:462-502 | a moved, checked or non-king piece cannot castle; otherwise "K" iff rook at x+3 with x+1, x+2 empty, else "Q" iff rook at x−4 with x−1..x−3 empty |
| Moves.PawnPushSpec | components/Chess.js:579-597 | the square one row ahead (toward row 0 when the pawn's side is the board's side) is listed iff it is on the grid and empty |
| Moves.PawnJumpSpec | components/Chess.js:586-596 | the double step is listed iff the pawn never moved and both squares ahead are empty |
| Moves.PawnCaptureSpec | components/Chess.js:599-604 | a forward diagonal is listed iff it holds an enemy |
| Moves.PawnMovesShape | components/Chess.js:579-605 | a pawn's attacks are among its moves and are forward diagonals; its other moves are only the push and the jump |
| Moves.PawnMovesMembers | components/Chess.js:579-605 | a square is a pawn move iff it is the free square ahead, the square two ahead of an unmoved pawn with both squares free, or a forward diagonal holding an enemy |
| Moves.Generate | components/Chess.js:608-613 | the stored lists are the kind's lists, with the en-passant target appended to the moves of every kind while a record exists |
| Moves.RaySound | components/Chess.js:309-428 | every ray square is on the board and free of own pieces; every attack is a listed move holding an enemy |
| Moves.LoopMovesSound | components/Chess.js:546-578 | the same holds for the union of several rays or knight jumps |
| Moves.KingProbesSound | components/Chess.js:522-535 | king steps are sound and never produce attacks |
| Moves.KindMovesSound | components/Chess.js:522-605 | every kind's generated list is sound; a king's attack list is always empty |
| Rules.CountMatchingPositive | components/Chess.js:653 | the filter of recorded capturers is non-empty iff one of them matches the piece's rank/file |
| Rules.IsEmpasantMoveSpec | components/Chess.js:644-654 | en passant iff a record exists, the piece is a pawn, it moves onto the target, and it is a recorded capturer |
| Rules.Capturers | components/Chess.js:777-783 | the recorded capturers are at most the two side neighbours, non-empty iff an enemy stands beside the landing square |
| Rules.NextEnPassant | components/Chess.js:773-790 | only a never-moved pawn jumping two rows next to an enemy makes a record (landing square, neighbours, target one row up); every other never-moved pawn move, a jump with no enemy beside it included, keeps the old record; every other move clears it |
| Rules.EnPassantTargetSkipped | components/Chess.js:784 | the target is the square the pawn skipped only for a pawn moving toward row 7 |
| Rules.Refresh | components/Chess.js:946-952 | regenerating every piece's lists keeps occupants, turn, record and checked flags; each piece's attacks are its kind's attacks |
| Rules.KingIn | components/Chess.js:958-967 | the first king among an attacker's attacks, in list order |
| Rules.FirstAttacker | components/Chess.js:954-971 | the first attacker in row-major order whose attacks include a king |
| Rules.MarkChecked | components/Chess.js:963 | exactly the one cell gets its checked flag set |
| Rules.IsCheck | components/Chess.js:943-974 | isCheck keeps occupants, turn and record, and any king it reports stands on the board |
| Rules.IsCheckMarks | components/Chess.js:962-964 | the reported king, and no other piece, becomes checked |
| Rules.IsCheckSpec | components/Chess.js:943-974 | a king is reported only when it is attacked, and none is reported iff no king is attacked |
| Rules.ResetChecked | components/Chess.js:665-674 | resetLands clears every checked flag and changes nothing else |
| Rules.Promoted | components/Chess.js:768-770 | a pawn whose destination is labelled rank 1 or 8 becomes a queen with nothing else changed; in every other case the piece is left exactly as it is |
| Rules.Landed | components/Chess.js:794-801 | the landed piece knows its new square and label and is no longer unmoved |
| Rules.Finish | components/Chess.js:759-801 | after landing: source empty, destination holds the landed piece, the en-passant victim removed, no other occupant changed, no piece checked, the record made, kept or cleared as the source does, from the enemies beside the landing square after any en-passant capture |
| Rules.FinishSynced | components/Chess.js:792-799 | landing keeps every piece's positionIndex on its own square |
| Rules.TryMove | components/Chess.js:690-819 | the turn never changes inside tryMove; the probe accepts only applied moves; a real move is accepted iff it is applied; a rejected one changes no occupant |
| Rules.TryMoveLands | components/Chess.js:759-801 | an applied move empties its source and lands the piece, promoted when due and marked as moved to its new square, on its destination |
| Rules.Staged | components/Chess.js:723-757 | the steps before landing keep the turn, and outside castling they keep every occupant and the record |
| Rules.Complete | components/Chess.js:759-811 | the landing step always applies, keeps the turn, empties the source and fills the destination with the landed piece; a real move is accepted |
| Rules.CompleteProbe | components/Chess.js:803-811 | on the copy, the landing step accepts iff no king of the side to move ends up checked |
| Rules.TryMoveRejects | components/Chess.js:690-739 | missing pieces, off-grid squares and off-turn local moves change nothing; an applied move passed the gate and the copy probe, lies in the generated list and leaves its square |
| Rules.TryMoveFrame | components/Chess.js:759-801 | outside castling, no square changes except source, destination and an en-passant victim, which is emptied |
| Rules.TryMoveRecord | components/Chess.js:773-790 | every applied move, castling included, sets the record exactly as the source does: a new record naming the enemies beside the landing square for a never-moved pawn's double step next to an enemy, the old record for any other never-moved pawn move, none otherwise |
| Rules.CastleFrame | components/Chess.js:741-801 | an applied castling, whose corner holds no king or pawn, changes no occupant except on the king's square, its destination, the corner and the square the king passes over |
| Rules.TryMoveSynced | components/Chess.js:792-797 | every move, the rook's sub-move included, keeps each positionIndex on its own square |
| Rules.TryMoveLabelled | components/Chess.js:792-797 | every move, the rook's sub-move included, leaves each piece carrying its own square's rank/file, up to letter case |
| Rules.CastleMovesRook | components/Chess.js:741-757 | when the rook's sub-move goes through, the corner is empty and the rook stands on the square the king passed over |
| Rules.OutOfTurnCastleLeavesRook | components/Chess.js:747-755 | for a received castling, where this client is not to move, the rook's two squares keep their occupants |
| Rules.IsCheckVerdict | components/Chess.js:954-971 | on an unmarked board, the reported king has a side iff afterwards a king of that side is marked checked |
| Rules.TryMoveProbe | components/Chess.js:803-811 | the copy probe accepts iff the move applies and leaves no king of the side to move checked |
| Game.AnyEscape | components/Chess.js:912-918 | some stored move passes the probe iff one of the listed squares passes it |
| Game.PiecesEscapeSpec | components/Chess.js:900-910 | the scan over pieces finds an escape iff some listed piece has one |
| Game.KingCheckMateSpec | components/Chess.js:895-921 | checkmate iff no piece of the side to move and no move of the reported king passes the probe |
| Game.StuckSpec | components/Chess.js:895-921 | both scans of kingCheckMate find nothing iff no piece of the side to move has a move passing the probe and no listed move of the king passes it |
| Game.KingCells | components/Chess.js:853-867 | getAllPieces(KING) lists exactly the kings' cells |
| Game.IsDrawSpec | components/Chess.js:923-941 | the draw probe holds iff some king on the board has no stored move that passes the probe |
| Game.CheckCheck | components/Chess.js:836-851 | checkCheck keeps occupants, turn and record; a loser is named iff isCheck reports a king and kingCheckMate holds for it, and the loser is that king's side |
| Game.PlayerMove | components/Chess.js:97-112 | a move is accepted iff tryMove accepts it; then the turn flips, and a local move is sent with its from/to labels and the mover's side; a refused move changes nothing |
| Game.TurnAlternates | components/Chess.js:97-98 | a corollary of the flip in Game.PlayerMove: after two accepted moves in a row the same side is to move again |
| Game.LocalMoveHandsOver | components/Chess.js:98-103 | a local move is accepted only on this client's turn, and afterwards it is not this client's turn |
| Game.TryMoveFromMove | components/Chess.js:680-691 | a received move is never sent back; an empty `from` square changes nothing; a `to` label naming no square only regenerates the lists of the piece on `from`; otherwise the move is played as a remote move between the labelled squares |
| Game.SentLabels | components/Chess.js:693-697 | on a labelled board the move a client sends carries its two squares' rank/files, up to letter case |
| Game.PlayerMoveLabelled | components/Chess.js:97-112 | a played move keeps every piece carrying its own square's rank/file |
| Game.TryMoveFromMoveLabelled | components/Chess.js:680-688 | replaying a received move keeps every piece carrying its own square's rank/file |
| Game.ReplayMirrored | components/Chess.js:680-688 | the move one client sends names, on the other client's board, the two squares mirrored top to bottom, and tryMoveFroMove replays it between them |
| Game.MirroredLabel | components/Board.js:187-195 | the receiving client, drawn for the other side, finds the square mirrored top to bottom under the same label |
| Server.RemoveDisconnected | server/ChessServer.js:6-8 | exactly the requests whose socket is connected survive |
| Server.RemoveDisconnectedKeepsOrder | server/ChessServer.js:6-8 | the survivors keep their relative order |
| Server.RemoveDisconnectedConcat | server/ChessServer.js:6-8 | pruning a concatenation prunes each part |
| Server.RemoveDisconnectedIdempotent | server/ChessServer.js:6-8 | pruning twice prunes nothing more |
| Server.RemoveDisconnectedDistinct | server/ChessServer.js:6-8 | pruning keeps the waiting intervals distinct |
| Server.FirstSameInterval | server/ChessServer.js:63-66 | the first waiting request asking for the same minutes and seconds, or none when no request does |
| Server.Swap | server/ChessServer.js:102-103 | the destructuring swap exchanges the two entries and leaves every other entry in place |
| Server.ShuffleFromPermutes | server/ChessServer.js:91-105 | every pass of the loop is a swap, so the loop keeps the same elements |
| Server.Shuffle | server/ChessServer.js:91-105 | shuffle returns a permutation of its input |
| Server.ShuffleTwo | server/ChessServer.js:91-105 | on two elements the one random draw that matters decides whether they swap |
| Server.DoMatch | server/ChessServer.js:107-134 | the two requests become white and black in some order, the match takes white's interval and the given uuid, exactly one match is appended, and both requesters are told (request1 first) |
| Server.InsertMatchRequest | server/ChessServer.js:62-82 | a request is paired with the first waiting request of equal interval, which alone leaves the list; otherwise it is appended |
| Server.InsertMatchRequestCounts | server/ChessServer.js:62-82 | the request either waits or leaves with one partner: none is lost or duplicated |
| Server.InsertMatchRequestKeepsOrder | server/ChessServer.js:62-82 | the waiting list afterwards is a subsequence of the old list followed by the new request |
| Server.InsertMatchRequestDistinct | server/ChessServer.js:62-82 | no two waiting requests ever ask for the same interval |
| Server.FirstMatch | server/ChessServer.js:26-34 | the position of the first match with the uuid, or none when no match has it |
| Server.FindMatch | server/ChessServer.js:26-34 | FindMatch returns the first match with the uuid, and null exactly when none has it |
| Server.Relay | server/ChessServer.js:36-60 | an unknown match emits nothing; otherwise one message of the given type goes to black iff the sender is white's player, else to white |
| Server.ParseClientMessage | server/ChessServer.js:10-24 | only type 100 adds matches; types other than 100, 102 and 103 only prune; matches and messages are only ever appended |
| Server.ParseClientMessageDistinct | server/ChessServer.js:10-24 | from an empty list, no dispatch ever leaves two waiting requests with the same interval |
| Server.ParseClientMessageKeepsOrder | server/ChessServer.js:10-24 | after a dispatch the waiting requests keep their relative order |

## Left out

- Drawing, the canvas, mouse handling, timers and clocks, and the DOM half of `gameOver` are left out. They hold no state the rules depend on.
- Socket and JSON plumbing (`sendMoveToSocket`, `listenToSocket`, `parseMessageFromSocket`, the client matchmaking page, the express server) is left out. A move the client sends is returned as `Game.Played.sent`, and every server emit is appended to `Server.State.sent`.
- `uuidv4` and `Math.random` become parameters. The match uuid is passed in. The shuffle's draws are a list of indices, each below the loop's current index.
- Move generation reads a piece's square from the cell it occupies, not from its `positionIndex`. The two agree on every board reached from the default setup: `Boards.InitialBoardSynced` and `Rules.TryMoveSynced` prove that each piece's `positionIndex` stays its own square.
- The en-passant record stores the jumping pawn's square and a snapshot of the capturers' rank/files. The source keeps references to the pieces. Those pieces cannot move while the record lives without replacing or clearing it, except another never-moved pawn's move.
- When a king's move throws in the source, the model chooses a value. Castling eligibility for an unmoved, unchecked king outside columns d..f is "no castle". A castling move whose rook corner lies off the grid skips the rook's sub-move. Neither happens from the standard setup.
- A trial move onto a square off the grid is refused. For a column off the grid the source does the same: it finds no square and `tryMove` returns false. For a row off the grid the source fails reading the row; the model refuses that move too.
- The branch of `tryMove` taken for a non-empty precomputed move list is dead: every caller passes an empty list or `false`. It is left out.
- A real `tryMove` in the source returns nothing once applied. The model reports it as accepted (`ok`). `Rules.Outcome.applied` is a model-only field that says whether the move reached the landing step.
- `DeepClone`'s failure path (it returns `false` on an exception) is left out. The copy is the board value.
- `getEnemySide` is unused by the core and left out.
- `kingCheckMate` and `isDraw` take each piece's square from its cell.
- Game.TryMoveFromMove: a `from` label that names no square makes the source fail reading that square; the model refuses the move and leaves the board as it is. Its accepted case is whatever `Game.PlayerMove` states for a remote move after the mover's lists are regenerated.
- Rules.CastleFrame: a castling whose corner holds a king or a pawn is not covered. That piece's own sub-move could castle again or capture en passant and touch further squares. isKingCanCastle only offers castling with a rook on the corner, but the en-passant target appended to every list can make a king's two-column step count as castling.
- `Game.CheckCheck`: the draw probe runs in the source only to have its answer dropped. The model does not compute it, and `Game.IsDrawSpec` states the probe on its own.
- `Server.ParseClientMessage`: a socket's connection state is the set `connected` passed to each dispatch rather than a field read from the socket object. Messages to sockets that have since disconnected are still recorded as emitted.
- The server never removes a finished match from its registry. The model keeps it that way.
