# Voice-command chess interpreter

A Dafny model of the command interpreter of ChessTalk. ChessTalk is a browser
chess board that is played by speaking. A recognized transcript goes through
`processVoiceCommand`, which does four things:

- It lower-cases the transcript and splits it on single spaces.
- It maps each token through the `voiceCommands` table and re-joins the tokens.
- It picks an intent by substring tests, in a fixed order.
- It runs the handler for that intent against the chess engine.

The same page state is also changed by:

- the board's drag handler (`handleMove`);
- the draw buttons (offer, accept, reject);
- the resign buttons (request, confirm, cancel);
- `resetGame`.

The chess engine (chess.js) is treated as an oracle `Chess.Engine`. Every game
starts from the initial position and changes only by moves, so each engine
query is a function of the SAN history:

- `legal`: the legal moves as candidates `{color, piece, from, to, san}`, in
  enumeration order;
- `play`: a move from one square to another, which may be refused;
- `castle`: a castling move, which may be refused;
- `board`: the colour on each square;
- `inCheck`, `inCheckmate`, `isDraw`: the three status flags.

The side to move is the parity of the history's length.

## Modules

- `Text`: ASCII lower-casing, `split(' ')` and `join`, and `includes` as
  `Contains`. Also decimal rendering for move numbers.
- `Vocabulary`: the `voiceCommands` table. The 64 square entries are identity
  on `[a-h][1-8]`; every other entry is kept exactly as written, including the
  two castling keys that contain a space.
- `Normalizer`: a transcript becomes its raw tokens and its normalized string.
- `Classifier`: the intent chain `move`/`to`, `o-o`, `resignation`, `draw`,
  `undo`, `read`, otherwise not recognized.
- `Extractor`: the piece scan (left to right from token 1) and the destination
  scan (right to left). Each is a loop proved equal to a first-index or
  last-index function.
- `Resolver`: `Array.find` over the candidates.
- `Presentation`: these parts.
  - The announcement texts.
  - The status line chosen by `updateStatus`.
  - The move-list pairing of `updateMoveList`, as a loop proved equal to
    `MoveLines`.
  - The read-back text.
  - `getValidMoves`, as nested loops that fill a map, proved against
    `Movable` and `Targets`.
- `Interpreter`: the page state and its handlers.
  - `State` holds:
    - the history;
    - `drawOfferedBy`;
    - whether the resign confirmation is shown;
    - whether the board is blocked;
    - the status text;
    - the move-list lines.
  - Each handler is a function of the old state: `Step` for a voice command,
    `HandleMoveStep`, `DragStep`, and the button steps.
  - Class `Session` keeps the same state in fields. Each of its methods is
    proved to leave exactly the state its function gives.
- `Properties`: what the handlers promise together.

How the code behaves as written, each fact stated by a lemma:

- The substring tests select a move for any transcript that holds "to" or
  "move" anywhere, even inside a longer word
  (`Classifier.TranscriptKeywordIsMove`). For example, the single word "stop" is
  a move command (`Classifier.StopIsAMove`).
- "Castle kingside" and "castle queenside" are never recognized
  (`Classifier.CastlePhrasesUnrecognized`). Their table keys contain a space,
  so no single token can match them. Neither phrase contains an `o` or an `r`,
  so no intent test passes either.
- Undo redraws neither the status line nor the move list. After the only move
  is undone, the list still shows it (`Properties.UndoLeavesMoveListed`).
- `resetGame` keeps a pending draw offer (`Properties.ResetKeepsDrawOffer`).
- A voice move re-enables a board that an agreed draw or a resignation had
  blocked (`Properties.VoiceMoveReopensBoard`).

## Model

| member | source | states |
|---|---|---|
| `Text.LowerHasNoUpper` | public/script.js:311 | after `toLowerCase` no character is an upper-case ASCII letter |
| `Text.Split` | public/script.js:312 | `split(' ')` yields at least one token, and no token holds a space |
| `Text.JoinSplit` | public/script.js:312-315 | joining the split pieces with single spaces gives back the original string |
| `Text.SplitJoin` | public/script.js:312-315 | splitting a join of space-free tokens gives back the same tokens (count included) |
| `Text.ContainsIsOccurrence` | public/script.js:319 | `includes(sub)` holds exactly when `sub` occurs at some position of the string |
| `Text.NatToString` | public/script.js:283 | the move number is a non-empty string of decimal digits with no leading zero |
| `Text.ParseNatToString` | public/script.js:283 | reading the rendered move number back gives back the number |
| `Vocabulary.Lookup` | public/script.js:28-37 | `voiceCommands[t]`: every square name maps to itself, and every other key maps through `WORDS`, the table entries exactly as written (the two castling keys included) |
| `Vocabulary.NormalizeToken` | public/script.js:314 | `voiceCommands[t]`, falling back to `t`: the table image of a token that has one, the token itself otherwise |
| `Vocabulary.PieceWords` | public/script.js:28-37 | a token's table image is a piece letter exactly when the token is one of rook, knight, bishop, queen, king, pawn |
| `Vocabulary.NormalizeTokenIdempotent` | public/script.js:314 | mapping a token through the table twice is the same as mapping it once |
| `Vocabulary.NormalizeTokenShape` | public/script.js:314 | a single space-free lower-case token maps to a space-free lower-case token |
| `Normalizer.Tokens` | public/script.js:311-312 | the raw tokens `parts`: the lower-cased transcript split on single spaces |
| `Normalizer.NormalizeAll` | public/script.js:314 | each raw token replaced by its table image, in order |
| `Normalizer.Normalized` | public/script.js:311-315 | the string the intent tests read: the mapped tokens joined with single spaces |
| `Normalizer.TokensShape` | public/script.js:311-312 | every raw token is space-free and has no upper-case letter |
| `Normalizer.NormalizedSplitsToTokens` | public/script.js:312-315 | the normalized string splits into as many tokens as the transcript; each is the table image of the raw token when it has one and the raw token otherwise |
| `Normalizer.NormalizeIdempotent` | public/script.js:311-315 | normalizing a normalized command changes nothing |
| `Normalizer.OtherKeysLackKeyword` | public/script.js:28-37 | no table key other than "move" holds "move", and none other than "to" holds "to" |
| `Normalizer.NormalizeTokenKeepsKeyword` | public/script.js:314 | a raw token holding "move" or "to" still holds it after the table lookup |
| `Normalizer.NormalizedKeepsKeyword` | public/script.js:311-315 | when the lower-cased transcript holds "move" or "to", so does the normalized string |
| `Classifier.Classify` | public/script.js:319-438 | the `includes` chain in source order: move or to, then o-o (queenside when o-o-o occurs), resignation, draw, undo, read, and not recognized otherwise |
| `Classifier.FirstRule` | public/script.js:319-438 | the index returned is the first rule whose keyword the string contains; none is returned only when it contains no keyword |
| `Classifier.ClassifyIsFirstMatch` | public/script.js:319-438 | the intent is that of the first keyword in the order move/to, o-o, resignation, draw, undo, read, and not recognized when none occurs |
| `Classifier.MoveTakesPrecedence` | public/script.js:319 | a string containing "move" or "to" is a move, even with "draw" appended or "undo" in front |
| `Classifier.CastleSide` | public/script.js:357-358 | a castle command contains "o-o", and it is queenside exactly when it contains "o-o-o" |
| `Classifier.WithoutOAndRUnrecognized` | public/script.js:437-438 | a normalized command with no `o` and no `r` matches no intent |
| `Classifier.TranscriptKeywordIsMove` | public/script.js:311-319 | a transcript holding "move" or "to" anywhere, inside a longer word too, is a move command |
| `Classifier.StopIsAMove` | public/script.js:319 | the single word "stop" classifies as a move command |
| `Classifier.WithoutOAndRTranscriptUnrecognized` | public/script.js:311-319 | a transcript with no `o` and no `r` is never recognized, since no table value adds either letter |
| `Classifier.CastlePhrasesUnrecognized` | public/script.js:28-37 | "castle kingside" and "castle queenside" are not recognized commands |
| `Extractor.FirstPieceIndex` | public/script.js:323-328 | the index returned is the first token at or after the start whose image is a piece letter; none only when there is no such token |
| `Extractor.Piece` | public/script.js:323-328 | an extracted piece is one of r, n, b, q, k, p |
| `Extractor.FindPiece` | public/script.js:323-328 | the loop finds the image of the first piece word from index 1 on, or nothing |
| `Extractor.FirstTokenIgnored` | public/script.js:323 | the first token never affects the extracted piece |
| `Extractor.DestinationAt` | public/script.js:331-338 | what an index offers is a square `[a-h][1-8]`; the whole token is tried before the file-then-rank pair |
| `Extractor.LastDestinationIndex` | public/script.js:330-339 | the index returned is the rightmost one that offers a destination; none only when no index does |
| `Extractor.Destination` | public/script.js:330-339 | an extracted destination is a two-character square name |
| `Extractor.FindDestination` | public/script.js:330-339 | the downward loop finds the destination at the rightmost index that offers one, or nothing |
| `Resolver.FirstMatchIndex` | public/script.js:348 | the index returned is the first candidate with the requested piece and destination; none only when no candidate matches |
| `Resolver.Resolve` | public/script.js:347-348 | a resolved move is a legal candidate with the requested piece and destination; nothing is resolved exactly when no candidate matches |
| `Resolver.ResolvePicksFirst` | public/script.js:348 | with several matching candidates, the one enumerated first is chosen |
| `Resolver.ResolveIgnoresLaterCandidates` | public/script.js:348 | candidates listed after a match never change the choice |
| `Presentation.AnnounceMove` | public/script.js:171 | the move announcement "Player 1" or "Player 2", then " made the move ", then the SAN |
| `Presentation.AnnounceState` | public/script.js:215 | the state announcement: the player, two spaces, then the text |
| `Presentation.AnnounceMoveInjective` | public/script.js:171 | different player or SAN give different move announcements |
| `Presentation.AnnounceStateInjective` | public/script.js:215 | different player or text give different state announcements |
| `Presentation.StatusOf` | public/script.js:254-271 | checkmate wins first and names the side not to move; check is next, then draw, then whose turn it is |
| `Presentation.StatusText` | public/script.js:254-271 | the four status texts: "Checkmate! X wins 🎉", "Check! X's turn", "Draw! The game has ended 🤝", "X's turn" |
| `Presentation.StatusTextInjective` | public/script.js:254-271 | the four kinds of status line never share a text |
| `Presentation.MoveLine` | public/script.js:282-284 | line k is "k+1. " and the move at 2k, then " " and the move at 2k+1 when it exists |
| `Presentation.MoveLines` | public/script.js:274-296 | a history of n moves gives ceil(n/2) lines |
| `Presentation.BuildMoveList` | public/script.js:274-296 | the accumulating loop builds exactly the paired lines "k. white black", with a last line holding only White's move when n is odd |
| `Presentation.MoveLinesPrefix` | public/script.js:274-296 | a further move never changes the completed lines before it |
| `Presentation.MoveLinesExtendWhite` | public/script.js:283 | a White move adds a new line "k. san" |
| `Presentation.MoveLinesExtendBlack` | public/script.js:285 | a Black move completes the last line with " san" |
| `Presentation.ReadBack` | public/script.js:432-435 | "these are the moves made: " then the history joined by ", ", or "No moves" when it is empty |
| `Presentation.ReadBackExtend` | public/script.js:432-435 | the read-back lists the moves joined by ", " with "No moves" when there are none; a new move appears at the end |
| `Presentation.SquareName` | public/script.js:132 | the square built from board coordinates is the square name with that column and row |
| `Presentation.SquareNameOfCoordinates` | public/script.js:132 | every square name comes from its own coordinates |
| `Presentation.TargetsAreLegalDestinations` | public/script.js:133-136 | a destination is listed for a square exactly when some legal move goes from that square to it |
| `Presentation.ValidDests` | public/script.js:127-141 | the map has a key exactly for the squares holding a piece of the side to move that has a legal move, and maps each to its legal destinations |
| `Interpreter.Spoken` | public/script.js:440-444 | a caught error is spoken as a move announcement for White with the SAN "Error: " and the message |
| `Interpreter.AfterMove` | public/script.js:145-157 | after an accepted move: the SAN appended, the board open, status and move list redrawn for the new position |
| `Interpreter.HandleMoveStep` | public/script.js:143-164 | `handleMove`: the move the engine makes from the two squares, announced for the side that moved; nothing changes when the engine refuses |
| `Interpreter.DragStep` | public/script.js:19-21 | a drag reaches `handleMove` only while the board is open |
| `Interpreter.OfferDrawStep` | public/script.js:555-576 | the draw button: the offer recorded for the side to move only when none is pending, the status asking for confirmation |
| `Interpreter.AcceptDrawStep` | public/script.js:578-584 | accepting: the offer cleared, the status "Draw agreed! 🤝", the board blocked |
| `Interpreter.RejectDrawStep` | public/script.js:586-590 | rejecting: the offer cleared |
| `Interpreter.RequestResignStep` | public/script.js:507-511 | the resign button: the confirmation shown, the status asking for confirmation |
| `Interpreter.ConfirmResignStep` | public/script.js:513-518 | confirming: the confirmation hidden, the status saying the player resigned, the board blocked |
| `Interpreter.CancelResignStep` | public/script.js:520-522 | cancelling: the confirmation hidden |
| `Interpreter.ResetStep` | public/script.js:592-611 | `resetGame`: empty history and list, status "White's turn", board open |
| `Interpreter.MoveStep` | public/script.js:320-355 | the move branch: "Could not identify piece or destination" without both parameters, "Invalid move for P to S" when no legal move matches, otherwise the first match played through `handleMove` and announced |
| `Interpreter.Step` | public/script.js:319-438 | the dispatcher: the branch of the classified intent, with the castle, resign, draw, undo, read and not-recognized branches as written, including the move-list refresh of resign and draw and the missing refresh of undo |
| `Interpreter.Session.constructor` | public/script.js:553 | a new page has no moves, no draw offer, no pending resignation and an open board |
| `Interpreter.Session.UpdateStatus` | public/script.js:254-271 | only the status changes, to the line chosen for the current position |
| `Interpreter.Session.UpdateMoveList` | public/script.js:274-296 | only the move list changes, to the lines of the current history |
| `Interpreter.Session.HandleMove` | public/script.js:143-164 | an accepted move extends the history, re-enables the board, and refreshes status and list, announcing the mover and the SAN; a refused one changes nothing |
| `Interpreter.Session.Drag` | public/script.js:19-21 | a drag reaches `handleMove` only while the board is not blocked |
| `Interpreter.Session.OfferDraw` | public/script.js:555-576 | the offer is recorded for the side to move only when none is pending, and the status asks for confirmation |
| `Interpreter.Session.AcceptDraw` | public/script.js:578-584 | the offer is cleared, the status reads "Draw agreed! 🤝" and the board is blocked |
| `Interpreter.Session.RejectDraw` | public/script.js:586-590 | the offer is cleared and nothing else changes |
| `Interpreter.Session.RequestResign` | public/script.js:507-511 | the resign confirmation is shown and the status asks for confirmation |
| `Interpreter.Session.ConfirmResign` | public/script.js:513-518 | the confirmation closes, the status reads that the player resigned and the board is blocked |
| `Interpreter.Session.CancelResign` | public/script.js:520-522 | the confirmation closes and nothing else changes |
| `Interpreter.Session.Reset` | public/script.js:592-611 | the history, the status and the list start over on an open board |
| `Interpreter.Session.ProcessVoiceCommand` | public/script.js:307-444 | the state and reply after a command are those `Step` gives: normalize, classify, then the handler for the intent |
| `Properties.FailedCommandChangesNothing` | public/script.js:440-444 | a command that ends in a caught error leaves the whole state as it was |
| `Properties.HistoryMovesByOne` | public/script.js:319-438 | a command keeps the history, appends one move (move or castle commands only, with status and list refreshed and the board re-enabled), or drops the last move (undo only) |
| `Properties.TurnPassesOnEachChange` | public/script.js:319-438 | whenever a command changes the history, the other side is to move |
| `Properties.MoveCommandOutcome` | public/script.js:319-355 | a move command is announced exactly when piece and destination were heard and a legal move matches; it fails with "Could not identify piece or destination" when either is missing, and with "Invalid move for P to S" and the state unchanged when no legal move matches; the announced move is the first match, and the game holds that move unless the engine refused it |
| `Properties.UndoOnEmptyFails` | public/script.js:414-429 | undo with an empty history fails with "No moves to undo" and changes nothing |
| `Properties.UnrecognizedFails` | public/script.js:437-438 | a command matching no intent fails with "Command not recognized" and changes nothing |
| `Properties.DrawOfferOnlyByOffering` | public/script.js:387-412 | only a draw command with no offer pending changes the offer, and it records the side to move |
| `Properties.VoiceNeverConcludes` | public/script.js:377-386 | only a resign command changes the resign confirmation, and only to shown; no voice command blocks the board |
| `Properties.VoiceDrawOfferIdempotent` | public/script.js:387-412 | saying a draw offer twice gives the same state and reply as saying it once |
| `Properties.DrawButtonIdempotent` | public/script.js:555-576 | pressing the draw button twice is pressing it once; a pending offerer is kept |
| `Properties.UndoReversesMove` | public/script.js:414-430 | undo after a move gives back the history and turn and announces the undone SAN for its mover; status and list still show the undone move |
| `Properties.UndoLeavesMoveListed` | public/script.js:414-430 | after the only move is undone the list still reads "1. san", which is not the list of the empty history |
| `Properties.AgreedDrawBlocksBoard` | public/script.js:578-584 | after an agreed draw no offer is pending and every drag is refused |
| `Properties.ConfirmedResignBlocksBoard` | public/script.js:513-518 | after a confirmed resignation every drag is refused |
| `Properties.DeclinesOnlyCloseDialogs` | public/script.js:586-590 | rejecting the draw and cancelling resignation close their dialog and keep game, board and status |
| `Properties.DragKeepsDialogs` | public/script.js:143-164 | a board move leaves a pending draw offer and resign confirmation in place |
| `Properties.VoiceMoveReopensBoard` | public/script.js:360-368 | a command that adds a move re-enables the board |
| `Properties.ResetKeepsDrawOffer` | public/script.js:592-611 | a reset empties history and list and opens the board but keeps a pending draw offer |
| `Properties.MoveKnightToF3` | public/script.js:307-355 | "move knight to f3" at the start plays the first matching knight move to f3, leaves Black to move with the list "1. Nf3" and, when the engine reports no check, mate or draw, the status "Black's turn", and announces "Player 1 made the move Nf3" |

## Left out

- Speech recognition is left out: starting and stopping it, the keyboard toggle, and the result, error and end callbacks with the automatic restart. This is browser event plumbing. The transcript is a parameter of `ProcessVoiceCommand`.
- Speech synthesis is left out: voice selection, cancelling and speaking. Only the text to be spoken is modelled, as the reply of a command (`Interpreter.Spoken`) and the `spoken` results of the handlers.
- The timer-driven parts are left out: the delayed "made Check"/"made Checkmate" announcements of `updateStatus`, and the polling that shows the draw dialog after the turn changes. Visibility of the draw dialog is not part of the state.
- Display calls are left out: board rendering, the `innerHTML` message log (`Command:`, error lines, `updateMoveMessages`), and the exit and start screens. Only the status text, the move-list lines and whether the board is blocked are kept.
- Interpreter.Session.ProcessVoiceCommand: the move branch announces twice, once inside `handleMove` and once after it; the reply keeps only the second announcement.
- A candidate's `san` and the SAN `play` returns may differ when `handleMove` promotes to a queen. The model keeps both values as the source uses them.
- Interpreter.Session.Drag: the board's restriction of drags to the destination map from `getValidMoves` is not modelled. Any drag on an open board goes to `handleMove`, and the engine's refusal stands for an illegal one.
- The initial status text lives in the page markup, which is not part of this model. The constructor starts from "White's turn", as `resetGame` sets it.
- Lower-casing covers ASCII letters only, with no Unicode case mapping.
- Table lookups of object-prototype names such as "constructor" are not modelled. The table is a plain map.
- chess.js, the rules engine, is not part of this model. It is the abstract `Chess.Engine`, and a move or castle it refuses is `None`, as the source's `if (move)` and `if (result)` tests expect. The build served by server.js:10 is chess.js 1.x, whose `move` throws on an illegal move instead of returning `null`. With that build, a refused castle is answered with the engine's own error text, caught at lines 440-444, and the "Castling not allowed" branch (line 374) is never reached. A refused drag then ends in an uncaught exception rather than the `else` branch of `handleMove`, with the same unchanged state. The model keeps the branches as written and does not model the engine's error texts.
- server.js serves static files only and is not part of this model.
