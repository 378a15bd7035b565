/**
  The dispatcher `processVoiceCommand`, `handleMove`, and the button handlers of
  the draw and resign dialogs, over the page's mutable state: the game history
  kept by the engine, `drawOfferedBy`, whether the resign confirmation is shown,
  whether the board is blocked, the status line and the move list.

  `Step` and the other functions below give the meaning of each handler as a
  function of the old state; the class `Session` holds the state in fields and
  its methods change them in the source's order, each proved to agree with its
  function.
 */
module Interpreter {
  import opened Wrappers
  import opened Text
  import opened Normalizer
  import opened Classifier
  import opened Extractor
  import opened Chess
  import opened Resolver
  import opened Presentation

  const RESIGN_REQUESTED := "The player has requested to resign. Please confirm or cancel"
  const DRAW_REQUESTED := "The player has requested a draw. Please confirm or cancel"
  const DRAW_AGREED := "Draw agreed! \U{1F91D}"
  const RESIGNED := "The player has resigned \U{1F3F3}\U{FE0F}"
  const WHITES_TURN := "White's turn"

  const MISSING_PARAMETER := "Could not identify piece or destination"
  const CASTLING_REFUSED := "Castling not allowed"
  const NOTHING_TO_UNDO := "No moves to undo"
  const NOT_RECOGNIZED := "Command not recognized"

  datatype State = State(
    history: seq<string>,
    drawOfferedBy: Option<Color>,
    resignPending: bool,
    locked: bool,
    status: string,
    moveList: seq<string>
  )

  /** The outcome of one voice command: what was announced, or the error that was caught. */
  datatype Reply = Said(text: string) | Failed(reason: string)

  /** What is spoken for a reply: errors are announced through `announceMove` as White. */
  function Spoken(r: Reply): string {
    match r
    case Said(text) => text
    case Failed(reason) => AnnounceMove(White, "Error: " + reason)
  }

  /** A fresh game: no moves, no offer, nothing pending, White to move. */
  function Initial(): State {
    State([], None, false, false, WHITES_TURN, [])
  }

  /** `updateStatus` for the position after `history`. */
  function StatusFor(e: Engine, history: seq<string>): string {
    StatusText(StatusOf(e.inCheckmate(history), e.inCheck(history), e.isDraw(history), Turn(history)))
  }

  /** The state after the engine accepted a move with SAN `san`: board re-enabled, status and list refreshed. */
  function AfterMove(s: State, e: Engine, san: string): State {
    var h := s.history + [san];
    s.(history := h, locked := false, status := StatusFor(e, h), moveList := MoveLines(h))
  }

  /** `handleMove(orig, dest)`: the new state and what it announces, if the engine accepts the move. */
  function HandleMoveStep(s: State, e: Engine, orig: string, dest: string): (State, Option<string>) {
    match e.play(s.history, orig, dest)
    case Some(san) => (AfterMove(s, e, san), Some(AnnounceMove(Turn(s.history), san)))
    case None => (s, None)
  }

  /** A drag on the board: the board only lets a move through while it is not blocked. */
  function DragStep(s: State, e: Engine, orig: string, dest: string): (State, Option<string>) {
    if s.locked then (s, None) else HandleMoveStep(s, e, orig, dest)
  }

  // ---------------------------------------------------------------------------
  // Draw offer and resign confirmation
  // ---------------------------------------------------------------------------

  /** `drawOfferedBy` after an offer: set to the side to move only when no offer is pending. */
  function OfferedBy(pending: Option<Color>, turn: Color): Option<Color> {
    if pending.None? then Some(turn) else pending
  }

  /** The draw button. */
  function OfferDrawStep(s: State): State {
    s.(drawOfferedBy := OfferedBy(s.drawOfferedBy, Turn(s.history)), status := DRAW_REQUESTED)
  }

  /** Accepting the draw clears the offer and blocks the board. */
  function AcceptDrawStep(s: State): State {
    s.(drawOfferedBy := None, status := DRAW_AGREED, locked := true)
  }

  /** Rejecting the draw clears the offer and nothing else. */
  function RejectDrawStep(s: State): State {
    s.(drawOfferedBy := None)
  }

  /** The resign button: shows the confirmation. */
  function RequestResignStep(s: State): State {
    s.(resignPending := true, status := RESIGN_REQUESTED)
  }

  /** Confirming resignation hides the confirmation and blocks the board. */
  function ConfirmResignStep(s: State): State {
    s.(resignPending := false, status := RESIGNED, locked := true)
  }

  /** Cancelling resignation only hides the confirmation. */
  function CancelResignStep(s: State): State {
    s.(resignPending := false)
  }

  /** `resetGame`: a new game on an unblocked board; the draw offer and the resign confirmation are left as they were. */
  function ResetStep(s: State): State {
    s.(history := [], locked := false, status := WHITES_TURN, moveList := [])
  }

  // ---------------------------------------------------------------------------
  // processVoiceCommand
  // ---------------------------------------------------------------------------

  /** The move branch: extract, resolve against the legal moves, apply. */
  function MoveStep(s: State, e: Engine, parts: seq<string>): (State, Reply) {
    var piece := Piece(parts);
    var to := Destination(parts);
    if piece.None? || to.None? then (s, Failed(MISSING_PARAMETER))
    else match Resolve(e.legal(s.history), piece.value, to.value)
      case None => (s, Failed(InvalidMoveMessage(piece.value, to.value)))
      case Some(c) => (HandleMoveStep(s, e, c.from, c.to).0, Said(AnnounceMove(c.color, c.san)))
  }

  function CastleName(side: Side): string {
    if side == Kingside then "Castle kingside" else "Castle queenside"
  }

  /** One voice command: the new state and the reply, following the intent of the normalized transcript. */
  function Step(s: State, e: Engine, transcript: string): (State, Reply) {
    var h := s.history;
    match Classify(Normalized(transcript))
    case Move => MoveStep(s, e, Tokens(transcript))
    case Castle(side) =>
      (match e.castle(h, side)
       case Some(san) => (AfterMove(s, e, san), Said(AnnounceMove(Turn(h), CastleName(side))))
       case None => (s, Failed(CASTLING_REFUSED)))
    case Resign =>
      (RequestResignStep(s).(moveList := MoveLines(h)), Said(AnnounceState(Turn(h), "Are you sure you want to resign?")))
    case OfferDraw =>
      (OfferDrawStep(s).(moveList := MoveLines(h)), Said(AnnounceState(Turn(h), "has proposed a draw")))
    case Undo =>
      if h == [] then (s, Failed(NOTHING_TO_UNDO))
      else
        var rest := h[..|h| - 1];
        (s.(history := rest, locked := false), Said(AnnounceState(Turn(rest), "Move undone: " + h[|h| - 1])))
    case ReadHistory => (s, Said(AnnounceState(Turn(h), ReadBack(h))))
    case Unrecognized => (s, Failed(NOT_RECOGNIZED))
  }

  // ---------------------------------------------------------------------------
  // The page state and its handlers
  // ---------------------------------------------------------------------------

  class Session {
    var history: seq<string>
    var drawOfferedBy: Option<Color>
    var resignPending: bool
    var locked: bool
    var status: string
    var moveList: seq<string>

    function Snapshot(): State
      reads this
    {
      State(history, drawOfferedBy, resignPending, locked, status, moveList)
    }

    constructor ()
      ensures Snapshot() == Initial()
    {
      history := [];
      drawOfferedBy := None;
      resignPending := false;
      locked := false;
      status := WHITES_TURN;
      moveList := [];
    }

    method UpdateStatus(e: Engine)
      modifies this
      ensures Snapshot() == old(Snapshot()).(status := StatusFor(e, history))
    {
      var turn := Turn(history);
      if e.inCheckmate(history) {
        status := StatusText(Mate(Opponent(turn)));
      } else if e.inCheck(history) {
        status := StatusText(InCheck(turn));
      } else if e.isDraw(history) {
        status := StatusText(Drawn);
      } else {
        status := StatusText(ToMove(turn));
      }
    }

    method UpdateMoveList()
      modifies this
      ensures Snapshot() == old(Snapshot()).(moveList := MoveLines(history))
    {
      moveList := BuildMoveList(history);
    }

    method HandleMove(e: Engine, orig: string, dest: string) returns (spoken: Option<string>)
      modifies this
      ensures (Snapshot(), spoken) == HandleMoveStep(old(Snapshot()), e, orig, dest)
    {
      var move := e.play(history, orig, dest);
      if move.Some? {
        var color := Turn(history);
        history := history + [move.value];
        locked := false;
        UpdateStatus(e);
        UpdateMoveList();
        spoken := Some(AnnounceMove(color, move.value));
      } else {
        spoken := None;
      }
    }

    /** The board's `after` event: a move dragged on the board. */
    method Drag(e: Engine, orig: string, dest: string) returns (spoken: Option<string>)
      modifies this
      ensures (Snapshot(), spoken) == DragStep(old(Snapshot()), e, orig, dest)
    {
      if locked {
        spoken := None;
      } else {
        spoken := HandleMove(e, orig, dest);
      }
    }

    method OfferDraw() returns (spoken: string)
      modifies this
      ensures Snapshot() == OfferDrawStep(old(Snapshot()))
      ensures spoken == AnnounceState(Turn(history), "has proposed a draw")
    {
      if drawOfferedBy.None? {
        drawOfferedBy := Some(Turn(history));
      }
      spoken := AnnounceState(Turn(history), "has proposed a draw");
      status := DRAW_REQUESTED;
    }

    method AcceptDraw() returns (spoken: string)
      modifies this
      ensures Snapshot() == AcceptDrawStep(old(Snapshot()))
      ensures spoken == AnnounceState(Turn(history), "accepted the draw")
    {
      status := DRAW_AGREED;
      spoken := AnnounceState(Turn(history), "accepted the draw");
      drawOfferedBy := None;
      locked := true;
    }

    method RejectDraw()
      modifies this
      ensures Snapshot() == RejectDrawStep(old(Snapshot()))
    {
      drawOfferedBy := None;
    }

    method RequestResign() returns (spoken: string)
      modifies this
      ensures Snapshot() == RequestResignStep(old(Snapshot()))
      ensures spoken == AnnounceState(Turn(history), "Are you sure you want to resign?")
    {
      resignPending := true;
      spoken := AnnounceState(Turn(history), "Are you sure you want to resign?");
      status := RESIGN_REQUESTED;
    }

    method ConfirmResign() returns (spoken: string)
      modifies this
      ensures Snapshot() == ConfirmResignStep(old(Snapshot()))
      ensures spoken == AnnounceState(Turn(history), "resigned")
    {
      resignPending := false;
      spoken := AnnounceState(Turn(history), "resigned");
      status := RESIGNED;
      locked := true;
    }

    method CancelResign()
      modifies this
      ensures Snapshot() == CancelResignStep(old(Snapshot()))
    {
      resignPending := false;
    }

    method Reset()
      modifies this
      ensures Snapshot() == ResetStep(old(Snapshot()))
    {
      history := [];
      locked := false;
      status := WHITES_TURN;
      moveList := [];
    }

    /** `processVoiceCommand(command)`. */
    method ProcessVoiceCommand(e: Engine, command: string) returns (reply: Reply)
      modifies this
      ensures (Snapshot(), reply) == Step(old(Snapshot()), e, command)
    {
      var parts := Split(Lower(command));
      var normalized := Join(NormalizeAll(parts), " ");
      if Contains(normalized, "move") || Contains(normalized, "to") {
        var piece := FindPiece(parts);
        var to := FindDestination(parts);
        if piece.None? || to.None? {
          return Failed(MISSING_PARAMETER);
        }
        var validMove := Resolve(e.legal(history), piece.value, to.value);
        if validMove.Some? {
          var _ := HandleMove(e, validMove.value.from, validMove.value.to);
          reply := Said(AnnounceMove(validMove.value.color, validMove.value.san));
        } else {
          reply := Failed(InvalidMoveMessage(piece.value, to.value));
        }
      } else if Contains(normalized, "o-o") {
        var side := if Contains(normalized, "o-o-o") then Queenside else Kingside;
        var result := e.castle(history, side);
        if result.Some? {
          var color := Turn(history);
          history := history + [result.value];
          locked := false;
          UpdateStatus(e);
          UpdateMoveList();
          reply := Said(AnnounceMove(color, CastleName(side)));
        } else {
          reply := Failed(CASTLING_REFUSED);
        }
      } else if Contains(normalized, "resignation") {
        resignPending := true;
        UpdateStatus(e);
        UpdateMoveList();
        reply := Said(AnnounceState(Turn(history), "Are you sure you want to resign?"));
        status := RESIGN_REQUESTED;
      } else if Contains(normalized, "draw") {
        if drawOfferedBy.None? {
          drawOfferedBy := Some(Turn(history));
        }
        UpdateStatus(e);
        UpdateMoveList();
        reply := Said(AnnounceState(Turn(history), "has proposed a draw"));
        status := DRAW_REQUESTED;
      } else if Contains(normalized, "undo") {
        if history != [] {
          var undone := history[|history| - 1];
          history := history[..|history| - 1];
          locked := false;
          reply := Said(AnnounceState(Turn(history), "Move undone: " + undone));
        } else {
          reply := Failed(NOTHING_TO_UNDO);
        }
      } else if Contains(normalized, "read") {
        reply := Said(AnnounceState(Turn(history), ReadBack(history)));
      } else {
        reply := Failed(NOT_RECOGNIZED);
      }
    }
  }
}
