/**
  What the handlers promise together: how a voice command may change the game
  and the dialogs, how undo reverses a move, what blocks the board, and one
  spoken move worked through from the first token to the announcement.
 */
module Properties {
  import opened Wrappers
  import opened Text
  import opened Vocabulary
  import opened Normalizer
  import opened Classifier
  import opened Extractor
  import opened Chess
  import opened Resolver
  import opened Presentation
  import opened Interpreter

  // ---------------------------------------------------------------------------
  // One voice command
  // ---------------------------------------------------------------------------

  /** An error thrown inside the dispatcher leaves every part of the state as it was. */
  lemma FailedCommandChangesNothing(s: State, e: Engine, t: string)
    ensures Step(s, e, t).1.Failed? ==> Step(s, e, t).0 == s
  {
  }

  /**
    A voice command moves the history by at most one move: it grows by one
    only through a move or castle command, and then the whole new state is the
    one a move leaves; it shrinks by one only through undo, which re-enables the
    board and touches nothing else.
   */
  lemma HistoryMovesByOne(s: State, e: Engine, t: string)
    ensures var s' := Step(s, e, t).0; var h := s.history;
      s'.history == h
      || (|s'.history| == |h| + 1 && s'.history[..|h|] == h)
      || (|h| > 0 && s'.history == h[..|h| - 1])
    ensures var s' := Step(s, e, t).0; var h := s.history;
      |s'.history| == |h| + 1 ==>
        (Classify(Normalized(t)) == Move || Classify(Normalized(t)).Castle?)
        && s' == AfterMove(s, e, s'.history[|h|])
    ensures var s' := Step(s, e, t).0; var h := s.history;
      |s'.history| < |h| ==>
        Classify(Normalized(t)) == Undo && |h| > 0 && s' == s.(history := h[..|h| - 1], locked := false)
  {
    var s' := Step(s, e, t).0;
    var h := s.history;
    match Classify(Normalized(t))
    case Move =>
      var parts := Tokens(t);
      var piece, to := Piece(parts), Destination(parts);
      if piece.Some? && to.Some? {
        var c := Resolve(e.legal(h), piece.value, to.value);
        if c.Some? {
          var san := e.play(h, c.value.from, c.value.to);
          if san.Some? {
            assert s' == AfterMove(s, e, san.value);
            assert s'.history == h + [san.value];
            assert s'.history[..|h|] == h;
          }
        }
      }
    case Castle(side) =>
      var san := e.castle(h, side);
      if san.Some? {
        assert s'.history == h + [san.value];
        assert s'.history[..|h|] == h;
      }
    case _ =>
  }

  /** Every change of the history in a command hands the turn to the other side. */
  lemma TurnPassesOnEachChange(s: State, e: Engine, t: string)
    ensures Step(s, e, t).0.history != s.history ==> Turn(Step(s, e, t).0.history) == Opponent(Turn(s.history))
  {
    var s' := Step(s, e, t).0;
    var h := s.history;
    HistoryMovesByOne(s, e, t);
    if s'.history != h {
      TurnFlips(h, s'.history);
    }
  }

  lemma TurnFlips(h: seq<string>, h': seq<string>)
    requires |h'| == |h| + 1 || |h'| + 1 == |h|
    ensures Turn(h') == Opponent(Turn(h))
  {
  }

  /**
    The move command: it is answered with an announcement exactly when a piece
    and a destination were heard and some legal move matches them; that
    announcement names the first matching legal move, and the game then holds
    either the move the engine made from its squares or, if the engine refused,
    the old state.
   */
  lemma MoveCommandOutcome(s: State, e: Engine, t: string)
    requires Classify(Normalized(t)) == Move
    ensures var parts := Tokens(t);
      Step(s, e, t).1.Said? <==>
        Piece(parts).Some? && Destination(parts).Some?
        && exists c :: c in e.legal(s.history) && c.piece == Piece(parts).value && c.to == Destination(parts).value
    ensures var parts := Tokens(t);
      (Piece(parts).None? || Destination(parts).None?) ==> Step(s, e, t) == (s, Failed(MISSING_PARAMETER))
    ensures var parts := Tokens(t);
      Piece(parts).Some? && Destination(parts).Some?
      && (forall c :: c in e.legal(s.history) ==> !Matches(c, Piece(parts).value, Destination(parts).value)) ==>
        Step(s, e, t) == (s, Failed(InvalidMoveMessage(Piece(parts).value, Destination(parts).value)))
    ensures var parts := Tokens(t); var r := Step(s, e, t);
      r.1.Said? ==>
        var c := Resolve(e.legal(s.history), Piece(parts).value, Destination(parts).value).value;
        c in e.legal(s.history) && c.piece == Piece(parts).value && c.to == Destination(parts).value
        && r.1 == Said(AnnounceMove(c.color, c.san))
        && (match e.play(s.history, c.from, c.to)
            case Some(san) => r.0 == AfterMove(s, e, san)
            case None => r.0 == s)
  {
    var parts := Tokens(t);
    var piece, to := Piece(parts), Destination(parts);
    if piece.Some? && to.Some? {
      var r := Resolve(e.legal(s.history), piece.value, to.value);
      if r.None? {
        assert forall c :: c in e.legal(s.history) ==> !Matches(c, piece.value, to.value);
      }
    }
  }

  /** Undo with nothing to take back fails with "No moves to undo" and changes nothing. */
  lemma UndoOnEmptyFails(s: State, e: Engine, u: string)
    requires Classify(Normalized(u)) == Undo && s.history == []
    ensures Step(s, e, u) == (s, Failed(NOTHING_TO_UNDO))
  {
  }

  /** A command matching no intent fails with "Command not recognized" and changes nothing. */
  lemma UnrecognizedFails(s: State, e: Engine, t: string)
    requires Classify(Normalized(t)) == Unrecognized
    ensures Step(s, e, t) == (s, Failed(NOT_RECOGNIZED))
  {
  }

  /**
    The draw offer is touched by a voice command only when the command is a
    draw offer and no offer is pending, and it then records the side to move.
   */
  lemma DrawOfferOnlyByOffering(s: State, e: Engine, t: string)
    ensures var s' := Step(s, e, t).0;
      s'.drawOfferedBy != s.drawOfferedBy ==>
        Classify(Normalized(t)) == OfferDraw && s.drawOfferedBy.None? && s'.drawOfferedBy == Some(Turn(s.history))
    ensures Classify(Normalized(t)) == OfferDraw && s.drawOfferedBy.None? ==>
      Step(s, e, t).0.drawOfferedBy == Some(Turn(s.history))
  {
  }

  /**
    The resign confirmation is opened by a resign command only, never closed by
    a voice command, and no voice command blocks the board.
   */
  lemma VoiceNeverConcludes(s: State, e: Engine, t: string)
    ensures var s' := Step(s, e, t).0;
      s'.resignPending != s.resignPending ==> Classify(Normalized(t)) == Resign && s'.resignPending
    ensures Step(s, e, t).0.locked ==> s.locked
  {
  }

  /** Saying a draw offer twice leaves the same state and says the same thing as saying it once. */
  lemma VoiceDrawOfferIdempotent(s: State, e: Engine, t: string)
    requires Classify(Normalized(t)) == OfferDraw
    ensures Step(Step(s, e, t).0, e, t) == Step(s, e, t)
  {
    var s1 := Step(s, e, t).0;
    assert s1.history == s.history;
    assert s1.drawOfferedBy.Some?;
  }

  /** The draw button pressed twice is the draw button pressed once; the first offerer stays recorded. */
  lemma DrawButtonIdempotent(s: State)
    ensures OfferDrawStep(OfferDrawStep(s)) == OfferDrawStep(s)
    ensures s.drawOfferedBy.Some? ==> OfferDrawStep(s).drawOfferedBy == s.drawOfferedBy
  {
  }

  // ---------------------------------------------------------------------------
  // Undo reverses a move
  // ---------------------------------------------------------------------------

  /**
    A move made on the board and then a spoken undo give back the old history
    and turn and announce the undone SAN for the side that made it; the status
    line and the move list still show the position with the move, since undo
    redraws neither.
   */
  lemma UndoReversesMove(s: State, e: Engine, orig: string, dest: string, san: string, u: string)
    requires e.play(s.history, orig, dest) == Some(san)
    requires Classify(Normalized(u)) == Undo
    ensures var moved := HandleMoveStep(s, e, orig, dest).0; var r := Step(moved, e, u);
      r.0.history == s.history
      && Turn(r.0.history) == Turn(s.history)
      && r.1 == Said(AnnounceState(Turn(s.history), "Move undone: " + san))
      && r.0.moveList == MoveLines(s.history + [san])
      && r.0.status == StatusFor(e, s.history + [san])
      && r.0.drawOfferedBy == s.drawOfferedBy && r.0.resignPending == s.resignPending
      && !r.0.locked
  {
    var moved := HandleMoveStep(s, e, orig, dest).0;
    assert moved.history == s.history + [san];
    assert moved.history[..|moved.history| - 1] == s.history;
  }

  /** After the only move is undone, the move list still shows it. */
  lemma UndoLeavesMoveListed(e: Engine, san: string, u: string)
    requires Classify(Normalized(u)) == Undo
    ensures var r := Step(AfterMove(Initial(), e, san), e, u).0;
      r.history == [] && r.moveList == ["1. " + san] && r.moveList != MoveLines(r.history)
  {
    var s := AfterMove(Initial(), e, san);
    assert s.history == [san];
    OneMoveList(san);
    UndoStep(s, e, u);
  }

  /** The list of a one-move game. */
  lemma OneMoveList(san: string)
    ensures MoveLines([san]) == ["1. " + san]
  {
    assert DigitChar(1) == '1';
    assert NatToString(1) == "1";
    assert MoveLine([san], 0) == "1. " + san;
    assert |MoveLines([san])| == 1;
    assert MoveLines([san])[0] == MoveLine([san], 0);
  }

  /** Undo with a move to take back. */
  lemma UndoStep(s: State, e: Engine, u: string)
    requires Classify(Normalized(u)) == Undo && s.history != []
    ensures Step(s, e, u).0 == s.(history := s.history[..|s.history| - 1], locked := false)
  {
  }

  // ---------------------------------------------------------------------------
  // The dialogs and the board
  // ---------------------------------------------------------------------------

  /** When the draw is agreed the offer is cleared and the board refuses every drag. */
  lemma AgreedDrawBlocksBoard(s: State, e: Engine, orig: string, dest: string)
    ensures AcceptDrawStep(s).drawOfferedBy.None?
    ensures DragStep(AcceptDrawStep(s), e, orig, dest) == (AcceptDrawStep(s), None)
  {
  }

  /** When resignation is confirmed the confirmation closes and the board refuses every drag. */
  lemma ConfirmedResignBlocksBoard(s: State, e: Engine, orig: string, dest: string)
    ensures !ConfirmResignStep(s).resignPending
    ensures DragStep(ConfirmResignStep(s), e, orig, dest) == (ConfirmResignStep(s), None)
  {
  }

  /**
    Rejecting the draw and cancelling resignation close their dialog and
    nothing else: the game, the board and the status are as before.
   */
  lemma DeclinesOnlyCloseDialogs(s: State)
    ensures var r := RejectDrawStep(s);
      r.drawOfferedBy.None? && r.history == s.history && r.locked == s.locked && r.status == s.status
    ensures var c := CancelResignStep(s);
      !c.resignPending && c.history == s.history && c.locked == s.locked && c.status == s.status
  {
  }

  /** A move on the unblocked board leaves a pending draw offer and resign confirmation in place. */
  lemma DragKeepsDialogs(s: State, e: Engine, orig: string, dest: string)
    ensures var r := DragStep(s, e, orig, dest).0;
      r.drawOfferedBy == s.drawOfferedBy && r.resignPending == s.resignPending
  {
  }

  /** A successful voice move re-enables a board that an agreed draw or a resignation blocked. */
  lemma VoiceMoveReopensBoard(s: State, e: Engine, t: string)
    requires |Step(s, e, t).0.history| == |s.history| + 1
    ensures !Step(s, e, t).0.locked
  {
    HistoryMovesByOne(s, e, t);
  }

  /** `resetGame` starts the game over on an open board but keeps a pending draw offer. */
  lemma ResetKeepsDrawOffer(s: State)
    ensures ResetStep(s).history == [] && !ResetStep(s).locked && ResetStep(s).moveList == []
    ensures ResetStep(s).drawOfferedBy == s.drawOfferedBy
    ensures s.drawOfferedBy.None? && !s.resignPending ==> ResetStep(s) == Initial()
  {
  }

  // ---------------------------------------------------------------------------
  // A spoken move from start to end
  // ---------------------------------------------------------------------------

  lemma MoveKnightTokens(t: string)
    requires t == "move knight to f3"
    ensures Tokens(t) == ["move", "knight", "to", "f3"]
  {
    LowerKeepsLowercase(t);
    assert t == "move" + " " + ("knight" + " " + ("to" + " " + "f3"));
    SplitAfterToken("move", "knight" + " " + ("to" + " " + "f3"));
    SplitAfterToken("knight", "to" + " " + "f3");
    SplitAfterToken("to", "f3");
    SplitNoSpace("f3");
  }

  /** A joined sequence starts with its first part. */
  lemma JoinStartsWithHead(parts: seq<string>, sep: string)
    requires |parts| >= 1
    ensures parts[0] <= Join(parts, sep)
  {
  }

  lemma MoveKnightIsMove(t: string)
    requires t == "move knight to f3"
    ensures Classify(Normalized(t)) == Move
  {
    MoveKnightTokens(t);
    var norm := NormalizeAll(Tokens(t));
    assert norm[0] == NormalizeToken("move");
    assert "move" in WORDS && WORDS["move"] == "move";
    JoinStartsWithHead(norm, " ");
  }

  lemma MoveKnightParameters(t: string)
    requires t == "move knight to f3"
    ensures Piece(Tokens(t)) == Some("n") && Destination(Tokens(t)) == Some("f3")
  {
    MoveKnightTokens(t);
    var parts := Tokens(t);
    assert "knight" in WORDS && WORDS["knight"] == "n";
    assert PieceOf(parts[1]) == Some("n");
    assert FirstPieceIndex(parts, 1) == Some(1);
    assert DestinationAt(parts, 3) == Some("f3");
    assert LastDestinationIndex(parts, 4) == Some(3);
  }

  /** A move command whose parameters and first matching legal move are known, accepted by the engine. */
  lemma MoveStepAccepted(s: State, e: Engine, t: string, c: Candidate, san: string)
    requires Classify(Normalized(t)) == Move
    requires Piece(Tokens(t)) == Some(c.piece) && Destination(Tokens(t)) == Some(c.to)
    requires Resolve(e.legal(s.history), c.piece, c.to) == Some(c)
    requires e.play(s.history, c.from, c.to) == Some(san)
    ensures Step(s, e, t) == (AfterMove(s, e, san), Said(AnnounceMove(c.color, c.san)))
  {
  }

  /** The state and the words after Nf3 from the start. */
  lemma AfterNf3(e: Engine)
    ensures AfterMove(Initial(), e, "Nf3") == State(["Nf3"], None, false, false, StatusFor(e, ["Nf3"]), ["1. Nf3"])
    ensures AnnounceMove(White, "Nf3") == "Player 1 made the move Nf3"
  {
    OneMoveList("Nf3");
    assert Initial().history + ["Nf3"] == ["Nf3"];
    assert "1. " + "Nf3" == "1. Nf3";
  }

  /**
    "Move knight to f3" at the start: with a knight move from g1 to f3 as the
    first matching legal move, the engine plays Nf3, Black is to move, the list
    reads "1. Nf3" and Player 1 is announced.
   */
  lemma MoveKnightToF3(e: Engine, t: string)
    requires t == "move knight to f3"
    requires Resolve(e.legal([]), "n", "f3") == Some(Candidate(White, "n", "g1", "f3", "Nf3"))
    requires e.play([], "g1", "f3") == Some("Nf3")
    requires !e.inCheckmate(["Nf3"]) && !e.inCheck(["Nf3"]) && !e.isDraw(["Nf3"])
    ensures Step(Initial(), e, t) ==
      (State(["Nf3"], None, false, false, StatusFor(e, ["Nf3"]), ["1. Nf3"]), Said("Player 1 made the move Nf3"))
    ensures Turn(Step(Initial(), e, t).0.history) == Black
    ensures Step(Initial(), e, t).0.status == "Black's turn"
  {
    MoveKnightIsMove(t);
    MoveKnightParameters(t);
    MoveStepAccepted(Initial(), e, t, Candidate(White, "n", "g1", "f3", "Nf3"), "Nf3");
    AfterNf3(e);
  }
}
