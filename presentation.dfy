/**
  The texts the interface shows or speaks, and the two loops that prepare data
  for the page: `updateMoveList` and `getValidMoves`.
 */
module Presentation {
  import opened Wrappers
  import opened Text
  import opened Vocabulary
  import opened Chess

  // ---------------------------------------------------------------------------
  // Spoken messages
  // ---------------------------------------------------------------------------

  /** White is announced as "Player 1", Black as "Player 2". */
  function Player(c: Color): string {
    if c == White then "Player 1" else "Player 2"
  }

  /** The text of `announceMove`. */
  function AnnounceMove(c: Color, san: string): string {
    Player(c) + " made the move " + san
  }

  /** The text of `announceState` (two spaces after the player). */
  function AnnounceState(c: Color, text: string): string {
    Player(c) + "  " + text
  }

  /** An announcement names exactly one player and one move: the text determines both. */
  lemma AnnounceMoveInjective(c1: Color, san1: string, c2: Color, san2: string)
    requires AnnounceMove(c1, san1) == AnnounceMove(c2, san2)
    ensures c1 == c2 && san1 == san2
  {
    var t1, t2 := AnnounceMove(c1, san1), AnnounceMove(c2, san2);
    assert t1[7] == t2[7];
    assert t1[23..] == san1 && t2[23..] == san2;
  }

  /** Likewise for state announcements. */
  lemma AnnounceStateInjective(c1: Color, text1: string, c2: Color, text2: string)
    requires AnnounceState(c1, text1) == AnnounceState(c2, text2)
    ensures c1 == c2 && text1 == text2
  {
    var t1, t2 := AnnounceState(c1, text1), AnnounceState(c2, text2);
    assert t1[7] == t2[7];
    assert t1[10..] == text1 && t2[10..] == text2;
  }

  // ---------------------------------------------------------------------------
  // Status line (updateStatus)
  // ---------------------------------------------------------------------------

  datatype StatusLine = Mate(winner: Color) | InCheck(toMove: Color) | Drawn | ToMove(side: Color)

  /** Checkmate is reported first, then check, then a draw, then whose turn it is. */
  function StatusOf(checkmate: bool, check: bool, draw: bool, turn: Color): (r: StatusLine)
    ensures r.Mate? <==> checkmate
    ensures r.Mate? ==> r.winner == Opponent(turn)
    ensures r.InCheck? <==> !checkmate && check
    ensures r.Drawn? <==> !checkmate && !check && draw
    ensures r.InCheck? ==> r.toMove == turn
    ensures r.ToMove? ==> r.side == turn
  {
    if checkmate then Mate(Opponent(turn))
    else if check then InCheck(turn)
    else if draw then Drawn
    else ToMove(turn)
  }

  function StatusText(line: StatusLine): string {
    match line
    case Mate(winner) => "Checkmate! " + (if winner == Black then "Black" else "White") + " wins \U{1F389}"
    case InCheck(toMove) => "Check! " + (if toMove == White then "White's" else "Black's") + " turn"
    case Drawn => "Draw! The game has ended \U{1F91D}"
    case ToMove(side) => (if side == White then "White's" else "Black's") + " turn"
  }

  /** Different situations never show the same status text. */
  lemma StatusTextInjective(a: StatusLine, b: StatusLine)
    requires StatusText(a) == StatusText(b)
    ensures a == b
  {
    var ta, tb := StatusText(a), StatusText(b);
    if a.Mate? || a.InCheck? || b.Mate? || b.InCheck? {
      assert |ta| == |tb|;
      assert ta[6] == tb[6];
      assert ta[7] == tb[7] && ta[11] == tb[11];
    } else if a.ToMove? && b.ToMove? {
      assert ta[0] == tb[0];
    }
  }

  // ---------------------------------------------------------------------------
  // Move list (updateMoveList)
  // ---------------------------------------------------------------------------

  /** Line `k` (from 0): "k+1. " with White's move and, when it exists, Black's reply. */
  function MoveLine(history: seq<string>, k: nat): string
    requires 2 * k < |history|
  {
    NatToString(k + 1) + ". " + history[2 * k] + (if 2 * k + 1 < |history| then " " + history[2 * k + 1] else "")
  }

  /** The move list for a history: one line per pair of moves, ceil(n/2) lines. */
  function MoveLines(history: seq<string>): (r: seq<string>)
    ensures |r| == (|history| + 1) / 2
  {
    seq((|history| + 1) / 2, k requires 0 <= k < (|history| + 1) / 2 => MoveLine(history, k))
  }

  /** The loop of `updateMoveList`: build the current line, emit it after Black's move and after a last unpaired move. */
  method BuildMoveList(history: seq<string>) returns (lines: seq<string>)
    ensures lines == MoveLines(history)
  {
    lines := [];
    var current := "";
    var i := 0;
    while i < |history|
      invariant 0 <= i <= |history|
      invariant |lines| == i / 2
      invariant forall k :: 0 <= k < |lines| ==> lines[k] == MoveLine(history, k)
      invariant i % 2 == 1 ==> current == NatToString(i / 2 + 1) + ". " + history[i - 1]
    {
      if i % 2 == 0 {
        current := NatToString(i / 2 + 1) + ". " + history[i];
      } else {
        current := current + " " + history[i];
        lines := lines + [current];
      }
      i := i + 1;
    }
    if |history| % 2 == 1 {
      assert MoveLine(history, |history| / 2) == current + "";
      lines := lines + [current];
    }
    assert forall k :: 0 <= k < |lines| ==> lines[k] == MoveLines(history)[k];
  }

  /** Lines that a new move does not reach stay as they were. */
  lemma MoveLinesPrefix(history: seq<string>, san: string, k: nat)
    requires k < |history| / 2
    ensures MoveLines(history + [san])[k] == MoveLines(history)[k]
  {
    var h := history + [san];
    assert h[2 * k] == history[2 * k] && h[2 * k + 1] == history[2 * k + 1];
  }

  /** After White's move (an even history) the new move opens a new line. */
  lemma MoveLinesExtendWhite(history: seq<string>, san: string)
    requires |history| % 2 == 0
    ensures MoveLines(history + [san]) == MoveLines(history) + [NatToString(|history| / 2 + 1) + ". " + san]
  {
    var h := history + [san];
    var k := |history| / 2;
    var lhs := MoveLines(h);
    var rhs := MoveLines(history) + [NatToString(k + 1) + ". " + san];
    assert |lhs| == k + 1 == |rhs|;
    forall j | 0 <= j < k + 1
      ensures lhs[j] == rhs[j]
    {
      if j < k {
        MoveLinesPrefix(history, san, j);
      } else {
        assert h[2 * k] == san && 2 * k + 1 == |h|;
        assert lhs[k] == MoveLine(h, k) == NatToString(k + 1) + ". " + san + "";
      }
    }
  }

  /** After Black's move (an odd history) the new move completes the last line. */
  lemma MoveLinesExtendBlack(history: seq<string>, san: string)
    requires |history| % 2 == 1
    ensures MoveLines(history + [san]) ==
      MoveLines(history)[..|history| / 2] + [MoveLines(history)[|history| / 2] + " " + san]
  {
    var h := history + [san];
    var k := |history| / 2;
    forall j | 0 <= j < k
      ensures MoveLines(h)[j] == MoveLines(history)[j]
    {
      MoveLinesPrefix(history, san, j);
    }
    assert h[2 * k] == history[2 * k] && h[2 * k + 1] == san;
    assert MoveLines(history)[k] == NatToString(k + 1) + ". " + history[2 * k] + "";
    assert MoveLines(h)[k] == MoveLines(history)[k] + " " + san;
  }

  // ---------------------------------------------------------------------------
  // Read-back text
  // ---------------------------------------------------------------------------

  /** What the read command speaks after the player: the history joined with ", ", or "No moves". */
  function ReadBack(history: seq<string>): string {
    "these are the moves made: " + (if |history| > 0 then Join(history, ", ") else "No moves")
  }

  /** Reading back lists the moves in order: one more move adds ", " and its SAN at the end. */
  lemma ReadBackExtend(history: seq<string>, san: string)
    ensures history == [] ==> ReadBack(history + [san]) == "these are the moves made: " + san
    ensures history != [] ==> ReadBack(history + [san]) == ReadBack(history) + ", " + san
  {
    if history == [] {
      assert history + [san] == [san];
    } else {
      JoinSnoc(history, san, ", ");
    }
  }

  // ---------------------------------------------------------------------------
  // Legal destinations for the board (getValidMoves)
  // ---------------------------------------------------------------------------

  /** `String.fromCharCode(97 + x) + (8 - y)` for column `x` and row `y` of the board. */
  function SquareName(x: nat, y: nat): (r: string)
    requires x < 8 && y < 8
    ensures IsSquare(r) && Column(r) == x && Row(r) == y
  {
    [(97 + x) as char, ('0' as int + 8 - y) as char]
  }

  /** The board column of a square: a is 0. */
  function Column(sq: string): int
    requires IsSquare(sq)
  {
    sq[0] as int - 97
  }

  /** The board row of a square: rank 8 is row 0. */
  function Row(sq: string): int
    requires IsSquare(sq)
  {
    8 - (sq[1] as int - '0' as int)
  }

  /** Column and row name the square back. */
  lemma SquareNameOfCoordinates(sq: string)
    requires IsSquare(sq)
    ensures 0 <= Column(sq) < 8 && 0 <= Row(sq) < 8 && SquareName(Column(sq), Row(sq)) == sq
  {
  }

  /** `game.moves({ square, verbose: true }).map(m => m.to)`: the destinations of the legal moves from `sq`. */
  function Targets(legal: seq<Candidate>, sq: string): (r: seq<string>)
    ensures |r| <= |legal|
    decreases |legal|
  {
    if legal == [] then []
    else (if legal[0].from == sq then [legal[0].to] else []) + Targets(legal[1..], sq)
  }

  /** Every target is the destination of a legal move from `sq`, and every such move gives a target. */
  lemma {:induction false} TargetsAreLegalDestinations(legal: seq<Candidate>, sq: string, to: string)
    ensures to in Targets(legal, sq) <==> exists c :: c in legal && c.from == sq && c.to == to
    decreases |legal|
  {
    if legal != [] {
      TargetsAreLegalDestinations(legal[1..], sq, to);
      assert forall c :: c in legal <==> c == legal[0] || c in legal[1..];
    }
  }

  predicate IsBoard<T>(board: seq<seq<T>>) {
    |board| == 8 && forall y :: 0 <= y < 8 ==> |board[y]| == 8
  }

  /** The squares the board lets the side to move drag from: own piece and at least one legal move. */
  predicate Movable(board: seq<seq<Option<Color>>>, turn: Color, legal: seq<Candidate>, sq: string)
    requires IsBoard(board)
  {
    IsSquare(sq) && board[Row(sq)][Column(sq)] == Some(turn) && Targets(legal, sq) != []
  }

  /** Square `sq` comes before position (`x`, `y`) in the row-by-row walk over the board. */
  predicate Visited(sq: string, x: int, y: int)
    requires IsSquare(sq)
  {
    Row(sq) < y || (Row(sq) == y && Column(sq) < x)
  }

  /** The nested loops of `getValidMoves`, filling the destinations map square by square. */
  method ValidDests(board: seq<seq<Option<Color>>>, turn: Color, legal: seq<Candidate>)
    returns (dests: map<string, seq<string>>)
    requires IsBoard(board)
    ensures forall sq :: sq in dests <==> Movable(board, turn, legal, sq)
    ensures forall sq :: sq in dests ==> dests[sq] == Targets(legal, sq)
  {
    dests := map[];
    var y := 0;
    while y < 8
      invariant 0 <= y <= 8
      invariant forall sq :: sq in dests <==> Movable(board, turn, legal, sq) && Visited(sq, 0, y)
      invariant forall sq :: sq in dests ==> dests[sq] == Targets(legal, sq)
    {
      var x := 0;
      while x < 8
        invariant 0 <= x <= 8
        invariant forall sq :: sq in dests <==> Movable(board, turn, legal, sq) && Visited(sq, x, y)
        invariant forall sq :: sq in dests ==> dests[sq] == Targets(legal, sq)
      {
        forall sq | IsSquare(sq) && Row(sq) == y && Column(sq) == x
          ensures sq == SquareName(x, y)
        {
          SquareNameOfCoordinates(sq);
        }
        if board[y][x] == Some(turn) {
          var square := SquareName(x, y);
          var moves := Targets(legal, square);
          if |moves| > 0 {
            dests := dests[square := moves];
          }
        }
        x := x + 1;
      }
      y := y + 1;
    }
  }
}
