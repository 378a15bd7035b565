/**
  The parameter scans of the move branch of `processVoiceCommand`. Both scans
  look at the raw (lower-cased, not normalized) tokens: the piece scan goes
  left to right from the second token, the destination scan right to left.
 */
module Extractor {
  import opened Wrappers
  import opened Vocabulary

  // ---------------------------------------------------------------------------
  // Piece
  // ---------------------------------------------------------------------------

  /** The index of the first token at or after `from` whose table image is a piece letter. */
  function FirstPieceIndex(parts: seq<string>, from: nat): (r: Option<nat>)
    requires from <= |parts|
    ensures r.Some? ==> from <= r.value < |parts| && PieceOf(parts[r.value]).Some?
    ensures r.Some? ==> forall j :: from <= j < r.value ==> PieceOf(parts[j]).None?
    ensures r.None? ==> forall j :: from <= j < |parts| ==> PieceOf(parts[j]).None?
    decreases |parts| - from
  {
    if from == |parts| then None
    else if PieceOf(parts[from]).Some? then Some(from)
    else FirstPieceIndex(parts, from + 1)
  }

  /** The piece the command names: the image of the first piece word after the first token. */
  function Piece(parts: seq<string>): (r: Option<string>)
    ensures r.Some? ==> r.value in PIECE_SYMBOLS
  {
    if |parts| == 0 then None
    else match FirstPieceIndex(parts, 1)
      case Some(i) => PieceOf(parts[i])
      case None => None
  }

  /** The piece loop of the source: scan from index 1 and stop at the first piece word. */
  method FindPiece(parts: seq<string>) returns (piece: Option<string>)
    ensures piece == Piece(parts)
  {
    piece := None;
    var i := 1;
    while i < |parts|
      invariant 1 <= i
      invariant |parts| >= 1 ==> i <= |parts|
      invariant forall j :: 1 <= j < i && j < |parts| ==> PieceOf(parts[j]).None?
    {
      var image := Lookup(parts[i]);
      if image.Some? && image.value in PIECE_SYMBOLS {
        piece := image;
        return;
      }
      i := i + 1;
    }
  }

  /** Token 0 never counts as the piece, even when it is a piece word. */
  lemma FirstTokenIgnored(first: string, rest: seq<string>)
    ensures Piece([first] + rest) == Piece([""] + rest)
  {
    var a, b := [first] + rest, [""] + rest;
    assert a[1..] == b[1..];
    assert forall j :: 1 <= j < |a| ==> a[j] == b[j];
    assert PieceOf("").None?;
  }

  // ---------------------------------------------------------------------------
  // Destination
  // ---------------------------------------------------------------------------

  /** A single-letter file token `[a-h]`. */
  predicate IsFileToken(t: string) { |t| == 1 && IsFile(t[0]) }

  /** A single-digit rank token `[1-8]`. */
  predicate IsRankToken(t: string) { |t| == 1 && IsRank(t[0]) }

  /**
    What index `i` offers as a destination: the token itself when it is a
    square, otherwise the previous token and this one when they are a file and
    a rank.
   */
  function DestinationAt(parts: seq<string>, i: nat): (r: Option<string>)
    requires i < |parts|
    ensures r.Some? ==> IsSquare(r.value)
  {
    if IsSquare(parts[i]) then Some(parts[i])
    else if i > 0 && IsFileToken(parts[i - 1]) && IsRankToken(parts[i]) then Some(parts[i - 1] + parts[i])
    else None
  }

  /** The largest index below `upto` that offers a destination. */
  function LastDestinationIndex(parts: seq<string>, upto: nat): (r: Option<nat>)
    requires upto <= |parts|
    ensures r.Some? ==> r.value < upto && DestinationAt(parts, r.value).Some?
    ensures r.Some? ==> forall j :: r.value < j < upto ==> DestinationAt(parts, j).None?
    ensures r.None? ==> forall j :: 0 <= j < upto ==> DestinationAt(parts, j).None?
    decreases upto
  {
    if upto == 0 then None
    else if DestinationAt(parts, upto - 1).Some? then Some(upto - 1)
    else LastDestinationIndex(parts, upto - 1)
  }

  /** The destination square the command names, from the rightmost position that offers one. */
  function Destination(parts: seq<string>): (r: Option<string>)
    ensures r.Some? ==> IsSquare(r.value)
  {
    match LastDestinationIndex(parts, |parts|)
    case Some(i) => DestinationAt(parts, i)
    case None => None
  }

  /** The destination loop of the source: scan from the last token down, stop at the first hit. */
  method FindDestination(parts: seq<string>) returns (to: Option<string>)
    ensures to == Destination(parts)
  {
    to := None;
    var i := |parts| - 1;
    while i >= 0
      invariant -1 <= i < |parts|
      invariant forall j :: i < j < |parts| ==> DestinationAt(parts, j).None?
    {
      if IsSquare(parts[i]) {
        to := Some(parts[i]);
        LastIndexIs(parts, i);
        return;
      }
      if i > 0 && IsFileToken(parts[i - 1]) && IsRankToken(parts[i]) {
        to := Some(parts[i - 1] + parts[i]);
        LastIndexIs(parts, i);
        return;
      }
      i := i - 1;
    }
  }

  lemma LastIndexIs(parts: seq<string>, i: nat)
    requires i < |parts| && DestinationAt(parts, i).Some?
    requires forall j :: i < j < |parts| ==> DestinationAt(parts, j).None?
    ensures LastDestinationIndex(parts, |parts|) == Some(i)
  {
    assert LastDestinationIndex(parts, |parts|).Some?;
  }
}
