/**
  The `voiceCommands` table of public/script.js: spoken English words mapped to
  canonical tokens (squares, piece letters, command keywords).
 */
module Vocabulary {
  import opened Wrappers

  predicate IsFile(c: char) { 'a' <= c <= 'h' }

  predicate IsRank(c: char) { '1' <= c <= '8' }

  /** A board square name such as "e4", the shape `[a-h][1-8]`. */
  predicate IsSquare(t: string) {
    |t| == 2 && IsFile(t[0]) && IsRank(t[1])
  }

  /**
    Every entry of the table except the 64 square entries, which map each square
    name to itself. The two castling keys contain a space, so no single token of
    a split transcript can ever be one of them.
   */
  const WORDS: map<string, string> := map[
    "rook" := "r", "knight" := "n", "bishop" := "b", "queen" := "q", "king" := "k", "pawn" := "p",
    "move" := "move", "to" := "to", "takes" := "takes",
    "castle kingside" := "O-O", "castle queenside" := "O-O-O",
    "check" := "+", "checkmate" := "#", "undo" := "undo",
    "read" := "read",
    "i" := "i", "resign" := "resignation",
    "draw" := "draw",
    "capture" := "takes"
  ]

  /** The canonical piece letters a move command may name. */
  const PIECE_SYMBOLS: set<string> := {"r", "n", "b", "q", "k", "p"}

  /** `voiceCommands[t]`: the table entry of `t`, if it has one. */
  function Lookup(t: string): Option<string> {
    if IsSquare(t) then Some(t)
    else if t in WORDS then Some(WORDS[t])
    else None
  }

  /** `voiceCommands[t] || t`: a token in the table becomes its canonical form, any other stays as it is. */
  function NormalizeToken(t: string): string {
    match Lookup(t)
    case Some(v) => v
    case None => t
  }

  /** The piece letter a raw token names, when its table entry is one of r, n, b, q, k, p. */
  function PieceOf(t: string): Option<string> {
    if Lookup(t).Some? && Lookup(t).value in PIECE_SYMBOLS then Lookup(t) else None
  }

  /** Exactly the six piece words name a piece; a square or any other word never does. */
  lemma PieceWords(t: string)
    ensures PieceOf(t).Some? <==> t in {"rook", "knight", "bishop", "queen", "king", "pawn"}
  {
    if IsSquare(t) {
      assert t !in WORDS;
    }
  }

  /** Canonical tokens are fixed points: normalizing a token twice is normalizing it once. */
  lemma NormalizeTokenIdempotent(t: string)
    ensures NormalizeToken(NormalizeToken(t)) == NormalizeToken(t)
  {
    if !IsSquare(t) && t in WORDS {
      var v := WORDS[t];
      assert !IsSquare(v);
    }
  }

  /** A token without a space normalizes to a token without a space and without a capital letter. */
  lemma NormalizeTokenShape(t: string)
    requires ' ' !in t
    requires forall i :: 0 <= i < |t| ==> !('A' <= t[i] <= 'Z')
    ensures ' ' !in NormalizeToken(t)
    ensures forall i :: 0 <= i < |NormalizeToken(t)| ==> !('A' <= NormalizeToken(t)[i] <= 'Z')
  {
    if !IsSquare(t) && t in WORDS {
      assert t != "castle kingside" && t != "castle queenside";
    }
  }

  /** A table entry whose key has neither an "o" nor an "r" has a value without them either. */
  lemma NormalizeTokenAvoidsOAndR(t: string)
    requires 'o' !in t && 'r' !in t
    ensures 'o' !in NormalizeToken(t) && 'r' !in NormalizeToken(t)
  {
  }
}
