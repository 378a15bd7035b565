/**
  The intent selection of `processVoiceCommand`: a fixed-priority chain of
  substring tests on the normalized string.
 */
module Classifier {
  import opened Wrappers
  import opened Text
  import opened Vocabulary
  import opened Normalizer

  datatype Side = Kingside | Queenside

  datatype Intent = Move | Castle(side: Side) | Resign | OfferDraw | Undo | ReadHistory | Unrecognized

  /** The if/else chain on `normalized.includes(...)`, in the source's order. */
  function Classify(normalized: string): Intent {
    if Contains(normalized, "move") || Contains(normalized, "to") then Move
    else if Contains(normalized, "o-o") then Castle(if Contains(normalized, "o-o-o") then Queenside else Kingside)
    else if Contains(normalized, "resignation") then Resign
    else if Contains(normalized, "draw") then OfferDraw
    else if Contains(normalized, "undo") then Undo
    else if Contains(normalized, "read") then ReadHistory
    else Unrecognized
  }

  // ---------------------------------------------------------------------------
  // Reference definition: an ordered list of (keyword, intent kind) rules,
  // evaluated first match wins.
  // ---------------------------------------------------------------------------

  datatype Kind = MoveKind | CastleKind | ResignKind | DrawKind | UndoKind | ReadKind

  const RULES: seq<(string, Kind)> := [
    ("move", MoveKind), ("to", MoveKind), ("o-o", CastleKind), ("resignation", ResignKind),
    ("draw", DrawKind), ("undo", UndoKind), ("read", ReadKind)
  ]

  /** The index of the first rule at or after `from` whose keyword occurs in `s`. */
  function FirstRule(rules: seq<(string, Kind)>, s: string, from: nat): (r: Option<nat>)
    requires from <= |rules|
    ensures r.Some? ==> from <= r.value < |rules| && Contains(s, rules[r.value].0)
    ensures r.Some? ==> forall j :: from <= j < r.value ==> !Contains(s, rules[j].0)
    ensures r.None? ==> forall j :: from <= j < |rules| ==> !Contains(s, rules[j].0)
    decreases |rules| - from
  {
    if from == |rules| then None
    else if Contains(s, rules[from].0) then Some(from)
    else FirstRule(rules, s, from + 1)
  }

  function IntentOfKind(k: Kind, s: string): Intent {
    match k
    case MoveKind => Move
    case CastleKind => Castle(if Contains(s, "o-o-o") then Queenside else Kingside)
    case ResignKind => Resign
    case DrawKind => OfferDraw
    case UndoKind => Undo
    case ReadKind => ReadHistory
  }

  /** The chain is exactly first-match over the rule list; no match is Unrecognized. */
  lemma ClassifyIsFirstMatch(s: string)
    ensures Classify(s) == match FirstRule(RULES, s, 0)
      case Some(i) => IntentOfKind(RULES[i].1, s)
      case None => Unrecognized
  {
    var r := FirstRule(RULES, s, 0);
    if r.Some? {
      var i := r.value;
      assert forall j :: 0 <= j < i ==> !Contains(s, RULES[j].0);
      assert i < 7;
      if i == 0 {} else if i == 1 {} else if i == 2 {} else if i == 3 {}
      else if i == 4 {} else if i == 5 {} else {}
    }
  }

  /** Move is tested first: a command containing "move" or "to" is a move, whatever else it contains. */
  lemma MoveTakesPrecedence(s: string)
    requires Contains(s, "move") || Contains(s, "to")
    ensures Classify(s) == Move
    ensures Classify(s + " draw") == Move && Classify("undo " + s) == Move
  {
    if Contains(s, "move") {
      ContainsConcatLeft(s, " draw", "move");
      ContainsConcatRight("undo ", s, "move");
    } else {
      ContainsConcatLeft(s, " draw", "to");
      ContainsConcatRight("undo ", s, "to");
    }
  }

  /** The castle side is queenside exactly when "o-o-o" occurs. */
  lemma CastleSide(s: string)
    requires Classify(s).Castle?
    ensures Classify(s).side == Queenside <==> Contains(s, "o-o-o")
    ensures Contains(s, "o-o")
  {
  }

  /** A command with neither an "o" nor an "r" in it matches no keyword at all. */
  lemma WithoutOAndRUnrecognized(s: string)
    requires 'o' !in s && 'r' !in s
    ensures Classify(s) == Unrecognized
  {
    MissingCharNotContained(s, "move", 1);
    MissingCharNotContained(s, "to", 1);
    MissingCharNotContained(s, "o-o", 0);
    MissingCharNotContained(s, "resignation", 0);
    MissingCharNotContained(s, "draw", 1);
    MissingCharNotContained(s, "undo", 3);
    MissingCharNotContained(s, "read", 0);
  }

  // ---------------------------------------------------------------------------
  // Consequences for whole transcripts
  // ---------------------------------------------------------------------------

  /** Any word containing "to" selects a move, e.g. "stop". */
  lemma StopIsAMove()
    ensures Classify(Normalized("stop")) == Move
  {
    assert Tokens("stop") == ["stop"] by {
      LowerKeepsLowercase("stop");
      SplitNoSpace("stop");
    }
    assert Normalized("stop") == "stop";
  }

  /**
    A transcript holding "move" or "to" anywhere, even inside a longer word,
    is a move command, whatever else it says.
   */
  lemma TranscriptKeywordIsMove(transcript: string, w: string)
    requires w == "move" || w == "to"
    requires Contains(Lower(transcript), w)
    ensures Classify(Normalized(transcript)) == Move
  {
    NormalizedKeepsKeyword(transcript, w);
    MoveTakesPrecedence(Normalized(transcript));
  }

  /**
    A transcript with neither an "o" nor an "r" in it is never recognized: no
    table entry brings either letter in, and every keyword has one of them.
   */
  lemma WithoutOAndRTranscriptUnrecognized(transcript: string)
    requires 'o' !in Lower(transcript) && 'r' !in Lower(transcript)
    ensures Classify(Normalized(transcript)) == Unrecognized
  {
    var parts := Tokens(transcript);
    var mapped := NormalizeAll(parts);
    forall i | 0 <= i < |mapped|
      ensures 'o' !in mapped[i] && 'r' !in mapped[i]
    {
      SplitAvoids(Lower(transcript), 'o', i);
      SplitAvoids(Lower(transcript), 'r', i);
      NormalizeTokenAvoidsOAndR(parts[i]);
    }
    JoinAvoids(mapped, " ", 'o');
    JoinAvoids(mapped, " ", 'r');
    WithoutOAndRUnrecognized(Normalized(transcript));
  }

  /**
    The two-word castling entries of the table can never fire, so saying
    "castle kingside" or "castle queenside" is not recognized.
   */
  lemma CastlePhrasesUnrecognized(transcript: string)
    requires transcript == "castle kingside" || transcript == "castle queenside"
    ensures Classify(Normalized(transcript)) == Unrecognized
  {
    LowerKeepsLowercase(transcript);
    WithoutOAndRTranscriptUnrecognized(transcript);
  }
}
