/**
  The first step of `processVoiceCommand`: the transcript is lower-cased, split
  on single spaces, and every token is mapped through the vocabulary table; the
  mapped tokens are joined again with single spaces.
 */
module Normalizer {
  import opened Text
  import opened Vocabulary

  /** The raw tokens `parts`: the lower-cased transcript split on single spaces. */
  function Tokens(transcript: string): seq<string> {
    Split(Lower(transcript))
  }

  /** `parts.map(part => voiceCommands[part] || part)`. */
  function NormalizeAll(parts: seq<string>): seq<string> {
    seq(|parts|, i requires 0 <= i < |parts| => NormalizeToken(parts[i]))
  }

  /** The string `normalized` that the intent tests look at. */
  function Normalized(transcript: string): string {
    Join(NormalizeAll(Tokens(transcript)), " ")
  }

  /** Every raw token is free of spaces and of capital letters. */
  lemma TokensShape(transcript: string)
    ensures forall i :: 0 <= i < |Tokens(transcript)| ==> ' ' !in Tokens(transcript)[i] && NoUpper(Tokens(transcript)[i])
  {
    var lower := Lower(transcript);
    var parts := Split(lower);
    LowerHasNoUpper(transcript);
    forall i | 0 <= i < |parts|
      ensures NoUpper(parts[i])
    {
      SplitPartsNoUpper(lower, i);
    }
  }

  lemma {:induction false} SplitPartsNoUpper(s: string, i: nat)
    requires NoUpper(s)
    requires i < |Split(s)|
    ensures NoUpper(Split(s)[i])
    decreases |s|
  {
    if s != [] {
      var rest := Split(s[1..]);
      if s[0] == ' ' {
        if i > 0 {
          SplitPartsNoUpper(s[1..], i - 1);
        }
      } else if i == 0 {
        SplitPartsNoUpper(s[1..], 0);
      } else {
        SplitPartsNoUpper(s[1..], i);
      }
    }
  }

  /**
    The normalized string splits back into exactly the normalized tokens: one
    token per raw token, each the table image of its raw token or the raw token
    itself when the table has no entry for it.
   */
  lemma NormalizedSplitsToTokens(transcript: string)
    ensures Split(Normalized(transcript)) == NormalizeAll(Tokens(transcript))
    ensures |Split(Normalized(transcript))| == |Tokens(transcript)|
    ensures forall i :: 0 <= i < |Tokens(transcript)| ==>
      var t := Tokens(transcript)[i];
      Split(Normalized(transcript))[i] == (if Lookup(t).Some? then Lookup(t).value else t)
  {
    var parts := Tokens(transcript);
    var mapped := NormalizeAll(parts);
    TokensShape(transcript);
    forall i | 0 <= i < |mapped|
      ensures ' ' !in mapped[i]
    {
      NormalizeTokenShape(parts[i]);
    }
    SplitJoin(mapped);
  }

  /** Normalizing an already normalized command changes nothing. */
  lemma NormalizeIdempotent(transcript: string)
    ensures Normalized(Normalized(transcript)) == Normalized(transcript)
  {
    var parts := Tokens(transcript);
    var mapped := NormalizeAll(parts);
    var n := Normalized(transcript);
    TokensShape(transcript);
    forall i | 0 <= i < |mapped|
      ensures ' ' !in mapped[i] && NoUpper(mapped[i])
    {
      NormalizeTokenShape(parts[i]);
    }
    JoinNoUpper(mapped, " ");
    LowerKeepsLowercase(n);
    NormalizedSplitsToTokens(transcript);
    assert Tokens(n) == mapped;
    forall i | 0 <= i < |mapped|
      ensures NormalizeAll(mapped)[i] == mapped[i]
    {
      NormalizeTokenIdempotent(parts[i]);
    }
    assert NormalizeAll(mapped) == mapped;
  }

  /** No table key other than "to" holds both `t` and `o`, and none other than "move" holds a `v`. */
  lemma KeyLetters()
    ensures forall k :: k in WORDS && k != "to" ==> 't' !in k || 'o' !in k
    ensures forall k :: k in WORDS && k != "move" ==> 'v' !in k
  {
  }

  /** The only table key holding "move" or "to" is that word itself. */
  lemma OtherKeysLackKeyword(tok: string, w: string)
    requires w == "move" || w == "to"
    requires tok in WORDS && tok != w
    ensures !Contains(tok, w)
  {
    KeyLetters();
    if w == "move" {
      MissingCharNotContained(tok, w, 2);
    } else if 't' !in tok {
      MissingCharNotContained(tok, w, 0);
    } else {
      MissingCharNotContained(tok, w, 1);
    }
  }

  /** A raw token holding "move" or "to" still holds it after the table lookup. */
  lemma NormalizeTokenKeepsKeyword(tok: string, w: string)
    requires w == "move" || w == "to"
    requires Contains(tok, w)
    ensures Contains(NormalizeToken(tok), w)
  {
    if !IsSquare(tok) && tok in WORDS {
      if tok != w {
        OtherKeysLackKeyword(tok, w);
      }
      assert NormalizeToken(tok) == WORDS[w] == w;
    }
  }

  /** A transcript that holds "move" or "to" anywhere gives a normalized string that holds it too. */
  lemma NormalizedKeepsKeyword(transcript: string, w: string)
    requires w == "move" || w == "to"
    requires Contains(Lower(transcript), w)
    ensures Contains(Normalized(transcript), w)
  {
    var parts := Tokens(transcript);
    JoinSplit(Lower(transcript));
    var k := JoinedContains(parts, w);
    NormalizeTokenKeepsKeyword(parts[k], w);
    ContainsInJoin(NormalizeAll(parts), " ", k, w);
  }
}
