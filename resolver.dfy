/**
  The move resolver: `moves.find(m => m.piece === piece && m.to === to)` over the
  engine's legal moves.
 */
module Resolver {
  import opened Wrappers
  import opened Chess

  predicate Matches(c: Candidate, piece: string, to: string) {
    c.piece == piece && c.to == to
  }

  /** The index of the first candidate at or after `from` that matches. */
  function FirstMatchIndex(cands: seq<Candidate>, piece: string, to: string, from: nat): (r: Option<nat>)
    requires from <= |cands|
    ensures r.Some? ==> from <= r.value < |cands| && Matches(cands[r.value], piece, to)
    ensures r.Some? ==> forall j :: from <= j < r.value ==> !Matches(cands[j], piece, to)
    ensures r.None? ==> forall j :: from <= j < |cands| ==> !Matches(cands[j], piece, to)
    decreases |cands| - from
  {
    if from == |cands| then None
    else if Matches(cands[from], piece, to) then Some(from)
    else FirstMatchIndex(cands, piece, to, from + 1)
  }

  /** `Array.find`: the first matching candidate in enumeration order, if there is one. */
  function Resolve(cands: seq<Candidate>, piece: string, to: string): (r: Option<Candidate>)
    ensures r.Some? ==> r.value in cands && r.value.piece == piece && r.value.to == to
    ensures r.None? <==> forall c :: c in cands ==> !Matches(c, piece, to)
  {
    match FirstMatchIndex(cands, piece, to, 0)
    case Some(i) => Some(cands[i])
    case None => None
  }

  /** The message thrown when no legal move matches. */
  function InvalidMoveMessage(piece: string, to: string): string {
    "Invalid move for " + piece + " to " + to
  }

  /**
    With several matching candidates the resolver takes the one enumerated
    first: when index `k` holds the first match, the result is that candidate.
   */
  lemma ResolvePicksFirst(cands: seq<Candidate>, piece: string, to: string, k: nat)
    requires k < |cands| && Matches(cands[k], piece, to)
    requires forall j :: 0 <= j < k ==> !Matches(cands[j], piece, to)
    ensures Resolve(cands, piece, to) == Some(cands[k])
  {
    var r := FirstMatchIndex(cands, piece, to, 0);
    assert r.Some? && r.value >= k;
  }

  /** Candidates listed after a match never change the choice. */
  lemma ResolveIgnoresLaterCandidates(cands: seq<Candidate>, more: seq<Candidate>, piece: string, to: string)
    requires Resolve(cands, piece, to).Some?
    ensures Resolve(cands + more, piece, to) == Resolve(cands, piece, to)
  {
    var i := FirstMatchIndex(cands, piece, to, 0).value;
    var all := cands + more;
    assert all[i] == cands[i];
    assert forall j :: 0 <= j < i ==> all[j] == cands[j];
    ResolvePicksFirst(all, piece, to, i);
  }
}
