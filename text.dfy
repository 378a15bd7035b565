/**
  The JavaScript string built-ins the interpreter relies on, stated over `seq<char>`:
  `toLowerCase`, `split(' ')`, `join(sep)`, `includes(sub)` and the decimal
  rendering of a move number inside a template literal.
 */
module Text {

  // ---------------------------------------------------------------------------
  // toLowerCase (ASCII letters only)
  // ---------------------------------------------------------------------------

  function LowerChar(c: char): char {
    if 'A' <= c <= 'Z' then (c as int + 32) as char else c
  }

  function Lower(s: string): string {
    seq(|s|, i requires 0 <= i < |s| => LowerChar(s[i]))
  }

  /** No ASCII capital letter occurs in `s`. */
  predicate NoUpper(s: string) {
    forall i :: 0 <= i < |s| ==> !('A' <= s[i] <= 'Z')
  }

  lemma LowerHasNoUpper(s: string)
    ensures NoUpper(Lower(s))
  {
  }

  lemma LowerKeepsLowercase(s: string)
    requires NoUpper(s)
    ensures Lower(s) == s
  {
  }

  // ---------------------------------------------------------------------------
  // split(' ') and join(sep)
  // ---------------------------------------------------------------------------

  /**
    `s.split(' ')`: cuts at every single space, so two adjacent spaces give an
    empty token and the empty string gives one empty token.
   */
  function Split(s: string): (r: seq<string>)
    ensures |r| >= 1
    ensures forall i :: 0 <= i < |r| ==> ' ' !in r[i]
    decreases |s|
  {
    if s == [] then [[]]
    else
      var rest := Split(s[1..]);
      if s[0] == ' ' then [[]] + rest
      else [[s[0]] + rest[0]] + rest[1..]
  }

  /** `parts.join(sep)`; the empty array joins to the empty string. */
  function Join(parts: seq<string>, sep: string): string
    decreases |parts|
  {
    if |parts| == 0 then []
    else if |parts| == 1 then parts[0]
    else parts[0] + sep + Join(parts[1..], sep)
  }

  lemma JoinConsHead(c: char, parts: seq<string>, sep: string)
    requires |parts| >= 1
    ensures Join([[c] + parts[0]] + parts[1..], sep) == [c] + Join(parts, sep)
  {
    var q := [[c] + parts[0]] + parts[1..];
    assert q[1..] == parts[1..];
  }

  /** Joining the pieces of a split with a single space gives back the string. */
  lemma {:induction false} JoinSplit(s: string)
    ensures Join(Split(s), " ") == s
    decreases |s|
  {
    if s != [] {
      var rest := Split(s[1..]);
      JoinSplit(s[1..]);
      if s[0] == ' ' {
        assert ([[]] + rest)[1..] == rest;
      } else {
        JoinConsHead(s[0], rest, " ");
      }
    }
  }

  lemma {:induction false} SplitNoSpace(x: string)
    requires ' ' !in x
    ensures Split(x) == [x]
    decreases |x|
  {
    if x != [] {
      SplitNoSpace(x[1..]);
      assert [x[0]] + x[1..] == x;
    }
  }

  lemma {:induction false} SplitAfterToken(x: string, y: string)
    requires ' ' !in x
    ensures Split(x + " " + y) == [x] + Split(y)
    decreases |x|
  {
    if x == [] {
      assert x + " " + y == [' '] + y;
      assert ([' '] + y)[1..] == y;
    } else {
      var s := x + " " + y;
      assert s[1..] == x[1..] + " " + y;
      SplitAfterToken(x[1..], y);
      assert [x[0]] + x[1..] == x;
    }
  }

  /** Splitting a space-join of space-free tokens gives back the tokens. */
  lemma {:induction false} SplitJoin(parts: seq<string>)
    requires |parts| >= 1
    requires forall i :: 0 <= i < |parts| ==> ' ' !in parts[i]
    ensures Split(Join(parts, " ")) == parts
    decreases |parts|
  {
    if |parts| == 1 {
      SplitNoSpace(parts[0]);
    } else {
      SplitJoin(parts[1..]);
      SplitAfterToken(parts[0], Join(parts[1..], " "));
      assert [parts[0]] + parts[1..] == parts;
    }
  }

  lemma {:induction false} JoinNoUpper(parts: seq<string>, sep: string)
    requires NoUpper(sep)
    requires forall i :: 0 <= i < |parts| ==> NoUpper(parts[i])
    ensures NoUpper(Join(parts, sep))
    decreases |parts|
  {
    if |parts| > 1 {
      JoinNoUpper(parts[1..], sep);
    }
  }

  /** A character absent from every part and from the separator is absent from the join. */
  lemma {:induction false} JoinAvoids(parts: seq<string>, sep: string, c: char)
    requires c !in sep
    requires forall i :: 0 <= i < |parts| ==> c !in parts[i]
    ensures c !in Join(parts, sep)
    decreases |parts|
  {
    if |parts| > 1 {
      JoinAvoids(parts[1..], sep, c);
    }
  }

  /** A character absent from a string is absent from each of its split tokens. */
  lemma {:induction false} SplitAvoids(s: string, c: char, i: nat)
    requires c !in s
    requires i < |Split(s)|
    ensures c !in Split(s)[i]
    decreases |s|
  {
    if s != [] {
      if s[0] == ' ' {
        if i > 0 {
          SplitAvoids(s[1..], c, i - 1);
        }
      } else if i == 0 {
        SplitAvoids(s[1..], c, 0);
      } else {
        SplitAvoids(s[1..], c, i);
      }
    }
  }

  /** Appending one more element to a non-empty join adds one separator. */
  lemma {:induction false} JoinSnoc(parts: seq<string>, x: string, sep: string)
    requires |parts| >= 1
    ensures Join(parts + [x], sep) == Join(parts, sep) + sep + x
    decreases |parts|
  {
    if |parts| == 1 {
      assert (parts + [x])[1..] == [x];
    } else {
      assert (parts + [x])[1..] == parts[1..] + [x];
      JoinSnoc(parts[1..], x, sep);
    }
  }

  // ---------------------------------------------------------------------------
  // includes(sub)
  // ---------------------------------------------------------------------------

  /** `s.includes(sub)`, computed by trying every start position from the left. */
  predicate Contains(s: string, sub: string)
    decreases |s|
  {
    sub <= s || (|s| > 0 && Contains(s[1..], sub))
  }

  /** `sub` occurs in `s` starting at index `i`. */
  predicate OccursAt(s: string, sub: string, i: nat) {
    i + |sub| <= |s| && s[i..i + |sub|] == sub
  }

  /** `Contains` is exactly "occurs at some index". */
  lemma {:induction false} ContainsIsOccurrence(s: string, sub: string)
    ensures Contains(s, sub) <==> exists i: nat :: i <= |s| && OccursAt(s, sub, i)
    decreases |s|
  {
    if sub <= s {
      assert OccursAt(s, sub, 0);
    } else if |s| == 0 {
      assert !OccursAt(s, sub, 0);
    } else {
      ContainsIsOccurrence(s[1..], sub);
      if Contains(s[1..], sub) {
        var i: nat :| i <= |s[1..]| && OccursAt(s[1..], sub, i);
        assert s[i + 1..i + 1 + |sub|] == s[1..][i..i + |sub|];
        assert OccursAt(s, sub, i + 1);
      } else {
        forall i: nat | i <= |s| && OccursAt(s, sub, i)
          ensures false
        {
          if i > 0 {
            assert s[1..][i - 1..i - 1 + |sub|] == s[i..i + |sub|];
            assert OccursAt(s[1..], sub, i - 1);
          }
        }
      }
    }
  }

  /** A string that lacks one of the characters of `sub` does not contain `sub`. */
  lemma MissingCharNotContained(s: string, sub: string, k: nat)
    requires k < |sub| && sub[k] !in s
    ensures !Contains(s, sub)
  {
    ContainsIsOccurrence(s, sub);
  }

  /** A substring of the left part of a concatenation is a substring of the whole. */
  lemma {:induction false} ContainsConcatLeft(a: string, b: string, sub: string)
    requires Contains(a, sub)
    ensures Contains(a + b, sub)
  {
    ContainsIsOccurrence(a, sub);
    var i: nat :| i <= |a| && OccursAt(a, sub, i);
    assert (a + b)[i..i + |sub|] == a[i..i + |sub|];
    assert OccursAt(a + b, sub, i);
    ContainsIsOccurrence(a + b, sub);
  }

  /** A substring of the right part of a concatenation is a substring of the whole. */
  lemma {:induction false} ContainsConcatRight(a: string, b: string, sub: string)
    requires Contains(b, sub)
    ensures Contains(a + b, sub)
  {
    ContainsIsOccurrence(b, sub);
    var i: nat :| i <= |b| && OccursAt(b, sub, i);
    assert (a + b)[|a| + i..|a| + i + |sub|] == b[i..i + |sub|];
    assert OccursAt(a + b, sub, |a| + i);
    ContainsIsOccurrence(a + b, sub);
  }

  /** An occurrence of `sub` in `a + [c] + b` that does not use the character `c` lies in `a` or in `b`. */
  lemma ContainsAroundChar(a: string, c: char, b: string, sub: string)
    requires c !in sub
    requires Contains(a + [c] + b, sub)
    ensures Contains(a, sub) || Contains(b, sub)
  {
    var s := a + [c] + b;
    ContainsIsOccurrence(s, sub);
    var i: nat :| i <= |s| && OccursAt(s, sub, i);
    if i + |sub| <= |a| {
      assert s[i..i + |sub|] == a[i..i + |sub|];
      assert OccursAt(a, sub, i);
      ContainsIsOccurrence(a, sub);
    } else if i > |a| {
      var j: nat := i - |a| - 1;
      assert s[i..i + |sub|] == b[j..j + |sub|];
      assert OccursAt(b, sub, j);
      ContainsIsOccurrence(b, sub);
    } else {
      OccurrenceCovers(s, sub, i, |a|);
    }
  }

  /** Every character an occurrence covers is a character of `sub`. */
  lemma OccurrenceCovers(s: string, sub: string, i: nat, j: nat)
    requires OccursAt(s, sub, i) && i <= j < i + |sub|
    ensures s[j] in sub
  {
    assert s[j] == s[i..i + |sub|][j - i];
  }

  /** A space-free `sub` found in a space-joined sequence is found in one of its parts. */
  lemma {:induction false} JoinedContains(parts: seq<string>, sub: string) returns (k: nat)
    requires |parts| >= 1 && ' ' !in sub
    requires Contains(Join(parts, " "), sub)
    ensures k < |parts| && Contains(parts[k], sub)
    decreases |parts|
  {
    if |parts| == 1 {
      k := 0;
    } else {
      var rest := Join(parts[1..], " ");
      assert Join(parts, " ") == parts[0] + [' '] + rest;
      ContainsAroundChar(parts[0], ' ', rest, sub);
      if Contains(parts[0], sub) {
        k := 0;
      } else {
        var k' := JoinedContains(parts[1..], sub);
        k := k' + 1;
      }
    }
  }

  /** Whatever occurs in one part occurs in the joined string. */
  lemma {:induction false} ContainsInJoin(parts: seq<string>, sep: string, k: nat, sub: string)
    requires k < |parts| && Contains(parts[k], sub)
    ensures Contains(Join(parts, sep), sub)
    decreases |parts|
  {
    if |parts| == 1 {
    } else if k == 0 {
      ContainsConcatLeft(parts[0], sep + Join(parts[1..], sep), sub);
      assert parts[0] + sep + Join(parts[1..], sep) == parts[0] + (sep + Join(parts[1..], sep));
    } else {
      ContainsInJoin(parts[1..], sep, k - 1, sub);
      ContainsConcatRight(parts[0] + sep, Join(parts[1..], sep), sub);
    }
  }

  // ---------------------------------------------------------------------------
  // Decimal rendering of a natural number
  // ---------------------------------------------------------------------------

  function DigitChar(d: nat): char
    requires d < 10
  {
    ('0' as int + d) as char
  }

  predicate IsDigits(s: string) {
    forall i :: 0 <= i < |s| ==> '0' <= s[i] <= '9'
  }

  /** The decimal text of `n`, without leading zeros. */
  function NatToString(n: nat): (r: string)
    ensures |r| >= 1 && IsDigits(r)
    ensures |r| > 1 ==> r[0] != '0'
    decreases n
  {
    if n < 10 then [DigitChar(n)] else NatToString(n / 10) + [DigitChar(n % 10)]
  }

  /** The value of a string of decimal digits. */
  function ParseNat(s: string): nat
    requires IsDigits(s)
    decreases |s|
  {
    if s == [] then 0 else ParseNat(s[..|s| - 1]) * 10 + (s[|s| - 1] as int - '0' as int)
  }

  /** Reading back the decimal text of `n` gives `n`. */
  lemma {:induction false} ParseNatToString(n: nat)
    ensures ParseNat(NatToString(n)) == n
    decreases n
  {
    if n >= 10 {
      var s := NatToString(n);
      assert s[..|s| - 1] == NatToString(n / 10);
      ParseNatToString(n / 10);
    }
  }
}
