/**
 * The JavaScript string operations the pages rely on: `toLowerCase`,
 * `includes`, `trim`, and the truthiness test on form text.
 */
module Text {

  /** `String.prototype.toLowerCase` on one character, for the ASCII letters. */
  function LowerChar(c: char): char
  {
    if 'A' <= c <= 'Z' then (c as int + 32) as char else c
  }

  function Lower(s: string): (r: string)
    ensures |r| == |s|
  {
    seq(|s|, i requires 0 <= i < |s| => LowerChar(s[i]))
  }

  predicate IsLower(s: string)
  {
    forall i :: 0 <= i < |s| ==> !('A' <= s[i] <= 'Z')
  }

  /** Lower-casing leaves no upper-case letter and is idempotent, so
      lowering a search term that is already lower case changes nothing. */
  lemma LowerIsLower(s: string)
    ensures IsLower(Lower(s))
    ensures Lower(Lower(s)) == Lower(s)
  {
  }

  lemma LowerSlice(s: string, i: int, j: int)
    requires 0 <= i <= j <= |s|
    ensures Lower(s)[i..j] == Lower(s[i..j])
  {
  }

  /** `n` occurs in `h` starting at index `i`. */
  predicate OccursAt(n: string, h: string, i: int)
  {
    0 <= i && i + |n| <= |h| && h[i..i + |n|] == n
  }

  /** Declarative meaning of `h.includes(n)`. */
  ghost predicate IsSubstring(n: string, h: string)
  {
    exists i :: OccursAt(n, h, i)
  }

  lemma IncludesStep(h: string, n: string)
    requires |n| < |h| || (|n| == |h| && h != n)
    requires |n| <= |h|
    ensures IsSubstring(n, h) <==> OccursAt(n, h, 0) || IsSubstring(n, h[1..])
  {
    if IsSubstring(n, h) && !OccursAt(n, h, 0) {
      var i :| OccursAt(n, h, i);
      assert h[1..][i - 1..i - 1 + |n|] == h[i..i + |n|];
      assert OccursAt(n, h[1..], i - 1);
    }
    if IsSubstring(n, h[1..]) {
      var i :| OccursAt(n, h[1..], i);
      assert h[1..][i..i + |n|] == h[i + 1..i + 1 + |n|];
      assert OccursAt(n, h, i + 1);
    }
  }

  /** `String.prototype.includes`, scanning from the left. */
  function Includes(h: string, n: string): (r: bool)
    ensures r <==> IsSubstring(n, h)
    decreases |h|
  {
    if |h| < |n| then
      assert forall i :: !OccursAt(n, h, i);
      false
    else if h[..|n|] == n then
      assert OccursAt(n, h, 0);
      true
    else if |h| == |n| then
      assert forall i :: OccursAt(n, h, i) ==> i == 0;
      false
    else
      IncludesStep(h, n);
      Includes(h[1..], n)
  }

  /** The empty string occurs everywhere. */
  lemma EmptyIsSubstring(h: string)
    ensures IsSubstring("", h)
  {
    assert OccursAt("", h, 0);
  }

  /** Witness form of `IsSubstring`: the characters of `n` appear at
      consecutive positions of `h` from `i` on. */
  lemma WordAt(h: string, n: string, i: nat)
    requires i + |n| <= |h|
    requires forall k :: 0 <= k < |n| ==> h[i + k] == n[k]
    ensures IsSubstring(n, h)
  {
    assert OccursAt(n, h, i);
  }

  /** Every character of a substring is a character of the whole. */
  lemma SubstringChars(n: string, h: string, c: char)
    ensures IsSubstring(n, h) && c in n ==> c in h
  {
    if IsSubstring(n, h) && c in n {
      var i :| OccursAt(n, h, i);
      var k :| 0 <= k < |n| && n[k] == c;
      assert h[i..i + |n|][k] == h[i + k];
    }
  }

  lemma SubstringTransitive(a: string, b: string, c: string)
    requires IsSubstring(a, b) && IsSubstring(b, c)
    ensures IsSubstring(a, c)
  {
    var i :| OccursAt(a, b, i);
    var j :| OccursAt(b, c, j);
    forall k | 0 <= k < |a|
      ensures c[j + i + k] == a[k]
    {
      assert c[j..j + |b|][i + k] == c[j + i + k];
      assert b[i..i + |a|][k] == b[i + k];
    }
    WordAt(c, a, j + i);
  }

  /** Lower-casing both sides preserves an occurrence. */
  lemma LowerPreservesSubstring(n: string, h: string)
    requires IsSubstring(n, h)
    ensures IsSubstring(Lower(n), Lower(h))
  {
    var i :| OccursAt(n, h, i);
    LowerSlice(h, i, i + |n|);
    assert OccursAt(Lower(n), Lower(h), i);
  }

  /** Several string pieces joined without separator. Long fixed texts
      are written as lists of short word groups so that facts about them
      can be checked one group at a time. */
  function Concat(pieces: seq<string>): string
  {
    if |pieces| == 0 then "" else pieces[0] + Concat(pieces[1..])
  }

  lemma LowerAppend(a: string, b: string)
    ensures Lower(a + b) == Lower(a) + Lower(b)
  {
  }

  /** A letter missing from every piece is missing from the whole. */
  lemma {:induction false} CharAbsentFromConcat(pieces: seq<string>, c: char)
    requires forall i :: 0 <= i < |pieces| ==> c !in Lower(pieces[i])
    ensures c !in Lower(Concat(pieces))
  {
    if |pieces| > 0 {
      CharAbsentFromConcat(pieces[1..], c);
      LowerAppend(pieces[0], Concat(pieces[1..]));
    }
  }

  /** `h` has the letter `a` immediately followed by `b`. */
  predicate HasPair(h: string, a: char, b: char)
  {
    exists i :: 0 <= i < |h| - 1 && h[i] == a && h[i + 1] == b
  }

  lemma PairInAppend(x: string, y: string, a: char, b: char)
    ensures HasPair(x + y, a, b) ==>
      HasPair(x, a, b) || HasPair(y, a, b) || (|x| > 0 && |y| > 0 && x[|x| - 1] == a && y[0] == b)
  {
    if HasPair(x + y, a, b) {
      var i :| 0 <= i < |x + y| - 1 && (x + y)[i] == a && (x + y)[i + 1] == b;
      if i + 1 < |x| {
        assert x[i] == a && x[i + 1] == b;
      } else if i >= |x| {
        assert y[i - |x|] == a && y[i - |x| + 1] == b;
      }
    }
  }

  /** A letter pair missing from every piece is missing from the whole,
      provided every piece but the last ends in a space and the pair does
      not start with a space. */
  lemma {:induction false} PairAbsentFromConcat(pieces: seq<string>, a: char, b: char)
    requires a != ' '
    requires forall i :: 0 <= i < |pieces| - 1 ==> |pieces[i]| > 0 && pieces[i][|pieces[i]| - 1] == ' '
    requires forall i :: 0 <= i < |pieces| ==> !HasPair(Lower(pieces[i]), a, b)
    ensures !HasPair(Lower(Concat(pieces)), a, b)
  {
    if |pieces| > 0 {
      PairAbsentFromConcat(pieces[1..], a, b);
      var x, y := Lower(pieces[0]), Lower(Concat(pieces[1..]));
      LowerAppend(pieces[0], Concat(pieces[1..]));
      PairInAppend(x, y, a, b);
      if |pieces| > 1 {
        assert x[|x| - 1] == ' ';
      }
    }
  }

  /** An occurrence of a piece is an occurrence in the whole. */
  lemma {:induction false} SubstringOfConcat(n: string, pieces: seq<string>, k: nat)
    requires k < |pieces|
    requires IsSubstring(n, Lower(pieces[k]))
    ensures IsSubstring(n, Lower(Concat(pieces)))
  {
    var rest := Concat(pieces[1..]);
    LowerAppend(pieces[0], rest);
    if k == 0 {
      var i :| OccursAt(n, Lower(pieces[0]), i);
      assert (Lower(pieces[0]) + Lower(rest))[i..i + |n|] == Lower(pieces[0])[i..i + |n|];
      assert OccursAt(n, Lower(Concat(pieces)), i);
    } else {
      SubstringOfConcat(n, pieces[1..], k - 1);
      var i :| OccursAt(n, Lower(rest), i);
      var j := |pieces[0]| + i;
      assert (Lower(pieces[0]) + Lower(rest))[j..j + |n|] == Lower(rest)[i..i + |n|];
      assert OccursAt(n, Lower(Concat(pieces)), j);
    }
  }

  /** A string lacking a letter of `n` does not contain `n`. */
  lemma AbsentByChar(n: string, h: string, c: char)
    requires c in n && c !in h
    ensures !IsSubstring(n, h)
  {
    SubstringChars(n, h, c);
  }

  lemma PairOfOccurrence(n: string, h: string, k: nat)
    requires k + 1 < |n|
    ensures IsSubstring(n, h) ==> HasPair(h, n[k], n[k + 1])
  {
    if IsSubstring(n, h) {
      var i :| OccursAt(n, h, i);
      assert h[i..i + |n|][k] == h[i + k] && h[i..i + |n|][k + 1] == h[i + k + 1];
    }
  }

  /** A string lacking two adjacent letters of `n` does not contain `n`. */
  lemma AbsentByPair(n: string, h: string, k: nat)
    requires k + 1 < |n|
    requires !HasPair(h, n[k], n[k + 1])
    ensures !IsSubstring(n, h)
  {
    PairOfOccurrence(n, h, k);
  }

  /** ECMAScript WhiteSpace and LineTerminator code points, the set
      `String.prototype.trim` removes. */
  predicate IsWhiteSpace(c: char)
  {
    c == '\t' || c == '\n' || c == '\U{000B}' || c == '\U{000C}' || c == '\r' || c == ' '
    || c == '\U{00A0}' || c == '\U{1680}' || ('\U{2000}' <= c <= '\U{200A}')
    || c == '\U{2028}' || c == '\U{2029}' || c == '\U{202F}' || c == '\U{205F}'
    || c == '\U{3000}' || c == '\U{FEFF}'
  }

  function TrimStart(s: string): (r: string)
    ensures |r| <= |s| && r == s[|s| - |r|..]
    ensures |r| > 0 ==> !IsWhiteSpace(r[0])
    ensures forall i :: 0 <= i < |s| - |r| ==> IsWhiteSpace(s[i])
  {
    if |s| > 0 && IsWhiteSpace(s[0]) then TrimStart(s[1..]) else s
  }

  function TrimEnd(s: string): (r: string)
    ensures |r| <= |s| && r == s[..|r|]
    ensures |r| > 0 ==> !IsWhiteSpace(r[|r| - 1])
    ensures forall i :: |r| <= i < |s| ==> IsWhiteSpace(s[i])
  {
    if |s| > 0 && IsWhiteSpace(s[|s| - 1]) then TrimEnd(s[..|s| - 1]) else s
  }

  /** `String.prototype.trim`. */
  function Trim(s: string): string
  {
    TrimEnd(TrimStart(s))
  }

  /** `!s.trim()`: the text is blank exactly when every character is white space. */
  lemma TrimEmptyIff(s: string)
    ensures Trim(s) == "" <==> forall i :: 0 <= i < |s| ==> IsWhiteSpace(s[i])
  {
    if Trim(s) == "" {
      assert |TrimStart(s)| == 0;
    }
  }

  /** A numeric text field of a form: left empty (falsy in JavaScript),
      or holding text that `Number(…)` reads as `value`. */
  datatype NumberInput = Blank | Entered(value: real)
}
