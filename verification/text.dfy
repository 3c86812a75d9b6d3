/** The three JavaScript string operations the core relies on:
    `String.prototype.trim`, `toLowerCase` and `includes`. Strings are `seq<char>`. */
module Text {

  /** ECMAScript WhiteSpace and LineTerminator code points, the set `trim` strips. */
  predicate IsWhiteSpace(c: char) {
    || c == '\t' || c == '\n' || c == '\U{000B}' || c == '\U{000C}' || c == '\r' || c == ' '
    || c == '\U{00A0}' || c == '\U{1680}' || ('\U{2000}' <= c <= '\U{200A}')
    || c == '\U{2028}' || c == '\U{2029}' || c == '\U{202F}' || c == '\U{205F}'
    || c == '\U{3000}' || c == '\U{FEFF}'
  }

  predicate AllWhiteSpace(s: string) {
    forall k :: 0 <= k < |s| ==> IsWhiteSpace(s[k])
  }

  /** The number of white-space characters `s` starts with. */
  function LeadingWhiteSpace(s: string): (n: nat)
    ensures n <= |s|
    ensures forall k :: 0 <= k < n ==> IsWhiteSpace(s[k])
    ensures n < |s| ==> !IsWhiteSpace(s[n])
  {
    if |s| > 0 && IsWhiteSpace(s[0]) then 1 + LeadingWhiteSpace(s[1..]) else 0
  }

  /** The number of white-space characters `s` ends with. */
  function TrailingWhiteSpace(s: string): (n: nat)
    ensures n <= |s|
    ensures forall k :: |s| - n <= k < |s| ==> IsWhiteSpace(s[k])
    ensures n < |s| ==> !IsWhiteSpace(s[|s| - 1 - n])
  {
    if |s| > 0 && IsWhiteSpace(s[|s| - 1]) then 1 + TrailingWhiteSpace(s[..|s| - 1]) else 0
  }

  /** `s.trim()`: white space removed at both ends; nothing is left of an all-blank string. */
  function Trim(s: string): string {
    var i := LeadingWhiteSpace(s);
    if i == |s| then [] else s[i..|s| - TrailingWhiteSpace(s)]
  }

  /** `trim` keeps a contiguous slice of `s`, drops only white space around it, and
      leaves no white space at either end. */
  lemma TrimIsSlice(s: string)
    ensures exists i, j :: 0 <= i <= j <= |s| && Trim(s) == s[i..j]
              && AllWhiteSpace(s[..i]) && AllWhiteSpace(s[j..])
    ensures Trim(s) != [] ==> !IsWhiteSpace(Trim(s)[0]) && !IsWhiteSpace(Trim(s)[|Trim(s)| - 1])
  {
    var i := LeadingWhiteSpace(s);
    var j := if i == |s| then |s| else |s| - TrailingWhiteSpace(s);
    var t := Trim(s);
    assert t == s[i..j];
    WhiteSpacePrefix(s, i);
    WhiteSpaceSuffix(s, j);
    if i < |s| {
      assert t[0] == s[i];
      assert t[|t| - 1] == s[j - 1];
    }
    assert 0 <= i <= j <= |s| && t == s[i..j] && AllWhiteSpace(s[..i]) && AllWhiteSpace(s[j..]);
  }

  lemma WhiteSpacePrefix(s: string, i: nat)
    requires i <= |s| && forall k :: 0 <= k < i ==> IsWhiteSpace(s[k])
    ensures AllWhiteSpace(s[..i])
  {
    forall k | 0 <= k < i ensures IsWhiteSpace(s[..i][k]) {
      assert s[..i][k] == s[k];
    }
  }

  lemma WhiteSpaceSuffix(s: string, j: nat)
    requires j <= |s| && forall k :: j <= k < |s| ==> IsWhiteSpace(s[k])
    ensures AllWhiteSpace(s[j..])
  {
    forall k | 0 <= k < |s| - j ensures IsWhiteSpace(s[j..][k]) {
      assert s[j..][k] == s[j + k];
    }
  }

  /** A string is blank after trimming exactly when every character is white space. */
  lemma TrimEmptyIff(s: string)
    ensures Trim(s) == [] <==> AllWhiteSpace(s)
  {
    var i := LeadingWhiteSpace(s);
    if i < |s| {
      assert !IsWhiteSpace(s[i]);
      assert |Trim(s)| == |s| - TrailingWhiteSpace(s) - i;
    }
  }

  /** Trimming twice is trimming once. */
  lemma TrimIdempotent(s: string)
    ensures Trim(Trim(s)) == Trim(s)
  {
    var t := Trim(s);
    TrimIsSlice(s);
    if t != [] {
      assert LeadingWhiteSpace(t) == 0;
      assert TrailingWhiteSpace(t) == 0;
      assert t[0..|t|] == t;
    }
  }

  /** `toLowerCase` on one character (ASCII letters only). */
  function LowerChar(c: char): char {
    if 'A' <= c <= 'Z' then (c as int + 32) as char else c
  }

  /** `s.toLowerCase()`: the character-wise lower-case image of `s`. */
  function Lower(s: string): (r: string)
    ensures |r| == |s| && forall k {:trigger r[k]} :: 0 <= k < |s| ==> r[k] == LowerChar(s[k])
  {
    seq(|s|, k requires 0 <= k < |s| => LowerChar(s[k]))
  }

  predicate StartsWith(s: string, p: string) {
    |p| <= |s| && s[..|p|] == p
  }

  /** `s.includes(q)`: some position of `s` starts an occurrence of `q`. */
  function Includes(s: string, q: string): bool
    decreases |s|
  {
    StartsWith(s, q) || (|s| > 0 && Includes(s[1..], q))
  }

  ghost predicate OccursAt(s: string, q: string, i: int) {
    0 <= i && i + |q| <= |s| && s[i..i + |q|] == q
  }

  /** An occurrence at any position is found by the search. */
  lemma {:induction false} OccursAtIncludes(s: string, q: string, i: int)
    requires OccursAt(s, q, i)
    ensures Includes(s, q)
    decreases i
  {
    if i > 0 {
      assert s[1..][i - 1..i - 1 + |q|] == s[i..i + |q|];
      OccursAtIncludes(s[1..], q, i - 1);
    }
  }

  /** The search above agrees with the definition of a substring occurrence. */
  lemma {:induction false} IncludesIff(s: string, q: string)
    ensures Includes(s, q) <==> exists i :: OccursAt(s, q, i)
    decreases |s|
  {
    if exists i :: OccursAt(s, q, i) {
      var i :| OccursAt(s, q, i);
      OccursAtIncludes(s, q, i);
    }
    if Includes(s, q) {
      if StartsWith(s, q) {
        assert OccursAt(s, q, 0);
      } else {
        IncludesIff(s[1..], q);
        var i :| OccursAt(s[1..], q, i);
        assert s[1..][i..i + |q|] == s[i + 1..i + 1 + |q|];
        assert OccursAt(s, q, i + 1);
      }
    }
  }

  /** If `a` contains `b` and `b` contains `c`, then `a` contains `c`. */
  lemma IncludesTransitive(a: string, b: string, c: string)
    requires Includes(a, b) && Includes(b, c)
    ensures Includes(a, c)
  {
    IncludesIff(a, b);
    IncludesIff(b, c);
    var i :| OccursAt(a, b, i);
    var j :| OccursAt(b, c, j);
    assert a[i + j..i + j + |c|] == c by {
      forall k | 0 <= k < |c| ensures a[i + j..i + j + |c|][k] == c[k] {
        assert c[k] == b[j..j + |c|][k] == b[j + k];
        assert b[j + k] == a[i..i + |b|][j + k] == a[i + j + k];
      }
    }
    assert OccursAt(a, c, i + j);
    IncludesIff(a, c);
  }

  /** Lower-casing both sides keeps an occurrence. */
  lemma IncludesLower(a: string, b: string)
    requires Includes(a, b)
    ensures Includes(Lower(a), Lower(b))
  {
    IncludesIff(a, b);
    var i :| OccursAt(a, b, i);
    assert Lower(a)[i..i + |b|] == Lower(b) by {
      forall k | 0 <= k < |b| ensures Lower(a)[i..i + |b|][k] == Lower(b)[k] {
        assert a[i..i + |b|][k] == b[k];
      }
    }
    assert OccursAt(Lower(a), Lower(b), i);
    IncludesIff(Lower(a), Lower(b));
  }

  /** A string containing a non-blank string is itself non-blank. */
  lemma IncludesKeepsNonBlank(a: string, b: string)
    requires Includes(a, b) && Trim(b) != []
    ensures Trim(a) != []
  {
    TrimEmptyIff(b);
    TrimEmptyIff(a);
    IncludesIff(a, b);
    var i :| OccursAt(a, b, i);
    var k :| 0 <= k < |b| && !IsWhiteSpace(b[k]);
    assert a[i..i + |b|][k] == a[i + k];
  }
}
