/** Character classes and string operations of Foundation and the Swift standard library
    that the app relies on, stated over Unicode scalar values. */
module Text {

  /** `CharacterSet.whitespacesAndNewlines`: the Unicode space separators (category Zs),
      the controls U+0009 to U+000D, U+0085, and the line and paragraph separators. */
  predicate IsWhitespaceOrNewline(c: char)
  {
    || c == ' '
    || ('\t' <= c <= '\r')
    || c == '\U{85}'
    || c == '\U{A0}'
    || c == '\U{1680}'
    || ('\U{2000}' <= c <= '\U{200A}')
    || c == '\U{2028}'
    || c == '\U{2029}'
    || c == '\U{202F}'
    || c == '\U{205F}'
    || c == '\U{3000}'
  }

  /** A string with at least one character outside `whitespacesAndNewlines`. */
  ghost predicate HasContent(s: string)
  {
    exists i :: 0 <= i < |s| && !IsWhitespaceOrNewline(s[i])
  }

  /** The characters matched by the regular-expression class `\d`, taken here as the
      ASCII decimal digits. */
  predicate IsDigit(c: char)
  {
    '0' <= c <= '9'
  }

  predicate AllDigits(s: string)
  {
    forall i :: 0 <= i < |s| ==> IsDigit(s[i])
  }

  /** `String.hasPrefix`. */
  predicate HasPrefix(s: string, prefix: string)
  {
    |prefix| <= |s| && s[..|prefix|] == prefix
  }

  /** Drops leading whitespace: the result is the longest suffix of `s` that does not start
      with whitespace, and everything dropped was whitespace. */
  function TrimLeading(s: string): (r: string)
    ensures |r| <= |s| && r == s[|s| - |r|..]
    ensures forall i :: 0 <= i < |s| - |r| ==> IsWhitespaceOrNewline(s[i])
    ensures r != [] ==> !IsWhitespaceOrNewline(r[0])
  {
    if |s| > 0 && IsWhitespaceOrNewline(s[0]) then TrimLeading(s[1..]) else s
  }

  /** Drops trailing whitespace: the result is the longest prefix of `s` that does not end
      with whitespace, and everything dropped was whitespace. */
  function TrimTrailing(s: string): (r: string)
    ensures |r| <= |s| && r == s[..|r|]
    ensures forall i :: |r| <= i < |s| ==> IsWhitespaceOrNewline(s[i])
    ensures r != [] ==> !IsWhitespaceOrNewline(r[|r| - 1])
  {
    if |s| > 0 && IsWhitespaceOrNewline(s[|s| - 1]) then TrimTrailing(s[..|s| - 1]) else s
  }

  /** `r` is the run of `s` starting at `i`, and everything of `s` before and after it is
      whitespace. */
  ghost predicate SurroundedByWhitespace(s: string, r: string, i: nat)
  {
    && i + |r| <= |s| && r == s[i..i + |r|]
    && (forall k :: 0 <= k < i ==> IsWhitespaceOrNewline(s[k]))
    && (forall k :: i + |r| <= k < |s| ==> IsWhitespaceOrNewline(s[k]))
  }

  /** `trimmingCharacters(in: .whitespacesAndNewlines)`: the run of `s` left once the
      whitespace at both ends is dropped; it neither starts nor ends with whitespace. */
  function Trimmed(s: string): (r: string)
    ensures exists i: nat :: SurroundedByWhitespace(s, r, i)
    ensures r != [] ==> !IsWhitespaceOrNewline(r[0]) && !IsWhitespaceOrNewline(r[|r| - 1])
  {
    var lead := TrimLeading(s);
    var r := TrimTrailing(lead);
    var i := |s| - |lead|;
    assert s[i..i + |r|] == lead[..|r|] == r;
    assert SurroundedByWhitespace(s, r, i);
    r
  }

  /** Trimming leaves nothing exactly when the string is all whitespace. */
  lemma TrimmedEmptyIffBlank(s: string)
    ensures Trimmed(s) == "" <==> !HasContent(s)
  {
    var lead := TrimLeading(s);
    if Trimmed(s) != "" {
      var t := Trimmed(s);
      assert !IsWhitespaceOrNewline(t[0]);
      assert t[0] == lead[0] == s[|s| - |lead|];
    }
  }

  /** `a` and `b` agree on their first `i` characters, and there `a` either ends while `b`
      goes on, or has the smaller character. */
  ghost predicate FirstDifferenceAt(a: string, b: string, i: nat)
  {
    && i <= |a| && i <= |b| && a[..i] == b[..i]
    && ((i == |a| && i < |b|) || (i < |a| && i < |b| && a[i] < b[i]))
  }

  /** Swift's `<` on `String`, taken as lexicographic order on Unicode scalar values: `a` is
      a proper prefix of `b`, or has the smaller character where they first differ. */
  predicate Less(a: string, b: string)
    ensures Less(a, b) <==> exists i: nat :: FirstDifferenceAt(a, b, i)
  {
    if |a| == 0 then
      assert |b| > 0 ==> FirstDifferenceAt(a, b, 0);
      |b| > 0
    else if |b| == 0 then false
    else if a[0] != b[0] then
      assert a[0] < b[0] ==> FirstDifferenceAt(a, b, 0);
      a[0] < b[0]
    else
      FirstDifferenceShift(a, b);
      Less(a[1..], b[1..])
  }

  /** Past a common first character, the first difference moves one place along. */
  lemma FirstDifferenceShift(a: string, b: string)
    requires |a| > 0 && |b| > 0 && a[0] == b[0]
    ensures (exists i: nat :: FirstDifferenceAt(a, b, i)) <==> exists i: nat :: FirstDifferenceAt(a[1..], b[1..], i)
  {
    forall i: nat | FirstDifferenceAt(a[1..], b[1..], i)
      ensures FirstDifferenceAt(a, b, i + 1)
    {
      assert a[..i + 1] == [a[0]] + a[1..][..i];
      assert b[..i + 1] == [b[0]] + b[1..][..i];
    }
    forall i: nat | FirstDifferenceAt(a, b, i)
      ensures i > 0 && FirstDifferenceAt(a[1..], b[1..], i - 1)
    {
      assert a[1..][..i - 1] == a[..i][1..];
      assert b[1..][..i - 1] == b[..i][1..];
    }
  }

  lemma {:induction false} LessIrreflexive(a: string)
    ensures !Less(a, a)
  {
    if |a| > 0 {
      LessIrreflexive(a[1..]);
    }
  }

  lemma {:induction false} LessTransitive(a: string, b: string, c: string)
    requires Less(a, b) && Less(b, c)
    ensures Less(a, c)
  {
    if |a| > 0 && |b| > 0 && |c| > 0 && a[0] == b[0] == c[0] {
      LessTransitive(a[1..], b[1..], c[1..]);
    }
  }

  lemma LessAsymmetric(a: string, b: string)
    requires Less(a, b)
    ensures !Less(b, a)
  {
    if Less(b, a) {
      LessTransitive(a, b, a);
      LessIrreflexive(a);
    }
  }

  /** Any two different strings are ordered one way or the other. */
  lemma {:induction false} LessTotal(a: string, b: string)
    requires a != b
    ensures Less(a, b) || Less(b, a)
  {
    if |a| > 0 && |b| > 0 && a[0] == b[0] {
      assert a == [a[0]] + a[1..] && b == [b[0]] + b[1..];
      LessTotal(a[1..], b[1..]);
    }
  }

  /** "Not greater" is transitive: the order the sorted ingredient list is in. */
  lemma NotLessTransitive(a: string, b: string, c: string)
    requires !Less(b, a) && !Less(c, b)
    ensures !Less(c, a)
  {
    if Less(c, a) {
      if a == b {
      } else if b == c {
      } else {
        LessTotal(a, b);
        LessTotal(b, c);
        LessTransitive(c, a, b);
      }
    }
  }
}
