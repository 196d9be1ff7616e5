/**
 * The few JavaScript string operations the views rely on:
 * `toLowerCase`, `includes`, `trim` and string comparison.
 * Strings are sequences of Unicode scalar values (code points), where
 * JavaScript strings are sequences of UTF-16 code units. The two agree on
 * text within the Basic Multilingual Plane. Lone surrogates have no
 * counterpart here.
 */
module Text {

  /** An ASCII upper-case letter. */
  predicate IsUpper(c: char) {
    'A' <= c <= 'Z'
  }

  /** Lower-cases one character; only the ASCII letters are mapped. */
  function LowerChar(c: char): char {
    if IsUpper(c) then (c as int + 32) as char else c
  }

  /** `s.toLowerCase()` restricted to ASCII letters. */
  function Lower(s: string): (r: string)
    ensures |r| == |s|
    ensures forall i :: 0 <= i < |r| ==> !IsUpper(r[i])
    ensures forall i :: 0 <= i < |r| && !IsUpper(s[i]) ==> r[i] == s[i]
    ensures forall i :: 0 <= i < |r| && IsUpper(s[i]) ==> r[i] as int == s[i] as int + 32
  {
    seq(|s|, i requires 0 <= i < |s| => LowerChar(s[i]))
  }

  lemma LowerIdempotent(s: string)
    ensures Lower(Lower(s)) == Lower(s)
  {
  }

  /** A string with no upper-case letter is its own lower-case form. */
  lemma LowerOfLowercase(s: string)
    requires forall i :: 0 <= i < |s| ==> !IsUpper(s[i])
    ensures Lower(s) == s
  {
  }

  /** Lower-casing works piecewise. */
  lemma LowerConcat(a: string, b: string)
    ensures Lower(a + b) == Lower(a) + Lower(b)
  {
  }

  // ---------------------------------------------------------------- includes

  predicate StartsWith(s: string, prefix: string) {
    |prefix| <= |s| && s[..|prefix|] == prefix
  }

  /** `s.includes(t)`: `t` occurs somewhere in `s`, scanning from the front. */
  predicate Contains(s: string, t: string)
    decreases |s|
  {
    StartsWith(s, t) || (|s| > 0 && Contains(s[1..], t))
  }

  /** `t` occurs in `s` starting at index `i`. */
  ghost predicate OccursAt(s: string, t: string, i: int) {
    0 <= i && i + |t| <= |s| && s[i..i + |t|] == t
  }

  /** The scan agrees with the positional definition of an occurrence. */
  lemma {:induction false} ContainsIff(s: string, t: string)
    ensures Contains(s, t) <==> exists i :: OccursAt(s, t, i)
    decreases |s|
  {
    if Contains(s, t) {
      if StartsWith(s, t) {
        assert OccursAt(s, t, 0);
      } else {
        ContainsIff(s[1..], t);
        var i :| OccursAt(s[1..], t, i);
        assert s[1..][i..i + |t|] == s[i + 1..i + 1 + |t|];
        assert OccursAt(s, t, i + 1);
      }
    }
    if exists i :: OccursAt(s, t, i) {
      var i :| OccursAt(s, t, i);
      if i == 0 {
        assert StartsWith(s, t);
      } else {
        assert s[1..][i - 1..i - 1 + |t|] == s[i..i + |t|];
        assert OccursAt(s[1..], t, i - 1);
        ContainsIff(s[1..], t);
      }
    }
  }

  /** Every string includes the empty string. */
  lemma ContainsEmpty(s: string)
    ensures Contains(s, "")
  {
    assert StartsWith(s, "");
  }

  /** Every string includes itself. */
  lemma ContainsSelf(s: string)
    ensures Contains(s, s)
  {
    assert StartsWith(s, s);
  }

  /** An occurrence at a known index is enough. */
  lemma OccurrenceContains(s: string, t: string, i: int)
    requires OccursAt(s, t, i)
    ensures Contains(s, t)
  {
    ContainsIff(s, t);
  }

  /** An occurrence inside a part is an occurrence inside the whole. */
  lemma ContainsInConcat(a: string, t: string, b: string)
    ensures Contains(a + t + b, t)
  {
    assert OccursAt(a + t + b, t, |a|) by {
      assert (a + t + b)[|a|..|a| + |t|] == t;
    }
    ContainsIff(a + t + b, t);
  }

  /** A string lacking one of `t`'s characters cannot include `t`. */
  lemma MissingCharExcludes(s: string, t: string, j: int)
    requires 0 <= j < |t|
    requires t[j] !in s
    ensures !Contains(s, t)
  {
    ContainsIff(s, t);
  }

  /** A string lacking one of `t`'s adjacent pairs cannot include `t`. */
  lemma MissingPairExcludes(s: string, t: string, j: int)
    requires 0 <= j < |t| - 1
    requires forall i :: 0 <= i < |s| - 1 ==> !(s[i] == t[j] && s[i + 1] == t[j + 1])
    ensures !Contains(s, t)
  {
    ContainsIff(s, t);
  }

  // -------------------------------------------------------------------- trim

  /** ECMAScript WhiteSpace and LineTerminator code points, the set `trim` removes. */
  predicate IsWhiteSpace(c: char) {
    || c == '\t' || c == '\n' || c == '\U{000B}' || c == '\U{000C}' || c == '\r'
    || c == ' ' || c == '\U{00A0}' || c == '\U{1680}'
    || ('\U{2000}' <= c <= '\U{200A}')
    || c == '\U{2028}' || c == '\U{2029}' || c == '\U{202F}' || c == '\U{205F}'
    || c == '\U{3000}' || c == '\U{FEFF}'
  }

  /** Drops leading white space. */
  function TrimStart(s: string): (r: string)
    ensures |r| <= |s| && r == s[|s| - |r|..]
    ensures forall i :: 0 <= i < |s| - |r| ==> IsWhiteSpace(s[i])
    ensures |r| > 0 ==> !IsWhiteSpace(r[0])
    decreases |s|
  {
    if |s| > 0 && IsWhiteSpace(s[0]) then TrimStart(s[1..]) else s
  }

  /** Drops trailing white space. */
  function TrimEnd(s: string): (r: string)
    ensures |r| <= |s| && r == s[..|r|]
    ensures forall i :: |r| <= i < |s| ==> IsWhiteSpace(s[i])
    ensures |r| > 0 ==> !IsWhiteSpace(r[|r| - 1])
    decreases |s|
  {
    if |s| > 0 && IsWhiteSpace(s[|s| - 1]) then TrimEnd(s[..|s| - 1]) else s
  }

  /** `s.trim()`. */
  function Trim(s: string): string {
    TrimEnd(TrimStart(s))
  }

  /** A string is blank when every character is white space. */
  predicate IsBlank(s: string) {
    forall i :: 0 <= i < |s| ==> IsWhiteSpace(s[i])
  }

  /** `!s.trim()` holds exactly for blank strings. */
  lemma TrimEmptyIffBlank(s: string)
    ensures Trim(s) == "" <==> IsBlank(s)
  {
    var m := TrimStart(s);
    if |m| > 0 {
      // the first kept character is not white space, and so survives TrimEnd
      assert !IsWhiteSpace(m[0]) && m[0] == s[|s| - |m|];
      assert |TrimEnd(m)| > 0;
    }
  }

  // -------------------------------------------------------- string ordering

  /**
   * Lexicographic comparison by code point: negative, zero or positive as
   * `a` sorts before, equal to or after `b`.
   */
  function LexCompare(a: string, b: string): (r: int)
    ensures -1 <= r <= 1
    ensures r == 0 <==> a == b
    decreases |a|
  {
    if |a| == 0 && |b| == 0 then 0
    else if |a| == 0 then -1
    else if |b| == 0 then 1
    else if a[0] < b[0] then -1
    else if a[0] > b[0] then 1
    else
      assert a == [a[0]] + a[1..] && b == [b[0]] + b[1..];
      LexCompare(a[1..], b[1..])
  }

  lemma {:induction false} LexAntisymmetric(a: string, b: string)
    ensures LexCompare(a, b) == -LexCompare(b, a)
    decreases |a|
  {
    if |a| > 0 && |b| > 0 && a[0] == b[0] {
      LexAntisymmetric(a[1..], b[1..]);
    }
  }

  lemma {:induction false} LexTransitive(a: string, b: string, c: string)
    requires LexCompare(a, b) <= 0 && LexCompare(b, c) <= 0
    ensures LexCompare(a, c) <= 0
    decreases |a|
  {
    if |a| > 0 && |b| > 0 && |c| > 0 && a[0] == b[0] && b[0] == c[0] {
      LexTransitive(a[1..], b[1..], c[1..]);
    }
  }

  /** A proper prefix sorts first. */
  lemma {:induction false} LexPrefixFirst(a: string, b: string)
    requires |a| < |b| && b[..|a|] == a
    ensures LexCompare(a, b) == -1
    decreases |a|
  {
    if |a| > 0 {
      assert a[0] == b[0];
      assert b[1..][..|a| - 1] == a[1..];
      LexPrefixFirst(a[1..], b[1..]);
    }
  }
}
