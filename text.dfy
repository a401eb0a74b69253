/** String helpers the handlers rely on: JavaScript's String.prototype.trim
    (used directly and by Mongoose's `trim: true`) and the case-insensitive
    matching of MongoDB's `$regex` with the "i" option. */
module Text {

  /** JavaScript's WhiteSpace and LineTerminator characters, the ones `trim` removes. */
  predicate IsWhitespace(c: char)
  {
    || c == ' ' || c == '\t' || c == '\n' || c == '\r'
    || c == '\U{000B}' || c == '\U{000C}' || c == '\U{00A0}' || c == '\U{FEFF}'
    || c == '\U{1680}' || ('\U{2000}' <= c <= '\U{200A}')
    || c == '\U{2028}' || c == '\U{2029}' || c == '\U{202F}' || c == '\U{205F}' || c == '\U{3000}'
  }

  /** Drops the leading whitespace: the result is the longest suffix that starts with a non-space. */
  function TrimStart(s: string): (r: string)
    ensures |r| <= |s| && r == s[|s| - |r|..]
    ensures forall k :: 0 <= k < |s| - |r| ==> IsWhitespace(s[k])
    ensures r == [] || !IsWhitespace(r[0])
  {
    if s == [] || !IsWhitespace(s[0]) then s else TrimStart(s[1..])
  }

  /** Drops the trailing whitespace: the result is the longest prefix that ends with a non-space. */
  function TrimEnd(s: string): (r: string)
    ensures |r| <= |s| && r == s[..|r|]
    ensures forall k :: |r| <= k < |s| ==> IsWhitespace(s[k])
    ensures r == [] || !IsWhitespace(r[|r| - 1])
  {
    if s == [] || !IsWhitespace(s[|s| - 1]) then s else TrimEnd(s[..|s| - 1])
  }

  /** `r` is `s[i..j]`, and everything `s` has before `i` and from `j` on is whitespace. */
  predicate SliceBetweenBlanks(s: string, r: string, i: int, j: int)
  {
    && 0 <= i <= j <= |s| && r == s[i..j]
    && (forall k :: 0 <= k < i ==> IsWhitespace(s[k]))
    && (forall k :: j <= k < |s| ==> IsWhitespace(s[k]))
  }

  /** String.prototype.trim. */
  function Trim(s: string): (r: string)
    ensures exists i, j :: SliceBetweenBlanks(s, r, i, j)
    ensures r == [] || (!IsWhitespace(r[0]) && !IsWhitespace(r[|r| - 1]))
  {
    var t := TrimStart(s);
    var r := TrimEnd(t);
    PrefixOfSuffix(s, t, r);
    assert SliceBetweenBlanks(s, r, |s| - |t|, |s| - |t| + |r|);
    r
  }

  /** A prefix `r` of a suffix `t` of `s` is a slice of `s`, and what `t` has after `r`
      is what `s` has after that slice. */
  lemma PrefixOfSuffix(s: string, t: string, r: string)
    requires |r| <= |t| <= |s| && t == s[|s| - |t|..] && r == t[..|r|]
    ensures r == s[|s| - |t|..|s| - |t| + |r|]
    ensures forall k :: |s| - |t| + |r| <= k < |s| ==> s[k] == t[k - (|s| - |t|)]
  {
  }

  /** A string trims to the empty string exactly when it is all whitespace. */
  lemma {:induction false} TrimEmptyIffBlank(s: string)
    ensures Trim(s) == [] <==> forall k :: 0 <= k < |s| ==> IsWhitespace(s[k])
  {
    var t := TrimStart(s);
    if Trim(s) == [] {
      var i, j :| SliceBetweenBlanks(s, Trim(s), i, j);
      assert i == j;
    } else {
      assert TrimEnd(t) != [];
      assert t != [] && !IsWhitespace(t[0]);
      assert !IsWhitespace(s[|s| - |t|]);
    }
  }

  /** Trimming twice is trimming once. */
  lemma {:induction false} TrimIdempotent(s: string)
    ensures Trim(Trim(s)) == Trim(s)
  {
    var r := Trim(s);
    assert r == [] || !IsWhitespace(r[0]);
    assert TrimStart(r) == r;
    assert r == [] || !IsWhitespace(r[|r| - 1]);
    assert TrimEnd(r) == r;
  }

  /** `String.prototype.length`: the number of UTF-16 code units, where a character
      outside the Basic Multilingual Plane takes two. */
  function Utf16Length(s: string): (n: nat)
    ensures |s| <= n <= 2 * |s|
    ensures n == |s| <==> forall k :: 0 <= k < |s| ==> s[k] as int < 0x1_0000
  {
    if s == [] then 0
    else
      var n := (if s[0] as int < 0x1_0000 then 1 else 2) + Utf16Length(s[1..]);
      assert forall k :: 1 <= k < |s| ==> s[k] == s[1..][k - 1];
      n
  }

  /** ASCII case folding, as the "i" flag applies it to ASCII letters. */
  function LowerChar(c: char): (d: char)
    ensures 'A' <= c <= 'Z' ==> 'a' <= d <= 'z'
    ensures !('A' <= c <= 'Z') ==> d == c
  {
    if 'A' <= c <= 'Z' then (c as int - 'A' as int + 'a' as int) as char else c
  }

  function Lower(s: string): (r: string)
    ensures |r| == |s| && forall k :: 0 <= k < |s| ==> r[k] == LowerChar(s[k])
  {
    seq(|s|, k requires 0 <= k < |s| => LowerChar(s[k]))
  }

  /** `pattern` occurs in `s` starting at position `i`. */
  predicate OccursAt(pattern: string, s: string, i: int)
  {
    0 <= i && i + |pattern| <= |s| && s[i..i + |pattern|] == pattern
  }

  /** `pattern` occurs in `s` at some position. */
  predicate Occurs(pattern: string, s: string)
  {
    exists i | 0 <= i <= |s| - |pattern| :: OccursAt(pattern, s, i)
  }

  /** `^pattern$` with the "i" option, for a pattern without regex metacharacters. */
  predicate EqualsIgnoringCase(s: string, pattern: string)
  {
    Lower(s) == Lower(pattern)
  }

  /** `pattern` with the "i" option, for a pattern without regex metacharacters. */
  predicate ContainsIgnoringCase(s: string, pattern: string)
  {
    Occurs(Lower(pattern), Lower(s))
  }
}
