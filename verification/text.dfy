/** The two string setters the user schema puts on `username` and `email`
    (`trim` and `lowercase`), as JavaScript's `String.prototype.trim` and
    `String.prototype.toLowerCase` behave on them. */
module Text {

  /** The characters `trim` removes: ECMAScript WhiteSpace and LineTerminator
      (tab through carriage return, space, no-break space, the Unicode space
      separators, line and paragraph separators, and the byte-order mark). */
  predicate IsSpace(c: char) {
    || c == ' ' || '\t' <= c <= '\r' || c == '\U{A0}' || c == '\U{1680}'
    || '\U{2000}' <= c <= '\U{200A}' || c == '\U{2028}' || c == '\U{2029}'
    || c == '\U{202F}' || c == '\U{205F}' || c == '\U{3000}' || c == '\U{FEFF}'
  }

  /** Drops leading white space. */
  function TrimStart(s: string): (r: string)
    ensures |r| <= |s|
  {
    if |s| > 0 && IsSpace(s[0]) then TrimStart(s[1..]) else s
  }

  /** Drops trailing white space. */
  function TrimEnd(s: string): (r: string)
    ensures |r| <= |s|
  {
    if |s| > 0 && IsSpace(s[|s| - 1]) then TrimEnd(s[..|s| - 1]) else s
  }

  /** `String.prototype.trim`. */
  function Trim(s: string): string {
    TrimEnd(TrimStart(s))
  }

  /** `toLowerCase` on one character. Only the ASCII letters are folded: each
      upper-case letter maps to its lower-case partner, 32 code points up. */
  function LowerChar(c: char): (d: char)
    ensures !('A' <= d <= 'Z')
    ensures 'A' <= c <= 'Z' ==> 'a' <= d <= 'z' && d as int == c as int + 32
    ensures !('A' <= c <= 'Z') ==> d == c
    ensures IsSpace(d) <==> IsSpace(c)
  {
    if 'A' <= c <= 'Z' then (c as int + 32) as char else c
  }

  /** `String.prototype.toLowerCase`, character by character. */
  function Lower(s: string): (r: string)
    ensures |r| == |s|
  {
    if s == [] then [] else [LowerChar(s[0])] + Lower(s[1..])
  }

  /** The value the schema stores for `username` and `email`: both setters applied. */
  function Normalize(s: string): string {
    Lower(Trim(s))
  }

  /** The form the setters produce: no white space at either end and no
      upper-case ASCII letter. */
  predicate IsNormalized(s: string) {
    && (s == [] || (!IsSpace(s[0]) && !IsSpace(s[|s| - 1])))
    && forall i :: 0 <= i < |s| ==> !('A' <= s[i] <= 'Z')
  }

  /** Two characters that are equal, or an upper-case ASCII letter and its
      lower-case partner, in either order. */
  predicate CaseVariant(a: char, b: char) {
    || a == b
    || ('A' <= a <= 'Z' && b as int == a as int + 32)
    || ('A' <= b <= 'Z' && a as int == b as int + 32)
  }

  /** Two strings that differ only in the case of ASCII letters. */
  predicate SameUpToCase(x: string, y: string) {
    |x| == |y| && forall i :: 0 <= i < |x| ==> CaseVariant(x[i], y[i])
  }

  /** `TrimStart` keeps a suffix that does not start with a space and drops
      only spaces. */
  lemma {:induction false} TrimStartSpec(s: string)
    ensures var r := TrimStart(s);
      && r == s[|s| - |r|..]
      && (r == [] || !IsSpace(r[0]))
      && forall i :: 0 <= i < |s| - |r| ==> IsSpace(s[i])
  {
    if |s| > 0 && IsSpace(s[0]) {
      TrimStartSpec(s[1..]);
    }
  }

  /** `TrimEnd` keeps a prefix that does not end with a space and drops only
      spaces. */
  lemma {:induction false} TrimEndSpec(s: string)
    ensures var r := TrimEnd(s);
      && r == s[..|r|]
      && (r == [] || !IsSpace(r[|r| - 1]))
      && forall i :: |r| <= i < |s| ==> IsSpace(s[i])
  {
    if |s| > 0 && IsSpace(s[|s| - 1]) {
      TrimEndSpec(s[..|s| - 1]);
    }
  }

  /** `trim` removes white space at both ends and nothing else: the result
      neither starts nor ends with a space, and it is empty exactly when the
      input is all white space. */
  lemma TrimSpec(s: string)
    ensures var r := Trim(s);
      && (r == [] || (!IsSpace(r[0]) && !IsSpace(r[|r| - 1])))
      && (r == [] <==> forall i :: 0 <= i < |s| ==> IsSpace(s[i]))
  {
    var front := TrimStart(s);
    TrimStartSpec(s);
    TrimEndSpec(front);
    var r := TrimEnd(front);
    if r != [] {
      assert r[0] == front[0];
    }
  }

  /** A string that neither starts nor ends with a space is left as it is by `trim`. */
  lemma TrimFixedPoint(s: string)
    requires s == [] || (!IsSpace(s[0]) && !IsSpace(s[|s| - 1]))
    ensures Trim(s) == s
  {
  }

  /** Trimming twice is trimming once. */
  lemma TrimIdempotent(s: string)
    ensures Trim(Trim(s)) == Trim(s)
  {
    TrimSpec(s);
    TrimFixedPoint(Trim(s));
  }

  /** `Lower` folds each character on its own. */
  lemma {:induction false} LowerAt(s: string, i: nat)
    requires i < |s|
    ensures Lower(s)[i] == LowerChar(s[i])
  {
    if i > 0 {
      LowerAt(s[1..], i - 1);
    }
  }

  /** Lower-casing a prefix is taking the prefix of the lower-cased string. */
  lemma {:induction false} LowerPrefix(s: string, n: nat)
    requires n <= |s|
    ensures Lower(s[..n]) == Lower(s)[..n]
  {
    if n > 0 {
      assert s[..n][1..] == s[1..][..n - 1];
      LowerPrefix(s[1..], n - 1);
    }
  }

  /** A string without upper-case ASCII letters is its own lower-cased form. */
  lemma LowerFixedPoint(s: string)
    requires forall i :: 0 <= i < |s| ==> !('A' <= s[i] <= 'Z')
    ensures Lower(s) == s
  {
  }

  /** Lower-casing twice is lower-casing once. */
  lemma LowerIdempotent(s: string)
    ensures Lower(Lower(s)) == Lower(s)
  {
  }

  /** Lower-casing commutes with dropping leading white space. */
  lemma {:induction false} LowerTrimStartCommute(s: string)
    ensures Lower(TrimStart(s)) == TrimStart(Lower(s))
  {
    if s != [] {
      assert Lower(s)[0] == LowerChar(s[0]);
      if IsSpace(s[0]) {
        assert Lower(s)[1..] == Lower(s[1..]);
        LowerTrimStartCommute(s[1..]);
      }
    }
  }

  /** Lower-casing commutes with dropping trailing white space. */
  lemma {:induction false} LowerTrimEndCommute(s: string)
    ensures Lower(TrimEnd(s)) == TrimEnd(Lower(s))
  {
    if s != [] {
      var last := |s| - 1;
      LowerAt(s, last);
      if IsSpace(s[last]) {
        LowerPrefix(s, last);
        LowerTrimEndCommute(s[..last]);
      }
    }
  }

  /** The two setters commute, so the order in which the schema applies
      `lowercase` and `trim` does not matter. */
  lemma LowerTrimCommute(s: string)
    ensures Lower(Trim(s)) == Trim(Lower(s))
  {
    LowerTrimStartCommute(s);
    LowerTrimEndCommute(TrimStart(s));
  }

  /** The setters always produce the normalized form. */
  lemma NormalizeIsNormalized(s: string)
    ensures IsNormalized(Normalize(s))
  {
    var t := Trim(s);
    TrimSpec(s);
    if t != [] {
      LowerAt(t, 0);
      LowerAt(t, |t| - 1);
    }
    forall i | 0 <= i < |t| ensures !('A' <= Lower(t)[i] <= 'Z') {
      LowerAt(t, i);
    }
  }

  /** A string in normalized form is left unchanged by the setters. */
  lemma NormalizedIsFixedPoint(s: string)
    requires IsNormalized(s)
    ensures Normalize(s) == s
  {
    TrimFixedPoint(s);
    LowerFixedPoint(s);
  }

  /** Assigning an already stored value again stores the same value. */
  lemma NormalizeIdempotent(s: string)
    ensures Normalize(Normalize(s)) == Normalize(s)
  {
    NormalizeIsNormalized(s);
    NormalizedIsFixedPoint(Normalize(s));
  }

  /** Strings that differ only in letter case lower-case to the same string. */
  lemma SameUpToCaseLower(x: string, y: string)
    requires SameUpToCase(x, y)
    ensures Lower(x) == Lower(y)
  {
    forall i | 0 <= i < |x| ensures Lower(x)[i] == Lower(y)[i] {
      LowerAt(x, i);
      LowerAt(y, i);
    }
  }

  /** Against a string without upper-case letters, lower-casing `x` gives
      that string exactly when `x` is a case variant of it. */
  lemma LowerMatchesUpToCase(x: string, e: string)
    requires forall i :: 0 <= i < |e| ==> !('A' <= e[i] <= 'Z')
    ensures Lower(x) == e <==> SameUpToCase(e, x)
  {
    if Lower(x) == e {
      forall i | 0 <= i < |e| ensures CaseVariant(e[i], x[i]) {
        LowerAt(x, i);
      }
    }
    if SameUpToCase(e, x) {
      forall i | 0 <= i < |e| ensures Lower(x)[i] == e[i] {
        LowerAt(x, i);
      }
    }
  }
}
