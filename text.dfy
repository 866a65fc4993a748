/**
 * Character classes and small string utilities with the meaning JavaScript's
 * regular expressions give them (no `u` flag): `\d`, `[A-Z]`, `\w` / `\b`,
 * the ASCII case folding of the `i` flag, and `\s` as used by `replace(/\s+/g, '')`.
 */
module Text {

  /** `\d`: the ten ASCII digits only. */
  predicate IsDigit(c: char) {
    '0' <= c <= '9'
  }

  /** `[A-Z]` without the `i` flag. */
  predicate IsUpper(c: char) {
    'A' <= c <= 'Z'
  }

  predicate IsLower(c: char) {
    'a' <= c <= 'z'
  }

  /** `\w`, the word characters that `\b` looks at: `[A-Za-z0-9_]`. */
  predicate IsWordChar(c: char) {
    IsDigit(c) || IsUpper(c) || IsLower(c) || c == '_'
  }

  /**
   * `\b` at position `k` of `s` (the gap before `s[k]`): exactly one of the
   * characters on either side of the gap is a word character; outside the
   * string counts as a non-word character.
   */
  predicate WordBoundary(s: string, k: nat) {
    (0 < k <= |s| && IsWordChar(s[k - 1])) != (k < |s| && IsWordChar(s[k]))
  }

  /**
   * The canonical form the `i` flag compares characters by. Without the `u`
   * flag a non-ASCII character never folds onto an ASCII letter, so for the
   * ASCII keywords matched here only `a`..`z` need mapping.
   */
  function FoldCase(c: char): (u: char)
    ensures IsLower(c) ==> IsUpper(u)
    ensures !IsLower(c) ==> u == c
  {
    if IsLower(c) then (c as int - 32) as char else c
  }

  /** `\s`: the white space and line terminator characters of ECMAScript. */
  predicate IsWhitespace(c: char) {
    || c == '\t' || c == '\n' || c == '\U{B}' || c == '\U{C}' || c == '\r' || c == ' '
    || c == '\U{A0}' || c == '\U{1680}' || ('\U{2000}' <= c <= '\U{200A}')
    || c == '\U{2028}' || c == '\U{2029}' || c == '\U{202F}' || c == '\U{205F}'
    || c == '\U{3000}' || c == '\U{FEFF}'
  }

  predicate NoWhitespace(t: string) {
    forall j :: 0 <= j < |t| ==> !IsWhitespace(t[j])
  }

  /**
   * `t.replace(/\s+/g, '')`: every white-space character removed, the others
   * kept in order.
   */
  function StripWhitespace(t: string): (r: string)
    ensures |r| <= |t|
  {
    if t == [] then []
    else (if IsWhitespace(t[0]) then [] else [t[0]]) + StripWhitespace(t[1..])
  }

  /** Nothing white is left after stripping. */
  lemma {:induction false} StripRemovesWhitespace(t: string)
    ensures NoWhitespace(StripWhitespace(t))
  {
    if t != [] {
      StripRemovesWhitespace(t[1..]);
    }
  }

  /** Text without white space is left as it is. */
  lemma {:induction false} StripKeepsClean(t: string)
    requires NoWhitespace(t)
    ensures StripWhitespace(t) == t
  {
    if t != [] {
      StripKeepsClean(t[1..]);
    }
  }

  /** Removing white space works piecewise, so it can be computed part by part. */
  lemma {:induction false} StripConcat(a: string, b: string)
    ensures StripWhitespace(a + b) == StripWhitespace(a) + StripWhitespace(b)
  {
    if a == [] {
      assert a + b == b;
    } else {
      var head := if IsWhitespace(a[0]) then [] else [a[0]];
      assert (a + b)[0] == a[0];
      assert (a + b)[1..] == a[1..] + b;
      StripConcat(a[1..], b);
      calc {
        StripWhitespace(a + b);
        head + StripWhitespace(a[1..] + b);
        head + (StripWhitespace(a[1..]) + StripWhitespace(b));
        (head + StripWhitespace(a[1..])) + StripWhitespace(b);
      }
    }
  }

  /** Removing white space around a one-character separator between two clean parts. */
  lemma StripAroundSeparator(a: string, sep: string, b: string)
    requires NoWhitespace(a) && NoWhitespace(b)
    requires sep == [' '] || NoWhitespace(sep)
    ensures StripWhitespace(a + sep + b) == if sep == [' '] then a + b else a + sep + b
  {
    if sep == [' '] {
      StripAroundSpace(a, b);
    } else {
      StripConcat(a + sep, b);
      StripConcat(a, sep);
      StripKeepsClean(a);
      StripKeepsClean(b);
      StripKeepsClean(sep);
    }
  }

  lemma StripAroundSpace(a: string, b: string)
    requires NoWhitespace(a) && NoWhitespace(b)
    ensures StripWhitespace(a + [' '] + b) == a + b
  {
    StripConcat(a + [' '], b);
    StripConcat(a, [' ']);
    assert StripWhitespace([' ']) == [];
    StripKeepsClean(a);
    StripKeepsClean(b);
  }

  /** The two character classes the code patterns are built from. */
  datatype Class = Digit | Upper

  predicate InClass(c: char, cls: Class) {
    match cls
    case Digit => IsDigit(c)
    case Upper => IsUpper(c)
  }

  /** Every character of `s[a..b]` is in `cls` (and the slice exists). */
  predicate AllIn(s: string, a: nat, b: nat, cls: Class) {
    a <= b <= |s| && forall j :: a <= j < b ==> InClass(s[j], cls)
  }

  /**
   * What a greedy `cls*` consumes from position `a`: the end of the longest
   * run of `cls` characters starting there.
   */
  function RunEnd(s: string, a: nat, cls: Class): (e: nat)
    requires a <= |s|
    ensures AllIn(s, a, e, cls)
    ensures e == |s| || !InClass(s[e], cls)
    decreases |s| - a
  {
    if a < |s| && InClass(s[a], cls) then RunEnd(s, a + 1, cls) else a
  }

  /**
   * A run that stops at a character outside the class is exactly the greedy
   * run, and every run inside it ends no later than the greedy run does.
   */
  lemma RunEndExact(s: string, a: nat, b: nat, cls: Class)
    requires AllIn(s, a, b, cls)
    ensures b <= RunEnd(s, a, cls)
    ensures b < |s| && !InClass(s[b], cls) ==> RunEnd(s, a, cls) == b
  {
  }

  /** A run of one class keeps its meaning inside any slice that contains it. */
  lemma AllInSlice(s: string, lo: nat, hi: nat, a: nat, b: nat, cls: Class)
    requires lo <= a && b <= hi <= |s| && AllIn(s, a, b, cls)
    ensures AllIn(s[lo..hi], a - lo, b - lo, cls)
  {
    forall j | a - lo <= j < b - lo
      ensures InClass(s[lo..hi][j], cls)
    {
      assert s[lo..hi][j] == s[j + lo];
    }
  }
}
