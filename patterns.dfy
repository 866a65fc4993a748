/**
 * The five fixed regular expressions of the timetable page, each with
 *  - an operational matcher (`MatchAt`) that follows the path JavaScript's
 *    backtracking engine takes at one start position (greedy quantifiers,
 *    optional parts tried first, alternatives in source order), and
 *  - a declarative reading (`IsMatch`) of the pattern's language, with the
 *    anchors `\b` stated as conditions on the surrounding text,
 * proved to agree, and one search (`FirstMatch`) that tries start positions
 * left to right as `String.prototype.match` does, proved to return the
 * leftmost match and, at that position, the longest one.
 */
module Patterns {
  import opened Wrappers
  import opened Text

  /** The five patterns of app/page.tsx, described in words. */
  datatype Pattern =
      /** a type letter `L`, `T` or `P`, a hyphen, then a code body */
    | PrefixedCode
      /** a code body with a word boundary on both sides */
    | BareCode
      /** a batch token, then any number of comma + batch token */
    | BatchList
      /** `(`, two to four upper-case letters, `)` */
    | TeacherGroup
      /** word boundary, room keyword (any case), optional `-` or space,
          digits, optional `_` and digits, word boundary */
    | Room

  /** The half-open range `[start, end)` of a match in the searched string. */
  datatype Span = Span(start: nat, end: nat)

  /** The fewest characters any match of the pattern can span. */
  function MinLength(p: Pattern): nat {
    match p
    case PrefixedCode => 8
    case BareCode => 6
    case BatchList => 5
    case TeacherGroup => 4
    case Room => 3
  }

  // ---------------------------------------------------------------------------
  // Operational matchers: the engine's path at one start position
  // ---------------------------------------------------------------------------

  /**
   * A code body at `i`: two digits, `B`, digits, upper-case letters, digits.
   * Digits and upper-case letters are disjoint, so each greedy run can only
   * succeed at its full length; the last run, with nothing after it, keeps
   * its full length too.
   */
  function CodeBodyAt(s: string, i: nat): (r: Option<nat>)
    ensures r.Some? ==> i + 6 <= r.value <= |s|
  {
    if i + 3 <= |s| && IsDigit(s[i]) && IsDigit(s[i + 1]) && s[i + 2] == 'B' then
      var m := RunEnd(s, i + 3, Digit);
      var n := RunEnd(s, m, Upper);
      var k := RunEnd(s, n, Digit);
      if i + 3 < m < n < k then Some(k) else None
    else
      None
  }

  function PrefixedCodeAt(s: string, i: nat): (r: Option<nat>)
    ensures r.Some? ==> i + 8 <= r.value <= |s|
  {
    if i + 2 <= |s| && (s[i] == 'L' || s[i] == 'T' || s[i] == 'P') && s[i + 1] == '-' then
      CodeBodyAt(s, i + 2)
    else
      None
  }

  /**
   * Only the greedy end of the last digit run can be followed by `\b`: any
   * shorter end has a digit on both sides.
   */
  function BareCodeAt(s: string, i: nat): (r: Option<nat>)
    ensures r.Some? ==> i + 6 <= r.value <= |s|
  {
    if !WordBoundary(s, i) then None
    else
      match CodeBodyAt(s, i)
      case Some(k) => if WordBoundary(s, k) then Some(k) else None
      case None => None
  }

  /** Two digits, `A`, two digits, starting at `i`. */
  predicate BatchToken(s: string, i: nat) {
    i + 5 <= |s| && IsDigit(s[i]) && IsDigit(s[i + 1]) && s[i + 2] == 'A'
    && IsDigit(s[i + 3]) && IsDigit(s[i + 4])
  }

  /** The greedy `(?:,token)*` from `e`: as many comma + token groups as follow. */
  function BatchRunEnd(s: string, e: nat): (r: nat)
    requires e <= |s|
    ensures e <= r <= |s| && (r - e) % 6 == 0
    ensures !(r < |s| && s[r] == ',' && BatchToken(s, r + 1))
    decreases |s| - e
  {
    if e < |s| && s[e] == ',' && BatchToken(s, e + 1) then BatchRunEnd(s, e + 6) else e
  }

  function BatchAt(s: string, i: nat): (r: Option<nat>)
    ensures r.Some? ==> i + 5 <= r.value <= |s|
  {
    if BatchToken(s, i) then Some(BatchRunEnd(s, i + 5)) else None
  }

  /**
   * `(` then the greedy `{2,4}` of upper-case letters then `)`. Giving back a
   * letter leaves a letter, never `)`, in front of the closing parenthesis,
   * so only the greedy count can succeed.
   */
  function TeacherAt(s: string, i: nat): (r: Option<nat>)
    ensures r.Some? ==> i + 4 <= r.value <= |s|
  {
    if i < |s| && s[i] == '(' then
      var run := RunEnd(s, i + 1, Upper) - (i + 1);
      var n := if run < 4 then run else 4;
      if 2 <= n && i + 1 + n < |s| && s[i + 1 + n] == ')' then Some(i + 2 + n) else None
    else
      None
  }

  /** `s[i..]` starts with the upper-case word `w`, compared under the `i` flag. */
  predicate CaseInsensitiveAt(s: string, i: nat, w: string)
    decreases w
  {
    i + |w| <= |s| && (w == [] || (FoldCase(s[i]) == w[0] && CaseInsensitiveAt(s, i + 1, w[1..])))
  }

  /** The room keyword alternatives, tried in source order; the end of the first that fits. */
  function RoomKeywordEnd(s: string, i: nat): (r: Option<nat>)
    ensures r.Some? ==> i + 2 <= r.value <= i + 3 && r.value <= |s|
  {
    if CaseInsensitiveAt(s, i, "LT") then Some(i + 2)
    else if CaseInsensitiveAt(s, i, "CR") then Some(i + 2)
    else if CaseInsensitiveAt(s, i, "TR") then Some(i + 2)
    else if CaseInsensitiveAt(s, i, "LAB") then Some(i + 3)
    else if CaseInsensitiveAt(s, i, "CL") then Some(i + 2)
    else None
  }

  /**
   * The room pattern at `i`. The optional separator is taken when present
   * (leaving it out would put `-` or a space where a digit must be); the
   * optional `_digits` suffix is taken when present, and if `\b` then fails
   * no shorter choice can satisfy it either.
   */
  function RoomAt(s: string, i: nat): (r: Option<nat>)
    ensures r.Some? ==> i + 3 <= r.value <= |s|
  {
    if !WordBoundary(s, i) then None
    else
      match RoomKeywordEnd(s, i)
      case None => None
      case Some(p) =>
        var q := if p < |s| && (s[p] == '-' || s[p] == ' ') then p + 1 else p;
        var e := RunEnd(s, q, Digit);
        if e == q then None
        else if e + 1 < |s| && s[e] == '_' && IsDigit(s[e + 1]) then
          var k := RunEnd(s, e + 1, Digit);
          if WordBoundary(s, k) then Some(k) else None
        else if WordBoundary(s, e) then Some(e)
        else None
  }

  /** The end of the match the engine finds when it starts at `i`, if any. */
  function MatchAt(p: Pattern, s: string, i: nat): (r: Option<nat>)
    ensures r.Some? ==> i + MinLength(p) <= r.value <= |s|
  {
    match p
    case PrefixedCode => PrefixedCodeAt(s, i)
    case BareCode => BareCodeAt(s, i)
    case BatchList => BatchAt(s, i)
    case TeacherGroup => TeacherAt(s, i)
    case Room => RoomAt(s, i)
  }

  /**
   * `String.prototype.match` without the `g` flag: start positions are tried
   * from `from` upwards and the first one where the pattern matches wins.
   */
  function FirstMatch(p: Pattern, s: string, from: nat): (r: Option<Span>)
    requires from <= |s| + 1
    ensures r.Some? ==> from <= r.value.start && r.value.start + MinLength(p) <= r.value.end <= |s|
    ensures r.Some? ==> MatchAt(p, s, r.value.start) == Some(r.value.end)
    ensures forall j :: from <= j <= |s| && (r.None? || j < r.value.start) ==> MatchAt(p, s, j).None?
    decreases |s| + 1 - from
  {
    if from > |s| then None
    else
      match MatchAt(p, s, from)
      case Some(k) => Some(Span(from, k))
      case None => FirstMatch(p, s, from + 1)
  }

  // ---------------------------------------------------------------------------
  // Declarative reading of each pattern's language
  // ---------------------------------------------------------------------------

  /** `s[i..k]` is a code body, split at some `m` and `n` into its parts. */
  ghost predicate IsCodeBody(s: string, i: nat, k: nat) {
    && k <= |s| && i + 3 <= k
    && IsDigit(s[i]) && IsDigit(s[i + 1]) && s[i + 2] == 'B'
    && exists m: nat, n: nat ::
         && i + 3 < m < n < k
         && AllIn(s, i + 3, m, Digit) && AllIn(s, m, n, Upper) && AllIn(s, n, k, Digit)
  }

  /** `s[i..k]` is a comma-separated list of batch tokens: token | token `,` list. */
  ghost predicate IsBatchList(s: string, i: nat, k: nat)
    decreases k - i
  {
    && BatchToken(s, i) && k <= |s|
    && (k == i + 5 || (i + 5 < k && s[i + 5] == ',' && IsBatchList(s, i + 6, k)))
  }

  /** `s[i..k]` is `(`, two to four upper-case letters, `)`. */
  ghost predicate IsTeacherGroup(s: string, i: nat, k: nat) {
    && i + 4 <= k <= i + 6 && k <= |s|
    && s[i] == '(' && AllIn(s, i + 1, k - 1, Upper) && s[k - 1] == ')'
  }

  /** `s[i..p]` is one of the room keywords, in any letter case. */
  ghost predicate IsRoomKeyword(s: string, i: nat, p: nat) {
    || (p == i + 2 && (CaseInsensitiveAt(s, i, "LT") || CaseInsensitiveAt(s, i, "CR")
                       || CaseInsensitiveAt(s, i, "TR") || CaseInsensitiveAt(s, i, "CL")))
    || (p == i + 3 && CaseInsensitiveAt(s, i, "LAB"))
  }

  /**
   * `s[i..k]` is keyword (`s[i..p]`), optional separator (`s[p..q]`), digits
   * (`s[q..e]`) and an optional `_digits` suffix (`s[e..k]`).
   */
  ghost predicate RoomParts(s: string, i: nat, p: nat, q: nat, e: nat, k: nat) {
    && i < p <= q < e <= k <= |s|
    && IsRoomKeyword(s, i, p)
    && (q == p || (q == p + 1 && (s[p] == '-' || s[p] == ' ')))
    && AllIn(s, q, e, Digit)
    && (k == e || (e + 1 < k && s[e] == '_' && AllIn(s, e + 1, k, Digit)))
  }

  /** A room token with a word boundary on both ends. */
  ghost predicate IsRoom(s: string, i: nat, k: nat) {
    && k <= |s| && WordBoundary(s, i) && WordBoundary(s, k)
    && exists p: nat, q: nat, e: nat :: RoomParts(s, i, p, q, e, k)
  }

  /** `s[i..k]` is a match of `p` (anchors included). */
  ghost predicate IsMatch(p: Pattern, s: string, i: nat, k: nat) {
    match p
    case PrefixedCode =>
      i + 2 <= |s| && (s[i] == 'L' || s[i] == 'T' || s[i] == 'P') && s[i + 1] == '-'
      && IsCodeBody(s, i + 2, k)
    case BareCode => WordBoundary(s, i) && IsCodeBody(s, i, k) && WordBoundary(s, k)
    case BatchList => IsBatchList(s, i, k)
    case TeacherGroup => IsTeacherGroup(s, i, k)
    case Room => IsRoom(s, i, k)
  }

  // ---------------------------------------------------------------------------
  // The two readings agree
  // ---------------------------------------------------------------------------

  lemma CodeBodySound(s: string, i: nat)
    requires CodeBodyAt(s, i).Some?
    ensures IsCodeBody(s, i, CodeBodyAt(s, i).value)
  {
    var m := RunEnd(s, i + 3, Digit);
    var n := RunEnd(s, m, Upper);
    var k := RunEnd(s, n, Digit);
    assert i + 3 < m < n < k;
    assert AllIn(s, i + 3, m, Digit) && AllIn(s, m, n, Upper) && AllIn(s, n, k, Digit);
  }

  /** Every code body at `i` ends within the greedy one. */
  lemma CodeBodyComplete(s: string, i: nat, k: nat)
    requires IsCodeBody(s, i, k)
    ensures CodeBodyAt(s, i).Some? && k <= CodeBodyAt(s, i).value
  {
    var m: nat, n: nat :| i + 3 < m < n < k
      && AllIn(s, i + 3, m, Digit) && AllIn(s, m, n, Upper) && AllIn(s, n, k, Digit);
    assert !InClass(s[m], Digit) by { assert InClass(s[m], Upper); }
    RunEndExact(s, i + 3, m, Digit);
    assert !InClass(s[n], Upper) by { assert InClass(s[n], Digit); }
    RunEndExact(s, m, n, Upper);
    RunEndExact(s, n, k, Digit);
  }

  lemma BatchRunSound(s: string, i: nat)
    requires BatchToken(s, i)
    ensures IsBatchList(s, i, BatchRunEnd(s, i + 5))
    decreases |s| - i
  {
    if BatchRunEnd(s, i + 5) != i + 5 {
      BatchRunSound(s, i + 6);
    }
  }

  /** Every batch list at `i` ends within the greedy one. */
  lemma {:induction false} BatchRunComplete(s: string, i: nat, k: nat)
    requires IsBatchList(s, i, k)
    ensures k <= BatchRunEnd(s, i + 5)
    decreases k - i
  {
    if k != i + 5 {
      BatchRunComplete(s, i + 6, k);
    }
  }

  /** The teacher pattern has at most one match at each position, the one the engine finds. */
  lemma TeacherExact(s: string, i: nat, k: nat)
    ensures IsTeacherGroup(s, i, k) <==> TeacherAt(s, i) == Some(k)
  {
    if IsTeacherGroup(s, i, k) {
      RunEndExact(s, i + 1, k - 1, Upper);
    }
  }

  /** The keyword alternatives exclude one another, so the first that fits is the only one. */
  lemma RoomKeywordUnique(s: string, i: nat, p: nat)
    requires IsRoomKeyword(s, i, p)
    ensures RoomKeywordEnd(s, i) == Some(p)
  {
  }

  lemma RoomSound(s: string, i: nat)
    requires RoomAt(s, i).Some?
    ensures IsRoom(s, i, RoomAt(s, i).value)
  {
    var k := RoomAt(s, i).value;
    var p := RoomKeywordEnd(s, i).value;
    var q := if p < |s| && (s[p] == '-' || s[p] == ' ') then p + 1 else p;
    var e := RunEnd(s, q, Digit);
    assert IsRoomKeyword(s, i, p);
    if e + 1 < |s| && s[e] == '_' && IsDigit(s[e + 1]) {
      assert AllIn(s, e + 1, k, Digit);
    }
    assert RoomParts(s, i, p, q, e, k);
  }

  /** Given the parts of a room token, each split point is the one the engine chooses. */
  lemma RoomPartsForced(s: string, i: nat, p: nat, q: nat, e: nat, k: nat)
    requires RoomParts(s, i, p, q, e, k) && WordBoundary(s, k)
    ensures RoomKeywordEnd(s, i) == Some(p)
    ensures q == if p < |s| && (s[p] == '-' || s[p] == ' ') then p + 1 else p
    ensures e == RunEnd(s, q, Digit)
    ensures k != e ==> k == RunEnd(s, e + 1, Digit)
  {
    RoomKeywordUnique(s, i, p);
    assert InClass(s[q], Digit);
    RunEndExact(s, q, e, Digit);
    if k != e {
      RunEndExact(s, e + 1, k, Digit);
    }
  }

  lemma RoomComplete(s: string, i: nat, k: nat)
    requires IsRoom(s, i, k)
    ensures RoomAt(s, i) == Some(k)
  {
    var p: nat, q: nat, e: nat :| RoomParts(s, i, p, q, e, k);
    RoomPartsForced(s, i, p, q, e, k);
  }

  /** The room pattern has at most one match at each position, the one the engine finds. */
  lemma RoomExact(s: string, i: nat, k: nat)
    ensures IsRoom(s, i, k) <==> RoomAt(s, i) == Some(k)
  {
    if RoomAt(s, i) == Some(k) {
      RoomSound(s, i);
    }
    if IsRoom(s, i, k) {
      RoomComplete(s, i, k);
    }
  }

  lemma MatchAtSound(p: Pattern, s: string, i: nat)
    requires MatchAt(p, s, i).Some?
    ensures IsMatch(p, s, i, MatchAt(p, s, i).value)
  {
    var k := MatchAt(p, s, i).value;
    match p
    case PrefixedCode => CodeBodySound(s, i + 2);
    case BareCode => CodeBodySound(s, i);
    case BatchList => BatchRunSound(s, i);
    case TeacherGroup => TeacherExact(s, i, k);
    case Room => RoomExact(s, i, k);
  }

  /**
   * Every match at `i` ends within the one the engine finds there; for the
   * anchored and bounded patterns it is that very match.
   */
  lemma MatchAtComplete(p: Pattern, s: string, i: nat, k: nat)
    requires IsMatch(p, s, i, k)
    ensures MatchAt(p, s, i).Some? && k <= MatchAt(p, s, i).value
    ensures p in {BareCode, TeacherGroup, Room} ==> MatchAt(p, s, i) == Some(k)
  {
    match p
    case PrefixedCode => CodeBodyComplete(s, i + 2, k);
    case BareCode =>
      CodeBodyComplete(s, i, k);
    case BatchList => BatchRunComplete(s, i, k);
    case TeacherGroup => TeacherExact(s, i, k);
    case Room => RoomExact(s, i, k);
  }

  // ---------------------------------------------------------------------------
  // The search finds the leftmost, longest match
  // ---------------------------------------------------------------------------

  /**
   * `sp` is a match, no match starts further left, and no match at the same
   * start is longer.
   */
  ghost predicate LeftmostLongest(p: Pattern, s: string, sp: Span) {
    && IsMatch(p, s, sp.start, sp.end)
    && (forall j: nat, k: nat :: j < sp.start ==> !IsMatch(p, s, j, k))
    && (forall k: nat :: IsMatch(p, s, sp.start, k) ==> k <= sp.end)
  }

  /**
   * The search over the whole string fails exactly when the pattern occurs
   * nowhere, and otherwise returns the leftmost match, longest at its start.
   */
  lemma FirstMatchLeftmostLongest(p: Pattern, s: string)
    ensures FirstMatch(p, s, 0).None? <==> forall j: nat, k: nat :: !IsMatch(p, s, j, k)
    ensures FirstMatch(p, s, 0).Some? ==> LeftmostLongest(p, s, FirstMatch(p, s, 0).value)
  {
    var r := FirstMatch(p, s, 0);
    forall j: nat, k: nat | r.None? || j < r.value.start
      ensures !IsMatch(p, s, j, k)
    {
      if IsMatch(p, s, j, k) {
        MatchAtComplete(p, s, j, k);
      }
    }
    if r.Some? {
      MatchAtSound(p, s, r.value.start);
      forall k: nat | IsMatch(p, s, r.value.start, k)
        ensures k <= r.value.end
      {
        MatchAtComplete(p, s, r.value.start, k);
      }
    }
  }

  // ---------------------------------------------------------------------------
  // Where a match can start, and what a match depends on
  // ---------------------------------------------------------------------------

  /**
   * A cheap necessary condition for a match of `p` to start at `j`: the
   * first character or two that every match begins with.
   */
  predicate MayStartAt(p: Pattern, s: string, j: nat) {
    match p
    case PrefixedCode => j + 1 < |s| && (s[j] == 'L' || s[j] == 'T' || s[j] == 'P') && s[j + 1] == '-'
    case BareCode => WordBoundary(s, j) && j < |s| && IsDigit(s[j])
    case BatchList => BatchToken(s, j)
    case TeacherGroup => j < |s| && s[j] == '('
    case Room => WordBoundary(s, j) && RoomKeywordEnd(s, j).Some?
  }

  lemma MayStartNecessary(p: Pattern, s: string, j: nat)
    ensures MatchAt(p, s, j).Some? ==> MayStartAt(p, s, j)
  {
  }

  /**
   * The search returns the match at `i` when no earlier position can start
   * one: the way to evaluate it on a given string.
   */
  lemma FirstMatchAt(p: Pattern, s: string, i: nat)
    requires forall j :: 0 <= j < i ==> !MayStartAt(p, s, j)
    requires MatchAt(p, s, i).Some?
    ensures FirstMatch(p, s, 0) == Some(Span(i, MatchAt(p, s, i).value))
  {
    forall j | 0 <= j < i
      ensures MatchAt(p, s, j).None?
    {
      MayStartNecessary(p, s, j);
    }
  }

  /** The search fails when no position can start a match. */
  lemma FirstMatchNone(p: Pattern, s: string)
    requires forall j :: 0 <= j <= |s| ==> !MayStartAt(p, s, j)
    ensures FirstMatch(p, s, 0).None?
  {
    forall j | 0 <= j <= |s|
      ensures MatchAt(p, s, j).None?
    {
      MayStartNecessary(p, s, j);
    }
  }

  /** A code body read inside a slice of the string that contains it. */
  lemma CodeBodySlice(s: string, lo: nat, i: nat, k: nat)
    requires lo <= i && IsCodeBody(s, i, k)
    ensures IsCodeBody(s[lo..k], i - lo, k - lo)
  {
    var m: nat, n: nat :| i + 3 < m < n < k
      && AllIn(s, i + 3, m, Digit) && AllIn(s, m, n, Upper) && AllIn(s, n, k, Digit);
    AllInSlice(s, lo, k, i + 3, m, Digit);
    AllInSlice(s, lo, k, m, n, Upper);
    AllInSlice(s, lo, k, n, k, Digit);
    var t := s[lo..k];
    assert t[i - lo] == s[i] && t[i - lo + 1] == s[i + 1] && t[i - lo + 2] == s[i + 2];
    assert i - lo + 3 < m - lo < n - lo < k - lo
      && AllIn(t, i - lo + 3, m - lo, Digit) && AllIn(t, m - lo, n - lo, Upper) && AllIn(t, n - lo, k - lo, Digit);
  }

  /** A batch list read inside a slice of the string that contains it. */
  lemma {:induction false} BatchListSlice(s: string, lo: nat, i: nat, k: nat)
    requires lo <= i && IsBatchList(s, i, k)
    ensures IsBatchList(s[lo..k], i - lo, k - lo)
    decreases k - i
  {
    var t := s[lo..k];
    assert t[i - lo] == s[i] && t[i - lo + 1] == s[i + 1] && t[i - lo + 2] == s[i + 2];
    assert t[i - lo + 3] == s[i + 3] && t[i - lo + 4] == s[i + 4];
    if k != i + 5 {
      BatchListSlice(s, lo, i + 6, k);
      assert t[i - lo + 5] == s[i + 5];
    }
  }
}
