/**
 * The entry parser of the timetable page: four independent searches over one
 * free-form schedule string (subject code, batch list, teacher initials,
 * room), and the narrower subject-code matcher used as the subject-name key.
 */
module EntryParser {
  import opened Wrappers
  import opened Text
  import opened Patterns

  /** The fields read off one entry string; each may be missing (`null`). */
  datatype Details = Details(
    subjectCode: Option<string>,
    batches: Option<string>,
    teacher: Option<string>,
    classroom: Option<string>)

  /** `entry.match(re)[0]`: the text of the first match, or `None`. */
  function MatchedText(p: Pattern, entry: string): Option<string> {
    match FirstMatch(p, entry, 0)
    case Some(sp) => Some(entry[sp.start..sp.end])
    case None => None
  }

  /** The subject code without its type prefix, delimited by word boundaries. */
  function GetSubjectCode(entry: string): (r: Option<string>)
    ensures r.Some? ==> 6 <= |r.value| <= |entry|
    ensures r.Some? ==> IsDigit(r.value[0]) && IsDigit(r.value[1]) && r.value[2] == 'B'
  {
    MatchedText(BareCode, entry)
  }

  /**
   * The four searches. Subject code and batches are their whole match (the
   * capture group spans it); the teacher is the letters between the
   * parentheses; the room is its match with every white-space character
   * removed.
   */
  function ParseEntry(entry: string): (r: Details)
    ensures r.subjectCode.Some? ==> var c := r.subjectCode.value;
      8 <= |c| && (c[0] == 'L' || c[0] == 'T' || c[0] == 'P') && c[1] == '-' && IsDigit(c[2])
    ensures r.batches.Some? ==> var b := r.batches.value;
      5 <= |b| && (|b| - 5) % 6 == 0 && IsDigit(b[0]) && IsDigit(b[1]) && b[2] == 'A'
    ensures r.teacher.Some? ==> var t := r.teacher.value;
      2 <= |t| <= 4 && forall j :: 0 <= j < |t| ==> IsUpper(t[j])
    ensures r.classroom.Some? ==> NoWhitespace(r.classroom.value)
  {
    Details(
      MatchedText(PrefixedCode, entry),
      MatchedText(BatchList, entry),
      match FirstMatch(TeacherGroup, entry, 0)
      case Some(sp) => Some(entry[sp.start + 1..sp.end - 1])
      case None => None,
      match MatchedText(Room, entry)
      case Some(t) => StripRemovesWhitespace(t); Some(StripWhitespace(t))
      case None => None)
  }

  /** The subject-name lookup: no code, or a code the table lacks, gives no name. */
  function SubjectName(subjects: map<string, string>, entry: string): (r: Option<string>)
    ensures r.Some? <==> GetSubjectCode(entry).Some? && GetSubjectCode(entry).value in subjects
    ensures r.Some? ==> r.value == subjects[GetSubjectCode(entry).value]
  {
    match GetSubjectCode(entry)
    case Some(code) => if code in subjects then Some(subjects[code]) else None
    case None => None
  }

  // ---------------------------------------------------------------------------
  // What each field means
  // ---------------------------------------------------------------------------

  /**
   * The subject code is missing exactly when no type-prefixed code occurs;
   * otherwise it is the leftmost one, taken to the end of its digits, and it
   * is itself a type letter, a hyphen and a code body.
   */
  lemma SubjectCodeSpec(entry: string)
    ensures ParseEntry(entry).subjectCode.None? <==> forall i: nat, k: nat :: !IsMatch(PrefixedCode, entry, i, k)
    ensures ParseEntry(entry).subjectCode.Some? ==>
      var sp, c := FirstMatch(PrefixedCode, entry, 0).value, ParseEntry(entry).subjectCode.value;
      && LeftmostLongest(PrefixedCode, entry, sp)
      && c == entry[sp.start..sp.end]
      && (c[0] == 'L' || c[0] == 'T' || c[0] == 'P') && c[1] == '-' && IsCodeBody(c, 2, |c|)
  {
    FirstMatchLeftmostLongest(PrefixedCode, entry);
    if ParseEntry(entry).subjectCode.Some? {
      var sp := FirstMatch(PrefixedCode, entry, 0).value;
      CodeBodySlice(entry, sp.start, sp.start + 2, sp.end);
    }
  }

  /**
   * The subject-name key is missing exactly when no word-bounded code body
   * occurs; otherwise it is the leftmost one, kept verbatim, with a word
   * boundary on each side of it in the entry.
   */
  lemma SubjectKeySpec(entry: string)
    ensures GetSubjectCode(entry).None? <==> forall i: nat, k: nat :: !IsMatch(BareCode, entry, i, k)
    ensures GetSubjectCode(entry).Some? ==>
      var sp, c := FirstMatch(BareCode, entry, 0).value, GetSubjectCode(entry).value;
      && LeftmostLongest(BareCode, entry, sp)
      && c == entry[sp.start..sp.end]
      && WordBoundary(entry, sp.start) && WordBoundary(entry, sp.end)
      && IsCodeBody(c, 0, |c|)
  {
    FirstMatchLeftmostLongest(BareCode, entry);
    if GetSubjectCode(entry).Some? {
      var sp := FirstMatch(BareCode, entry, 0).value;
      CodeBodySlice(entry, sp.start, sp.start, sp.end);
    }
  }

  /**
   * The key is the subject code without its two-character type prefix, when
   * the code ends at a word boundary and no bare code occurs before it.
   */
  lemma SubjectKeyOfCode(entry: string)
    requires ParseEntry(entry).subjectCode.Some?
    requires WordBoundary(entry, FirstMatch(PrefixedCode, entry, 0).value.end)
    requires forall j: nat, k: nat :: j < FirstMatch(PrefixedCode, entry, 0).value.start + 2 ==> !IsMatch(BareCode, entry, j, k)
    ensures GetSubjectCode(entry) == Some(ParseEntry(entry).subjectCode.value[2..])
  {
    var sp := FirstMatch(PrefixedCode, entry, 0).value;
    FirstMatchLeftmostLongest(PrefixedCode, entry);
    PrefixedCodeHasBareCode(entry, sp.start, sp.end);
    MatchAtComplete(BareCode, entry, sp.start + 2, sp.end);
    FirstMatchLeftmostLongest(BareCode, entry);
    var bp := FirstMatch(BareCode, entry, 0).value;
    assert bp.start == sp.start + 2;
    assert entry[sp.start..sp.end][2..] == entry[sp.start + 2..sp.end];
  }

  /**
   * The batches are missing exactly when no batch token occurs; otherwise
   * they are the leftmost run of comma-joined tokens, as long as it goes,
   * kept verbatim, and that text is itself a well-formed batch list.
   */
  lemma BatchesSpec(entry: string)
    ensures ParseEntry(entry).batches.None? <==> forall i: nat, k: nat :: !IsMatch(BatchList, entry, i, k)
    ensures ParseEntry(entry).batches.Some? ==>
      var sp, b := FirstMatch(BatchList, entry, 0).value, ParseEntry(entry).batches.value;
      && LeftmostLongest(BatchList, entry, sp)
      && b == entry[sp.start..sp.end]
      && IsBatchList(b, 0, |b|)
  {
    FirstMatchLeftmostLongest(BatchList, entry);
    if ParseEntry(entry).batches.Some? {
      var sp := FirstMatch(BatchList, entry, 0).value;
      BatchListSlice(entry, sp.start, sp.start, sp.end);
    }
  }

  /**
   * The teacher is missing exactly when no parenthesised group of two to
   * four upper-case letters occurs; otherwise it is the letters of the
   * leftmost such group.
   */
  lemma TeacherSpec(entry: string)
    ensures ParseEntry(entry).teacher.None? <==> forall i: nat, k: nat :: !IsMatch(TeacherGroup, entry, i, k)
    ensures ParseEntry(entry).teacher.Some? ==>
      var sp, t := FirstMatch(TeacherGroup, entry, 0).value, ParseEntry(entry).teacher.value;
      && LeftmostLongest(TeacherGroup, entry, sp)
      && 2 <= |t| <= 4 && (forall j :: 0 <= j < |t| ==> IsUpper(t[j]))
      && entry[sp.start..sp.end] == "(" + t + ")"
  {
    FirstMatchLeftmostLongest(TeacherGroup, entry);
    if ParseEntry(entry).teacher.Some? {
      var sp := FirstMatch(TeacherGroup, entry, 0).value;
      var t := ParseEntry(entry).teacher.value;
      assert FirstMatch(TeacherGroup, entry, 0) == Some(sp);
      assert t == entry[sp.start + 1..sp.end - 1];
      assert IsTeacherGroup(entry, sp.start, sp.end);
      forall j | 0 <= j < |t|
        ensures IsUpper(t[j])
      {
        assert t[j] == entry[sp.start + 1 + j];
      }
      var w, v := entry[sp.start..sp.end], "(" + t + ")";
      assert |w| == |v|;
      forall j | 0 <= j < |w|
        ensures w[j] == v[j]
      {
        if 0 < j < |w| - 1 {
          assert v[j] == t[j - 1] == entry[sp.start + j];
        }
      }
      assert w == v;
    }
  }

  /**
   * The classroom is missing exactly when no room token occurs; otherwise it
   * is the leftmost room token with white space removed. It contains no white
   * space, and apart from a space separator it is the matched text verbatim
   * (letter case and a `-` separator kept).
   */
  lemma ClassroomSpec(entry: string)
    ensures ParseEntry(entry).classroom.None? <==> forall i: nat, k: nat :: !IsMatch(Room, entry, i, k)
    ensures ParseEntry(entry).classroom.Some? ==>
      var sp, c := FirstMatch(Room, entry, 0).value, ParseEntry(entry).classroom.value;
      && LeftmostLongest(Room, entry, sp)
      && NoWhitespace(c)
      && (|| c == entry[sp.start..sp.end]
          || exists p :: sp.start < p < sp.end && entry[p] == ' ' && c == entry[sp.start..p] + entry[p + 1..sp.end])
  {
    FirstMatchLeftmostLongest(Room, entry);
    if ParseEntry(entry).classroom.Some? {
      var sp := FirstMatch(Room, entry, 0).value;
      RoomTextSpaces(entry, sp.start, sp.end);
      StripRemovesWhitespace(entry[sp.start..sp.end]);
    }
  }

  /** A character a room keyword can fold to an upper-case letter from is no white space. */
  lemma KeywordLettersNotWhitespace(s: string, i: nat, w: string)
    requires CaseInsensitiveAt(s, i, w) && forall j :: 0 <= j < |w| ==> IsUpper(w[j])
    ensures NoWhitespace(s[i..i + |w|])
    decreases w
  {
    if w != [] {
      assert IsUpper(w[0]);
      KeywordLettersNotWhitespace(s, i + 1, w[1..]);
      assert s[i..i + |w|] == [s[i]] + s[i + 1..i + 1 + |w[1..]|];
    }
  }

  lemma RoomKeywordNoWhitespace(s: string, i: nat, p: nat)
    requires IsRoomKeyword(s, i, p)
    ensures NoWhitespace(s[i..p])
  {
    if p == i + 3 {
      KeywordLettersNotWhitespace(s, i, "LAB");
    } else if CaseInsensitiveAt(s, i, "LT") {
      KeywordLettersNotWhitespace(s, i, "LT");
    } else if CaseInsensitiveAt(s, i, "CR") {
      KeywordLettersNotWhitespace(s, i, "CR");
    } else if CaseInsensitiveAt(s, i, "TR") {
      KeywordLettersNotWhitespace(s, i, "TR");
    } else {
      KeywordLettersNotWhitespace(s, i, "CL");
    }
  }

  /** The digits and the `_digits` suffix of a room token hold no white space. */
  lemma RoomNumberNoWhitespace(s: string, i: nat, p: nat, q: nat, e: nat, k: nat)
    requires RoomParts(s, i, p, q, e, k)
    ensures NoWhitespace(s[q..k])
  {
    forall j | 0 <= j < k - q
      ensures !IsWhitespace(s[q..k][j])
    {
      assert s[q..k][j] == s[q + j];
      if q + j != e {
        assert IsDigit(s[q + j]);
      }
    }
  }

  /** Removing white space from a room token removes at most its space separator. */
  lemma RoomTextSpaces(s: string, i: nat, k: nat)
    requires IsRoom(s, i, k)
    ensures var c := StripWhitespace(s[i..k]);
      || c == s[i..k]
      || exists p :: i < p < k && s[p] == ' ' && c == s[i..p] + s[p + 1..k]
  {
    var p: nat, q: nat, e: nat :| RoomParts(s, i, p, q, e, k);
    RoomKeywordNoWhitespace(s, i, p);
    RoomNumberNoWhitespace(s, i, p, q, e, k);
    var sep := s[p..q];
    assert s[i..k] == s[i..p] + sep + s[q..k];
    if q == p + 1 && s[p] == ' ' {
      assert sep == [' '];
    } else {
      assert NoWhitespace(sep);
    }
    StripAroundSeparator(s[i..p], sep, s[q..k]);
  }

  /**
   * A type-prefixed code that ends at a word boundary also carries the bare
   * code that the subject-name lookup uses, two characters further on.
   */
  lemma PrefixedCodeHasBareCode(s: string, i: nat, k: nat)
    requires IsMatch(PrefixedCode, s, i, k) && WordBoundary(s, k)
    ensures IsMatch(BareCode, s, i + 2, k)
  {
    assert !IsWordChar(s[i + 1]) && IsWordChar(s[i + 2]);
  }
}
