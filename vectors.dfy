/**
 * The entry strings of the shipped timetable, and a few edge cases, with the
 * fields the model gives for each of them proved by lemmas. Every fact
 * about a literal string is proved in a lemma of its own, so that each proof
 * stays small.
 */
module Vectors {
  import opened Wrappers
  import opened Text
  import opened Patterns
  import opened EntryParser

  // ---------------------------------------------------------------------------
  // Evaluation steps, each proved once for arbitrary strings
  // ---------------------------------------------------------------------------

  /** A code body whose three runs stop where the next character leaves the class. */
  lemma CodeBodyIs(s: string, i: nat, m: nat, n: nat, k: nat)
    requires i + 3 < m < n < k <= |s|
    requires IsDigit(s[i]) && IsDigit(s[i + 1]) && s[i + 2] == 'B'
    requires AllIn(s, i + 3, m, Digit) && !IsDigit(s[m])
    requires AllIn(s, m, n, Upper) && !IsUpper(s[n])
    requires AllIn(s, n, k, Digit) && (k == |s| || !IsDigit(s[k]))
    ensures CodeBodyAt(s, i) == Some(k)
  {
    RunEndExact(s, i + 3, m, Digit);
    RunEndExact(s, m, n, Upper);
    RunEndExact(s, n, k, Digit);
  }

  /** A parenthesised group of two to four capitals. */
  lemma TeacherIs(s: string, i: nat, k: nat)
    requires i + 4 <= k <= i + 6 && k <= |s|
    requires s[i] == '(' && AllIn(s, i + 1, k - 1, Upper) && s[k - 1] == ')'
    ensures TeacherAt(s, i) == Some(k)
  {
    RunEndExact(s, i + 1, k - 1, Upper);
  }

  /** A room at the end of the entry whose number runs from `q` to `e`. */
  lemma RoomIs(s: string, i: nat, q: nat, e: nat)
    requires WordBoundary(s, i) && RoomKeywordEnd(s, i).Some?
    requires q == (var p := RoomKeywordEnd(s, i).value;
                   if p < |s| && (s[p] == '-' || s[p] == ' ') then p + 1 else p)
    requires q < e == |s| && AllIn(s, q, e, Digit)
    ensures RoomAt(s, i) == Some(e)
  {
    RunEndExact(s, q, e, Digit);
  }

  /** A room at the end of the entry whose number ends at `e` and whose `_` suffix runs to `k`. */
  lemma RoomWithSuffixIs(s: string, i: nat, q: nat, e: nat, k: nat)
    requires WordBoundary(s, i) && RoomKeywordEnd(s, i).Some?
    requires q == (var p := RoomKeywordEnd(s, i).value;
                   if p < |s| && (s[p] == '-' || s[p] == ' ') then p + 1 else p)
    requires q < e && e + 1 < k == |s| && AllIn(s, q, e, Digit) && s[e] == '_'
    requires AllIn(s, e + 1, k, Digit)
    ensures RoomAt(s, i) == Some(k)
  {
    RunEndExact(s, q, e, Digit);
    RunEndExact(s, e + 1, k, Digit);
  }

  /** A slice equals a given text when it agrees with it character by character. */
  lemma SliceIs(s: string, i: nat, t: string)
    requires i + |t| <= |s| && forall j :: 0 <= j < |t| ==> s[i + j] == t[j]
    ensures s[i..i + |t|] == t
  {
  }

  /** With no match starting anywhere, the search reports none. */
  lemma NoMatchAnywhere(p: Pattern, s: string)
    requires forall j :: 0 <= j <= |s| ==> MatchAt(p, s, j).None?
    ensures FirstMatch(p, s, 0).None?
  {
  }

  /** The room texts of the vectors below have no white space to remove. */
  lemma CleanRooms()
    ensures StripWhitespace("CL9_1") == "CL9_1" && StripWhitespace("CL5_2") == "CL5_2"
    ensures StripWhitespace("LT3") == "LT3" && StripWhitespace("LT2") == "LT2"
  {
    assert NoWhitespace("CL9_1") && NoWhitespace("CL5_2");
    assert NoWhitespace("LT3") && NoWhitespace("LT2");
    StripKeepsClean("CL9_1");
    StripKeepsClean("CL5_2");
    StripKeepsClean("LT3");
    StripKeepsClean("LT2");
  }

  // ---------------------------------------------------------------------------
  // A practical for one batch in a sub-numbered lab
  // ---------------------------------------------------------------------------

  const Practical := "P-25B17CI471 24A12 (HSL) CL9_1"

  lemma PracticalStart()
    ensures Practical[0] == 'P' && Practical[1] == '-' && WordBoundary(Practical, 2) && WordBoundary(Practical, 12)
  {
  }

  lemma PracticalRuns()
    ensures IsDigit(Practical[2]) && IsDigit(Practical[3]) && Practical[4] == 'B'
    ensures AllIn(Practical, 5, 7, Digit) && !IsDigit(Practical[7])
    ensures AllIn(Practical, 7, 9, Upper) && !IsUpper(Practical[9])
    ensures AllIn(Practical, 9, 12, Digit) && !IsDigit(Practical[12])
  {
  }

  lemma PracticalCodeBody()
    ensures CodeBodyAt(Practical, 2) == Some(12)
  {
    PracticalRuns();
    CodeBodyIs(Practical, 2, 7, 9, 12);
  }

  lemma PracticalCodeAt()
    ensures MatchAt(PrefixedCode, Practical, 0) == Some(12)
    ensures MatchAt(BareCode, Practical, 2) == Some(12)
  {
    PracticalCodeBody();
    PracticalStart();
  }

  lemma PracticalNoEarlierBareCode()
    ensures !MayStartAt(BareCode, Practical, 0) && !MayStartAt(BareCode, Practical, 1)
  {
  }

  lemma PracticalCodes()
    ensures FirstMatch(PrefixedCode, Practical, 0) == Some(Span(0, 12))
    ensures FirstMatch(BareCode, Practical, 0) == Some(Span(2, 12))
  {
    PracticalCodeAt();
    FirstMatchAt(PrefixedCode, Practical, 0);
    PracticalNoEarlierBareCode();
    FirstMatchAt(BareCode, Practical, 2);
  }

  lemma PracticalNoEarlierBatch()
    ensures forall j :: 0 <= j < 13 ==> !MayStartAt(BatchList, Practical, j)
  {
  }

  lemma PracticalBatchAt()
    ensures MatchAt(BatchList, Practical, 13) == Some(18)
  {
    assert BatchRunEnd(Practical, 18) == 18;
  }

  lemma PracticalBatches()
    ensures FirstMatch(BatchList, Practical, 0) == Some(Span(13, 18))
  {
    PracticalNoEarlierBatch();
    PracticalBatchAt();
    FirstMatchAt(BatchList, Practical, 13);
  }

  lemma PracticalNoEarlierTeacher()
    ensures forall j :: 0 <= j < 19 ==> !MayStartAt(TeacherGroup, Practical, j)
  {
  }

  lemma PracticalTeacherAt()
    ensures MatchAt(TeacherGroup, Practical, 19) == Some(24)
  {
    TeacherIs(Practical, 19, 24);
  }

  lemma PracticalTeacher()
    ensures FirstMatch(TeacherGroup, Practical, 0) == Some(Span(19, 24))
  {
    PracticalNoEarlierTeacher();
    PracticalTeacherAt();
    FirstMatchAt(TeacherGroup, Practical, 19);
  }

  lemma PracticalNoEarlierRoom()
    ensures forall j :: 0 <= j < 25 ==> !MayStartAt(Room, Practical, j)
  {
    PracticalNoRoomFrom0();
    PracticalNoRoomFrom10();
    PracticalNoRoomFrom20();
  }

  lemma PracticalNoRoomFrom0()
    ensures forall j :: 0 <= j < 10 ==> !MayStartAt(Room, Practical, j)
  {
  }

  lemma PracticalNoRoomFrom10()
    ensures forall j :: 10 <= j < 20 ==> !MayStartAt(Room, Practical, j)
  {
  }

  lemma PracticalNoRoomFrom20()
    ensures forall j :: 20 <= j < 25 ==> !MayStartAt(Room, Practical, j)
  {
  }

  lemma PracticalRoomAt()
    ensures MatchAt(Room, Practical, 25) == Some(30)
  {
    RoomWithSuffixIs(Practical, 25, 27, 28, 30);
  }

  lemma PracticalRoom()
    ensures FirstMatch(Room, Practical, 0) == Some(Span(25, 30))
  {
    PracticalNoEarlierRoom();
    PracticalRoomAt();
    FirstMatchAt(Room, Practical, 25);
  }

  lemma PracticalSlices()
    ensures Practical[0..12] == "P-25B17CI471"
    ensures Practical[2..12] == "25B17CI471"
    ensures Practical[13..18] == "24A12"
    ensures Practical[20..23] == "HSL"
    ensures Practical[25..30] == "CL9_1"
  {
    SliceIs(Practical, 0, "P-25B17CI471");
    SliceIs(Practical, 2, "25B17CI471");
    SliceIs(Practical, 13, "24A12");
    SliceIs(Practical, 20, "HSL");
    SliceIs(Practical, 25, "CL9_1");
  }

  lemma PracticalFields()
    ensures MatchedText(PrefixedCode, Practical) == Some("P-25B17CI471")
    ensures MatchedText(BareCode, Practical) == Some("25B17CI471")
    ensures MatchedText(BatchList, Practical) == Some("24A12")
    ensures MatchedText(Room, Practical) == Some("CL9_1")
    ensures ParseEntry(Practical).teacher == Some("HSL")
  {
    PracticalCodes();
    PracticalBatches();
    PracticalTeacher();
    PracticalRoom();
    PracticalSlices();
  }

  /** The first Monday entry: every field present, the lab keeps its `_1` suffix. */
  lemma PracticalParsed()
    ensures ParseEntry(Practical)
      == Details(Some("P-25B17CI471"), Some("24A12"), Some("HSL"), Some("CL9_1"))
    ensures GetSubjectCode(Practical) == Some("25B17CI471")
  {
    PracticalFields();
    CleanRooms();
  }

  // ---------------------------------------------------------------------------
  // A lecture for the whole class: no batch list
  // ---------------------------------------------------------------------------

  const Lecture := "L-25B1WHS434 (RTK) LT3"

  lemma LectureStart()
    ensures Lecture[0] == 'L' && Lecture[1] == '-' && WordBoundary(Lecture, 2) && WordBoundary(Lecture, 12)
  {
  }

  lemma LectureRuns()
    ensures IsDigit(Lecture[2]) && IsDigit(Lecture[3]) && Lecture[4] == 'B'
    ensures AllIn(Lecture, 5, 6, Digit) && !IsDigit(Lecture[6])
    ensures AllIn(Lecture, 6, 9, Upper) && !IsUpper(Lecture[9])
    ensures AllIn(Lecture, 9, 12, Digit) && !IsDigit(Lecture[12])
  {
  }

  lemma LectureCodeBody()
    ensures CodeBodyAt(Lecture, 2) == Some(12)
  {
    LectureRuns();
    CodeBodyIs(Lecture, 2, 6, 9, 12);
  }

  lemma LectureCodeAt()
    ensures MatchAt(PrefixedCode, Lecture, 0) == Some(12)
    ensures MatchAt(BareCode, Lecture, 2) == Some(12)
  {
    LectureCodeBody();
    LectureStart();
  }

  lemma LectureNoEarlierBareCode()
    ensures !MayStartAt(BareCode, Lecture, 0) && !MayStartAt(BareCode, Lecture, 1)
  {
  }

  lemma LectureCodes()
    ensures FirstMatch(PrefixedCode, Lecture, 0) == Some(Span(0, 12))
    ensures FirstMatch(BareCode, Lecture, 0) == Some(Span(2, 12))
  {
    LectureCodeAt();
    FirstMatchAt(PrefixedCode, Lecture, 0);
    LectureNoEarlierBareCode();
    FirstMatchAt(BareCode, Lecture, 2);
  }

  lemma LectureNoBatchToken()
    ensures forall j :: 0 <= j <= |Lecture| ==> !MayStartAt(BatchList, Lecture, j)
  {
  }

  lemma LectureBatches()
    ensures FirstMatch(BatchList, Lecture, 0).None?
  {
    LectureNoBatchToken();
    FirstMatchNone(BatchList, Lecture);
  }

  lemma LectureNoEarlierTeacher()
    ensures forall j :: 0 <= j < 13 ==> !MayStartAt(TeacherGroup, Lecture, j)
  {
  }

  lemma LectureTeacherAt()
    ensures MatchAt(TeacherGroup, Lecture, 13) == Some(18)
  {
    TeacherIs(Lecture, 13, 18);
  }

  lemma LectureTeacher()
    ensures FirstMatch(TeacherGroup, Lecture, 0) == Some(Span(13, 18))
  {
    LectureNoEarlierTeacher();
    LectureTeacherAt();
    FirstMatchAt(TeacherGroup, Lecture, 13);
  }

  lemma LectureNoEarlierRoom()
    ensures forall j :: 0 <= j < 19 ==> !MayStartAt(Room, Lecture, j)
  {
    LectureNoRoomFrom0();
    LectureNoRoomFrom10();
  }

  lemma LectureNoRoomFrom0()
    ensures forall j :: 0 <= j < 10 ==> !MayStartAt(Room, Lecture, j)
  {
  }

  lemma LectureNoRoomFrom10()
    ensures forall j :: 10 <= j < 19 ==> !MayStartAt(Room, Lecture, j)
  {
  }

  lemma LectureRoomAt()
    ensures MatchAt(Room, Lecture, 19) == Some(22)
  {
    RoomIs(Lecture, 19, 21, 22);
  }

  lemma LectureRoom()
    ensures FirstMatch(Room, Lecture, 0) == Some(Span(19, 22))
  {
    LectureNoEarlierRoom();
    LectureRoomAt();
    FirstMatchAt(Room, Lecture, 19);
  }

  lemma LectureSlices()
    ensures Lecture[0..12] == "L-25B1WHS434"
    ensures Lecture[2..12] == "25B1WHS434"
    ensures Lecture[14..17] == "RTK"
    ensures Lecture[19..22] == "LT3"
  {
    SliceIs(Lecture, 0, "L-25B1WHS434");
    SliceIs(Lecture, 2, "25B1WHS434");
    SliceIs(Lecture, 14, "RTK");
    SliceIs(Lecture, 19, "LT3");
  }

  lemma LectureFields()
    ensures MatchedText(PrefixedCode, Lecture) == Some("L-25B1WHS434")
    ensures MatchedText(BareCode, Lecture) == Some("25B1WHS434")
    ensures MatchedText(BatchList, Lecture).None?
    ensures MatchedText(Room, Lecture) == Some("LT3")
    ensures ParseEntry(Lecture).teacher == Some("RTK")
  {
    LectureCodes();
    LectureBatches();
    LectureTeacher();
    LectureRoom();
    LectureSlices();
  }

  /** A lecture with no batch list: the batches field is missing, the others are found. */
  lemma LectureParsed()
    ensures ParseEntry(Lecture)
      == Details(Some("L-25B1WHS434"), None, Some("RTK"), Some("LT3"))
    ensures GetSubjectCode(Lecture) == Some("25B1WHS434")
  {
    LectureFields();
    CleanRooms();
  }

  // ---------------------------------------------------------------------------
  // A lecture for three batches
  // ---------------------------------------------------------------------------

  const Combined := "L-25B11CI413 24A11,24A12,24A13 (RBT) LT2"

  lemma CombinedStart()
    ensures Combined[0] == 'L' && Combined[1] == '-' && WordBoundary(Combined, 2) && WordBoundary(Combined, 12)
  {
  }

  lemma CombinedRuns()
    ensures IsDigit(Combined[2]) && IsDigit(Combined[3]) && Combined[4] == 'B'
    ensures AllIn(Combined, 5, 7, Digit) && !IsDigit(Combined[7])
    ensures AllIn(Combined, 7, 9, Upper) && !IsUpper(Combined[9])
    ensures AllIn(Combined, 9, 12, Digit) && !IsDigit(Combined[12])
  {
  }

  lemma CombinedCodeBody()
    ensures CodeBodyAt(Combined, 2) == Some(12)
  {
    CombinedRuns();
    CodeBodyIs(Combined, 2, 7, 9, 12);
  }

  lemma CombinedCodeAt()
    ensures MatchAt(PrefixedCode, Combined, 0) == Some(12)
    ensures MatchAt(BareCode, Combined, 2) == Some(12)
  {
    CombinedCodeBody();
    CombinedStart();
  }

  lemma CombinedNoEarlierBareCode()
    ensures !MayStartAt(BareCode, Combined, 0) && !MayStartAt(BareCode, Combined, 1)
  {
  }

  lemma CombinedCodes()
    ensures FirstMatch(PrefixedCode, Combined, 0) == Some(Span(0, 12))
    ensures FirstMatch(BareCode, Combined, 0) == Some(Span(2, 12))
  {
    CombinedCodeAt();
    FirstMatchAt(PrefixedCode, Combined, 0);
    CombinedNoEarlierBareCode();
    FirstMatchAt(BareCode, Combined, 2);
  }

  lemma CombinedNoEarlierBatch()
    ensures forall j :: 0 <= j < 13 ==> !MayStartAt(BatchList, Combined, j)
  {
  }

  lemma CombinedBatchRun()
    ensures BatchRunEnd(Combined, 18) == 30
  {
    assert BatchRunEnd(Combined, 30) == 30;
    assert BatchRunEnd(Combined, 24) == 30;
  }

  lemma CombinedBatchAt()
    ensures MatchAt(BatchList, Combined, 13) == Some(30)
  {
    CombinedBatchRun();
  }

  lemma CombinedBatches()
    ensures FirstMatch(BatchList, Combined, 0) == Some(Span(13, 30))
  {
    CombinedNoEarlierBatch();
    CombinedBatchAt();
    FirstMatchAt(BatchList, Combined, 13);
  }

  lemma CombinedNoEarlierTeacher()
    ensures forall j :: 0 <= j < 31 ==> !MayStartAt(TeacherGroup, Combined, j)
  {
  }

  lemma CombinedTeacherAt()
    ensures MatchAt(TeacherGroup, Combined, 31) == Some(36)
  {
    TeacherIs(Combined, 31, 36);
  }

  lemma CombinedTeacher()
    ensures FirstMatch(TeacherGroup, Combined, 0) == Some(Span(31, 36))
  {
    CombinedNoEarlierTeacher();
    CombinedTeacherAt();
    FirstMatchAt(TeacherGroup, Combined, 31);
  }

  lemma CombinedNoEarlierRoom()
    ensures forall j :: 0 <= j < 37 ==> !MayStartAt(Room, Combined, j)
  {
    CombinedNoRoomFrom0();
    CombinedNoRoomFrom10();
    CombinedNoRoomFrom20();
    CombinedNoRoomFrom30();
  }

  lemma CombinedNoRoomFrom0()
    ensures forall j :: 0 <= j < 10 ==> !MayStartAt(Room, Combined, j)
  {
  }

  lemma CombinedNoRoomFrom10()
    ensures forall j :: 10 <= j < 20 ==> !MayStartAt(Room, Combined, j)
  {
  }

  lemma CombinedNoRoomFrom20()
    ensures forall j :: 20 <= j < 30 ==> !MayStartAt(Room, Combined, j)
  {
  }

  lemma CombinedNoRoomFrom30()
    ensures forall j :: 30 <= j < 37 ==> !MayStartAt(Room, Combined, j)
  {
  }

  lemma CombinedRoomAt()
    ensures MatchAt(Room, Combined, 37) == Some(40)
  {
    RoomIs(Combined, 37, 39, 40);
  }

  lemma CombinedRoom()
    ensures FirstMatch(Room, Combined, 0) == Some(Span(37, 40))
  {
    CombinedNoEarlierRoom();
    CombinedRoomAt();
    FirstMatchAt(Room, Combined, 37);
  }

  lemma CombinedSlices()
    ensures Combined[0..12] == "L-25B11CI413"
    ensures Combined[2..12] == "25B11CI413"
    ensures Combined[13..30] == "24A11,24A12,24A13"
    ensures Combined[32..35] == "RBT"
    ensures Combined[37..40] == "LT2"
  {
    SliceIs(Combined, 0, "L-25B11CI413");
    SliceIs(Combined, 2, "25B11CI413");
    SliceIs(Combined, 13, "24A11,24A12,24A13");
    SliceIs(Combined, 32, "RBT");
    SliceIs(Combined, 37, "LT2");
  }

  lemma CombinedFields()
    ensures MatchedText(PrefixedCode, Combined) == Some("L-25B11CI413")
    ensures MatchedText(BareCode, Combined) == Some("25B11CI413")
    ensures MatchedText(BatchList, Combined) == Some("24A11,24A12,24A13")
    ensures MatchedText(Room, Combined) == Some("LT2")
    ensures ParseEntry(Combined).teacher == Some("RBT")
  {
    CombinedCodes();
    CombinedBatches();
    CombinedTeacher();
    CombinedRoom();
    CombinedSlices();
  }

  /** The whole comma-joined batch list is kept as one string. */
  lemma CombinedParsed()
    ensures ParseEntry(Combined)
      == Details(Some("L-25B11CI413"), Some("24A11,24A12,24A13"), Some("RBT"), Some("LT2"))
    ensures GetSubjectCode(Combined) == Some("25B11CI413")
  {
    CombinedFields();
    CleanRooms();
  }

  // ---------------------------------------------------------------------------
  // A batch written inside a group label
  // ---------------------------------------------------------------------------

  const Grouped := "P-25B1WCI471 B12[24A12] (ATA) CL5_2"

  lemma GroupedStart()
    ensures Grouped[0] == 'P' && Grouped[1] == '-' && WordBoundary(Grouped, 2) && WordBoundary(Grouped, 12)
  {
  }

  lemma GroupedRuns()
    ensures IsDigit(Grouped[2]) && IsDigit(Grouped[3]) && Grouped[4] == 'B'
    ensures AllIn(Grouped, 5, 6, Digit) && !IsDigit(Grouped[6])
    ensures AllIn(Grouped, 6, 9, Upper) && !IsUpper(Grouped[9])
    ensures AllIn(Grouped, 9, 12, Digit) && !IsDigit(Grouped[12])
  {
  }

  lemma GroupedCodeBody()
    ensures CodeBodyAt(Grouped, 2) == Some(12)
  {
    GroupedRuns();
    CodeBodyIs(Grouped, 2, 6, 9, 12);
  }

  lemma GroupedCodeAt()
    ensures MatchAt(PrefixedCode, Grouped, 0) == Some(12)
    ensures MatchAt(BareCode, Grouped, 2) == Some(12)
  {
    GroupedCodeBody();
    GroupedStart();
  }

  lemma GroupedNoEarlierBareCode()
    ensures !MayStartAt(BareCode, Grouped, 0) && !MayStartAt(BareCode, Grouped, 1)
  {
  }

  lemma GroupedCodes()
    ensures FirstMatch(PrefixedCode, Grouped, 0) == Some(Span(0, 12))
    ensures FirstMatch(BareCode, Grouped, 0) == Some(Span(2, 12))
  {
    GroupedCodeAt();
    FirstMatchAt(PrefixedCode, Grouped, 0);
    GroupedNoEarlierBareCode();
    FirstMatchAt(BareCode, Grouped, 2);
  }

  lemma GroupedNoEarlierBatch()
    ensures forall j :: 0 <= j < 17 ==> !MayStartAt(BatchList, Grouped, j)
  {
  }

  lemma GroupedBatchAt()
    ensures MatchAt(BatchList, Grouped, 17) == Some(22)
  {
    assert BatchRunEnd(Grouped, 22) == 22;
  }

  lemma GroupedBatches()
    ensures FirstMatch(BatchList, Grouped, 0) == Some(Span(17, 22))
  {
    GroupedNoEarlierBatch();
    GroupedBatchAt();
    FirstMatchAt(BatchList, Grouped, 17);
  }

  lemma GroupedNoEarlierTeacher()
    ensures forall j :: 0 <= j < 24 ==> !MayStartAt(TeacherGroup, Grouped, j)
  {
  }

  lemma GroupedTeacherAt()
    ensures MatchAt(TeacherGroup, Grouped, 24) == Some(29)
  {
    TeacherIs(Grouped, 24, 29);
  }

  lemma GroupedTeacher()
    ensures FirstMatch(TeacherGroup, Grouped, 0) == Some(Span(24, 29))
  {
    GroupedNoEarlierTeacher();
    GroupedTeacherAt();
    FirstMatchAt(TeacherGroup, Grouped, 24);
  }

  lemma GroupedNoEarlierRoom()
    ensures forall j :: 0 <= j < 30 ==> !MayStartAt(Room, Grouped, j)
  {
    GroupedNoRoomFrom0();
    GroupedNoRoomFrom10();
    GroupedNoRoomFrom20();
  }

  lemma GroupedNoRoomFrom0()
    ensures forall j :: 0 <= j < 10 ==> !MayStartAt(Room, Grouped, j)
  {
  }

  lemma GroupedNoRoomFrom10()
    ensures forall j :: 10 <= j < 20 ==> !MayStartAt(Room, Grouped, j)
  {
  }

  lemma GroupedNoRoomFrom20()
    ensures forall j :: 20 <= j < 30 ==> !MayStartAt(Room, Grouped, j)
  {
  }

  lemma GroupedRoomAt()
    ensures MatchAt(Room, Grouped, 30) == Some(35)
  {
    RoomWithSuffixIs(Grouped, 30, 32, 33, 35);
  }

  lemma GroupedRoom()
    ensures FirstMatch(Room, Grouped, 0) == Some(Span(30, 35))
  {
    GroupedNoEarlierRoom();
    GroupedRoomAt();
    FirstMatchAt(Room, Grouped, 30);
  }

  lemma GroupedSlices()
    ensures Grouped[0..12] == "P-25B1WCI471"
    ensures Grouped[2..12] == "25B1WCI471"
    ensures Grouped[17..22] == "24A12"
    ensures Grouped[25..28] == "ATA"
    ensures Grouped[30..35] == "CL5_2"
  {
    SliceIs(Grouped, 0, "P-25B1WCI471");
    SliceIs(Grouped, 2, "25B1WCI471");
    SliceIs(Grouped, 17, "24A12");
    SliceIs(Grouped, 25, "ATA");
    SliceIs(Grouped, 30, "CL5_2");
  }

  lemma GroupedFields()
    ensures MatchedText(PrefixedCode, Grouped) == Some("P-25B1WCI471")
    ensures MatchedText(BareCode, Grouped) == Some("25B1WCI471")
    ensures MatchedText(BatchList, Grouped) == Some("24A12")
    ensures MatchedText(Room, Grouped) == Some("CL5_2")
    ensures ParseEntry(Grouped).teacher == Some("ATA")
  {
    GroupedCodes();
    GroupedBatches();
    GroupedTeacher();
    GroupedRoom();
    GroupedSlices();
  }

  /** Only the bare batch token is taken from `B12[24A12]`; the label around it is skipped. */
  lemma GroupedParsed()
    ensures ParseEntry(Grouped)
      == Details(Some("P-25B1WCI471"), Some("24A12"), Some("ATA"), Some("CL5_2"))
    ensures GetSubjectCode(Grouped) == Some("25B1WCI471")
  {
    GroupedFields();
    CleanRooms();
  }

  // ---------------------------------------------------------------------------
  // Edge cases
  // ---------------------------------------------------------------------------

  /** No search finds anything in an empty entry, so every field is missing. */
  lemma EmptyParsed()
    ensures ParseEntry("") == Details(None, None, None, None)
    ensures GetSubjectCode("").None?
  {
    FirstMatchNone(PrefixedCode, "");
    FirstMatchNone(BareCode, "");
    FirstMatchNone(BatchList, "");
    FirstMatchNone(TeacherGroup, "");
    FirstMatchNone(Room, "");
  }

  const Spaced := "LT 3"

  lemma SpacedRoom()
    ensures FirstMatch(Room, Spaced, 0) == Some(Span(0, 4))
  {
    RoomIs(Spaced, 0, 3, 4);
    FirstMatchAt(Room, Spaced, 0);
  }

  lemma SpacedOthers()
    ensures FirstMatch(PrefixedCode, Spaced, 0).None?
    ensures FirstMatch(BatchList, Spaced, 0).None?
    ensures FirstMatch(TeacherGroup, Spaced, 0).None?
  {
    FirstMatchNone(PrefixedCode, Spaced);
    FirstMatchNone(BatchList, Spaced);
    FirstMatchNone(TeacherGroup, Spaced);
  }

  lemma SpacedStripped()
    ensures StripWhitespace(Spaced) == "LT3"
  {
    assert Spaced == "LT" + [' '] + "3";
    assert NoWhitespace("LT") && NoWhitespace("3");
    StripAroundSpace("LT", "3");
  }

  /** A space between room keyword and number is matched and then removed. */
  lemma SpacedParsed()
    ensures ParseEntry(Spaced) == Details(None, None, None, Some("LT3"))
  {
    SpacedRoom();
    SpacedOthers();
    SpacedStripped();
    assert Spaced[0..4] == Spaced;
  }

  const Glued := "L-25B11CI413X"

  lemma GluedRuns()
    ensures IsDigit(Glued[2]) && IsDigit(Glued[3]) && Glued[4] == 'B'
    ensures AllIn(Glued, 5, 7, Digit) && !IsDigit(Glued[7])
    ensures AllIn(Glued, 7, 9, Upper) && !IsUpper(Glued[9])
    ensures AllIn(Glued, 9, 12, Digit) && !IsDigit(Glued[12])
  {
  }

  lemma GluedCodeBody()
    ensures CodeBodyAt(Glued, 2) == Some(12)
  {
    GluedRuns();
    CodeBodyIs(Glued, 2, 7, 9, 12);
  }

  lemma GluedStart()
    ensures Glued[0] == 'L' && Glued[1] == '-' && !WordBoundary(Glued, 12)
  {
  }

  lemma GluedSubject()
    ensures FirstMatch(PrefixedCode, Glued, 0) == Some(Span(0, 12))
  {
    GluedCodeBody();
    GluedStart();
    assert MatchAt(PrefixedCode, Glued, 0) == Some(12);
    FirstMatchAt(PrefixedCode, Glued, 0);
  }

  lemma GluedNoBareCode()
    ensures FirstMatch(BareCode, Glued, 0).None?
  {
    GluedCodeBody();
    GluedStart();
    forall j | 0 <= j <= |Glued|
      ensures MatchAt(BareCode, Glued, j).None?
    {
      MayStartNecessary(BareCode, Glued, j);
    }
    NoMatchAnywhere(BareCode, Glued);
  }

  /**
   * A code run straight into a letter: the type-prefixed pattern, which needs
   * no `\b` at its end, still finds the code, but the bare pattern does not,
   * so the entry shows a subject code and no subject name.
   */
  lemma GluedCodeHasNoName(subjects: map<string, string>)
    ensures ParseEntry(Glued).subjectCode == Some("L-25B11CI413")
    ensures GetSubjectCode(Glued).None?
    ensures SubjectName(subjects, Glued).None?
  {
    GluedSubject();
    SliceIs(Glued, 0, "L-25B11CI413");
    GluedNoBareCode();
  }
}
