# Timetable page helpers, modelled in Dafny

The timetable page (`app/page.tsx`) shows one day of a class schedule. Behind the
markup sit two small pure pieces of logic, and this project models both and proves
what they do:

- **The entry parser.** A timetable entry is a free-form string such as
  `L-25B11CI413 24A11,24A12,24A13 (RBT) LT2`. `parseEntry` runs four independent
  regular-expression searches over it: the type-prefixed subject code, the
  comma-joined batch list, the teacher initials in parentheses, and the room token
  (white space removed). `getSubjectCode` is a fifth, word-bounded search for the
  bare code (`25B11CI413`), which is the key into the subject-name table.
- **The schedule completer.** `fillBreakSlots` joins a day's sparse list of
  `{time, entry}` rows against the nine canonical slots from 09:00 AM to 05:55 PM.
  Each slot shows the first row carrying its label, or a break (`entry: ""`) when
  there is none. On Sunday the page shows no class rows (it shows a holiday
  notice instead, which is markup and not modelled).

Files and modules:

- `wrappers.dfy` (`Wrappers`): `Option`, which stands for JavaScript's `null`.
- `text.dfy` (`Text`): the character classes as JavaScript regular expressions
  without the `u` flag define them. That covers `\d`, `[A-Z]`, `\w` with `\b`, the
  ASCII case folding of the `i` flag, and the ECMAScript white-space set of `\s`.
  It also holds `replace(/\s+/g, '')`.
- `patterns.dfy` (`Patterns`): the five fixed patterns. Each has an operational
  matcher that follows the engine's greedy path (`MatchAt`) and a declarative
  description of the pattern's language (`IsMatch`). Lemmas show that the two
  agree. The leftmost search `FirstMatch` models `String.prototype.match` without
  the `g` flag, and is proved to return the leftmost match, longest at its start.
  For these five patterns the engine's backtracking priority and "longest" pick
  the same match.
- `entry_parser.dfy` (`EntryParser`): `ParseEntry`, `GetSubjectCode`, the
  subject-name lookup, and one lemma per field stating what that field means.
- `schedule.dfy` (`Schedule`): the slot list, `FillBreakSlots`, the Sunday rule,
  and lemmas about them.
- `vectors.dfy` (`Vectors`): entry strings from `data/timetable.ts` and a few edge
  cases, with the fields the model gives for each proved by lemmas.

## Model

| member | source | states |
|---|---|---|
| Text.StripWhitespace | app/page.tsx:56 | the replacement only removes characters, so the result is never longer than its input; which characters go is stated by the next two rows |
| Text.StripRemovesWhitespace | app/page.tsx:56 | after `replace(/\s+/g, '')` no white-space character is left |
| Text.StripKeepsClean | app/page.tsx:56 | text without white space comes out of the replacement unchanged |
| Text.StripConcat | app/page.tsx:56 | the replacement works piecewise: stripping `a + b` is stripping `a`, then `b` |
| Text.StripAroundSeparator | app/page.tsx:56 | around a one-character separator between two clean parts, only a space separator is removed |
| Patterns.PrefixedCodeAt | app/page.tsx:46 | a match of `[LTP]-` plus code body at `i` is at least 8 characters long and lies within the string |
| Patterns.BareCodeAt | app/page.tsx:40 | a word-bounded code body at `i` is at least 6 characters long and lies within the string |
| Patterns.BatchRunEnd | app/page.tsx:49 | the greedy `(?:,\d{2}A\d{2})*` consumes whole 6-character groups and stops only where no further `,` plus token follows |
| Patterns.BatchAt | app/page.tsx:49 | a batch list at `i` is at least one 5-character token long and lies within the string |
| Patterns.TeacherAt | app/page.tsx:52 | a teacher group at `i` is at least 4 characters long (parentheses and two letters) and lies within the string |
| Patterns.RoomAt | app/page.tsx:55 | a room token at `i` is at least 3 characters long (keyword and one digit) and lies within the string |
| Patterns.MatchAt | app/page.tsx:40-55 | the engine's match at a position has at least the pattern's minimum length and lies within the string; what it matches is stated by `MatchAtSound` and `MatchAtComplete` |
| Patterns.FirstMatch | app/page.tsx:40-55 | the search result is a match that starts at or after the start position, and no match starts before it |
| Patterns.CodeBodySound | app/page.tsx:46 | the greedy code-body matcher only accepts text of the form `\d{2}B\d+[A-Z]+\d+` |
| Patterns.CodeBodyComplete | app/page.tsx:46 | every code body at a position ends within the greedy match found there |
| Patterns.BatchRunSound | app/page.tsx:49 | the greedy batch matcher only accepts comma-joined `\d{2}A\d{2}` tokens |
| Patterns.BatchRunComplete | app/page.tsx:49 | every batch list at a position ends within the greedy one |
| Patterns.TeacherExact | app/page.tsx:52 | `\(([A-Z]{2,4})\)` has a match `s[i..k]` exactly when the matcher returns `k` at `i` |
| Patterns.RoomKeywordUnique | app/page.tsx:55 | the five room keywords exclude one another under case folding, so the first alternative that fits is the only one |
| Patterns.RoomPartsForced | app/page.tsx:55 | in a room token followed by `\b`, the separator, number and `_` suffix are the engine's greedy choices |
| Patterns.RoomExact | app/page.tsx:55 | the room pattern with its `\b` anchors has a match `s[i..k]` exactly when the matcher returns `k` at `i` |
| Patterns.MatchAtSound | app/page.tsx:40-55 | what the matcher returns at a position is a match of the pattern |
| Patterns.MatchAtComplete | app/page.tsx:40-55 | any match at a position is found there and is no longer than the result; for the anchored or bounded patterns it is exactly the result |
| Patterns.FirstMatchLeftmostLongest | app/page.tsx:40-55 | the search fails exactly when the pattern occurs nowhere; otherwise it returns the leftmost match, longest at its start |
| Patterns.FirstMatchAt | app/page.tsx:40-55 | when no earlier position can start a match, the search returns the match at the given position |
| Patterns.FirstMatchNone | app/page.tsx:40-55 | when no position can start a match, the search returns none |
| EntryParser.ParseEntry | app/page.tsx:45-59 | a subject code found reads `L`, `T` or `P`, `-`, then digits, at least 8 characters; batches are one 5-character token plus whole `,token` groups; the teacher is 2 to 4 capitals; a room has no white space left |
| EntryParser.SubjectCodeSpec | app/page.tsx:46-47 | `subjectCode` is null exactly when no `[LTP]-` code occurs; otherwise it is the leftmost one, verbatim, and reads type letter, `-`, code body |
| EntryParser.BatchesSpec | app/page.tsx:49-50 | `batches` is null exactly when no batch token occurs; otherwise it is the leftmost comma-joined run, as long as it goes, verbatim |
| EntryParser.TeacherSpec | app/page.tsx:52-53 | `teacher` is null exactly when no `(XX)`-style group occurs; otherwise it is 2 to 4 capitals `t` such that `"(" + t + ")"` is the leftmost group |
| EntryParser.ClassroomSpec | app/page.tsx:55-56 | `classroom` is null exactly when no room token occurs; otherwise it has no white space and is the leftmost token verbatim, or that token with its space separator removed |
| EntryParser.RoomTextSpaces | app/page.tsx:55-56 | stripping white space from a room token removes at most its one space separator |
| EntryParser.GetSubjectCode | app/page.tsx:39-42 | a key found is at least 6 characters long and starts with two digits and `B` |
| EntryParser.SubjectKeySpec | app/page.tsx:39-42 | `getSubjectCode` is null exactly when no word-bounded code occurs; otherwise it is the leftmost one, verbatim, with `\b` on both sides |
| EntryParser.PrefixedCodeHasBareCode | app/page.tsx:39-47 | a prefixed code that ends at a word boundary contains a bare code two characters in |
| EntryParser.SubjectKeyOfCode | app/page.tsx:39-47 | when the subject code ends at a word boundary and no bare code comes before it, the lookup key is the subject code without its `L-`/`T-`/`P-` prefix |
| EntryParser.SubjectName | app/page.tsx:266-267 | the lookup yields a name exactly when a key is found and the table has it, and it is the table's entry for that key (an empty name is yielded too; the page then hides it) |
| Schedule.SlotsDistinct | app/page.tsx:21-31 | no two canonical slots share a label |
| Schedule.AllTimeSlots | app/page.tsx:21-31 | the nine canonical slot labels from 09:00 AM to 05:55 PM, in display order |
| Schedule.Find | app/page.tsx:65 | `find` fails exactly when no row has the label; otherwise it returns the first row that does |
| Schedule.Fill | app/page.tsx:65-66 | the row for one slot carries the slot's label; it is the first row with that label when there is one, and a break otherwise |
| Schedule.FillBreakSlots | app/page.tsx:62-70 | nine rows in canonical order; each slot holds the first row with its label, unchanged, or a break when there is none |
| Schedule.FillBreakSlotsEmpty | app/page.tsx:62-70 | an empty day completes to nine breaks |
| Schedule.CompletedRowOrigin | app/page.tsx:63-67 | every row shown is a row of the day or a break for a slot the day does not mention |
| Schedule.ShownRows | app/page.tsx:64-66 | a row of the day is shown exactly when its label is canonical and it is the first row with that label |
| Schedule.OrphanDropped | app/page.tsx:63-67 | a row whose label is not a canonical slot is never shown |
| Schedule.LaterDuplicateDropped | app/page.tsx:65 | a later row with an already-used label and different content is never shown |
| Schedule.FillBreakSlotsIdempotent | app/page.tsx:62-70 | completing an already completed day changes nothing |
| Schedule.FillOrderIndependent | app/page.tsx:62-70 | when no label repeats, any reordering of a day's rows completes to the same day |
| Schedule.DayKey | app/page.tsx:7 | each day has a three-letter key, and only Sunday's is `SUN` |
| Schedule.DayEntries | app/page.tsx:77-80 | Sunday shows no rows; any other day shows the completion by `FillBreakSlots` of the day's rows (none when the timetable lacks the day): nine rows in slot order, all breaks when the timetable lacks the day, and otherwise only rows of that day or breaks for its free slots |
| Schedule.MondayFilled | data/timetable.ts:11-18 | Monday's six classes fill their slots in order, with breaks at 01:00 PM, 03:00 PM and 05:00 PM |
| Vectors.PracticalParsed | data/timetable.ts:12 | `P-25B17CI471 24A12 (HSL) CL9_1` parses to code `P-25B17CI471`, batch `24A12`, teacher `HSL` and room `CL9_1`, with key `25B17CI471` |
| Vectors.LectureParsed | data/timetable.ts:16 | `L-25B1WHS434 (RTK) LT3` has no batches; its other fields are found |
| Vectors.CombinedParsed | data/timetable.ts:17 | the three-batch lecture keeps `24A11,24A12,24A13` whole; its key is `25B11CI413` |
| Vectors.GroupedParsed | data/timetable.ts:34 | `B12[24A12]` yields the batches `24A12` |
| Vectors.EmptyParsed | app/page.tsx:45-59 | every field of the empty entry is null, and so is its key |
| Vectors.SpacedParsed | app/page.tsx:55-56 | the room `LT 3` is reported as `LT3` |
| Vectors.GluedCodeHasNoName | app/page.tsx:39-47 | in `L-25B11CI413X` the subject code is found but the key is not, so no subject name is shown |

## Left out

- The page's markup, the day selector and its dropdown state (app/page.tsx:72-440) are presentation only.
- `getCurrentDay` reads the host clock. The selected day is a parameter of `Schedule.DayEntries` instead.
- The `useMemo` caching around the day's rows does not change the value, so it is not modelled.
- `data/subjects` is not part of this model. The subject table is a `map` parameter of `EntryParser.SubjectName`.
- The `existingTimes` set in `fillBreakSlots` is built but never read, so it has no counterpart.
- A lookup such as `timetable[day]` or `subjects[code]` is modelled as a map lookup. Properties inherited from JavaScript's object prototype, such as a key named `constructor`, are not modelled.
- Strings are sequences of Unicode scalar values here, while JavaScript indexes UTF-16 code units. All five patterns match ASCII characters only, so what is found is the same. Only the positions inside an entry with characters outside the Basic Multilingual Plane would differ.
- Only the five fixed patterns are modelled, each by its own matcher. There is no general regular-expression engine.
- app/page.tsx computes no lab flag and has no fallback text for a missing subject name; the model follows it, and a missing name is `None`.
- The room number is mandatory: the pattern at app/page.tsx:55 requires `\d+` after the keyword and its optional separator, and the model follows that pattern rather than a looser reading of the room token.
- Schedule.DayEntries: the day is one of the seven `DayType` values, as the page's state type requires. Arbitrary strings are not modelled.
- Only four of the 34 entry strings in data/timetable.ts have their fields proved, one of each shape, together with Monday's completed day.
