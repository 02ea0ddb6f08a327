# EduPortal front end: a verified model of its state logic

EduPortal is a small school-administration single-page app. Behind its screens sit
four pieces of sequential logic, and this project models them in Dafny:

- **The in-memory store** (`src/services/api.ts`). It holds module-level lists of
  students, teachers and classes, changed in place by `add*` (append), `update*`
  (find the first entry by id and overlay a partial record, or throw "… not found")
  and `delete*` (filter out by id). It also answers the class/section roster query,
  the dashboard counts and `login`. Modelled as the class `ApiService.Api` with `seq`
  fields and one method per call.
- **The attendance session** (`src/pages/Attendance.tsx`). It keeps a map from
  student id to PRESENT/ABSENT, filled with PRESENT when a class's roster loads.
  The map is changed by `toggle` and `markAll`, counted, and turned into dated
  records on submit. The class selector encodes a class as `grade|section` and
  decodes it with `split("|")`. Modelled as the class `Attendance.AttendancePage`.
  The map is a sequence of entries in the order `Object.entries` lists them, and
  JavaScript's `m[id] = v` is the function `Assign`: an existing key keeps its
  place, a new key goes last.
- **The three CRUD pages** (`Students.tsx`, `Teachers.tsx`, `Classes.tsx`). Each has
  a search filter (students and teachers only) and an add/edit editor over
  `modalOpen`, `editing`, `form` and `saving`. Modelled as the classes
  `StudentsPage`, `TeachersPage` and `ClassesPage`.
- **The auth session** (`src/hooks/useAuth.tsx`): `user` and `loading`, driven by
  `login`, `logout` and `switchRole`. Modelled as the class `Auth.AuthProvider`.

Each asynchronous call is one atomic step. The records of `src/types/index.ts` are
datatypes in `types.dfy`. The `class` field of a student is named `grade`, because
`class` is a Dafny keyword. The fixtures of `src/data/mockData.ts` are constants in
`mock_data.dfy`. JavaScript's `filter`, `findIndex`, `find`, `toLowerCase`,
`includes`, `split` and template-literal number rendering are defined in
`sequences.dfy` and `strings.dfy`, each with the properties the pages rely on.

Three behaviours of the code are easy to expect otherwise, and the model keeps them
as written:

- `toggle` on an id that is not in the map adds it as PRESENT (`a[id]` is `undefined`,
  which is not `"PRESENT"`). It is not a no-op.
- Changing the date does not reset the map.
- A roster response is not checked against the class that is selected when it
  arrives.

## Model

| member | source | states |
|---|---|---|
| Sequences.Filter | src/pages/Students.tsx:30 | `filter` keeps exactly the elements satisfying the predicate, in order: the result is a subsequence, each value keeps its multiplicity iff it passes, and nothing is dropped when all pass |
| Sequences.FilterStepCount | src/pages/Students.tsx:30 | one step of `filter`: the head element is counted exactly when it passes |
| Sequences.FilterStepOrder | src/pages/Students.tsx:30 | one step of `filter`: the kept elements stay in order |
| Sequences.CountMembers | src/pages/Students.tsx:30 | exact per-value counts fix which values are kept |
| Sequences.FilterIdempotent | src/services/api.ts:57 | filtering twice by the same predicate is filtering once |
| Sequences.FindIndex | src/services/api.ts:49 | `findIndex` gives the first index that satisfies the predicate; it gives none (-1) iff no element does |
| Sequences.Find | src/services/api.ts:16 | `find` gives the first element that satisfies the predicate, or nothing when none does |
| Strings.Lower | src/pages/Students.tsx:31 | `toLowerCase` on ASCII: same length, no upper-case letter left, letters shifted by 32, every other character kept |
| Strings.LowerIdempotent | src/pages/Teachers.tsx:29 | lower-casing an already lower-cased string changes nothing |
| Strings.IncludesIff | src/pages/Students.tsx:31-33 | `s.includes(t)` holds iff `t` occurs in `s` at some index |
| Strings.Includes | src/pages/Students.tsx:31 | `includes` as a scan from the front; its meaning is stated by `Strings.IncludesIff` |
| Strings.IncludesEmpty | src/pages/Students.tsx:31 | every string includes the empty string |
| Strings.IncludesHead | src/pages/Students.tsx:32 | a string that includes a non-empty `t` contains the first character of `t` |
| Strings.IndexOf | src/pages/Attendance.tsx:22 | the first position of a character that occurs in the string |
| Strings.Split | src/pages/Attendance.tsx:22 | `split` on one character always gives at least one piece |
| Strings.SplitPiecesFree | src/pages/Attendance.tsx:22 | no piece of a split contains the separator |
| Strings.JoinSplit | src/pages/Attendance.tsx:22 | joining the pieces of a split with the separator gives back the string |
| Strings.SplitFirst | src/pages/Attendance.tsx:22 | a separator-free piece followed by the separator splits off as the first piece |
| Strings.SplitJoin | src/pages/Attendance.tsx:18-22 | splitting a join of separator-free pieces gives back the pieces |
| Strings.Decimal | src/services/api.ts:42 | a clock reading renders as a non-empty string of decimal digits |
| Strings.ParseDecimalOfDecimal | src/services/api.ts:42 | reading back the rendered digits gives the number |
| Strings.DecimalInjective | src/services/api.ts:42 | two numbers render alike iff they are equal |
| ApiService.MintId | src/services/api.ts:42 | a new id is the prefix letter followed by decimal digits, and those digits read back as the clock reading |
| ApiService.MintIdCollision | src/services/api.ts:68 | two ids with one prefix are equal iff their clock readings are, so uniqueness rests on the clock alone |
| ApiService.IndexOfId | src/services/api.ts:49 | the index of the first record with the id; none iff no record has it |
| ApiService.WithoutId | src/services/api.ts:57 | every record with the id is removed, the rest kept in order with their multiplicities; a missing id changes nothing |
| ApiService.WithoutIdIdempotent | src/services/api.ts:83 | deleting the same id twice is deleting it once |
| ApiService.StudentsInClass | src/services/api.ts:115 | exactly the stored students of that class and section, in store order and with their multiplicities |
| ApiService.StudentWithId | src/services/api.ts:42 | `{ ...student, id }`: the form's fields with the new id; `Students.FieldsOf` is its inverse |
| ApiService.TeacherWithId | src/services/api.ts:68 | `{ ...teacher, id }`; `Teachers.FieldsOf` is its inverse |
| ApiService.ClassWithId | src/services/api.ts:94 | `{ ...cls, id }`; `Classes.FieldsOf` is its inverse |
| ApiService.MergeStudent | src/services/api.ts:51 | `{ ...students[idx], ...data }`: each field present in `data` overrides; its effect on a whole form is stated by `ApiService.MergeFormKeepsId` |
| ApiService.MergeTeacher | src/services/api.ts:77 | `{ ...teachers[idx], ...data }`, as above |
| ApiService.MergeClass | src/services/api.ts:103 | `{ ...classes[idx], ...data }`, as above |
| ApiService.MergeFormKeepsId | src/services/api.ts:51 | overlaying a full form (which has no id) keeps the stored id and takes every other field from the form; likewise at lines 77 and 103 |
| ApiService.Api.constructor | src/services/api.ts:8-10 | the store starts as copies of the fixture lists |
| ApiService.Api.Login | src/services/api.ts:14-17 | the first user with the email, else the first user; the password plays no part |
| ApiService.Api.GetDashboardStats | src/services/api.ts:20-27 | the three totals are the current list lengths and the percentage is always 87 |
| ApiService.Api.GetRecentActivity | src/services/api.ts:29-32 | the fixed activity feed |
| ApiService.Api.GetStudents | src/services/api.ts:35-38 | a sequence equal to the stored list |
| ApiService.Api.AddStudent | src/services/api.ts:40-45 | the new record is the fields with an `s` id from the clock, appended last; earlier entries unchanged |
| ApiService.Api.UpdateStudent | src/services/api.ts:47-53 | a missing id gives "Student not found" with the list unchanged; otherwise only the first match is replaced by the old record overlaid with `data`, which is returned |
| ApiService.Api.DeleteStudent | src/services/api.ts:55-58 | the list becomes the old list without that id |
| ApiService.Api.GetTeachers | src/services/api.ts:61-64 | a sequence equal to the stored list |
| ApiService.Api.AddTeacher | src/services/api.ts:66-71 | the new record is the fields with a `t` id from the clock, appended last |
| ApiService.Api.UpdateTeacher | src/services/api.ts:73-79 | "Teacher not found" with the list unchanged, or the first match overlaid and returned |
| ApiService.Api.DeleteTeacher | src/services/api.ts:81-84 | the list becomes the old list without that id |
| ApiService.Api.GetClasses | src/services/api.ts:87-90 | a sequence equal to the stored list |
| ApiService.Api.AddClass | src/services/api.ts:92-97 | the new record is the fields with a `c` id from the clock, appended last |
| ApiService.Api.UpdateClass | src/services/api.ts:99-105 | "Class not found" with the list unchanged, or the first match overlaid and returned |
| ApiService.Api.DeleteClass | src/services/api.ts:107-110 | the list becomes the old list without that id |
| ApiService.Api.GetStudentsByClass | src/services/api.ts:113-116 | the stored students of that class and section, in store order |
| ApiService.Api.SubmitAttendance | src/services/api.ts:118-121 | the store is left unchanged |
| Attendance.KeySetCons | src/pages/Attendance.tsx:45 | the keys of a map split at its first entry |
| Attendance.Lookup | src/pages/Attendance.tsx:34 | `a[id]`, undefined when absent; its meaning is stated by `Attendance.LookupFound` and `Attendance.LookupAt` |
| Attendance.LookupFound | src/pages/Attendance.tsx:34 | `a[id]` is undefined iff `id` is not a key; a found status is an entry of the map |
| Attendance.LookupAt | src/pages/Attendance.tsx:45 | with distinct keys, the entry at each position is what a lookup of its key finds |
| Attendance.Assign | src/pages/Attendance.tsx:34 | `m[id] = st` on an object (also at lines 27 and 39); stated by `Attendance.AssignLookup`, `Attendance.AssignKeys`, `Attendance.AssignEntries` and `Attendance.AssignDistinct` |
| Attendance.AssignLookup | src/pages/Attendance.tsx:34 | after `m[id] = st`, `id` reads `st` and every other key reads as before |
| Attendance.AssignKeys | src/pages/Attendance.tsx:27 | `m[id] = st` adds `id` to the keys; an existing key keeps its place, a new one is appended |
| Attendance.AssignEntries | src/pages/Attendance.tsx:39 | `m[id] = st` brings in no entry other than `id: st` |
| Attendance.AssignDistinct | src/pages/Attendance.tsx:34 | `m[id] = st` keeps the keys distinct |
| Attendance.Toggled | src/pages/Attendance.tsx:34 | the map `toggle` produces; stated by `Attendance.ToggleEffect` and `Attendance.ToggleTwice` |
| Attendance.ToggleEffect | src/pages/Attendance.tsx:33-35 | `toggle(id)` flips the status of `id`, an absent `id` is appended as PRESENT, every other key reads as before, and the key order is kept |
| Attendance.ToggleTwice | src/pages/Attendance.tsx:34 | toggling an id that is in the map twice gives back the map |
| Attendance.RosterSnoc | src/pages/Attendance.tsx:27 | the ids of a roster split at its last student |
| Attendance.Uniform | src/pages/Attendance.tsx:26-27 | the map the `forEach` loops build (also at line 39); stated by `Attendance.UniformSpec` and computed by `Attendance.BuildUniform` |
| Attendance.UniformSpec | src/pages/Attendance.tsx:26-28 | the map built from a roster has exactly the roster's ids as keys, once each, all with the one status, and in roster order when the ids are distinct; an empty roster gives an empty map |
| Attendance.UniformSize | src/pages/Attendance.tsx:27 | with distinct ids the map has one entry per student |
| Attendance.BuildUniform | src/pages/Attendance.tsx:26-27 | the `forEach` loop computes the specified map: the roster's ids, distinct, all with the one status |
| Attendance.CountOfSum | src/pages/Attendance.tsx:55-56 | in a list of statuses, the PRESENT and ABSENT counts add up to its length |
| Attendance.PresentCount | src/pages/Attendance.tsx:55 | `presentCount`; stated by `Attendance.CountsSum` and `Attendance.UniformCounts` |
| Attendance.AbsentCount | src/pages/Attendance.tsx:56 | `absentCount`; stated with `PresentCount` |
| Attendance.CountsSum | src/pages/Attendance.tsx:55-56 | `presentCount + absentCount` equals the number of map entries |
| Attendance.CountOfConstant | src/pages/Attendance.tsx:55 | a list with one status throughout counts all its elements under it and none under the other |
| Attendance.UniformCounts | src/pages/Attendance.tsx:55-56 | right after a roster load or `markAll(st)`, every entry counts under `st` and none under the other status |
| Attendance.DistinctKeysCard | src/pages/Attendance.tsx:55-56 | a map with distinct keys has as many keys as entries |
| Attendance.DistinctIdsCard | src/pages/Attendance.tsx:25-27 | a roster with distinct ids has as many ids as students |
| Attendance.ConsistentSize | src/pages/Attendance.tsx:25-40 | a map with exactly the roster's ids as keys, once each (the state every page operation keeps), has one entry per student when the ids are distinct |
| Attendance.CountsMatchRoster | src/pages/Attendance.tsx:55-56 | in that state, after any sequence of `toggle` and `markAll`, `presentCount + absentCount` equals the roster size |
| Attendance.Records | src/pages/Attendance.tsx:45-49 | one record per map entry, in map order, each with that entry's id and status and the given date |
| Attendance.RecordsAgreeWithMap | src/pages/Attendance.tsx:45-49 | every record carries the status the map holds for its student |
| Attendance.ToggleThenSubmitExample | src/pages/Attendance.tsx:33-49 | for three students with middle one toggled, the submitted records are PRESENT, ABSENT, PRESENT in roster order |
| Attendance.EncodeClassOption | src/pages/Attendance.tsx:18 | the option value: the grade, a bar character, then the section; decoded by `DecodeClassOption` |
| Attendance.DecodeClassOption | src/pages/Attendance.tsx:22 | destructuring `value.split` on the bar character into grade and section, a missing piece being undefined; the round trip is `Attendance.ClassOptionRoundTrip` |
| Attendance.ClassOptionRoundTrip | src/pages/Attendance.tsx:18-22 | decoding an encoded option gives back grade and section when neither contains the bar character |
| Attendance.ClassOptionWithBar | src/pages/Attendance.tsx:22 | without that proviso the round trip fails: grade "1", bar, "0" with section "A" decodes as grade "1", section "0" |
| Attendance.ClassOptionDecodes | src/pages/Attendance.tsx:22 | an option value decodes to the one grade and section that encode to it |
| Attendance.AttendancePage.constructor | src/pages/Attendance.tsx:11-16 | nothing selected, the given date, empty roster and map, not loading, not submitting |
| Attendance.AttendancePage.SelectClass | src/pages/Attendance.tsx:20-31 | "" or an unchanged value fetches nothing and changes nothing but the selection; a new class loads exactly that class's stored students and sets every one PRESENT |
| Attendance.AttendancePage.LoadRoster | src/pages/Attendance.tsx:23-29 | the roster becomes that class's stored students, the map holds every one as PRESENT with one entry per student, and loading ends |
| Attendance.AttendancePage.SelectDate | src/pages/Attendance.tsx:85 | only the date changes; the map is not reset |
| Attendance.AttendancePage.Toggle | src/pages/Attendance.tsx:33-35 | the map becomes the toggled map; toggling a loaded student keeps one entry per loaded student |
| Attendance.AttendancePage.MarkAll | src/pages/Attendance.tsx:37-41 | the map becomes the roster's ids all set to `st`, whatever it held before, so `markAll(ABSENT)` then `markAll(PRESENT)` gives the freshly loaded map |
| Attendance.AttendancePage.HandleSubmit | src/pages/Attendance.tsx:43-53 | the submitted records are those of the current map and date, and `submitting` is false afterwards |
| Students.FieldsDetermineForm | src/pages/Students.tsx:67 | two forms that agree on every key are equal |
| Students.WithField | src/pages/Students.tsx:67 | `setField(k)(v)` sets field `k` to `v` and no other field |
| Students.FieldsOf | src/pages/Students.tsx:39 | the form copies exactly the editable fields: with the student's id it gives back the student |
| Students.FieldsOfWithId | src/pages/Students.tsx:39 | a form added under any id is copied back unchanged when it is edited |
| Students.Matches | src/pages/Students.tsx:31-33 | the search predicate: lower-cased name includes the lower-cased search, or roll number or class includes the search as typed |
| Students.Filtered | src/pages/Students.tsx:30-34 | an order-preserving subsequence in which every matching student appears as often as in the list and no other student appears |
| Students.EmptySearchKeepsAll | src/pages/Students.tsx:30-34 | an empty search keeps every student |
| Students.SearchCase | src/pages/Students.tsx:31-33 | the name matches in any case, the roll number only as typed ("b7" misses "B7") |
| Students.StudentsPage.constructor | src/pages/Students.tsx:14-20 | empty list, loading, empty search, modal closed, not editing, empty form, not saving |
| Students.StudentsPage.Load | src/pages/Students.tsx:23-26 | the list becomes the store's list and loading ends |
| Students.StudentsPage.SetSearch | src/pages/Students.tsx:88 | the search becomes the typed text |
| Students.StudentsPage.OpenAdd | src/pages/Students.tsx:36 | not editing, empty form, modal open |
| Students.StudentsPage.OpenEdit | src/pages/Students.tsx:37-41 | editing the student, the form holds its five fields, modal open |
| Students.StudentsPage.SetField | src/pages/Students.tsx:67 | the form changes in field `k` only |
| Students.StudentsPage.HandleSubmit | src/pages/Students.tsx:43-59 | update by `editing.id` when editing, else add; on success the modal closes and the list reloads; on failure "Student not found" is passed on and the modal and list stay; `saving` is false either way |
| Students.StudentsPage.HandleDelete | src/pages/Students.tsx:61-65 | the store loses that id, then the list reloads |
| Teachers.FieldsDetermineForm | src/pages/Teachers.tsx:64 | two forms that agree on every key are equal |
| Teachers.WithField | src/pages/Teachers.tsx:64 | `setField(k)(v)` sets field `k` to `v` and no other field |
| Teachers.FieldsOf | src/pages/Teachers.tsx:36 | the form copies exactly name, subject and assigned class |
| Teachers.Matches | src/pages/Teachers.tsx:29-30 | the search predicate: the lower-cased name or subject includes the lower-cased search |
| Teachers.SearchIgnoresCase | src/pages/Teachers.tsx:29-30 | lower-casing the typed search first never changes whether a teacher matches |
| Teachers.AssignedClassNotSearched | src/pages/Teachers.tsx:28-31 | the assigned class plays no part in the search |
| Teachers.Filtered | src/pages/Teachers.tsx:28-31 | an order-preserving subsequence in which every matching teacher appears as often as in the list and no other teacher appears |
| Teachers.EmptySearchKeepsAll | src/pages/Teachers.tsx:28-31 | an empty search keeps every teacher |
| Teachers.TeachersPage.constructor | src/pages/Teachers.tsx:13-19 | empty list, loading, empty search, modal closed, not editing, empty form, not saving |
| Teachers.TeachersPage.Load | src/pages/Teachers.tsx:21-24 | the list becomes the store's list and loading ends |
| Teachers.TeachersPage.SetSearch | src/pages/Teachers.tsx:84 | the search becomes the typed text |
| Teachers.TeachersPage.OpenAdd | src/pages/Teachers.tsx:33 | not editing, empty form, modal open |
| Teachers.TeachersPage.OpenEdit | src/pages/Teachers.tsx:34-38 | editing the teacher, the form holds its three fields, modal open |
| Teachers.TeachersPage.SetField | src/pages/Teachers.tsx:64 | the form changes in field `k` only |
| Teachers.TeachersPage.HandleSubmit | src/pages/Teachers.tsx:40-56 | update by `editing.id` when editing, else add; the modal closes and the list reloads only on success; `saving` is false either way |
| Teachers.TeachersPage.HandleDelete | src/pages/Teachers.tsx:58-62 | the store loses that id, then the list reloads |
| Classes.FieldsDetermineForm | src/pages/Classes.tsx:60 | two forms that agree on every key are equal |
| Classes.WithField | src/pages/Classes.tsx:60 | `setField(k)(v)` sets field `k` to `v` and no other field |
| Classes.FieldsOf | src/pages/Classes.tsx:32 | the form copies exactly grade, section and class teacher |
| Classes.ClassesPage.constructor | src/pages/Classes.tsx:14-19 | empty list, loading, modal closed, not editing, empty form, not saving |
| Classes.ClassesPage.Load | src/pages/Classes.tsx:22-25 | the list becomes the store's list and loading ends |
| Classes.ClassesPage.OpenAdd | src/pages/Classes.tsx:29 | not editing, `emptyClass` form, modal open |
| Classes.ClassesPage.OpenEdit | src/pages/Classes.tsx:30-34 | editing the class, the form holds its three fields, modal open |
| Classes.ClassesPage.SetField | src/pages/Classes.tsx:60 | the form changes in field `k` only |
| Classes.ClassesPage.HandleSubmit | src/pages/Classes.tsx:36-52 | `updateClass(editing.id, form)` when editing, else `addClass(form)`; the modal closes and the list reloads only on success; `saving` is false either way |
| Classes.ClassesPage.HandleDelete | src/pages/Classes.tsx:54-58 | `deleteClass`, then the list reloads |
| Auth.WithRole | src/hooks/useAuth.tsx:32 | only the role changes: id, name, email and avatar are kept; no user stays no user |
| Auth.WithRoleIdempotent | src/hooks/useAuth.tsx:32 | switching to a role twice is switching once |
| Auth.AuthProvider.constructor | src/hooks/useAuth.tsx:16-17 | no user, not loading |
| Auth.AuthProvider.Login | src/hooks/useAuth.tsx:19-27 | the user becomes what the store's `login` returns, and loading is false afterwards |
| Auth.AuthProvider.Logout | src/hooks/useAuth.tsx:29 | no user |
| Auth.AuthProvider.SwitchRole | src/hooks/useAuth.tsx:31-33 | the signed-in user's role changes and nothing else; without a user nothing happens |

## Left out

- Simulated latency (`delay`) and the `console.log` in `submitAttendance`: each store call is one atomic step.
- `Date.now()` and `new Date()`: the clock reading that makes a new id and the default attendance date are parameters (`now`, `today`). No uniqueness of ids is claimed, because the code gives none.
- `toLowerCase` is modelled on ASCII letters only; Unicode case folding is not modelled.
- JSX rendering, styling, icons, `toast` notifications, routing, the modal, form-field and state-display components, the login page and the dashboard page.
- Asynchronous interleavings: overlapping requests, a roster response that arrives after the class changed again, and the un-awaited `load()` after a save or delete, which the model runs at once.
- `Attendance.AttendancePage.SelectClass` requires the value to be "" or an encoded class whose grade and section contain no `|`, because the selector offers only those; the effect is modelled as running only when the value changes, as React's dependency list makes it.
- Keys of the attendance object are taken to be non-integer-like, so that `Object.entries` lists them in insertion order; the store's ids have that form.
- `setField` is modelled for the keys the forms use; a key outside the form would add a new property and is not modelled.
- `Auth.AuthProvider.Login` has no failure path, because the store's `login` cannot fail; the `finally` that clears `loading` is modelled on the success path only.
- Attendance.CountsMatchRoster: the counts are proved to add up to the roster size only when the roster's ids are distinct. The store does not enforce distinct ids, because two records added at the same clock reading get the same id. With a repeated id, the map holds one entry for both students, and the counts add up to the number of entries (`Attendance.CountsSum`).
- `ApiService.Api.GetRecentActivity` returns the fixed feed; nothing is computed.
- Lemmas that evaluate the full fixture lists (for example, class 10/A holding two students) are not included, because unfolding the literal lists is too costly for the verifier.
