/** The attendance-marking page (src/pages/Attendance.tsx): the class selector's
    encoding, the per-student status object, toggling, bulk marking, the counts and
    the records built at submission. */
module Attendance {
  import opened Types
  import opened Sequences
  import opened Strings
  import opened ApiService

  /** One key of the attendance object with its status. */
  datatype Entry = Entry(studentId: string, status: Status)

  /** The attendance object `Record<string, "PRESENT" | "ABSENT">`, as its entries in
      the order `Object.entries` lists them (insertion order). */
  type AttendanceMap = seq<Entry>

  function Keys(m: AttendanceMap): seq<string>
  {
    seq(|m|, i requires 0 <= i < |m| => m[i].studentId)
  }

  function KeySet(m: AttendanceMap): set<string>
  {
    set e | e in m :: e.studentId
  }

  predicate DistinctKeys(m: AttendanceMap)
  {
    forall i, j :: 0 <= i < j < |m| ==> m[i].studentId != m[j].studentId
  }

  /** The ids of a roster, in roster order. */
  function RosterIds(roster: seq<Student>): seq<string>
  {
    seq(|roster|, i requires 0 <= i < |roster| => roster[i].id)
  }

  function RosterIdSet(roster: seq<Student>): set<string>
  {
    set s | s in roster :: s.id
  }

  predicate DistinctIds(roster: seq<Student>)
  {
    forall i, j :: 0 <= i < j < |roster| ==> roster[i].id != roster[j].id
  }

  /** Splitting off the first entry splits the key set the same way. */
  lemma KeySetCons(m: AttendanceMap)
    requires m != []
    ensures KeySet(m) == {m[0].studentId} + KeySet(m[1..])
    ensures Keys(m) == [m[0].studentId] + Keys(m[1..])
  {
    assert m == [m[0]] + m[1..];
  }

  /** `m[id]`, `None` standing for `undefined`. */
  function Lookup(m: AttendanceMap, id: string): Option<Status>
  {
    if m == [] then None
    else if m[0].studentId == id then Some(m[0].status)
    else Lookup(m[1..], id)
  }

  /** A lookup finds an entry exactly when the key is in the map. */
  lemma {:induction false} LookupFound(m: AttendanceMap, id: string)
    ensures Lookup(m, id).None? <==> id !in KeySet(m)
    ensures Lookup(m, id).Some? ==> Entry(id, Lookup(m, id).value) in m
  {
    if m != [] {
      KeySetCons(m);
      LookupFound(m[1..], id);
    }
  }

  /** In a map with distinct keys, the entry at position `i` is what a lookup finds. */
  lemma {:induction false} LookupAt(m: AttendanceMap, i: nat)
    requires DistinctKeys(m) && i < |m|
    ensures Lookup(m, m[i].studentId) == Some(m[i].status)
  {
    if i > 0 {
      LookupAt(m[1..], i - 1);
    }
  }

  /** `m[id] = st` on a JavaScript object: an existing key keeps its place and
      takes the new value, a new key goes last. */
  function Assign(m: AttendanceMap, id: string, st: Status): AttendanceMap
  {
    if m == [] then [Entry(id, st)]
    else if m[0].studentId == id then [Entry(id, st)] + m[1..]
    else [m[0]] + Assign(m[1..], id, st)
  }

  /** After `m[id] = st`, `id` reads `st` and every other key reads as before. */
  lemma {:induction false} AssignLookup(m: AttendanceMap, id: string, st: Status, k: string)
    ensures Lookup(Assign(m, id, st), k) == if k == id then Some(st) else Lookup(m, k)
  {
    if m != [] && m[0].studentId != id {
      AssignLookup(m[1..], id, st, k);
    }
  }

  /** `m[id] = st` adds `id` to the keys; an existing key keeps its place, a new key
      is appended. */
  lemma {:induction false} AssignKeys(m: AttendanceMap, id: string, st: Status)
    ensures KeySet(Assign(m, id, st)) == KeySet(m) + {id}
    ensures id in KeySet(m) ==> Keys(Assign(m, id, st)) == Keys(m)
    ensures id !in KeySet(m) ==> Assign(m, id, st) == m + [Entry(id, st)]
  {
    if m != [] {
      KeySetCons(m);
      var r := Assign(m, id, st);
      KeySetCons(r);
      if m[0].studentId != id {
        AssignKeys(m[1..], id, st);
        assert r[1..] == Assign(m[1..], id, st);
      } else {
        assert r[1..] == m[1..];
      }
    }
  }

  /** `m[id] = st` brings in no entry but `id: st`. */
  lemma {:induction false} AssignEntries(m: AttendanceMap, id: string, st: Status)
    ensures forall e :: e in Assign(m, id, st) ==> e == Entry(id, st) || e in m
  {
    if m != [] && m[0].studentId != id {
      AssignEntries(m[1..], id, st);
      assert Assign(m, id, st) == [m[0]] + Assign(m[1..], id, st);
    }
  }

  /** `m[id] = st` keeps the keys distinct. */
  lemma AssignDistinct(m: AttendanceMap, id: string, st: Status)
    requires DistinctKeys(m)
    ensures DistinctKeys(Assign(m, id, st))
  {
    AssignKeys(m, id, st);
    var r := Assign(m, id, st);
    if id in KeySet(m) {
      forall i | 0 <= i < |r| ensures r[i].studentId == m[i].studentId {
        assert Keys(r)[i] == Keys(m)[i];
      }
    } else {
      forall i | 0 <= i < |m| ensures m[i].studentId != id {
        assert m[i] in m;
      }
    }
  }

  /** The status `toggle` stores: `a[id] === "PRESENT" ? "ABSENT" : "PRESENT"`. */
  function Flipped(current: Option<Status>): Status
  {
    if current == Some(Present) then Absent else Present
  }

  /** `toggle(id)`'s update of the map. */
  function Toggled(m: AttendanceMap, id: string): AttendanceMap
  {
    Assign(m, id, Flipped(Lookup(m, id)))
  }

  /** Toggling flips the entry for `id` (an id not yet in the map becomes PRESENT,
      appended last) and leaves every other entry alone. */
  lemma ToggleEffect(m: AttendanceMap, id: string)
    ensures Lookup(Toggled(m, id), id) == Some(if Lookup(m, id) == Some(Present) then Absent else Present)
    ensures forall k :: k != id ==> Lookup(Toggled(m, id), k) == Lookup(m, k)
    ensures id !in KeySet(m) ==> Toggled(m, id) == m + [Entry(id, Present)]
    ensures id in KeySet(m) ==> Keys(Toggled(m, id)) == Keys(m)
  {
    var st := Flipped(Lookup(m, id));
    AssignLookup(m, id, st, id);
    forall k | k != id ensures Lookup(Toggled(m, id), k) == Lookup(m, k) {
      AssignLookup(m, id, st, k);
    }
    LookupFound(m, id);
    AssignKeys(m, id, st);
  }

  /** Toggling an id already in the map twice gives back the map. */
  lemma {:induction false} ToggleTwice(m: AttendanceMap, id: string)
    requires id in KeySet(m)
    ensures Toggled(Toggled(m, id), id) == m
  {
    KeySetCons(m);
    if m[0].studentId != id {
      ToggleTwice(m[1..], id);
      assert Toggled(m, id) == [m[0]] + Toggled(m[1..], id);
      assert Toggled(m, id)[1..] == Toggled(m[1..], id);
      assert m == [m[0]] + m[1..];
    } else {
      assert m == [m[0]] + m[1..];
      match m[0].status
      case Present =>
      case Absent =>
    }
  }

  /** The map the roster-load effect (and `markAll`) builds: `forEach` writes
      `st` under every roster id, in roster order. */
  function Uniform(roster: seq<Student>, st: Status): AttendanceMap
  {
    if roster == [] then []
    else Assign(Uniform(roster[..|roster| - 1], st), roster[|roster| - 1].id, st)
  }

  /** Splitting off the last student splits the roster's ids the same way. */
  lemma RosterSnoc(roster: seq<Student>)
    requires roster != []
    ensures RosterIdSet(roster) == RosterIdSet(roster[..|roster| - 1]) + {roster[|roster| - 1].id}
    ensures RosterIds(roster) == RosterIds(roster[..|roster| - 1]) + [roster[|roster| - 1].id]
    ensures DistinctIds(roster) ==> DistinctIds(roster[..|roster| - 1])
    ensures DistinctIds(roster) ==> roster[|roster| - 1].id !in RosterIdSet(roster[..|roster| - 1])
  {
    var n := |roster| - 1;
    assert roster == roster[..n] + [roster[n]];
    if DistinctIds(roster) {
      forall s | s in roster[..n] ensures s.id != roster[n].id {
        var j :| 0 <= j < n && roster[..n][j] == s;
        assert roster[j] == s;
      }
    }
  }

  /** The freshly built map has exactly the roster's ids as keys, once each, all
      with status `st`; with distinct roster ids, in roster order. */
  lemma {:induction false} UniformSpec(roster: seq<Student>, st: Status)
    ensures DistinctKeys(Uniform(roster, st))
    ensures KeySet(Uniform(roster, st)) == RosterIdSet(roster)
    ensures forall e :: e in Uniform(roster, st) ==> e.status == st
    ensures DistinctIds(roster) ==> Keys(Uniform(roster, st)) == RosterIds(roster)
    decreases |roster|
  {
    if roster != [] {
      var n := |roster| - 1;
      UniformSpec(roster[..n], st);
      RosterSnoc(roster);
      AssignKeys(Uniform(roster[..n], st), roster[n].id, st);
      AssignEntries(Uniform(roster[..n], st), roster[n].id, st);
      AssignDistinct(Uniform(roster[..n], st), roster[n].id, st);
      if DistinctIds(roster) {
        var prefix := Uniform(roster[..n], st);
        assert Keys(prefix + [Entry(roster[n].id, st)]) == Keys(prefix) + [roster[n].id];
      }
    }
  }

  /** With distinct ids the map has one entry per roster student. */
  lemma UniformSize(roster: seq<Student>, st: Status)
    requires DistinctIds(roster)
    ensures |Uniform(roster, st)| == |roster|
  {
    UniformSpec(roster, st);
    assert |Keys(Uniform(roster, st))| == |RosterIds(roster)|;
  }

  /** The `forEach` loop that fills a fresh attendance object with one status. */
  method BuildUniform(roster: seq<Student>, st: Status) returns (m: AttendanceMap)
    ensures m == Uniform(roster, st)
    ensures KeySet(m) == RosterIdSet(roster) && DistinctKeys(m)
    ensures forall e :: e in m ==> e.status == st
  {
    UniformSpec(roster, st);
    m := [];
    var i := 0;
    while i < |roster|
      invariant 0 <= i <= |roster|
      invariant m == Uniform(roster[..i], st)
    {
      assert roster[..i + 1][..i] == roster[..i];
      m := Assign(m, roster[i].id, st);
      i := i + 1;
    }
    assert roster[..|roster|] == roster;
  }

  /** `Object.values(attendance)`. */
  function Values(m: AttendanceMap): seq<Status>
  {
    seq(|m|, i requires 0 <= i < |m| => m[i].status)
  }

  /** `values.filter(v => v === st).length`. */
  function CountOf(vs: seq<Status>, st: Status): nat
  {
    |Filter(vs, (v: Status) => v == st)|
  }

  function PresentCount(m: AttendanceMap): nat
  {
    CountOf(Values(m), Present)
  }

  function AbsentCount(m: AttendanceMap): nat
  {
    CountOf(Values(m), Absent)
  }

  lemma {:induction false} CountOfSum(vs: seq<Status>)
    ensures CountOf(vs, Present) + CountOf(vs, Absent) == |vs|
  {
    if vs != [] {
      CountOfSum(vs[1..]);
    }
  }

  /** The present and absent counts add up to the number of entries. */
  lemma CountsSum(m: AttendanceMap)
    ensures PresentCount(m) + AbsentCount(m) == |m|
  {
    CountOfSum(Values(m));
  }

  /** A list holding one status throughout counts every element under it and
      none under the other. */
  lemma {:induction false} CountOfConstant(vs: seq<Status>, st: Status)
    requires forall i :: 0 <= i < |vs| ==> vs[i] == st
    ensures CountOf(vs, st) == |vs|
    ensures CountOf(vs, if st == Present then Absent else Present) == 0
  {
    if vs != [] {
      CountOfConstant(vs[1..], st);
    }
  }

  /** A map with distinct keys has as many keys as entries. */
  lemma {:induction false} DistinctKeysCard(m: AttendanceMap)
    requires DistinctKeys(m)
    ensures |KeySet(m)| == |m|
  {
    if m != [] {
      KeySetCons(m);
      forall e | e in m[1..] ensures e.studentId != m[0].studentId {
        var j :| 0 <= j < |m[1..]| && m[1..][j] == e;
        assert m[j + 1] == e;
      }
      DistinctKeysCard(m[1..]);
    }
  }

  /** A roster with distinct ids has as many ids as students. */
  lemma {:induction false} DistinctIdsCard(roster: seq<Student>)
    requires DistinctIds(roster)
    ensures |RosterIdSet(roster)| == |roster|
    decreases |roster|
  {
    if roster != [] {
      RosterSnoc(roster);
      DistinctIdsCard(roster[..|roster| - 1]);
    }
  }

  /** A map with one entry per loaded student (the page's `Consistent` state, which
      every operation keeps) has one entry per student when the ids are distinct. */
  lemma ConsistentSize(m: AttendanceMap, roster: seq<Student>)
    requires DistinctKeys(m) && KeySet(m) == RosterIdSet(roster) && DistinctIds(roster)
    ensures |m| == |roster|
  {
    DistinctKeysCard(m);
    DistinctIdsCard(roster);
  }

  /** In that state, after any sequence of `toggle` and `markAll`, the present and
      absent counts add up to the roster size. */
  lemma CountsMatchRoster(m: AttendanceMap, roster: seq<Student>)
    requires DistinctKeys(m) && KeySet(m) == RosterIdSet(roster) && DistinctIds(roster)
    ensures PresentCount(m) + AbsentCount(m) == |roster|
  {
    ConsistentSize(m, roster);
    CountsSum(m);
  }

  /** Right after loading (or `markAll(st)`) every entry counts under `st`. */
  lemma UniformCounts(roster: seq<Student>, st: Status)
    ensures CountOf(Values(Uniform(roster, st)), st) == |Uniform(roster, st)|
    ensures CountOf(Values(Uniform(roster, st)), if st == Present then Absent else Present) == 0
  {
    var m := Uniform(roster, st);
    UniformSpec(roster, st);
    forall i | 0 <= i < |m| ensures Values(m)[i] == st {
      assert m[i] in m;
    }
    CountOfConstant(Values(m), st);
  }

  /** `Object.entries(attendance).map(([studentId, status]) => ({ studentId, date, status }))`. */
  function Records(m: AttendanceMap, date: string): (rs: seq<AttendanceRecord>)
    ensures |rs| == |m|
    ensures forall i :: 0 <= i < |rs| ==> rs[i].date == date
    ensures forall i :: 0 <= i < |rs| ==> rs[i].studentId == Keys(m)[i]
    ensures Values(m) == seq(|rs|, i requires 0 <= i < |rs| => rs[i].status)
  {
    seq(|m|, i requires 0 <= i < |m| => AttendanceRecord(m[i].studentId, date, m[i].status))
  }

  /** Each record carries the status the map holds for its student. */
  lemma RecordsAgreeWithMap(m: AttendanceMap, date: string)
    requires DistinctKeys(m)
    ensures forall r :: r in Records(m, date) ==> Lookup(m, r.studentId) == Some(r.status)
  {
    var rs := Records(m, date);
    forall r | r in rs ensures Lookup(m, r.studentId) == Some(r.status) {
      var i :| 0 <= i < |rs| && rs[i] == r;
      LookupAt(m, i);
    }
  }

  /** A roster of three, S2 toggled, submitted for one date. */
  lemma ToggleThenSubmitExample(s1: Student, s2: Student, s3: Student, date: string)
    requires s1.id != s2.id && s2.id != s3.id && s1.id != s3.id
    ensures Records(Toggled(Uniform([s1, s2, s3], Present), s2.id), date) ==
            [AttendanceRecord(s1.id, date, Present),
             AttendanceRecord(s2.id, date, Absent),
             AttendanceRecord(s3.id, date, Present)]
  {
    var e1, e2, e3 := Entry(s1.id, Present), Entry(s2.id, Present), Entry(s3.id, Present);
    assert [s1, s2, s3][..2] == [s1, s2];
    assert [s1, s2][..1] == [s1];
    assert [s1][..0] == [];
    assert Uniform([s1], Present) == [e1];
    assert Uniform([s1, s2], Present) == Assign([e1], s2.id, Present) == [e1, e2];
    var m := Uniform([s1, s2, s3], Present);
    assert KeySet([e1, e2]) == {s1.id, s2.id};
    AssignKeys([e1, e2], s3.id, Present);
    assert m == [e1, e2, e3];
    assert Lookup(m, s2.id) == Some(Present);
    assert [e2, e3][1..] == [e3];
    assert Assign([e2, e3], s2.id, Absent) == [Entry(s2.id, Absent), e3];
    assert Toggled(m, s2.id) == [e1, Entry(s2.id, Absent), e3];
  }

  /** The option value of a class: `${grade}|${section}`. */
  function EncodeClassOption(grade: string, section: string): string
  {
    grade + "|" + section
  }

  /** `const [grade, section] = value.split("|")`; a missing second piece is `undefined`. */
  function DecodeClassOption(value: string): (string, Option<string>)
  {
    var parts := Split(value, '|');
    (parts[0], if |parts| >= 2 then Some(parts[1]) else None)
  }

  /** Decoding an option value gives back its grade and section when neither contains `|`. */
  lemma ClassOptionRoundTrip(grade: string, section: string)
    requires '|' !in grade && '|' !in section
    ensures DecodeClassOption(EncodeClassOption(grade, section)) == (grade, Some(section))
  {
    assert EncodeClassOption(grade, section) == Join([grade, section], '|');
    SplitJoin([grade, section], '|');
  }

  /** Without that proviso the round trip fails: grade "1|0", section "A" decodes as ("1", "0"). */
  lemma ClassOptionWithBar()
    ensures DecodeClassOption(EncodeClassOption("1|0", "A")) == ("1", Some("0"))
  {
    var v := EncodeClassOption("1|0", "A");
    assert v == Join(["1", "0", "A"], '|');
    SplitJoin(["1", "0", "A"], '|');
  }

  /** The values the class selector can produce besides "": encoded classes whose
      grade and section contain no `|`. */
  ghost predicate IsClassOption(value: string)
  {
    exists grade, section :: '|' !in grade && '|' !in section && value == EncodeClassOption(grade, section)
  }

  /** An option value decodes to the one grade and section that encode to it. */
  lemma ClassOptionDecodes(value: string)
    requires IsClassOption(value)
    ensures DecodeClassOption(value).1.Some?
    ensures forall grade, section ::
              '|' !in grade && '|' !in section && value == EncodeClassOption(grade, section) ==>
              DecodeClassOption(value) == (grade, Some(section))
  {
    forall grade, section | '|' !in grade && '|' !in section && value == EncodeClassOption(grade, section)
      ensures DecodeClassOption(value) == (grade, Some(section))
    {
      ClassOptionRoundTrip(grade, section);
    }
  }

  /** The component state of the attendance page. */
  class AttendancePage {
    var selectedClass: string
    var selectedDate: string
    var students: seq<Student>
    var attendance: AttendanceMap
    var loadingStudents: bool
    var submitting: bool

    /** One entry per loaded student, and no other. */
    ghost predicate Consistent()
      reads this
    {
      DistinctKeys(attendance) && KeySet(attendance) == RosterIdSet(students)
    }

    /** Nothing selected; the date defaults to the day given (read from the clock in the source). */
    constructor (today: string)
      ensures selectedClass == "" && selectedDate == today
      ensures students == [] && attendance == []
      ensures !loadingStudents && !submitting
      ensures Consistent()
    {
      selectedClass := "";
      selectedDate := today;
      students := [];
      attendance := [];
      loadingStudents := false;
      submitting := false;
    }

    /** Choosing a class in the selector, with the effect that depends on
        `selectedClass`: it runs when the value changes, does nothing for "", and
        otherwise loads the roster and marks everyone PRESENT. */
    method SelectClass(value: string, api: Api)
      requires value == "" || IsClassOption(value)
      modifies this
      ensures selectedClass == value
      ensures selectedDate == old(selectedDate) && submitting == old(submitting)
      ensures value == "" || value == old(selectedClass) ==>
                students == old(students) && attendance == old(attendance) &&
                loadingStudents == old(loadingStudents)
      ensures value != "" && value != old(selectedClass) ==>
                !loadingStudents && Consistent() && attendance == Uniform(students, Present) &&
                forall grade, section ::
                  ('|' !in grade && '|' !in section && value == EncodeClassOption(grade, section)) ==>
                  students == StudentsInClass(api.students, grade, section)
      ensures old(Consistent()) ==> Consistent()
    {
      var previous := selectedClass;
      selectedClass := value;
      if value == "" || value == previous {
        return;
      }
      ClassOptionDecodes(value);
      var decoded := DecodeClassOption(value);
      LoadRoster(decoded.0, decoded.1.value, api);
    }

    /** The body of the effect for a selected class: fetch that class's students,
        then mark every one PRESENT. */
    method LoadRoster(grade: string, section: string, api: Api)
      modifies this`students, this`attendance, this`loadingStudents
      ensures students == StudentsInClass(api.students, grade, section)
      ensures attendance == Uniform(students, Present)
      ensures !loadingStudents && Consistent()
    {
      loadingStudents := true;
      var roster := api.GetStudentsByClass(grade, section);
      students := roster;
      var initial := BuildUniform(roster, Present);
      attendance := initial;
      loadingStudents := false;
    }

    /** Changing the date touches nothing else; the map is not reset. */
    method SelectDate(date: string)
      modifies this`selectedDate
      ensures selectedDate == date
    {
      selectedDate := date;
    }

    method Toggle(id: string)
      modifies this`attendance
      ensures attendance == Toggled(old(attendance), id)
      ensures old(Consistent()) && id in RosterIdSet(students) ==> Consistent()
    {
      AssignKeys(attendance, id, Flipped(Lookup(attendance, id)));
      if DistinctKeys(attendance) {
        AssignDistinct(attendance, id, Flipped(Lookup(attendance, id)));
      }
      attendance := Toggled(attendance, id);
    }

    /** `markAll(st)`: a fresh map with `st` for every loaded student, whatever the
        map held before. */
    method MarkAll(st: Status)
      modifies this`attendance
      ensures attendance == Uniform(students, st)
      ensures Consistent()
    {
      var updated := BuildUniform(students, st);
      attendance := updated;
    }

    /** `handleSubmit`: builds the records from the map and the date read now and
        hands them to the store in one call. */
    method HandleSubmit(api: Api) returns (records: seq<AttendanceRecord>)
      modifies this`submitting
      ensures records == Records(attendance, selectedDate)
      ensures !submitting
    {
      submitting := true;
      records := Records(attendance, selectedDate);
      api.SubmitAttendance(records);
      submitting := false;
    }
  }
}
