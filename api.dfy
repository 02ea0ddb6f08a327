/** The in-memory data store behind every page (src/services/api.ts).
    Each asynchronous call is one atomic step; the simulated latency is not modelled. */
module ApiService {
  import opened Types
  import opened Sequences
  import opened Strings
  import MockData

  /** The percentage the dashboard shows; the store does not compute it. */
  const AttendancePercent: nat := 87

  /** `${prefix}${Date.now()}`: a new id from one clock reading. */
  function MintId(prefix: char, now: nat): (id: string)
    ensures |id| >= 2 && id[0] == prefix
    ensures forall i :: 1 <= i < |id| ==> '0' <= id[i] <= '9'
    ensures ParseDecimal(id[1..]) == now
  {
    var id := [prefix] + Decimal(now);
    assert id[1..] == Decimal(now);
    ParseDecimalOfDecimal(now);
    id
  }

  /** Ids minted with the same prefix collide exactly when the clock readings do;
      nothing else keeps them apart. */
  lemma MintIdCollision(prefix: char, m: nat, n: nat)
    ensures MintId(prefix, m) == MintId(prefix, n) <==> m == n
  {
    if MintId(prefix, m) == MintId(prefix, n) {
      assert Decimal(m) == MintId(prefix, m)[1..];
      DecimalInjective(m, n);
    }
  }

  function StudentId(s: Student): string { s.id }
  function TeacherId(t: Teacher): string { t.id }
  function ClassId(c: ClassSection): string { c.id }

  /** `xs.findIndex(x => x.id === id)`. */
  function IndexOfId<T>(xs: seq<T>, idOf: T -> string, id: string): (r: Option<nat>)
    ensures r.Some? ==> r.value < |xs| && idOf(xs[r.value]) == id
    ensures r.Some? ==> forall j :: 0 <= j < r.value ==> idOf(xs[j]) != id
    ensures r.None? <==> forall j :: 0 <= j < |xs| ==> idOf(xs[j]) != id
  {
    FindIndex(xs, (x: T) => idOf(x) == id)
  }

  /** `xs.filter(x => x.id !== id)`. */
  function WithoutId<T(==,!new)>(xs: seq<T>, idOf: T -> string, id: string): (r: seq<T>)
    ensures IsSubsequence(r, xs)
    ensures forall x :: x in r <==> x in xs && idOf(x) != id
    ensures forall x :: multiset(r)[x] == if idOf(x) != id then multiset(xs)[x] else 0
    ensures (forall j :: 0 <= j < |xs| ==> idOf(xs[j]) != id) ==> r == xs
  {
    Filter(xs, (x: T) => idOf(x) != id)
  }

  /** Deleting an id a second time changes nothing. */
  lemma WithoutIdIdempotent<T(!new)>(xs: seq<T>, idOf: T -> string, id: string)
    ensures WithoutId(WithoutId(xs, idOf, id), idOf, id) == WithoutId(xs, idOf, id)
  {
    FilterIdempotent(xs, (x: T) => idOf(x) != id);
  }

  /** `xs.filter(s => s.class === grade && s.section === section)`. */
  function StudentsInClass(xs: seq<Student>, grade: string, section: string): (r: seq<Student>)
    ensures IsSubsequence(r, xs)
    ensures forall s :: s in r <==> s in xs && s.grade == grade && s.section == section
    ensures forall s :: multiset(r)[s] == if s.grade == grade && s.section == section then multiset(xs)[s] else 0
  {
    Filter(xs, (s: Student) => s.grade == grade && s.section == section)
  }

  /** `{ ...fields, id }`. */
  function StudentWithId(f: StudentFields, id: string): Student
  {
    Student(id, f.name, f.rollNo, f.grade, f.section, f.parentPhone)
  }

  function TeacherWithId(f: TeacherFields, id: string): Teacher
  {
    Teacher(id, f.name, f.subject, f.assignedClass)
  }

  function ClassWithId(f: ClassFields, id: string): ClassSection
  {
    ClassSection(id, f.grade, f.section, f.classTeacher)
  }

  /** A field of a partial object overrides the existing one when present. */
  function Overlay(base: string, patch: Option<string>): string
  {
    if patch.Some? then patch.value else base
  }

  /** `{ ...s, ...data }`. */
  function MergeStudent(s: Student, data: StudentPatch): Student
  {
    Student(Overlay(s.id, data.id), Overlay(s.name, data.name), Overlay(s.rollNo, data.rollNo),
            Overlay(s.grade, data.grade), Overlay(s.section, data.section),
            Overlay(s.parentPhone, data.parentPhone))
  }

  function MergeTeacher(t: Teacher, data: TeacherPatch): Teacher
  {
    Teacher(Overlay(t.id, data.id), Overlay(t.name, data.name), Overlay(t.subject, data.subject),
            Overlay(t.assignedClass, data.assignedClass))
  }

  function MergeClass(c: ClassSection, data: ClassPatch): ClassSection
  {
    ClassSection(Overlay(c.id, data.id), Overlay(c.grade, data.grade),
                 Overlay(c.section, data.section), Overlay(c.classTeacher, data.classTeacher))
  }

  /** A form object handed to an update call: every editable field present, no id. */
  function StudentPatchOf(f: StudentFields): StudentPatch
  {
    StudentPatch(None, Some(f.name), Some(f.rollNo), Some(f.grade), Some(f.section), Some(f.parentPhone))
  }

  function TeacherPatchOf(f: TeacherFields): TeacherPatch
  {
    TeacherPatch(None, Some(f.name), Some(f.subject), Some(f.assignedClass))
  }

  function ClassPatchOf(f: ClassFields): ClassPatch
  {
    ClassPatch(None, Some(f.grade), Some(f.section), Some(f.classTeacher))
  }

  /** Updating with a whole form keeps the id and takes every field from the form. */
  lemma MergeFormKeepsId(s: Student, t: Teacher, c: ClassSection,
                         fs: StudentFields, ft: TeacherFields, fc: ClassFields)
    ensures MergeStudent(s, StudentPatchOf(fs)) == StudentWithId(fs, s.id)
    ensures MergeTeacher(t, TeacherPatchOf(ft)) == TeacherWithId(ft, t.id)
    ensures MergeClass(c, ClassPatchOf(fc)) == ClassWithId(fc, c.id)
  {
  }

  /** The module-level arrays of the store and the fixed user list. */
  class Api {
    const users: seq<User>
    var students: seq<Student>
    var teachers: seq<Teacher>
    var classes: seq<ClassSection>

    /** The store starts as copies of the fixtures. */
    constructor ()
      ensures users == MockData.Users
      ensures students == MockData.Students
      ensures teachers == MockData.Teachers
      ensures classes == MockData.Classes
    {
      users := MockData.Users;
      students := MockData.Students;
      teachers := MockData.Teachers;
      classes := MockData.Classes;
    }

    /** `login`: the first user with that email, otherwise the first user; the
        password is not looked at. */
    function Login(email: string, password: string): (r: Option<User>)
      ensures r.None? <==> users == []
      ensures forall i :: 0 <= i < |users| && users[i].email == email ==>
                exists k :: 0 <= k <= i && r == Some(users[k]) && users[k].email == email
      ensures (forall i :: 0 <= i < |users| ==> users[i].email != email) && users != [] ==>
                r == Some(users[0])
    {
      match Find(users, (u: User) => u.email == email)
      case Some(u) => Some(u)
      case None => if users == [] then None else Some(users[0])
    }

    /** `getDashboardStats`: the three list lengths and the constant percentage. */
    method GetDashboardStats() returns (stats: DashboardStats)
      ensures stats.totalStudents == |students|
      ensures stats.totalTeachers == |teachers|
      ensures stats.totalClasses == |classes|
      ensures stats.attendancePercent == AttendancePercent
    {
      stats := DashboardStats(|students|, |teachers|, |classes|, AttendancePercent);
    }

    /** `getRecentActivity`: the fixed activity feed. */
    method GetRecentActivity() returns (feed: seq<Activity>)
      ensures feed == MockData.Activities
    {
      feed := MockData.Activities;
    }

    /** `getStudents`: a copy of the list. */
    method GetStudents() returns (r: seq<Student>)
      ensures r == students
    {
      r := students;
    }

    /** `addStudent`: appends the fields with a fresh `s…` id. */
    method AddStudent(fields: StudentFields, now: nat) returns (r: Student)
      modifies this`students
      ensures r == StudentWithId(fields, MintId('s', now))
      ensures students == old(students) + [r]
    {
      r := StudentWithId(fields, MintId('s', now));
      students := students + [r];
    }

    /** `updateStudent`: overlays `data` on the first student with that id,
        or throws "Student not found". */
    method UpdateStudent(id: string, data: StudentPatch) returns (r: Result<Student>)
      modifies this`students
      ensures match IndexOfId(old(students), StudentId, id)
        case None => r == Err("Student not found") && students == old(students)
        case Some(i) => r == Ok(MergeStudent(old(students)[i], data)) &&
                        students == old(students)[i := r.value]
    {
      var idx := IndexOfId(students, StudentId, id);
      if idx.None? {
        return Err("Student not found");
      }
      var i := idx.value;
      students := students[i := MergeStudent(students[i], data)];
      r := Ok(students[i]);
    }

    /** `deleteStudent`: keeps every student whose id differs. */
    method DeleteStudent(id: string)
      modifies this`students
      ensures students == WithoutId(old(students), StudentId, id)
    {
      students := WithoutId(students, StudentId, id);
    }

    method GetTeachers() returns (r: seq<Teacher>)
      ensures r == teachers
    {
      r := teachers;
    }

    method AddTeacher(fields: TeacherFields, now: nat) returns (r: Teacher)
      modifies this`teachers
      ensures r == TeacherWithId(fields, MintId('t', now))
      ensures teachers == old(teachers) + [r]
    {
      r := TeacherWithId(fields, MintId('t', now));
      teachers := teachers + [r];
    }

    method UpdateTeacher(id: string, data: TeacherPatch) returns (r: Result<Teacher>)
      modifies this`teachers
      ensures match IndexOfId(old(teachers), TeacherId, id)
        case None => r == Err("Teacher not found") && teachers == old(teachers)
        case Some(i) => r == Ok(MergeTeacher(old(teachers)[i], data)) &&
                        teachers == old(teachers)[i := r.value]
    {
      var idx := IndexOfId(teachers, TeacherId, id);
      if idx.None? {
        return Err("Teacher not found");
      }
      var i := idx.value;
      teachers := teachers[i := MergeTeacher(teachers[i], data)];
      r := Ok(teachers[i]);
    }

    method DeleteTeacher(id: string)
      modifies this`teachers
      ensures teachers == WithoutId(old(teachers), TeacherId, id)
    {
      teachers := WithoutId(teachers, TeacherId, id);
    }

    method GetClasses() returns (r: seq<ClassSection>)
      ensures r == classes
    {
      r := classes;
    }

    method AddClass(fields: ClassFields, now: nat) returns (r: ClassSection)
      modifies this`classes
      ensures r == ClassWithId(fields, MintId('c', now))
      ensures classes == old(classes) + [r]
    {
      r := ClassWithId(fields, MintId('c', now));
      classes := classes + [r];
    }

    method UpdateClass(id: string, data: ClassPatch) returns (r: Result<ClassSection>)
      modifies this`classes
      ensures match IndexOfId(old(classes), ClassId, id)
        case None => r == Err("Class not found") && classes == old(classes)
        case Some(i) => r == Ok(MergeClass(old(classes)[i], data)) &&
                        classes == old(classes)[i := r.value]
    {
      var idx := IndexOfId(classes, ClassId, id);
      if idx.None? {
        return Err("Class not found");
      }
      var i := idx.value;
      classes := classes[i := MergeClass(classes[i], data)];
      r := Ok(classes[i]);
    }

    method DeleteClass(id: string)
      modifies this`classes
      ensures classes == WithoutId(old(classes), ClassId, id)
    {
      classes := WithoutId(classes, ClassId, id);
    }

    /** `getStudentsByClass`: the stored students of one grade and section, in store order. */
    method GetStudentsByClass(grade: string, section: string) returns (r: seq<Student>)
      ensures r == StudentsInClass(students, grade, section)
    {
      r := StudentsInClass(students, grade, section);
    }

    /** `submitAttendance`: only logs the records; the store is left as it was. */
    method SubmitAttendance(records: seq<AttendanceRecord>)
      ensures unchanged(this)
    {
    }
  }
}
