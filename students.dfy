/** The students page (src/pages/Students.tsx): the search filter and the add/edit
    editor over `modalOpen`, `editing`, `form` and `saving`. */
module Students {
  import opened Types
  import opened Sequences
  import opened Strings
  import opened ApiService

  /** `emptyStudent`. */
  const EmptyStudent := StudentFields("", "", "", "", "")

  /** The keys `setField` is called with: "name", "rollNo", "class", "section", "parentPhone". */
  datatype StudentField = Name | RollNo | Grade | Section | ParentPhone

  function FieldValue(f: StudentFields, k: StudentField): string
  {
    match k
    case Name => f.name
    case RollNo => f.rollNo
    case Grade => f.grade
    case Section => f.section
    case ParentPhone => f.parentPhone
  }

  /** Two forms that agree on every field are the same form. */
  lemma FieldsDetermineForm(a: StudentFields, b: StudentFields)
    requires forall k :: FieldValue(a, k) == FieldValue(b, k)
    ensures a == b
  {
    assert FieldValue(a, Name) == FieldValue(b, Name);
    assert FieldValue(a, RollNo) == FieldValue(b, RollNo);
    assert FieldValue(a, Grade) == FieldValue(b, Grade);
    assert FieldValue(a, Section) == FieldValue(b, Section);
    assert FieldValue(a, ParentPhone) == FieldValue(b, ParentPhone);
  }

  /** `{ ...f, [key]: v }`: field `k` becomes `v`, every other field stays. */
  function WithField(f: StudentFields, k: StudentField, v: string): (r: StudentFields)
    ensures FieldValue(r, k) == v
    ensures forall k' :: k' != k ==> FieldValue(r, k') == FieldValue(f, k')
  {
    match k
    case Name => f.(name := v)
    case RollNo => f.(rollNo := v)
    case Grade => f.(grade := v)
    case Section => f.(section := v)
    case ParentPhone => f.(parentPhone := v)
  }

  /** The form `openEdit(s)` fills: the five editable fields of `s`. */
  function FieldsOf(s: Student): (f: StudentFields)
    ensures StudentWithId(f, s.id) == s
  {
    StudentFields(s.name, s.rollNo, s.grade, s.section, s.parentPhone)
  }

  /** Copying the fields of a stored record gives back the fields it was added with. */
  lemma FieldsOfWithId(f: StudentFields, id: string)
    ensures FieldsOf(StudentWithId(f, id)) == f
  {
  }

  /** The search predicate: the lower-cased name contains the lower-cased search, or
      the roll number or the class contains the search as typed. */
  predicate Matches(s: Student, search: string)
  {
    Includes(Lower(s.name), Lower(search)) || Includes(s.rollNo, search) || Includes(s.grade, search)
  }

  /** `filtered`: the students that match, in list order. */
  function Filtered(students: seq<Student>, search: string): (r: seq<Student>)
    ensures IsSubsequence(r, students)
    ensures forall s :: s in r <==> s in students && Matches(s, search)
    ensures forall s :: multiset(r)[s] == if Matches(s, search) then multiset(students)[s] else 0
  {
    Filter(students, (s: Student) => Matches(s, search))
  }

  /** An empty search keeps every student. */
  lemma EmptySearchKeepsAll(students: seq<Student>)
    ensures Filtered(students, "") == students
  {
    forall i | 0 <= i < |students| ensures Matches(students[i], "") {
      IncludesEmpty(Lower(students[i].name));
    }
  }

  /** The name matches whatever the case; the roll number only as typed. */
  lemma SearchCase()
    ensures Matches(Student("s2", "Diya Patel", "B7", "10", "A", ""), "DIYA")
    ensures !Matches(Student("s2", "Diya Patel", "B7", "10", "A", ""), "b7")
  {
    var s := Student("s2", "Diya Patel", "B7", "10", "A", "");
    assert Lower("DIYA") == "diya";
    assert Lower(s.name)[..4] == "diya";
    assert Lower("b7") == "b7";
    assert 'b' !in Lower(s.name) && 'b' !in s.rollNo && 'b' !in s.grade;
    if Includes(Lower(s.name), "b7") { IncludesHead(Lower(s.name), "b7"); }
    if Includes(s.rollNo, "b7") { IncludesHead(s.rollNo, "b7"); }
    if Includes(s.grade, "b7") { IncludesHead(s.grade, "b7"); }
  }

  /** The state of the students page. */
  class StudentsPage {
    var students: seq<Student>
    var loading: bool
    var search: string
    var modalOpen: bool
    var editing: Option<Student>
    var form: StudentFields
    var saving: bool

    constructor ()
      ensures students == [] && loading && search == ""
      ensures !modalOpen && editing == None && form == EmptyStudent && !saving
    {
      students := [];
      loading := true;
      search := "";
      modalOpen := false;
      editing := None;
      form := EmptyStudent;
      saving := false;
    }

    /** `load`: fetches the list from the store. */
    method Load(api: Api)
      modifies this`students, this`loading
      ensures students == api.students && !loading
    {
      loading := true;
      students := api.GetStudents();
      loading := false;
    }

    method SetSearch(q: string)
      modifies this`search
      ensures search == q
    {
      search := q;
    }

    method OpenAdd()
      modifies this`editing, this`form, this`modalOpen
      ensures editing == None && form == EmptyStudent && modalOpen
    {
      editing := None;
      form := EmptyStudent;
      modalOpen := true;
    }

    method OpenEdit(s: Student)
      modifies this`editing, this`form, this`modalOpen
      ensures editing == Some(s) && form == FieldsOf(s) && modalOpen
    {
      editing := Some(s);
      form := FieldsOf(s);
      modalOpen := true;
    }

    /** `setField(k)(v)`. */
    method SetField(k: StudentField, v: string)
      modifies this`form
      ensures form == WithField(old(form), k, v)
    {
      form := WithField(form, k, v);
    }

    /** `handleSubmit`: updates the record being edited, or adds the form with an
        id read from the clock; on success closes the modal and reloads; `saving`
        is cleared either way; a failed update is passed on. */
    method HandleSubmit(api: Api, now: nat) returns (outcome: Outcome)
      modifies this, api`students
      ensures !saving
      ensures editing == old(editing) && form == old(form) && search == old(search)
      ensures old(editing).None? ==>
                outcome == Pass &&
                api.students == old(api.students) + [StudentWithId(form, MintId('s', now))]
      ensures old(editing).Some? ==>
                match IndexOfId(old(api.students), StudentId, old(editing).value.id)
                case None => outcome == Fail("Student not found") && api.students == old(api.students)
                case Some(i) => (outcome == Pass &&
                  api.students == old(api.students)[i := MergeStudent(old(api.students)[i], StudentPatchOf(form))])
      ensures outcome == Pass ==> !modalOpen && students == api.students && !loading
      ensures outcome.Fail? ==> modalOpen == old(modalOpen) && students == old(students) &&
                                loading == old(loading)
    {
      saving := true;
      if editing.Some? {
        var r := api.UpdateStudent(editing.value.id, StudentPatchOf(form));
        if r.Err? {
          saving := false;
          return Fail(r.message);
        }
      } else {
        var added := api.AddStudent(form, now);
      }
      modalOpen := false;
      Load(api);
      saving := false;
      outcome := Pass;
    }

    /** `handleDelete`: deletes from the store, then reloads. */
    method HandleDelete(api: Api, id: string)
      modifies this`students, this`loading, api`students
      ensures api.students == WithoutId(old(api.students), StudentId, id)
      ensures students == api.students && !loading
    {
      api.DeleteStudent(id);
      Load(api);
    }
  }
}
