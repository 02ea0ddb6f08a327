/** The teachers page (src/pages/Teachers.tsx): the search filter and the add/edit
    editor over `modalOpen`, `editing`, `form` and `saving`. */
module Teachers {
  import opened Types
  import opened Sequences
  import opened Strings
  import opened ApiService

  /** `emptyTeacher`. */
  const EmptyTeacher := TeacherFields("", "", "")

  /** The keys `setField` is called with: "name", "subject", "assignedClass". */
  datatype TeacherField = Name | Subject | AssignedClass

  function FieldValue(f: TeacherFields, k: TeacherField): string
  {
    match k
    case Name => f.name
    case Subject => f.subject
    case AssignedClass => f.assignedClass
  }

  /** Two forms that agree on every field are the same form. */
  lemma FieldsDetermineForm(a: TeacherFields, b: TeacherFields)
    requires forall k :: FieldValue(a, k) == FieldValue(b, k)
    ensures a == b
  {
    assert FieldValue(a, Name) == FieldValue(b, Name);
    assert FieldValue(a, Subject) == FieldValue(b, Subject);
    assert FieldValue(a, AssignedClass) == FieldValue(b, AssignedClass);
  }

  /** `{ ...f, [key]: v }`: field `k` becomes `v`, every other field stays. */
  function WithField(f: TeacherFields, k: TeacherField, v: string): (r: TeacherFields)
    ensures FieldValue(r, k) == v
    ensures forall k' :: k' != k ==> FieldValue(r, k') == FieldValue(f, k')
  {
    match k
    case Name => f.(name := v)
    case Subject => f.(subject := v)
    case AssignedClass => f.(assignedClass := v)
  }

  /** The form `openEdit(t)` fills: `name`, `subject` and `assignedClass` of `t`. */
  function FieldsOf(t: Teacher): (f: TeacherFields)
    ensures TeacherWithId(f, t.id) == t
  {
    TeacherFields(t.name, t.subject, t.assignedClass)
  }

  /** The search predicate: the lower-cased name or subject contains the lower-cased search. */
  predicate Matches(t: Teacher, search: string)
  {
    Includes(Lower(t.name), Lower(search)) || Includes(Lower(t.subject), Lower(search))
  }

  /** The assigned class plays no part in the search. */
  lemma AssignedClassNotSearched(t: Teacher, other: string, search: string)
    ensures Matches(t.(assignedClass := other), search) == Matches(t, search)
  {
  }

  /** Both sides of the teacher search are lower-cased, so the case of the typed
      search makes no difference. */
  lemma SearchIgnoresCase(t: Teacher, search: string)
    ensures Matches(t, Lower(search)) == Matches(t, search)
  {
    LowerIdempotent(search);
  }

  /** `filtered`: the teachers that match, in list order. */
  function Filtered(teachers: seq<Teacher>, search: string): (r: seq<Teacher>)
    ensures IsSubsequence(r, teachers)
    ensures forall t :: t in r <==> t in teachers && Matches(t, search)
    ensures forall t :: multiset(r)[t] == if Matches(t, search) then multiset(teachers)[t] else 0
  {
    Filter(teachers, (t: Teacher) => Matches(t, search))
  }

  /** An empty search keeps every teacher. */
  lemma EmptySearchKeepsAll(teachers: seq<Teacher>)
    ensures Filtered(teachers, "") == teachers
  {
    forall i | 0 <= i < |teachers| ensures Matches(teachers[i], "") {
      IncludesEmpty(Lower(teachers[i].name));
    }
  }

  /** The state of the teachers page. */
  class TeachersPage {
    var teachers: seq<Teacher>
    var loading: bool
    var search: string
    var modalOpen: bool
    var editing: Option<Teacher>
    var form: TeacherFields
    var saving: bool

    constructor ()
      ensures teachers == [] && loading && search == ""
      ensures !modalOpen && editing == None && form == EmptyTeacher && !saving
    {
      teachers := [];
      loading := true;
      search := "";
      modalOpen := false;
      editing := None;
      form := EmptyTeacher;
      saving := false;
    }

    /** `load`: fetches the list from the store. */
    method Load(api: Api)
      modifies this`teachers, this`loading
      ensures teachers == api.teachers && !loading
    {
      loading := true;
      teachers := api.GetTeachers();
      loading := false;
    }

    method SetSearch(q: string)
      modifies this`search
      ensures search == q
    {
      search := q;
    }

    method OpenAdd()
      modifies this`editing, this`form, this`modalOpen
      ensures editing == None && form == EmptyTeacher && modalOpen
    {
      editing := None;
      form := EmptyTeacher;
      modalOpen := true;
    }

    method OpenEdit(t: Teacher)
      modifies this`editing, this`form, this`modalOpen
      ensures editing == Some(t) && form == FieldsOf(t) && modalOpen
    {
      editing := Some(t);
      form := FieldsOf(t);
      modalOpen := true;
    }

    /** `setField(k)(v)`. */
    method SetField(k: TeacherField, v: string)
      modifies this`form
      ensures form == WithField(old(form), k, v)
    {
      form := WithField(form, k, v);
    }

    /** `handleSubmit`: updates the record being edited, or adds the form with an
        id read from the clock; on success closes the modal and reloads; `saving`
        is cleared either way; a failed update is passed on. */
    method HandleSubmit(api: Api, now: nat) returns (outcome: Outcome)
      modifies this, api`teachers
      ensures !saving
      ensures editing == old(editing) && form == old(form) && search == old(search)
      ensures old(editing).None? ==>
                outcome == Pass &&
                api.teachers == old(api.teachers) + [TeacherWithId(form, MintId('t', now))]
      ensures old(editing).Some? ==>
                match IndexOfId(old(api.teachers), TeacherId, old(editing).value.id)
                case None => outcome == Fail("Teacher not found") && api.teachers == old(api.teachers)
                case Some(i) => (outcome == Pass &&
                  api.teachers == old(api.teachers)[i := MergeTeacher(old(api.teachers)[i], TeacherPatchOf(form))])
      ensures outcome == Pass ==> !modalOpen && teachers == api.teachers && !loading
      ensures outcome.Fail? ==> modalOpen == old(modalOpen) && teachers == old(teachers) &&
                                loading == old(loading)
    {
      saving := true;
      if editing.Some? {
        var r := api.UpdateTeacher(editing.value.id, TeacherPatchOf(form));
        if r.Err? {
          saving := false;
          return Fail(r.message);
        }
      } else {
        var added := api.AddTeacher(form, now);
      }
      modalOpen := false;
      Load(api);
      saving := false;
      outcome := Pass;
    }

    /** `handleDelete`: deletes from the store, then reloads. */
    method HandleDelete(api: Api, id: string)
      modifies this`teachers, this`loading, api`teachers
      ensures api.teachers == WithoutId(old(api.teachers), TeacherId, id)
      ensures teachers == api.teachers && !loading
    {
      api.DeleteTeacher(id);
      Load(api);
    }
  }
}
