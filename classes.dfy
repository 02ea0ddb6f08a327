/** The classes page (src/pages/Classes.tsx): the add/edit editor over
    `modalOpen`, `editing`, `form` and `saving`; it has no search. */
module Classes {
  import opened Types
  import opened ApiService

  /** `emptyClass`. */
  const EmptyClass := ClassFields("", "", "")

  /** The keys `setField` is called with: "grade", "section", "classTeacher". */
  datatype ClassField = Grade | Section | ClassTeacher

  function FieldValue(f: ClassFields, k: ClassField): string
  {
    match k
    case Grade => f.grade
    case Section => f.section
    case ClassTeacher => f.classTeacher
  }

  /** Two forms that agree on every field are the same form. */
  lemma FieldsDetermineForm(a: ClassFields, b: ClassFields)
    requires forall k :: FieldValue(a, k) == FieldValue(b, k)
    ensures a == b
  {
    assert FieldValue(a, Grade) == FieldValue(b, Grade);
    assert FieldValue(a, Section) == FieldValue(b, Section);
    assert FieldValue(a, ClassTeacher) == FieldValue(b, ClassTeacher);
  }

  /** `{ ...f, [key]: v }`: field `k` becomes `v`, every other field stays. */
  function WithField(f: ClassFields, k: ClassField, v: string): (r: ClassFields)
    ensures FieldValue(r, k) == v
    ensures forall k' :: k' != k ==> FieldValue(r, k') == FieldValue(f, k')
  {
    match k
    case Grade => f.(grade := v)
    case Section => f.(section := v)
    case ClassTeacher => f.(classTeacher := v)
  }

  /** The form `openEdit(c)` fills: `grade`, `section` and `classTeacher` of `c`. */
  function FieldsOf(c: ClassSection): (f: ClassFields)
    ensures ClassWithId(f, c.id) == c
  {
    ClassFields(c.grade, c.section, c.classTeacher)
  }

  /** The state of the classes page. */
  class ClassesPage {
    var classes: seq<ClassSection>
    var loading: bool
    var modalOpen: bool
    var editing: Option<ClassSection>
    var form: ClassFields
    var saving: bool

    constructor ()
      ensures classes == [] && loading
      ensures !modalOpen && editing == None && form == EmptyClass && !saving
    {
      classes := [];
      loading := true;
      modalOpen := false;
      editing := None;
      form := EmptyClass;
      saving := false;
    }

    /** `load`: fetches the list from the store. */
    method Load(api: Api)
      modifies this`classes, this`loading
      ensures classes == api.classes && !loading
    {
      loading := true;
      classes := api.GetClasses();
      loading := false;
    }

    method OpenAdd()
      modifies this`editing, this`form, this`modalOpen
      ensures editing == None && form == EmptyClass && modalOpen
    {
      editing := None;
      form := EmptyClass;
      modalOpen := true;
    }

    method OpenEdit(c: ClassSection)
      modifies this`editing, this`form, this`modalOpen
      ensures editing == Some(c) && form == FieldsOf(c) && modalOpen
    {
      editing := Some(c);
      form := FieldsOf(c);
      modalOpen := true;
    }

    /** `setField(k)(v)`. */
    method SetField(k: ClassField, v: string)
      modifies this`form
      ensures form == WithField(old(form), k, v)
    {
      form := WithField(form, k, v);
    }

    /** `handleSubmit`: `updateClass(editing.id, form)` when editing, otherwise
        `addClass(form)` with an id read from the clock; on success closes the modal
        and reloads; `saving` is cleared either way; a failed update is passed on. */
    method HandleSubmit(api: Api, now: nat) returns (outcome: Outcome)
      modifies this, api`classes
      ensures !saving
      ensures editing == old(editing) && form == old(form)
      ensures old(editing).None? ==>
                outcome == Pass &&
                api.classes == old(api.classes) + [ClassWithId(form, MintId('c', now))]
      ensures old(editing).Some? ==>
                match IndexOfId(old(api.classes), ClassId, old(editing).value.id)
                case None => outcome == Fail("Class not found") && api.classes == old(api.classes)
                case Some(i) => (outcome == Pass &&
                  api.classes == old(api.classes)[i := MergeClass(old(api.classes)[i], ClassPatchOf(form))])
      ensures outcome == Pass ==> !modalOpen && classes == api.classes && !loading
      ensures outcome.Fail? ==> modalOpen == old(modalOpen) && classes == old(classes) &&
                                loading == old(loading)
    {
      saving := true;
      if editing.Some? {
        var r := api.UpdateClass(editing.value.id, ClassPatchOf(form));
        if r.Err? {
          saving := false;
          return Fail(r.message);
        }
      } else {
        var added := api.AddClass(form, now);
      }
      modalOpen := false;
      Load(api);
      saving := false;
      outcome := Pass;
    }

    /** `handleDelete`: `deleteClass`, then reload. */
    method HandleDelete(api: Api, id: string)
      modifies this`classes, this`loading, api`classes
      ensures api.classes == WithoutId(old(api.classes), ClassId, id)
      ensures classes == api.classes && !loading
    {
      api.DeleteClass(id);
      Load(api);
    }
  }
}
