/** The vacancy form (`VacancyModal`) a family fills in to publish a long-term
    vacancy: a required title, text fields and three number fields. */
module VacancyModal {
  import opened Common
  import opened Text
  import opened Session
  import opened FormFields

  /** The form's inputs, by name. */
  const VacancyInputs: map<string, InputKind> := map[
    "title" := TextInput, "description" := TextInput, "children_count" := NumberInput,
    "period_months" := NumberInput, "hours_per_week" := NumberInput,
    "schedule_description" := TextInput, "location" := TextInput]

  /** The initial form, and the form after a successful post. */
  const VacancyDefaults: map<string, FieldValue> := map[
    "title" := Str(""), "description" := Str(""), "children_count" := Int(1),
    "period_months" := Int(3), "hours_per_week" := Int(20),
    "schedule_description" := Str(""), "location" := Str("")]

  const TitleRequired: string := "El t\U{00ED}tulo es obligatorio."
  const VacancyPostFailed: string := "Error al publicar la vacante. Intent\U{00E1} de nuevo."

  lemma DefaultsFit()
    ensures Fits(VacancyDefaults, VacancyInputs)
  {
  }

  /** The title as the form holds it: a text input, so its value is always a string. */
  function Title(form: map<string, FieldValue>): (t: string)
    requires Fits(form, VacancyInputs)
    ensures form["title"] == Str(t)
  {
    form["title"].s
  }

  /** `handleSubmit`: a blank title only sets the error; otherwise the error is cleared
      and the form is posted. */
  function Submit(st: ModalState, user: Option<User>, hasOnSuccess: bool, reply: ApiResult<()>)
    : (r: (ModalState, seq<ModalEffect>))
    requires Fits(st.form, VacancyInputs)
    ensures IsBlank(Title(st.form)) ==> r == (st.(error := TitleRequired), [])
    ensures !IsBlank(Title(st.form)) ==> r == Post(st, user, hasOnSuccess, reply, VacancyDefaults, VacancyPostFailed)
  {
    if IsBlank(Title(st.form)) then (st.(error := TitleRequired), [])
    else Post(st, user, hasOnSuccess, reply, VacancyDefaults, VacancyPostFailed)
  }

  /** A title of nothing but white space never reaches the backend, and it leaves the
      form and the loading flag as they were. */
  lemma BlankTitleNeverPosts(st: ModalState, user: Option<User>, hasOnSuccess: bool, reply: ApiResult<()>)
    requires Fits(st.form, VacancyInputs)
    requires forall i :: 0 <= i < |Title(st.form)| ==> IsJsSpace(Title(st.form)[i])
    ensures var r := Submit(st, user, hasOnSuccess, reply);
      && (forall e :: e in r.1 ==> !e.Posted?)
      && r.0.form == st.form && r.0.loading == st.loading && r.0.error == TitleRequired
  {
  }

  /** With a title and a user, the post carries every field and the user's id; after an
      accepted post the form is back to the defaults, and it always fits its inputs. */
  lemma SubmitKeepsFormShape(st: ModalState, user: Option<User>, hasOnSuccess: bool, reply: ApiResult<()>)
    requires Fits(st.form, VacancyInputs)
    ensures Fits(Submit(st, user, hasOnSuccess, reply).0.form, VacancyInputs)
    ensures !IsBlank(Title(st.form)) && user.Some? ==>
      Submit(st, user, hasOnSuccess, reply).1[0] == Posted(WithAuthId(st.form, user.value.id))
  {
    DefaultsFit();
  }

  class VacancyForm {
    var form: map<string, FieldValue>
    var loading: bool
    var error: string

    function State(): ModalState
      reads this
    {
      ModalState(form, loading, error)
    }

    constructor ()
      ensures State() == ModalState(VacancyDefaults, false, "")
    {
      form, loading, error := VacancyDefaults, false, "";
    }

    /** `handleChange` for the input `name`. */
    method HandleChange(name: string, raw: string)
      requires name in VacancyInputs
      modifies this
      ensures form == Changed(old(form), VacancyInputs, name, raw)
      ensures loading == old(loading) && error == old(error)
    {
      form := form[name := Converted(VacancyInputs[name], raw)];
    }

    /** `handleSubmit`, once the post (if any) has settled; returns the effects in order. */
    method HandleSubmit(user: Option<User>, hasOnSuccess: bool, reply: ApiResult<()>) returns (effects: seq<ModalEffect>)
      requires Fits(form, VacancyInputs)
      modifies this
      ensures State() == Submit(old(State()), user, hasOnSuccess, reply).0
      ensures effects == Submit(old(State()), user, hasOnSuccess, reply).1
    {
      var s0 := State();
      var blank := IsBlank(Title(form));
      if blank {
        assert Submit(s0, user, hasOnSuccess, reply) == (s0.(error := TitleRequired), []);
        error := TitleRequired;
        assert State() == s0.(error := TitleRequired);
        return [];
      }
      ghost var posted := Post(s0, user, hasOnSuccess, reply, VacancyDefaults, VacancyPostFailed);
      assert Submit(s0, user, hasOnSuccess, reply) == posted;
      loading := true;
      error := "";
      if user.None? {
        error := VacancyPostFailed;
        loading := false;
        assert State() == posted.0;
        return [];
      }
      var body := WithAuthId(form, user.value.id);
      if reply.Ok? {
        form := VacancyDefaults;
        effects := AcceptedEffects(body, hasOnSuccess);
      } else {
        error := VacancyPostFailed;
        effects := [Posted(body)];
      }
      loading := false;
      assert State() == posted.0 && effects == posted.1;
    }
  }
}
