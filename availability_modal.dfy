/** The availability form (`AvailabilityModal`) a nanny fills in to publish herself as
    available: a description, the preferred weekly hours, a schedule and a minimum
    number of months. It has no validation. */
module AvailabilityModal {
  import opened Common
  import opened Text
  import opened Session
  import opened FormFields

  const AvailabilityInputs: map<string, InputKind> := map[
    "availability_description" := TextInput, "preferred_hours_per_week" := NumberInput,
    "schedule_description" := TextInput, "min_months" := NumberInput]

  /** The initial form, and the form after a successful post. */
  const AvailabilityDefaults: map<string, FieldValue> := map[
    "availability_description" := Str(""), "preferred_hours_per_week" := Int(20),
    "schedule_description" := Str(""), "min_months" := Int(1)]

  const AvailabilityPostFailed: string := "Error al publicar disponibilidad. Intent\U{00E1} de nuevo."

  /** `handleSubmit`: clear the error and post, whatever the form holds. Without a user
      `user.id` throws before anything is sent; otherwise the form and `auth_id` are
      posted, an accepted post resets the form and a rejected one keeps it. */
  function Submit(st: ModalState, user: Option<User>, hasOnSuccess: bool, reply: ApiResult<()>)
    : (r: (ModalState, seq<ModalEffect>))
    ensures !r.0.loading
    ensures user.None? ==> r.1 == [] && r.0 == ModalState(st.form, false, AvailabilityPostFailed)
    ensures user.Some? ==> r.1 != [] && r.1[0] == Posted(WithAuthId(st.form, user.value.id))
    ensures user.Some? && reply.Ok? ==> r.0 == ModalState(AvailabilityDefaults, false, "")
    ensures user.Some? && reply.Failed? ==>
      r.0 == ModalState(st.form, false, AvailabilityPostFailed) && r.1 == [Posted(WithAuthId(st.form, user.value.id))]
  {
    Post(st, user, hasOnSuccess, reply, AvailabilityDefaults, AvailabilityPostFailed)
  }

  /** `onSuccess?.()` and `onClose()` run only after the backend accepted the post:
      `onClose` exactly then, `onSuccess` exactly then when it was given, and `onClose`
      is the last effect. */
  lemma CallbacksOnlyOnAcceptance(st: ModalState, user: Option<User>, hasOnSuccess: bool, reply: ApiResult<()>)
    ensures var r := Submit(st, user, hasOnSuccess, reply);
      && (CalledOnClose in r.1 <==> user.Some? && reply.Ok?)
      && (CalledOnSuccess in r.1 <==> user.Some? && reply.Ok? && hasOnSuccess)
      && (CalledOnClose in r.1 ==> r.1[|r.1| - 1] == CalledOnClose)
  {
    var r := Submit(st, user, hasOnSuccess, reply);
    if user.Some? && reply.Failed? {
      assert r.1 == [Posted(WithAuthId(st.form, user.value.id))];
    }
  }

  class AvailabilityForm {
    var form: map<string, FieldValue>
    var loading: bool
    var error: string

    function State(): ModalState
      reads this
    {
      ModalState(form, loading, error)
    }

    constructor ()
      ensures State() == ModalState(AvailabilityDefaults, false, "")
    {
      form, loading, error := AvailabilityDefaults, false, "";
    }

    /** `handleChange` for the input `name`. */
    method HandleChange(name: string, raw: string)
      requires name in AvailabilityInputs
      modifies this
      ensures form == Changed(old(form), AvailabilityInputs, name, raw)
      ensures loading == old(loading) && error == old(error)
    {
      form := form[name := Converted(AvailabilityInputs[name], raw)];
    }

    /** `handleSubmit`, once the post (if any) has settled; returns the effects in order. */
    method HandleSubmit(user: Option<User>, hasOnSuccess: bool, reply: ApiResult<()>) returns (effects: seq<ModalEffect>)
      modifies this
      ensures State() == Submit(old(State()), user, hasOnSuccess, reply).0
      ensures effects == Submit(old(State()), user, hasOnSuccess, reply).1
    {
      loading := true;
      error := "";
      if user.None? {
        error := AvailabilityPostFailed;
        loading := false;
        return [];
      }
      var body := WithAuthId(form, user.value.id);
      if reply.Ok? {
        form := AvailabilityDefaults;
        effects := AcceptedEffects(body, hasOnSuccess);
      } else {
        error := AvailabilityPostFailed;
        effects := [Posted(body)];
      }
      loading := false;
    }
  }
}
