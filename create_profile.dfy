/** The onboarding form (`CreateProfilePage`): the account type from the query string,
    six text fields, and a submit that saves the profile, refreshes the session store's
    copy and opens the dashboard for that type. */
module CreateProfile {
  import opened Common
  import opened Text
  import opened Session
  import opened Routes

  /** `searchParams.get('type') || 'family'`: any non-empty value passes through as it
      is; a missing or empty one is "family". */
  function AccountType(param: Option<string>): (t: string)
    ensures Truthy(param) ==> t == param.value
    ensures !Truthy(param) ==> t == "family"
    ensures t != ""
  {
    if Truthy(param) then param.value else "family"
  }

  const FieldNames: set<string> := {"first_name", "last_name", "phone", "address", "city", "bio"}

  /** The initial form: every field empty. */
  const EmptyForm: map<string, string> := map[
    "first_name" := "", "last_name" := "", "phone" := "", "address" := "", "city" := "", "bio" := ""]

  /** The body of `PUT /users/me`. */
  datatype ProfileBody = ProfileBody(
    fullName: string, phone: string, address: string, locality: string, bio: string, role: string)

  /** `first last`, trimmed: no white space at either end, and empty exactly when both
      names are blank. */
  function FullName(first: string, last: string): (name: string)
    ensures name == Trim(first + " " + last)
    ensures name == [] || (!IsJsSpace(name[0]) && !IsJsSpace(name[|name| - 1]))
    ensures name == [] <==> IsBlank(first) && IsBlank(last)
  {
    var joined := first + " " + last;
    assert forall i :: 0 <= i < |first| ==> first[i] == joined[i];
    assert forall i :: 0 <= i < |last| ==> last[i] == joined[|first| + 1 + i];
    assert joined[|first|] == ' ';
    Trim(first + " " + last)
  }

  /** `profileData`: the backend's names for the form's fields. */
  function ProfileData(form: map<string, string>, accountType: string): (b: ProfileBody)
    requires FieldNames <= form.Keys
    ensures b.fullName == FullName(form["first_name"], form["last_name"])
    ensures b.locality == form["city"] && b.role == accountType
    ensures b.phone == form["phone"] && b.address == form["address"] && b.bio == form["bio"]
  {
    ProfileBody(FullName(form["first_name"], form["last_name"]), form["phone"], form["address"],
                form["city"], form["bio"], accountType)
  }

  /** A first name without white space is exactly what the dashboards greet: the text
      before the first space of the saved full name, whatever the last name is. */
  lemma {:induction false} GreetingIsFirstName(first: string, last: string, fallback: string)
    requires first != [] && forall i :: 0 <= i < |first| ==> !IsJsSpace(first[i])
    ensures FirstWordOr(Some(FullName(first, last)), fallback) == first
  {
    var s := first + " " + last;
    var t := TrimStart(s);
    assert s[0] == first[0];
    assert t == s;
    var r := TrimEnd(s);
    TrimEndRemovesSpace(s);
    assert Trim(s) == r;
    assert !IsJsSpace(s[|first| - 1]);
    assert |r| >= |first|;
    assert r[..|first|] == first;
    assert |r| > |first| ==> r[|first|] == ' ';
    var p := Split(r, ' ')[0];
    assert p == r[..|p|];
  }

  /** What the submit does, in order. */
  datatype ProfileEffect =
    | Put(authId: string, body: ProfileBody)
    | RefreshProfile
    | NavigateTo(path: string, replace: bool)
    | Alert(message: string)

  const SaveFailed: string := "Error al guardar el perfil. Int\U{00E9}ntalo de nuevo."

  /** `handleSubmit`, once the PUT has settled: a missing user makes `user.id` throw
      before the PUT and ends in the alert; a saved profile is followed by the refresh
      and the dashboard of the account type, replacing history; a failed save by the
      alert. */
  function SubmitEffects(form: map<string, string>, accountType: string, user: Option<User>, reply: ApiResult<()>)
    : (effects: seq<ProfileEffect>)
    requires FieldNames <= form.Keys
    ensures user.None? ==> effects == [Alert(SaveFailed)]
    ensures user.Some? ==> |effects| >= 2 && effects[0] == Put(user.value.id, ProfileData(form, accountType))
    ensures user.Some? && reply.Ok? ==>
      effects == [effects[0], RefreshProfile, NavigateTo(DashboardPath(accountType), true)]
    ensures user.Some? && reply.Failed? ==> effects == [effects[0], Alert(SaveFailed)]
    // the page navigates only after a saved profile
    ensures (exists i :: 0 <= i < |effects| && effects[i].NavigateTo?) <==> user.Some? && reply.Ok?
  {
    if user.None? then [Alert(SaveFailed)]
    else
      var put := Put(user.value.id, ProfileData(form, accountType));
      var nav := NavigateTo(DashboardPath(accountType), true);
      assert [put, RefreshProfile, nav][2] == nav;
      if reply.Ok? then [put, RefreshProfile, nav]
      else [put, Alert(SaveFailed)]
  }

  /** After a saved profile, the page's navigation reaches a dashboard only for the
      types "family" and "nanny"; any other type is saved as the role and its path
      falls through the route table to the landing page. */
  lemma SavedTypeReachesDashboard(form: map<string, string>, param: Option<string>, u: User, s: AuthState)
    requires FieldNames <= form.Keys
    ensures var t := AccountType(param);
      var effects := SubmitEffects(form, t, Some(u), Ok(()));
      && effects[2] == NavigateTo(DashboardPath(t), true)
      && (t == "family" || t == "nanny" ==> RouteFor(effects[2].path) == Dashboard(t))
      && (t != "family" && t != "nanny" ==> Render(effects[2].path, s) == Redirect("/", true))
  {
    DashboardRoute(AccountType(param));
  }

  class CreateProfilePage {
    const accountType: string
    var formData: map<string, string>
    var loading: bool

    constructor (typeParam: Option<string>)
      ensures accountType == AccountType(typeParam)
      ensures formData == EmptyForm && !loading
    {
      accountType := AccountType(typeParam);
      formData := EmptyForm;
      loading := false;
    }

    /** `handleChange`: only the named field changes. */
    method HandleChange(name: string, value: string)
      modifies this
      ensures formData == old(formData)[name := value]
      ensures forall k :: k in old(formData) && k != name ==> formData[k] == old(formData)[k]
      ensures FieldNames <= old(formData).Keys ==> FieldNames <= formData.Keys
      ensures loading == old(loading)
    {
      formData := formData[name := value];
    }

    /** `handleSubmit`; returns what it did, in order. */
    method HandleSubmit(user: Option<User>, reply: ApiResult<()>) returns (effects: seq<ProfileEffect>)
      requires FieldNames <= formData.Keys
      modifies this
      ensures formData == old(formData) && !loading
      ensures effects == SubmitEffects(formData, accountType, user, reply)
    {
      loading := true;
      if user.None? {
        effects := [Alert(SaveFailed)];
      } else {
        var body := ProfileBody(Trim(formData["first_name"] + " " + formData["last_name"]),
          formData["phone"], formData["address"], formData["city"], formData["bio"], accountType);
        effects := [Put(user.value.id, body)];
        if reply.Ok? {
          effects := effects + [RefreshProfile, NavigateTo("/dashboard/" + accountType, true)];
        } else {
          effects := effects + [Alert(SaveFailed)];
        }
      }
      loading := false;
    }
  }
}
