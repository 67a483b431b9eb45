/** The family dashboard (`FamilyDashboard`): the carousel of available nannies and
    the family's own active vacancies, each of which can be closed. Backend replies
    are inputs; a request is only sent when a user is signed in. */
module FamilyDashboard {
  import opened Common
  import opened Text
  import opened Session
  import opened NannyCard

  /** The fields of one of the family's vacancies the page reads. */
  datatype Vacancy = Vacancy(id: int, isActive: bool, title: string)

  datatype FamilyState = FamilyState(nannies: seq<Nanny>, myVacancies: seq<Vacancy>, loadingNannies: bool)

  /** `useState([])`, `useState([])`, `useState(true)`. */
  const InitialFamily: FamilyState := FamilyState([], [], true)

  /** `data.filter(v => v.is_active)` */
  function ActiveOnly(vs: seq<Vacancy>): seq<Vacancy>
  {
    Filter(vs, (v: Vacancy) => v.isActive)
  }

  /** `prev.filter(v => v.id !== vacancyId)` */
  function WithoutId(vs: seq<Vacancy>, vacancyId: int): seq<Vacancy>
  {
    Filter(vs, (v: Vacancy) => v.id != vacancyId)
  }

  /** `fetchNannies` as a whole: nothing without a user; else the list becomes the reply
      when it is an array and empty otherwise, a failed request keeps the old list,
      and loading is over either way. */
  function FetchNannies(s: FamilyState, user: Option<User>, reply: ApiResult<JsonList<Nanny>>): (r: FamilyState)
    ensures user.None? ==> r == s
    ensures user.Some? ==> !r.loadingNannies && r.myVacancies == s.myVacancies
    ensures user.Some? && reply.Ok? && reply.data.JsonArray? ==> r.nannies == reply.data.items
    ensures user.Some? && reply.Ok? && reply.data.NotAnArray? ==> r.nannies == []
    ensures user.Some? && reply.Failed? ==> r.nannies == s.nannies
  {
    if user.None? then s
    else s.(nannies := if reply.Ok? then ArrayOrEmpty(reply.data) else s.nannies, loadingNannies := false)
  }

  /** `fetchMyVacancies`: nothing without a user or on a failed request; else the
      active vacancies of the reply, or none when it is not an array. */
  function FetchMyVacancies(s: FamilyState, user: Option<User>, reply: ApiResult<JsonList<Vacancy>>): (r: FamilyState)
    ensures user.None? || reply.Failed? ==> r == s
    ensures r.nannies == s.nannies && r.loadingNannies == s.loadingNannies
    ensures user.Some? && reply.Ok? ==> r.myVacancies == ActiveOnly(ArrayOrEmpty(reply.data))
  {
    if user.None? || reply.Failed? then s
    else s.(myVacancies := ActiveOnly(ArrayOrEmpty(reply.data)))
  }

  /** The stored vacancies are exactly the active ones of the reply, in the reply's
      order. */
  lemma FetchedVacanciesAreTheActiveOnes(s: FamilyState, u: User, items: seq<Vacancy>)
    ensures var vs := FetchMyVacancies(s, Some(u), Ok(JsonArray(items))).myVacancies;
      && (forall v :: v in vs <==> v in items && v.isActive)
      && IsSubsequence(vs, items)
  {
    FilterIsSubsequence(items, (v: Vacancy) => v.isActive);
  }

  /** `handleDeactivateVacancy`, once the PATCH has settled: a missing user makes
      `user.id` throw inside the `try`, so nothing is sent and nothing changes; a
      successful request drops every vacancy with that id; a failed one changes
      nothing. */
  function DeactivateVacancy(s: FamilyState, user: Option<User>, vacancyId: int, reply: ApiResult<()>): (r: FamilyState)
    ensures user.None? || reply.Failed? ==> r == s
    ensures r.nannies == s.nannies && r.loadingNannies == s.loadingNannies
    ensures user.Some? && reply.Ok? ==> r.myVacancies == WithoutId(s.myVacancies, vacancyId)
  {
    if user.None? || reply.Failed? then s
    else s.(myVacancies := WithoutId(s.myVacancies, vacancyId))
  }

  /** The PATCH request: the vacancy's id and the user's id; none without a user. */
  function DeactivateRequest(user: Option<User>, vacancyId: int): (req: Option<(int, string)>)
    ensures req.Some? <==> user.Some?
    ensures req.Some? ==> req.value == (vacancyId, user.value.id)
  {
    if user.None? then None else Some((vacancyId, user.value.id))
  }

  /** A successful close removes every vacancy with that id, keeps the others in their
      order, and closing the same id again changes nothing. */
  lemma {:induction false} DeactivateRemovesExactlyThatId(s: FamilyState, u: User, vacancyId: int)
    ensures var r := DeactivateVacancy(s, Some(u), vacancyId, Ok(()));
      && (forall v :: v in r.myVacancies <==> v in s.myVacancies && v.id != vacancyId)
      && IsSubsequence(r.myVacancies, s.myVacancies)
      && DeactivateVacancy(r, Some(u), vacancyId, Ok(())) == r
  {
    var keep := (v: Vacancy) => v.id != vacancyId;
    FilterIsSubsequence(s.myVacancies, keep);
    FilterIdempotent(s.myVacancies, keep);
  }

  /** The greeting's fallback when the profile has no full name. */
  const FamilyWord: string := "Familia"

  /** The greeting's first name. */
  function FirstName(profile: Option<Profile>): string
  {
    GreetingName(profile, FamilyWord)
  }

  /** The vacancy counter: hidden with no vacancies, else "N activa", with an "s"
      exactly when N is not 1. */
  function CountLabel(n: nat): (shown: Option<string>)
    ensures shown.None? <==> n == 0
    ensures shown.Some? ==> NatToString(n) <= shown.value
    ensures shown.Some? ==> shown.value[|NatToString(n)|..] in {" activa", " activas"}
    ensures shown.Some? ==> (shown.value[|shown.value| - 1] == 's' <==> n != 1)
  {
    if n == 0 then None
    else
      var count := NatToString(n);
      var word := if n != 1 then " activas" else " activa";
      var text := count + word;
      assert text[..|count|] == count && text[|count|..] == word;
      Some(text)
  }

  /** The page's state as an object. */
  class FamilyDashboardPage {
    var nannies: seq<Nanny>
    var myVacancies: seq<Vacancy>
    var loadingNannies: bool

    function State(): FamilyState
      reads this
    {
      FamilyState(nannies, myVacancies, loadingNannies)
    }

    constructor ()
      ensures State() == InitialFamily
    {
      nannies, myVacancies, loadingNannies := [], [], true;
    }

    /** `fetchNannies`; returns the `auth_id` of the request it sent. */
    method FetchNanniesFor(user: Option<User>, reply: ApiResult<JsonList<Nanny>>) returns (authId: Option<string>)
      modifies this
      ensures authId.Some? <==> user.Some?
      ensures State() == FetchNannies(old(State()), user, reply)
    {
      if user.None? {
        return None;
      }
      authId := Some(user.value.id);
      loadingNannies := true;
      if reply.Ok? {
        nannies := ArrayOrEmpty(reply.data);
      }
      loadingNannies := false;
    }

    /** `fetchMyVacancies` (also the vacancy form's `onSuccess`). */
    method FetchMyVacanciesFor(user: Option<User>, reply: ApiResult<JsonList<Vacancy>>) returns (authId: Option<string>)
      modifies this
      ensures authId.Some? <==> user.Some?
      ensures State() == FetchMyVacancies(old(State()), user, reply)
    {
      if user.None? {
        return None;
      }
      authId := Some(user.value.id);
      if reply.Ok? {
        myVacancies := ActiveOnly(ArrayOrEmpty(reply.data));
      }
    }

    /** `handleDeactivateVacancy(vacancyId)`; returns the request it sent. */
    method HandleDeactivateVacancy(user: Option<User>, vacancyId: int, reply: ApiResult<()>)
      returns (req: Option<(int, string)>)
      modifies this
      ensures req == DeactivateRequest(user, vacancyId)
      ensures State() == DeactivateVacancy(old(State()), user, vacancyId, reply)
    {
      if user.None? {
        return None;
      }
      req := Some((vacancyId, user.value.id));
      if reply.Ok? {
        myVacancies := WithoutId(myVacancies, vacancyId);
      }
    }
  }
}
