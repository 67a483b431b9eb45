/** The nanny dashboard (`NannyDashboard`): the carousel of families' vacancies and the
    nanny's own published availability, which can be withdrawn. Backend replies are
    inputs; a request is only sent when a user is signed in. */
module NannyDashboard {
  import opened Common
  import opened Text
  import opened Session
  import opened NannyCard

  /** A family's vacancy as the carousel lists it. */
  datatype FamilyVacancy = FamilyVacancy(id: int, title: string)

  /** The nanny's availability record; the endpoint answers `{}` when there is none,
      which has no `id`. */
  datatype Availability = Availability(
    id: Option<int>, preferredHours: Option<int>, minMonths: Option<int>, schedule: Option<string>)

  datatype NannyState = NannyState(vacancies: seq<FamilyVacancy>, myAvailability: Option<Availability>, loadingVacancies: bool)

  /** `useState([])`, `useState(null)`, `useState(true)`. */
  const InitialNanny: NannyState := NannyState([], None, true)

  /** `data?.id ? data : null`: a record counts only when its id is present and not 0. */
  function AvailabilityOf(data: Option<Availability>): (a: Option<Availability>)
    ensures a.Some? <==> data.Some? && data.value.id.Some? && data.value.id.value != 0
    ensures a.Some? ==> a == data
  {
    if data.Some? && data.value.id.Some? && data.value.id.value != 0 then data else None
  }

  /** `fetchVacancies`: nothing without a user; else the list becomes the reply when it
      is an array and empty otherwise, a failure keeps it, and loading is over. */
  function FetchVacancies(s: NannyState, user: Option<User>, reply: ApiResult<JsonList<FamilyVacancy>>): (r: NannyState)
    ensures user.None? ==> r == s
    ensures user.Some? ==> !r.loadingVacancies && r.myAvailability == s.myAvailability
    ensures user.Some? && reply.Ok? ==> r.vacancies == ArrayOrEmpty(reply.data)
    ensures user.Some? && reply.Failed? ==> r.vacancies == s.vacancies
  {
    if user.None? then s
    else s.(vacancies := if reply.Ok? then ArrayOrEmpty(reply.data) else s.vacancies, loadingVacancies := false)
  }

  /** `fetchMyAvailability`: nothing without a user or on a failure; else the reply
      when it has a truthy id, and no availability otherwise. */
  function FetchMyAvailability(s: NannyState, user: Option<User>, reply: ApiResult<Option<Availability>>): (r: NannyState)
    ensures user.None? || reply.Failed? ==> r == s
    ensures r.vacancies == s.vacancies && r.loadingVacancies == s.loadingVacancies
    ensures user.Some? && reply.Ok? ==> r.myAvailability == AvailabilityOf(reply.data)
  {
    if user.None? || reply.Failed? then s
    else s.(myAvailability := AvailabilityOf(reply.data))
  }

  /** The withdrawal request: the availability's id and the user's id. It is sent only
      when there is an availability and a user (a missing user makes `user.id` throw
      inside the `try`). */
  function DeactivateRequest(s: NannyState, user: Option<User>): (req: Option<(int, string)>)
    ensures req.Some? <==> s.myAvailability.Some? && user.Some?
    ensures req.Some? ==> req.value == (s.myAvailability.value.id.value, user.value.id)
    requires s.myAvailability.Some? ==> s.myAvailability.value.id.Some?
  {
    if s.myAvailability.None? || user.None? then None
    else Some((s.myAvailability.value.id.value, user.value.id))
  }

  /** `handleDeactivate`, once the PATCH has settled: with no availability or no user
      nothing changes; a success clears the availability; a failure keeps it. */
  function Deactivate(s: NannyState, user: Option<User>, reply: ApiResult<()>): (r: NannyState)
    ensures s.myAvailability.None? || user.None? || reply.Failed? ==> r == s
    ensures s.myAvailability.Some? && user.Some? && reply.Ok? ==> r == s.(myAvailability := None)
  {
    if s.myAvailability.None? || user.None? || reply.Failed? then s
    else s.(myAvailability := None)
  }

  /** A stored availability always has a non-zero id: every fetch and withdrawal keeps
      that true. */
  ghost predicate Valid(s: NannyState)
  {
    s.myAvailability.Some? ==> s.myAvailability.value.id.Some? && s.myAvailability.value.id.value != 0
  }

  lemma ValidPreserved(s: NannyState, user: Option<User>,
                       vs: ApiResult<JsonList<FamilyVacancy>>, av: ApiResult<Option<Availability>>, d: ApiResult<()>)
    requires Valid(s)
    ensures Valid(InitialNanny)
    ensures Valid(FetchVacancies(s, user, vs))
    ensures Valid(FetchMyAvailability(s, user, av))
    ensures Valid(Deactivate(s, user, d))
  {
  }

  /** The greeting's first name. */
  function FirstName(profile: Option<Profile>): string
  {
    GreetingName(profile, NannyWord)
  }

  const UpdateLabel: string := "Actualizar Disponibilidad"
  const PublishLabel: string := "Publicarme como Disponible"

  /** The header button: "update" exactly when an availability is published. */
  function ButtonLabel(s: NannyState): (text: string)
    ensures text == UpdateLabel <==> s.myAvailability.Some?
    ensures text != UpdateLabel ==> text == PublishLabel
  {
    if s.myAvailability.Some? then UpdateLabel else PublishLabel
  }

  /** The availability card's lines: preferred hours and the minimum months (each
      printed "0" when zero, absent when missing), then the schedule when truthy. */
  datatype AvailabilityLines = AvailabilityLines(hours: Gated, months: Gated, schedule: Option<string>)

  function LinesOf(a: Availability): (l: AvailabilityLines)
    ensures l.months == MinMonthsLine(a.minMonths)
    ensures l.hours.Element? <==> a.preferredHours.Some? && a.preferredHours.value != 0
    ensures l.hours.Element? ==> l.hours.text == IntToString(a.preferredHours.value) + " hs/semana preferidas"
    // React prints a zero count as "0", and a missing one as nothing
    ensures l.hours.ZeroText? <==> a.preferredHours == Some(0)
    ensures l.hours.Nothing? <==> a.preferredHours.None?
    ensures l.schedule.Some? <==> Truthy(a.schedule)
    ensures l.schedule.Some? ==> l.schedule == a.schedule
  {
    AvailabilityLines(
      GateNumber(a.preferredHours, if a.preferredHours.Some? then IntToString(a.preferredHours.value) + " hs/semana preferidas" else ""),
      MinMonthsLine(a.minMonths),
      if Truthy(a.schedule) then a.schedule else None)
  }

  /** The page's state as an object. */
  class NannyDashboardPage {
    var vacancies: seq<FamilyVacancy>
    var myAvailability: Option<Availability>
    var loadingVacancies: bool

    function State(): NannyState
      reads this
    {
      NannyState(vacancies, myAvailability, loadingVacancies)
    }

    constructor ()
      ensures State() == InitialNanny
    {
      vacancies, myAvailability, loadingVacancies := [], None, true;
    }

    /** `fetchVacancies`; returns the `auth_id` of the request it sent. */
    method FetchVacanciesFor(user: Option<User>, reply: ApiResult<JsonList<FamilyVacancy>>) returns (authId: Option<string>)
      modifies this
      ensures authId.Some? <==> user.Some?
      ensures State() == FetchVacancies(old(State()), user, reply)
    {
      if user.None? {
        return None;
      }
      authId := Some(user.value.id);
      loadingVacancies := true;
      if reply.Ok? {
        vacancies := ArrayOrEmpty(reply.data);
      }
      loadingVacancies := false;
    }

    /** `fetchMyAvailability` (also the availability form's `onSuccess`). */
    method FetchMyAvailabilityFor(user: Option<User>, reply: ApiResult<Option<Availability>>) returns (authId: Option<string>)
      modifies this
      ensures authId.Some? <==> user.Some?
      ensures State() == FetchMyAvailability(old(State()), user, reply)
    {
      if user.None? {
        return None;
      }
      authId := Some(user.value.id);
      if reply.Ok? {
        myAvailability := AvailabilityOf(reply.data);
      }
    }

    /** `handleDeactivate`; returns the request it sent. */
    method HandleDeactivate(user: Option<User>, reply: ApiResult<()>) returns (req: Option<(int, string)>)
      requires Valid(State())
      modifies this
      ensures req == DeactivateRequest(old(State()), user)
      ensures State() == Deactivate(old(State()), user, reply)
    {
      if myAvailability.None? || user.None? {
        return None;
      }
      req := Some((myAvailability.value.id.value, user.value.id));
      if reply.Ok? {
        myAvailability := None;
      }
    }
  }
}
