/** The payment result page (`PaymentResult`): a fixed text per outcome, and, for a
    successful payment, a bounded series of subscription re-checks while the page
    shows "checking". The first check fires 2000 ms after mount and each further one
    3000 ms after the previous check returns; those timer expiries are events here. */
module PaymentResult {
  import opened Common
  import opened Text
  import opened Session
  import opened Routes

  /** The icon a configuration shows. */
  datatype Icon = CheckCircle | XCircle | Clock

  /** One entry of the page's outcome table. */
  datatype ResultConfig = ResultConfig(icon: Icon, iconClass: string, bgClass: string, title: string, message: string)

  const SuccessConfig: ResultConfig := ResultConfig(CheckCircle, "text-success", "bg-green-50",
    "\U{00A1}Pago exitoso!",
    "Tu suscripci\U{00F3}n fue activada. Ya pod\U{00E9}s ver los datos de contacto de ni\U{00F1}eras y familias.")

  const FailureConfig: ResultConfig := ResultConfig(XCircle, "text-danger", "bg-red-50",
    "Pago fallido",
    "No pudimos procesar tu pago. Pod\U{00E9}s intentarlo de nuevo desde el dashboard.")

  const PendingConfig: ResultConfig := ResultConfig(Clock, "text-yellow-500", "bg-yellow-50",
    "Pago pendiente",
    "Tu pago est\U{00E1} siendo procesado. Te notificaremos cuando se confirme.")

  /** `RESULT_CONFIG[outcome] ?? RESULT_CONFIG.pending`: the three named outcomes have
      their own entry; anything else reads as pending. */
  function Config(outcome: string): (c: ResultConfig)
    ensures outcome == "success" ==> c == SuccessConfig
    ensures outcome == "failure" ==> c == FailureConfig
    ensures outcome != "success" && outcome != "failure" ==> c == PendingConfig
  {
    if outcome == "success" then SuccessConfig
    else if outcome == "failure" then FailureConfig
    else PendingConfig
  }

  /** The three entries are told apart by their titles. */
  lemma ConfigTitlesDiffer(a: string, b: string)
    requires Config(a).title == Config(b).title
    ensures Config(a) == Config(b)
  {
    assert SuccessConfig.title[0] != FailureConfig.title[0];
    assert SuccessConfig.title[0] != PendingConfig.title[0];
    assert FailureConfig.title[5] != PendingConfig.title[5];
  }

  /** The number of re-checks a successful payment runs. */
  const MaxAttempts: nat := 4

  /** The page's polling state: the effect's local `attempts` counter, the `checking`
      flag, whether a `poll` timer is pending, and how many times `refetch` has run. */
  datatype PollState = PollState(attempts: nat, checking: bool, scheduled: bool, refetches: nat)

  /** `useState(outcome === 'success')`, before the effect runs. */
  function InitialPoll(outcome: string): (p: PollState)
    ensures p.checking <==> outcome == "success"
    ensures p.attempts == 0 && p.refetches == 0 && !p.scheduled
  {
    PollState(0, outcome == "success", false, 0)
  }

  /** The mount effect: nothing for other outcomes, else `attempts = 0` and the first
      timer. */
  function Start(p: PollState, outcome: string): (r: PollState)
    ensures outcome != "success" ==> r == p
    // a successful payment arms the first check, which does not run yet
    ensures outcome == "success" ==> r.scheduled && r.attempts == 0
    ensures r.checking == p.checking && r.refetches == p.refetches
  {
    if outcome != "success" then p else p.(attempts := 0, scheduled := true)
  }

  /** A pending `poll` timer fires: one `refetch`, one more attempt, then either the
      next timer or the end of checking. A fire with nothing pending changes nothing. */
  function Fire(p: PollState): (r: PollState)
    ensures !p.scheduled ==> r == p
    ensures p.scheduled ==> r.attempts == p.attempts + 1 && r.refetches == p.refetches + 1
    // the next check is armed, and checking goes on, exactly while fewer than four ran
    ensures p.scheduled ==> (r.scheduled <==> r.attempts < MaxAttempts)
    ensures p.scheduled ==> (r.checking <==> p.checking && r.attempts < MaxAttempts)
  {
    if !p.scheduled then p
    else
      var attempts := p.attempts + 1;
      if attempts < MaxAttempts then p.(attempts := attempts, refetches := p.refetches + 1)
      else p.(attempts := attempts, refetches := p.refetches + 1, checking := false, scheduled := false)
  }

  /** The state after `k` timer expiries. */
  function FireN(p: PollState, k: nat): PollState
  {
    if k == 0 then p else Fire(FireN(p, k - 1))
  }

  function Min(a: nat, b: nat): nat
  {
    if a < b then a else b
  }

  /** On a successful payment, after `k` timer expiries `refetch` has run min(k, 4)
      times, never more than four, and checking ends exactly with the fourth. */
  lemma {:induction false} SuccessPollsFourTimes(k: nat)
    ensures var p := FireN(Start(InitialPoll("success"), "success"), k);
      && p.attempts == Min(k, MaxAttempts)
      && p.refetches == Min(k, MaxAttempts)
      && (p.checking <==> k < MaxAttempts)
      && (p.scheduled <==> k < MaxAttempts)
  {
    if k > 0 {
      SuccessPollsFourTimes(k - 1);
    }
  }

  /** Any other outcome never polls and never shows checking. */
  lemma {:induction false} OtherOutcomesNeverPoll(outcome: string, k: nat)
    requires outcome != "success"
    ensures FireN(Start(InitialPoll(outcome), outcome), k) == InitialPoll(outcome)
    ensures !FireN(Start(InitialPoll(outcome), outcome), k).checking
  {
    if k > 0 {
      OtherOutcomesNeverPoll(outcome, k - 1);
    }
  }

  /** The "checking" spinner: `outcome === 'success' && checking`. */
  predicate ShowsChecking(outcome: string, p: PollState)
  {
    outcome == "success" && p.checking
  }

  /** The "checking" spinner shows from mount until the fourth check has returned, and
      only for a successful payment. */
  lemma {:induction false} SpinnerUntilFourthCheck(outcome: string, k: nat)
    ensures ShowsChecking(outcome, FireN(Start(InitialPoll(outcome), outcome), k)) <==>
      outcome == "success" && k < MaxAttempts
  {
    if outcome == "success" {
      SuccessPollsFourTimes(k);
    } else {
      OtherOutcomesNeverPoll(outcome, k);
    }
  }

  /** The page as an object: `checking` is React state, `attempts` the effect's
      counter, `scheduled` the pending timer, `refetches` the calls made. */
  class PaymentResultPage {
    const outcome: string
    var attempts: nat
    var checking: bool
    var scheduled: bool
    var refetches: nat

    function State(): PollState
      reads this
    {
      PollState(attempts, checking, scheduled, refetches)
    }

    constructor (outcome: string)
      ensures this.outcome == outcome && State() == InitialPoll(outcome)
    {
      this.outcome := outcome;
      attempts, checking, scheduled, refetches := 0, outcome == "success", false, 0;
    }

    /** The mount effect. */
    method Mount()
      modifies this
      ensures State() == Start(old(State()), outcome)
    {
      if outcome != "success" {
        return;
      }
      attempts := 0;
      scheduled := true;
    }

    /** The pending timer fires and `poll` runs to completion. */
    method Poll()
      modifies this
      ensures State() == Fire(old(State()))
    {
      if !scheduled {
        return;
      }
      refetches := refetches + 1;
      attempts := attempts + 1;
      if attempts >= MaxAttempts {
        checking := false;
        scheduled := false;
      }
    }
  }

  /** `dashPath`: the family dashboard exactly when the profile's role is "family";
      otherwise, with no profile or no role too, the nanny dashboard. */
  function DashPath(profile: Option<Profile>): (path: string)
    ensures path == "/dashboard/family" <==> profile.Some? && profile.value.role == Some("family")
    ensures path != "/dashboard/family" ==> path == "/dashboard/nanny"
  {
    if profile.Some? && profile.value.role == Some("family") then "/dashboard/family" else "/dashboard/nanny"
  }

  /** The link always leads to a dashboard route of the table, and for the two known
      roles it is the dashboard the route guard would show that profile. */
  lemma DashPathIsARoute(profile: Option<Profile>)
    ensures RouteFor(DashPath(profile)).Dashboard?
    ensures RoleOf(profile) == Some("family") || RoleOf(profile) == Some("nanny") ==>
      DashPath(profile) == DashboardPath(RoleOf(profile).value)
  {
    if RoleOf(profile) == Some("nanny") {
      assert profile.value.role != Some("family");
    }
  }
}
