/** The subscription hook (`useSubscription`): the signed-in user's subscription flag,
    its expiry date and a loading flag, re-checked on demand; and `subscribe`, which
    asks the backend for a checkout and opens it. Backend replies are inputs. */
module Subscription {
  import opened Common
  import opened Text
  import opened Session

  /** The body of `GET /long-term/subscription/status?auth_id=<id>`. */
  datatype StatusReply = StatusReply(isSubscribed: bool, expiresAt: Option<string>)

  datatype SubState = SubState(isSubscribed: bool, expiresAt: Option<string>, loading: bool)

  /** `useState(false)`, `useState(null)`, `useState(true)`. */
  const InitialSub: SubState := SubState(false, None, true)

  /** One run of `checkStatus` against the current user and the backend's answer (which
      is not asked for without a user). */
  function Check(s: SubState, user: Option<User>, reply: ApiResult<StatusReply>): (r: SubState)
    // every check ends with loading false
    ensures !r.loading
    // no user, or a failed request: nothing else changes
    ensures user.None? || reply.Failed? ==> r.isSubscribed == s.isSubscribed && r.expiresAt == s.expiresAt
    // a reply is copied as it is
    ensures user.Some? && reply.Ok? ==>
      r.isSubscribed == reply.data.isSubscribed && r.expiresAt == reply.data.expiresAt
  {
    if user.None? || reply.Failed? then s.(loading := false)
    else SubState(reply.data.isSubscribed, reply.data.expiresAt, false)
  }

  /** The status request a check sends: the user's id, or none without a user. */
  function StatusRequest(user: Option<User>): (authId: Option<string>)
    ensures authId.Some? <==> user.Some?
    ensures authId.Some? ==> authId.value == user.value.id
  {
    if user.None? then None else Some(user.value.id)
  }

  /** A series of checks, each with the user it ran for and the answer it got. */
  function RunChecks(s: SubState, checks: seq<(Option<User>, ApiResult<StatusReply>)>): SubState
    decreases |checks|
  {
    if checks == [] then s else Check(RunChecks(s, checks[..|checks| - 1]), checks[|checks| - 1].0, checks[|checks| - 1].1)
  }

  /** The reply of the latest check that had a user and succeeded, if any. */
  function LastReply(checks: seq<(Option<User>, ApiResult<StatusReply>)>): Option<StatusReply>
    decreases |checks|
  {
    if checks == [] then None
    else
      var c := checks[|checks| - 1];
      if c.0.Some? && c.1.Ok? then Some(c.1.data) else LastReply(checks[..|checks| - 1])
  }

  /** After any series of checks the flag and the date are those of the latest
      successful reply, or the initial ones when none succeeded; and at least one check
      means loading is over. */
  lemma {:induction false} StatusIsLastReply(checks: seq<(Option<User>, ApiResult<StatusReply>)>)
    ensures var r := RunChecks(InitialSub, checks);
      && (LastReply(checks).Some? ==>
            r.isSubscribed == LastReply(checks).value.isSubscribed && r.expiresAt == LastReply(checks).value.expiresAt)
      && (LastReply(checks).None? ==> !r.isSubscribed && r.expiresAt.None?)
      && (checks != [] ==> !r.loading)
    decreases |checks|
  {
    if checks != [] {
      StatusIsLastReply(checks[..|checks| - 1]);
    }
  }

  /** The hook's state as an object. */
  class SubscriptionHook {
    var isSubscribed: bool
    var expiresAt: Option<string>
    var loading: bool

    function State(): SubState
      reads this
    {
      SubState(isSubscribed, expiresAt, loading)
    }

    constructor ()
      ensures State() == InitialSub
    {
      isSubscribed, expiresAt, loading := false, None, true;
    }

    /** `checkStatus` (also `refetch`): returns the request it sent, if any. */
    method CheckStatus(user: Option<User>, reply: ApiResult<StatusReply>) returns (authId: Option<string>)
      modifies this
      ensures authId == StatusRequest(user)
      ensures State() == Check(old(State()), user, reply)
    {
      if user.None? {
        loading := false;
        return None;
      }
      authId := Some(user.value.id);
      if reply.Ok? {
        isSubscribed := reply.data.isSubscribed;
        expiresAt := reply.data.expiresAt;
      }
      loading := false;
    }
  }

  /** The body of `POST /long-term/subscribe`. */
  datatype CheckoutReply = CheckoutReply(checkoutUrl: Option<string>)

  /** What `subscribe` does: reject before any request without a user, pass on a failed
      request, or return the reply, having opened its checkout URL when there is one. */
  datatype SubscribeOutcome =
    | NoUserError
    | RequestFailed
    | Returned(data: CheckoutReply, tab: Option<string>)

  /** `subscribe`, with the backend's answer to the request it would send. */
  function Subscribe(user: Option<User>, reply: ApiResult<CheckoutReply>): (o: SubscribeOutcome)
    ensures user.None? <==> o.NoUserError?
    ensures user.Some? && reply.Failed? ==> o.RequestFailed?
    ensures user.Some? && reply.Ok? ==> o.Returned? && o.data == reply.data
    // a tab is opened only for a present, non-empty checkout URL, and it is that URL
    ensures o.Returned? ==> (o.tab.Some? <==> Truthy(o.data.checkoutUrl))
    ensures o.Returned? && o.tab.Some? ==> o.tab == o.data.checkoutUrl
  {
    if user.None? then NoUserError
    else if reply.Failed? then RequestFailed
    else Returned(reply.data, if Truthy(reply.data.checkoutUrl) then reply.data.checkoutUrl else None)
  }
}
