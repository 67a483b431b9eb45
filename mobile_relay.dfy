/** The two pages that relay a browser OAuth sign-in back into the native app.
    `MobileAuthStart` stores the app's deep-link target under a fixed key and sends the
    browser to the identity provider; `MobileAuthCallback` reads that target once,
    clears it, and sends the browser to the deep link with the authorization code (a
    PKCE code, copied and not exchanged here) or the implicit-flow tokens appended.

    The browser is a class holding `localStorage` as a map and a trace of the
    observable effects in the order they happen, so that "write before navigate" and
    "read and remove before anything else" can be stated. */
module MobileRelay {
  import opened Common
  import opened Text

  /** The `localStorage` key that carries the deep-link target between the two pages. */
  const RedirectKey: string := "nina_app_redirect"

  /** The inline message MobileAuthStart shows when a parameter is missing. */
  const MissingParametersMessage: string := "Faltan parámetros para iniciar la autenticación."

  /** What the pages do to the browser, in order. */
  datatype Effect =
    | StorageSet(key: string, value: string)
    | StorageRemove(key: string)
    | Navigate(url: string)    // assignment to window.location.href

  /** `localStorage.getItem(key)` */
  function Lookup(storage: map<string, string>, key: string): Option<string>
  {
    if key in storage then Some(storage[key]) else None
  }

  /** The storage one effect leaves behind. */
  function ApplyEffect(storage: map<string, string>, e: Effect): map<string, string>
  {
    match e
    case StorageSet(k, v) => storage[k := v]
    case StorageRemove(k) => storage - {k}
    case Navigate(_) => storage
  }

  /** Whether an effect writes or removes `key`. */
  predicate Touches(e: Effect, key: string)
  {
    (e.StorageSet? || e.StorageRemove?) && e.key == key
  }

  /** The storage a sequence of effects leaves behind: a key that no effect writes or
      removes keeps its value (or its absence), and navigations alone change nothing. */
  function ApplyStorage(storage: map<string, string>, effects: seq<Effect>): (r: map<string, string>)
    ensures forall key :: (forall i :: 0 <= i < |effects| ==> !Touches(effects[i], key)) ==>
      Lookup(r, key) == Lookup(storage, key)
    ensures (forall i :: 0 <= i < |effects| ==> effects[i].Navigate?) ==> r == storage
    decreases |effects|
  {
    if effects == [] then storage
    else
      var rest := effects[1..];
      assert forall i :: 0 <= i < |rest| ==> rest[i] == effects[i + 1];
      ApplyStorage(ApplyEffect(storage, effects[0]), rest)
  }

  /** Navigations leave the storage alone. */
  function NavigationTo(url: Option<string>): (effects: seq<Effect>)
    ensures forall s :: ApplyStorage(s, effects) == s
  {
    if url.Some? then
      var effects := [Navigate(url.value)];
      assert effects[1..] == [];
      effects
    else []
  }

  /** Applying `first` then `rest` is applying their concatenation. */
  lemma {:induction false} ApplyStorageAppend(storage: map<string, string>, first: seq<Effect>, rest: seq<Effect>)
    ensures ApplyStorage(storage, first + rest) == ApplyStorage(ApplyStorage(storage, first), rest)
    decreases |first|
  {
    if first != [] {
      assert (first + rest)[1..] == first[1..] + rest;
      ApplyStorageAppend(ApplyEffect(storage, first[0]), first[1..], rest);
    } else {
      assert first + rest == rest;
    }
  }

  /** The parts of the browser the relay pages touch. */
  class Browser {
    var storage: map<string, string>
    var trace: seq<Effect>

    constructor (initial: map<string, string>)
      ensures storage == initial && trace == []
    {
      storage := initial;
      trace := [];
    }

    method GetItem(key: string) returns (v: Option<string>)
      ensures v == Lookup(storage, key)
    {
      v := if key in storage then Some(storage[key]) else None;
    }

    method SetItem(key: string, value: string)
      modifies this
      ensures storage == old(storage)[key := value]
      ensures trace == old(trace) + [StorageSet(key, value)]
    {
      storage := storage[key := value];
      trace := trace + [StorageSet(key, value)];
    }

    method RemoveItem(key: string)
      modifies this
      ensures storage == old(storage) - {key}
      ensures trace == old(trace) + [StorageRemove(key)]
    {
      storage := storage - {key};
      trace := trace + [StorageRemove(key)];
    }

    method Assign(url: string)
      modifies this
      ensures storage == old(storage)
      ensures trace == old(trace) + [Navigate(url)]
    {
      trace := trace + [Navigate(url)];
    }
  }

  // ---------------------------------------------------------------------------
  // MobileAuthStart

  /** What the start page does, given `?app_redirect=` and `?auth_url=`: nothing at all
      when either is absent or empty; otherwise store the target, then navigate to the
      authorization URL exactly as given. */
  function StartEffects(appRedirect: Option<string>, authUrl: Option<string>): (effects: seq<Effect>)
    ensures !Truthy(appRedirect) || !Truthy(authUrl) ==> effects == []
    ensures Truthy(appRedirect) && Truthy(authUrl) ==>
      effects == [StorageSet(RedirectKey, appRedirect.value), Navigate(authUrl.value)]
  {
    if !Truthy(appRedirect) || !Truthy(authUrl) then []
    else [StorageSet(RedirectKey, appRedirect.value), Navigate(authUrl.value)]
  }

  /** The error message the start page ends with. */
  function StartError(appRedirect: Option<string>, authUrl: Option<string>): (e: Option<string>)
    ensures e.Some? <==> StartEffects(appRedirect, authUrl) == []
  {
    if !Truthy(appRedirect) || !Truthy(authUrl) then Some(MissingParametersMessage) else None
  }

  /** After the start page, the relay key holds exactly the target and every other key
      is as before; on missing parameters the storage is untouched. */
  lemma StartStorage(storage: map<string, string>, appRedirect: Option<string>, authUrl: Option<string>)
    ensures Truthy(appRedirect) && Truthy(authUrl) ==>
      ApplyStorage(storage, StartEffects(appRedirect, authUrl)) == storage[RedirectKey := appRedirect.value]
    ensures !Truthy(appRedirect) || !Truthy(authUrl) ==>
      ApplyStorage(storage, StartEffects(appRedirect, authUrl)) == storage
  {
    if Truthy(appRedirect) && Truthy(authUrl) {
      var e := StartEffects(appRedirect, authUrl);
      assert e == [e[0]] + NavigationTo(authUrl);
      ApplyStorageAppend(storage, [e[0]], NavigationTo(authUrl));
      assert [e[0]][1..] == [];
    }
  }

  class MobileAuthStartPage {
    var error: Option<string>

    constructor ()
      ensures error == None
    {
      error := None;
    }

    /** The mount effect. */
    method Mount(b: Browser, appRedirect: Option<string>, authUrl: Option<string>)
      modifies this, b
      ensures b.trace == old(b.trace) + StartEffects(appRedirect, authUrl)
      ensures b.storage == ApplyStorage(old(b.storage), StartEffects(appRedirect, authUrl))
      ensures error == (if StartEffects(appRedirect, authUrl) == [] then StartError(appRedirect, authUrl) else old(error))
    {
      StartStorage(b.storage, appRedirect, authUrl);
      if !Truthy(appRedirect) || !Truthy(authUrl) {
        error := Some(MissingParametersMessage);
        return;
      }
      b.SetItem(RedirectKey, appRedirect.value);
      b.Assign(authUrl.value);
    }
  }

  // ---------------------------------------------------------------------------
  // MobileAuthCallback

  /** The page's three display states. */
  datatype Status = Processing | Redirecting | Error

  /** What the callback page reads from its URL with `URLSearchParams.get`. */
  datatype CallbackParams = CallbackParams(
    appRedirect: Option<string>,   // ?app_redirect=  (legacy fallback)
    code: Option<string>,          // ?code=          (PKCE)
    accessToken: Option<string>,   // #access_token=  (implicit flow)
    refreshToken: Option<string>)  // #refresh_token=

  /** '?' when the target has no query string yet, '&' when it has. */
  function Separator(target: string): (sep: char)
    ensures sep == '?' <==> !Contains(target, '?')
    ensures sep == '&' <==> Contains(target, '?')
  {
    if Contains(target, '?') then '&' else '?'
  }

  /** The name/value pairs given to `URLSearchParams` in the implicit flow, in order. */
  function TokenPairs(accessToken: string, refreshToken: Option<string>): (ps: seq<(string, string)>)
    ensures 1 <= |ps| <= 2 && ps[0] == ("access_token", accessToken)
    ensures |ps| == 2 <==> Truthy(refreshToken)
    ensures |ps| == 2 ==> ps[1] == ("refresh_token", refreshToken.value)
  {
    [("access_token", accessToken)] + if Truthy(refreshToken) then [("refresh_token", refreshToken.value)] else []
  }

  /** handleRedirect's URL for the deep-link `target`; None when there is neither a code
      nor an access token. `encode` stands for `encodeURIComponent` and `serialize` for
      `URLSearchParams.prototype.toString`, which the model does not define. */
  function MobileUrl(target: string, p: CallbackParams,
                     encode: string -> string, serialize: seq<(string, string)> -> string): (url: Option<string>)
    ensures url.Some? <==> Truthy(p.code) || Truthy(p.accessToken)
    // the deep link is the target, one separator, then the appended query
    ensures url.Some? ==> target <= url.value && |url.value| > |target| && url.value[|target|] == Separator(target)
    // a code takes precedence over the implicit-flow tokens
    ensures Truthy(p.code) ==> url.value[|target| + 1..] == "code=" + encode(p.code.value)
    ensures !Truthy(p.code) && Truthy(p.accessToken) ==>
      url.value[|target| + 1..] == serialize(TokenPairs(p.accessToken.value, p.refreshToken))
  {
    if Truthy(p.code) then Some(target + [Separator(target)] + "code=" + encode(p.code.value))
    else if Truthy(p.accessToken) then
      Some(target + [Separator(target)] + serialize(TokenPairs(p.accessToken.value, p.refreshToken)))
    else None
  }

  /** The target handleRedirect is called with: the stored value when it is non-empty,
      otherwise the `app_redirect` query parameter when that is non-empty. */
  function ChosenTarget(stored: Option<string>, p: CallbackParams): (t: Option<string>)
    ensures Truthy(stored) ==> t == stored
    ensures !Truthy(stored) ==> (t.Some? <==> Truthy(p.appRedirect))
    ensures !Truthy(stored) && t.Some? ==> t == p.appRedirect
  {
    if Truthy(stored) then stored
    else if Truthy(p.appRedirect) then p.appRedirect
    else None
  }

  /** The deep link a chosen target leads to, if any. */
  function RedirectUrl(target: Option<string>, p: CallbackParams,
                       encode: string -> string, serialize: seq<(string, string)> -> string): Option<string>
  {
    match target
    case None => None
    case Some(t) => MobileUrl(t, p, encode, serialize)
  }

  datatype CallbackRun = CallbackRun(effects: seq<Effect>, status: Status)

  /** One run of the callback page's mount effect on a browser whose storage is
      `storage`: remove the key, then either navigate to the deep link or end in Error. */
  function CallbackSpec(storage: map<string, string>, p: CallbackParams,
                        encode: string -> string, serialize: seq<(string, string)> -> string): (run: CallbackRun)
    ensures run.status != Processing
    ensures |run.effects| >= 1 && run.effects[0] == StorageRemove(RedirectKey)
    // an error leaves the browser where it is; a redirect is one navigation after the removal
    ensures run.status == Error <==> run.effects == [StorageRemove(RedirectKey)]
    ensures run.status == Redirecting ==> |run.effects| == 2 && run.effects[1].Navigate?
    // the stored target, when there is one, is where the deep link goes
    ensures run.status == Redirecting && Truthy(Lookup(storage, RedirectKey)) ==>
      storage[RedirectKey] <= run.effects[1].url
    ensures run.status == Redirecting && !Truthy(Lookup(storage, RedirectKey)) ==>
      Truthy(p.appRedirect) && p.appRedirect.value <= run.effects[1].url
  {
    var target := ChosenTarget(Lookup(storage, RedirectKey), p);
    var url := RedirectUrl(target, p, encode, serialize);
    assert url.Some? ==> target.Some? && target.value <= url.value;
    CallbackRun([StorageRemove(RedirectKey)] + NavigationTo(url), if url.Some? then Redirecting else Error)
  }

  /** Removing the key and then navigating leaves the storage without the key. */
  lemma RemoveThenNavigate(storage: map<string, string>, url: Option<string>)
    ensures ApplyStorage(storage, [StorageRemove(RedirectKey)] + NavigationTo(url)) == storage - {RedirectKey}
  {
    ApplyStorageAppend(storage, [StorageRemove(RedirectKey)], NavigationTo(url));
    assert [StorageRemove(RedirectKey)][1..] == [];
  }

  class MobileAuthCallbackPage {
    var status: Status

    constructor ()
      ensures status == Processing
    {
      status := Processing;
    }

    /** The mount effect: read the stored target, remove it, then branch. */
    method Mount(b: Browser, p: CallbackParams,
                 encode: string -> string, serialize: seq<(string, string)> -> string)
      modifies this, b
      ensures b.trace == old(b.trace) + CallbackSpec(old(b.storage), p, encode, serialize).effects
      ensures b.storage == ApplyStorage(old(b.storage), CallbackSpec(old(b.storage), p, encode, serialize).effects)
      ensures status == CallbackSpec(old(b.storage), p, encode, serialize).status
    {
      ghost var s0 := b.storage;
      RemoveThenNavigate(s0, RedirectUrl(ChosenTarget(Lookup(s0, RedirectKey), p), p, encode, serialize));
      var appRedirect := b.GetItem(RedirectKey);
      b.RemoveItem(RedirectKey);
      if !Truthy(appRedirect) {
        var fallback := p.appRedirect;
        if !Truthy(fallback) {
          status := Error;
          return;
        }
        HandleRedirect(b, fallback.value, p, encode, serialize);
      } else {
        HandleRedirect(b, appRedirect.value, p, encode, serialize);
      }
    }

    /** handleRedirect: navigate to the deep link, or show the error state. */
    method HandleRedirect(b: Browser, target: string, p: CallbackParams,
                          encode: string -> string, serialize: seq<(string, string)> -> string)
      modifies this, b
      ensures var url := MobileUrl(target, p, encode, serialize);
        && b.storage == old(b.storage)
        && b.trace == old(b.trace) + NavigationTo(url)
        && status == (if url.Some? then Redirecting else Error)
    {
      var mobileUrl: Option<string> := None;
      if Truthy(p.code) {
        var separator := if Contains(target, '?') then '&' else '?';
        mobileUrl := Some(target + [separator] + "code=" + encode(p.code.value));
      } else if Truthy(p.accessToken) {
        var separator := if Contains(target, '?') then '&' else '?';
        var params := [("access_token", p.accessToken.value)];
        if Truthy(p.refreshToken) {
          params := params + [("refresh_token", p.refreshToken.value)];
        }
        assert params == TokenPairs(p.accessToken.value, p.refreshToken);
        mobileUrl := Some(target + [separator] + serialize(params));
      }
      if mobileUrl.Some? {
        status := Redirecting;
        b.Assign(mobileUrl.value);
      } else {
        status := Error;
      }
    }
  }

  // ---------------------------------------------------------------------------
  // Properties of the relay

  /** The key is removed on every run, whatever the branch, and nothing else in the
      storage changes; the removal is the first effect. */
  lemma {:induction false} CallbackRemovesKeyFirst(storage: map<string, string>, p: CallbackParams,
                                                   encode: string -> string, serialize: seq<(string, string)> -> string)
    ensures var run := CallbackSpec(storage, p, encode, serialize);
      && run.effects[0] == StorageRemove(RedirectKey)
      && ApplyStorage(storage, run.effects) == storage - {RedirectKey}
  {
    var url := RedirectUrl(ChosenTarget(Lookup(storage, RedirectKey), p), p, encode, serialize);
    RemoveThenNavigate(storage, url);
  }

  /** Read-once: a second run of the callback page finds nothing stored, so it can only
      use the query fallback. */
  lemma {:induction false} CallbackReadOnce(storage: map<string, string>, p: CallbackParams, p2: CallbackParams,
                                            encode: string -> string, serialize: seq<(string, string)> -> string)
    ensures var after := ApplyStorage(storage, CallbackSpec(storage, p, encode, serialize).effects);
      && Lookup(after, RedirectKey) == None
      && ChosenTarget(Lookup(after, RedirectKey), p2) == ChosenTarget(None, p2)
  {
    CallbackRemovesKeyFirst(storage, p, encode, serialize);
  }

  /** With nothing stored and no `app_redirect` parameter, the page ends in Error and
      does not navigate. */
  lemma {:induction false} CallbackNoTarget(storage: map<string, string>, p: CallbackParams,
                                            encode: string -> string, serialize: seq<(string, string)> -> string)
    requires !Truthy(Lookup(storage, RedirectKey)) && !Truthy(p.appRedirect)
    ensures CallbackSpec(storage, p, encode, serialize) == CallbackRun([StorageRemove(RedirectKey)], Error)
  {
  }

  /** A code wins over tokens: the URL is the target, the separator, `code=` and the
      encoded code, and the fragment is not looked at. */
  lemma {:induction false} CodeFlowUrl(target: string, p: CallbackParams,
                                       encode: string -> string, serialize: seq<(string, string)> -> string)
    requires Truthy(p.code)
    ensures MobileUrl(target, p, encode, serialize) == Some(target + [Separator(target)] + "code=" + encode(p.code.value))
    ensures forall at, rt :: MobileUrl(target, p.(accessToken := at, refreshToken := rt), encode, serialize)
                             == MobileUrl(target, p, encode, serialize)
  {
  }

  /** Without a code, an access token gives a URL whose appended pairs always carry the
      access token and carry the refresh token exactly when one was given. */
  lemma {:induction false} TokenFlowUrl(target: string, p: CallbackParams,
                                        encode: string -> string, serialize: seq<(string, string)> -> string)
    requires !Truthy(p.code) && Truthy(p.accessToken)
    ensures var ps := TokenPairs(p.accessToken.value, p.refreshToken);
      && MobileUrl(target, p, encode, serialize) == Some(target + [Separator(target)] + serialize(ps))
      && ("access_token", p.accessToken.value) in ps
      && (Truthy(p.refreshToken) ==> ("refresh_token", p.refreshToken.value) in ps)
      && (forall i :: 0 <= i < |ps| && ps[i].0 == "refresh_token" ==> Truthy(p.refreshToken) && ps[i] == ("refresh_token", p.refreshToken.value))
      && (forall i :: 0 <= i < |ps| ==> ps[i].0 in {"access_token", "refresh_token"})
  {
    assert "access_token" != "refresh_token";
  }

  /** A URL is built exactly when there is a code or an access token: a refresh token
      alone is not enough. Every URL starts with the target and its separator. */
  lemma {:induction false} MobileUrlShape(target: string, p: CallbackParams,
                                          encode: string -> string, serialize: seq<(string, string)> -> string)
    ensures MobileUrl(target, p, encode, serialize).Some? <==> Truthy(p.code) || Truthy(p.accessToken)
    ensures var url := MobileUrl(target, p, encode, serialize);
      url.Some? ==> target + [Separator(target)] <= url.value
  {
  }

  /** The page's status leaves Processing on every run, and it is Redirecting exactly
      when the run navigates; a navigation always goes to a URL that starts with the
      chosen target. */
  lemma {:induction false} CallbackStatusAndNavigation(storage: map<string, string>, p: CallbackParams,
                                                       encode: string -> string, serialize: seq<(string, string)> -> string)
    ensures var run := CallbackSpec(storage, p, encode, serialize);
      && run.status != Processing
      && (run.status == Redirecting <==> |run.effects| == 2)
      && (run.status == Redirecting ==>
            var t := ChosenTarget(Lookup(storage, RedirectKey), p);
            t.Some? && run.effects[1].Navigate? && t.value <= run.effects[1].url)
      && (run.status == Error <==>
            ChosenTarget(Lookup(storage, RedirectKey), p).None? || (!Truthy(p.code) && !Truthy(p.accessToken)))
  {
    var t := ChosenTarget(Lookup(storage, RedirectKey), p);
    if t.Some? {
      MobileUrlShape(t.value, p, encode, serialize);
    }
  }

  /** The relay's round trip: start with target T and authorization URL U, then the
      callback with code C navigates to T, its separator, `code=` and the encoded C, and
      leaves the storage as it was before the start page except that the key is gone. */
  lemma {:induction false} RelayRoundTrip(storage: map<string, string>, t: string, u: string, p: CallbackParams,
                                          encode: string -> string, serialize: seq<(string, string)> -> string)
    requires t != "" && u != "" && Truthy(p.code)
    ensures var afterStart := ApplyStorage(storage, StartEffects(Some(t), Some(u)));
      var run := CallbackSpec(afterStart, p, encode, serialize);
      && StartEffects(Some(t), Some(u)) == [StorageSet(RedirectKey, t), Navigate(u)]
      && run.effects == [StorageRemove(RedirectKey), Navigate(t + [Separator(t)] + "code=" + encode(p.code.value))]
      && run.status == Redirecting
      && ApplyStorage(afterStart, run.effects) == storage - {RedirectKey}
  {
    StartStorage(storage, Some(t), Some(u));
    var afterStart := ApplyStorage(storage, StartEffects(Some(t), Some(u)));
    assert Lookup(afterStart, RedirectKey) == Some(t);
    CallbackRemovesKeyFirst(afterStart, p, encode, serialize);
    assert afterStart - {RedirectKey} == storage - {RedirectKey};
  }
}
