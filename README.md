# nina-web client core, modelled in Dafny

nina-web is the React web client of a long-term childcare marketplace. Families
publish vacancies, nannies publish their availability, and subscribers see each
other's contact details. This project models the parts of the client that hold
logic rather than markup, and proves properties about them:

- **The mobile OAuth relay** (`mobile_relay.dfy`). `MobileAuthStart` stores the app's
  deep-link target in `localStorage` and sends the browser to the identity provider.
  `MobileAuthCallback` reads that target once, removes it, and navigates to the deep
  link with the PKCE code or the implicit-flow tokens appended. The browser is a
  class that holds the storage map and a trace of effects in order.
- **Navigation decisions.** These are the web OAuth callback page and its 8000 ms
  timer (`auth_callback.dfy`), the three route guards and the route table of
  `App.jsx` (`routes.dfy`), and the dashboard link of the payment page.
- **The session store** `AuthProvider` (`session.dfy`). It is a state machine over
  `(user, profile, loading)` driven by events: the initial session check, session
  changes, profile fetches that settle, and sign-out.
- **Pages with state.** These are the payment result page's bounded re-check
  counter (`payment_result.dfy`), the subscription hook (`subscription.dfy`), both
  dashboards (`family_dashboard.dfy`, `nanny_dashboard.dfy`), the nanny card
  (`nanny_card.dfy`), the onboarding form (`create_profile.dfy`), the contact form
  (`contact_form.dfy`), and the vacancy and availability forms (`vacancy_modal.dfy`,
  `availability_modal.dfy`, sharing `form_fields.dfy`).

Every page whose handlers update React state step by step is a class. Its methods
are proved against pure functions of the old state (`State() == Step(old(State()), …)`),
and the properties are lemmas about those functions. Backend replies, identity-provider
sessions, file reads and timer expiries are method parameters: an `ApiResult` that is
`Ok(data)` or `Failed`. The JavaScript semantics the code relies on are written out in
`common.dfy` and `text.dfy`:

- string truthiness;
- `trim` with the ECMAScript white-space set;
- `split` on one character;
- `Array.isArray(x) ? x : []`;
- `filter`;
- React printing `0` for `{0 && …}`.

Behaviour of the code that the model keeps as written:

- The web callback's timer is 8000 ms (`src/pages/auth/AuthCallback.jsx:27`).
- Once the timer has fired, the callback goes to `/login` even while `loading` is
  still true. The timed-out check comes first (`src/pages/auth/AuthCallback.jsx:32`).
- The callback sends a visitor without a role to `/select-profile` without checking
  that anyone is signed in (`src/pages/auth/AuthCallback.jsx:44`).
- The relay does not exchange the PKCE code itself. It only copies the code to the
  deep link (`src/pages/auth/MobileAuthCallback.jsx:58-61`).
- The relay's deep-link target is whatever `app_redirect` carried, stored per
  session (`src/pages/auth/MobileAuthStart.jsx:35`).
- The timer is cleared only when the page unmounts
  (`src/pages/auth/AuthCallback.jsx:28`).
- The session store applies a profile reply whenever it settles, whatever happened
  in between (`src/context/AuthContext.jsx:41-51`).
  `Session.StaleProfileSurvivesSignOut` shows one resulting state: a profile with no
  user.
- The payment page's comment speaks of three attempts
  (`src/pages/PaymentResult.jsx:37`). The code makes four (`MAX_ATTEMPTS = 4`, line
  51), and so does the model.
- The contact form sends `split(',')[1]` of the data URL
  (`src/components/ui/ContactFormModal.jsx:78`). That is the text between the first
  and the second comma, and `undefined` when there is no comma.

## Model

| member | source | states |
|---|---|---|
| Common.ArrayOrEmpty | src/pages/dashboard/FamilyDashboard.jsx:34 | an array reply is kept as it is; anything else becomes the empty list |
| Common.Filter | src/pages/dashboard/FamilyDashboard.jsx:47 | the result is no longer than the input, holds only elements that pass, and holds every element that passes |
| Common.FilterIsSubsequence | src/pages/dashboard/FamilyDashboard.jsx:47 | filtering keeps the surviving elements in their original order |
| Common.FilterIdempotent | src/pages/dashboard/FamilyDashboard.jsx:61 | filtering twice with the same test equals filtering once |
| Text.Trim | src/pages/auth/CreateProfilePage.jsx:36 | the result is the slice of the input between a leading and a trailing run of JavaScript white space, with no white space left at either end; it is empty exactly when the input is all white space |
| Text.Split | src/pages/dashboard/FamilyDashboard.jsx:67 | there is at least one piece; no piece contains the separator; the first piece is the text before the first separator; without a separator the only piece is the whole string |
| Text.JoinSplit | src/components/dashboard/NannyCard.jsx:13 | joining the pieces of a split with the same character gives the string back |
| Text.SplitHasSecondPiece | src/components/ui/ContactFormModal.jsx:78 | a split has a second piece exactly when the separator occurs |
| Text.SplitAfterFirst | src/components/ui/ContactFormModal.jsx:78 | text whose first separator follows `a` splits into `a` and then the pieces of the rest |
| Text.NatToString | src/pages/dashboard/FamilyDashboard.jsx:130 | the decimal text of a number is non-empty, made of digits, and has no leading zero except for zero itself |
| Text.Upper | src/components/dashboard/NannyCard.jsx:13 | upper-casing keeps the length and maps every character by its one-character upper case (Basic Latin and Latin-1) |
| Text.FirstWordOr | src/pages/dashboard/FamilyDashboard.jsx:67 | an absent name gives the fallback; a present one gives its prefix up to the first space, which has no space in it |
| MobileRelay.NavigationTo | src/pages/auth/MobileAuthCallback.jsx:74 | a navigation never changes the storage |
| MobileRelay.ApplyStorage | src/pages/auth/MobileAuthCallback.jsx:28-29 | a key no effect writes or removes keeps its value or its absence; navigations alone leave the storage unchanged |
| MobileRelay.Browser.GetItem | src/pages/auth/MobileAuthCallback.jsx:28 | `getItem` gives the stored value, or nothing for an absent key |
| MobileRelay.Browser.SetItem | src/pages/auth/MobileAuthStart.jsx:35 | `setItem` stores the value under the key and records the write |
| MobileRelay.Browser.RemoveItem | src/pages/auth/MobileAuthCallback.jsx:29 | `removeItem` deletes the key and records the removal |
| MobileRelay.Browser.Assign | src/pages/auth/MobileAuthCallback.jsx:74 | assigning `window.location.href` records the navigation and leaves the storage alone |
| MobileRelay.StartEffects | src/pages/auth/MobileAuthStart.jsx:28-40 | a missing or empty parameter means no effect at all; otherwise the target is stored under `nina_app_redirect` and then the browser goes to `auth_url` unchanged |
| MobileRelay.StartError | src/pages/auth/MobileAuthStart.jsx:28-32 | the error message is set exactly when the page does nothing |
| MobileRelay.StartStorage | src/pages/auth/MobileAuthStart.jsx:35 | after the start page the key holds exactly the target and no other key changes; on missing parameters the storage is untouched |
| MobileRelay.MobileAuthStartPage.Mount | src/pages/auth/MobileAuthStart.jsx:23-41 | the browser's trace, storage and the page's error are those of StartEffects and StartError |
| MobileRelay.Separator | src/pages/auth/MobileAuthCallback.jsx:58-64 | the separator is '?' exactly when the target has no '?', and '&' exactly when it has one |
| MobileRelay.TokenPairs | src/pages/auth/MobileAuthCallback.jsx:65-67 | the access token comes first; the refresh token is added exactly when one is present |
| MobileRelay.MobileUrl | src/pages/auth/MobileAuthCallback.jsx:56-69 | a URL exists exactly when there is a code or an access token; it is the target, one separator, then `code=` and the encoded code when there is a code, else the serialized token pairs |
| MobileRelay.ChosenTarget | src/pages/auth/MobileAuthCallback.jsx:28-43 | a non-empty stored target wins; the `app_redirect` query parameter is used only when storage gave nothing |
| MobileRelay.MobileAuthCallbackPage.constructor | src/pages/auth/MobileAuthCallback.jsx:24 | the status starts as Processing |
| MobileRelay.MobileAuthCallbackPage.Mount | src/pages/auth/MobileAuthCallback.jsx:26-44 | the trace, storage and status after the mount effect are those of the callback's specification: remove the key, then navigate or end in Error |
| MobileRelay.MobileAuthCallbackPage.HandleRedirect | src/pages/auth/MobileAuthCallback.jsx:46-81 | storage is untouched; the page navigates to the built URL and is Redirecting, or is Error when no URL could be built |
| MobileRelay.CallbackSpec | src/pages/auth/MobileAuthCallback.jsx:26-80 | the run removes the key first and leaves Processing; it ends in Error exactly when that removal is its only effect, otherwise it makes one navigation to a URL that starts with the stored target, or with `app_redirect` when nothing was stored |
| MobileRelay.CallbackRemovesKeyFirst | src/pages/auth/MobileAuthCallback.jsx:28-29 | the first effect of every run removes the key, and the run leaves every other key alone |
| MobileRelay.CallbackReadOnce | src/pages/auth/MobileAuthCallback.jsx:28-29 | a second run finds nothing stored and can only use the query fallback |
| MobileRelay.CallbackNoTarget | src/pages/auth/MobileAuthCallback.jsx:31-38 | with no stored target and no query parameter the run only removes the key and ends in Error |
| MobileRelay.CodeFlowUrl | src/pages/auth/MobileAuthCallback.jsx:58-61 | with a code the URL is target + separator + `code=` + the encoded code, whatever the fragment holds |
| MobileRelay.TokenFlowUrl | src/pages/auth/MobileAuthCallback.jsx:62-68 | without a code, an access token gives pairs that always carry it and carry a refresh token only when one was given |
| MobileRelay.MobileUrlShape | src/pages/auth/MobileAuthCallback.jsx:56-71 | a URL is built exactly when there is a code or an access token; a refresh token alone is not enough; every URL starts with the target and its separator |
| MobileRelay.CallbackStatusAndNavigation | src/pages/auth/MobileAuthCallback.jsx:71-80 | the status always leaves Processing; it is Redirecting exactly when the run navigates, to a URL that starts with the chosen target |
| MobileRelay.RelayRoundTrip | src/pages/auth/MobileAuthCallback.jsx:28-61 | start with target T, then the callback with code C navigates to T + separator + `code=` + encoded C and leaves the key absent |
| Session.RoleOf | src/App.jsx:57 | `profile?.role` is truthy exactly when there is a profile with a non-empty role |
| Session.Step | src/context/AuthContext.jsx:14-75 | only session events change the user; a session change without a user clears everything and stops loading; a settled fetch always stops loading, an answered one stores the body as the profile (a JSON `null` clears it) and a failed one keeps the profile; the initial check without a session leaves the profile; sign-out clears the profile only without an error |
| Session.RequestOf | src/context/AuthContext.jsx:28-31 | a session event with a user fetches that user's profile by id and email; no other event fetches |
| Session.RefreshRequest | src/context/AuthContext.jsx:96 | refreshing without a user sends nothing; with one it asks for that user's profile |
| Session.UserIsLastSession | src/context/AuthContext.jsx:18-29 | after any sequence of events the store's user is the one the latest session event carried |
| Session.LoadingNeverReturns | src/context/AuthContext.jsx:41-51 | once loading is false, no event sets it back to true |
| Session.StaleProfileSurvivesSignOut | src/context/AuthContext.jsx:28-51 | sign-in, sign-out and then the first fetch settling leaves a profile with no user: there is no stale-fetch guard |
| Session.NullProfileReplyClears | src/context/AuthContext.jsx:44-45 | a `null` profile body after a switch of user leaves no profile rather than the previous one |
| Session.PlaceholderName | src/context/AuthContext.jsx:64 | the placeholder name is the part of the email before the first '@' |
| Session.AuthProvider.constructor | src/context/AuthContext.jsx:10-12 | user null, profile null, loading true |
| Session.AuthProvider.InitAuth | src/context/AuthContext.jsx:16-24 | the new state is Step of the initial-session event, and the request sent is RequestOf it |
| Session.AuthProvider.OnAuthStateChange | src/context/AuthContext.jsx:28-36 | the new state is Step of the session-change event, and the request sent is RequestOf it |
| Session.AuthProvider.ProfileSettled | src/context/AuthContext.jsx:41-51 | the new state is Step of the settled fetch |
| Session.AuthProvider.RefreshProfile | src/context/AuthContext.jsx:96 | the request is RefreshRequest of the current state, and nothing changes |
| Session.AuthProvider.Logout | src/context/AuthContext.jsx:71-75 | the new state is Step of the sign-out result; the method throws exactly when sign-out failed |
| AuthCallback.Decide | src/pages/auth/AuthCallback.jsx:31-46 | timed out means `/login`; otherwise nothing while loading; then the role's dashboard, or `/select-profile` without a role, and no user is checked |
| AuthCallback.OneDestination | src/pages/auth/AuthCallback.jsx:31-46 | every navigation replaces history; the page navigates exactly when timed out or settled, to login, onboarding or a dashboard |
| AuthCallback.TimedOutOnlyByArmedTimer | src/pages/auth/AuthCallback.jsx:23-29 | `timedOut` starts false and becomes true only when the timer fires after a mount with no cleanup in between; the timer is armed exactly after a mount |
| AuthCallback.AuthCallbackPage.constructor | src/pages/auth/AuthCallback.jsx:23 | not timed out, no timer armed |
| AuthCallback.AuthCallbackPage.Mount | src/pages/auth/AuthCallback.jsx:27 | arms the timer with a delay of 8000 ms (TimeoutMs) |
| AuthCallback.AuthCallbackPage.Elapse | src/pages/auth/AuthCallback.jsx:27 | an armed timer sets `timedOut` and disarms |
| AuthCallback.AuthCallbackPage.Cleanup | src/pages/auth/AuthCallback.jsx:28 | disarms the timer |
| AuthCallback.AuthCallbackPage.Navigate | src/pages/auth/AuthCallback.jsx:31-46 | the navigation is Decide of the page's flag and the store's state |
| Routes.PublicRoute | src/App.jsx:27-34 | a spinner while loading; a redirect to the role's dashboard exactly when user and role are both present; otherwise the page |
| Routes.DashboardPath | src/App.jsx:58 | the path is `/dashboard/` followed by the role |
| Routes.ProtectedRoute | src/App.jsx:39-44 | a spinner while loading; no user goes to `/login`; otherwise the page |
| Routes.RoleDashboard | src/App.jsx:53-60 | checks loading, user, role and role match in that order; shows a dashboard exactly when the profile's role is the route's; family gets FamilyDashboard, any other role NannyDashboard |
| Routes.GuardsWaitForLoading | src/App.jsx:29-55 | all three guards show the spinner while loading |
| Routes.RouteFor | src/App.jsx:69-98 | the catch-all is used exactly for paths outside the table |
| Routes.Render | src/App.jsx:67-99 | every redirect replaces history; the spinner shows only while loading and only on a guarded route; a dashboard shows only to a signed-in user with a role; the profile pages only to a signed-in user |
| Routes.UnknownPathGoesHome | src/App.jsx:98 | a path outside the table redirects to `/`, whatever the session |
| Routes.DashboardPathInjective | src/App.jsx:58 | different roles have different dashboard paths |
| Routes.MismatchRedirectSettles | src/App.jsx:58 | a mismatch redirect goes to the profile's own role, where the guard shows the dashboard |
| Routes.DashboardRoute | src/App.jsx:82-83 | the table has a dashboard route for exactly "family" and "nanny" |
| Routes.MismatchRedirectThroughTable | src/App.jsx:58-98 | through the table, a mismatch redirect shows a dashboard for family and nanny and falls through to `/` for any other role |
| PaymentResult.Config | src/pages/PaymentResult.jsx:9-41 | success and failure have their own entries; any other outcome reads as pending |
| PaymentResult.ConfigTitlesDiffer | src/pages/PaymentResult.jsx:9-31 | the three entries have distinct titles |
| PaymentResult.InitialPoll | src/pages/PaymentResult.jsx:45 | `checking` starts true exactly for the success outcome |
| PaymentResult.Start | src/pages/PaymentResult.jsx:47-64 | other outcomes change nothing; a successful payment arms the first check with no attempt made and no refetch yet |
| PaymentResult.Fire | src/pages/PaymentResult.jsx:53-61 | a pending check refetches once and counts one attempt; the next check is armed, and checking goes on, exactly while fewer than four have run |
| PaymentResult.SuccessPollsFourTimes | src/pages/PaymentResult.jsx:50-60 | after k timer expiries `refetch` has run min(k, 4) times, and checking ends exactly with the fourth |
| PaymentResult.OtherOutcomesNeverPoll | src/pages/PaymentResult.jsx:48 | any other outcome never polls and never shows checking |
| PaymentResult.SpinnerUntilFourthCheck | src/pages/PaymentResult.jsx:83-88 | the "checking" line shows exactly for a successful payment until the fourth check has returned |
| PaymentResult.PaymentResultPage.constructor | src/pages/PaymentResult.jsx:45 | the initial polling state of the outcome |
| PaymentResult.PaymentResultPage.Mount | src/pages/PaymentResult.jsx:47-65 | arms the first check for a successful payment only |
| PaymentResult.PaymentResultPage.Poll | src/pages/PaymentResult.jsx:53-61 | one re-check, one more attempt, then the next timer or the end of checking |
| PaymentResult.DashPath | src/pages/PaymentResult.jsx:67-69 | the family dashboard exactly when the profile's role is "family"; otherwise the nanny dashboard |
| PaymentResult.DashPathIsARoute | src/pages/PaymentResult.jsx:67-69 | the link is always a dashboard route of the table and agrees with the role for family and nanny |
| Subscription.Check | src/hooks/useSubscription.js:21-35 | loading is false after every check; no user or a failure keeps the flag and the date; a reply is copied |
| Subscription.StatusRequest | src/hooks/useSubscription.js:22-27 | a request is sent exactly when there is a user, for that user's id |
| Subscription.StatusIsLastReply | src/hooks/useSubscription.js:21-35 | after any series of checks the flag and the date come from the latest successful reply, or are the initial ones |
| Subscription.SubscriptionHook.constructor | src/hooks/useSubscription.js:17-19 | not subscribed, no expiry, loading |
| Subscription.SubscriptionHook.CheckStatus | src/hooks/useSubscription.js:21-35 | the state after the check is Check of the old state, and the request is StatusRequest |
| Subscription.Subscribe | src/hooks/useSubscription.js:41-48 | no user throws before any request; otherwise the reply is returned, and a tab opens exactly for a non-empty `checkout_url` |
| NannyCard.FirstLetters | src/components/dashboard/NannyCard.jsx:13 | at most one letter per piece |
| NannyCard.FirstLettersAreWordStarts | src/components/dashboard/NannyCard.jsx:13 | the first letters of the pieces between spaces are exactly the first characters of the words |
| NannyCard.NoWordStartsIffSpaces | src/components/dashboard/NannyCard.jsx:13 | there is no word start exactly when the text is all spaces |
| NannyCard.TakeTwo | src/components/dashboard/NannyCard.jsx:13 | `slice(0, 2)` is a prefix of length min(2, n) |
| NannyCard.Initials | src/components/dashboard/NannyCard.jsx:12-14 | "?" for a missing or empty name; otherwise the upper-cased starts of the first two words: at most two characters, empty exactly for an all-space name |
| NannyCard.AvatarOf | src/components/dashboard/NannyCard.jsx:20-31 | the photo exactly when its URL is truthy, otherwise the initials |
| NannyCard.DisplayName | src/components/dashboard/NannyCard.jsx:34 | the name when truthy, else "Niñera" |
| NannyCard.Plural | src/components/dashboard/NannyCard.jsx:41 | the singular word exactly when the count is 1 |
| NannyCard.ExperienceLine | src/components/dashboard/NannyCard.jsx:39-43 | shown exactly for a positive number of years, with the singular unit exactly for 1 |
| NannyCard.GateNumber | src/components/dashboard/NannyCard.jsx:63 | a missing number shows nothing, zero prints "0", any other number shows the element |
| NannyCard.MinMonthsLine | src/components/dashboard/NannyCard.jsx:63-67 | the line is shown exactly for a non-zero value and is singular exactly for 1; zero prints "0" |
| NannyCard.ContactOf | src/components/dashboard/NannyCard.jsx:71-95 | phone and email are shown only to subscribers, each only when truthy; others get the contact button |
| FamilyDashboard.FetchNannies | src/pages/dashboard/FamilyDashboard.jsx:29-40 | nothing without a user; otherwise the list is the array reply or empty, a failure keeps it, and loading ends |
| FamilyDashboard.FetchMyVacancies | src/pages/dashboard/FamilyDashboard.jsx:42-51 | nothing without a user or on failure; otherwise the active vacancies of the reply |
| FamilyDashboard.FetchedVacanciesAreTheActiveOnes | src/pages/dashboard/FamilyDashboard.jsx:47 | the stored vacancies are exactly the active ones of the reply, in the reply's order |
| FamilyDashboard.DeactivateVacancy | src/pages/dashboard/FamilyDashboard.jsx:58-65 | a missing user or a failure changes nothing; a success removes that id |
| FamilyDashboard.DeactivateRequest | src/pages/dashboard/FamilyDashboard.jsx:60 | a PATCH is sent exactly when there is a user |
| FamilyDashboard.DeactivateRemovesExactlyThatId | src/pages/dashboard/FamilyDashboard.jsx:61 | every vacancy with that id goes, the others stay in order, and closing again changes nothing |
| Session.GreetingName | src/pages/dashboard/FamilyDashboard.jsx:67 | the fallback ("Familia" here, "Niñera" at `src/pages/dashboard/NannyDashboard.jsx:71`) without a profile or full name; otherwise the full name's text up to its first space, which it stops at |
| FamilyDashboard.CountLabel | src/pages/dashboard/FamilyDashboard.jsx:128-132 | hidden for zero; otherwise the count followed by " activa" or " activas", ending in 's' exactly when the count is not 1 |
| FamilyDashboard.FamilyDashboardPage.constructor | src/pages/dashboard/FamilyDashboard.jsx:23-25 | empty lists, nannies loading |
| FamilyDashboard.FamilyDashboardPage.FetchNanniesFor | src/pages/dashboard/FamilyDashboard.jsx:29-40 | the new state is FetchNannies of the old |
| FamilyDashboard.FamilyDashboardPage.FetchMyVacanciesFor | src/pages/dashboard/FamilyDashboard.jsx:42-51 | the new state is FetchMyVacancies of the old |
| FamilyDashboard.FamilyDashboardPage.HandleDeactivateVacancy | src/pages/dashboard/FamilyDashboard.jsx:58-65 | the new state is DeactivateVacancy of the old, and the request is DeactivateRequest |
| NannyDashboard.AvailabilityOf | src/pages/dashboard/NannyDashboard.jsx:47 | the reply is kept exactly when its id is present and non-zero |
| NannyDashboard.FetchVacancies | src/pages/dashboard/NannyDashboard.jsx:29-40 | nothing without a user; otherwise the array reply or empty, a failure keeps the list, and loading ends |
| NannyDashboard.FetchMyAvailability | src/pages/dashboard/NannyDashboard.jsx:42-51 | nothing without a user or on failure; otherwise the reply if it has a truthy id, else none |
| NannyDashboard.DeactivateRequest | src/pages/dashboard/NannyDashboard.jsx:58-64 | a PATCH is sent exactly when there is an availability and a user |
| NannyDashboard.Deactivate | src/pages/dashboard/NannyDashboard.jsx:58-69 | no availability, no user or a failure changes nothing; a success clears the availability |
| NannyDashboard.ValidPreserved | src/pages/dashboard/NannyDashboard.jsx:47-65 | a stored availability always has a non-zero id |
| NannyDashboard.ButtonLabel | src/pages/dashboard/NannyDashboard.jsx:88 | the "update" label exactly when an availability is published |
| NannyDashboard.LinesOf | src/pages/dashboard/NannyDashboard.jsx:148-164 | hours and minimum months are shown when non-zero, print "0" when zero and nothing when missing; the schedule is shown, as given, exactly when truthy |
| NannyDashboard.NannyDashboardPage.constructor | src/pages/dashboard/NannyDashboard.jsx:23-25 | no vacancies, no availability, loading |
| NannyDashboard.NannyDashboardPage.FetchVacanciesFor | src/pages/dashboard/NannyDashboard.jsx:29-40 | the new state is FetchVacancies of the old |
| NannyDashboard.NannyDashboardPage.FetchMyAvailabilityFor | src/pages/dashboard/NannyDashboard.jsx:42-51 | the new state is FetchMyAvailability of the old |
| NannyDashboard.NannyDashboardPage.HandleDeactivate | src/pages/dashboard/NannyDashboard.jsx:58-69 | the new state is Deactivate of the old, and the request is DeactivateRequest |
| FormFields.ParseNatToString | src/components/dashboard/VacancyModal.jsx:30 | reading the decimal digits of a number gives the number back |
| FormFields.ToNumber | src/components/dashboard/VacancyModal.jsx:30 | `Number(value)` is a number, and 0 for a blank value |
| FormFields.NumberOfIntText | src/components/dashboard/VacancyModal.jsx:30 | the text of any integer converts back to that integer |
| FormFields.Converted | src/components/dashboard/VacancyModal.jsx:30 | a text input stores its text, a number input `Number` of it |
| FormFields.Changed | src/components/dashboard/VacancyModal.jsx:26-32 | only the named field changes, to the converted value, and the form still fits its inputs |
| FormFields.WithAuthId | src/components/dashboard/VacancyModal.jsx:43 | the body is the form plus `auth_id` |
| FormFields.AcceptedEffects | src/components/dashboard/VacancyModal.jsx:53-54 | after an accepted post, `onSuccess` runs when given and then `onClose` runs last |
| FormFields.Post | src/components/dashboard/VacancyModal.jsx:40-60 | loading ends; a missing user sends nothing and sets the error; success resets to the defaults and calls back; failure keeps the form and sets the error |
| FormFields.PostSendsTheForm | src/components/dashboard/VacancyModal.jsx:43-59 | with a user the first effect posts the form; the form is closed exactly on success |
| VacancyModal.DefaultsFit | src/components/dashboard/VacancyModal.jsx:16-24 | the default form has one value of the right kind per input |
| VacancyModal.Title | src/components/dashboard/VacancyModal.jsx:36 | the title field is always text, never converted to a number |
| VacancyModal.Submit | src/components/dashboard/VacancyModal.jsx:34-61 | a blank title only sets the error; otherwise the form is posted |
| VacancyModal.BlankTitleNeverPosts | src/components/dashboard/VacancyModal.jsx:36-39 | a white-space title posts nothing and leaves the form and loading unchanged |
| VacancyModal.SubmitKeepsFormShape | src/components/dashboard/VacancyModal.jsx:43-52 | the form always fits its inputs; with a title and a user the post carries the form and `auth_id` |
| VacancyModal.VacancyForm.constructor | src/components/dashboard/VacancyModal.jsx:14-24 | the default form, not loading, no error |
| VacancyModal.VacancyForm.HandleChange | src/components/dashboard/VacancyModal.jsx:26-32 | the form is Changed by that input; nothing else changes |
| VacancyModal.VacancyForm.HandleSubmit | src/components/dashboard/VacancyModal.jsx:34-61 | the new state and the effects are Submit of the old state |
| AvailabilityModal.Submit | src/components/dashboard/AvailabilityModal.jsx:31-50 | loading always ends; without a user nothing is posted and the error is set; with one the form is posted unvalidated with the user's id, reset to the defaults on success, kept with the error on failure |
| AvailabilityModal.CallbacksOnlyOnAcceptance | src/components/dashboard/AvailabilityModal.jsx:36-44 | onClose is called exactly when a user's post succeeds, onSuccess exactly then and when given, and onClose comes last |
| AvailabilityModal.AvailabilityForm.constructor | src/components/dashboard/AvailabilityModal.jsx:14-21 | the default form, not loading, no error |
| AvailabilityModal.AvailabilityForm.HandleChange | src/components/dashboard/AvailabilityModal.jsx:23-29 | the form is Changed by that input; nothing else changes |
| AvailabilityModal.AvailabilityForm.HandleSubmit | src/components/dashboard/AvailabilityModal.jsx:31-50 | the new state and the effects are Submit of the old state |
| CreateProfile.AccountType | src/pages/auth/CreateProfilePage.jsx:11 | a non-empty `type` passes through unvalidated; otherwise "family" |
| CreateProfile.FullName | src/pages/auth/CreateProfilePage.jsx:36 | the full name is the trimmed `first + " " + last`: no white space at either end, and empty exactly when both names are blank |
| CreateProfile.ProfileData | src/pages/auth/CreateProfilePage.jsx:35-42 | the full name is the trimmed first and last name; locality comes from city and role from the type; phone, address and bio are copied |
| CreateProfile.GreetingIsFirstName | src/pages/auth/CreateProfilePage.jsx:36 | for a first name without white space, the dashboards' greeting of the saved full name is that first name |
| CreateProfile.SubmitEffects | src/pages/auth/CreateProfilePage.jsx:30-53 | success saves, refreshes, then navigates to the type's dashboard, replacing history; failure or a missing user alerts; the page navigates only after a save |
| CreateProfile.SavedTypeReachesDashboard | src/pages/auth/CreateProfilePage.jsx:46 | the navigation reaches a dashboard for family and nanny; any other type falls through to `/` |
| CreateProfile.CreateProfilePage.constructor | src/pages/auth/CreateProfilePage.jsx:11-24 | the account type, an empty form, not loading |
| CreateProfile.CreateProfilePage.HandleChange | src/pages/auth/CreateProfilePage.jsx:26-28 | only the named field changes |
| CreateProfile.CreateProfilePage.HandleSubmit | src/pages/auth/CreateProfilePage.jsx:30-53 | the effects are SubmitEffects; the form is kept and loading ends |
| ContactForm.Reset | src/components/ui/ContactFormModal.jsx:26-33 | everything back to the start with the default tab, except loading |
| ContactForm.TabChanged | src/components/ui/ContactFormModal.jsx:40-44 | the new tab, no file and no error; message and email are kept |
| ContactForm.FileChanged | src/components/ui/ContactFormModal.jsx:46-55 | nothing picked changes nothing; a file over 5 MB sets the error and keeps the old file; any other file replaces it |
| ContactForm.AfterFirstComma | src/components/ui/ContactFormModal.jsx:78 | `undefined` exactly when the data URL has no comma; otherwise a comma-free segment |
| ContactForm.DataUrlPayload | src/components/ui/ContactFormModal.jsx:78 | for `data:<type>;base64,<data>` the attachment is exactly the data |
| ContactForm.PayloadOf | src/components/ui/ContactFormModal.jsx:68-93 | type is the tab, the message is trimmed, the email is trimmed or null when blank, the platform is "nina-web", the attachment is null without a file |
| ContactForm.Submitted | src/components/ui/ContactFormModal.jsx:57-102 | a blank message only sets the error; a failed file read sends nothing; `sent` only after an accepted post; a failure sets the error; loading ends; typed fields are never changed |
| ContactForm.AttachmentOnlyOnErrorTab | src/components/ui/ContactFormModal.jsx:178 | every operation keeps any attachment on the error tab |
| ContactForm.ContactFormModal.constructor | src/components/ui/ContactFormModal.jsx:16-23 | the initial form with the default tab |
| ContactForm.ContactFormModal.HandleReset | src/components/ui/ContactFormModal.jsx:26-33 | the new state is Reset of the old |
| ContactForm.ContactFormModal.SetMessage | src/components/ui/ContactFormModal.jsx:156 | only the message changes |
| ContactForm.ContactFormModal.SetSenderEmail | src/components/ui/ContactFormModal.jsx:171 | only the email changes |
| ContactForm.ContactFormModal.HandleTabChange | src/components/ui/ContactFormModal.jsx:40-44 | the new state is TabChanged of the old |
| ContactForm.ContactFormModal.HandleFileChange | src/components/ui/ContactFormModal.jsx:46-55 | the new state is FileChanged of the old |
| ContactForm.ContactFormModal.RemoveFile | src/components/ui/ContactFormModal.jsx:196 | only the file is cleared |
| ContactForm.ContactFormModal.HandleSubmit | src/components/ui/ContactFormModal.jsx:57-102 | the new state and the posted body are Submitted of the old state |

## Left out

- `src/lib/api.js`: `fetch`, the abort timeout and JSON parsing are not modelled. Each call's outcome is an input, `Ok(data)` or `Failed`. A JSON `null` profile reply is `Ok(None)`, which `setProfile` stores, clearing the profile. Elsewhere a `null` reply where the code reads a field (which throws and is caught) counts as `Failed`.
- The Supabase client is not modelled: `getSession`, `onAuthStateChange`, `signInWithPassword`, `signUp`, `signOut` and `signInWithOAuth`. Their results are events or parameters. `login` and `googleLogin` only call the client and rethrow its error.
- Real time and asynchronous interleaving are not modelled. Timer expiries are explicit events. Each fetch is one step covering its start and its settlement, so the `loading` value in between is not a separate state. The session store's events may arrive in any order.
- `encodeURIComponent` and `URLSearchParams.toString` are opaque function parameters. Percent-encoding is not implemented in the repository.
- `FileReader` and base64 encoding are not modelled. The data URL is an input. `window.open`, the assignments to `window.location` and `alert` appear only as effects.
- Console logging (`console.error` in `src/context/AuthContext.jsx:47`, `src/lib/api.js` and the modals' `catch` blocks) is left out: it changes no state the pages read.
- MobileRelay.ApplyStorage: `localStorage` is a map. Persistence across origins and quota errors are not modelled.
- Strings are sequences of Unicode scalar values, not UTF-16 code units. `slice(0, 2)` and `n[0]` in the initials therefore differ for characters outside the Basic Multilingual Plane.
- Text.Upper: `toUpperCase` is modelled character by character, for the Basic Latin and Latin-1 letters whose upper case is one character (the micro sign included). Mappings that change the length (such as 'ß' to "SS") and letters outside Latin-1 are left unchanged.
- NannyCard.Initials: built on Text.Upper, so its two-character bound holds for the model only; a length-changing mapping such as 'ß' to "SS" would break it in the browser.
- FormFields.ToNumber: only blank and optionally signed decimal integers are evaluated. Fractions and exponents (`1.5`, `1e3`) are kept as text without a value.
- Numeric fields the pages test for truthiness (`experience_years`, `min_months`, `preferred_hours_per_week`, an availability's `id`) are integers or missing. `NaN` and non-numeric JSON there are not modelled.
- `RESULT_CONFIG[outcome]` with an inherited property name (such as `"toString"`) is not modelled. Every outcome other than success and failure reads as pending.
- React Router's matching is not modelled. Paths are compared as exact strings, so case-insensitivity, trailing slashes and percent-decoding are left out.
- PaymentResult.PaymentResultPage.Mount: the polling effect also re-runs when `refetch` changes identity, which happens when the user changes. The model covers one run of the effect.
- The presentational files are not part of this model: the landing page, layout, navbar, footer, carousel and modal shell, buttons, cards and inputs. Nor are the thin wrappers: the subscription modal, the register page and the profile-selection page.
- The rating text (`rating_avg?.toFixed(1) ?? '5.0'`) is floating-point formatting and is left out.
- The tab configuration and the placeholder texts of the contact form are left out. A tab outside "error" and "suggestion" would make the page throw while rendering.
